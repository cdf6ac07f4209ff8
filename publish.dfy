/** Publishing events as CloudEvents and framing values as newline-delimited JSON
    (pkg/pubsub/publish.go). The CloudEvents client, the JSON encoder, the clock, the id
    generator and the metadata server are supplied as inputs. */
module Publish {
  import opened Base
  import opened Schemas

  /** The publisher's configuration: the `source` attribute of every event it sends. */
  datatype Options = Options(source: string)

  /** Publish's retry policy, handed to the CloudEvents client: exponential backoff
      starting at 10 milliseconds, at most 3 retries. */
  const RetryDelayMillis: int := 10
  const MaxRetry: int := 3

  const SpecVersion: string := "1.0"
  const ApplicationJson: string := "application/json"

  /** The result of the CloudEvents client's Send: acknowledged, refused by the receiver,
      or not delivered at all. */
  datatype SendResult = Ack | Nack(error: Error) | Undelivered(error: Error)

  /** The data of a published event: the publication time and the caller's raw JSON. */
  datatype EventData = EventData(when: Time, body: Bytes)

  // ---------------------------------------------------------------------------------
  // Source

  /** getSource: "https://" and the instance's internal address, or "unknown" when the
      address cannot be looked up; it never fails. */
  function GetSource(ip: Result<string>): (source: string)
    ensures source != ""
    ensures ip.Err? <==> source == "unknown"
    ensures ip.Ok? ==> |source| >= 8 && source[..8] == "https://" && source[8..] == ip.value
  {
    if ip.Err? then "unknown" else "https://" + ip.value
  }

  /** Distinct addresses give distinct sources. */
  lemma SourceIdentifiesAddress(a: string, b: string)
    ensures GetSource(Ok(a)) == GetSource(Ok(b)) <==> a == b
  {
    if GetSource(Ok(a)) == GetSource(Ok(b)) {
      assert a == GetSource(Ok(a))[8..];
    }
  }

  // ---------------------------------------------------------------------------------
  // Publish

  /** The extension attributes after Publish's loop over the caller's map has attached the
      keys outside `pending`. */
  ghost function Attached(extensions: map<string, Value>, pending: set<string>): map<string, Value> {
    map k | k in extensions.Keys - pending :: extensions[k]
  }

  /** Publish: builds a CloudEvents 1.0 event with a fresh id, the configured source, the
      caller's subject, type and extensions and the current time, sets its data to the
      JSON of {when, body}, and sends it. An encoding failure returns before sending; an
      undelivered or refused send is returned as the error; an acknowledged one gives no
      error. `sent` is the event handed to the client, if any. */
  method Publish(o: Options, data: Bytes, eventType: string, subject: string,
                 extensions: map<string, Value>, id: string, eventTime: Time, dataTime: Time,
                 encode: EventData -> Result<Bytes>, send: Event -> SendResult)
    returns (sent: Option<Event>, err: Option<Error>)
    ensures encode(EventData(dataTime, data)).Err? ==>
              sent == None && err == Some(Describe("failed to set data", encode(EventData(dataTime, data)).error))
    ensures encode(EventData(dataTime, data)).Ok? ==> sent.Some?
    ensures sent.Some? ==>
              var ev := sent.value;
              && ev.id == id && ev.source == o.source && ev.specVersion == SpecVersion
              && ev.eventType == eventType && ev.subject == subject && ev.time == Some(eventTime)
              && ev.extensions == extensions
              && ev.dataContentType == ApplicationJson
              && encode(EventData(dataTime, data)) == Ok(ev.data)
    ensures sent.Some? ==>
              match send(sent.value)
              case Ack => err == None
              case Nack(e) => err == Some(e)
              case Undelivered(e) => err == Some(e)
    ensures err.None? <==> sent.Some? && send(sent.value) == Ack
  {
    var ev := Event("", "", SpecVersion, "", "", None, map[], "", []);
    ev := ev.(id := id);
    ev := ev.(source := o.source);
    ev := ev.(subject := subject);
    ev := ev.(eventType := eventType);
    ev := ev.(time := Some(eventTime));
    ev := ev.(specVersion := SpecVersion);
    ghost var attributes := ev;
    var pending := extensions.Keys;
    while pending != {}
      invariant pending <= extensions.Keys
      invariant ev == attributes.(extensions := ev.extensions)
      invariant ev.extensions == Attached(extensions, pending)
      decreases pending
    {
      var k :| k in pending;
      ev := ev.(extensions := ev.extensions[k := extensions[k]]);
      pending := pending - {k};
    }
    assert ev.extensions == extensions;

    match encode(EventData(dataTime, data))
    case Err(e) =>
      return None, Some(Describe("failed to set data", e));
    case Ok(payload) =>
      ev := ev.(dataContentType := ApplicationJson, data := payload);

    sent := Some(ev);
    match send(ev)
    case Ack => err := None;
    case Nack(e) => err := Some(e);
    case Undelivered(e) => err := Some(e);
  }

  // ---------------------------------------------------------------------------------
  // Newline-delimited JSON

  /** The parts separated by single `sep` elements. */
  function Join<C>(parts: seq<seq<C>>, sep: C): seq<C> {
    if parts == [] then []
    else if |parts| == 1 then parts[0]
    else parts[0] + [sep] + Join(parts[1..], sep)
  }

  /** The encodings of the items, in order, or the first encoding failure, described as
      "error marshalling item to JSON". */
  function Encodings<T>(items: seq<T>, marshal: T -> Result<Bytes>): (r: Result<seq<Bytes>>)
    ensures r.Ok? ==> |r.value| == |items| &&
                      forall i :: 0 <= i < |items| ==> marshal(items[i]) == Ok(r.value[i])
    ensures r.Err? <==> exists i :: 0 <= i < |items| && marshal(items[i]).Err?
  {
    if items == [] then Ok([])
    else match marshal(items[0])
      case Err(e) => Err(Describe("error marshalling item to JSON", e))
      case Ok(first) =>
        match Encodings(items[1..], marshal)
        case Err(e) => Err(e)
        case Ok(rest) =>
          assert forall i :: 1 <= i < |items| ==> items[i] == items[1..][i - 1];
          Ok([first] + rest)
  }

  /** The first failing item decides the error. */
  lemma {:induction false} EncodingsFirstError<T>(items: seq<T>, marshal: T -> Result<Bytes>, i: nat)
    requires i < |items| && marshal(items[i]).Err?
    requires forall j :: 0 <= j < i ==> marshal(items[j]).Ok?
    ensures Encodings(items, marshal) == Err(Describe("error marshalling item to JSON", marshal(items[i]).error))
  {
    if i > 0 {
      EncodingsFirstError(items[1..], marshal, i - 1);
    }
  }

  /** Appending one more part after a newline. */
  lemma {:induction false} JoinSnoc(parts: seq<Bytes>, last: Bytes)
    requires parts != []
    ensures Join(parts + [last], Newline) == Join(parts, Newline) + [Newline] + last
    decreases |parts|
  {
    if |parts| == 1 {
      assert parts + [last] == [parts[0], last];
    } else {
      assert (parts + [last])[1..] == parts[1..] + [last];
      JoinSnoc(parts[1..], last);
    }
  }

  /** ConvertToNDJSON: each item's JSON encoding followed by a newline, except after the
      last. Empty input gives empty output; an item that fails to encode gives no output at
      all and the error. */
  method ConvertToNDJSON<T>(items: seq<T>, marshal: T -> Result<Bytes>) returns (data: Bytes, err: Option<Error>)
    ensures Encodings(items, marshal).Ok? ==> err == None && data == Join(Encodings(items, marshal).value, Newline)
    ensures Encodings(items, marshal).Err? ==> err == Some(Encodings(items, marshal).error) && data == []
    ensures items == [] ==> data == [] && err == None
  {
    data := [];
    var lastIndex := |items| - 1;
    ghost var encs: seq<Bytes> := [];
    for i := 0 to |items|
      invariant |encs| == i
      invariant forall j :: 0 <= j < i ==> marshal(items[j]) == Ok(encs[j])
      invariant i == 0 ==> data == []
      invariant 0 < i < |items| ==> data == Join(encs, Newline) + [Newline]
      invariant 0 < i == |items| ==> data == Join(encs, Newline)
    {
      match marshal(items[i])
      case Err(e) =>
        EncodingsFirstError(items, marshal, i);
        return [], Some(Describe("error marshalling item to JSON", e));
      case Ok(itemJson) =>
        if i > 0 {
          JoinSnoc(encs, itemJson);
        }
        data := data + itemJson;
        encs := encs + [itemJson];
        if i < lastIndex {
          data := data + [Newline];
        }
    }
    assert Encodings(items, marshal).Ok? && Encodings(items, marshal).value == encs;
    err := None;
  }

  /** The bytes of an NDJSON document split at every newline; a document without one is a
      single line. */
  function Split(bs: Bytes): (lines: seq<Bytes>)
    ensures |lines| >= 1
  {
    if bs == [] then [[]]
    else if bs[0] == Newline then [[]] + Split(bs[1..])
    else
      var rest := Split(bs[1..]);
      [[bs[0]] + rest[0]] + rest[1..]
  }

  predicate NoNewline(bs: Bytes) {
    forall i :: 0 <= i < |bs| ==> bs[i] != Newline
  }

  /** A line without a newline runs into whatever follows it. */
  lemma {:induction false} SplitPrefix(line: Bytes, rest: Bytes)
    requires NoNewline(line)
    ensures Split(line + rest) == [line + Split(rest)[0]] + Split(rest)[1..]
    decreases |line|
  {
    if line != [] {
      assert (line + rest)[0] == line[0] && (line + rest)[1..] == line[1..] + rest;
      SplitPrefix(line[1..], rest);
      assert [line[0]] + (line[1..] + Split(rest)[0]) == line + Split(rest)[0];
    } else {
      assert line + rest == rest && line + Split(rest)[0] == Split(rest)[0];
      assert Split(rest) == [Split(rest)[0]] + Split(rest)[1..];
    }
  }

  /** Splitting NDJSON gives back the encodings, in order, provided none contains a raw
      newline (true of every output of encoding/json). */
  lemma {:induction false} SplitJoin(parts: seq<Bytes>)
    requires parts != []
    requires forall i :: 0 <= i < |parts| ==> NoNewline(parts[i])
    ensures Split(Join(parts, Newline)) == parts
    decreases |parts|
  {
    if |parts| == 1 {
      SplitPrefix(parts[0], []);
      assert parts[0] + [] == parts[0];
    } else {
      SplitJoin(parts[1..]);
      var tail := [Newline] + Join(parts[1..], Newline);
      assert parts[0] + [Newline] + Join(parts[1..], Newline) == parts[0] + tail;
      SplitPrefix(parts[0], tail);
      assert tail[0] == Newline && tail[1..] == Join(parts[1..], Newline);
      assert Split(tail) == [[]] + parts[1..];
      assert Split(tail)[0] == [] && Split(tail)[1..] == parts[1..];
      assert parts[0] + [] == parts[0];
      assert Join(parts, Newline) == parts[0] + tail;
      assert parts == [parts[0]] + parts[1..];
    }
  }

  /** The number of newline bytes in a document. */
  function Newlines(bs: Bytes): (n: nat)
    ensures n <= |bs|
  {
    if bs == [] then 0 else (if bs[0] == Newline then 1 else 0) + Newlines(bs[1..])
  }

  lemma {:induction false} NewlinesAppend(a: Bytes, b: Bytes)
    ensures Newlines(a + b) == Newlines(a) + Newlines(b)
    decreases |a|
  {
    if a != [] {
      assert (a + b)[0] == a[0] && (a + b)[1..] == a[1..] + b;
      NewlinesAppend(a[1..], b);
    } else {
      assert a + b == b;
    }
  }

  lemma {:induction false} NoNewlineCount(bs: Bytes)
    requires NoNewline(bs)
    ensures Newlines(bs) == 0
    decreases |bs|
  {
    if bs != [] {
      NoNewlineCount(bs[1..]);
    }
  }

  /** N encodings without raw newlines are framed with exactly N - 1 separators. */
  lemma {:induction false} JoinSeparators(parts: seq<Bytes>)
    requires parts != []
    requires forall i :: 0 <= i < |parts| ==> NoNewline(parts[i])
    ensures Newlines(Join(parts, Newline)) == |parts| - 1
    decreases |parts|
  {
    NoNewlineCount(parts[0]);
    if |parts| > 1 {
      JoinSeparators(parts[1..]);
      NewlinesAppend(parts[0] + [Newline], Join(parts[1..], Newline));
      NewlinesAppend(parts[0], [Newline]);
    }
  }

  /** The output never ends in a newline when the last encoding is non-empty (JSON values
      always are). */
  lemma {:induction false} JoinNoTrailingNewline(parts: seq<Bytes>)
    requires parts != [] && parts[|parts| - 1] != []
    requires NoNewline(parts[|parts| - 1])
    ensures |Join(parts, Newline)| > 0 && Join(parts, Newline)[|Join(parts, Newline)| - 1] != Newline
    decreases |parts|
  {
    if |parts| > 1 {
      JoinNoTrailingNewline(parts[1..]);
    }
  }

  /** The bytes of a string of characters below 256 (each character taken modulo 256). */
  function Latin1(s: string): (r: Bytes)
    ensures |r| == |s| && forall i :: 0 <= i < |s| && s[i] as int < 256 ==> r[i] as int == s[i] as int
  {
    seq(|s|, i requires 0 <= i < |s| => (s[i] as int % 256) as byte)
  }

  lemma Latin1Append(a: string, b: string)
    ensures Latin1(a + b) == Latin1(a) + Latin1(b)
  {
    assert forall i :: 0 <= i < |a + b| ==> (a + b)[i] == if i < |a| then a[i] else b[i - |a|];
  }

  /** The record type of the NDJSON test. */
  datatype Person = Person(name: string, age: nat)

  function Digit(d: nat): char
    requires d < 10
  {
    "0123456789"[d]
  }

  /** The decimal digits of n. */
  function Decimal(n: nat): (s: string)
    ensures |s| >= 1 && forall i :: 0 <= i < |s| ==> '0' <= s[i] <= '9'
  {
    if n < 10 then [Digit(n)] else Decimal(n / 10) + [Digit(n % 10)]
  }

  /** json.Marshal of a Person whose name needs no escaping. */
  function PersonJson(p: Person): Result<Bytes> {
    Ok(Latin1("{\"name\":\"" + p.name + "\",\"age\":" + Decimal(p.age) + "}"))
  }

  const James: Person := Person("James", 30)
  const Felix: Person := Person("Felix", 25)
  const JamesJson: string := "{\"name\":\"James\",\"age\":30}"
  const FelixJson: string := "{\"name\":\"Felix\",\"age\":25}"
  const PeopleNdjson: string := "{\"name\":\"James\",\"age\":30}\n{\"name\":\"Felix\",\"age\":25}"

  /** Two items that encode give their two encodings. */
  lemma EncodingsOfTwo<T>(a: T, b: T, marshal: T -> Result<Bytes>)
    requires marshal(a).Ok? && marshal(b).Ok?
    ensures Encodings([a, b], marshal) == Ok([marshal(a).value, marshal(b).value])
  {
    var items := [a, b];
    assert forall i :: 0 <= i < |items| ==> marshal(items[i]).Ok?;
    var r := Encodings(items, marshal);
    assert marshal(items[0]) == Ok(r.value[0]) && marshal(items[1]) == Ok(r.value[1]);
    assert r.value == [marshal(a).value, marshal(b).value];
  }

  lemma DigitsOf(n: nat, tens: nat, units: nat)
    requires 1 <= tens < 10 && units < 10 && n == 10 * tens + units
    ensures Decimal(n) == [Digit(tens), Digit(units)]
  {
    assert n / 10 == tens && n % 10 == units;
  }

  /** James encodes to the test's first expected line. */
  lemma JamesEncoded()
    ensures PersonJson(James) == Ok(Latin1(JamesJson))
  {
    DigitsOf(30, 3, 0);
    assert Digit(3) == '3' && Digit(0) == '0';
    assert "{\"name\":\"" + "James" + "\",\"age\":" + "30" + "}" == JamesJson;
  }

  /** Felix encodes to the test's second expected line. */
  lemma FelixEncoded()
    ensures PersonJson(Felix) == Ok(Latin1(FelixJson))
  {
    DigitsOf(25, 2, 5);
    assert Digit(2) == '2' && Digit(5) == '5';
    assert "{\"name\":\"" + "Felix" + "\",\"age\":" + "25" + "}" == FelixJson;
  }

  /** The two lines joined by a newline are the expected document. */
  lemma PeopleFramed()
    ensures Join([Latin1(JamesJson), Latin1(FelixJson)], Newline) == Latin1(PeopleNdjson)
  {
    Latin1Append(JamesJson, "\n");
    Latin1Append(JamesJson + "\n", FelixJson);
    assert Latin1("\n") == [Newline];
    assert JamesJson + "\n" + FelixJson == PeopleNdjson;
  }

  /** ConvertToNDJSON on the test's two people yields the expected two lines, no error. */
  method ConvertToNDJSONPeople() returns (data: Bytes, err: Option<Error>)
    ensures err == None && data == Latin1(PeopleNdjson)
  {
    JamesEncoded();
    FelixEncoded();
    EncodingsOfTwo(James, Felix, PersonJson);
    PeopleFramed();
    data, err := ConvertToNDJSON([James, Felix], PersonJson);
  }
}
