/** A bot: its handler table, how the table is built, and how an inbound event is routed
    to exactly one handler (modules/github-bots/sdk/bot.go). */
module Bot {
  import opened Base
  import opened Schemas
  import opened Handlers

  type Table = map<EventType, Handler>

  /** The message the SDK panics with on a duplicate registration. */
  function DuplicateMessage(t: EventType): string {
    "handler for event type " + t + " already registered"
  }

  /** Every key of the table is its handler's own event type. */
  ghost predicate WellKeyed(table: Table) {
    forall k :: k in table ==> HandlerEventType(table[k]) == k
  }

  /** No two handlers of `hs` declare the same event type. */
  ghost predicate DistinctEventTypes(hs: seq<Handler>) {
    forall i, j :: 0 <= i < j < |hs| ==> HandlerEventType(hs[i]) != HandlerEventType(hs[j])
  }

  /** The event types declared by `hs`. */
  ghost function EventTypesOf(hs: seq<Handler>): set<EventType> {
    set i | 0 <= i < |hs| :: HandlerEventType(hs[i])
  }

  /** The table obtained by registering `hs` in order on `table`, or None when one of
      the registrations panics. */
  function RegisterAll(table: Table, hs: seq<Handler>): Option<Table>
    decreases |hs|
  {
    if hs == [] then Some(table)
    else if HandlerEventType(hs[0]) in table then None
    else RegisterAll(table[HandlerEventType(hs[0]) := hs[0]], hs[1..])
  }

  /** Registering a sequence succeeds exactly when its event types are pairwise distinct
      and none of them is already a key. */
  lemma {:induction false} RegisterAllSucceedsIff(table: Table, hs: seq<Handler>)
    ensures RegisterAll(table, hs).Some? <==>
              DistinctEventTypes(hs) && forall i :: 0 <= i < |hs| ==> HandlerEventType(hs[i]) !in table
    decreases |hs|
  {
    if hs != [] {
      var k := HandlerEventType(hs[0]);
      RegisterAllSucceedsIff(table[k := hs[0]], hs[1..]);
      if RegisterAll(table, hs).Some? {
        assert k !in table;
        forall i, j | 0 <= i < j < |hs| ensures HandlerEventType(hs[i]) != HandlerEventType(hs[j]) {
          if i > 0 {
            assert HandlerEventType(hs[1..][i - 1]) != HandlerEventType(hs[1..][j - 1]);
          } else {
            assert HandlerEventType(hs[1..][j - 1]) !in table[k := hs[0]];
          }
        }
        forall i | 0 <= i < |hs| ensures HandlerEventType(hs[i]) !in table {
          if i > 0 {
            assert HandlerEventType(hs[1..][i - 1]) !in table[k := hs[0]];
          }
        }
      } else if k !in table {
        if DistinctEventTypes(hs) && forall i :: 0 <= i < |hs| ==> HandlerEventType(hs[i]) !in table {
          forall i, j | 0 <= i < j < |hs| - 1 ensures HandlerEventType(hs[1..][i]) != HandlerEventType(hs[1..][j]) {
            assert HandlerEventType(hs[i + 1]) != HandlerEventType(hs[j + 1]);
          }
          forall i | 0 <= i < |hs| - 1 ensures HandlerEventType(hs[1..][i]) !in table[k := hs[0]] {
            assert HandlerEventType(hs[0]) != HandlerEventType(hs[i + 1]);
          }
          assert false;
        }
      }
    }
  }

  /** A successful registration never overwrites an entry, stores every handler under its
      own event type, adds nothing else, and keeps a well-keyed table well-keyed. */
  lemma {:induction false} RegisterAllKeepsWellKeyed(table: Table, hs: seq<Handler>)
    requires RegisterAll(table, hs).Some?
    ensures var r := RegisterAll(table, hs).value;
      && r.Keys == table.Keys + EventTypesOf(hs)
      && (forall k :: k in table ==> r[k] == table[k])
      && (forall i :: 0 <= i < |hs| ==> r[HandlerEventType(hs[i])] == hs[i])
      && (WellKeyed(table) ==> WellKeyed(r))
    decreases |hs|
  {
    if hs != [] {
      var k := HandlerEventType(hs[0]);
      var t' := table[k := hs[0]];
      RegisterAllKeepsWellKeyed(t', hs[1..]);
      var r := RegisterAll(table, hs).value;
      assert r == RegisterAll(t', hs[1..]).value;
      assert EventTypesOf(hs) == {k} + EventTypesOf(hs[1..]) by {
        forall x | x in EventTypesOf(hs) ensures x in {k} + EventTypesOf(hs[1..]) {
          var i :| 0 <= i < |hs| && HandlerEventType(hs[i]) == x;
          if i > 0 { assert HandlerEventType(hs[1..][i - 1]) == x; }
        }
        forall x | x in EventTypesOf(hs[1..]) ensures x in EventTypesOf(hs) {
          var i :| 0 <= i < |hs[1..]| && HandlerEventType(hs[1..][i]) == x;
          assert HandlerEventType(hs[i + 1]) == x;
        }
      }
      forall i | 0 <= i < |hs| ensures r[HandlerEventType(hs[i])] == hs[i] {
        if i > 0 { assert hs[i] == hs[1..][i - 1]; }
      }
    }
  }

  /** An option accepted by NewBot; BotWithHandler is the only one the SDK provides. */
  datatype BotOption = BotWithHandler(handler: Handler)

  function OptionHandlers(opts: seq<BotOption>): (hs: seq<Handler>)
    ensures |hs| == |opts| && forall i :: 0 <= i < |opts| ==> hs[i] == opts[i].handler
  {
    seq(|opts|, i requires 0 <= i < |opts| => opts[i].handler)
  }

  /** A bot's name and its table from event type to handler. The table is an exported
      field: code outside the SDK may write it directly, so well-keyedness is a property
      of tables built through RegisterHandler, not an invariant of every Bot. */
  class Bot {
    var name: string
    var handlers: Table

    constructor (name: string)
      ensures this.name == name && handlers == map[]
    {
      this.name := name;
      handlers := map[];
    }

    /** Adds the handler under its event type, or panics (leaving the table as it was) when
        that type already has a handler. */
    method RegisterHandler(h: Handler) returns (panicked: Option<string>)
      modifies this
      ensures name == old(name)
      ensures HandlerEventType(h) in old(handlers) ==>
                panicked == Some(DuplicateMessage(HandlerEventType(h))) && handlers == old(handlers)
      ensures HandlerEventType(h) !in old(handlers) ==>
                panicked == None && handlers == old(handlers)[HandlerEventType(h) := h]
      ensures RegisterAll(old(handlers), [h]) == if panicked.None? then Some(handlers) else None
      ensures WellKeyed(old(handlers)) ==> WellKeyed(handlers)
    {
      var etype := HandlerEventType(h);
      if etype in handlers {
        return Some(DuplicateMessage(etype));
      }
      handlers := handlers[etype := h];
      panicked := None;
    }
  }

  /** Creates a bot with the given name and an empty table, then applies the options in
      order. A duplicate registration panics out of NewBot (`panicked` is Some); otherwise
      the table is the in-order registration of the options' handlers, well-keyed. */
  method NewBot(name: string, opts: seq<BotOption>) returns (bot: Bot, panicked: Option<string>)
    ensures fresh(bot) && bot.name == name
    ensures panicked.None? <==> RegisterAll(map[], OptionHandlers(opts)).Some?
    ensures panicked.None? ==> bot.handlers == RegisterAll(map[], OptionHandlers(opts)).value
    ensures panicked.None? ==> WellKeyed(bot.handlers)
  {
    ghost var hs := OptionHandlers(opts);
    bot := new Bot(name);
    panicked := None;
    var i := 0;
    while i < |opts|
      invariant 0 <= i <= |opts|
      invariant fresh(bot) && bot.name == name && panicked.None?
      invariant RegisterAll(bot.handlers, hs[i..]) == RegisterAll(map[], hs)
      invariant WellKeyed(bot.handlers)
    {
      assert hs[i..] == [hs[i]] + hs[i + 1..];
      var p := bot.RegisterHandler(opts[i].handler);
      if p.Some? {
        return bot, p;
      }
      i := i + 1;
    }
    if RegisterAll(map[], hs).Some? {
      RegisterAllKeepsWellKeyed(map[], hs);
    }
  }

  // ---------------------------------------------------------------------------------
  // Dispatch

  /** A JSON encoding and decoding of one type, as partial functions. */
  datatype Codec<!T> = Codec(encode: T -> Result<Bytes>, decode: Bytes -> Result<T>)

  /** The decoders dispatch uses: event.DataAs for each wrapper type and the codecs of
      the three subject types used by marshalTo. */
  datatype Decoders = Decoders(
    pullRequestEvent: Bytes -> Result<Wrapper<PullRequestPayload>>,
    workflowRunEvent: Bytes -> Result<Wrapper<WorkflowRunPayload>>,
    checkRunEvent: Bytes -> Result<Wrapper<CheckRunPayload>>,
    pullRequest: Codec<PullRequest>,
    workflowRun: Codec<WorkflowRun>,
    checkRun: Codec<CheckRun>)

  /** marshalTo: encode the source and decode the bytes into the target type; the encode
      error, when there is one, is returned as it is. */
  function MarshalTo<S, T>(encode: S -> Result<Bytes>, decode: Bytes -> Result<T>, source: S): (r: Result<T>)
  {
    match encode(source)
    case Err(e) => Err(e)
    case Ok(bytes) => decode(bytes)
  }

  /** marshalTo fails exactly with the encode error when encoding fails, and otherwise
      yields whatever decoding the encoded bytes yields; through a codec that is lossless on
      `x` it gives back `x` itself. */
  lemma MarshalToSpec<T>(c: Codec<T>, x: T)
    ensures c.encode(x).Err? ==> MarshalTo(c.encode, c.decode, x) == Err(c.encode(x).error)
    ensures c.encode(x).Ok? ==> MarshalTo(c.encode, c.decode, x) == c.decode(c.encode(x).value)
    ensures c.encode(x).Ok? && c.decode(c.encode(x).value) == Ok(x) ==>
              MarshalTo(c.encode, c.decode, x) == Ok(x)
  {
  }

  /** The arguments a handler is called with: the decoded payload and its re-decoded subject. */
  datatype Call =
    | PullRequestCall(pullRequestPayload: PullRequestPayload, pr: PullRequest)
    | WorkflowRunCall(workflowRunPayload: WorkflowRunPayload, run: WorkflowRun)
    | CheckRunCall(checkRunPayload: CheckRunPayload, check: CheckRun)

  /** The handler's function type accepts the call's arguments. */
  predicate Fits(h: Handler, c: Call) {
    || (h.PullRequestHandler? && c.PullRequestCall?)
    || (h.WorkflowRunHandler? && c.WorkflowRunCall?)
    || (h.CheckRunHandler? && c.CheckRunCall?)
  }

  /** The event type whose payload schema the call was decoded with. */
  function CallEventType(c: Call): EventType {
    match c
    case PullRequestCall(_, _) => PullRequestEvent
    case WorkflowRunCall(_, _) => WorkflowRunEvent
    case CheckRunCall(_, _) => CheckRunEvent
  }

  /** Runs the handler on the call and returns its error. */
  function Apply(h: Handler, c: Call): Outcome
    requires Fits(h, c)
  {
    match c
    case PullRequestCall(e, pr) => h.onPullRequest(e, pr)
    case WorkflowRunCall(e, run) => h.onWorkflowRun(e, run)
    case CheckRunCall(e, check) => h.onCheckRun(e, check)
  }

  /** The decoding steps of one branch of the type switch: decode the wrapper, then
      re-decode the nested subject through marshalTo. */
  function Decode(h: Handler, d: Decoders, data: Bytes): (r: Result<Call>)
    requires IsSdkHandler(h)
    ensures r.Ok? ==> Fits(h, r.value) && CallEventType(r.value) == HandlerEventType(h)
    ensures h.PullRequestHandler? ==>
              match d.pullRequestEvent(data)
              case Err(e) => r == Err(e)
              case Ok(w) =>
                match MarshalTo(d.pullRequest.encode, d.pullRequest.decode, w.body.pullRequest)
                case Err(e) => r == Err(e)
                case Ok(pr) => r == Ok(PullRequestCall(w.body, pr))
    ensures h.WorkflowRunHandler? ==>
              match d.workflowRunEvent(data)
              case Err(e) => r == Err(e)
              case Ok(w) =>
                match MarshalTo(d.workflowRun.encode, d.workflowRun.decode, w.body.workflowRun)
                case Err(e) => r == Err(e)
                case Ok(run) => r == Ok(WorkflowRunCall(w.body, run))
    ensures h.CheckRunHandler? ==>
              match d.checkRunEvent(data)
              case Err(e) => r == Err(e)
              case Ok(w) =>
                match MarshalTo(d.checkRun.encode, d.checkRun.decode, w.body.checkRun)
                case Err(e) => r == Err(e)
                case Ok(check) => r == Ok(CheckRunCall(w.body, check))
  {
    match h
    case WorkflowRunHandler(_) =>
      (match d.workflowRunEvent(data)
       case Err(e) => Err(e)
       case Ok(w) =>
         match MarshalTo(d.workflowRun.encode, d.workflowRun.decode, w.body.workflowRun)
         case Err(e) => Err(e)
         case Ok(run) => Ok(WorkflowRunCall(w.body, run)))
    case PullRequestHandler(_) =>
      (match d.pullRequestEvent(data)
       case Err(e) => Err(e)
       case Ok(w) =>
         match MarshalTo(d.pullRequest.encode, d.pullRequest.decode, w.body.pullRequest)
         case Err(e) => Err(e)
         case Ok(pr) => Ok(PullRequestCall(w.body, pr)))
    case CheckRunHandler(_) =>
      (match d.checkRunEvent(data)
       case Err(e) => Err(e)
       case Ok(w) =>
         match MarshalTo(d.checkRun.encode, d.checkRun.decode, w.body.checkRun)
         case Err(e) => Err(e)
         case Ok(check) => Ok(CheckRunCall(w.body, check)))
  }

  /** What the receiver does with an event: ignore it, reject it with an error, or invoke
      one handler with one set of decoded arguments. */
  datatype Route = Ignored | Rejected(error: Error) | Invoked(handler: Handler, call: Call)

  /** The receiver closure's decision. An event is ignored exactly when its type has no
      entry or the entry is not one of the SDK's handler types; otherwise it is rejected with
      a decoding error or handed to the handler registered under its type, decoded with that
      handler's schema. */
  function RouteEvent(table: Table, d: Decoders, ev: Event): (r: Route)
    ensures r.Ignored? <==> ev.eventType !in table || !IsSdkHandler(table[ev.eventType])
    ensures r.Invoked? ==>
              && ev.eventType in table
              && r.handler == table[ev.eventType]
              && Fits(r.handler, r.call)
              && CallEventType(r.call) == HandlerEventType(r.handler)
  {
    if ev.eventType !in table then Ignored
    else
      var h := table[ev.eventType];
      if !IsSdkHandler(h) then Ignored
      else match Decode(h, d, ev.data)
        case Err(e) => Rejected(e)
        case Ok(c) => Invoked(h, c)
  }

  /** The receiver closure: the error returned to the CloudEvents transport. An ignored
      event gives nil, a decoding failure gives the decoding error, and an invocation gives
      the handler's own error unchanged. */
  function Dispatch(table: Table, d: Decoders, ev: Event): (r: Outcome)
    ensures ev.eventType !in table ==> r == Pass
    ensures ev.eventType in table && !IsSdkHandler(table[ev.eventType]) ==> r == Pass
    ensures RouteEvent(table, d, ev).Rejected? ==> r == Fail(RouteEvent(table, d, ev).error)
    ensures RouteEvent(table, d, ev).Invoked? ==>
              r == Apply(table[ev.eventType], RouteEvent(table, d, ev).call)
  {
    match RouteEvent(table, d, ev)
    case Ignored => Pass
    case Rejected(e) => Fail(e)
    case Invoked(h, c) => Apply(h, c)
  }

  /** A decoding failure, of the wrapper or of the subject, is returned as it is and no
      handler runs. */
  lemma DispatchRejectsDecodeFailure(table: Table, d: Decoders, ev: Event)
    requires ev.eventType in table
    ensures table[ev.eventType].PullRequestHandler? && d.pullRequestEvent(ev.data).Err? ==>
              Dispatch(table, d, ev) == Fail(d.pullRequestEvent(ev.data).error)
    ensures table[ev.eventType].PullRequestHandler? && d.pullRequestEvent(ev.data).Ok? ==>
              var subject := MarshalTo(d.pullRequest.encode, d.pullRequest.decode, d.pullRequestEvent(ev.data).value.body.pullRequest);
              subject.Err? ==> Dispatch(table, d, ev) == Fail(subject.error)
    ensures table[ev.eventType].WorkflowRunHandler? && d.workflowRunEvent(ev.data).Err? ==>
              Dispatch(table, d, ev) == Fail(d.workflowRunEvent(ev.data).error)
    ensures table[ev.eventType].WorkflowRunHandler? && d.workflowRunEvent(ev.data).Ok? ==>
              var subject := MarshalTo(d.workflowRun.encode, d.workflowRun.decode, d.workflowRunEvent(ev.data).value.body.workflowRun);
              subject.Err? ==> Dispatch(table, d, ev) == Fail(subject.error)
    ensures table[ev.eventType].CheckRunHandler? && d.checkRunEvent(ev.data).Err? ==>
              Dispatch(table, d, ev) == Fail(d.checkRunEvent(ev.data).error)
    ensures table[ev.eventType].CheckRunHandler? && d.checkRunEvent(ev.data).Ok? ==>
              var subject := MarshalTo(d.checkRun.encode, d.checkRun.decode, d.checkRunEvent(ev.data).value.body.checkRun);
              subject.Err? ==> Dispatch(table, d, ev) == Fail(subject.error)
  {
  }

  /** When the payload of a pull-request event decodes and its subject re-decodes, the
      registered handler is called once with exactly those values and its error is the
      result; the workflow-run and check-run branches are alike. */
  lemma DispatchInvokesPullRequestHandler(table: Table, d: Decoders, ev: Event,
                                          w: Wrapper<PullRequestPayload>, pr: PullRequest)
    requires ev.eventType in table && table[ev.eventType].PullRequestHandler?
    requires d.pullRequestEvent(ev.data) == Ok(w)
    requires MarshalTo(d.pullRequest.encode, d.pullRequest.decode, w.body.pullRequest) == Ok(pr)
    ensures RouteEvent(table, d, ev) == Invoked(table[ev.eventType], PullRequestCall(w.body, pr))
    ensures Dispatch(table, d, ev) == table[ev.eventType].onPullRequest(w.body, pr)
  {
  }

  lemma DispatchInvokesWorkflowRunHandler(table: Table, d: Decoders, ev: Event,
                                          w: Wrapper<WorkflowRunPayload>, run: WorkflowRun)
    requires ev.eventType in table && table[ev.eventType].WorkflowRunHandler?
    requires d.workflowRunEvent(ev.data) == Ok(w)
    requires MarshalTo(d.workflowRun.encode, d.workflowRun.decode, w.body.workflowRun) == Ok(run)
    ensures RouteEvent(table, d, ev) == Invoked(table[ev.eventType], WorkflowRunCall(w.body, run))
    ensures Dispatch(table, d, ev) == table[ev.eventType].onWorkflowRun(w.body, run)
  {
  }

  lemma DispatchInvokesCheckRunHandler(table: Table, d: Decoders, ev: Event,
                                       w: Wrapper<CheckRunPayload>, check: CheckRun)
    requires ev.eventType in table && table[ev.eventType].CheckRunHandler?
    requires d.checkRunEvent(ev.data) == Ok(w)
    requires MarshalTo(d.checkRun.encode, d.checkRun.decode, w.body.checkRun) == Ok(check)
    ensures RouteEvent(table, d, ev) == Invoked(table[ev.eventType], CheckRunCall(w.body, check))
    ensures Dispatch(table, d, ev) == table[ev.eventType].onCheckRun(w.body, check)
  {
  }

  /** In a well-keyed table (one built through RegisterHandler) an event is always decoded
      with the schema of its own type. */
  lemma WellKeyedDecodesByEventType(table: Table, d: Decoders, ev: Event)
    requires WellKeyed(table)
    ensures RouteEvent(table, d, ev).Invoked? ==>
              CallEventType(RouteEvent(table, d, ev).call) == ev.eventType
  {
  }

  /** A table written directly with a pull-request handler under the workflow-run key is
      not ignored by the type switch: a workflow-run event is decoded as a pull-request
      payload and, if that decodes, handed to the pull-request handler. */
  lemma MisKeyedEntryDecodesByVariant(f: (PullRequestPayload, PullRequest) -> Outcome,
                                      d: Decoders, ev: Event)
    requires ev.eventType == WorkflowRunEvent
    ensures var table := map[WorkflowRunEvent := PullRequestHandler(f)];
      && !WellKeyed(table)
      && RouteEvent(table, d, ev) == (match Decode(PullRequestHandler(f), d, ev.data)
                                      case Err(e) => Rejected(e)
                                      case Ok(c) => Invoked(PullRequestHandler(f), c))
      && (RouteEvent(table, d, ev).Invoked? ==> RouteEvent(table, d, ev).call.PullRequestCall?)
  {
    var table := map[WorkflowRunEvent := PullRequestHandler(f)];
    KnownEventTypesDistinct();
    assert HandlerEventType(table[WorkflowRunEvent]) != WorkflowRunEvent;
  }
}
