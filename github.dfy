/** The GitHub client a handler uses: a token source that runs the Octo STS exchange at
    most once, and idempotent label and comment operations, log download and pull-request
    lookup against an abstract GitHub (modules/github-bots/sdk/github.go). GitHub's
    answers are inputs; what GitHub holds is a `State` value. */
module GitHub {
  import opened Base
  import opened Schemas
  import OctoSts

  // ---------------------------------------------------------------------------------
  // Token source

  /** An oauth2.Token; only its access token is used. */
  datatype OAuthToken = OAuthToken(accessToken: string)

  /** The token source behind a client. `done` is the sync.Once flag; `tok` is nil until
      the exchange has run and is set by that run even when the exchange fails (with an
      empty access token). */
  class TokenSource {
    const org: string
    const repo: string
    const policyName: string
    var done: bool
    var tok: Option<OAuthToken>
    var err: Option<Error>
    ghost var exchanges: nat

    ghost predicate Valid()
      reads this
    {
      && (done <==> tok.Some?)
      && exchanges == (if done then 1 else 0)
      && (!done ==> err.None?)
      && (err.Some? ==> tok == Some(OAuthToken("")))
    }

    constructor (org: string, repo: string, policyName: string)
      ensures Valid() && !done && exchanges == 0
      ensures this.org == org && this.repo == repo && this.policyName == policyName
    {
      this.org, this.repo, this.policyName := org, repo, policyName;
      done, tok, err := false, None, None;
      exchanges := 0;
    }

    /** Token(): the first call runs the exchange and caches its result, failure included;
        every call returns the cached pair, and no later call exchanges again. */
    method Token(wipToken: string, exchange: (OctoSts.Exchange, string) -> Result<string>)
      returns (t: OAuthToken, e: Option<Error>)
      requires Valid()
      modifies this
      ensures Valid() && done && exchanges == 1
      ensures tok == Some(t) && err == e
      ensures old(done) ==> tok == old(tok) && err == old(err)
      ensures !old(done) ==>
                var r := OctoSts.Token(policyName, org, repo, wipToken, exchange);
                t == OAuthToken(r.0) && e == r.1
    {
      if !done {
        done := true;
        var r := OctoSts.Token(policyName, org, repo, wipToken, exchange);
        tok, err := Some(OAuthToken(r.0)), r.1;
        exchanges := exchanges + 1;
      }
      t, e := tok.value, err;
    }
  }

  // ---------------------------------------------------------------------------------
  // The abstract GitHub

  /** An issue or pull request of a repository. */
  datatype IssueRef = IssueRef(owner: string, repo: string, number: int)

  /** The issue a pull request is addressed as (its base repository and number). */
  function IssueOf(pr: PullRequest): IssueRef {
    IssueRef(pr.baseOwner, pr.baseRepo, pr.number)
  }

  datatype Comment = Comment(id: int, body: string)

  /** The requests the client sends to api.github.com. */
  datatype ApiRequest =
    | AddLabels(issue: IssueRef, names: seq<string>)
    | RemoveLabel(issue: IssueRef, name: string)
    | ListComments(issue: IssueRef)
    | EditComment(issue: IssueRef, commentId: int, body: string)
    | CreateComment(issue: IssueRef, body: string)
    | DeleteInstallationToken(request: OctoSts.Request)

  /** What go-github gives back for a call: no HTTP response at all (a transport failure),
      or a response status together with the error go-github derived from it. */
  datatype Reply = NoResponse(failure: Error) | Response(code: int, apiError: Option<Error>)

  /** GitHub applied the request. */
  predicate Accepted(reply: Reply) {
    reply.Response? && 200 <= reply.code < 300
  }

  /** What GitHub holds: the label names on each issue, the comments on each issue in
      creation order, and the id the next comment will get. */
  datatype State = State(
    labels: map<IssueRef, set<string>>,
    comments: map<IssueRef, seq<Comment>>,
    nextCommentId: int)

  function LabelsOn(s: State, issue: IssueRef): set<string> {
    if issue in s.labels then s.labels[issue] else {}
  }

  function CommentsOn(s: State, issue: IssueRef): seq<Comment> {
    if issue in s.comments then s.comments[issue] else []
  }

  /** The comments with body edited where the id matches. */
  function EditById(cs: seq<Comment>, id: int, body: string): (r: seq<Comment>)
    ensures |r| == |cs|
    ensures forall k :: 0 <= k < |cs| ==> r[k] == if cs[k].id == id then Comment(id, body) else cs[k]
  {
    seq(|cs|, k requires 0 <= k < |cs| => if cs[k].id == id then Comment(id, body) else cs[k])
  }

  /** The effect on GitHub of a request it accepted. */
  function Apply(s: State, req: ApiRequest): State {
    match req
    case AddLabels(issue, names) =>
      s.(labels := s.labels[issue := LabelsOn(s, issue) + (set n | n in names)])
    case RemoveLabel(issue, name) =>
      s.(labels := s.labels[issue := LabelsOn(s, issue) - {name}])
    case ListComments(_) => s
    case EditComment(issue, id, body) =>
      s.(comments := s.comments[issue := EditById(CommentsOn(s, issue), id, body)])
    case CreateComment(issue, body) =>
      s.(comments := s.comments[issue := CommentsOn(s, issue) + [Comment(s.nextCommentId, body)]],
         nextCommentId := s.nextCommentId + 1)
    case DeleteInstallationToken(_) => s
  }

  /** The GitHub the client talks to: its state and every request it has received. */
  class GitHub {
    var state: State
    var requests: seq<ApiRequest>

    constructor (initial: State)
      ensures state == initial && requests == []
    {
      state, requests := initial, [];
    }

    /** GitHub receives a request; it changes its state only when it accepted it. */
    method Receive(req: ApiRequest, accepted: bool)
      modifies this
      ensures requests == old(requests) + [req]
      ensures state == if accepted then Apply(old(state), req) else old(state)
    {
      requests := requests + [req];
      if accepted {
        state := Apply(state, req);
      }
    }
  }

  /** An accepted label write changes the labels of its own issue and nothing else: adding
      puts the name in, removing takes it out. */
  lemma LabelWritesTakeEffect(s: State, issue: IssueRef, other: IssueRef, name: string)
    ensures LabelsOn(Apply(s, AddLabels(issue, [name])), issue) == LabelsOn(s, issue) + {name}
    ensures LabelsOn(Apply(s, RemoveLabel(issue, name)), issue) == LabelsOn(s, issue) - {name}
    ensures other != issue ==>
              && LabelsOn(Apply(s, AddLabels(issue, [name])), other) == LabelsOn(s, other)
              && LabelsOn(Apply(s, RemoveLabel(issue, name)), other) == LabelsOn(s, other)
    ensures Apply(s, AddLabels(issue, [name])).comments == s.comments
    ensures Apply(s, RemoveLabel(issue, name)).comments == s.comments
  {
    assert (set n | n in [name]) == {name};
  }

  /** Adding a label twice leaves GitHub as adding it once, and removing a label that was
      just added restores the labels the issue had without it. */
  lemma LabelWritesIdempotentAndInverse(s: State, issue: IssueRef, name: string)
    ensures Apply(Apply(s, AddLabels(issue, [name])), AddLabels(issue, [name])) == Apply(s, AddLabels(issue, [name]))
    ensures Apply(Apply(s, RemoveLabel(issue, name)), RemoveLabel(issue, name)) == Apply(s, RemoveLabel(issue, name))
    ensures name !in LabelsOn(s, issue) ==>
              LabelsOn(Apply(Apply(s, AddLabels(issue, [name])), RemoveLabel(issue, name)), issue) == LabelsOn(s, issue)
  {
    var added := Apply(s, AddLabels(issue, [name]));
    LabelWritesTakeEffect(s, issue, issue, name);
    LabelWritesTakeEffect(added, issue, issue, name);
    assert added.labels[issue := LabelsOn(added, issue) + {name}] == added.labels;
    var removed := Apply(s, RemoveLabel(issue, name));
    LabelWritesTakeEffect(removed, issue, issue, name);
    assert issue in removed.labels && LabelsOn(removed, issue) - {name} == removed.labels[issue];
    assert removed.labels[issue := LabelsOn(removed, issue) - {name}] == removed.labels;
  }

  // ---------------------------------------------------------------------------------
  // Classifying replies

  /** How the label and comment writes judge a reply: success exactly when go-github
      reports no error and the status is the expected one. A reply without a response is
      reported as an error wrapping the transport failure (see WriteResultAsWritten). */
  function WriteResult(context: string, reply: Reply, expected: int): (r: Outcome)
    ensures r == Pass <==> reply == Response(expected, None)
    ensures reply.NoResponse? ==> r == Fail(Wrap(context, reply.failure))
    ensures reply.Response? && r.Fail? ==> r.error == Status(context, reply.apiError, reply.code)
  {
    match reply
    case NoResponse(e) => Fail(Wrap(context, e))
    case Response(code, e) =>
      if e.Some? || code != expected then Fail(Status(context, e, code)) else Pass
  }

  /** How a Go function ends: by returning, or by panicking. */
  datatype Completion = Returned(outcome: Outcome) | Panicked(reason: string)

  /** The writes as written: the error message formats resp.Status, which dereferences the
      response go-github leaves nil when the request got no response at all. */
  function WriteResultAsWritten(context: string, reply: Reply, expected: int): Completion {
    match reply
    case NoResponse(_) => Panicked("nil pointer dereference")
    case Response(_, _) => Returned(WriteResult(context, reply, expected))
  }

  /** A label or comment write that gets no response panics as written; the corrected
      classification returns an error carrying the transport failure, and agrees with the
      source whenever there is a response. */
  lemma TransportFailureDuringWrite(context: string, reply: Reply, expected: int)
    ensures reply.NoResponse? ==>
              && WriteResultAsWritten(context, reply, expected).Panicked?
              && WriteResult(context, reply, expected) == Fail(Wrap(context, reply.failure))
    ensures reply.Response? ==>
              WriteResultAsWritten(context, reply, expected) == Returned(WriteResult(context, reply, expected))
  {
  }

  // ---------------------------------------------------------------------------------
  // Comments

  predicate IsPrefix(sub: string, s: string) {
    |sub| <= |s| && s[..|sub|] == sub
  }

  /** strings.Contains. */
  function Contains(s: string, sub: string): bool
    decreases |s|
  {
    IsPrefix(sub, s) || (s != [] && Contains(s[1..], sub))
  }

  /** `sub` occurs in `s` at position `i`. */
  ghost predicate OccursAt(s: string, sub: string, i: int) {
    0 <= i && i + |sub| <= |s| && s[i..i + |sub|] == sub
  }

  /** Contains(s, sub) holds exactly when `sub` occurs in `s` at some position. */
  lemma {:induction false} ContainsIff(s: string, sub: string)
    ensures Contains(s, sub) <==> exists i :: OccursAt(s, sub, i)
    decreases |s|
  {
    if s != [] {
      ContainsIff(s[1..], sub);
      if Contains(s[1..], sub) {
        var i :| OccursAt(s[1..], sub, i);
        assert s[i + 1..i + 1 + |sub|] == s[1..][i..i + |sub|];
        assert OccursAt(s, sub, i + 1);
      }
      if IsPrefix(sub, s) {
        assert OccursAt(s, sub, 0);
      }
      if i :| OccursAt(s, sub, i) {
        if i > 0 {
          assert s[1..][i - 1..i - 1 + |sub|] == s[i..i + |sub|];
          assert OccursAt(s[1..], sub, i - 1);
        }
      }
    } else if Contains(s, sub) {
      assert OccursAt(s, sub, 0);
    }
  }

  /** The marker that identifies a bot's comment. */
  function Marker(botName: string): string {
    "<!-- bot:" + botName + " -->"
  }

  /** The body SetComment writes: the marker, a blank line, then the content. */
  function BotComment(botName: string, content: string): (body: string)
    ensures IsPrefix(Marker(botName), body) && body[|Marker(botName)|..] == "\n\n" + content
  {
    Marker(botName) + "\n\n" + content
  }

  /** Every body SetComment writes carries the bot's marker. */
  lemma BotCommentIsMarked(botName: string, content: string)
    ensures Contains(BotComment(botName, content), Marker(botName))
  {
  }

  /** ListComments without options returns GitHub's first page, of this many comments. */
  const CommentsPerPage: nat := 30

  function FirstPage(cs: seq<Comment>): (page: seq<Comment>)
    ensures page == cs[..if |cs| < CommentsPerPage then |cs| else CommentsPerPage]
  {
    if |cs| < CommentsPerPage then cs else cs[..CommentsPerPage]
  }

  /** The index of the first comment whose body contains the marker. */
  function FirstMarked(cs: seq<Comment>, marker: string): (r: Option<nat>)
    ensures r.Some? ==> r.value < |cs| && Contains(cs[r.value].body, marker)
    ensures r.Some? ==> forall k :: 0 <= k < r.value ==> !Contains(cs[k].body, marker)
    ensures r.None? ==> forall k :: 0 <= k < |cs| ==> !Contains(cs[k].body, marker)
    decreases |cs|
  {
    if cs == [] then None
    else if Contains(cs[0].body, marker) then Some(0)
    else match FirstMarked(cs[1..], marker)
      case None => None
      case Some(j) => Some(j + 1)
  }

  /** The write SetComment sends after listing `listed`: an edit of the first marked
      comment, otherwise a new comment. */
  function CommentWrite(listed: seq<Comment>, issue: IssueRef, botName: string, content: string): ApiRequest {
    match FirstMarked(listed, Marker(botName))
    case Some(j) => EditComment(issue, listed[j].id, BotComment(botName, content))
    case None => CreateComment(issue, BotComment(botName, content))
  }

  /** The number of comments whose body contains the marker. */
  function MarkedCount(cs: seq<Comment>, marker: string): nat
    decreases |cs|
  {
    if cs == [] then 0
    else (if Contains(cs[0].body, marker) then 1 else 0) + MarkedCount(cs[1..], marker)
  }

  ghost predicate UniqueIds(cs: seq<Comment>) {
    forall i, j :: 0 <= i < j < |cs| ==> cs[i].id != cs[j].id
  }

  lemma {:induction false} MarkedCountAppend(cs: seq<Comment>, c: Comment, marker: string)
    ensures MarkedCount(cs + [c], marker) == MarkedCount(cs, marker) + (if Contains(c.body, marker) then 1 else 0)
    decreases |cs|
  {
    if cs != [] {
      assert (cs + [c])[1..] == cs[1..] + [c];
      MarkedCountAppend(cs[1..], c, marker);
    }
  }

  lemma {:induction false} MarkedCountUpdate(cs: seq<Comment>, j: nat, c: Comment, marker: string)
    requires j < |cs|
    ensures MarkedCount(cs[j := c], marker) + (if Contains(cs[j].body, marker) then 1 else 0)
         == MarkedCount(cs, marker) + (if Contains(c.body, marker) then 1 else 0)
    decreases |cs|
  {
    if j > 0 {
      assert cs[j := c][1..] == cs[1..][j - 1 := c];
      MarkedCountUpdate(cs[1..], j - 1, c, marker);
    }
  }

  lemma MarkedCountNone(cs: seq<Comment>, marker: string)
    requires forall k :: 0 <= k < |cs| ==> !Contains(cs[k].body, marker)
    ensures MarkedCount(cs, marker) == 0
    decreases |cs|
  {
    if cs != [] {
      MarkedCountNone(cs[1..], marker);
    }
  }

  /** Editing by id a comment whose id is unique changes that comment alone. */
  lemma EditByIdIsUpdate(cs: seq<Comment>, j: nat, body: string)
    requires j < |cs| && UniqueIds(cs)
    ensures EditById(cs, cs[j].id, body) == cs[j := Comment(cs[j].id, body)]
  {
  }

  /** The comments after GitHub accepts the write chosen from the listed `cs`: the number of
      comments carrying the marker stays the same when the listing showed one (it was
      edited and still carries it) and grows by one otherwise (a new one was created); the
      bot's comment then carries the new content. */
  lemma {:induction false} CommentWriteMarkedCount(s: State, issue: IssueRef, listed: seq<Comment>,
                                                   botName: string, content: string)
    requires UniqueIds(CommentsOn(s, issue))
    requires listed <= CommentsOn(s, issue)
    ensures var cs := CommentsOn(s, issue);
      var cs' := CommentsOn(Apply(s, CommentWrite(listed, issue, botName, content)), issue);
      && MarkedCount(cs', Marker(botName)) ==
           MarkedCount(cs, Marker(botName)) + (if FirstMarked(listed, Marker(botName)).Some? then 0 else 1)
      && (FirstMarked(listed, Marker(botName)).Some? ==>
            var j := FirstMarked(listed, Marker(botName)).value;
            cs' == cs[j := Comment(cs[j].id, BotComment(botName, content))])
      && (FirstMarked(listed, Marker(botName)).None? ==>
            cs' == cs + [Comment(s.nextCommentId, BotComment(botName, content))])
  {
    var cs := CommentsOn(s, issue);
    var body := BotComment(botName, content);
    var marker := Marker(botName);
    BotCommentIsMarked(botName, content);
    match FirstMarked(listed, marker)
    case Some(j) =>
      assert listed[j] == cs[j];
      EditByIdIsUpdate(cs, j, body);
      MarkedCountUpdate(cs, j, Comment(cs[j].id, body), marker);
    case None =>
      MarkedCountAppend(cs, Comment(s.nextCommentId, body), marker);
  }

  /** As written, a bot's comment that is not on the first page of comments is not found,
      so every SetComment creates one more: on a pull request with 30 unmarked comments,
      two accepted SetComment calls leave two marked comments. */
  lemma SetCommentDuplicatesBeyondFirstPage(issue: IssueRef, botName: string, c1: string, c2: string)
    ensures var s0 := State(map[], map[issue := seq(CommentsPerPage, k => Comment(k, ""))], CommentsPerPage);
      var s1 := Apply(s0, CommentWrite(FirstPage(CommentsOn(s0, issue)), issue, botName, c1));
      var s2 := Apply(s1, CommentWrite(FirstPage(CommentsOn(s1, issue)), issue, botName, c2));
      MarkedCount(CommentsOn(s2, issue), Marker(botName)) == 2
  {
    var marker := Marker(botName);
    var cs0 := seq(CommentsPerPage, k => Comment(k, ""));
    var s0 := State(map[], map[issue := cs0], CommentsPerPage);
    forall k | 0 <= k < |cs0| ensures !Contains(cs0[k].body, marker) {
      assert cs0[k].body == "";
    }
    MarkedCountNone(cs0, marker);
    assert FirstPage(CommentsOn(s0, issue)) == cs0;
    var s1 := Apply(s0, CommentWrite(cs0, issue, botName, c1));
    var cs1 := cs0 + [Comment(CommentsPerPage, BotComment(botName, c1))];
    assert CommentsOn(s1, issue) == cs1;
    BotCommentIsMarked(botName, c1);
    MarkedCountAppend(cs0, Comment(CommentsPerPage, BotComment(botName, c1)), marker);
    assert FirstPage(cs1) == cs0;
    var s2 := Apply(s1, CommentWrite(cs0, issue, botName, c2));
    assert CommentsOn(s2, issue) == cs1 + [Comment(CommentsPerPage + 1, BotComment(botName, c2))];
    BotCommentIsMarked(botName, c2);
    MarkedCountAppend(cs1, Comment(CommentsPerPage + 1, BotComment(botName, c2)), marker);
  }

  /** The upsert the bot marker is meant to give: look for the marker among ALL the
      comments (every page), edit the first marked one, otherwise create one. */
  function UpsertComment(s: State, issue: IssueRef, botName: string, content: string): State {
    Apply(s, CommentWrite(CommentsOn(s, issue), issue, botName, content))
  }

  /** Comment ids are unique and below the id the next comment will get. */
  ghost predicate WellFormed(s: State, issue: IssueRef) {
    var cs := CommentsOn(s, issue);
    UniqueIds(cs) && forall k :: 0 <= k < |cs| ==> cs[k].id < s.nextCommentId
  }

  /** A marked comment counts. */
  lemma MarkedCountPositive(cs: seq<Comment>, j: nat, marker: string)
    requires j < |cs| && Contains(cs[j].body, marker) && marker != ""
    ensures MarkedCount(cs, marker) >= 1
  {
    MarkedCountUpdate(cs, j, Comment(0, ""), marker);
  }

  /** With every page searched, a pull request with at most one bot comment has exactly one
      after an accepted upsert, and it carries the new content; ids stay well formed. */
  lemma UpsertCommentKeepsOne(s: State, issue: IssueRef, botName: string, content: string)
    requires WellFormed(s, issue)
    requires MarkedCount(CommentsOn(s, issue), Marker(botName)) <= 1
    ensures var s' := UpsertComment(s, issue, botName, content);
      var cs' := CommentsOn(s', issue);
      && WellFormed(s', issue)
      && MarkedCount(cs', Marker(botName)) == 1
      && exists j :: 0 <= j < |cs'| && cs'[j].body == BotComment(botName, content)
  {
    var cs := CommentsOn(s, issue);
    var s' := UpsertComment(s, issue, botName, content);
    var cs' := CommentsOn(s', issue);
    CommentWriteMarkedCount(s, issue, cs, botName, content);
    match FirstMarked(cs, Marker(botName))
    case Some(j) =>
      MarkedCountPositive(cs, j, Marker(botName));
      assert cs'[j].body == BotComment(botName, content);
    case None =>
      MarkedCountNone(cs, Marker(botName));
      assert cs'[|cs|].body == BotComment(botName, content);
  }

  /** Two upserts in a row, with different contents, leave one bot comment, holding the
      second content. */
  lemma UpsertCommentTwice(s: State, issue: IssueRef, botName: string, c1: string, c2: string)
    requires WellFormed(s, issue)
    requires MarkedCount(CommentsOn(s, issue), Marker(botName)) <= 1
    ensures var cs := CommentsOn(UpsertComment(UpsertComment(s, issue, botName, c1), issue, botName, c2), issue);
      && MarkedCount(cs, Marker(botName)) == 1
      && exists j :: 0 <= j < |cs| && cs[j].body == BotComment(botName, c2)
  {
    UpsertCommentKeepsOne(s, issue, botName, c1);
    UpsertCommentKeepsOne(UpsertComment(s, issue, botName, c1), issue, botName, c2);
  }

  // ---------------------------------------------------------------------------------
  // Workflow-run logs

  /** The reply to the GET of the log archive's URL: a transport error, or a status and
      the body read from the response. */
  datatype Fetch = FetchFailed(err: Error) | Fetched(code: int, body: Bytes)

  const LogsExpired: Error := Message("logs expired")

  /** GetWorkflowRunLogs as written: the location request must answer 302 Found, the
      archive request 200 OK; the check for 404/410 comes after every status other than 200
      has already returned. */
  function WorkflowRunLogsAsWritten(location: Reply, archive: Fetch): (r: (Bytes, Option<Error>))
    ensures r.1.None? <==> location == Response(StatusFound, None) && archive.Fetched? && archive.code == StatusOK
    ensures r.1.None? ==> r.0 == archive.body
    ensures r.1.Some? ==> r.0 == []
    ensures location.NoResponse? ==> r.1 == Some(location.failure)
    ensures location.Response? && location.apiError.Some? ==> r.1 == location.apiError
    ensures location.Response? && location.apiError.None? && location.code != StatusFound ==>
              r.1 == Some(Status("failed to get logs", None, location.code))
    ensures location == Response(StatusFound, None) && archive.FetchFailed? ==> r.1 == Some(archive.err)
    ensures location == Response(StatusFound, None) && archive.Fetched? && archive.code != StatusOK ==>
              r.1 == Some(WithBody("failed to get logs", archive.body))
  {
    match location
    case NoResponse(e) => ([], Some(e))
    case Response(code, apiError) =>
      if apiError.Some? then ([], apiError)
      else if code != StatusFound then ([], Some(Status("failed to get logs", None, code)))
      else match archive
        case FetchFailed(e) => ([], Some(e))
        case Fetched(status, body) =>
          if status != StatusOK then ([], Some(WithBody("failed to get logs", body)))
          else if status == StatusNotFound || status == StatusGone then ([], Some(LogsExpired))
          else (body, None)
  }

  /** As written, the "logs expired" error is never produced: it is returned only when one
      of the two replies already carried it. */
  lemma LogsExpiredUnreachable(location: Reply, archive: Fetch)
    requires location.NoResponse? ==> location.failure != LogsExpired
    requires location.Response? ==> location.apiError != Some(LogsExpired)
    requires archive.FetchFailed? ==> archive.err != LogsExpired
    ensures WorkflowRunLogsAsWritten(location, archive).1 != Some(LogsExpired)
  {
  }

  /** Expired logs (404 Not Found at the archive URL) are reported as a generic failure
      carrying the body. */
  lemma ExpiredLogsReportedAsFailure(body: Bytes)
    ensures WorkflowRunLogsAsWritten(Response(StatusFound, None), Fetched(StatusNotFound, body))
         == ([], Some(WithBody("failed to get logs", body)))
  {
  }

  /** GetWorkflowRunLogs as intended: 404 Not Found and 410 Gone at the archive URL are the
      distinct "logs expired" failure. */
  function WorkflowRunLogs(location: Reply, archive: Fetch): (r: (Bytes, Option<Error>))
    ensures r.1.None? <==> location == Response(StatusFound, None) && archive.Fetched? && archive.code == StatusOK
    ensures r.1.None? ==> r.0 == archive.body
    ensures r.1.Some? ==> r.0 == []
    ensures location.NoResponse? ==> r.1 == Some(location.failure)
    ensures location.Response? && location.apiError.Some? ==> r.1 == location.apiError
    ensures location.Response? && location.apiError.None? && location.code != StatusFound ==>
              r.1 == Some(Status("failed to get logs", None, location.code))
    ensures location == Response(StatusFound, None) && archive.FetchFailed? ==> r.1 == Some(archive.err)
    ensures location == Response(StatusFound, None) && archive.Fetched? ==>
              if archive.code == StatusNotFound || archive.code == StatusGone then r.1 == Some(LogsExpired)
              else archive.code != StatusOK ==> r.1 == Some(WithBody("failed to get logs", archive.body))
  {
    match location
    case NoResponse(e) => ([], Some(e))
    case Response(code, apiError) =>
      if apiError.Some? then ([], apiError)
      else if code != StatusFound then ([], Some(Status("failed to get logs", None, code)))
      else match archive
        case FetchFailed(e) => ([], Some(e))
        case Fetched(status, body) =>
          if status == StatusNotFound || status == StatusGone then ([], Some(LogsExpired))
          else if status != StatusOK then ([], Some(WithBody("failed to get logs", body)))
          else (body, None)
  }

  /** Once the location is found, the corrected function reports expired logs exactly for
      404 and 410 at the archive URL, and otherwise agrees with the source on every input. */
  lemma WorkflowRunLogsExpired(location: Reply, archive: Fetch)
    ensures location == Response(StatusFound, None) && archive.Fetched? ==>
              (WorkflowRunLogs(location, archive).1 == Some(LogsExpired) <==>
                 archive.code == StatusNotFound || archive.code == StatusGone)
    ensures !(archive.Fetched? && (archive.code == StatusNotFound || archive.code == StatusGone)) ==>
              WorkflowRunLogs(location, archive) == WorkflowRunLogsAsWritten(location, archive)
  {
  }

  // ---------------------------------------------------------------------------------
  // Finding the pull request of a workflow run

  /** GitHub's answer to one page of the pull-request listing. */
  datatype PullsReply = PullsPage(pulls: seq<PullRequest>) | PullsFailed(err: Error)

  /** The listing options: state, head filter, page size and page number. */
  datatype ListOptions = ListOptions(state: string, head: string, perPage: int, page: int)

  /** The options of the request for `page`: open pull requests whose head is the run's
      branch in the run's owner's repository, ten per page. */
  function PullsQuery(wr: WorkflowRun, page: int): (q: ListOptions)
    ensures q.state == "open" && q.head == wr.owner + ":" + wr.headBranch && q.perPage == 10
    ensures q.page == page
  {
    ListOptions("open", wr.owner + ":" + wr.headBranch, 10, page)
  }

  /** The k-th page GitHub serves; beyond the last one, an empty page. */
  function ReplyAt(pages: seq<PullsReply>, k: nat): PullsReply {
    if k < |pages| then pages[k] else PullsPage([])
  }

  /** The NextPage of the k-th page's response: the page number of the next page (pages
      are numbered from 1), or 0 when it is the last. */
  function NextPage(pages: seq<PullsReply>, k: nat): (next: int)
    ensures next == 0 <==> k + 1 >= |pages|
    ensures next != 0 ==> next == k + 2
  {
    if k + 1 < |pages| then k + 2 else 0
  }

  /** The index of the first pull request whose head commit is `sha`. */
  function FirstWithHead(pulls: seq<PullRequest>, sha: string): (r: Option<nat>)
    ensures r.Some? ==> r.value < |pulls| && pulls[r.value].headSha == sha
    ensures r.Some? ==> forall i :: 0 <= i < r.value ==> pulls[i].headSha != sha
    ensures r.None? ==> forall i :: 0 <= i < |pulls| ==> pulls[i].headSha != sha
    decreases |pulls|
  {
    if pulls == [] then None
    else if pulls[0].headSha == sha then Some(0)
    else match FirstWithHead(pulls[1..], sha)
      case None => None
      case Some(j) => Some(j + 1)
  }

  const NoMatchingPullRequest: Error := Message("no matching pull request found")

  /** The search from page k on: the number of the first pull request, in page order, whose
      head is `sha`; a failed page ends the search with its error wrapped. */
  function SearchFrom(pages: seq<PullsReply>, sha: string, k: nat): Result<int>
    decreases |pages| - k
  {
    match ReplyAt(pages, k)
    case PullsFailed(e) => Err(Wrap("failed to list pull requests", e))
    case PullsPage(pulls) =>
      match FirstWithHead(pulls, sha)
      case Some(j) => Ok(pulls[j].number)
      case None => if NextPage(pages, k) == 0 then Err(NoMatchingPullRequest) else SearchFrom(pages, sha, k + 1)
  }

  /** How many pages the search from page k on requests. */
  function FetchCount(pages: seq<PullsReply>, sha: string, k: nat): nat
    decreases |pages| - k
  {
    match ReplyAt(pages, k)
    case PullsFailed(_) => 1
    case PullsPage(pulls) =>
      if FirstWithHead(pulls, sha).Some? || NextPage(pages, k) == 0 then 1
      else 1 + FetchCount(pages, sha, k + 1)
  }

  /** Page q was listed and has no pull request with head `sha`. */
  ghost predicate PassedOver(pages: seq<PullsReply>, sha: string, q: int) {
    0 <= q < |pages| && pages[q].PullsPage? &&
    forall i :: 0 <= i < |pages[q].pulls| ==> pages[q].pulls[i].headSha != sha
  }

  /** Pages passed over do not change the outcome of the search. */
  lemma {:induction false} SearchSkipsPassedPages(pages: seq<PullsReply>, sha: string, k: nat, p: nat)
    requires k <= p < |pages|
    requires forall q :: k <= q < p ==> PassedOver(pages, sha, q)
    ensures SearchFrom(pages, sha, k) == SearchFrom(pages, sha, p)
    decreases p - k
  {
    if k < p {
      assert PassedOver(pages, sha, k);
      assert FirstWithHead(pages[k].pulls, sha).None?;
      SearchSkipsPassedPages(pages, sha, k + 1, p);
    }
  }

  /** The search returns the number of the first pull request, in page order, whose head
      is the run's head commit. */
  lemma SearchFindsFirstMatch(pages: seq<PullsReply>, sha: string, p: nat, j: nat)
    requires p < |pages| && pages[p].PullsPage?
    requires j < |pages[p].pulls| && pages[p].pulls[j].headSha == sha
    requires forall i :: 0 <= i < j ==> pages[p].pulls[i].headSha != sha
    requires forall q :: 0 <= q < p ==> PassedOver(pages, sha, q)
    ensures SearchFrom(pages, sha, 0) == Ok(pages[p].pulls[j].number)
  {
    SearchSkipsPassedPages(pages, sha, 0, p);
  }

  /** A failed listing before any match ends the search with that failure. */
  lemma SearchStopsAtListError(pages: seq<PullsReply>, sha: string, p: nat)
    requires p < |pages| && pages[p].PullsFailed?
    requires forall q :: 0 <= q < p ==> PassedOver(pages, sha, q)
    ensures SearchFrom(pages, sha, 0) == Err(Wrap("failed to list pull requests", pages[p].err))
  {
    SearchSkipsPassedPages(pages, sha, 0, p);
  }

  /** The search reports "no matching pull request found" exactly when every page was
      listed and none holds a pull request with that head. */
  lemma {:induction false} SearchNotFoundIff(pages: seq<PullsReply>, sha: string, k: nat)
    requires k <= |pages|
    ensures SearchFrom(pages, sha, k) == Err(NoMatchingPullRequest) <==>
              forall q :: k <= q < |pages| ==> PassedOver(pages, sha, q)
    decreases |pages| - k
  {
    if k + 1 < |pages| {
      SearchNotFoundIff(pages, sha, k + 1);
      if pages[k].PullsPage? && FirstWithHead(pages[k].pulls, sha).Some? {
        var j := FirstWithHead(pages[k].pulls, sha).value;
        assert !PassedOver(pages, sha, k);
      } else if pages[k].PullsFailed? {
        assert !PassedOver(pages, sha, k);
      }
    } else if k < |pages| {
      if pages[k].PullsPage? && FirstWithHead(pages[k].pulls, sha).Some? {
        var j := FirstWithHead(pages[k].pulls, sha).value;
        assert !PassedOver(pages, sha, k);
      } else if pages[k].PullsPage? {
        assert PassedOver(pages, sha, k);
        assert ReplyAt(pages, k) == pages[k] && NextPage(pages, k) == 0;
        forall q | k <= q < |pages| ensures PassedOver(pages, sha, q) {
          assert q == k;
        }
      } else {
        assert !PassedOver(pages, sha, k);
      }
    }
  }

  /** A number the search returns belongs to a listed pull request whose head is `sha`. */
  lemma {:induction false} SearchResultMatches(pages: seq<PullsReply>, sha: string, k: nat)
    requires SearchFrom(pages, sha, k).Ok?
    ensures exists p, j :: k <= p < |pages| && pages[p].PullsPage? && 0 <= j < |pages[p].pulls|
              && pages[p].pulls[j].headSha == sha
              && pages[p].pulls[j].number == SearchFrom(pages, sha, k).value
    decreases |pages| - k
  {
    var reply := ReplyAt(pages, k);
    if FirstWithHead(reply.pulls, sha).Some? {
      var j := FirstWithHead(reply.pulls, sha).value;
      assert k < |pages|;
    } else {
      SearchResultMatches(pages, sha, k + 1);
      var p, j :| k + 1 <= p < |pages| && pages[p].PullsPage? && 0 <= j < |pages[p].pulls|
              && pages[p].pulls[j].headSha == sha
              && pages[p].pulls[j].number == SearchFrom(pages, sha, k + 1).value;
    }
  }

  // ---------------------------------------------------------------------------------
  // The client

  /** A GitHub client for one (org, repo, policy): its token source and the GitHub its
      requests reach. */
  class GitHubClient {
    const ts: TokenSource
    const api: GitHub

    /** NewGitHubClient: a fresh token source that has not run the exchange. */
    constructor (org: string, repo: string, policyName: string, api: GitHub)
      ensures fresh(ts) && ts.Valid() && !ts.done
      ensures ts.org == org && ts.repo == repo && ts.policyName == policyName
      ensures this.api == api
    {
      ts := new TokenSource(org, repo, policyName);
      this.api := api;
    }

    /** Close: when no token was ever fetched, nothing to revoke; otherwise the token is
        revoked, an empty one after a failed fetch, and a revocation failure is returned
        wrapped as "revoking token". GitHub's state is not changed. */
    method Close(send: OctoSts.Request -> OctoSts.HttpReply) returns (result: Outcome)
      modifies api
      ensures api.state == old(api.state)
      ensures ts.tok.None? ==> result == Pass && api.requests == old(api.requests)
      ensures ts.tok.Some? ==>
                var tok := ts.tok.value.accessToken;
                && api.requests == old(api.requests) + [DeleteInstallationToken(OctoSts.RevokeRequest(tok))]
                && result == match OctoSts.Revoke(tok, send)
                             case Pass => Pass
                             case Fail(e) => Fail(Wrap("revoking token", e))
      ensures ts.Valid() && ts.err.Some? ==>
                api.requests == old(api.requests) + [DeleteInstallationToken(OctoSts.RevokeRequest(""))]
    {
      if ts.tok.None? {
        return Pass;
      }
      var tok := ts.tok.value.accessToken;
      api.Receive(DeleteInstallationToken(OctoSts.RevokeRequest(tok)), false);
      match OctoSts.Revoke(tok, send)
      case Pass => result := Pass;
      case Fail(e) => result := Fail(Wrap("revoking token", e));
    }

    /** AddLabel: nothing to do when the pull request already lists the label; otherwise
        one request to add it, which succeeds only on 200 with no error. */
    method AddLabel(pr: PullRequest, name: string, reply: Reply) returns (result: Outcome)
      modifies api
      ensures name in pr.labels ==>
                result == Pass && api.requests == old(api.requests) && api.state == old(api.state)
      ensures name !in pr.labels ==>
                var req := AddLabels(IssueOf(pr), [name]);
                && api.requests == old(api.requests) + [req]
                && api.state == (if Accepted(reply) then Apply(old(api.state), req) else old(api.state))
                && result == WriteResult("failed to add label to pull request", reply, StatusOK)
    {
      if name in pr.labels {
        return Pass;
      }
      api.Receive(AddLabels(IssueOf(pr), [name]), Accepted(reply));
      result := WriteResult("failed to add label to pull request", reply, StatusOK);
    }

    /** RemoveLabel: nothing to do when the pull request does not list the label; otherwise
        one request to remove it, which succeeds only on 200 with no error. (Its error
        message is the one AddLabel uses.) */
    method RemoveLabel(pr: PullRequest, name: string, reply: Reply) returns (result: Outcome)
      modifies api
      ensures name !in pr.labels ==>
                result == Pass && api.requests == old(api.requests) && api.state == old(api.state)
      ensures name in pr.labels ==>
                var req := ApiRequest.RemoveLabel(IssueOf(pr), name);
                && api.requests == old(api.requests) + [req]
                && api.state == (if Accepted(reply) then Apply(old(api.state), req) else old(api.state))
                && result == WriteResult("failed to add label to pull request", reply, StatusOK)
    {
      if name !in pr.labels {
        return Pass;
      }
      api.Receive(ApiRequest.RemoveLabel(IssueOf(pr), name), Accepted(reply));
      result := WriteResult("failed to add label to pull request", reply, StatusOK);
    }

    /** SetComment: lists the comments (GitHub's first page), then edits the first one
        carrying the bot's marker, expecting 200, or else creates one, expecting 201. A
        listing error aborts before any write. */
    method SetComment(pr: PullRequest, botName: string, content: string,
                      listError: Option<Error>, reply: Reply) returns (result: Outcome)
      modifies api
      ensures listError.Some? ==>
                && result == Fail(Wrap("listing comments", listError.value))
                && api.requests == old(api.requests) + [ListComments(IssueOf(pr))]
                && api.state == old(api.state)
      ensures listError.None? ==>
                var write := CommentWrite(FirstPage(CommentsOn(old(api.state), IssueOf(pr))),
                                          IssueOf(pr), botName, content);
                && api.requests == old(api.requests) + [ListComments(IssueOf(pr)), write]
                && api.state == (if Accepted(reply) then Apply(old(api.state), write) else old(api.state))
                && result == if write.EditComment? then WriteResult("editing comment", reply, StatusOK)
                             else WriteResult("creating comment", reply, StatusCreated)
    {
      var issue := IssueOf(pr);
      api.Receive(ListComments(issue), false);
      if listError.Some? {
        return Fail(Wrap("listing comments", listError.value));
      }
      var cs := FirstPage(CommentsOn(api.state, issue));
      var marker := Marker(botName);
      var body := BotComment(botName, content);
      var i := 0;
      while i < |cs|
        invariant 0 <= i <= |cs|
        invariant forall k :: 0 <= k < i ==> !Contains(cs[k].body, marker)
        invariant api.state == old(api.state)
        invariant api.requests == old(api.requests) + [ListComments(issue)]
      {
        if Contains(cs[i].body, marker) {
          assert FirstMarked(cs, marker) == Some(i);
          api.Receive(EditComment(issue, cs[i].id, body), Accepted(reply));
          return WriteResult("editing comment", reply, StatusOK);
        }
        i := i + 1;
      }
      api.Receive(CreateComment(issue, body), Accepted(reply));
      result := WriteResult("creating comment", reply, StatusCreated);
    }

    /** GetWorkloadRunPullRequestNumber: lists the open pull requests of the run's branch
        page by page, following NextPage until it is 0, and returns the number of the
        first one whose head commit is the run's; a failed page aborts. `requested` are the
        listing options sent, one per page fetched. */
    method GetWorkloadRunPullRequestNumber(wr: WorkflowRun, pages: seq<PullsReply>)
      returns (number: int, err: Option<Error>, requested: seq<ListOptions>)
      ensures SearchFrom(pages, wr.headSha, 0) == if err.None? then Ok(number) else Err(err.value)
      ensures err.Some? ==> number == 0
      ensures |requested| == FetchCount(pages, wr.headSha, 0)
      ensures forall i :: 0 <= i < |requested| ==>
                requested[i] == PullsQuery(wr, if i == 0 then 0 else i + 1)
    {
      var sha := wr.headSha;
      var opts := PullsQuery(wr, 0);
      requested := [];
      var k := 0;
      while true
        invariant k == 0 || k < |pages|
        invariant opts == PullsQuery(wr, if k == 0 then 0 else k + 1)
        invariant SearchFrom(pages, sha, k) == SearchFrom(pages, sha, 0)
        invariant |requested| == k && FetchCount(pages, sha, 0) == k + FetchCount(pages, sha, k)
        invariant forall i :: 0 <= i < k ==> requested[i] == PullsQuery(wr, if i == 0 then 0 else i + 1)
        decreases |pages| - k
      {
        requested := requested + [opts];
        var reply := ReplyAt(pages, k);
        if reply.PullsFailed? {
          return 0, Some(Wrap("failed to list pull requests", reply.err)), requested;
        }
        var j := 0;
        while j < |reply.pulls|
          invariant 0 <= j <= |reply.pulls|
          invariant forall i :: 0 <= i < j ==> reply.pulls[i].headSha != sha
        {
          if reply.pulls[j].headSha == sha {
            assert FirstWithHead(reply.pulls, sha) == Some(j);
            return reply.pulls[j].number, None, requested;
          }
          j := j + 1;
        }
        var next := NextPage(pages, k);
        if next == 0 {
          break;
        }
        opts := opts.(page := next);
        k := k + 1;
      }
      return 0, Some(NoMatchingPullRequest), requested;
    }
  }
}
