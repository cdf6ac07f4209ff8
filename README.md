# GitHub bot SDK core, Octo STS token handling and event publishing

This project is a Dafny model of the core of a GitHub-bot framework and proofs about it.
The model has seven modules:

- **Base** (`base.dfy`) holds the shared vocabulary:
  - optional values;
  - results and Go-style error values;
  - bytes;
  - the HTTP status codes the core compares against.
- **Schemas** (`schemas.dfy`) holds the fields of GitHub's webhook payloads that the core reads. It also holds the CloudEvents 1.0 envelope.
- **Handlers** (`handlers.dfy`) models the closed set of handler variants (pull request, workflow run, check run) and the event type each one answers to. Another implementation of the handler interface stands in as `OtherHandler`.
- **Bot** (`bot.dfy`) models the bot and its handler table:
  - `RegisterHandler` refuses duplicates;
  - `NewBot` registers its options in order;
  - the receiver closure of `Serve` looks up the event type, switches on the handler's variant, decodes the wrapper, re-decodes the subject through `marshalTo`, and calls exactly one handler.
  - JSON decoding is an abstract partial function returning a `Result`.
- **OctoSts** (`octosts.dfy`) models the token exchange:
  - the scope string;
  - the exchange parameters;
  - the result of `Token`;
  - the revocation request (a DELETE with a Bearer `Authorization` header, section 2.1 of RFC 6750);
  - the classification of its reply (204 No Content is success, section 15.3.5 of RFC 9110).
- **GitHub** (`github.dfy`) models the client a handler uses:
  - a token source that runs the exchange at most once and caches its result, failure included;
  - `Close`;
  - idempotent label writes;
  - the bot-comment upsert;
  - log download;
  - the paged search for a workflow run's pull request.

  GitHub itself is an abstract object whose state is a value. The state holds label sets per issue, comment lists per issue and the next comment id. The object also records every request the client sends. GitHub's answers, such as status codes and go-github errors, are inputs.
- **Publish** (`publish.dfy`) models event publishing:
  - building and sending a CloudEvents 1.0 event;
  - `getSource`;
  - the newline-delimited JSON framing `ConvertToNDJSON`;
  - splitting that framing back into lines.

Where the source updates state, the model is imperative:
- the bot's table and the token source are classes;
- `NewBot`, `SetComment`, the pull-request search, `Publish` and `ConvertToNDJSON` are methods with loops.

Each method is proved against a specification function, and the properties are proved about that function.

Four behaviours of the code are worth stating plainly:

- **Mis-keyed table entries.** The handler table is an exported field, so code can write a handler under another variant's key. Such an entry is not ignored: the type switch in the receiver looks at the handler's variant, not at the key. The event is decoded with the handler's schema and handed to that handler (`Bot.MisKeyedEntryDecodesByVariant`). Only a handler of a type outside the SDK's three falls through and is ignored. Tables built through `RegisterHandler` are always well keyed (`Bot.RegisterAllKeepsWellKeyed`, `Bot.NewBot`), and in them each event is decoded with the schema of its own type (`Bot.WellKeyedDecodesByEventType`).
- **AddLabel twice.** `AddLabel` checks the label against the labels of the `pr` value it is given. Two calls with the same (stale) `pr` both send a request (`GitHub.GitHubClient.AddLabel`). Only GitHub's resulting state is the same as after one call (`GitHub.LabelWritesIdempotentAndInverse`).
- **Close after a failed fetch.** The token source sets `tok` even when the exchange fails, so `Close` then revokes an empty token (`GitHub.GitHubClient.Close`).
- **Expired logs.** `WorkflowRunLogs` has a "logs expired" branch for 404 and 410 that is never reached (see Findings).

## Model

| member | source | states |
|---|---|---|
| Handlers.HandlerEventType | modules/github-bots/sdk/handlers.go:15-29 | every SDK handler answers to one of the three known event types |
| Handlers.VariantEventTypes | modules/github-bots/sdk/handlers.go:13-37 | each SDK variant answers to its own constant whatever function it wraps, and the constant identifies the variant back (both directions) |
| Handlers.KnownEventTypesDistinct | modules/github-bots/sdk/handlers.go:33-37 | the three event-type constants are pairwise distinct, so there are exactly three keys |
| Handlers.EventTypeIdentifiesVariant | modules/github-bots/sdk/handlers.go:13-29 | two SDK handlers share an event type exactly when they are of the same variant |
| Bot.RegisterAllSucceedsIff | modules/github-bots/sdk/bot.go:46-52 | registering a sequence of handlers in order succeeds exactly when their event types are pairwise distinct and none is already a key |
| Bot.RegisterAllKeepsWellKeyed | modules/github-bots/sdk/bot.go:40-52 | a successful registration never overwrites an entry, stores each handler under its own event type, adds no other key, and keeps a well-keyed table well keyed |
| Bot.Bot.constructor | modules/github-bots/sdk/bot.go:28-31 | a new bot has the given name and an empty table |
| Bot.Bot.RegisterHandler | modules/github-bots/sdk/bot.go:46-52 | on an unused key, adds exactly that entry under the handler's event type and leaves the rest unchanged; on a used key, panics with the duplicate message and leaves the table as it was; keeps the table well keyed |
| Bot.NewBot | modules/github-bots/sdk/bot.go:27-52 | the bot has the given name; each option contributes its handler, in argument order; it panics exactly when the options' handlers cannot all be registered in order; otherwise its table is that in-order registration and is well keyed |
| Bot.MarshalToSpec | modules/github-bots/sdk/bot.go:164-170 | marshalTo returns the encode error when encoding fails, otherwise the decoding of the encoded bytes; through a codec lossless on the value it returns the value |
| Bot.Decode | modules/github-bots/sdk/bot.go:108-153 | for each SDK variant, a wrapper decoding error is the result; otherwise a subject re-decoding error through marshalTo is the result; otherwise the call carries the decoded payload and subject, of the handler's own function type and decoded with the schema of the handler's event type |
| Bot.RouteEvent | modules/github-bots/sdk/bot.go:106-158 | an event is ignored exactly when its type has no entry or the entry is not an SDK handler; when a handler is invoked it is the one registered under the event's type, with arguments of its own type |
| Bot.Dispatch | modules/github-bots/sdk/bot.go:106-158 | an unregistered type gives nil, and so does an entry that is not an SDK handler; a decoding failure is returned as it is; an invoked handler's error is returned unchanged |
| Bot.DispatchRejectsDecodeFailure | modules/github-bots/sdk/bot.go:113-150 | for each SDK variant, when the variant's wrapper decoder fails, no handler runs and the decoder's error is the result; when the wrapper decodes but marshalTo of its subject fails, marshalTo's error is the result |
| Bot.DispatchInvokesPullRequestHandler | modules/github-bots/sdk/bot.go:124-137 | a pull-request event that decodes calls the registered handler once with the decoded payload and subject, and returns its error |
| Bot.DispatchInvokesWorkflowRunHandler | modules/github-bots/sdk/bot.go:109-122 | the same for a workflow-run event |
| Bot.DispatchInvokesCheckRunHandler | modules/github-bots/sdk/bot.go:139-152 | the same for a check-run event |
| Bot.WellKeyedDecodesByEventType | modules/github-bots/sdk/bot.go:107-153 | in a well-keyed table an event is always decoded with the schema of its own type |
| Bot.MisKeyedEntryDecodesByVariant | modules/github-bots/sdk/bot.go:107-153 | a pull-request handler stored under the workflow-run key is not ignored: a workflow-run event is decoded as a pull-request payload and handed to it |
| OctoSts.Scope | pkg/octosts/octosts.go:23-26 | the scope is the organization when the repository is empty, and otherwise the organization, '/', then the repository |
| OctoSts.ScopeRoundTrip | pkg/octosts/octosts.go:23-26 | for an organization without '/', the scope is the organization when the repository is empty and "org/repo" otherwise, and it determines the (org, repo) pair |
| OctoSts.ExchangeFor | pkg/octosts/octosts.go:28-33 | the exchange uses the Octo STS endpoint, the scope, and the policy name as both audience and identity |
| OctoSts.Token | pkg/octosts/octosts.go:22-52 | it fails exactly when the exchange fails, giving ("", err); otherwise it gives the exchanged token and no error |
| OctoSts.BearerRoundTrip | pkg/octosts/octosts.go:61 | the Authorization value carries the token back under the Bearer scheme |
| OctoSts.RevokeRequest | pkg/octosts/octosts.go:56-61 | revocation is a DELETE of https://api.github.com/installation/token with one Authorization header whose Bearer credential is the token |
| OctoSts.Revoke | pkg/octosts/octosts.go:55-74 | success exactly on 204 No Content; a transport failure is wrapped as "making request"; any other status is "unexpected status code" with the code |
| GitHub.TokenSource.constructor | modules/github-bots/sdk/github.go:24-29 | a new token source has not run the exchange and holds no token |
| GitHub.TokenSource.Token | modules/github-bots/sdk/github.go:43-53 | the first call runs the exchange once and caches (token, error), failure included; every call returns the cached pair; after a failure the cached token is empty but present |
| GitHub.LabelWritesTakeEffect | modules/github-bots/sdk/github.go:89-106 | an accepted add puts the label on its issue and an accepted remove takes it off; no other issue and no comment changes |
| GitHub.LabelWritesIdempotentAndInverse | modules/github-bots/sdk/github.go:79-111 | adding (or removing) a label twice leaves GitHub as doing it once; removing a label just added restores the issue's labels |
| GitHub.WriteResult | modules/github-bots/sdk/github.go:90-92 | a write succeeds exactly when go-github reports no error and the status is the expected one; a failure carries the error and the status |
| GitHub.TransportFailureDuringWrite | modules/github-bots/sdk/github.go:90-91 | as written, a write that gets no response panics on the nil response; the corrected classification returns the transport error and agrees with the source whenever there is a response |
| GitHub.ContainsIff | modules/github-bots/sdk/github.go:121 | the marker test holds exactly when the marker occurs in the body at some position |
| GitHub.BotComment | modules/github-bots/sdk/github.go:118 | the written body is the marker, a blank line, then the content |
| GitHub.BotCommentIsMarked | modules/github-bots/sdk/github.go:118-121 | every body SetComment writes is found by the marker test |
| GitHub.FirstPage | modules/github-bots/sdk/github.go:114 | listing without options yields at most the first 30 comments, in order |
| GitHub.FirstMarked | modules/github-bots/sdk/github.go:120-121 | the chosen comment is the first listed one that carries the marker; none is chosen exactly when none carries it |
| GitHub.CommentWriteMarkedCount | modules/github-bots/sdk/github.go:118-135 | after the chosen write is accepted, the marked comments stay as many when one was listed (it is edited in place with the new body) and grow by one otherwise (a new comment is appended) |
| GitHub.SetCommentDuplicatesBeyondFirstPage | modules/github-bots/sdk/github.go:114-129 | as written, on a pull request with 30 unmarked comments, two accepted SetComment calls leave two bot comments |
| GitHub.UpsertCommentKeepsOne | modules/github-bots/sdk/github.go:113-136 | searching every comment, an upsert on a pull request with at most one bot comment leaves exactly one, carrying the new content, with ids still unique |
| GitHub.UpsertCommentTwice | modules/github-bots/sdk/github.go:113-136 | two upserts in a row leave exactly one bot comment |
| GitHub.WorkflowRunLogsAsWritten | modules/github-bots/sdk/github.go:138-171 | success exactly when the location answers 302 without error and the archive answers 200, returning the archive body; a transport or go-github error is returned as it is; a location status other than 302 is "failed to get logs" with the status; an archive status other than 200 is "failed to get logs" with the body; every failure returns no bytes |
| GitHub.LogsExpiredUnreachable | modules/github-bots/sdk/github.go:163-169 | as written, "logs expired" is never produced by the function itself |
| GitHub.ExpiredLogsReportedAsFailure | modules/github-bots/sdk/github.go:163-169 | as written, a 404 at the archive URL is reported as "failed to get logs" with the body |
| GitHub.WorkflowRunLogs | modules/github-bots/sdk/github.go:138-171 | the corrected download has the same success condition and result as the source, and the same location and transport errors; an archive status other than 200 is "failed to get logs" with the body, except 404 and 410 |
| GitHub.WorkflowRunLogsExpired | modules/github-bots/sdk/github.go:163-169 | once the location is found, the corrected download reports "logs expired" exactly for 404 and 410, and agrees with the source on every other input |
| GitHub.PullsQuery | modules/github-bots/sdk/github.go:177-181 | the listing asks for open pull requests whose head is "owner:branch", ten per page |
| GitHub.NextPage | modules/github-bots/sdk/github.go:197-201 | the next page number is 0 exactly on the last page, and otherwise the following page |
| GitHub.FirstWithHead | modules/github-bots/sdk/github.go:191-195 | the chosen pull request is the first on the page whose head commit is the run's; none exactly when none matches |
| GitHub.SearchSkipsPassedPages | modules/github-bots/sdk/github.go:184-202 | pages listed without a match do not change the outcome of the search |
| GitHub.SearchFindsFirstMatch | modules/github-bots/sdk/github.go:184-195 | the search returns the number of the first pull request, in page order, whose head is the run's head commit |
| GitHub.SearchStopsAtListError | modules/github-bots/sdk/github.go:185-188 | a listing failure before any match ends the search with that failure wrapped |
| GitHub.SearchNotFoundIff | modules/github-bots/sdk/github.go:197-204 | "no matching pull request found" is returned exactly when every page was listed and none holds a match |
| GitHub.SearchResultMatches | modules/github-bots/sdk/github.go:191-193 | a returned number belongs to a listed pull request whose head is the run's head commit |
| GitHub.GitHubClient.constructor | modules/github-bots/sdk/github.go:24-34 | a new client has a fresh token source for the org, repo and policy that has not run the exchange |
| GitHub.GitHubClient.Close | modules/github-bots/sdk/github.go:62-77 | with no token, nil and no request; otherwise one revocation of the cached token (the empty one after a failed fetch), whose failure is wrapped as "revoking token" |
| GitHub.GitHubClient.AddLabel | modules/github-bots/sdk/github.go:79-94 | no request and nil when the pull request already lists the label; otherwise exactly one add request, and success only on 200 without error |
| GitHub.GitHubClient.RemoveLabel | modules/github-bots/sdk/github.go:96-111 | no request and nil when the pull request does not list the label; otherwise exactly one remove request, and success only on 200 without error |
| GitHub.GitHubClient.SetComment | modules/github-bots/sdk/github.go:113-136 | one listing, then at most one write: an edit of the first listed bot comment (expecting 200) or a new comment (expecting 201); a listing error aborts before any write |
| GitHub.GitHubClient.GetWorkloadRunPullRequestNumber | modules/github-bots/sdk/github.go:174-205 | the result is the search's: the first match in page order, the first listing failure, or "no matching pull request found"; one request per page fetched, page numbers following NextPage |
| Publish.GetSource | pkg/pubsub/publish.go:115-122 | never empty; "unknown" exactly when the address lookup fails, otherwise "https://" followed by the address |
| Publish.SourceIdentifiesAddress | pkg/pubsub/publish.go:121 | distinct addresses give distinct sources |
| Publish.Publish | pkg/pubsub/publish.go:73-112 | the sent event has the given id, the configured source, spec version 1.0, the caller's type, subject and time, exactly the caller's extensions, and JSON data; an encoding failure returns "failed to set data" before sending; a refused or undelivered send is returned as it is; no error exactly when the send is acknowledged |
| Publish.Encodings | pkg/pubsub/publish.go:129-133 | the encodings are each item's, in order; the result fails exactly when some item fails to encode |
| Publish.EncodingsFirstError | pkg/pubsub/publish.go:130-133 | the first item that fails to encode decides the error |
| Publish.ConvertToNDJSON | pkg/pubsub/publish.go:125-141 | the output is the item encodings joined by single newlines; empty input gives empty output; an encoding failure gives no output at all and the error |
| Publish.SplitJoin | pkg/pubsub/publish.go:124-138 | when no encoding contains a raw newline, splitting the output at newlines gives back the encodings in order |
| Publish.JoinSeparators | pkg/pubsub/publish.go:129-138 | N encodings without raw newlines are framed with exactly N - 1 newlines |
| Publish.JoinNoTrailingNewline | pkg/pubsub/publish.go:135-137 | the output does not end in a newline when the last encoding is non-empty |
| Publish.ConvertToNDJSONPeople | pkg/pubsub/publish_test.go:61-78 | ConvertToNDJSON on the two Person records of the source's unit test (James, 30; Felix, 25) yields their two JSON lines joined by one newline, and no error |

## Left out

- Process and client setup is not modelled: `Serve`'s environment, metrics, tracer and receiver start-up, and `InitClient`/`getPublishConfig` with its `os.Exit`. These are I/O wiring.
- Logging is not modelled: every `clog` call, and the context values the receiver sets.
- `sync.Once` is a single-threaded `done` flag. Behaviour under goroutines racing on the first `Token` call is not modelled.
- Context cancellation and `context.WithoutCancel` are not modelled.
- The clock, `uuid.New`, the metadata server, JSON encoding and decoding, and the STS exchange are not modelled. They are parameters of the operations that use them.
- HTTP traffic is replaced by an abstract GitHub and by replies given as inputs.
- The oauth2 transport calling `Token` before each GitHub request is not modelled. The token source is modelled on its own.
- The exponential backoff inside the CloudEvents client is recorded only as its constants (10 ms, 3 retries). Delays and retries are not modelled, and `Publish` sees the final send result.
- CloudEvents validation of extension names and values, and of the event before sending, is not modelled. Extension values are scalars.
- `BotOptions` is modelled as `BotWithHandler` only, the one option the SDK provides. An arbitrary option function is not modelled.
- OctoSts.Revoke: the error from `http.NewRequest` is not modelled. The URL is a valid constant, so it cannot occur.
- GitHub.GitHubClient.GetWorkloadRunPullRequestNumber: GitHub's filtering of pull requests by head is not modelled, and the pages are given as a finite sequence. `NextPage` is derived from a page's position, so a server that repeats or skips pages is not modelled.
- GitHub.WorkflowRunLogsAsWritten: the location request's parameters (owner, repository, run id, redirect limit) are not modelled. The nil-response check at github.go:144 is not modelled, because it runs after the deferred dereference and cannot change the outcome. Errors while reading the archive body are not modelled; the source ignores them.
- GitHub.GitHubClient.RemoveLabel: the error message is "failed to add label to pull request", the text the source uses for removal too.
- GitHub.GitHubClient.AddLabel: when the add request gets no HTTP response, the model returns the transport error wrapped with its context (the corrected classification, Findings row 3). The source instead panics reading `resp.Status` (github.go:89-91).
- GitHub.GitHubClient.RemoveLabel: the same substitution for the remove request (github.go:106-108).
- GitHub.GitHubClient.SetComment: the same substitution for the edit and create requests (github.go:122-125 and 130-133).
- Publish.ConvertToNDJSONPeople: `json.Marshal` is modelled only for a record whose name needs no escaping.
- Dispatch is modelled for the three SDK handler types plus `OtherHandler`. The latter stands for any other implementation of the handler interface and is ignored by the type switch.

## Findings

| source | as written | input that shows it | evidently intended | confidence | as-written member | corrected member |
|---|---|---|---|---|---|---|
| modules/github-bots/sdk/github.go:163-169 | every status other than 200 returns "failed to get logs" first, so the 404/410 "logs expired" branch is dead | a 302 location followed by 404 at the archive URL | 404 and 410 report "logs expired" | high; not executed | GitHub.LogsExpiredUnreachable | GitHub.WorkflowRunLogsExpired |
| modules/github-bots/sdk/github.go:114-129 | ListComments without options returns only GitHub's first page (30 comments), so a bot comment beyond it is never found and another is created each time | a pull request with 30 human comments, then two SetComment calls: two bot comments | the marker is searched among all comments, keeping one bot comment | medium; not executed | GitHub.SetCommentDuplicatesBeyondFirstPage | GitHub.UpsertCommentTwice |
| modules/github-bots/sdk/github.go:90-91 | when a label or comment write gets no HTTP response, go-github returns a nil response and the error message reads resp.Status, a nil dereference | AddLabel on a label that is absent, while the network is down | the transport error is returned, wrapped with the context | high; not executed | GitHub.TransportFailureDuringWrite | GitHub.WriteResult |
