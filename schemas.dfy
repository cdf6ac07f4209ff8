/** The fields of GitHub's payload types that the core reads, and the CloudEvents
    envelope events travel in. Every other field of these records is carried through
    untouched by the core and is not modelled. */
module Schemas {
  import opened Base

  /** A moment in time, as an opaque count (time.Time). */
  type Time = int

  /** A pull request: its number, its label names, the SHA of its head commit and the
      repository its base branch belongs to. */
  datatype PullRequest = PullRequest(
    number: int,
    labels: seq<string>,
    headSha: string,
    baseOwner: string,
    baseRepo: string)

  /** A workflow run: its id, the branch and commit it ran on and its repository. */
  datatype WorkflowRun = WorkflowRun(
    id: int,
    headBranch: string,
    headSha: string,
    owner: string,
    repo: string)

  /** A check run: its id and the commit it checks. */
  datatype CheckRun = CheckRun(id: int, headSha: string)

  /** The webhook payloads (go-github's PullRequestEvent, WorkflowRunEvent and
      CheckRunEvent); each nests its subject entity. */
  datatype PullRequestPayload = PullRequestPayload(action: string, pullRequest: PullRequest)
  datatype WorkflowRunPayload = WorkflowRunPayload(action: string, workflowRun: WorkflowRun)
  datatype CheckRunPayload = CheckRunPayload(action: string, checkRun: CheckRun)

  /** The envelope the event recorder puts around every payload. */
  datatype Wrapper<T> = Wrapper(when: Time, body: T)

  /** A scalar CloudEvents extension value. */
  datatype Value = Text(text: string) | Number(number: int) | Flag(flag: bool)

  /** A CloudEvents 1.0 event: the required context attributes `id`, `source`,
      `specversion` and `type`, the optional `subject`, `time` and `datacontenttype`,
      the extension attributes and the data. */
  datatype Event = Event(
    id: string,
    source: string,
    specVersion: string,
    eventType: string,
    subject: string,
    time: Option<Time>,
    extensions: map<string, Value>,
    dataContentType: string,
    data: Bytes)
}
