/** The handler variants a bot can register and the event type each one answers to
    (modules/github-bots/sdk/handlers.go). */
module Handlers {
  import opened Base
  import opened Schemas

  /** A CloudEvents `type` attribute used as a dispatch key. */
  type EventType = string

  const PullRequestEvent: EventType := "dev.chainguard.github.pull_request"
  const WorkflowRunEvent: EventType := "dev.chainguard.github.workflow_run"
  const CheckRunEvent: EventType := "dev.chainguard.github.check_run"

  /** The three event types the SDK knows how to decode. */
  const KnownEventTypes: set<EventType> := {PullRequestEvent, WorkflowRunEvent, CheckRunEvent}

  /** A value implementing the EventHandlerFunc interface. The first three constructors are
      the SDK's function types; a handler's effect is modelled by the outcome it returns for
      the decoded payload and subject. `OtherHandler` stands for any other Go type that
      implements the interface by declaring some event type of its own. */
  datatype Handler =
    | PullRequestHandler(onPullRequest: (PullRequestPayload, PullRequest) -> Outcome)
    | WorkflowRunHandler(onWorkflowRun: (WorkflowRunPayload, WorkflowRun) -> Outcome)
    | CheckRunHandler(onCheckRun: (CheckRunPayload, CheckRun) -> Outcome)
    | OtherHandler(declared: EventType)

  /** One of the SDK's own handler function types. */
  predicate IsSdkHandler(h: Handler) {
    !h.OtherHandler?
  }

  /** The two handlers are of the same Go type. */
  predicate SameVariant(h1: Handler, h2: Handler) {
    || (h1.PullRequestHandler? && h2.PullRequestHandler?)
    || (h1.WorkflowRunHandler? && h2.WorkflowRunHandler?)
    || (h1.CheckRunHandler? && h2.CheckRunHandler?)
    || (h1.OtherHandler? && h2.OtherHandler? && h1.declared == h2.declared)
  }

  /** The handler's EventType() method: a constant per SDK variant, whatever function the
      handler wraps. */
  function HandlerEventType(h: Handler): (t: EventType)
    ensures IsSdkHandler(h) ==> t in KnownEventTypes
  {
    match h
    case PullRequestHandler(_) => PullRequestEvent
    case WorkflowRunHandler(_) => WorkflowRunEvent
    case CheckRunHandler(_) => CheckRunEvent
    case OtherHandler(declared) => declared
  }

  /** The three constants are pairwise distinct. */
  lemma KnownEventTypesDistinct()
    ensures PullRequestEvent != WorkflowRunEvent
    ensures PullRequestEvent != CheckRunEvent
    ensures WorkflowRunEvent != CheckRunEvent
    ensures |KnownEventTypes| == 3
  {
  }

  /** Each SDK variant answers to its own constant, whatever function it wraps, and the
      constant names the variant back. */
  lemma VariantEventTypes(h: Handler)
    requires IsSdkHandler(h)
    ensures h.PullRequestHandler? <==> HandlerEventType(h) == PullRequestEvent
    ensures h.WorkflowRunHandler? <==> HandlerEventType(h) == WorkflowRunEvent
    ensures h.CheckRunHandler? <==> HandlerEventType(h) == CheckRunEvent
  {
    KnownEventTypesDistinct();
  }

  /** For the SDK's variants, the event type is determined by the variant alone and
      determines it in turn: two handlers share a key exactly when they are of the same
      variant, whichever functions they wrap. */
  lemma EventTypeIdentifiesVariant(h1: Handler, h2: Handler)
    requires IsSdkHandler(h1) && IsSdkHandler(h2)
    ensures HandlerEventType(h1) == HandlerEventType(h2) <==> SameVariant(h1, h2)
  {
    KnownEventTypesDistinct();
  }
}
