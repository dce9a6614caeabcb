/** Tool errors of the server and the decisions taken on them: whether a call was
    ever dispatched, whether an error retires the worker, and whether it makes
    the caller give up its lease. */
module Errors {
  import opened Wrappers
  import opened Text

  /** Error kinds; payloads that no decision reads are dropped. */
  datatype ToolError =
    | NoDatabaseOpen
    | OpenFailed
    | Timeout
    | TimeoutDetailed(message: string)
    | Cancelled(message: string)
    | Busy
    | DatabaseReplaced
    | PoolExhausted
    | WorkerCrashed
    | WorkerRetired
    | NeverDispatched
    | SdkCrashed
    | RemoteProtocol
    | RemoteCall
    | IdaError(message: string)
    | DebuggerTeardown(message: string)
    | DebuggerStartRetained(message: string)
    | DebuggerSessionLost
    | NotSupported(message: string)
    | WorkerClosed

  /** The pooled tools that the retirement decisions tell apart. */
  datatype Tool = OpenIdb | DebugLaunch | DebugAttach | DebugModules | DebugStop | OtherTool

  predicate WasNeverDispatched(e: ToolError) {
    e.NeverDispatched? || e.Busy?
  }

  predicate ReleaseErrorRetires(e: ToolError) {
    e.Timeout? || e.TimeoutDetailed? || e.Cancelled? || e.DebuggerTeardown? || e.WorkerCrashed?
    || e.SdkCrashed? || e.WorkerRetired? || e.RemoteProtocol? || e.RemoteCall? || e.WorkerClosed?
  }

  predicate IsDebuggerTool(tool: Tool) {
    tool.DebugLaunch? || tool.DebugAttach? || tool.DebugModules? || tool.DebugStop?
  }

  predicate ChildToolErrorRetires(tool: Tool, e: ToolError) {
    || e.WorkerClosed? || e.WorkerCrashed? || e.SdkCrashed? || e.WorkerRetired? || e.RemoteProtocol?
    || (IsDebuggerTool(tool) && (e.Timeout? || e.TimeoutDetailed?))
  }

  predicate UnsettledOpenErrorRetires(e: ToolError) {
    e.Timeout? || e.TimeoutDetailed? || e.Cancelled? || e.SdkCrashed? || e.WorkerRetired? || e.WorkerClosed?
  }

  predicate OpenErrorReleasesLease(freshLease: bool, e: ToolError) {
    && !WasNeverDispatched(e)
    && (|| freshLease
        || e.Timeout? || e.TimeoutDetailed? || e.Cancelled? || e.WorkerCrashed? || e.SdkCrashed?
        || e.WorkerRetired? || e.WorkerClosed? || e.DatabaseReplaced?)
  }

  /** Whether a caller other than `open_idb` drops its binding on this error. */
  predicate CallErrorClearsLease(e: ToolError) {
    !WasNeverDispatched(e) && !e.RemoteCall?
  }

  // ---- Classification of the text of a child's error result ----

  const RETAINED_PREFIX := "Debugger start incomplete; active session retained: "
  const NOT_SUPPORTED_PREFIX := "Not supported: "

  function ClassifyChildError(message: string): ToolError {
    if RETAINED_PREFIX <= message then DebuggerStartRetained(message[|RETAINED_PREFIX|..])
    else if NOT_SUPPORTED_PREFIX <= message then NotSupported(message[|NOT_SUPPORTED_PREFIX|..])
    else
      var lowered := Lower(message);
      if Contains(lowered, "worker channel closed") then WorkerClosed
      else if Contains(lowered, "timed out after") || Contains(lowered, "operation timed out")
              || Contains(lowered, "exceeded worker operation timeout") then TimeoutDetailed(message)
      else if Contains(lowered, "cancelled") || Contains(lowered, "canceled") then Cancelled(message)
      else if Contains(lowered, "debugger teardown incomplete") then DebuggerTeardown(message)
      else IdaError(message)
  }

  // ---- How a call that ran can end in retirement of its worker ----

  datatype RetireCause =
    | CallCancelled            // the caller cancelled a running call
    | CallTimedOut             // the parent watchdog fired
    | TransportFailed          // sending or awaiting the reply failed
    | CrashMarked              // the reply carries the crash marker
    | FatalReply(message: string)  // an error result whose text retires the worker
    | LostAtSettlement         // an open settled on a slot that was already dead

  predicate FatalReplyRetires(tool: Tool, message: string) {
    var e := ClassifyChildError(message);
    (tool.OpenIdb? && UnsettledOpenErrorRetires(e)) || ChildToolErrorRetires(tool, e)
  }

  function RetireError(cause: RetireCause): ToolError {
    match cause
    case CallCancelled => WorkerRetired
    case CallTimedOut => WorkerRetired
    case TransportFailed => WorkerCrashed
    case CrashMarked => SdkCrashed
    case FatalReply(message) => ClassifyChildError(message)
    case LostAtSettlement => WorkerCrashed
  }

  /** Whether the caller of `tool` unbinds its lease when the call fails with `e`. */
  predicate CallerUnbinds(tool: Tool, freshLease: bool, e: ToolError) {
    if tool.OpenIdb? then OpenErrorReleasesLease(freshLease, e) else CallErrorClearsLease(e)
  }

  /** No zombie binding: on every path on which a call retires its worker, the
      error it returns makes the caller unbind the lease, for every tool, every
      reply text, and both fresh and reused leases. */
  lemma RetiringErrorsUnbind(tool: Tool, freshLease: bool, cause: RetireCause)
    requires cause.FatalReply? ==> FatalReplyRetires(tool, cause.message)
    ensures CallerUnbinds(tool, freshLease, RetireError(cause))
    ensures !WasNeverDispatched(RetireError(cause))
  {
  }

  // ---- What the texts of a child mean ----

  /** A text that reports a retained start or an unsupported operation means only that. */
  predicate Prefixed(message: string) {
    || "Debugger start incomplete; active session retained: " <= message
    || "Not supported: " <= message
  }

  predicate SaysClosed(message: string) {
    !Prefixed(message) && Mentions(message, "worker channel closed")
  }

  predicate SaysTimeout(message: string) {
    && !Prefixed(message)
    && (|| Mentions(message, "timed out after") || Mentions(message, "operation timed out")
        || Mentions(message, "exceeded worker operation timeout"))
  }

  predicate SaysCancelled(message: string) {
    !Prefixed(message) && (Mentions(message, "cancelled") || Mentions(message, "canceled"))
  }

  predicate SaysTeardown(message: string) {
    !Prefixed(message) && Mentions(message, "debugger teardown incomplete")
  }

  lemma TimeoutPhrases(message: string)
    ensures var m := Lower(message);
            && (Contains(m, "timed out after") <==> Mentions(message, "timed out after"))
            && (Contains(m, "operation timed out") <==> Mentions(message, "operation timed out"))
            && (Contains(m, "exceeded worker operation timeout") <==> Mentions(message, "exceeded worker operation timeout"))
  {
    MentionsIff(message, "timed out after");
    MentionsIff(message, "operation timed out");
    MentionsIff(message, "exceeded worker operation timeout");
  }

  lemma CancelPhrases(message: string)
    ensures var m := Lower(message);
            && (Contains(m, "cancelled") <==> Mentions(message, "cancelled"))
            && (Contains(m, "canceled") <==> Mentions(message, "canceled"))
  {
    MentionsIff(message, "cancelled");
    MentionsIff(message, "canceled");
  }

  lemma OtherPhrases(message: string)
    ensures var m := Lower(message);
            && (Contains(m, "worker channel closed") <==> Mentions(message, "worker channel closed"))
            && (Contains(m, "debugger teardown incomplete") <==> Mentions(message, "debugger teardown incomplete"))
  {
    MentionsIff(message, "worker channel closed");
    MentionsIff(message, "debugger teardown incomplete");
  }

  /** The classification in the words of the text: the first phrase in this order decides. */
  lemma ClassifiedByText(message: string)
    ensures var e := ClassifyChildError(message);
            && (e.WorkerClosed? <==> SaysClosed(message))
            && (e.TimeoutDetailed? <==> SaysTimeout(message) && !SaysClosed(message))
            && (e.Cancelled? <==> SaysCancelled(message) && !SaysTimeout(message) && !SaysClosed(message))
            && (e.DebuggerTeardown? <==>
                  SaysTeardown(message) && !SaysCancelled(message) && !SaysTimeout(message) && !SaysClosed(message))
            && (|| e.WorkerClosed? || e.TimeoutDetailed? || e.Cancelled? || e.DebuggerTeardown?
                || e.DebuggerStartRetained? || e.NotSupported? || e.IdaError?)
  {
    TimeoutPhrases(message);
    CancelPhrases(message);
    OtherPhrases(message);
  }

  /** Which error texts retire the worker, tool by tool, in the words of the text: a
      closed channel always does, a timeout does for an open and the debugger tools, a
      cancellation for an open. */
  lemma FatalTexts(tool: Tool, message: string)
    ensures FatalReplyRetires(tool, message) <==>
            || SaysClosed(message)
            || (SaysTimeout(message) && (tool.OpenIdb? || tool.DebugLaunch? || tool.DebugAttach? || tool.DebugModules? || tool.DebugStop?))
            || (SaysCancelled(message) && tool.OpenIdb?)
  {
    ClassifiedByText(message);
  }

  /** A start error reports a retained session exactly by its prefix. */
  lemma RetainedText(message: string)
    ensures ClassifyChildError(message).DebuggerStartRetained? <==>
            "Debugger start incomplete; active session retained: " <= message
  {
  }

  // ---- Errors that keep the lease ----

  /** Which errors of an open give its lease up: on a fresh lease every one but a call
      that was never dispatched; on a reused lease only those after which the worker
      is gone or no longer serves it. A settled error keeps a reused lease. */
  lemma ErrorsThatRelease(e: ToolError)
    ensures OpenErrorReleasesLease(true, e) <==> e != NeverDispatched && e != Busy
    ensures !OpenErrorReleasesLease(false, e) <==>
            (|| e.IdaError? || e.NotSupported? || e.OpenFailed? || e.RemoteCall? || e.RemoteProtocol? || e.DebuggerTeardown?
             || e.DebuggerStartRetained? || e.NoDatabaseOpen? || e.PoolExhausted? || e.DebuggerSessionLost?
             || e.NeverDispatched? || e.Busy?)
    ensures CallErrorClearsLease(e) <==> e != NeverDispatched && e != Busy && e != RemoteCall
  {
  }

  // ---- How `close_idb` can end during a release ----

  datatype CloseOutcome =
    | CloseDone
    | CloseErrorResult(message: string)   // the child answered with an error result
    | CloseProtocolError                  // the child answered with an MCP error
    | CloseTransportLost
    | CloseDeadline                       // no answer within the close deadline
    | CloseNeverSent                      // the request was refused before dispatch

  function CloseError(o: CloseOutcome): Option<ToolError> {
    match o
    case CloseDone => None
    case CloseErrorResult(message) => Some(ClassifyChildError(message))
    case CloseProtocolError => Some(RemoteCall)
    case CloseTransportLost => Some(RemoteProtocol)
    case CloseDeadline => Some(Timeout)
    case CloseNeverSent => Some(NeverDispatched)
  }

  predicate CloseRetires(o: CloseOutcome) {
    CloseError(o).Some? && ReleaseErrorRetires(CloseError(o).value)
  }

  /** The child's close may still be running, or its outcome is unknown: no answer, an
      answer that is no tool result, or a result that says so. */
  predicate Unsettled(o: CloseOutcome) {
    match o
    case CloseDone => false
    case CloseErrorResult(m) => SaysClosed(m) || SaysTimeout(m) || SaysCancelled(m) || SaysTeardown(m)
    case CloseProtocolError => true
    case CloseTransportLost => true
    case CloseDeadline => true
    case CloseNeverSent => false
  }

  /** A release retires the worker exactly when the close is unsettled. */
  lemma CloseRetiresIff(o: CloseOutcome)
    ensures CloseRetires(o) <==> Unsettled(o)
  {
    if o.CloseErrorResult? { ClassifiedByText(o.message); }
  }
}
