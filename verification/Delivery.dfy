/** The worker's decisions: what a provider answer means for a record. */
module Delivery {
  import opened Options
  import opened Text
  import opened Durations
  import opened Rows

  datatype WorkerConfig = WorkerConfig(
    retryAttempts: int, retryBaseDelay: int, pollInterval: int, submittedTimeout: int, submittedTimeoutText: string)
  {
    /** What `NewWorker` insists on; durations are 64-bit. */
    predicate Valid() {
      && retryAttempts >= 1
      && 0 < retryBaseDelay <= MAX_DURATION
      && 0 < pollInterval <= MAX_DURATION
      && 0 < submittedTimeout <= MAX_DURATION
    }
  }

  /** An error from the provider, as far as the worker tells errors apart. */
  datatype ProviderError =
    | DeliveryError(message: string, provider: string, temporary: bool)
    | ContextError(message: string)     // canceled, or deadline exceeded
    | OtherError(message: string)

  datatype ProviderState =
    | ProviderSucceeded | ProviderRunning | ProviderFailed | ProviderCanceled | ProviderUnknown(text: string)

  datatype SubmissionFailure = SubmissionFailure(message: string, temporary: bool)

  /** What `Submit` or `Poll` returns. */
  datatype Answer =
    | Refused(err: ProviderError)
    | Reported(state: ProviderState, operationID: string, operationLocation: string, providerMessageID: string,
               retryAfter: int, failure: Option<SubmissionFailure>)

  /** `lastErrorFromProviderError`: a delivery error decides for itself, even when a context error caused it. */
  function ErrorOf(err: ProviderError, now: int): LastError {
    match err
    case DeliveryError(message, provider, temporary) => LastError(message, provider, temporary, now)
    case ContextError(message) => LastError(message, SPOOL_PROVIDER, true, now)
    case OtherError(message) => LastError(message, SPOOL_PROVIDER, false, now)
  }

  function FallbackMessage(state: ProviderState): string {
    if state == ProviderCanceled then "provider canceled submitted operation" else "provider failed submitted operation"
  }

  function FailureOf(failure: Option<SubmissionFailure>, state: ProviderState, now: int): LastError {
    match failure
    case None => LastError(FallbackMessage(state), SPOOL_PROVIDER, false, now)
    case Some(f) => LastError(if f.message == "" then FallbackMessage(state) else f.message, SPOOL_PROVIDER,
                              f.temporary, now)
  }

  predicate SubmitRetryAllowed(cfg: WorkerConfig, r: Record) { r.attempt < cfg.retryAttempts }

  /** The record to finalise, with the mark to put on it. */
  datatype Decision = Decision(record: Record, mark: Mark)

  function PollTime(cfg: WorkerConfig, now: int, retryAfter: int): int {
    if retryAfter > 0 then now + retryAfter else now + cfg.pollInterval
  }

  function RetryOrDead(cfg: WorkerConfig, r: Record, now: int, e: LastError): Decision {
    if e.temporary && SubmitRetryAllowed(cfg, r)
    then Decision(r, MarkRetry(now + SubmitRetryDelay(cfg.retryBaseDelay, r.attempt), Some(e)))
    else Decision(r, MarkDeadLetter(Some(e)))
  }

  /** The spool itself gives up on the record. */
  function DeadLetterFor(r: Record, message: string, now: int): Decision {
    Decision(r, MarkDeadLetter(Some(LastError(message, SPOOL_PROVIDER, false, now))))
  }

  /** `processQueuedOnce`, after the call. */
  function SubmitDecision(cfg: WorkerConfig, r: Record, now: int, a: Answer): Decision {
    match a
    case Refused(err) => RetryOrDead(cfg, r, now, ErrorOf(err, now))
    case Reported(state, op, location, providerID, retryAfter, failure) =>
      match state
      case ProviderSucceeded => Decision(r.(providerMessageID := providerID), MarkSucceeded)
      case ProviderRunning =>
        if op == "" then DeadLetterFor(r, "provider submit accepted without operation id", now)
        else Decision(r, MarkSubmitted(op, location, providerID, PollTime(cfg, now, retryAfter)))
      case ProviderUnknown(text) =>
        DeadLetterFor(r, "provider returned unsupported submission state \"" + text + "\"", now)
      case _ => RetryOrDead(cfg, r, now, FailureOf(failure, state, now))
  }

  predicate Expired(cfg: WorkerConfig, r: Record, now: int) {
    r.firstSubmitted != ZERO_TIME && r.firstSubmitted + cfg.submittedTimeout <= now
  }

  function TimeoutDecision(cfg: WorkerConfig, r: Record, now: int): Decision {
    DeadLetterFor(r, "submitted operation exceeded " + cfg.submittedTimeoutText + " timeout", now)
  }

  /** `processSubmittedOnce`, after the call. */
  function PollDecision(cfg: WorkerConfig, r: Record, now: int, a: Answer): Decision {
    match a
    case Refused(err) =>
      var e := ErrorOf(err, now);
      if e.temporary then Decision(r, MarkRetry(now + cfg.pollInterval, Some(e)))
      else Decision(r, MarkDeadLetter(Some(e)))
    case Reported(state, _, _, providerID, retryAfter, failure) =>
      var u := if providerID != "" then r.(providerMessageID := providerID) else r;
      match state
      case ProviderRunning => Decision(u, MarkRetry(PollTime(cfg, now, retryAfter), None))
      case ProviderSucceeded => Decision(u, MarkSucceeded)
      case ProviderUnknown(text) =>
        DeadLetterFor(u, "provider returned unsupported poll state \"" + text + "\"", now)
      case _ => Decision(u, MarkDeadLetter(Some(FailureOf(failure, state, now))))
  }

  /** The answers of the ACS provider: an accepted submission carries the operation id it was given. */
  predicate AcsAnswer(id: string, a: Answer) {
    a.Reported? ==> a.state == ProviderRunning && a.operationID == Trim(id)
  }

  // ---- what becomes of a record, answer by answer ----

  /** The provider could not take the message now, but may later. */
  predicate TemporaryFailure(a: Answer) {
    match a
    case Refused(err) => err.ContextError? || (err.DeliveryError? && err.temporary)
    case Reported(state, _, _, _, _, failure) =>
      (state == ProviderFailed || state == ProviderCanceled) && failure.Some? && failure.value.temporary
  }

  predicate Reports(a: Answer, state: ProviderState) { a.Reported? && a.state == state }

  /** Where a submission leads. */
  function SubmitState(a: Answer, attemptsLeft: bool): State {
    if Reports(a, ProviderSucceeded) then Succeeded
    else if Reports(a, ProviderRunning) && a.operationID != "" then Submitted
    else if TemporaryFailure(a) && attemptsLeft then Queued
    else DeadLetter
  }

  /** Where a poll leads. */
  function PollState(a: Answer): State {
    if Reports(a, ProviderSucceeded) then Succeeded
    else if Reports(a, ProviderRunning) || (a.Refused? && TemporaryFailure(a)) then Submitted
    else DeadLetter
  }

  /** `w`, written for the answer `a`, has used up one attempt and is where that answer leads. */
  ghost predicate LeadsTo(cfg: WorkerConfig, r: Record, now: int, a: Answer, w: Option<Record>) {
    && w.Some? && w.value.attempt == r.attempt + 1 && w.value.created == Truncated(r.created)
    && w.value.state == SubmitState(a, r.attempt < cfg.retryAttempts)
    && (w.value.state == Queued ==>
          w.value.nextAttempt == Truncated(now + SubmitRetryDelay(cfg.retryBaseDelay, r.attempt)))
    && (w.value.state == DeadLetter || w.value.state == Queued ==> w.value.lastError.Some?)
  }

  /** Every answer to a submission uses up one attempt; it alone, and the attempts left, decide the next state. */
  lemma SubmitOutcome(cfg: WorkerConfig, r: Record, now: int, a: Answer, clock: int)
    requires r.state == Working
    ensures var d := SubmitDecision(cfg, r, now, a); LeadsTo(cfg, r, now, a, Marked(d.record, d.mark, clock))
  {
    hide Trim, Truncated, ErrorAtRest, SubmitRetryDelay, RetryOrDead, Marked;
    match a {
      case Refused(err) => RetryOutcome(cfg, r, now, ErrorOf(err, now), clock);
      case Reported(state, _, _, _, _, failure) =>
        if state == ProviderFailed || state == ProviderCanceled {
          RetryOutcome(cfg, r, now, FailureOf(failure, state, now), clock);
        } else {
          PlainOutcome(cfg, r, now, a, clock);
        }
    }
  }

  lemma PlainOutcome(cfg: WorkerConfig, r: Record, now: int, a: Answer, clock: int)
    requires r.state == Working && a.Reported? && a.state != ProviderFailed && a.state != ProviderCanceled
    ensures var d := SubmitDecision(cfg, r, now, a); LeadsTo(cfg, r, now, a, Marked(d.record, d.mark, clock))
  {
    hide Trim, Truncated, ErrorAtRest, SubmitRetryDelay, RetryOrDead;
  }

  lemma RetryOutcome(cfg: WorkerConfig, r: Record, now: int, e: LastError, clock: int)
    requires r.state == Working
    ensures var d := RetryOrDead(cfg, r, now, e);
            var w := Marked(d.record, d.mark, clock);
            && w.Some? && w.value.attempt == r.attempt + 1 && w.value.created == Truncated(r.created)
            && w.value.lastError.Some?
            && w.value.state == (if e.temporary && r.attempt < cfg.retryAttempts then Queued else DeadLetter)
            && (w.value.state == Queued ==>
                  w.value.nextAttempt == Truncated(now + SubmitRetryDelay(cfg.retryBaseDelay, r.attempt)))
  {
    hide Trim, Truncated, ErrorAtRest, SubmitRetryDelay;
  }

  /** `w`, written for the answer `a` to a poll, has used up no attempt and is where that answer leads. */
  ghost predicate PollLeadsTo(cfg: WorkerConfig, r: Record, now: int, a: Answer, w: Option<Record>) {
    && w.Some? && w.value.attempt == r.attempt && w.value.state == PollState(a)
    && (w.value.state == Submitted ==>
          w.value.nextAttempt == Truncated(now + if a.Reported? && a.retryAfter > 0 then a.retryAfter
                                           else cfg.pollInterval))
  }

  /** An answer to a poll uses up no attempt and never sends the record back to the queue. */
  lemma PollOutcome(cfg: WorkerConfig, r: Record, now: int, a: Answer, clock: int)
    requires r.state == Submitted
    ensures var d := PollDecision(cfg, r, now, a); PollLeadsTo(cfg, r, now, a, Marked(d.record, d.mark, clock))
  {
    hide Trim, Truncated, ErrorAtRest, FailureOf, NormalizeLastError, Marked;
    var d := PollDecision(cfg, r, now, a);
    MarkedSubmitted(d.record, d.mark, clock);
  }

  /** What a mark makes of a submitted record. */
  lemma MarkedSubmitted(r: Record, m: Mark, clock: int)
    requires r.state == Submitted && !m.MarkSubmitted?
    ensures Marked(r, m, clock).Some? && Marked(r, m, clock).value.attempt == r.attempt
    ensures Marked(r, m, clock).value.state ==
              if m.MarkRetry? then Submitted else if m.MarkSucceeded? then Succeeded else DeadLetter
    ensures m.MarkRetry? ==> Marked(r, m, clock).value.nextAttempt == Truncated(m.nextAttempt)
  {
    hide Trim, Truncated, ErrorAtRest, NormalizeLastError;
  }

  /** What the provider said is what the row says. */
  lemma SubmitAnswerIsKept(cfg: WorkerConfig, r: Record, now: int, a: Answer, clock: int)
    requires r.state == Working && a.Reported?
    ensures var d := SubmitDecision(cfg, r, now, a);
            var w := Marked(d.record, d.mark, clock).value;
            && (w.state == Submitted ==>
                  && w.operationID == Trim(a.operationID) && w.operationLocation == Trim(a.operationLocation)
                  && w.providerMessageID == Trim(a.providerMessageID) && w.lastError.None?
                  && w.nextAttempt == Truncated(now + if a.retryAfter > 0 then a.retryAfter else cfg.pollInterval)
                  && (r.firstSubmitted == ZERO_TIME && clock != ZERO_TIME ==> w.firstSubmitted == Truncated(clock)))
            && (w.state == Succeeded ==> w.providerMessageID == Trim(a.providerMessageID) && w.lastError.None?)
  {
    hide Truncated, ErrorAtRest, RetryOrDead, Trim, Tight, FailureOf, NormalizeLastError;
    assert Trim(Trim(a.operationID)) == Trim(a.operationID);
    assert Trim(Trim(a.operationLocation)) == Trim(a.operationLocation);
    assert Trim(Trim(a.providerMessageID)) == Trim(a.providerMessageID);
    if a.state == ProviderFailed || a.state == ProviderCanceled {
      RetryOutcome(cfg, r, now, FailureOf(a.failure, a.state, now), clock);
    }
  }

  lemma PollAnswerIsKept(cfg: WorkerConfig, r: Record, now: int, a: Answer, clock: int)
    requires r.state == Submitted
    ensures var d := PollDecision(cfg, r, now, a);
            var w := Marked(d.record, d.mark, clock).value;
            && w.operationID == Trim(r.operationID) && w.operationLocation == Trim(r.operationLocation)
            && w.providerMessageID == Trim(if a.Reported? && a.providerMessageID != "" then a.providerMessageID
                                           else r.providerMessageID)
            && (w.state == Submitted ==> (w.lastError.Some? <==> a.Refused?))
  {
    hide Truncated, ErrorAtRest, Trim, Tight, FailureOf, ErrorOf;
  }

  /**
   Who failed, why, when, and whether it may be tried again: a delivery error speaks for itself, all else is the
   spool's.
   */
  lemma FailureIsRecorded(cfg: WorkerConfig, r: Record, now: int, err: ProviderError, clock: int)
    requires (r.state == Working || r.state == Submitted) && now != ZERO_TIME
    ensures var a := Refused(err);
            var d := if r.state == Working then SubmitDecision(cfg, r, now, a) else PollDecision(cfg, r, now, a);
            var w := Marked(d.record, d.mark, clock).value;
            && w.lastError.Some? && w.lastError.value.message == Trim(err.message)
            && w.lastError.value.at == Truncated(now)
            && w.lastError.value.provider == (if err.DeliveryError? then Trim(err.provider) else SPOOL_PROVIDER)
            && (w.lastError.value.temporary <==> TemporaryFailure(Refused(err)))
  {
    hide Truncated;
    assert Tight(SPOOL_PROVIDER);
    assert Trim(Trim(err.message)) == Trim(err.message);
    if err.DeliveryError? { assert Trim(Trim(err.provider)) == Trim(err.provider); }
  }

  /** A submitted row lacks an operation id exactly when the provider answers with one made of white space. */
  lemma SubmittedWithoutOperationIff(cfg: WorkerConfig, r: Record, now: int, a: Answer, clock: int)
    requires r.state == Working && Reports(a, ProviderRunning)
    ensures var d := SubmitDecision(cfg, r, now, a);
            var w := Marked(d.record, d.mark, clock).value;
            w.state == Submitted && w.operationID == "" <==> a.operationID != "" && Trim(a.operationID) == ""
  {
    hide Truncated, ErrorAtRest;
    assert Trim(Trim(a.operationID)) == Trim(a.operationID);
  }

  /** And it can: one blank is enough. */
  lemma BlankOperationIsStored(cfg: WorkerConfig, r: Record, now: int, clock: int)
    requires r.state == Working
    ensures var d := SubmitDecision(cfg, r, now, Reported(ProviderRunning, " ", "", "", 0, None));
            var w := Marked(d.record, d.mark, clock).value;
            w.state == Submitted && w.operationID == ""
  {
    hide Truncated, ErrorAtRest;
    var a := Reported(ProviderRunning, " ", "", "", 0, None);
    BlankIsEmpty();
    SubmittedWithoutOperationIff(cfg, r, now, a, clock);
  }

  lemma BlankIsEmpty()
    ensures Trim(" ") == ""
  {
    var t := Trim(" ");
    assert " "[0] == ' ' && IsSpace(' ');
  }
}
