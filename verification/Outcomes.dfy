/** What the worker writes for each answer of the provider, row by row and text by text. */
module Outcomes {
  import opened Options
  import opened Text
  import opened Durations
  import opened Rows
  import opened Delivery

  /** What went wrong, in whose words, and whether it may be tried again. */
  datatype Complaint = Complaint(message: string, provider: string, temporary: bool)

  /** A provider error speaks for itself; a canceled or timed out call is temporary; everything else is permanent. */
  function OfError(err: ProviderError): Complaint {
    match err
    case DeliveryError(message, provider, temporary) => Complaint(message, provider, temporary)
    case ContextError(message) => Complaint(message, "spool", true)
    case OtherError(message) => Complaint(message, "spool", false)
  }

  /** A failed or canceled operation: the failure's own message, if it has one. */
  function OfFailure(failure: Option<SubmissionFailure>, otherwise: string): Complaint {
    Complaint(if failure.Some? && failure.value.message != "" then failure.value.message else otherwise, "spool",
              failure.Some? && failure.value.temporary)
  }

  /** Why a submission or a poll (`call` is its name in the texts) did not go well; `None` if it did. */
  function ComplaintOf(a: Answer, call: string): Option<Complaint> {
    match a
    case Refused(err) => Some(OfError(err))
    case Reported(state, op, _, _, _, failure) =>
      match state
      case ProviderSucceeded => None
      case ProviderRunning =>
        if call == "submission" && op == ""
        then Some(Complaint("provider submit accepted without operation id", "spool", false)) else None
      case ProviderFailed => Some(OfFailure(failure, "provider failed submitted operation"))
      case ProviderCanceled => Some(OfFailure(failure, "provider canceled submitted operation"))
      case ProviderUnknown(text) =>
        Some(Complaint("provider returned unsupported " + call + " state \"" + text + "\"", "spool", false))
  }

  /** The complaint as the row keeps it: of the time of the pass, or of the write if that has none. */
  function Kept(c: Complaint, now: int, clock: int): Option<LastError> {
    Some(LastError(Trim(c.message), Trim(c.provider), c.temporary, Truncated(if now == ZERO_TIME then clock else now)))
  }

  /** The row with one attempt more and no trace of an operation. */
  function Attempted(r: Record): Record {
    r.(attempt := r.attempt + 1, operationID := "", operationLocation := "", providerMessageID := "",
       firstSubmitted := ZERO_TIME)
  }

  /** What becomes of a working row. */
  function SubmitRow(cfg: WorkerConfig, r: Record, now: int, a: Answer, clock: int): Record {
    var u := r.(updated := Truncated(clock));
    match ComplaintOf(a, "submission")
    case Some(c) =>
      if c.temporary && r.attempt < cfg.retryAttempts
      then Attempted(u).(state := Queued, lastError := Kept(c, now, clock),
                         nextAttempt := Truncated(now + SubmitRetryDelay(cfg.retryBaseDelay, r.attempt)))
      else Attempted(u).(state := DeadLetter, lastError := Kept(c, now, clock))
    case None =>
      var v := u.(attempt := r.attempt + 1, lastError := None);
      if a.Refused? then v
      else if a.state == ProviderSucceeded then v.(state := Succeeded, providerMessageID := Trim(a.providerMessageID))
      else v.(state := Submitted, operationID := Trim(a.operationID), operationLocation := Trim(a.operationLocation),
              providerMessageID := Trim(a.providerMessageID),
              nextAttempt := Truncated(now + if a.retryAfter > 0 then a.retryAfter else cfg.pollInterval),
              firstSubmitted := if r.firstSubmitted == ZERO_TIME then Truncated(clock) else r.firstSubmitted)
  }

  /** What becomes of a submitted row. */
  function PollRow(cfg: WorkerConfig, r: Record, now: int, a: Answer, clock: int): Record {
    var u := r.(updated := Truncated(clock));
    match ComplaintOf(a, "poll")
    case Some(c) =>
      if a.Refused? && c.temporary
      then u.(lastError := Kept(c, now, clock), nextAttempt := Truncated(now + cfg.pollInterval))
      else u.(state := DeadLetter, lastError := Kept(c, now, clock), providerMessageID := NewMessageID(r, a))
    case None =>
      var v := u.(lastError := None, providerMessageID := NewMessageID(r, a));
      if a.Refused? then v
      else if a.state == ProviderSucceeded then v.(state := Succeeded)
      else v.(nextAttempt := Truncated(now + if a.retryAfter > 0 then a.retryAfter else cfg.pollInterval))
  }

  function NewMessageID(r: Record, a: Answer): string {
    if a.Reported? && a.providerMessageID != "" then Trim(a.providerMessageID) else r.providerMessageID
  }

  /** What becomes of a submitted row past its deadline. */
  function TimeoutRow(cfg: WorkerConfig, r: Record, now: int, clock: int): Record {
    var c := Complaint("submitted operation exceeded " + cfg.submittedTimeoutText + " timeout", "spool", false);
    r.(state := DeadLetter, lastError := Kept(c, now, clock), updated := Truncated(clock))
  }

  lemma TrimTwice(s: string)
    ensures Trim(Trim(s)) == Trim(s)
  {}

  lemma NormalIsKept(c: Complaint, now: int, clock: int)
    ensures var e := NormalizeLastError(Some(LastError(c.message, c.provider, c.temporary, now)), clock);
            e.Some? && Some(ErrorAtRest(e.value)) == Kept(c, now, clock)
  {
    hide Trim, Truncated;
    TrimTwice(c.message);
    TrimTwice(c.provider);
  }

  lemma NoTextIsTrimmed()
    ensures Trim("") == ""
  {}

  lemma RetriedIs(r: Record, c: Complaint, next: int, now: int, clock: int)
    requires AtRest(r) == r
    ensures var w := Marked(r, MarkRetry(next, Some(LastError(c.message, c.provider, c.temporary, now))), clock);
            var u := r.(lastError := Kept(c, now, clock), nextAttempt := Truncated(next), updated := Truncated(clock));
            && (r.state == Working ==> w == Some(Attempted(u).(state := Queued)))
            && (r.state == Submitted ==> w == Some(u))
  {
    hide Trim, Truncated, ErrorAtRest, NormalizeLastError, Kept;
    AtRestParts(r);
    NormalIsKept(c, now, clock);
    NoTextIsTrimmed();
  }

  lemma DeadLetteredIs(r: Record, c: Complaint, now: int, clock: int)
    requires var q := r.(providerMessageID := Trim(r.providerMessageID)); AtRest(q) == q
    ensures var w := Marked(r, MarkDeadLetter(Some(LastError(c.message, c.provider, c.temporary, now))), clock);
            var u := r.(state := DeadLetter, lastError := Kept(c, now, clock), updated := Truncated(clock));
            && (r.state == Working ==> w == Some(Attempted(u)))
            && (r.state == Submitted ==> w == Some(u.(providerMessageID := Trim(r.providerMessageID))))
  {
    hide Trim, Truncated, ErrorAtRest, NormalizeLastError, Kept;
    TrimTwice(r.providerMessageID);
    AtRestParts(r.(providerMessageID := Trim(r.providerMessageID)));
    NormalIsKept(c, now, clock);
    NoTextIsTrimmed();
  }

  function ErrorFor(c: Complaint, now: int): LastError { LastError(c.message, c.provider, c.temporary, now) }

  lemma UnsupportedTexts()
    ensures "provider returned unsupported " + "submission" + " state \"" ==
              "provider returned unsupported submission state \""
    ensures "provider returned unsupported " + "poll" + " state \"" == "provider returned unsupported poll state \""
  {}

  lemma SubmitComplains(cfg: WorkerConfig, r: Record, now: int, a: Answer)
    requires ComplaintOf(a, "submission").Some?
    ensures var c := ComplaintOf(a, "submission").value;
            SubmitDecision(cfg, r, now, a) == Decision(r,
              if c.temporary && r.attempt < cfg.retryAttempts
              then MarkRetry(now + SubmitRetryDelay(cfg.retryBaseDelay, r.attempt), Some(ErrorFor(c, now)))
              else MarkDeadLetter(Some(ErrorFor(c, now))))
  {
    hide SubmitRetryDelay;
    UnsupportedTexts();
  }

  lemma PollComplains(cfg: WorkerConfig, r: Record, now: int, a: Answer)
    requires ComplaintOf(a, "poll").Some?
    ensures var c := ComplaintOf(a, "poll").value;
            var u := if a.Refused? || a.providerMessageID == "" then r
                     else r.(providerMessageID := a.providerMessageID);
            PollDecision(cfg, r, now, a) == Decision(u,
              if a.Refused? && c.temporary then MarkRetry(now + cfg.pollInterval, Some(ErrorFor(c, now)))
              else MarkDeadLetter(Some(ErrorFor(c, now))))
  {
    UnsupportedTexts();
  }

  lemma ComplaintWrites(cfg: WorkerConfig, r: Record, now: int, a: Answer, clock: int)
    requires r.state == Working && AtRest(r) == r && ComplaintOf(a, "submission").Some?
    ensures var d := SubmitDecision(cfg, r, now, a);
            Marked(d.record, d.mark, clock) == Some(SubmitRow(cfg, r, now, a, clock))
  {
    hide AtRest, Marked, Truncated, Kept, SubmitRetryDelay, SubmitDecision, ComplaintOf, Trim;
    var c := ComplaintOf(a, "submission").value;
    AtRestParts(r);
    SubmitComplains(cfg, r, now, a);
    RetriedIs(r, c, now + SubmitRetryDelay(cfg.retryBaseDelay, r.attempt), now, clock);
    DeadLetteredIs(r, c, now, clock);
  }

  lemma ZeroIsWhole()
    ensures Truncated(ZERO_TIME) == ZERO_TIME
  {}

  /** Every answer to a submission, and the whole row the worker writes for it. */
  lemma SubmitWrites(cfg: WorkerConfig, r: Record, now: int, a: Answer, clock: int)
    requires r.state == Working && AtRest(r) == r
    ensures var d := SubmitDecision(cfg, r, now, a);
            Marked(d.record, d.mark, clock) == Some(SubmitRow(cfg, r, now, a, clock))
  {
    hide Trim, Truncated, ErrorAtRest, SubmitRetryDelay, FailureOf, Kept, Attempted;
    if ComplaintOf(a, "submission").Some? {
      ComplaintWrites(cfg, r, now, a, clock);
    } else {
      AtRestParts(r);
      ZeroIsWhole();
      TrimTwice(a.operationID);
      TrimTwice(a.operationLocation);
      TrimTwice(a.providerMessageID);
    }
  }

  /** Every answer to a poll, and the whole row the worker writes for it. */
  lemma PollWrites(cfg: WorkerConfig, r: Record, now: int, a: Answer, clock: int)
    requires r.state == Submitted && AtRest(r) == r
    ensures var d := PollDecision(cfg, r, now, a);
            Marked(d.record, d.mark, clock) == Some(PollRow(cfg, r, now, a, clock))
  {
    AtRestParts(r);
    var c := ComplaintOf(a, "poll");
    if c.Some? {
      hide Marked, Truncated, Kept, PollDecision, ComplaintOf, Trim, ErrorAtRest;
      PollComplains(cfg, r, now, a);
      RetriedIs(r, c.value, now + cfg.pollInterval, now, clock);
      if a.Reported? { TrimTwice(a.providerMessageID); }
      DeadLetteredIs(PollDecision(cfg, r, now, a).record, c.value, now, clock);
    } else {
      hide Trim, Truncated, ErrorAtRest;
    }
  }

  /** A submitted row past its deadline, and the whole row the worker writes for it. */
  lemma TimeoutWrites(cfg: WorkerConfig, r: Record, now: int, clock: int)
    requires r.state == Submitted && AtRest(r) == r
    ensures var d := TimeoutDecision(cfg, r, now);
            Marked(d.record, d.mark, clock) == Some(TimeoutRow(cfg, r, now, clock))
  {
    hide Trim, Truncated, ErrorAtRest, NormalizeLastError, Kept;
    AtRestParts(r);
    var text := "submitted operation exceeded " + cfg.submittedTimeoutText + " timeout";
    DeadLetteredIs(r, Complaint(text, "spool", false), now, clock);
  }
}
