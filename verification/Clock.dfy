/** With a positive clock that never goes back, no write of the store is ever refused. */
module Clock {
  import opened Options
  import opened Text
  import opened Ids
  import opened Disk
  import opened Payload
  import opened Durations
  import opened Rows
  import opened Delivery
  import opened Machine
  import opened DiskInvariant
  import opened ProcessSteps
  import opened RowInvariant
  import opened RowSteps

  ghost predicate Forward(run: Run) {
    && |run.states| == |run.labels| + 1
    && run.states[0].clock >= MILLISECOND
    && forall i | 0 <= i < |run.labels| :: run.states[i].clock <= run.states[i + 1].clock
  }

  // ---- the configuration ----

  /** The longest retry wait of the configuration fits in 64 bits. */
  predicate DelaysFit(cfg: WorkerConfig)
    requires cfg.Valid()
  {
    Doubled(cfg.retryBaseDelay, if cfg.retryAttempts > 31 then 30 else cfg.retryAttempts - 1) <= MAX_DURATION
  }

  lemma FittingDelay(cfg: WorkerConfig, attempt: nat)
    requires cfg.Valid() && DelaysFit(cfg) && attempt < cfg.retryAttempts
    ensures SubmitRetryDelay(cfg.retryBaseDelay, attempt) > 0
  {
    var last: nat := if cfg.retryAttempts > 31 then 30 else cfg.retryAttempts - 1;
    var shift: nat := if attempt > 30 then 30 else attempt;
    DoubledGrows(cfg.retryBaseDelay, shift, last);
  }

  lemma WaitThatFits(base: int, k: nat)
    requires base > 0 && k <= 30 && Doubled(base, k) <= MAX_DURATION
    ensures SubmitRetryDelay(base, k) > 0
  {
    hide Doubled;
    DoubledGrows(base, k, k);
  }

  lemma WaitThatWraps(base: int, k: nat)
    requires base > 0 && k < 30 && Doubled(base, k) <= MAX_DURATION < Doubled(base, k + 1)
    ensures SubmitRetryDelay(base, k + 1) < 0
  {
    hide Doubled;
    DoubledStep(base, k);
  }

  /** The first wait that does not fit wraps around to a negative one. */
  lemma {:induction false} FirstWrap(base: int, n: nat) returns (k: nat)
    requires 0 < base <= MAX_DURATION && n <= 30 && Doubled(base, n) > MAX_DURATION
    ensures 1 <= k <= n && SubmitRetryDelay(base, k) < 0
    ensures forall j: nat | j < k :: SubmitRetryDelay(base, j) > 0
  {
    hide Doubled, SubmitRetryDelay;
    DoubledStep(base, 0);
    WaitThatFits(base, 0);
    k := 1;
    while Doubled(base, k) <= MAX_DURATION
      invariant 1 <= k <= n
      invariant Doubled(base, k - 1) <= MAX_DURATION < Doubled(base, n)
      invariant forall j: nat | j < k :: SubmitRetryDelay(base, j) > 0
      decreases n - k
    {
      WaitThatFits(base, k);
      k := k + 1;
    }
    WaitThatWraps(base, k - 1);
  }

  /** That is the exact condition for every wait to lead forward. */
  lemma DelaysFitIff(cfg: WorkerConfig)
    requires cfg.Valid()
    ensures DelaysFit(cfg) <==> forall k: nat | k < cfg.retryAttempts :: SubmitRetryDelay(cfg.retryBaseDelay, k) > 0
  {
    if DelaysFit(cfg) {
      forall k: nat | k < cfg.retryAttempts
        ensures SubmitRetryDelay(cfg.retryBaseDelay, k) > 0
      {
        FittingDelay(cfg, k);
      }
    } else {
      var k := FirstWrap(cfg.retryBaseDelay, if cfg.retryAttempts > 31 then 30 else cfg.retryAttempts - 1);
      assert SubmitRetryDelay(cfg.retryBaseDelay, k) < 0;
    }
  }

  /**
   The earliest time attempt `k` can be made, if the first is made at `t`: not before it is due, nor before the last
   one.
   */
  function Earliest(cfg: WorkerConfig, t: int, k: nat): int {
    if k == 0 then t
    else
      var e := Earliest(cfg, t, k - 1);
      var due := Truncated(e + SubmitRetryDelay(cfg.retryBaseDelay, k - 1));
      if due > e then due else e
  }

  /** No retry, made as early as can be, is due before the first millisecond of 1970. */
  ghost predicate RetriesFit(cfg: WorkerConfig) {
    forall k: nat | k < cfg.retryAttempts ::
      Earliest(cfg, MILLISECOND, k) + SubmitRetryDelay(cfg.retryBaseDelay, k) >= MILLISECOND
  }

  lemma {:induction false} EarliestGrows(cfg: WorkerConfig, t: int, k: nat)
    ensures t <= Earliest(cfg, t, k) <= Earliest(cfg, t, k + 1)
  {
    if k > 0 { EarliestGrows(cfg, t, k - 1); }
  }

  lemma DelaysFitIsEnough(cfg: WorkerConfig)
    requires cfg.Valid() && DelaysFit(cfg)
    ensures RetriesFit(cfg)
  {
    hide SubmitRetryDelay, DelaysFit;
    forall k: nat | k < cfg.retryAttempts
      ensures Earliest(cfg, MILLISECOND, k) + SubmitRetryDelay(cfg.retryBaseDelay, k) >= MILLISECOND
    {
      FittingDelay(cfg, k);
      EarliestGrows(cfg, MILLISECOND, k);
    }
  }

  // ---- times in a state ----

  predicate Past(t: int, clock: int) { MILLISECOND <= t <= clock }

  predicate ErrorFits(e: Option<LastError>) { e.Some? ==> e.value.at >= MILLISECOND }

  /** A mark made at `now` for the record: polls lie ahead, retries wait as the configuration says. */
  predicate MarkFits(cfg: WorkerConfig, r: Record, m: Mark, now: int) {
    match m
    case MarkSubmitted(_, _, _, next) => next > now
    case MarkRetry(next, e) =>
      && ErrorFits(e)
      && (r.state == Submitted ==> next > now)
      && (r.state == Working ==>
            0 <= r.attempt < cfg.retryAttempts && next == now + SubmitRetryDelay(cfg.retryBaseDelay, r.attempt))
    case MarkSucceeded => true
    case MarkDeadLetter(e) => ErrorFits(e)
  }

  ghost predicate ProcTimes(cfg: WorkerConfig, proc: Process, clock: int) {
    && (proc.Swept? ==> Past(proc.now, clock))
    && (proc.Up? && !proc.worker.Idle? && !proc.worker.Stopped? ==> Past(proc.worker.now, clock))
    && (proc.Up? && proc.worker.Finalizing? ==>
          MarkFits(cfg, proc.worker.rec, proc.worker.decision.mark, proc.worker.now))
  }

  ghost predicate TInv(cfg: WorkerConfig, s: Sys) {
    && s.clock >= MILLISECOND
    && (forall id | id in s.rows :: s.rows[id].created <= s.clock)
    && (forall id | id in s.enq :: Past(s.enq[id].start, s.clock))
    && ProcTimes(cfg, s.proc, s.clock)
  }

  // ---- decisions ----

  lemma SubmitMarkFits(cfg: WorkerConfig, r: Record, now: int, a: Answer)
    requires cfg.Valid() && now >= MILLISECOND && r.attempt >= 0 && r.state == Working
    ensures MarkFits(cfg, r, SubmitDecision(cfg, r, now, a).mark, now)
  {
    hide SubmitRetryDelay;
  }

  lemma PollMarkFits(cfg: WorkerConfig, r: Record, now: int, a: Answer)
    requires cfg.Valid() && now >= MILLISECOND && r.state == Submitted
    ensures MarkFits(cfg, r, PollDecision(cfg, r, now, a).mark, now)
    ensures MarkFits(cfg, r, TimeoutDecision(cfg, r, now).mark, now)
  {}

  // ---- every step keeps the times in order ----

  lemma WorkerTimes(p: Params, s: Sys, l: WorkerStep, s': Sys)
    requires p.Valid() && RInv(p, s) && TInv(p.worker, s) && WorkerNext(p, s, l, s')
    ensures ProcTimes(p.worker, s'.proc, s'.clock)
  {
    hide CorruptRecord, RequeuedRecord, ClaimedRecord, Marked, Storable, LoadNode, FirstDue, NoneDue, CountsOk, RowOk,
         SubmitDecision, PollDecision, TimeoutDecision, Expired, AcsAnswer, DecisionOk, Normal, HistoryOk, WorkingOk,
         TodoOk, MarkFits;
    var w := s.proc.worker;
    match l
    case Submit(a) => AttemptNotNegative(p, s, w.id); SubmitMarkFits(p.worker, w.rec, w.now, a);
    case Poll(a) => PollMarkFits(p.worker, w.rec, w.now, a);
    case Expire => PollMarkFits(p.worker, w.rec, w.now, Refused(OtherError("")));
    case _ =>
  }

  lemma AttemptNotNegative(p: Params, s: Sys, id: string)
    requires RInv(p, s) && id in s.rows
    ensures s.rows[id].attempt >= 0
  {
    assert RowOk(p, id, s.rows[id]);
  }

  lemma SmtpTimes(p: Params, s: Sys, id: string, l: SmtpStep, s': Sys)
    requires TInv(p.worker, s) && SmtpNext(p, s, id, l, s')
    ensures s'.clock == s.clock && s'.proc == s.proc
    ensures forall k | k in s'.enq :: Past(s'.enq[k].start, s.clock)
    ensures forall k | k in s'.rows ::
              k in s.rows || (l.Insert? && k == id && id in s.enq && s'.rows[k] == NewRecord(s.enq[id].start))
    ensures forall k | k in s.rows :: k in s'.rows
  {
    hide Canonical, PlanOf, WellNamed, NodeOf, TmpNames, Apply, Confined, NewRecord, Storable, StageName,
         PublishTempName;
  }

  lemma StepTimes(p: Params, s: Sys, l: Label, s': Sys)
    requires p.Valid() && Inv(p, s) && RInv(p, s) && TInv(p.worker, s) && Step(p, s, l, s') && s.clock <= s'.clock
    ensures TInv(p.worker, s')
  {
    hide Inv, RInv, SmtpNext, WorkerNext, ProcessNext, Flushed, Edge, RowsMove, MarkFits;
    StepRows(p, s, l, s');
    match l
    case Smtp(id, step) =>
      SmtpTimes(p, s, id, step, s');
      CreatedKept(s, s');
    case Work(step) =>
      WorkerQuiet(p, s, step, s');
      WorkerRowKeys(p, s, step, s');
      assert forall id | id in s'.rows :: id in s.rows.Keys;
      WorkerTimes(p, s, step, s');
      CreatedKept(s, s');
    case Proc(step) =>
      ProcessTimes(p, s, step, s');
      CreatedKept(s, s');
    case _ =>
  }

  /** A row that was there before keeps its creation time. */
  lemma CreatedKept(s: Sys, s': Sys)
    requires RowsMove(s.rows, s'.rows)
    ensures forall id | id in s.rows :: id in s'.rows && s'.rows[id].created == s.rows[id].created
  {}

  lemma ProcessTimes(p: Params, s: Sys, l: ProcessStep, s': Sys)
    requires TInv(p.worker, s) && ProcessNext(p, s, l, s')
    ensures s'.clock == s.clock && ProcTimes(p.worker, s'.proc, s'.clock)
    ensures forall id | id in s'.rows :: id in s.rows
    ensures s'.enq == s.enq || s'.enq == map[]
  {
    hide CorruptRecord, RecoveredRecord, Storable, LoadNode, Image, Apply, Confined, MarkFits;
  }

  lemma {:induction false} TInvAlways(p: Params, run: Run, i: nat)
    requires ValidRun(p, run) && Forward(run) && i < |run.states|
    ensures TInv(p.worker, run.states[i])
  {
    hide Inv, RInv, Step, RowsMove, MarkFits;
    if i > 0 {
      RInvAlways(p, run, i - 1);
      TInvAlways(p, run, i - 1);
      StepTimes(p, run.states[i - 1], run.labels[i - 1], run.states[i]);
    }
  }

  // ---- no attempt comes early ----

  function ReachedAt(cfg: WorkerConfig, attempt: int): int {
    if attempt < 0 then MILLISECOND else Earliest(cfg, MILLISECOND, attempt)
  }

  /** The pass that makes the next claim begins no earlier than this. */
  function NextPass(s: Sys): int {
    if s.proc.Up? && !s.proc.worker.Idle? && !s.proc.worker.Stopped? then s.proc.worker.now else s.clock
  }

  ghost predicate QueuedReached(cfg: WorkerConfig, r: Record, bound: int) {
    r.state == Queued ==> ReachedAt(cfg, r.attempt) <= r.nextAttempt || ReachedAt(cfg, r.attempt) <= bound
  }

  predicate Working?(w: Worker) {
    w.Claimed? || w.Condemned? || w.Unreadable? || w.Ready? || (w.Finalizing? && w.rec.state == Working)
  }

  /** No row is, or will be, worked on before the earliest time of its attempt. */
  ghost predicate EInv(cfg: WorkerConfig, s: Sys) {
    && (forall id | id in s.rows :: QueuedReached(cfg, s.rows[id], NextPass(s)))
    && (forall id | id in s.rows && s.rows[id].state == Working :: ReachedAt(cfg, s.rows[id].attempt) <= s.clock)
    && (s.proc.Up? && Working?(s.proc.worker) ==> ReachedAt(cfg, s.proc.worker.rec.attempt) <= s.proc.worker.now)
  }

  /** A retry at `now`, or later than its earliest time, leaves the row for its next attempt. */
  lemma RetryReached(cfg: WorkerConfig, attempt: nat, now: int)
    requires ReachedAt(cfg, attempt) <= now
    ensures ReachedAt(cfg, attempt + 1) <= now
            || ReachedAt(cfg, attempt + 1) <= Truncated(now + SubmitRetryDelay(cfg.retryBaseDelay, attempt))
  {
    hide SubmitRetryDelay;
    TruncatedMonotone(Earliest(cfg, MILLISECOND, attempt) + SubmitRetryDelay(cfg.retryBaseDelay, attempt),
                      now + SubmitRetryDelay(cfg.retryBaseDelay, attempt));
  }

  lemma FinalizedReached(p: Params, s: Sys, outcome: TxOutcome, s': Sys)
    requires RInv(p, s) && TInv(p.worker, s) && EInv(p.worker, s) && s.proc.Up?
    requires DoFinalize(s, s.proc.worker, outcome, s')
    ensures s.proc.worker.id in s'.rows && QueuedReached(p.worker, s'.rows[s.proc.worker.id], s.proc.worker.now)
    ensures s'.rows[s.proc.worker.id].state == Working ==>
              ReachedAt(p.worker, s'.rows[s.proc.worker.id].attempt) <= s.clock
  {
    hide CountsOk, WorkingOk, HistoryOk, TodoOk, RowOk, Normal, Trim, ErrorAtRest, NormalizeLastError, Truncated,
         Storable, ReachedAt, SubmitRetryDelay;
    var w := s.proc.worker;
    if w.rec.state == Working && w.decision.mark.MarkRetry? { RetryReached(p.worker, w.rec.attempt, w.now); }
  }

  lemma FinalizeReached(p: Params, s: Sys, outcome: TxOutcome, s': Sys)
    requires RInv(p, s) && TInv(p.worker, s) && EInv(p.worker, s) && s.proc.Up?
    requires DoFinalize(s, s.proc.worker, outcome, s')
    ensures EInv(p.worker, s')
  {
    hide RInv, Marked, Storable, ReachedAt, MarkFits;
    FinalizedReached(p, s, outcome, s');
  }

  lemma ClaimReached(p: Params, s: Sys, id: string, outcome: TxOutcome, s': Sys)
    requires TInv(p.worker, s) && EInv(p.worker, s) && s.proc.Up? && DoClaim(s, s.proc.worker, id, outcome, s')
    ensures EInv(p.worker, s')
  {
    hide Storable, ReachedAt, MarkFits, Before;
  }

  lemma RewriteReached(p: Params, s: Sys, outcome: TxOutcome, s': Sys)
    requires RInv(p, s) && TInv(p.worker, s) && EInv(p.worker, s) && s.proc.Up?
    requires DoDeadLetterCorrupt(s, s.proc.worker, outcome, s') || DoRequeue(s, s.proc.worker, outcome, s')
    ensures EInv(p.worker, s')
  {
    hide Storable, ReachedAt, MarkFits, CorruptRecord, RequeuedRecord, CountsOk, RowOk, DecisionOk, Normal, HistoryOk,
         WorkingOk, TodoOk;
    var w := s.proc.worker;
    RewrittenStates(w.rec, if w.Condemned? then w.cause else "", s.clock);
  }

  lemma WorkerReached(p: Params, s: Sys, l: WorkerStep, s': Sys)
    requires RInv(p, s) && TInv(p.worker, s) && EInv(p.worker, s) && WorkerNext(p, s, l, s')
    ensures EInv(p.worker, s')
  {
    hide DoFinalize, DoClaim, DoDeadLetterCorrupt, DoRequeue, LoadNode, NoneDue, FirstDue, CountsOk, RowOk, ReachedAt,
         SubmitDecision, PollDecision, TimeoutDecision, Expired, AcsAnswer, DecisionOk, Normal, HistoryOk, WorkingOk,
         TodoOk, MarkFits;
    match l
    case Finalize(outcome) => FinalizeReached(p, s, outcome, s');
    case Claim(id, outcome) => ClaimReached(p, s, id, outcome, s');
    case DeadLetterCorrupt(outcome) => RewriteReached(p, s, outcome, s');
    case Requeue(outcome) => RewriteReached(p, s, outcome, s');
    case _ =>
  }

  lemma RewrittenStates(r: Record, cause: string, clock: int)
    ensures CorruptRecord(r, cause, clock).state == DeadLetter
    ensures RequeuedRecord(r, clock).state == Queued && RequeuedRecord(r, clock).attempt == r.attempt
  {}

  lemma ProcessReached(p: Params, s: Sys, l: ProcessStep, s': Sys)
    requires TInv(p.worker, s) && EInv(p.worker, s) && ProcessNext(p, s, l, s')
    ensures EInv(p.worker, s')
  {
    hide CorruptRecord, Storable, LoadNode, Image, Apply, Confined, MarkFits, ReachedAt;
    if l.RecoverCorrupt? { RewrittenStates(s.rows[s.proc.todo[0]], l.cause, s.clock); }
  }

  lemma StepReached(p: Params, s: Sys, l: Label, s': Sys)
    requires RInv(p, s) && TInv(p.worker, s) && EInv(p.worker, s) && Step(p, s, l, s') && s.clock <= s'.clock
    ensures EInv(p.worker, s')
  {
    hide RInv, SmtpNext, WorkerNext, ProcessNext, MarkFits, Flushed;
    match l
    case Smtp(id, step) => SmtpReached(p, s, id, step, s');
    case Work(step) => WorkerReached(p, s, step, s');
    case Proc(step) => ProcessReached(p, s, step, s');
    case _ =>
  }

  lemma SmtpReached(p: Params, s: Sys, id: string, l: SmtpStep, s': Sys)
    requires TInv(p.worker, s) && EInv(p.worker, s) && SmtpNext(p, s, id, l, s')
    ensures EInv(p.worker, s')
  {
    hide Canonical, PlanOf, WellNamed, NodeOf, TmpNames, Apply, Confined, Storable, StageName, PublishTempName;
  }

  lemma {:induction false} EInvAlways(p: Params, run: Run, i: nat)
    requires ValidRun(p, run) && Forward(run) && i < |run.states|
    ensures EInv(p.worker, run.states[i])
  {
    hide Inv, RInv, Step, RowsMove, MarkFits, TInv, ReachedAt;
    if i > 0 {
      RInvAlways(p, run, i - 1);
      TInvAlways(p, run, i - 1);
      EInvAlways(p, run, i - 1);
      StepReached(p, run.states[i - 1], run.labels[i - 1], run.states[i]);
    }
  }

  // ---- no write is refused ----

  /** Whatever the store would write next passes the state check and the table's constraints. */
  ghost predicate WritesFit(s: Sys) {
    && (forall id | id in s.enq :: Storable(NewRecord(s.enq[id].start)))
    && (s.proc.Swept? ==>
          forall id | id in s.rows && s.rows[id].state == Working ::
            Storable(RecoveredRecord(s.rows[id], s.proc.now, s.clock)))
    && (s.proc.Recovering? ==>
          forall id, cause | id in s.proc.todo :: id in s.rows && Storable(CorruptRecord(s.rows[id], cause, s.clock)))
    && (s.proc.Up? ==>
          var w := s.proc.worker;
          && (w.Claiming? ==>
                forall id | id in s.rows && s.rows[id].state == Queued :: Storable(ClaimedRecord(s.rows[id], s.clock)))
          && (w.Condemned? || w.Unreadable? || w.Finalizing? ==> w.id in s.rows && s.rows[w.id].state == w.rec.state)
          && (w.Condemned? ==> Storable(CorruptRecord(w.rec, w.cause, s.clock)))
          && (w.Unreadable? ==> Storable(RequeuedRecord(w.rec, s.clock)))
          && (w.Finalizing? ==>
                var r := Marked(w.decision.record, w.decision.mark, s.clock);
                w.decision.record.state == w.rec.state && r.Some? && Storable(r.value)))
  }

  /** Rewriting an old enough row at the present time. */
  lemma RewriteFits(r: Record, clock: int)
    requires Storable(r) && AtRest(r) == r && r.created <= clock && clock >= MILLISECOND
    ensures Storable(ClaimedRecord(r, clock)) && Storable(RequeuedRecord(r, clock))
    ensures forall cause :: Storable(CorruptRecord(r, cause, clock))
    ensures forall now | now >= MILLISECOND :: Storable(RecoveredRecord(r, now, clock))
  {
    hide Trim;
    AtRestParts(r);
    TruncatedMonotone(r.created, clock);
    TruncatedTwice(clock);
  }

  lemma MarkedFits(cfg: WorkerConfig, r: Record, m: Mark, now: int, clock: int)
    requires Storable(r) && AtRest(r) == r && r.created <= clock && Past(now, clock) && MarkFits(cfg, r, m, now)
    requires m.MarkRetry? && r.state == Working ==> m.nextAttempt >= MILLISECOND
    requires r.state == Working || (r.state == Submitted && !m.MarkSubmitted?)
    ensures Marked(r, m, clock).Some? && Storable(Marked(r, m, clock).value)
  {
    hide Trim, SubmitRetryDelay;
    AtRestParts(r);
    TruncatedMonotone(r.created, clock);
    TruncatedTwice(clock);
  }

  lemma DecisionFits(p: Params, s: Sys)
    requires RInv(p, s) && TInv(p.worker, s) && EInv(p.worker, s) && RetriesFit(p.worker) && s.proc.Up?
    requires s.proc.worker.Finalizing?
    ensures var w := s.proc.worker;
            var r := Marked(w.decision.record, w.decision.mark, s.clock);
            w.decision.record.state == w.rec.state && r.Some? && Storable(r.value)
  {
    var w := s.proc.worker;
    var d := w.decision;
    hide Marked, CountsOk, WorkingOk, HistoryOk, TodoOk, SubmitRetryDelay, Earliest;
    assert RowOk(p, w.id, w.rec);
    MarkedIgnoresMessageID(w.rec, d.record, d.mark, s.clock);
    if d.mark.MarkRetry? && w.rec.state == Working {
      var k: nat := w.rec.attempt;
      assert Earliest(p.worker, MILLISECOND, k) + SubmitRetryDelay(p.worker.retryBaseDelay, k) >= MILLISECOND;
    }
    MarkedFits(p.worker, w.rec, d.mark, w.now, s.clock);
  }

  /** The provider's message id has no say in whether a row may be written. */
  lemma MarkedIgnoresMessageID(r: Record, r': Record, m: Mark, clock: int)
    requires r' == r.(providerMessageID := r'.providerMessageID)
    ensures Marked(r', m, clock).Some? <==> Marked(r, m, clock).Some?
    ensures Marked(r, m, clock).Some? ==>
              (Storable(Marked(r', m, clock).value) <==> Storable(Marked(r, m, clock).value))
  {
    hide Trim, Truncated, NormalizeLastError;
  }

  lemma RowsFit(p: Params, s: Sys, id: string)
    requires RInv(p, s) && TInv(p.worker, s) && id in s.rows
    ensures Storable(ClaimedRecord(s.rows[id], s.clock)) && Storable(RequeuedRecord(s.rows[id], s.clock))
    ensures forall cause :: Storable(CorruptRecord(s.rows[id], cause, s.clock))
    ensures forall now | now >= MILLISECOND :: Storable(RecoveredRecord(s.rows[id], now, s.clock))
  {
    hide Storable, AtRest, ClaimedRecord, RequeuedRecord, CorruptRecord, RecoveredRecord, CountsOk, WorkingOk,
         HistoryOk, TodoOk, WorkerOk;
    assert RowOk(p, id, s.rows[id]);
    RewriteFits(s.rows[id], s.clock);
  }

  lemma NewFits(now: int)
    requires now >= MILLISECOND
    ensures Storable(NewRecord(now))
  {}

  /**
   In every run with a positive clock that never goes back, for a configuration whose retries fit, every row the store
   is about to write is in the state it expects, meets every constraint of the table and reads back.
   */
  lemma NoWriteIsRefused(p: Params, run: Run, i: nat)
    requires ValidRun(p, run) && RetriesFit(p.worker) && Forward(run) && i < |run.states|
    ensures WritesFit(run.states[i])
  {
    hide Inv, Step, RetriesFit, RowsMove, Storable, ClaimedRecord, RequeuedRecord, CorruptRecord, RecoveredRecord,
         NewRecord, Marked, RowOk, CountsOk, WorkingOk, HistoryOk, DecisionOk, MarkFits, EInv;
    RInvAlways(p, run, i);
    TInvAlways(p, run, i);
    EInvAlways(p, run, i);
    var s := run.states[i];
    forall id | id in s.rows
      ensures Storable(ClaimedRecord(s.rows[id], s.clock)) && Storable(RequeuedRecord(s.rows[id], s.clock))
      ensures forall cause :: Storable(CorruptRecord(s.rows[id], cause, s.clock))
      ensures forall now | now >= MILLISECOND :: Storable(RecoveredRecord(s.rows[id], now, s.clock))
    {
      RowsFit(p, s, id);
    }
    forall id | id in s.enq ensures Storable(NewRecord(s.enq[id].start)) { NewFits(s.enq[id].start); }
    if s.proc.Up? && s.proc.worker.Finalizing? { DecisionFits(p, s); }
  }

  /** The write of a retry is accepted exactly when the wait, after wrapping around, does not lead back before 1970. */
  lemma RetryWriteAcceptedIff(cfg: WorkerConfig, r: Record, now: int, e: LastError, clock: int)
    requires Storable(r) && AtRest(r) == r && r.state == Working && r.created <= clock && clock >= MILLISECOND
    requires now >= MILLISECOND
    requires e.at == now && e.temporary && SubmitRetryAllowed(cfg, r)
    ensures var d := RetryOrDead(cfg, r, now, e);
            var w := Marked(d.record, d.mark, clock);
            && w.Some?
            && (Storable(w.value) <==> now + SubmitRetryDelay(cfg.retryBaseDelay, r.attempt) >= MILLISECOND)
  {
    hide Trim, SubmitRetryDelay;
    AtRestParts(r);
    TruncatedMonotone(r.created, clock);
    TruncatedTwice(clock);
  }

  /** A base delay of 5,000,000,000,000 ms with two attempts: the second wait wraps around, to before 1970. */
  lemma LongBaseDelay(cfg: WorkerConfig)
    requires cfg.Valid() && cfg.retryAttempts == 2 && cfg.retryBaseDelay == 5_000_000_000_000 * MILLISECOND
    ensures !DelaysFit(cfg) && !RetriesFit(cfg)
  {
    assert Pow2(0) == 1 && Pow2(1) == 2;
    var k: nat := 1;
    assert Earliest(cfg, MILLISECOND, 0) == MILLISECOND;
    assert Earliest(cfg, MILLISECOND, k) + SubmitRetryDelay(cfg.retryBaseDelay, k) < MILLISECOND;
  }
}
