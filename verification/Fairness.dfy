/**
 No starvation: with a clock that never goes back, the rows ahead of a row that is past its due time only become
 fewer, so its turn comes.
 */
module Fairness {
  import opened Text
  import opened Ids
  import opened Disk
  import opened Payload
  import opened Durations
  import opened Rows
  import opened Delivery
  import opened Machine
  import opened DiskInvariant
  import opened RowInvariant
  import opened RowSteps
  import opened Clock

  /** Every reading of the clock that matters is past the due millisecond of `r`. */
  predicate PastDue(s: Sys, r: Record) {
    && r.nextAttempt < Truncated(s.clock)
    && (s.proc.Up? && !s.proc.worker.Idle? && !s.proc.worker.Stopped? ==> r.nextAttempt < Truncated(s.proc.worker.now))
  }

  predicate Serving(s: Sys) { s.proc.Up? && !s.proc.worker.Stopped? }

  predicate AheadOf(s: Sys, state: State, k: string, id: string, r: Record) {
    && k != id
    && if k in s.rows then s.rows[k].state == state && Before(k, s.rows[k], id, r)
       else state == Queued && k in s.enq && Before(k, NewRecord(s.enq[k].start), id, r)
  }

  /** The rows of the state that come before `id`; for queued rows also the enqueues already under way. */
  function Ahead(s: Sys, state: State, id: string, r: Record): set<string> {
    set k | k in s.rows.Keys + s.enq.Keys && AheadOf(s, state, k, id, r)
  }

  // ---- every step ----

  /** Nothing gets ahead: new and rescheduled rows are due later. */
  lemma NotBefore(k: string, a: Record, id: string, r: Record, now: int, t: int)
    requires r.nextAttempt < Truncated(now) && now <= t && a.nextAttempt == Truncated(t)
    ensures !Before(k, a, id, r)
  {
    TruncatedMonotone(now, t);
  }

  /** Rows of the state are never rescheduled to the past: submitted ones in any case, queued ones if all waits fit. */
  predicate Orderly(cfg: WorkerConfig, state: State) {
    state == Submitted || (state == Queued && cfg.Valid() && DelaysFit(cfg))
  }

  lemma FinalizedIsBehind(p: Params, s: Sys, outcome: TxOutcome, s': Sys, state: State, id: string, r: Record)
    requires Serving(s) && DoFinalize(s, s.proc.worker, outcome, s') && RInv(p, s) && TInv(p.worker, s) && PastDue(s, r)
    requires Orderly(p.worker, state) && outcome == Committed
    ensures !AheadOf(s', state, s.proc.worker.id, id, r)
  {
    hide Trim, ErrorAtRest, NormalizeLastError, Truncated, Storable, SubmitRetryDelay, DelaysFit, CountsOk, WorkingOk,
         HistoryOk, TodoOk, RowOk, Normal;
    var w := s.proc.worker;
    var m := w.decision.mark;
    if m.MarkRetry? && w.rec.state == Working && state == Queued { FittingDelay(p.worker, w.rec.attempt); }
    if s'.rows[w.id].state == state && (m.MarkSubmitted? || m.MarkRetry?) {
      NotBefore(w.id, s'.rows[w.id], id, r, w.now, m.nextAttempt);
    }
  }

  lemma WorkerShrinks(p: Params, s: Sys, l: WorkerStep, s': Sys, state: State, id: string, r: Record, k: string)
    requires RInv(p, s) && TInv(p.worker, s) && WorkerNext(p, s, l, s') && Serving(s) && Serving(s') && PastDue(s, r)
    requires Orderly(p.worker, state)
    requires AheadOf(s', state, k, id, r)
    ensures AheadOf(s, state, k, id, r)
  {
    hide CorruptRecord, RequeuedRecord, Marked, Storable, LoadNode, FirstDue, NoneDue, CountsOk, RowOk, NewRecord,
         Before, SubmitDecision, PollDecision, TimeoutDecision, Expired, AcsAnswer, DecisionOk, Normal, HistoryOk,
         WorkingOk, TodoOk, MarkFits;
    match l
    case Finalize(outcome) => FinalizedIsBehind(p, s, outcome, s', state, id, r);
    case DeadLetterCorrupt(outcome) => CorruptIsDead(s.proc.worker.rec, s.proc.worker.cause, s.clock);
    case Claim(c, outcome) =>
    case _ =>
  }

  lemma CorruptIsDead(r: Record, cause: string, clock: int)
    ensures CorruptRecord(r, cause, clock).state == DeadLetter
  {}

  lemma SmtpShrinks(p: Params, s: Sys, x: string, l: SmtpStep, s': Sys, state: State, id: string, r: Record, k: string)
    requires SmtpNext(p, s, x, l, s') && PastDue(s, r) && AheadOf(s', state, k, id, r)
    ensures AheadOf(s, state, k, id, r)
  {
    hide Canonical, PlanOf, WellNamed, NodeOf, TmpNames, Apply, Confined, NewRecord, Storable, StageName,
         PublishTempName, Before, Truncated;
    StartsNow(s.clock);
    if l.Begin? { NotBefore(x, NewRecord(s.clock), id, r, s.clock, s.clock); }
    if l.Insert? { StartsNow(s.enq[x].start); }
  }

  lemma StartsNow(now: int)
    ensures NewRecord(now).nextAttempt == Truncated(now) && NewRecord(now).state == Queued
  {}

  /** `id` is having its turn: claimed, or picked for a poll. */
  predicate TurnOf(l: Label, state: State, id: string) {
    l.Work? && if state == Queued then l.work.Claim? && l.work.id == id else l.work.PickSubmitted? && l.work.id == id
  }

  predicate IsTurn(l: Label, state: State) {
    l.Work? && if state == Queued then l.work.Claim? else l.work.PickSubmitted?
  }

  /** The worker is between picking a submitted row and recording the result. */
  predicate Pending(s: Sys, state: State) {
    && state == Submitted && s.proc.Up?
    && (s.proc.worker.Picked? || (s.proc.worker.Finalizing? && s.proc.worker.rec.state == Submitted))
  }

  /** The pass under way has not had its turn for the state yet. */
  predicate Early(s: Sys, state: State) {
    s.proc.Up? &&
    var w := s.proc.worker;
    || w.Polling?
    || (state == Queued && (w.Picked? || w.Claiming? || (w.Finalizing? && w.rec.state == Submitted)))
  }

  /** The waiting row: still as it was, past its due time, and not the one being polled. */
  ghost predicate Waiting(s: Sys, state: State, id: string, r: Record) {
    && id in s.rows && s.rows[id] == r && r.state == state && PastDue(s, r)
    && (Pending(s, state) ==> s.proc.worker.id in Ahead(s, state, id, r))
  }

  lemma TurnsAreAhead(s: Sys, state: State, l: WorkerStep, p: Params, s': Sys, id: string, r: Record)
    requires WorkerNext(p, s, l, s') && IsTurn(Work(l), state) && !TurnOf(Work(l), state, id)
    requires Waiting(s, state, id, r)
    requires state == Queued || state == Submitted
    ensures l.id in Ahead(s, state, id, r)
    ensures state == Queued && Serving(s') ==> l.id !in Ahead(s', state, id, r)
    ensures state == Submitted ==> Pending(s', state) && s'.proc.worker.id == l.id && s'.rows == s.rows
  {
    hide Before, Storable, NewRecord, Truncated;
    assert Due(r, state, s.proc.worker.now);
  }

  lemma NeverIdleInstead(p: Params, s: Sys, l: WorkerStep, s': Sys, state: State, id: string, r: Record)
    requires WorkerNext(p, s, l, s') && Waiting(s, state, id, r)
    ensures state == Queued ==> !l.ClaimNothing?
    ensures state == Submitted ==> !l.NoSubmitted?
  {
    hide Before, Storable, CorruptRecord, RequeuedRecord, ClaimedRecord, Marked, LoadNode, FirstDue, SubmitDecision,
         PollDecision, TimeoutDecision, Expired, AcsAnswer;
    if !s.proc.worker.Idle? && !s.proc.worker.Stopped? { assert Due(s.rows[id], state, s.proc.worker.now); }
  }

  lemma WorkerKeepsWaiting(p: Params, s: Sys, l: WorkerStep, s': Sys, state: State, id: string, r: Record)
    requires RInv(p, s) && WorkerNext(p, s, l, s') && Waiting(s, state, id, r)
    requires (state == Queued || state == Submitted) && !TurnOf(Work(l), state, id)
    ensures id in s'.rows && s'.rows[id] == r && PastDue(s', r)
  {
    hide CorruptRecord, RequeuedRecord, ClaimedRecord, Marked, Storable, LoadNode, NoneDue, CountsOk, RowOk, NewRecord,
         Before, SubmitDecision, PollDecision, TimeoutDecision, Expired, AcsAnswer, DecisionOk, Normal, HistoryOk,
         WorkingOk, TodoOk, Truncated;
  }

  lemma WaitingStays(p: Params, s: Sys, l: Label, s': Sys, state: State, id: string, r: Record)
    requires RInv(p, s) && Step(p, s, l, s') && Serving(s) && Serving(s') && s.clock <= s'.clock
    requires Waiting(s, state, id, r) && (state == Queued || state == Submitted) && !TurnOf(l, state, id)
    ensures id in s'.rows && s'.rows[id] == r && PastDue(s', r)
  {
    hide RInv, SmtpNext, WorkerNext, Image, Truncated, Ahead;
    TruncatedMonotone(s.clock, s'.clock);
    if l.Smtp? { SmtpKeepsRow(p, s, l.id, l.smtp, s', id); }
    if l.Work? { WorkerKeepsWaiting(p, s, l.work, s', state, id, r); }
  }

  lemma SmtpKeepsRow(p: Params, s: Sys, x: string, l: SmtpStep, s': Sys, id: string)
    requires SmtpNext(p, s, x, l, s') && id in s.rows
    ensures id in s'.rows && s'.rows[id] == s.rows[id] && s'.proc == s.proc && s'.clock == s.clock
  {
    hide Canonical, PlanOf, WellNamed, NodeOf, TmpNames, Apply, Confined, NewRecord, Storable, StageName,
         PublishTempName;
  }

  lemma AheadShrinks(p: Params, s: Sys, l: Label, s': Sys, state: State, id: string, r: Record)
    requires RInv(p, s) && TInv(p.worker, s) && Step(p, s, l, s') && Serving(s) && Serving(s') && PastDue(s, r)
    requires Orderly(p.worker, state)
    ensures Ahead(s', state, id, r) <= Ahead(s, state, id, r)
  {
    hide RInv, TInv, SmtpNext, WorkerNext, Image, Truncated, NewRecord, Before, PastDue;
    forall k | AheadOf(s', state, k, id, r) ensures AheadOf(s, state, k, id, r) {
      if l.Smtp? { SmtpShrinks(p, s, l.id, l.smtp, s', state, id, r, k); }
      if l.Work? { WorkerShrinks(p, s, l.work, s', state, id, r, k); }
    }
  }

  /** A pending row stays ahead until its result is recorded, and is gone from there afterwards. */
  lemma PendingStays(p: Params, s: Sys, l: Label, s': Sys, id: string, r: Record)
    requires RInv(p, s) && TInv(p.worker, s) && Step(p, s, l, s') && Serving(s) && Serving(s')
    requires Waiting(s, Submitted, id, r) && !TurnOf(l, Submitted, id)
    ensures Pending(s', Submitted) ==> s'.proc.worker.id in Ahead(s', Submitted, id, r)
    ensures Pending(s, Submitted) && !Pending(s', Submitted) ==> s.proc.worker.id !in Ahead(s', Submitted, id, r)
    ensures Pending(s', Submitted) && !Pending(s, Submitted) ==> IsTurn(l, Submitted)
    ensures IsTurn(l, Submitted) ==> !Pending(s, Submitted) && Pending(s', Submitted)
  {
    hide RInv, SmtpNext, WorkerNext, Image, Truncated, NewRecord, Before, PastDue, MarkFits;
    if l.Smtp? {
      SmtpKeepsRow(p, s, l.id, l.smtp, s', if Pending(s, Submitted) then s.proc.worker.id else id);
    } else if l.Work? {
      WorkerPending(p, s, l.work, s', id, r);
    }
  }

  lemma WorkerPending(p: Params, s: Sys, l: WorkerStep, s': Sys, id: string, r: Record)
    requires RInv(p, s) && TInv(p.worker, s) && WorkerNext(p, s, l, s') && Serving(s) && Serving(s')
    requires Waiting(s, Submitted, id, r) && !TurnOf(Work(l), Submitted, id)
    ensures Pending(s', Submitted) ==> s'.proc.worker.id in Ahead(s', Submitted, id, r)
    ensures Pending(s, Submitted) && !Pending(s', Submitted) ==> s.proc.worker.id !in Ahead(s', Submitted, id, r)
    ensures Pending(s', Submitted) && !Pending(s, Submitted) ==> IsTurn(Work(l), Submitted)
    ensures IsTurn(Work(l), Submitted) ==> !Pending(s, Submitted) && Pending(s', Submitted)
  {
    hide CorruptRecord, RequeuedRecord, ClaimedRecord, Marked, Storable, LoadNode, NoneDue, CountsOk, RowOk, NewRecord,
         MarkFits, FirstDue, Before, SubmitDecision, PollDecision, TimeoutDecision, Expired, AcsAnswer, DecisionOk,
         Normal, HistoryOk, WorkingOk, TodoOk, Truncated;
    if l.PickSubmitted? { TurnsAreAhead(s, Submitted, l, p, s', id, r); }
    if l.Finalize? && l.outcome == Committed { FinalizedIsBehind(p, s, l.outcome, s', Submitted, id, r); }
  }

  function One(b: bool): nat { if b then 1 else 0 }

  predicate IsPass(l: Label) { l.Work? && l.work.BeginPass? }

  /** A pass cannot end without a turn. */
  lemma PassNeedsTurn(p: Params, s: Sys, l: Label, s': Sys, state: State, id: string, r: Record)
    requires RInv(p, s) && Step(p, s, l, s') && Serving(s) && Serving(s') && Waiting(s, state, id, r)
    requires state == Queued || state == Submitted
    ensures One(IsPass(l)) + One(Early(s, state)) <= One(IsTurn(l, state)) + One(Early(s', state))
  {
    hide SmtpNext, Image, Truncated, NewRecord, Before, PastDue, Ahead, CorruptRecord, RequeuedRecord, ClaimedRecord,
         Marked, Storable, LoadNode, CountsOk, RowOk, MarkFits, FirstDue, NoneDue, SubmitDecision, PollDecision,
         TimeoutDecision, Expired, AcsAnswer, DecisionOk, Normal, HistoryOk, WorkingOk, TodoOk;
    if l.Smtp? { SmtpKeepsRow(p, s, l.id, l.smtp, s', id); }
    if l.Work? { NeverIdleInstead(p, s, l.work, s', state, id, r); }
  }

  lemma SmallerBy(a: set<string>, b: set<string>, x: string)
    requires b <= a
    ensures |b| <= |a|
    ensures x in a && x !in b ==> |b| + 1 <= |a|
  {
    assert a == b + (a - b);
    if x in a && x !in b { assert x in a - b; }
  }

  lemma StepFair(p: Params, s: Sys, l: Label, s': Sys, state: State, id: string, r: Record)
    requires RInv(p, s) && TInv(p.worker, s) && Step(p, s, l, s') && Serving(s) && Serving(s') && s.clock <= s'.clock
    requires Waiting(s, state, id, r) && Orderly(p.worker, state) && !TurnOf(l, state, id)
    ensures Waiting(s', state, id, r)
    ensures One(IsTurn(l, state)) + |Ahead(s', state, id, r)| + One(Pending(s, state)) <=
              |Ahead(s, state, id, r)| + One(Pending(s', state))
  {
    hide RInv, TInv, Step, PastDue, Ahead;
    WaitingStays(p, s, l, s', state, id, r);
    AheadShrinks(p, s, l, s', state, id, r);
    var a, b := Ahead(s, state, id, r), Ahead(s', state, id, r);
    SmallerBy(a, b, "");
    if state == Submitted {
      PendingStays(p, s, l, s', id, r);
      if Pending(s, state) { SmallerBy(a, b, s.proc.worker.id); }
    } else if IsTurn(l, state) {
      assert WorkerNext(p, s, l.work, s') by { IsWork(p, s, l, s'); }
      TurnsAreAhead(s, state, l.work, p, s', id, r);
      SmallerBy(a, b, l.work.id);
    }
  }

  lemma IsWork(p: Params, s: Sys, l: Label, s': Sys)
    requires l.Work? && Step(p, s, l, s')
    ensures WorkerNext(p, s, l.work, s')
  {}

  // ---- whole runs ----

  function Turns(labels: seq<Label>, state: State): nat {
    if labels == [] then 0 else Turns(labels[..|labels| - 1], state) + One(IsTurn(labels[|labels| - 1], state))
  }

  function Passes(labels: seq<Label>): nat {
    if labels == [] then 0 else Passes(labels[..|labels| - 1]) + One(IsPass(labels[|labels| - 1]))
  }

  /** The relay serves, and its worker runs, from state `i` to state `j`. */
  ghost predicate Steady(run: Run, i: nat, j: nat)
    requires i <= j < |run.states|
  {
    forall k | i <= k <= j :: Serving(run.states[k])
  }

  lemma {:induction false} FairUntil(p: Params, run: Run, i: nat, j: nat, state: State, id: string, r: Record)
    requires ValidRun(p, run) && Forward(run) && i <= j < |run.states| && Steady(run, i, j)
    requires Waiting(run.states[i], state, id, r) && Orderly(p.worker, state) && run.states[i].proc.worker.Idle?
    requires forall k | i <= k < j :: !TurnOf(run.labels[k], state, id)
    ensures Waiting(run.states[j], state, id, r)
    ensures Turns(run.labels[i..j], state) + |Ahead(run.states[j], state, id, r)|
            <= |Ahead(run.states[i], state, id, r)| + One(Pending(run.states[j], state))
    ensures Passes(run.labels[i..j]) <= Turns(run.labels[i..j], state) + One(Early(run.states[j], state))
    decreases j
  {
    hide Inv, RInv, TInv, Step, Init, RowsMove, DelaysFit, Waiting, Ahead, Pending, Early, IsTurn, TurnOf, IsPass, One;
    if i == j {
      assert run.labels[i..j] == [];
    } else {
      FairUntil(p, run, i, j - 1, state, id, r);
      var s, l, s' := run.states[j - 1], run.labels[j - 1], run.states[j];
      assert run.labels[i..j][..j - 1 - i] == run.labels[i..j - 1] && run.labels[i..j][j - 1 - i] == l;
      RInvAlways(p, run, j - 1);
      TInvAlways(p, run, j - 1);
      StepFair(p, s, l, s', state, id, r);
      PassNeedsTurn(p, s, l, s', state, id, r);
    }
  }

  lemma WaitIsBounded(p: Params, run: Run, i: nat, j: nat, state: State, id: string, r: Record)
    requires ValidRun(p, run) && Forward(run) && i <= j < |run.states| && Steady(run, i, j)
    requires Waiting(run.states[i], state, id, r) && Orderly(p.worker, state) && run.states[i].proc.worker.Idle?
    requires forall k | i <= k < j :: !TurnOf(run.labels[k], state, id)
    ensures Turns(run.labels[i..j], state) <= |Ahead(run.states[i], state, id, r)|
    ensures Passes(run.labels[i..j]) <= |Ahead(run.states[i], state, id, r)| + 1
  {
    hide Step, Init, DelaysFit, TurnOf, Turns, Passes, Truncated, AheadOf;
    FairUntil(p, run, i, j, state, id, r);
    var s' := run.states[j];
    if Pending(s', state) { SmallerBy(Ahead(s', state, id, r), {}, s'.proc.worker.id); }
  }

  /** `id` has its turn between state `i` and state `j`. */
  predicate HasTurn(run: Run, i: nat, j: nat, state: State, id: string) {
    exists k | i <= k < j && k < |run.labels| :: TurnOf(run.labels[k], state, id)
  }

  /** A row past its due millisecond, when the worker is idle, and then more turns and passes than rows ahead of it. */
  ghost predicate Overtaken(p: Params, run: Run, i: nat, j: nat, state: State, id: string) {
    && ValidRun(p, run) && Forward(run) && i <= j < |run.states| && Steady(run, i, j)
    && run.states[i].proc.worker.Idle? && id in run.states[i].rows && run.states[i].rows[id].state == state
    && run.states[i].rows[id].nextAttempt < Truncated(run.states[i].clock)
    && var ahead := |Ahead(run.states[i], state, id, run.states[i].rows[id])|;
       Turns(run.labels[i..j], state) > ahead || Passes(run.labels[i..j]) > ahead + 1
  }

  /**
   No starvation. With `n` rows and enqueues ahead of it, a queued or submitted row that is past its due millisecond
   gets one of the worker's next `n + 1` turns, and gets it within `n + 2` passes, however many rows arrive, are
   retried or are polled in the meantime.
   */
  lemma NoStarvation(p: Params, run: Run, i: nat, j: nat, state: State, id: string)
    requires Overtaken(p, run, i, j, state, id) && Orderly(p.worker, state)
    ensures HasTurn(run, i, j, state, id)
  {
    hide Step, Init, DelaysFit, TurnOf, Turns, Passes, Truncated;
    if !HasTurn(run, i, j, state, id) {
      WaitIsBounded(p, run, i, j, state, id, run.states[i].rows[id]);
    }
  }

  /** A row as the retry of its submission leaves it in the order of the queue. */
  function Rescheduled(cfg: WorkerConfig, r: Record, now: int): Record {
    r.(nextAttempt := Truncated(now + SubmitRetryDelay(cfg.retryBaseDelay, r.attempt)))
  }

  /**
   What the configuration has to do with it: exactly when its wait leads back far enough does a retried row get
   ahead.
   */
  lemma RetryGetsAheadIff(p: Params, s: Sys, s': Sys, id: string, r: Record)
    requires RInv(p, s) && TInv(p.worker, s) && Serving(s) && DoFinalize(s, s.proc.worker, Committed, s')
    requires Waiting(s, Queued, id, r)
    requires s.proc.worker.decision.mark.MarkRetry? && s.proc.worker.rec.state == Working
    ensures var w := s.proc.worker;
            w.id in Ahead(s', Queued, id, r) <==> Before(w.id, Rescheduled(p.worker, w.rec, w.now), id, r)
  {
    hide Trim, ErrorAtRest, NormalizeLastError, Truncated, SubmitRetryDelay, CountsOk, WorkingOk, HistoryOk, TodoOk,
         Normal, Storable;
    var w := s.proc.worker;
    assert RowOk(p, w.id, w.rec);
    AtRestParts(w.rec);
  }

  // ---- the deadline of submitted rows ----

  lemma NowIsFresh(p: Params, s: Sys, l: Label, s': Sys, t: int)
    requires Step(p, s, l, s') && Serving(s) && Serving(s') && t <= s.clock
    requires !s.proc.worker.Idle? ==> t <= s.proc.worker.now
    ensures !s'.proc.worker.Idle? ==> t <= s'.proc.worker.now
  {
    hide SmtpNext, Image, Truncated, NewRecord, Before, CorruptRecord, RequeuedRecord, ClaimedRecord, Marked, Storable,
         LoadNode, FirstDue, NoneDue, SubmitDecision, PollDecision, TimeoutDecision, Expired, AcsAnswer;
    if l.Smtp? { SmtpQuiet(p, s, l.id, l.smtp, s'); }
  }

  lemma {:induction false} PassesBeginAfter(p: Params, run: Run, i: nat, k: nat)
    requires ValidRun(p, run) && Forward(run) && i <= k < |run.states| && Steady(run, i, k)
    requires run.states[i].proc.worker.Idle?
    ensures run.states[i].clock <= run.states[k].clock
    ensures !run.states[k].proc.worker.Idle? ==> run.states[i].clock <= run.states[k].proc.worker.now
    decreases k
  {
    hide Step, Init;
    if i < k {
      PassesBeginAfter(p, run, i, k - 1);
      NowIsFresh(p, run.states[k - 1], run.labels[k - 1], run.states[k], run.states[i].clock);
    }
  }

  /**
   Once a submitted row is due and past its deadline, the first pass that picks it finds it expired, and its turn
   comes.
   */
  lemma DeadlineIsEnforced(p: Params, run: Run, i: nat, j: nat, id: string)
    requires ValidRun(p, run) && Forward(run) && i <= j < |run.states| && Steady(run, i, j)
    requires run.states[i].proc.worker.Idle? && id in run.states[i].rows && run.states[i].rows[id].state == Submitted
    requires run.states[i].rows[id].nextAttempt < Truncated(run.states[i].clock)
    requires run.states[i].rows[id].firstSubmitted + p.worker.submittedTimeout <= run.states[i].clock
    requires Passes(run.labels[i..j]) > |Ahead(run.states[i], Submitted, id, run.states[i].rows[id])| + 1
    ensures exists k | i <= k < j ::
              && TurnOf(run.labels[k], Submitted, id)
              && run.states[k + 1].proc == Up(Picked(id, run.states[i].rows[id], run.states[k].proc.worker.now))
              && run.states[i].rows[id].firstSubmitted + p.worker.submittedTimeout <= run.states[k].proc.worker.now
  {
    hide Inv, RInv, TInv, Step, Init, DelaysFit, Passes, Truncated, Ahead, Waiting;
    var r := run.states[i].rows[id];
    NoStarvation(p, run, i, j, Submitted, id);
    var k :| i <= k < j && TurnOf(run.labels[k], Submitted, id);
    FirstTurn(run, i, k, id);
    var m :|
      && i <= m <= k && TurnOf(run.labels[m], Submitted, id)
      && forall x | i <= x < m :: !TurnOf(run.labels[x], Submitted, id);
    IdleIsWaiting(run.states[i], id);
    FairUntil(p, run, i, m, Submitted, id, r);
    PassesBeginAfter(p, run, i, m);
    PickShows(p, run.states[m], run.labels[m], run.states[m + 1], id, r);
  }

  lemma IdleIsWaiting(s: Sys, id: string)
    requires s.proc.Up? && s.proc.worker.Idle? && id in s.rows && s.rows[id].state == Submitted
    requires s.rows[id].nextAttempt < Truncated(s.clock)
    ensures Waiting(s, Submitted, id, s.rows[id])
  {}

  lemma PickShows(p: Params, s: Sys, l: Label, s': Sys, id: string, r: Record)
    requires Step(p, s, l, s') && TurnOf(l, Submitted, id) && Waiting(s, Submitted, id, r)
    ensures s.proc.Up? && s.proc.worker.Polling? && s'.proc == Up(Picked(id, r, s.proc.worker.now))
  {
    hide FirstDue, Ahead, PastDue, SmtpNext, ProcessNext;
    IsWork(p, s, l, s');
  }

  lemma {:induction false} FirstTurn(run: Run, i: nat, k: nat, id: string)
    requires i <= k < |run.labels| && TurnOf(run.labels[k], Submitted, id)
    ensures exists m | i <= m <= k ::
              TurnOf(run.labels[m], Submitted, id) && forall x | i <= x < m :: !TurnOf(run.labels[x], Submitted, id)
    decreases k
  {
    hide TurnOf;
    if x :| i <= x < k && TurnOf(run.labels[x], Submitted, id) { FirstTurn(run, i, x, id); }
  }
}
