/** Every step keeps the row invariant, and moves every row along the state graph. */
module RowSteps {
  import opened Ids
  import opened Disk
  import opened Payload
  import opened Rows
  import opened Delivery
  import opened Machine
  import opened DiskInvariant
  import opened ProcessSteps
  import opened RowInvariant

  /** No row is lost, and every changed row takes one edge of the state graph. */
  ghost predicate RowsMove(rows: Table, rows': Table) {
    forall id | id in rows :: id in rows' && (rows'[id] == rows[id] || Edge(rows[id], rows'[id]))
  }

  // ---- steps that write no row ----

  /** The provider's view is untouched. */
  ghost predicate SameView(h: History, h': History) {
    && h'.condemned == h.condemned && h'.accepted == h.accepted && h'.submits == h.submits && h'.requeues == h.requeues
    && h'.sent == h.sent && h'.polls == h.polls
    && h.withdrawn <= h'.withdrawn && (forall id | id in h.issued :: id in h'.issued && h'.issued[id] == h.issued[id])
  }

  lemma SameProc(p: Params, s: Sys, s': Sys)
    requires RInv(p, s) && s'.rows == s.rows && s'.proc == s.proc && SameView(s.hist, s'.hist)
    ensures RInv(p, s')
  {
    hide RowOk, DecisionOk, Normal;
    forall id ensures CountsOk(s', id) { assert CountsOk(s, id); }
  }

  /** The worker or the whole process stops. */
  lemma Halted(p: Params, s: Sys, s': Sys)
    requires RInv(p, s) && s'.rows == s.rows && s'.hist == s.hist
    requires s'.proc.Down? || s'.proc.Sweeping? || s'.proc.Swept? || s'.proc == Up(Stopped)
    ensures RInv(p, s')
  {
    hide RowOk, DecisionOk, Normal;
    forall id ensures CountsOk(s', id) { assert CountsOk(s, id); }
  }

  /** The worker moves between states in which no record is being worked on. */
  lemma NoneHeld(p: Params, s: Sys, s': Sys)
    requires RInv(p, s) && s'.rows == s.rows && s'.hist == s.hist && s.proc.Up? && s'.proc.Up?
    requires var w := s.proc.worker; w.Idle? || w.Polling? || w.Picked? || w.Claiming?
    requires var w := s'.proc.worker;
             || w.Idle? || w.Polling? || w.Claiming?
             || (w.Picked? && w.id in s.rows && s.rows[w.id] == w.rec && w.rec.state == Submitted)
    ensures RInv(p, s')
  {
    hide RowOk, DecisionOk, Normal;
    forall id ensures CountsOk(s', id) { assert CountsOk(s, id); }
  }

  // ---- SMTP ----

  lemma InsertRows(p: Params, s: Sys, id: string, outcome: TxOutcome, s': Sys)
    requires p.Valid() && RInv(p, s) && DoInsert(s, id, outcome, s')
    ensures RInv(p, s') && RowsMove(s.rows, s'.rows)
  {
    hide RowOk, DecisionOk, Normal, NewRecord, Storable;
    var r := NewRecord(s.enq[id].start);
    if outcome != RolledBack { NewOk(p, id, s.enq[id].start); }
    forall k ensures CountsOk(s', k) { assert CountsOk(s, k); }
  }

  lemma SmtpQuiet(p: Params, s: Sys, id: string, l: SmtpStep, s': Sys)
    requires SmtpNext(p, s, id, l, s')
    ensures !l.Insert? ==> s'.rows == s.rows && SameView(s.hist, s'.hist)
    ensures s'.proc == s.proc
  {
    hide Canonical, PlanOf, WellNamed, NodeOf, TmpNames, Apply, Confined, NewRecord, Storable, StageName,
         PublishTempName;
  }

  lemma SmtpRows(p: Params, s: Sys, id: string, l: SmtpStep, s': Sys)
    requires p.Valid() && RInv(p, s) && SmtpNext(p, s, id, l, s')
    ensures RInv(p, s') && RowsMove(s.rows, s'.rows)
  {
    hide RInv, SmtpNext, DoInsert;
    if l.Insert? {
      assert DoInsert(s, id, l.outcome, s') by { InsertUnfolds(p, s, id, l, s'); }
      InsertRows(p, s, id, l.outcome, s');
    } else {
      SmtpQuiet(p, s, id, l, s');
      SameProc(p, s, s');
    }
  }

  lemma InsertUnfolds(p: Params, s: Sys, id: string, l: SmtpStep, s': Sys)
    requires l.Insert? && SmtpNext(p, s, id, l, s')
    ensures DoInsert(s, id, l.outcome, s') && s'.proc == s.proc
  {}

  // ---- worker ----

  lemma BeginDecision(p: Params, s: Sys, d: Decision, s': Sys)
    requires RInv(p, s) && s.proc.Up? && s.proc.worker.Picked? && s'.rows == s.rows
    requires SameView(s.hist, s'.hist.(polls := s.hist.polls))
    requires var w := s.proc.worker;
             && s'.proc == Up(Finalizing(w.id, w.rec, d, w.now)) && DecisionOk(p, w.id, w.rec, d)
             && forall e | e in s'.hist.polls ::
                  || e in s.hist.polls
                  || (!Expired(p.worker, w.rec, w.now)
                      && e == PollEvent(w.id, w.rec.operationID, w.now, w.rec.firstSubmitted, s.clock))
    ensures RInv(p, s')
  {
    hide DecisionOk, Normal, Storable, AtRest;
    assert RowOk(p, s.proc.worker.id, s.proc.worker.rec);
    forall id ensures CountsOk(s', id) { assert CountsOk(s, id); }
  }

  lemma SubmitRows(p: Params, s: Sys, a: Answer, s': Sys)
    requires Inv(p, s) && RInv(p, s) && s.proc.Up? && DoSubmit(p, s, s.proc.worker, a, s')
    ensures RInv(p, s')
  {
    hide Inv, DecisionOk, Normal, SubmitDecision, RowOk, AcsAnswer, Canonical;
    var w := s.proc.worker;
    InvCanonical(p, s, w.id);
    SubmitDecisionOk(p, w.id, w.rec, w.now, a);
    forall id ensures CountsOk(s', id) { assert CountsOk(s, id); }
  }

  lemma LoadRows(p: Params, s: Sys, l: WorkerStep, s': Sys)
    requires p.Valid() && Inv(p, s) && RInv(p, s) && s.proc.Up?
    requires (l.LoadGood? && DoLoadGood(p, s, s.proc.worker, s'))
             || (l.LoadCorrupt? && DoLoadCorrupt(p, s, s.proc.worker, l.cause, s'))
             || (l.LoadError? && DoLoadError(s, s.proc.worker, s'))
    ensures RInv(p, s')
  {
    hide Inv, DecisionOk, Normal, RowOk, LoadNode, Find;
    LoadVerdict(p, s, s.proc.worker.id);
    forall id ensures CountsOk(s', id) { assert CountsOk(s, id); }
  }

  lemma ClaimRows(p: Params, s: Sys, id: string, outcome: TxOutcome, s': Sys)
    requires RInv(p, s) && s.proc.Up? && DoClaim(s, s.proc.worker, id, outcome, s')
    ensures RInv(p, s') && RowsMove(s.rows, s'.rows)
  {
    hide DecisionOk, Normal, RowOk, Storable, Edge;
    if outcome != RolledBack { ClaimedOk(p, id, s.rows[id], s.clock); }
    forall k ensures CountsOk(s', k) { assert CountsOk(s, k); }
    assert forall k | k in s.rows && k != id :: s'.rows[k] == s.rows[k];
  }

  lemma CondemnRows(p: Params, s: Sys, outcome: TxOutcome, s': Sys)
    requires RInv(p, s) && s.proc.Up? && DoDeadLetterCorrupt(s, s.proc.worker, outcome, s')
    ensures RInv(p, s') && RowsMove(s.rows, s'.rows)
  {
    hide DecisionOk, Normal, RowOk, Storable, CorruptRecord, Edge;
    var w := s.proc.worker;
    if outcome != RolledBack { CorruptOk(p, w.id, w.rec, w.cause, s.clock); }
    forall k ensures CountsOk(s', k) { assert CountsOk(s, k); }
    assert forall k | k in s.rows && k != w.id :: s'.rows[k] == s.rows[k];
  }

  lemma RequeueRows(p: Params, s: Sys, outcome: TxOutcome, s': Sys)
    requires RInv(p, s) && s.proc.Up? && DoRequeue(s, s.proc.worker, outcome, s')
    ensures RInv(p, s') && RowsMove(s.rows, s'.rows)
  {
    hide DecisionOk, Normal, RowOk, Storable, RequeuedRecord, Edge;
    var w := s.proc.worker;
    if outcome != RolledBack { RequeuedOk(p, w.id, w.rec, s.clock); }
    forall k ensures CountsOk(s', k) { assert CountsOk(s, k); }
    assert forall k | k in s.rows && k != w.id :: s'.rows[k] == s.rows[k];
  }

  lemma FinalizeCounts(p: Params, s: Sys, outcome: TxOutcome, s': Sys, k: string)
    requires RInv(p, s) && s.proc.Up? && DoFinalize(s, s.proc.worker, outcome, s')
    ensures CountsOk(s', k)
  {
    hide DecisionOk, Normal, RowOk, Storable, Marked, Edge, HistoryOk;
    var w := s.proc.worker;
    MarkedEdge(p, w.id, w.rec, w.decision, s.clock);
    EdgeStates(w.rec, Marked(w.decision.record, w.decision.mark, s.clock).value);
    assert CountsOk(s, k);
    assert w.rec.state == Working ==> CountsOk(s, w.id);
  }

  lemma FinalizeRows(p: Params, s: Sys, outcome: TxOutcome, s': Sys)
    requires RInv(p, s) && s.proc.Up? && DoFinalize(s, s.proc.worker, outcome, s')
    ensures RInv(p, s') && RowsMove(s.rows, s'.rows)
  {
    hide DecisionOk, Normal, RowOk, Storable, Marked, Edge, CountsOk;
    var w := s.proc.worker;
    var r := Marked(w.decision.record, w.decision.mark, s.clock).value;
    MarkedEdge(p, w.id, w.rec, w.decision, s.clock);
    if outcome != RolledBack { MarkedOk(p, w.id, w.rec, w.decision, s.clock); }
    EdgeStates(w.rec, r);
    forall k ensures CountsOk(s', k) { FinalizeCounts(p, s, outcome, s', k); }
    assert forall k | k in s.rows && k != w.id :: s'.rows[k] == s.rows[k];
  }

  lemma EdgeStates(r: Record, r': Record)
    requires Edge(r, r')
    ensures r.state == Queued ==> r'.state in {Working, DeadLetter}
    ensures r.state == Working ==> r'.state != Working
    ensures r.state == Submitted ==> r'.state in {Submitted, Succeeded, DeadLetter} && r'.attempt == r.attempt
    ensures r.state != Succeeded && r.state != DeadLetter
  {}

  lemma WorkerRows(p: Params, s: Sys, l: WorkerStep, s': Sys)
    requires p.Valid() && Inv(p, s) && RInv(p, s) && WorkerNext(p, s, l, s')
    ensures RInv(p, s') && RowsMove(s.rows, s'.rows)
  {
    hide Inv, RInv, DoLoadGood, DoLoadCorrupt, DoLoadError, DoClaim, DoDeadLetterCorrupt, DoRequeue, DoSubmit,
         DoFinalize, Expired, PollDecision, TimeoutDecision, FirstDue, NoneDue, DecisionOk, Edge;
    WorkerQuiet(p, s, l, s');
    match l
    case BeginPass => NoneHeld(p, s, s');
    case PickSubmitted(id) => PickedState(s, id); NoneHeld(p, s, s');
    case NoSubmitted => NoneHeld(p, s, s');
    case ClaimNothing => NoneHeld(p, s, s');
    case Expire => PickedDecision(p, s, Refused(OtherError(""))); BeginDecision(p, s, s'.proc.worker.decision, s');
    case Poll(a) => PickedDecision(p, s, a); BeginDecision(p, s, s'.proc.worker.decision, s');
    case LoadGood => LoadRows(p, s, l, s');
    case LoadCorrupt(_) => LoadRows(p, s, l, s');
    case LoadError => LoadRows(p, s, l, s');
    case Claim(id, outcome) => ClaimRows(p, s, id, outcome, s');
    case DeadLetterCorrupt(outcome) => CondemnRows(p, s, outcome, s');
    case Requeue(outcome) => RequeueRows(p, s, outcome, s');
    case Submit(a) => SubmitRows(p, s, a, s');
    case Finalize(outcome) => FinalizeRows(p, s, outcome, s');
    case Stop => Halted(p, s, s');
  }

  lemma PickedState(s: Sys, id: string)
    requires s.proc.Up? && s.proc.worker.Polling? && FirstDue(s.rows, Submitted, s.proc.worker.now, id)
    ensures id in s.rows && s.rows[id].state == Submitted
  {}

  lemma PickedDecision(p: Params, s: Sys, a: Answer)
    requires RInv(p, s) && s.proc.Up? && s.proc.worker.Picked?
    ensures var w := s.proc.worker;
            && DecisionOk(p, w.id, w.rec, PollDecision(p.worker, w.rec, w.now, a))
            && DecisionOk(p, w.id, w.rec, TimeoutDecision(p.worker, w.rec, w.now))
  {
    hide DecisionOk, PollDecision, TimeoutDecision;
    PollDecisionOk(p, s.proc.worker.id, s.proc.worker.rec, s.proc.worker.now, a);
  }

  // ---- start-up ----

  lemma RecoveredRow(p: Params, s: Sys, todo: seq<string>, outcome: TxOutcome, s': Sys, id: string)
    requires RInv(p, s) && DoRecoverTable(s, todo, outcome, s') && id in s.rows
    ensures id in s'.rows && RowOk(p, id, s'.rows[id])
    ensures s'.rows[id] == s.rows[id] || Edge(s.rows[id], s'.rows[id])
    ensures outcome != RolledBack ==>
              && s'.rows[id].attempt == s.rows[id].attempt
              && s'.rows[id].state == (if s.rows[id].state == Working then Queued else s.rows[id].state)
  {
    hide RowOk, DecisionOk, Storable, Edge;
    if outcome != RolledBack && s.rows[id].state == Working {
      assert id in RecoveredTable(s.rows, s.proc.now, s.clock);
      RecoveredOk(p, id, s.rows[id], s.proc.now, s.clock);
    }
  }

  lemma RecoverTableCounts(p: Params, s: Sys, todo: seq<string>, outcome: TxOutcome, s': Sys, k: string)
    requires RInv(p, s) && DoRecoverTable(s, todo, outcome, s')
    ensures CountsOk(s', k)
  {
    hide RowOk, DecisionOk, Storable, Edge, RecoveredRecord, Normal, HistoryOk, WorkerOk, TodoOk;
    if k in s.rows { RecoveredRow(p, s, todo, outcome, s', k); }
    assert CountsOk(s, k);
  }

  lemma RecoverTableRows(p: Params, s: Sys, todo: seq<string>, outcome: TxOutcome, s': Sys)
    requires RInv(p, s) && DoRecoverTable(s, todo, outcome, s')
    ensures RInv(p, s') && RowsMove(s.rows, s'.rows)
  {
    hide RowOk, DecisionOk, Storable, Edge, RecoveredRecord, Normal, CountsOk, RequeuesAfter;
    forall id | id in s.rows
      ensures id in s'.rows && RowOk(p, id, s'.rows[id]) && (s'.rows[id] == s.rows[id] || Edge(s.rows[id], s'.rows[id]))
      ensures outcome != RolledBack ==>
                && s'.rows[id].attempt == s.rows[id].attempt
                && s'.rows[id].state == (if s.rows[id].state == Working then Queued else s.rows[id].state)
    {
      RecoveredRow(p, s, todo, outcome, s', id);
    }
    forall k ensures CountsOk(s', k) { RecoverTableCounts(p, s, todo, outcome, s', k); }
  }

  lemma RecoverCorruptRows(p: Params, s: Sys, cause: string, outcome: TxOutcome, s': Sys)
    requires p.Valid() && Inv(p, s) && RInv(p, s) && DoRecoverCorrupt(p, s, cause, outcome, s')
    ensures RInv(p, s') && RowsMove(s.rows, s'.rows)
  {
    hide Inv, RowOk, DecisionOk, Storable, Edge, CorruptRecord, Normal, LoadNode;
    var id := s.proc.todo[0];
    LoadVerdict(p, s, id);
    if outcome != RolledBack { CorruptOk(p, id, s.rows[id], cause, s.clock); }
    assert forall k | k in s.rows && k != id :: s'.rows[k] == s.rows[k];
    forall k ensures CountsOk(s', k) { assert CountsOk(s, k); }
  }

  /** Recovery moves on. */
  lemma RecoveryMoves(p: Params, s: Sys, s': Sys)
    requires RInv(p, s) && s'.rows == s.rows && s'.hist == s.hist
    requires
      || (s.proc.Recovering? && s.proc.todo != [] && s'.proc == Recovering(s.proc.todo[1..], s.proc.valid))
      || (s.proc.Recovering? && s'.proc == Quarantining(s.proc.valid))
      || (s.proc.Quarantining? && s'.proc == Up(Idle))
    ensures RInv(p, s')
  {
    hide RowOk, DecisionOk, Normal;
    forall k ensures CountsOk(s', k) { assert CountsOk(s, k); }
  }

  lemma ProcessRows(p: Params, s: Sys, l: ProcessStep, s': Sys)
    requires p.Valid() && Inv(p, s) && RInv(p, s) && ProcessNext(p, s, l, s')
    ensures RInv(p, s') && RowsMove(s.rows, s'.rows)
  {
    hide Inv, RInv, DoRecoverTable, DoRecoverCorrupt, Image, Confined, Apply, LoadNode, Edge;
    match l
    case Crash(_) => Halted(p, s, s');
    case Exit => Halted(p, s, s');
    case Start => Halted(p, s, s');
    case SweepDone => Halted(p, s, s');
    case RecoverTable(todo, outcome) => RecoverTableRows(p, s, todo, outcome, s');
    case RecoverGood => RecoveryMoves(p, s, s');
    case RecoverCorrupt(cause, outcome) => RecoverCorruptRows(p, s, cause, outcome, s');
    case RecoverDone => RecoveryMoves(p, s, s');
    case Serve => RecoveryMoves(p, s, s');
    case _ => SameProc(p, s, s');
  }

  // ---- every step ----

  lemma StepRows(p: Params, s: Sys, l: Label, s': Sys)
    requires p.Valid() && Inv(p, s) && RInv(p, s) && Step(p, s, l, s')
    ensures RInv(p, s') && RowsMove(s.rows, s'.rows)
  {
    hide Inv, RInv, SmtpNext, WorkerNext, ProcessNext, Flushed, Edge;
    match l
    case Smtp(id, step) => SmtpRows(p, s, id, step, s');
    case Work(step) => WorkerRows(p, s, step, s');
    case Proc(step) => ProcessRows(p, s, step, s');
    case Flush(_, _, _) => SameProc(p, s, s');
    case Tick(_) => SameProc(p, s, s');
  }

  lemma InitRows(p: Params, s: Sys)
    requires Init(s)
    ensures RInv(p, s)
  {}

  /** The row invariant holds in every state of every run. */
  lemma {:induction false} RInvAlways(p: Params, run: Run, i: nat)
    requires ValidRun(p, run) && i < |run.states|
    ensures RInv(p, run.states[i]) && Inv(p, run.states[i])
    ensures i > 0 ==> RowsMove(run.states[i - 1].rows, run.states[i].rows)
  {
    hide Inv, RInv, Step, RowsMove;
    InvAlways(p, run, i);
    if i == 0 {
      InitRows(p, run.states[0]);
    } else {
      RInvAlways(p, run, i - 1);
      StepRows(p, run.states[i - 1], run.labels[i - 1], run.states[i]);
    }
  }
}
