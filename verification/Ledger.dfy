/** What the history says, tied to the steps that were made and to the rows of the table. */
module Ledger {
  import opened Ids
  import opened Disk
  import opened Payload
  import opened Rows
  import opened Delivery
  import opened Machine
  import opened DiskInvariant
  import opened ProcessSteps
  import opened RowInvariant
  import opened RowSteps
  import opened Theorems

  // ---- calls and recoveries, counted along the run ----

  /** Step `k` calls Submit for the record. */
  ghost predicate CallsSubmit(s: Sys, l: Label, id: string) {
    l.Work? && l.work.Submit? && s.proc.Up? && s.proc.worker.Ready? && s.proc.worker.id == id
  }

  /** Step `k` puts the record, found working at start-up, back in the queue. */
  ghost predicate PutsBack(s: Sys, l: Label, id: string) {
    l.Proc? && l.step.RecoverTable? && l.step.outcome != RolledBack && id in s.rows && s.rows[id].state == Working
  }

  ghost function Submissions(run: Run, i: nat, id: string): nat
    requires i < |run.states| && |run.states| == |run.labels| + 1
  {
    if i == 0 then 0
    else Submissions(run, i - 1, id) + (if CallsSubmit(run.states[i - 1], run.labels[i - 1], id) then 1 else 0)
  }

  ghost function PutBacks(run: Run, i: nat, id: string): nat
    requires i < |run.states| && |run.states| == |run.labels| + 1
  {
    if i == 0 then 0
    else PutBacks(run, i - 1, id) + (if PutsBack(run.states[i - 1], run.labels[i - 1], id) then 1 else 0)
  }

  lemma WorkerCounts(p: Params, s: Sys, l: WorkerStep, s': Sys, id: string)
    requires WorkerNext(p, s, l, s')
    ensures Count(s'.hist.submits, id) == Count(s.hist.submits, id) + (if CallsSubmit(s, Work(l), id) then 1 else 0)
    ensures s'.hist.requeues == s.hist.requeues
  {
    hide CorruptRecord, RequeuedRecord, ClaimedRecord, Marked, Storable, LoadNode, FirstDue, NoneDue, PollDecision,
         SubmitDecision, TimeoutDecision, Expired, AcsAnswer;
  }

  lemma SmtpCounts(p: Params, s: Sys, id: string, l: SmtpStep, s': Sys)
    requires SmtpNext(p, s, id, l, s')
    ensures s'.hist.submits == s.hist.submits && s'.hist.requeues == s.hist.requeues
  {
    hide Canonical, PlanOf, WellNamed, NodeOf, TmpNames, Apply, Confined, NewRecord, Storable, StageName,
         PublishTempName;
  }

  lemma StepCounts(p: Params, s: Sys, l: Label, s': Sys, id: string)
    requires Step(p, s, l, s')
    ensures Count(s'.hist.submits, id) == Count(s.hist.submits, id) + (if CallsSubmit(s, l, id) then 1 else 0)
    ensures Count(s'.hist.requeues, id) == Count(s.hist.requeues, id) + (if PutsBack(s, l, id) then 1 else 0)
  {
    hide SmtpNext, WorkerNext, Image, Apply, LoadNode, CorruptRecord, RecoveredRecord, Storable, Confined;
    match l
    case Smtp(x, step) => SmtpCounts(p, s, x, step, s');
    case Work(step) => WorkerCounts(p, s, step, s', id);
    case _ =>
  }

  /** The history counts the calls of Submit that were made, and the times a recovery put the record back. */
  lemma {:induction false} HistoryCountsSteps(p: Params, run: Run, i: nat, id: string)
    requires ValidRun(p, run) && i < |run.states|
    ensures Count(run.states[i].hist.submits, id) == Submissions(run, i, id)
    ensures Count(run.states[i].hist.requeues, id) == PutBacks(run, i, id)
  {
    hide Step, CallsSubmit, PutsBack;
    if i > 0 {
      HistoryCountsSteps(p, run, i - 1, id);
      StepCounts(p, run.states[i - 1], run.labels[i - 1], run.states[i], id);
    }
  }

  /** So the attempts of a row bound the steps of the run that call Submit for it, from both sides. */
  lemma SubmissionsOfRun(p: Params, run: Run, i: nat, id: string)
    requires ValidRun(p, run) && i < |run.states|
    ensures id !in run.states[i].rows ==> Submissions(run, i, id) == 0
    ensures id in run.states[i].rows ==>
              var r := run.states[i].rows[id];
              var open := if r.state == Working then 1 else 0;
              r.attempt <= Submissions(run, i, id) <= r.attempt + PutBacks(run, i, id) + open
    ensures Submissions(run, i, id) <= p.worker.retryAttempts + 1 + PutBacks(run, i, id)
  {
    hide Step, Init;
    HistoryCountsSteps(p, run, i, id);
    SubmitAccounting(p, run, i, id);
  }

  // ---- accepted rows ----

  predicate Taken(state: State) { state == Submitted || state == Succeeded }

  ghost predicate TakenAreAccepted(s: Sys) {
    forall id | id in s.rows && Taken(s.rows[id].state) :: id in s.hist.accepted
  }

  /** Only a mark that the provider has the message makes a working row taken. */
  lemma MarkedTaken(r: Record, m: Mark, clock: int)
    requires r.state == Working && Marked(r, m, clock).Some? && Taken(Marked(r, m, clock).value.state)
    ensures m.MarkSubmitted? || m.MarkSucceeded?
  {}

  lemma FinalizeTakes(p: Params, s: Sys, outcome: TxOutcome, s': Sys)
    requires RInv(p, s) && TakenAreAccepted(s) && s.proc.Up? && DoFinalize(s, s.proc.worker, outcome, s')
    ensures TakenAreAccepted(s')
  {
    hide CountsOk, WorkingOk, HistoryOk, TodoOk, RowOk, Normal, Storable, Marked;
    var w := s.proc.worker;
    if outcome != RolledBack && w.rec.state == Working && Taken(s'.rows[w.id].state) {
      MarkedTaken(w.decision.record, w.decision.mark, s.clock);
    }
  }

  lemma RewriteTakes(p: Params, s: Sys, outcome: TxOutcome, s': Sys)
    requires TakenAreAccepted(s) && s.proc.Up?
    requires DoDeadLetterCorrupt(s, s.proc.worker, outcome, s') || DoRequeue(s, s.proc.worker, outcome, s')
    ensures TakenAreAccepted(s')
  {
    hide Storable, CorruptRecord, RequeuedRecord;
    var w := s.proc.worker;
    NotTaken(w.rec, if w.Condemned? then w.cause else "", s.clock);
  }

  lemma NotTaken(r: Record, cause: string, clock: int)
    ensures CorruptRecord(r, cause, clock).state == DeadLetter && RequeuedRecord(r, clock).state == Queued
  {}

  lemma WorkerTakes(p: Params, s: Sys, l: WorkerStep, s': Sys)
    requires RInv(p, s) && TakenAreAccepted(s) && WorkerNext(p, s, l, s')
    ensures TakenAreAccepted(s')
  {
    hide DoFinalize, DoDeadLetterCorrupt, DoRequeue, LoadNode, NoneDue, FirstDue, CountsOk, RowOk, SubmitDecision,
         PollDecision, TimeoutDecision, Expired, AcsAnswer, DecisionOk, Normal, HistoryOk, WorkingOk, TodoOk, Storable;
    match l
    case Finalize(outcome) => FinalizeTakes(p, s, outcome, s');
    case DeadLetterCorrupt(outcome) => RewriteTakes(p, s, outcome, s');
    case Requeue(outcome) => RewriteTakes(p, s, outcome, s');
    case _ =>
  }

  lemma ProcessTakes(p: Params, s: Sys, l: ProcessStep, s': Sys)
    requires TakenAreAccepted(s) && ProcessNext(p, s, l, s')
    ensures TakenAreAccepted(s')
  {
    hide CorruptRecord, Storable, LoadNode, Image, Apply, Confined;
    if l.RecoverCorrupt? { NotTaken(s.rows[s.proc.todo[0]], l.cause, s.clock); }
  }

  lemma SmtpTakes(p: Params, s: Sys, id: string, l: SmtpStep, s': Sys)
    requires TakenAreAccepted(s) && SmtpNext(p, s, id, l, s')
    ensures TakenAreAccepted(s')
  {
    hide Canonical, PlanOf, WellNamed, NodeOf, TmpNames, Apply, Confined, Storable, StageName, PublishTempName;
  }

  lemma {:induction false} TakenAlways(p: Params, run: Run, i: nat)
    requires ValidRun(p, run) && i < |run.states|
    ensures TakenAreAccepted(run.states[i])
  {
    hide Inv, RInv, RowsMove, SmtpNext, WorkerNext, ProcessNext, Flushed;
    if i > 0 {
      TakenAlways(p, run, i - 1);
      RInvAlways(p, run, i - 1);
      var s, l, s' := run.states[i - 1], run.labels[i - 1], run.states[i];
      assert Step(p, s, l, s');
      match l
      case Smtp(id, step) => SmtpTakes(p, s, id, step, s');
      case Work(step) => WorkerTakes(p, s, step, s');
      case Proc(step) => ProcessTakes(p, s, step, s');
      case _ =>
    }
  }

  /** Once a row says submitted or succeeded, no later step of the run calls Submit for it. */
  lemma TakenIsNeverSubmittedAgain(p: Params, run: Run, i: nat, j: nat, id: string)
    requires ValidRun(p, run) && i <= j < |run.states|
    requires id in run.states[i].rows && Taken(run.states[i].rows[id].state)
    ensures Submissions(run, j, id) == Submissions(run, i, id)
  {
    hide Step, Init, CallsSubmit;
    TakenAlways(p, run, i);
    NeverSubmittedAgain(p, run, i, j, id);
    HistoryCountsSteps(p, run, i, id);
    HistoryCountsSteps(p, run, j, id);
  }

  // ---- condemned rows ----

  /** The record a step gives up because its payload is corrupt. */
  ghost predicate GivesUp(s: Sys, l: Label, id: string) {
    || (l.Work? && l.work.DeadLetterCorrupt? && s.proc.Up? && s.proc.worker.Condemned? && s.proc.worker.id == id)
    || (l.Proc? && l.step.RecoverCorrupt? && s.proc.Recovering? && s.proc.todo != [] && s.proc.todo[0] == id)
  }

  /** No step of any run gives up an acknowledged message as corrupt. */
  lemma AcknowledgedIsNeverGivenUp(p: Params, run: Run, i: nat, j: nat, id: string)
    requires ValidRun(p, run) && i <= j < |run.labels| && id in run.states[i].hist.acked
    ensures !GivesUp(run.states[j], run.labels[j], id)
  {
    hide Inv, Init, LoadNode, Normal, RowsMove, PayloadNode, Canonical, RowOk, CountsOk, WorkingOk, TodoOk, DecisionOk,
         SmtpNext, WorkerNext, CorruptRecord, Storable;
    AcknowledgedForever(p, run, i, j, id);
    RInvAlways(p, run, j);
    RunGrows(p, run, i, j);
    var s := run.states[j];
    InvAt(p, s, id);
    assert Step(p, s, run.labels[j], run.states[j + 1]);
  }

  // ---- what recovery has looked at ----

  ghost predicate LoadsAt(p: Params, s: Sys, id: string) { LoadNode(p.codec, Find(s.disk.payloads, id)).Loaded? }

  /** Every submitted row that recovery is done with has a payload that loads. */
  ghost predicate SubmittedLoad(p: Params, s: Sys) {
    && (s.proc.Recovering? ==>
          forall id | id in s.rows && s.rows[id].state == Submitted && id !in s.proc.todo :: LoadsAt(p, s, id))
    && (s.proc.Quarantining? ==> forall id | id in s.rows && s.rows[id].state == Submitted :: LoadsAt(p, s, id))
  }

  lemma PayloadsOfRowsStay(p: Params, s: Sys, l: ProcessStep, s': Sys, id: string)
    requires Inv(p, s) && ProcessNext(p, s, l, s') && s.proc.Quarantining? && s'.proc.Quarantining? && id in s.rows
    ensures id in s'.rows && s'.rows[id] == s.rows[id] && Find(s'.disk.payloads, id) == Find(s.disk.payloads, id)
  {
    hide Inv, LoadNode, CorruptRecord, RecoveredRecord, Storable, Apply, Image, Confined;
    InvRest(p, s);
    InvAt(p, s, id);
    if l.QuarantineRemove? { ConfinedIsLocal(s.disk.payloads, l.op, l.name); }
  }

  lemma TodoShrinks(todo: seq<string>, id: string)
    requires todo != [] && id !in todo[1..]
    ensures id !in todo || id == todo[0]
  {}

  lemma ProcessLoads(p: Params, s: Sys, l: ProcessStep, s': Sys)
    requires Inv(p, s) && SubmittedLoad(p, s) && ProcessNext(p, s, l, s')
    ensures SubmittedLoad(p, s')
  {
    hide Inv, LoadNode, CorruptRecord, Storable, Apply, Image, Confined, Find;
    if s.proc.Quarantining? && s'.proc.Quarantining? {
      forall id | id in s'.rows && s'.rows[id].state == Submitted ensures LoadsAt(p, s', id) {
        assert id in s.rows;
        PayloadsOfRowsStay(p, s, l, s', id);
      }
    } else if l.RecoverGood? || l.RecoverCorrupt? {
      if l.RecoverCorrupt? { NotTaken(s.rows[s.proc.todo[0]], l.cause, s.clock); }
      if s'.proc.Recovering? {
        forall id | id in s'.rows && s'.rows[id].state == Submitted && id !in s'.proc.todo ensures LoadsAt(p, s', id) {
          TodoShrinks(s.proc.todo, id);
        }
      }
    }
  }

  lemma {:induction false} SubmittedLoadAlways(p: Params, run: Run, i: nat)
    requires ValidRun(p, run) && i < |run.states|
    ensures SubmittedLoad(p, run.states[i])
  {
    hide Inv, SmtpNext, WorkerNext, ProcessNext, LoadNode;
    if i > 0 {
      SubmittedLoadAlways(p, run, i - 1);
      InvAlways(p, run, i - 1);
      var s, l, s' := run.states[i - 1], run.labels[i - 1], run.states[i];
      assert Step(p, s, l, s');
      match l
      case Smtp(id, step) => SmtpQuiet(p, s, id, step, s'); SmtpIsUp(p, s, id, step, s');
      case Work(step) => WorkerQuiet(p, s, step, s');
      case Proc(step) => ProcessLoads(p, s, step, s');
      case _ =>
    }
  }

  /** When the relay starts to serve, the payload of every submitted row loads. */
  lemma ServesLoadableRows(p: Params, run: Run, i: nat, id: string)
    requires ValidRun(p, run) && i < |run.labels| && run.labels[i] == Proc(Serve)
    requires id in run.states[i + 1].rows && run.states[i + 1].rows[id].state == Submitted
    ensures LoadNode(p.codec, Find(run.states[i + 1].disk.payloads, id)).Loaded?
  {
    hide SmtpNext, WorkerNext, Init, LoadNode;
    SubmittedLoadAlways(p, run, i);
    assert Step(p, run.states[i], run.labels[i], run.states[i + 1]);
  }
}
