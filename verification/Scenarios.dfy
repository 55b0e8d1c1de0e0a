/** Runs built step by step: what can happen, shown by making it happen. */
module Scenarios {
  import opened Options
  import Codecs
  import opened Text
  import opened Ids
  import opened Disk
  import opened Payload
  import opened Durations
  import opened Rows
  import opened Delivery
  import opened Machine
  import opened DiskInvariant
  import ProcessSteps
  import opened RowInvariant
  import opened RowSteps
  import opened Clock
  import opened Fairness
  import opened RunSteps
  import opened StoreFacts
  import Theorems
  import opened Trees

  /** `run'` goes on from `run` to the state `s`, and no clock goes back on the way. */
  ghost predicate Onto(p: Params, run: Run, run': Run, s: Sys) {
    run' in Runs(p) && Continues(run, run') && Last(run') == s && (Forward(run) ==> Forward(run'))
  }

  lemma Go(p: Params, run: Run, l: Label, s: Sys) returns (run': Run)
    requires run in Runs(p) && s in Next(p, Last(run), l) && Last(run).clock <= s.clock
    ensures run' == Extended(run, l, s) && Onto(p, run, run', s)
  {
    hide Runs, Next, Forward;
    run' := Extended(run, l, s);
    ExtendedIsValid(p, run, l, s);
  }

  lemma Then(p: Params, a: Run, b: Run, c: Run, s: Sys, s': Sys)
    requires Onto(p, a, b, s) && Onto(p, b, c, s')
    ensures Onto(p, a, c, s')
  {
    hide Runs, Forward;
    Onward(a, b, c);
  }

  // ---- start-up ----

  lemma FreshRun(p: Params, t: int) returns (run: Run)
    requires p.Valid() && t >= MILLISECOND
    ensures run in Runs(p) && Forward(run) && Last(run) == FRESH.(clock := t)
  {
    hide Step;
    run := Run([FRESH.(clock := t)], []);
    InRuns(p, run);
  }

  /** Nothing to clean up, no row: start-up comes to the orphan scan. */
  lemma ToQuarantine(p: Params, run: Run) returns (run': Run)
    requires run in Runs(p) && Last(run).proc == Down && Last(run).rows == map[]
    requires var d := Last(run).disk;
             && d.staging.Dir? && d.staging.ents == map[] && d.payloads.Dir?
             && forall k | k in d.payloads.ents :: !HasPrefix(k, PUBLISH_PREFIX)
    ensures Onto(p, run, run', Last(run).(proc := Process.Quarantining({})))
  {
    hide Runs, Next, Forward, Continues, RecoveredRecord, HasPrefix;
    var s := Last(run);
    var s1, s2 := s.(proc := Process.Sweeping), s.(proc := Swept(s.clock));
    var s3, s4 := s.(proc := Process.Recovering([], {})), s.(proc := Process.Quarantining({}));
    StartIs(p, s, s1);
    var r1 := Go(p, run, Proc(Start), s1);
    SweepDoneIs(p, s1, s2);
    var r2 := Go(p, r1, Proc(SweepDone), s2);
    Then(p, run, r1, r2, s1, s2);
    NothingToRecover(p, s2);
    var r3 := Go(p, r2, Proc(RecoverTable([], Committed)), s3);
    Then(p, run, r2, r3, s2, s3);
    RecoverDoneIs(p, s3);
    run' := Go(p, r3, Proc(RecoverDone), s4);
    Then(p, run, r3, run', s3, s4);
  }

  lemma NothingToRecover(p: Params, s: Sys)
    requires s.proc.Swept? && s.rows == map[]
    ensures s.(proc := Process.Recovering([], {})) in Next(p, s, Proc(RecoverTable([], Committed)))
  {
    hide Next, Storable, RecoveredRecord;
    var s' := s.(proc := Process.Recovering([], {}));
    assert RecoveredTable(s.rows, s.proc.now, s.clock) == map[];
    assert RequeuesAfter(s.rows, s.hist.requeues) == s.hist.requeues;
    assert s.rows.Keys == {};
    assert DoRecoverTable(s, [], Committed, s');
    ProcIs(p, s, RecoverTable([], Committed), s');
  }

  lemma Boot(p: Params, t: int) returns (run: Run)
    requires p.Valid() && t >= MILLISECOND
    ensures run in Runs(p) && Forward(run) && Last(run) == FRESH.(clock := t, proc := Up(Idle))
  {
    hide Runs, Next, Forward, Continues;
    var r0 := FreshRun(p, t);
    var r1 := ToQuarantine(p, r0);
    var s := FRESH.(clock := t, proc := Process.Quarantining({}));
    ServeIs(p, s, s.(proc := Up(Idle)));
    run := Go(p, r1, Proc(Serve), s.(proc := Up(Idle)));
  }

  // ---- accepting a message ----

  predicate NoStages(staging: Node) { staging.Dir? && staging.ents == map[] }

  lemma BeginRun(p: Params, run: Run, id: string, msg: Message) returns (run': Run)
    requires run in Runs(p) && Last(run).proc.Up? && |Last(run).enq| < p.maxInflight && Canonical(id)
    requires id !in Last(run).hist.issued
    ensures Onto(p, run, run', Last(run')) && Begun(Last(run), Last(run'), id, msg, Last(run).clock)
  {
    hide Runs, Next, Forward, Continues, Canonical;
    var s := Last(run);
    NotYetInFlight(p, run, id);
    var s' := s.(enq := s.enq[id := Enqueue(msg, s.clock, "", "", Entered)],
                 hist := s.hist.(issued := s.hist.issued[id := msg]));
    BeginIs(p, s, id, msg, s');
    run' := Go(p, run, Smtp(id, Begin(msg)), s');
  }

  /** The staging calls that are left, one by one. */
  lemma {:induction false} StageCallsRun(p: Params, run: Run, id: string) returns (run': Run)
    requires run in Runs(p) && Live(Last(run), id) && Last(run).enq[id].phase.Staging?
    ensures var s, s' := Last(run), Last(run');
            && Onto(p, run, run', s') && Live(s', id) && s'.enq[id] == s.enq[id].(phase := s'.enq[id].phase)
            && s'.enq[id].phase.Staging?
            && s' == s.(disk := s.disk.(staging := s'.disk.staging), enq := s.enq[id := s'.enq[id]])
            && StageComplete(p, s', id) && SameBut(s.disk.staging, s'.disk.staging, StageOf(id, s.enq[id]))
    decreases |PlanOf(p, Last(run).enq[id])| - Last(run).enq[id].phase.done
  {
    hide Runs, Next, Forward, Continues, PlanOf, StageOf, Apply, SameBut, PayloadNode;
    var s := Last(run);
    var e := s.enq[id];
    StagedSoFar(p, run, id);
    SameAsItself(s.disk.staging, StageOf(id, e));
    StagedLength(p, run, id);
    if e.phase.done == |PlanOf(p, e)| {
      run' := run;
      SameRun(run);
      assert s.enq == s.enq[id := e];
    } else {
      var stage := StageOf(id, e);
      var d := Within(s.disk.staging, stage, Apply(s.disk.staging.ents[stage], PlanOf(p, e)[e.phase.done]));
      var s1 := s.(disk := s.disk.(staging := d), enq := InPhase(s, id, Staging(e.phase.tmps, e.phase.done + 1)));
      StageCallIs(p, s, id, s1);
      var r1 := Go(p, run, Smtp(id, StageCall), s1);
      SamePlan(p, id, e, s1.enq[id]);
      run' := StageCallsRun(p, r1, id);
      Then(p, run, r1, run', s1, Last(run'));
      WithinIsLocal(s.disk.staging, stage, Apply(s.disk.staging.ents[stage], PlanOf(p, e)[e.phase.done]));
      SameTwice(s.disk.staging, d, Last(run').disk.staging, stage);
    }
  }

  lemma StagedLength(p: Params, run: Run, id: string)
    requires run in Runs(p) && id in Last(run).enq && Last(run).enq[id].phase.Staging?
    ensures Last(run).enq[id].phase.done <= |PlanOf(p, Last(run).enq[id])|
  {
    hide Inv, Step, Init, Plain, Below, StagePlan, PayloadNode, RunOps, TmpNames, StageOf, TempOf;
    InRuns(p, run);
    ProcessSteps.InvAlways(p, run, |run.states| - 1);
    InvAt(p, Last(run), id);
  }

  lemma SamePlan(p: Params, id: string, e: Enqueue, e': Enqueue)
    requires e.phase.Staging? && e'.phase.Staging? && e' == e.(phase := Staging(e.phase.tmps, e'.phase.done))
    ensures PlanOf(p, e') == PlanOf(p, e) && StageOf(id, e') == StageOf(id, e)
  {}

  /** `Save` by rename, without faults. */
  lemma SaveRun(p: Params, run: Run, id: string) returns (run': Run)
    requires run in Runs(p) && Live(Last(run), id) && Last(run).enq[id].phase.Entered?
    requires Last(run).disk.staging.ents == map[] && id !in Last(run).disk.payloads.ents
    ensures Onto(p, run, run', Last(run'))
    ensures SavedWell(p.codec, Last(run), Last(run'), id, Last(run).enq[id].msg, StageName(id, ""))
    ensures NoStages(Last(run').disk.staging)
  {
    hide Runs, Next, Forward, Continues, PlanOf, Apply, PayloadNode, SameBut, TmpNames, StageName;
    var s := Last(run);
    var e := s.enq[id];
    var stage := StageName(id, "");
    var tmps := seq(|e.msg.attachments| + 1, _ => TMP_PREFIX);
    TemporaryNames(tmps);
    var s1 := s.(disk := s.disk.(staging := Put(s.disk.staging, stage, EMPTY_DIR)),
                 enq := s.enq[id := e.(stageSuffix := "", phase := Staging(tmps, 0))]);
    MakeStageIs(p, s, id, "", tmps, s1);
    var r1 := Go(p, run, Smtp(id, MakeStage("", tmps)), s1);
    var r2 := StageCallsRun(p, r1, id);
    var s2 := Last(r2);
    Then(p, run, r1, r2, s1, s2);
    StagedSoFar(p, r2, id);
    SameNames(id, s1.enq[id], s2.enq[id]);
    var s3 := s2.(disk := s2.disk.(staging := Drop(s2.disk.staging, stage),
                                   payloads := Put(s2.disk.payloads, id, s2.disk.staging.ents[stage])),
                  enq := InPhase(s2, id, Placed));
    PublishIs(p, s2, id, s3);
    var r3 := Go(p, r2, Smtp(id, Publish), s3);
    Then(p, run, r2, r3, s2, s3);
    var s4 := s3.(disk := s3.disk.(payloads := Synced(s3.disk.payloads)), enq := InPhase(s3, id, Durable));
    SyncPayloadsIs(p, s3, id, s4);
    run' := Go(p, r3, Smtp(id, SyncPayloads), s4);
    Then(p, run, r3, run', s3, s4);
    StageComesAndGoes(s.disk.staging, s2.disk.staging, stage);
    assert s4.enq == s.enq[id := s4.enq[id]];
  }

  lemma TemporaryNames(tmps: seq<Name>)
    requires forall i | 0 <= i < |tmps| :: tmps[i] == TMP_PREFIX
    ensures TmpNames(tmps)
  {}

  lemma StageComesAndGoes(was: Node, mid: Node, stage: Name)
    requires was.Dir? && was.ents == map[] && SameBut(Put(was, stage, EMPTY_DIR), mid, stage)
    ensures SameBut(was, Drop(mid, stage), stage) && Drop(mid, stage).Dir? && Drop(mid, stage).ents == map[]
  {
    assert forall x | x != stage :: Find(mid, x) == Find(Put(was, stage, EMPTY_DIR), x) == None;
    forall x | x != stage ensures x !in mid.ents { assert Find(mid, x) == None; }
  }

  /** The relay takes a message. */
  lemma AcceptRun(p: Params, run: Run, id: string, msg: Message) returns (run': Run)
    requires run in Runs(p) && Last(run).proc.Up? && |Last(run).enq| < p.maxInflight && Canonical(id)
    requires id !in Last(run).hist.issued
    requires NoStages(Last(run).disk.staging) && Last(run).clock >= MILLISECOND
    ensures Onto(p, run, run', Last(run'))
    ensures HasMessage(p.codec, Last(run), Last(run'), id, msg, StageName(id, ""), Last(run).clock)
    ensures Last(run').hist.issued == Last(run).hist.issued[id := msg]
    ensures NoStages(Last(run').disk.staging)
  {
    hide Runs, Next, Forward, Continues, PayloadNode, SameBut, StageName, Canonical, NewRecord, Storable, LoadNode,
         Normal;
    var s := Last(run);
    var r1 := BeginRun(p, run, id, msg);
    var s1 := Last(r1);
    var r2 := SaveRun(p, r1, id);
    var s2 := Last(r2);
    Then(p, run, r1, r2, s1, s2);
    NewFits(s.clock);
    SavedIsDurable(p.codec, s, s1, s2, id, msg, StageName(id, ""), s.clock);
    var s3 := s2.(rows := s2.rows[id := NewRecord(s.clock)], enq := InPhase(s2, id, Inserted));
    InsertIs(p, s2, id, Committed, s3);
    var r3 := Go(p, r2, Smtp(id, Insert(Committed)), s3);
    Then(p, run, r2, r3, s2, s3);
    var s4 := s3.(enq := s3.enq - {id}, hist := s3.hist.(acked := s3.hist.acked + {id}));
    AcknowledgeIs(p, s3, id, s4);
    run' := Go(p, r3, Smtp(id, Acknowledge), s4);
    Then(p, run, r3, run', s3, s4);
    AcceptedHasMessage(p, run', s, s1, s2, s3, s4, id, msg, StageName(id, ""), s.clock);
  }

  // ---- the worker's pass ----

  /** `run'` does `labels` after `run`, with the worker serving all along. */
  ghost predicate Does(p: Params, run: Run, run': Run, labels: seq<Label>, s: Sys) {
    && Onto(p, run, run', s) && run'.labels == run.labels + labels && |run'.states| == |run.states| + |labels|
    && forall k | |run.states| <= k < |run'.states| :: Serving(run'.states[k])
  }

  lemma Do(p: Params, run: Run, l: Label, s: Sys) returns (run': Run)
    requires run in Runs(p) && s in Next(p, Last(run), l) && Last(run).clock <= s.clock && Serving(s)
    ensures Does(p, run, run', [l], s)
  {
    hide Runs, Next, Forward, Continues;
    run' := Go(p, run, l, s);
  }

  lemma AndThen(p: Params, a: Run, b: Run, c: Run, ls: seq<Label>, ls': seq<Label>, s: Sys, s': Sys)
    requires Does(p, a, b, ls, s) && Does(p, b, c, ls', s')
    ensures Does(p, a, c, ls + ls', s')
  {
    hide Runs, Forward;
    Then(p, a, b, c, s, s');
    assert c.labels == a.labels + (ls + ls');
    forall k | |a.states| <= k < |c.states| ensures Serving(c.states[k]) {
      if k < |b.states| { assert c.states[k] == b.states[k]; }
    }
  }

  lemma TickRun(p: Params, run: Run, t: int) returns (run': Run)
    requires run in Runs(p) && Last(run).clock <= t && Serving(Last(run))
    ensures Does(p, run, run', [Tick(t)], Last(run).(clock := t))
  {
    hide Runs, Next, Forward, Continues;
    TickIs(p, Last(run), t);
    run' := Do(p, run, Tick(t), Last(run).(clock := t));
  }

  lemma RowNow(p: Params, run: Run, id: string)
    requires run in Runs(p) && Forward(run) && id in Last(run).rows
    ensures var s := Last(run);
            var r := s.rows[id];
            && Storable(r) && AtRest(r) == r && Truncated(r.created) == r.created && r.attempt >= 0
            && MILLISECOND <= s.clock && r.created <= s.clock && Storable(ClaimedRecord(r, s.clock))
  {
    hide Inv, RInv, Step, Init, Storable, AtRest, ClaimedRecord, RequeuedRecord, CorruptRecord, RecoveredRecord,
         ProcTimes, RowsMove;
    InRuns(p, run);
    var i := |run.states| - 1;
    RInvAlways(p, run, i);
    TInvAlways(p, run, i);
    RowsFit(p, Last(run), id);
    RowIsOk(p, Last(run), id);
    AtRestParts(Last(run).rows[id]);
    AttemptNotNegative(p, Last(run), id);
  }

  lemma RowIsOk(p: Params, s: Sys, id: string)
    requires RInv(p, s) && id in s.rows
    ensures RowOk(p, id, s.rows[id])
  {
    hide RowOk;
  }

  function ClaimLabels(id: string): seq<Label> {
    [Work(BeginPass), Work(NoSubmitted), Work(WorkerStep.Claim(id, Committed))]
  }

  /** A pass with nothing to poll claims the first due row. */
  lemma ClaimRun(p: Params, run: Run, id: string) returns (run': Run)
    requires run in Runs(p) && Forward(run) && Last(run).proc == Up(Idle)
    requires NoneDue(Last(run).rows, Submitted, Last(run).clock)
    requires FirstDue(Last(run).rows, Queued, Last(run).clock, id)
    ensures var s := Last(run);
            var rec := ClaimedRecord(s.rows[id], s.clock);
            Does(p, run, run', ClaimLabels(id), s.(rows := s.rows[id := rec], proc := Up(Claimed(id, rec, s.clock))))
  {
    hide Runs, Next, Forward, Continues, NoneDue, Before, Storable, ClaimedRecord, Truncated;
    var s := Last(run);
    RowNow(p, run, id);
    var s1, s2 := s.(proc := Up(Polling(s.clock))), s.(proc := Up(Worker.Claiming(s.clock)));
    var rec := ClaimedRecord(s.rows[id], s.clock);
    var s3 := s.(rows := s.rows[id := rec], proc := Up(Claimed(id, rec, s.clock)));
    BeginPassIs(p, s, s1);
    var r1 := Do(p, run, Work(BeginPass), s1);
    NoSubmittedIs(p, s1, s2);
    var r2 := Do(p, r1, Work(NoSubmitted), s2);
    AndThen(p, run, r1, r2, [Work(BeginPass)], [Work(NoSubmitted)], s1, s2);
    ClaimIs(p, s2, id, Committed, s3);
    run' := Do(p, r2, Work(WorkerStep.Claim(id, Committed)), s3);
    AndThen(p, run, r2, run', [Work(BeginPass), Work(NoSubmitted)], [Work(WorkerStep.Claim(id, Committed))], s2, s3);
  }

  /** The message is loaded and submitted. */
  lemma SubmitRun(p: Params, run: Run, m: Message, a: Answer) returns (run': Run)
    requires run in Runs(p) && Last(run).proc.Up? && Last(run).proc.worker.Claimed?
    requires LoadNode(p.codec, Find(Last(run).disk.payloads, Last(run).proc.worker.id)) == Loaded(m)
    requires p.acs ==> AcsAnswer(Last(run).proc.worker.id, a)
    ensures var s := Last(run);
            var w := s.proc.worker;
            Does(p, run, run', [Work(LoadGood), Work(Submit(a))],
                 s.(proc := Up(Finalizing(w.id, w.rec, SubmitDecision(p.worker, w.rec, w.now, a), w.now)),
                    hist := s.hist.(submits := Incremented(s.hist.submits, w.id), sent := s.hist.sent + {(w.id, m)})))
  {
    hide Runs, Next, Forward, Continues, LoadNode, AcsAnswer, SubmitDecision;
    var s := Last(run);
    var w := s.proc.worker;
    var s1 := s.(proc := Up(Worker.Ready(w.id, w.rec, m, w.now)));
    var s2 := s.(proc := Up(Finalizing(w.id, w.rec, SubmitDecision(p.worker, w.rec, w.now, a), w.now)),
                 hist := s.hist.(submits := Incremented(s.hist.submits, w.id), sent := s.hist.sent + {(w.id, m)}));
    LoadIs(p, s, LoadGood, s1);
    var r1 := Do(p, run, Work(LoadGood), s1);
    SubmitIs(p, s1, a, s2);
    run' := Do(p, r1, Work(Submit(a)), s2);
    AndThen(p, run, r1, run', [Work(LoadGood)], [Work(Submit(a))], s1, s2);
  }

  /** The result is written. */
  lemma FinishRun(p: Params, run: Run, r: Record) returns (run': Run)
    requires run in Runs(p) && Last(run).proc.Up? && Last(run).proc.worker.Finalizing?
    requires Last(run).proc.worker.rec.state == Working
    requires var w := Last(run).proc.worker;
             Marked(w.decision.record, w.decision.mark, Last(run).clock) == Some(r) && Storable(r)
    ensures var s := Last(run);
            var s' := Last(run');
            && Does(p, run, run', [Work(Finalize(Committed))], s')
            && s' == s.(rows := s.rows[s.proc.worker.id := r], proc := Up(Idle),
                        hist := s.hist.(accepted := s'.hist.accepted))
  {
    hide Runs, Next, Forward, Continues, Marked, Storable;
    var s := Last(run);
    var w := s.proc.worker;
    DecisionApplies(p, run);
    var s' := s.(rows := s.rows[w.id := r], proc := Up(Idle),
                 hist := Recorded(s.hist, w.id, Accepts(w.decision.mark, Committed)));
    FinalizeIs(p, s, Committed, s');
    run' := Do(p, run, Work(Finalize(Committed)), s');
  }

  const BUSY := Refused(ContextError("context deadline exceeded"))

  function BusyLabels(id: string): seq<Label> { ClaimLabels(id) + [Work(LoadGood), Work(Submit(BUSY))] }

  /** A pass whose submission fails for now, up to the write of the result. */
  lemma BusyRun(p: Params, run: Run, id: string, m: Message) returns (run': Run)
    requires run in Runs(p) && Forward(run) && Last(run).proc == Up(Idle)
    requires NoneDue(Last(run).rows, Submitted, Last(run).clock)
    requires FirstDue(Last(run).rows, Queued, Last(run).clock, id)
    requires LoadNode(p.codec, Find(Last(run).disk.payloads, id)) == Loaded(m)
    ensures var s, s' := Last(run), Last(run');
            var rec := ClaimedRecord(s.rows[id], s.clock);
            && Does(p, run, run', BusyLabels(id), s')
            && s' == s.(rows := s.rows[id := rec], hist := s'.hist,
                        proc := Up(Finalizing(id, rec, SubmitDecision(p.worker, rec, s.clock, BUSY), s.clock)))
            && s'.hist.issued == s.hist.issued
  {
    hide Runs, Next, Forward, Continues, NoneDue, Before, ClaimedRecord, Truncated, LoadNode, SubmitDecision,
         ClaimLabels;
    var r1 := ClaimRun(p, run, id);
    run' := SubmitRun(p, r1, m, BUSY);
    AndThen(p, run, r1, run', ClaimLabels(id), [Work(LoadGood), Work(Submit(BUSY))], Last(r1), Last(run'));
  }

  /** The row that a failed submission at `now` is to write, and when the table takes it. */
  lemma BusyRow(p: Params, run: Run)
    requires run in Runs(p) && Forward(run) && Last(run).proc.Up? && Last(run).proc.worker.Finalizing?
    requires var w := Last(run).proc.worker;
             && w.rec.state == Working && w.now == Last(run).clock && w.rec.attempt < p.worker.retryAttempts
             && w.decision == SubmitDecision(p.worker, w.rec, w.now, BUSY)
    ensures var w := Last(run).proc.worker;
            var r := Marked(w.decision.record, w.decision.mark, Last(run).clock);
            && r.Some? && r.value.state == Queued && r.value.attempt == w.rec.attempt + 1
            && r.value.created == w.rec.created
            && r.value.nextAttempt == Truncated(w.now + SubmitRetryDelay(p.worker.retryBaseDelay, w.rec.attempt))
            && (Storable(r.value) <==> w.now + SubmitRetryDelay(p.worker.retryBaseDelay, w.rec.attempt) >= MILLISECOND)
  {
    hide Runs, Forward, Storable, AtRest, Truncated, SubmitRetryDelay, Marked, ClaimedRecord;
    HeldRow(p, run);
    var w := Last(run).proc.worker;
    RowNow(p, run, w.id);
    SubmitOutcome(p.worker, w.rec, w.now, BUSY, Last(run).clock);
    RetryWriteAcceptedIff(p.worker, w.rec, w.now, ErrorOf(BUSY.err, w.now), Last(run).clock);
  }

  function RetryLabels(id: string): seq<Label> { BusyLabels(id) + [Work(Finalize(Committed))] }

  /** A pass whose submission fails for now: the row waits for its next attempt. */
  lemma RetryRun(p: Params, run: Run, id: string, m: Message) returns (run': Run)
    requires run in Runs(p) && Forward(run) && Last(run).proc == Up(Idle)
    requires NoneDue(Last(run).rows, Submitted, Last(run).clock)
    requires FirstDue(Last(run).rows, Queued, Last(run).clock, id)
    requires LoadNode(p.codec, Find(Last(run).disk.payloads, id)) == Loaded(m)
    requires var r := Last(run).rows[id];
             && r.attempt < p.worker.retryAttempts
             && Last(run).clock + SubmitRetryDelay(p.worker.retryBaseDelay, r.attempt) >= MILLISECOND
    ensures var s, s' := Last(run), Last(run');
            var r := s.rows[id];
            && Does(p, run, run', RetryLabels(id), s') && id in s'.rows
            && s' == s.(rows := s.rows[id := s'.rows[id]], hist := s'.hist) && s'.hist.issued == s.hist.issued
            && s'.rows[id].state == Queued && s'.rows[id].attempt == r.attempt + 1 && s'.rows[id].created == r.created
            && s'.rows[id].nextAttempt == Truncated(s.clock + SubmitRetryDelay(p.worker.retryBaseDelay, r.attempt))
  {
    hide Runs, Next, Forward, Continues, NoneDue, Before, Truncated, LoadNode, SubmitDecision, BusyLabels, Marked,
         Storable, SubmitRetryDelay;
    var r1 := BusyRun(p, run, id, m);
    BusyRow(p, r1);
    var w := Last(r1).proc.worker;
    var r := Marked(w.decision.record, w.decision.mark, Last(r1).clock).value;
    run' := FinishRun(p, r1, r);
    AndThen(p, run, r1, run', BusyLabels(id), [Work(Finalize(Committed))], Last(r1), Last(run'));
  }

  /** One message in the spool, queued for its attempt number `k` (from zero). */
  ghost predicate Alone(p: Params, s: Sys, id: string, m: Message, t: int, k: nat) {
    && s.proc == Up(Idle) && s.enq == map[] && NoStages(s.disk.staging) && s.hist.issued.Keys == {id}
    && s.rows.Keys == {id}
    && s.rows[id].state == Queued && s.rows[id].attempt == k && s.rows[id].created == t
    && LoadNode(p.codec, Find(s.disk.payloads, id)) == Loaded(m)
  }

  /** One message, just accepted at `t`. */
  lemma AloneRun(p: Params, t: int, id: string) returns (run: Run)
    requires p.Valid() && p.maxInflight > 0 && t >= MILLISECOND && Truncated(t) == t && Canonical(id)
    ensures run in Runs(p) && Forward(run) && Last(run).clock == t
    ensures Alone(p, Last(run), id, Normal(EMPTY_MESSAGE), t, 0) && Last(run).rows[id].nextAttempt == t
  {
    hide Runs, Next, Forward, Continues, Canonical, LoadNode, Normal, Truncated, PayloadNode;
    var r0 := Boot(p, t);
    run := AcceptRun(p, r0, id, EMPTY_MESSAGE);
    assert Last(run).hist.issued.Keys == {id};
  }

  lemma OnlyOneDue(rows: Table, id: string, now: int)
    requires rows.Keys == {id} && Due(rows[id], Queued, now)
    ensures NoneDue(rows, Submitted, now) && FirstDue(rows, Queued, now, id)
  {
    assert forall k | k in rows :: k in rows.Keys;
  }

  lemma {:induction false} EarliestIsWhole(cfg: WorkerConfig, t: int, k: nat)
    requires Truncated(t) == t
    ensures Truncated(Earliest(cfg, t, k)) == Earliest(cfg, t, k)
  {
    if k > 0 {
      EarliestIsWhole(cfg, t, k - 1);
      TruncatedTwice(Earliest(cfg, t, k - 1) + SubmitRetryDelay(cfg.retryBaseDelay, k - 1));
    }
  }

  lemma FirstIsNow(cfg: WorkerConfig, t: int)
    ensures Earliest(cfg, t, 0) == t
  {}

  lemma NextIsLater(cfg: WorkerConfig, t: int, k: nat)
    ensures Earliest(cfg, t, k) <= Earliest(cfg, t, k + 1)
    ensures Truncated(Earliest(cfg, t, k) + SubmitRetryDelay(cfg.retryBaseDelay, k)) <= Earliest(cfg, t, k + 1)
  {
    hide Truncated, SubmitRetryDelay;
  }

  /** One attempt at `e` fails. */
  lemma RetryOnceRun(p: Params, run: Run, id: string, m: Message, t: int, k: nat, e: int) returns (run': Run)
    requires run in Runs(p) && Forward(run) && Alone(p, Last(run), id, m, t, k) && k < p.worker.retryAttempts
    requires Last(run).clock <= e && Last(run).rows[id].nextAttempt <= e == Truncated(e)
    requires e + SubmitRetryDelay(p.worker.retryBaseDelay, k) >= MILLISECOND
    ensures Onto(p, run, run', Last(run')) && Forward(run') && Alone(p, Last(run'), id, m, t, k + 1)
    ensures Last(run').clock == e
    ensures Last(run').rows[id].nextAttempt == Truncated(e + SubmitRetryDelay(p.worker.retryBaseDelay, k))
  {
    hide Runs, Next, Forward, Continues, LoadNode, Truncated, SubmitRetryDelay, NoneDue, FirstDue, RetryLabels,
         NoStages;
    var r1 := TickRun(p, run, e);
    OnlyOneDue(Last(r1).rows, id, e);
    run' := RetryRun(p, r1, id, m);
    Then(p, run, r1, run', Last(r1), Last(run'));
    assert Last(run').rows.Keys == {id};
  }

  /** Every attempt made as early as can be fails, and the next one is waited for. */
  lemma {:induction false} RetryManyRun(p: Params, run: Run, id: string, m: Message, t: int, k: nat) returns (run': Run)
    requires run in Runs(p) && Forward(run) && Alone(p, Last(run), id, m, t, 0) && Last(run).clock == t
    requires Truncated(t) == t
    requires Last(run).rows[id].nextAttempt == t && k <= p.worker.retryAttempts
    requires forall j: nat | j < k ::
               Earliest(p.worker, t, j) + SubmitRetryDelay(p.worker.retryBaseDelay, j) >= MILLISECOND
    ensures Onto(p, run, run', Last(run')) && Forward(run') && Alone(p, Last(run'), id, m, t, k)
    ensures Last(run').clock <= Earliest(p.worker, t, k) && Last(run').rows[id].nextAttempt <= Earliest(p.worker, t, k)
  {
    hide Runs, Forward, Continues, LoadNode, Truncated, SubmitRetryDelay, NoStages, Find, Earliest;
    FirstIsNow(p.worker, t);
    if k == 0 {
      run' := run;
      SameRun(run);
    } else {
      var e := Earliest(p.worker, t, k - 1);
      var r1 := RetryManyRun(p, run, id, m, t, k - 1);
      EarliestIsWhole(p.worker, t, k - 1);
      NextIsLater(p.worker, t, k - 1);
      run' := RetryOnceRun(p, r1, id, m, t, k - 1, e);
      Then(p, run, r1, run', Last(r1), Last(run'));
    }
  }

  // ---- a write the table refuses ----

  const FIRST_ID := "00000000-0000-4000-8000-000000000000"
  const SECOND_ID := "00000000-0000-4000-8000-000000000001"

  lemma IdsAreCanonical()
    ensures Canonical(FIRST_ID) && Canonical(SECOND_ID) && FIRST_ID != SECOND_ID
  {
    assert FIRST_ID[35] != SECOND_ID[35];
  }

  lemma FirstMisfit(cfg: WorkerConfig) returns (k: nat)
    requires !RetriesFit(cfg)
    ensures k < cfg.retryAttempts
    ensures Earliest(cfg, MILLISECOND, k) + SubmitRetryDelay(cfg.retryBaseDelay, k) < MILLISECOND
    ensures forall j: nat | j < k ::
              Earliest(cfg, MILLISECOND, j) + SubmitRetryDelay(cfg.retryBaseDelay, j) >= MILLISECOND
  {
    hide Earliest, SubmitRetryDelay;
    k := 0;
    while k < cfg.retryAttempts
          && Earliest(cfg, MILLISECOND, k) + SubmitRetryDelay(cfg.retryBaseDelay, k) >= MILLISECOND
      invariant forall j: nat | j < k ::
                  Earliest(cfg, MILLISECOND, j) + SubmitRetryDelay(cfg.retryBaseDelay, j) >= MILLISECOND
    {
      k := k + 1;
    }
  }

  /** If some retry does not fit, there is a run, with a positive clock that never goes back, that comes to it. */
  lemma RefusedRun(p: Params) returns (run: Run)
    requires p.Valid() && p.maxInflight > 0 && !RetriesFit(p.worker)
    ensures run in Runs(p) && Forward(run) && Last(run).proc.Up? && Last(run).proc.worker.Finalizing?
    ensures !WritesFit(Last(run))
  {
    hide Runs, Next, Forward, Continues, Canonical, LoadNode, Normal, Truncated, SubmitRetryDelay, RetriesFit, NoneDue,
         FirstDue, BusyLabels, NoStages, Earliest, SubmitDecision, Marked, Storable;
    IdsAreCanonical();
    WholeMilliseconds(1);
    var k := FirstMisfit(p.worker);
    var r0 := AloneRun(p, MILLISECOND, FIRST_ID);
    var m := Normal(EMPTY_MESSAGE);
    var r1 := RetryManyRun(p, r0, FIRST_ID, m, MILLISECOND, k);
    var e := Earliest(p.worker, MILLISECOND, k);
    var r2 := TickRun(p, r1, e);
    EarliestIsWhole(p.worker, MILLISECOND, k);
    OnlyOneDue(Last(r2).rows, FIRST_ID, e);
    run := BusyRun(p, r2, FIRST_ID, m);
    BusyRow(p, run);
  }

  lemma WholeMilliseconds(n: nat)
    ensures Truncated(n * MILLISECOND) == n * MILLISECOND
  {}

  /**
   The condition is exact: no run with a clock that never goes back has a write refused if and only if all retries
   fit.
   */
  lemma NoWriteIsRefusedIff(p: Params)
    requires p.Valid() && p.maxInflight > 0
    ensures (forall run, i: nat | run in Runs(p) && Forward(run) && i < |run.states| :: WritesFit(run.states[i])) <==>
              RetriesFit(p.worker)
  {
    hide Runs, Next, Forward, WritesFit, RetriesFit;
    if RetriesFit(p.worker) {
      forall run, i: nat | run in Runs(p) && Forward(run) && i < |run.states| ensures WritesFit(run.states[i]) {
        assert ValidRun(p, run) by { InRuns(p, run); }
        NoWriteIsRefused(p, run, i);
      }
    } else {
      var run := RefusedRun(p);
      RunNotEmpty(p, run);
      var i: nat := |run.states| - 1;
      assert run.states[i] == Last(run);
    }
  }

  // ---- a row that is overtaken again and again ----

  /** Two queued rows, both past due: `a`, and behind it `b`, which came at `t`. */
  ghost predicate Rivals(p: Params, s: Sys, a: string, b: string, m: Message, t: int) {
    && s.proc == Up(Idle) && s.enq == map[] && a != b && s.rows.Keys == {a, b} && t + MILLISECOND <= s.clock
    && Truncated(s.clock) == s.clock
    && s.rows[a].state == Queued && s.rows[a].nextAttempt <= t && s.rows[a].created < t
    && s.rows[b].state == Queued && s.rows[b].nextAttempt == t && s.rows[b].created == t
    && LoadNode(p.codec, Find(s.disk.payloads, a)) == Loaded(m)
  }

  lemma RivalIsFirst(p: Params, s: Sys, a: string, b: string, m: Message, t: int)
    requires Rivals(p, s, a, b, m, t)
    ensures NoneDue(s.rows, Submitted, s.clock) && FirstDue(s.rows, Queued, s.clock, a)
    ensures Ahead(s, Queued, b, s.rows[b]) == {a} && s.rows[b].nextAttempt < Truncated(s.clock)
  {
    hide LoadNode, Truncated;
    assert forall k | k in s.rows :: k in s.rows.Keys;
    forall k ensures k in Ahead(s, Queued, b, s.rows[b]) <==> k == a {
      if k in s.rows.Keys + s.enq.Keys { assert k in s.rows.Keys; }
    }
  }

  /** A second message comes while the first waits for its attempt `k`. */
  lemma RivalsRun(p: Params, t: int, k: nat) returns (run: Run)
    requires p.Valid() && p.maxInflight > 0 && t >= MILLISECOND && Truncated(t) == t && k <= p.worker.retryAttempts
    requires forall j: nat | j < k :: SubmitRetryDelay(p.worker.retryBaseDelay, j) > 0
    ensures run in Runs(p) && Forward(run) && Last(run).clock == Earliest(p.worker, t, k) + 2 * MILLISECOND
    ensures Rivals(p, Last(run), FIRST_ID, SECOND_ID, Normal(EMPTY_MESSAGE), Earliest(p.worker, t, k) + MILLISECOND)
    ensures Last(run).rows[FIRST_ID].attempt == k
  {
    hide Runs, Next, Forward, Continues, Canonical, LoadNode, Normal, Truncated, SubmitRetryDelay, NoStages, Earliest,
         Alone;
    IdsAreCanonical();
    var m := Normal(EMPTY_MESSAGE);
    var r0 := AloneRun(p, t, FIRST_ID);
    LaterAndLater(p.worker, t, k);
    var r1 := RetryManyRun(p, r0, FIRST_ID, m, t, k);
    EarliestGrows(p.worker, t, k);
    var u := Earliest(p.worker, t, k) + MILLISECOND;
    WholeAfter(p.worker, t, k);
    run := SecondRun(p, r1, m, t, k, u);
  }

  lemma LaterAndLater(cfg: WorkerConfig, t: int, k: nat)
    requires t >= MILLISECOND && forall j: nat | j < k :: SubmitRetryDelay(cfg.retryBaseDelay, j) > 0
    ensures forall j: nat | j < k :: Earliest(cfg, t, j) + SubmitRetryDelay(cfg.retryBaseDelay, j) >= MILLISECOND
  {
    hide SubmitRetryDelay, Earliest;
    forall j: nat | j < k ensures Earliest(cfg, t, j) + SubmitRetryDelay(cfg.retryBaseDelay, j) >= MILLISECOND {
      EarliestGrows(cfg, t, j);
    }
  }

  lemma WholeAfter(cfg: WorkerConfig, t: int, k: nat)
    requires Truncated(t) == t
    ensures var e := Earliest(cfg, t, k);
            Truncated(e + MILLISECOND) == e + MILLISECOND && Truncated(e + 2 * MILLISECOND) == e + 2 * MILLISECOND
  {
    hide Earliest;
    EarliestIsWhole(cfg, t, k);
  }

  lemma SecondRun(p: Params, run: Run, m: Message, t: int, k: nat, u: int) returns (run': Run)
    requires run in Runs(p) && p.maxInflight > 0 && Forward(run) && Alone(p, Last(run), FIRST_ID, m, t, k)
    requires MILLISECOND <= t && t < u && Last(run).clock <= u && Last(run).rows[FIRST_ID].nextAttempt <= u
    requires Truncated(u) == u && Truncated(u + MILLISECOND) == u + MILLISECOND
    ensures run' in Runs(p) && Forward(run') && Last(run').clock == u + MILLISECOND
    ensures Rivals(p, Last(run'), FIRST_ID, SECOND_ID, m, u) && Last(run').rows[FIRST_ID].attempt == k
  {
    hide Runs, Next, Forward, Continues, Canonical, LoadNode, Normal, Truncated, PayloadNode;
    IdsAreCanonical();
    var r1 := TickRun(p, run, u);
    var r2 := AcceptRun(p, r1, SECOND_ID, EMPTY_MESSAGE);
    run' := TickRun(p, r2, u + MILLISECOND);
    assert Last(run').rows.Keys == {FIRST_ID, SECOND_ID};
    assert Find(Last(run').disk.payloads, FIRST_ID) == Find(Last(run).disk.payloads, FIRST_ID);
  }

  /** A wait that wraps around puts the first row in front of the second again. */
  lemma OvertakingRun(p: Params, run: Run, m: Message, t: int) returns (run': Run)
    requires run in Runs(p) && Forward(run) && Rivals(p, Last(run), FIRST_ID, SECOND_ID, m, t)
    requires Last(run).clock == t + MILLISECOND
    requires var r := Last(run).rows[FIRST_ID];
             && r.attempt < p.worker.retryAttempts && SubmitRetryDelay(p.worker.retryBaseDelay, r.attempt) < 0
             && t + SubmitRetryDelay(p.worker.retryBaseDelay, r.attempt) >= 0 && Truncated(t) == t
    ensures Does(p, run, run', RetryLabels(FIRST_ID), Last(run')) && Forward(run') && Last(run').proc == Up(Idle)
    ensures Rivals(p, Last(run'), FIRST_ID, SECOND_ID, m, t)
  {
    hide Runs, Next, Forward, Continues, LoadNode, Truncated, SubmitRetryDelay, NoneDue, FirstDue, RetryLabels;
    RivalIsFirst(p, Last(run), FIRST_ID, SECOND_ID, m, t);
    run' := RetryRun(p, run, FIRST_ID, m);
    ShortOfNext(t, SubmitRetryDelay(p.worker.retryBaseDelay, Last(run).rows[FIRST_ID].attempt));
    assert Last(run').rows.Keys == {FIRST_ID, SECOND_ID};
  }

  lemma ShortOfNext(t: int, d: int)
    requires d < 0 && Truncated(t) == t
    ensures Truncated(t + MILLISECOND + d) <= t
  {}

  lemma TurnsMore(labels: seq<Label>, l: Label, state: State)
    ensures Turns(labels + [l], state) == Turns(labels, state) + One(IsTurn(l, state))
  {
    assert (labels + [l])[..|labels|] == labels;
  }

  /** A retry and one more claim: two turns, neither of them for another row. */
  lemma TwoTurns(a: string, b: string, labels: seq<Label>)
    requires a != b && labels == RetryLabels(a) + ClaimLabels(a)
    ensures Turns(labels, Queued) == 2 && forall k | 0 <= k < |labels| :: !TurnOf(labels[k], Queued, b)
  {
    hide Turns;
    var claim := Work(WorkerStep.Claim(a, Committed));
    assert labels == [Work(BeginPass), Work(NoSubmitted), claim, Work(LoadGood), Work(Submit(BUSY)),
                      Work(Finalize(Committed)), Work(BeginPass), Work(NoSubmitted), claim];
    NoTurns();
    var i := 0;
    while i < |labels|
      invariant 0 <= i <= |labels| == 9
      invariant Turns(labels[..i], Queued) == (if i < 3 then 0 else if i < 9 then 1 else 2)
    {
      assert labels[..i + 1] == labels[..i] + [labels[i]];
      TurnsMore(labels[..i], labels[i], Queued);
      i := i + 1;
    }
    assert labels[..9] == labels;
  }

  lemma NoTurns()
    ensures Turns([], Queued) == 0
  {}

  lemma BackwardWait(cfg: WorkerConfig) returns (k: nat)
    requires cfg.Valid() && !DelaysFit(cfg)
    ensures k < cfg.retryAttempts && -MAX_DURATION - 1 <= SubmitRetryDelay(cfg.retryBaseDelay, k) < 0
    ensures forall j: nat | j < k :: SubmitRetryDelay(cfg.retryBaseDelay, j) > 0
  {
    k := FirstWrap(cfg.retryBaseDelay, if cfg.retryAttempts > 31 then 30 else cfg.retryAttempts - 1);
  }

  /** Between the two runs the second row was past due, the first had two turns, and the second none. */
  lemma ShowOvertaken(p: Params, run: Run, run': Run, m: Message, t: int) returns (i: nat, j: nat)
    requires run in Runs(p) && Forward(run) && Rivals(p, Last(run), FIRST_ID, SECOND_ID, m, t)
    requires Does(p, run, run', RetryLabels(FIRST_ID) + ClaimLabels(FIRST_ID), Last(run'))
    ensures Overtaken(p, run', i, j, Queued, SECOND_ID) && !HasTurn(run', i, j, Queued, SECOND_ID)
  {
    hide Step, Init, LoadNode, Truncated, RetryLabels, ClaimLabels, Turns, Passes, TurnOf, Ahead;
    IdsAreCanonical();
    InRuns(p, run);
    InRuns(p, run');
    i, j := |run.labels|, |run'.labels|;
    var labels := RetryLabels(FIRST_ID) + ClaimLabels(FIRST_ID);
    assert run'.labels[i..j] == labels;
    assert run'.states[i] == Last(run);
    TwoTurns(FIRST_ID, SECOND_ID, labels);
    RivalIsFirst(p, Last(run), FIRST_ID, SECOND_ID, m, t);
    forall k | i <= k < j ensures !TurnOf(run'.labels[k], Queued, SECOND_ID) { assert run'.labels[k] == labels[k - i]; }
  }

  /**
   If some wait wraps around, there is a run in which a row is overtaken, by one and the same other row, for a second
   time.
   */
  lemma StarvationRun(p: Params) returns (run: Run, i: nat, j: nat)
    requires p.Valid() && p.maxInflight > 0 && !DelaysFit(p.worker)
    ensures Overtaken(p, run, i, j, Queued, SECOND_ID) && !HasTurn(run, i, j, Queued, SECOND_ID)
  {
    hide Runs, Next, Forward, Continues, LoadNode, Normal, Truncated, SubmitRetryDelay, NoneDue, FirstDue, RetryLabels,
         ClaimLabels, Earliest, Turns, Rivals, TurnOf, DelaysFit, Overtaken;
    var k := BackwardWait(p.worker);
    var t := 10_000_000_000_000 * MILLISECOND;
    WholeMilliseconds(10_000_000_000_000);
    var m := Normal(EMPTY_MESSAGE);
    var r0 := RivalsRun(p, t, k);
    var u := Earliest(p.worker, t, k) + MILLISECOND;
    EarliestGrows(p.worker, t, k);
    WholeAfter(p.worker, t, k);
    RivalIsFirst(p, Last(r0), FIRST_ID, SECOND_ID, m, u);
    var r1 := OvertakingRun(p, r0, m, u);
    RivalIsFirst(p, Last(r1), FIRST_ID, SECOND_ID, m, u);
    run := ClaimRun(p, r1, FIRST_ID);
    AndThen(p, r0, r1, run, RetryLabels(FIRST_ID), ClaimLabels(FIRST_ID), Last(r1), Last(run));
    i, j := ShowOvertaken(p, r0, run, m, u);
  }

  /**
   The condition is exact: every overdue queued row gets its turn in time, in every run, if and only if all waits
   fit.
   */
  lemma NoStarvationIff(p: Params)
    requires p.Valid() && p.maxInflight > 0
    ensures (forall run, i: nat, j: nat, id | Overtaken(p, run, i, j, Queued, id) :: HasTurn(run, i, j, Queued, id))
            <==> DelaysFit(p.worker)
  {
    hide Overtaken, HasTurn, DelaysFit;
    if DelaysFit(p.worker) {
      forall run, i: nat, j: nat, id | Overtaken(p, run, i, j, Queued, id) ensures HasTurn(run, i, j, Queued, id) {
        NoStarvation(p, run, i, j, Queued, id);
      }
    } else {
      var run, i, j := StarvationRun(p);
    }
  }

  /** A base delay of 5,000,000,000,000 ms and two attempts are enough for both. */
  lemma LongBaseDelayMisbehaves() returns (p: Params, refused: Run, starved: Run, i: nat, j: nat)
    ensures p.Valid() && p.worker.retryAttempts == 2 && p.worker.retryBaseDelay == 5_000_000_000_000 * MILLISECOND
    ensures refused in Runs(p) && Forward(refused) && !WritesFit(Last(refused))
    ensures Overtaken(p, starved, i, j, Queued, SECOND_ID) && !HasTurn(starved, i, j, Queued, SECOND_ID)
  {
    hide Runs, Forward, WritesFit, Overtaken, HasTurn, RetriesFit, DelaysFit;
    var c := Codecs.FaithfulCodecExists();
    p := Params(c, WorkerConfig(2, 5_000_000_000_000 * MILLISECOND, MILLISECOND, MILLISECOND, ""), 1, true);
    LongBaseDelay(p.worker);
    refused := RefusedRun(p);
    starved, i, j := StarvationRun(p);
  }

  // ---- a poll after the deadline ----

  /** The poll is made at `late`, in the pass that began at `now`. */
  lemma PollRun(p: Params, run: Run, late: int, a: Answer) returns (run': Run)
    requires run in Runs(p) && Last(run).proc.Up? && Last(run).proc.worker.Picked?
    requires !Expired(p.worker, Last(run).proc.worker.rec, Last(run).proc.worker.now)
    ensures var w := Last(run).proc.worker;
            && run' in Runs(p) && Continues(run, run') && (Forward(run) && Last(run).clock <= late ==> Forward(run'))
            && PollEvent(w.id, w.rec.operationID, w.now, w.rec.firstSubmitted, late) in Last(run').hist.polls
  {
    hide Runs, Next, Forward, Expired, PollDecision;
    var s := Last(run);
    var w := s.proc.worker;
    var s1 := s.(clock := late);
    TickIs(p, s, late);
    ExtendedIsValid(p, run, Tick(late), s1);
    var r1 := Extended(run, Tick(late), s1);
    var s2 := s1.(proc := Up(Finalizing(w.id, w.rec, PollDecision(p.worker, w.rec, w.now, a), w.now)),
                  hist := Polled(s.hist, PollEvent(w.id, w.rec.operationID, w.now, w.rec.firstSubmitted, late)));
    PollIs(p, s1, a, s2);
    run' := Go(p, r1, Work(Poll(a)), s2);
    Onward(run, r1, run');
  }

  /**
   The deadline is compared with the time the pass began, not with the time of the poll: a record picked for a poll can
   be polled at any time whatever, in some run, if and only if the pass began before its deadline.
   */
  lemma PollMayComeLate(p: Params, run: Run, late: int)
    requires run in Runs(p) && Last(run).proc.Up? && Last(run).proc.worker.Picked?
    ensures var w := Last(run).proc.worker;
            (exists run' | run' in Runs(p) && Continues(run, run') ::
               PollEvent(w.id, w.rec.operationID, w.now, w.rec.firstSubmitted, late) in Last(run').hist.polls)
            <==> w.now < w.rec.firstSubmitted + p.worker.submittedTimeout
  {
    hide Runs, Next, Forward, Continues;
    var w := Last(run).proc.worker;
    var e := PollEvent(w.id, w.rec.operationID, w.now, w.rec.firstSubmitted, late);
    if w.now < w.rec.firstSubmitted + p.worker.submittedTimeout {
      PickedIsSubmitted(p, run);
      var run' := PollRun(p, run, late, BUSY);
      assert e in Last(run').hist.polls;
    } else if run' :| run' in Runs(p) && Continues(run, run') && e in Last(run').hist.polls {
      InTime(p, run', e);
    }
  }

  lemma InTime(p: Params, run: Run, e: PollEvent)
    requires run in Runs(p) && e in Last(run).hist.polls
    ensures e.passTime < e.firstSubmitted + p.worker.submittedTimeout
  {
    hide Step, Init;
    InRuns(p, run);
    Theorems.PollsAreInTime(p, run, |run.states| - 1, e);
  }

  lemma PickedIsSubmitted(p: Params, run: Run)
    requires run in Runs(p) && Last(run).proc.Up? && Last(run).proc.worker.Picked?
    ensures var w := Last(run).proc.worker; w.rec.state == Submitted && w.rec.firstSubmitted != ZERO_TIME
  {
    hide Inv, Step, Init, Storable, AtRest, RowsMove, CountsOk, HistoryOk;
    InRuns(p, run);
    RInvAlways(p, run, |run.states| - 1);
    RowIsOk(p, Last(run), Last(run).proc.worker.id);
  }

  function Running(id: string): Answer { Reported(ProviderRunning, id, "", "", 1, None) }

  /** The row that an accepted submission at a whole millisecond writes: due at once. */
  lemma RunningRow(p: Params, run: Run)
    requires run in Runs(p) && Forward(run) && Last(run).proc.Up? && Last(run).proc.worker.Finalizing?
    requires var w := Last(run).proc.worker;
             && w.rec.state == Working && w.now == Last(run).clock == Truncated(w.now) && w.id != ""
             && w.decision == SubmitDecision(p.worker, w.rec, w.now, Running(w.id))
    ensures var w := Last(run).proc.worker;
            var r := Marked(w.decision.record, w.decision.mark, Last(run).clock);
            && r.Some? && Storable(r.value) && r.value.state == Submitted && r.value.nextAttempt == w.now
            && r.value.firstSubmitted == w.now
  {
    hide Runs, Forward, Storable, AtRest, Marked, ClaimedRecord, RowOk, WorkingOk, CountsOk, HistoryOk;
    HeldRow(p, run);
    var s := Last(run);
    var w := s.proc.worker;
    RowNow(p, run, w.id);
    MarkedFits(p.worker, w.rec, w.decision.mark, w.now, s.clock);
    SubmitAnswerIsKept(p.worker, w.rec, w.now, Running(w.id), s.clock);
    SubmitOutcome(p.worker, w.rec, w.now, Running(w.id), s.clock);
    NothingSubmitted(p, run);
  }

  lemma NothingSubmitted(p: Params, run: Run)
    requires run in Runs(p) && Last(run).proc.Up? && Last(run).proc.worker.Finalizing?
    requires Last(run).proc.worker.rec.state == Working
    ensures Last(run).proc.worker.rec.firstSubmitted == ZERO_TIME
  {
    hide Inv, Step, Init, Storable, AtRest, RowsMove, CountsOk, HistoryOk, DecisionOk;
    InRuns(p, run);
    RInvAlways(p, run, |run.states| - 1);
    RowIsOk(p, Last(run), Last(run).proc.worker.id);
  }

  /** From a fresh spool to a submitted record picked for its first poll. */
  lemma PickedRun(p: Params) returns (run: Run)
    requires p.Valid() && p.maxInflight > 0
    ensures run in Runs(p) && Forward(run) && Last(run).proc.Up? && Last(run).proc.worker.Picked?
    ensures Last(run).clock == MILLISECOND
    ensures Last(run).proc.worker.now == Last(run).proc.worker.rec.firstSubmitted == MILLISECOND
  {
    hide Runs, Next, Forward, Continues, Canonical, LoadNode, Normal, Truncated, NoneDue, Before, ClaimLabels, NoStages,
         SubmitDecision, Marked, Storable, Trim;
    IdsAreCanonical();
    CanonicalIsNoScratchName(FIRST_ID);
    assert Trim(FIRST_ID) == FIRST_ID;
    WholeMilliseconds(1);
    var r0 := AloneRun(p, MILLISECOND, FIRST_ID);
    OnlyOneDue(Last(r0).rows, FIRST_ID, MILLISECOND);
    var r1 := ClaimRun(p, r0, FIRST_ID);
    var r2 := SubmitRun(p, r1, Normal(EMPTY_MESSAGE), Running(FIRST_ID));
    RunningRow(p, r2);
    var w := Last(r2).proc.worker;
    var r3 := FinishRun(p, r2, Marked(w.decision.record, w.decision.mark, MILLISECOND).value);
    assert Last(r3).rows.Keys == {FIRST_ID};
    run := PickRun(p, r3, FIRST_ID);
  }

  lemma PickRun(p: Params, run: Run, id: string) returns (run': Run)
    requires run in Runs(p) && Forward(run) && Last(run).proc == Up(Idle)
    requires Last(run).rows.Keys == {id} && Due(Last(run).rows[id], Submitted, Last(run).clock)
    ensures run' in Runs(p) && Forward(run')
    ensures Last(run') == Last(run).(proc := Up(Picked(id, Last(run).rows[id], Last(run).clock)))
  {
    hide Runs, Next, Forward, Continues, Truncated;
    var s := Last(run);
    var s1, s2 := s.(proc := Up(Polling(s.clock))), s.(proc := Up(Picked(id, s.rows[id], s.clock)));
    BeginPassIs(p, s, s1);
    var r1 := Go(p, run, Work(BeginPass), s1);
    assert forall k | k in s.rows :: k in s.rows.Keys;
    PickSubmittedIs(p, s1, id, s2);
    run' := Go(p, r1, Work(PickSubmitted(id)), s2);
  }

  /** In every configuration a record can be polled after its deadline, by any length of time. */
  lemma LatePollHappens(p: Params, delay: nat) returns (run: Run, e: PollEvent)
    requires p.Valid() && p.maxInflight > 0
    ensures run in Runs(p) && Forward(run) && e in Last(run).hist.polls
    ensures e.at == e.firstSubmitted + p.worker.submittedTimeout + delay
  {
    hide Runs, Forward, Continues;
    var r := PickedRun(p);
    var w := Last(r).proc.worker;
    var late := w.now + p.worker.submittedTimeout + delay;
    run := PollRun(p, r, late, BUSY);
    e := PollEvent(w.id, w.rec.operationID, w.now, w.rec.firstSubmitted, late);
  }

  // ---- an orphan that is lost ----

  /** A saved payload whose record was never inserted, found by the next start-up. */
  lemma OrphanRun(p: Params, msg: Message) returns (run: Run)
    requires p.Valid() && p.maxInflight > 0
    ensures run in Runs(p) && Last(run).proc == Process.Quarantining({}) && Last(run).disk.orphans == EMPTY_DIR
    ensures Last(run).disk.payloads == Dir(map[FIRST_ID := PayloadNode(p.codec, msg)], map[])
  {
    hide Runs, Next, Forward, Continues, Canonical, PayloadNode, SameBut, StageName, HasPrefix;
    IdsAreCanonical();
    CanonicalIsNoScratchName(FIRST_ID);
    var r0 := Boot(p, MILLISECOND);
    var r1 := BeginRun(p, r0, FIRST_ID, msg);
    var r2 := SaveRun(p, r1, FIRST_ID);
    var s := Last(r2);
    ExitIs(p, s);
    var r3 := Go(p, r2, Proc(Exit), s.(enq := map[], proc := Down));
    run := ToQuarantine(p, r3);
  }

  /**
   The orphan is copied, one unlink of the original succeeds, the next one fails, and the copy is dropped again: neither
   in its old place nor in quarantine is the tree whole.
   */
  lemma OrphanCanBeLost(p: Params, msg: Message) returns (run: Run, lost: Run)
    requires p.Valid() && p.maxInflight > 0
    ensures run in Runs(p) && Last(run).proc.Quarantining?
    ensures Find(Last(run).disk.payloads, FIRST_ID) == Some(PayloadNode(p.codec, msg))
    ensures lost in Runs(p) && Continues(run, lost)
    ensures forall target :: !Whole(Last(run).disk, Last(lost).disk, FIRST_ID, target)
  {
    hide Runs, Next, Forward, Continues, PayloadNode, Bare, Whole;
    run := OrphanRun(p, msg);
    var s := Last(run);
    var copy := s.disk.payloads;
    var op := Op([FIRST_ID], Unlink(MESSAGE_FILE));
    var s1 := s.(disk := s.disk.(orphans := copy));
    QuarantineCopyIs(p, s, copy, s1);
    var r1 := Go(p, run, Proc(QuarantineCopy(copy)), s1);
    var s2 := s1.(disk := s1.disk.(payloads := Apply(s1.disk.payloads, op)));
    assert DoQuarantineRemove(s1, FIRST_ID, op, s2);
    ProcIs(p, s1, QuarantineRemove(FIRST_ID, op), s2);
    var r2 := Go(p, r1, Proc(QuarantineRemove(FIRST_ID, op)), s2);
    Then(p, run, r1, r2, s1, s2);
    var s3 := s2.(disk := s2.disk.(orphans := EMPTY_DIR));
    QuarantineCopyIs(p, s2, EMPTY_DIR, s3);
    lost := Go(p, r2, Proc(QuarantineCopy(EMPTY_DIR)), s3);
    Then(p, run, r2, lost, s2, s3);
    NoLongerWhole(p.codec, msg, s.disk, s3.disk);
  }

  lemma NoLongerWhole(c: Codec, msg: Message, was: Disks, after: Disks)
    requires was.payloads == Dir(map[FIRST_ID := PayloadNode(c, msg)], map[]) && after.orphans == EMPTY_DIR
    requires after.payloads == Apply(was.payloads, Op([FIRST_ID], Unlink(MESSAGE_FILE)))
    ensures forall target :: !Whole(was, after, FIRST_ID, target)
  {
    hide Bare;
    var n := PayloadNode(c, msg);
    assert Op([FIRST_ID], Unlink(MESSAGE_FILE)).path[1..] == [];
    assert after.payloads == Within(was.payloads, FIRST_ID, Apply(n, Op([], Unlink(MESSAGE_FILE))));
    GoneIsSeen(n, Drop(n, MESSAGE_FILE), MESSAGE_FILE);
  }
}
