/** What the relay promises, over whole runs: any interleaving, any provider answers, any crash and restart. */
module Theorems {
  import opened Options
  import opened Ids
  import opened Disk
  import opened Payload
  import opened Rows
  import opened Delivery
  import opened Machine
  import opened DiskInvariant
  import opened ProcessSteps
  import opened RowInvariant
  import opened RowSteps

  // ---- history only grows ----

  ghost predicate Grows(h: History, h': History) {
    && (forall id | id in h.issued :: id in h'.issued && h'.issued[id] == h.issued[id])
    && h.acked <= h'.acked && h.withdrawn <= h'.withdrawn && h.condemned <= h'.condemned
    && h.accepted <= h'.accepted && h.sent <= h'.sent && h.polls <= h'.polls
  }

  lemma SmtpGrows(p: Params, s: Sys, id: string, l: SmtpStep, s': Sys)
    requires SmtpNext(p, s, id, l, s')
    ensures Grows(s.hist, s'.hist)
  {
    hide Canonical, PlanOf, WellNamed, NodeOf, TmpNames, Apply, Confined, NewRecord, Storable, StageName,
         PublishTempName;
  }

  lemma WorkerGrows(p: Params, s: Sys, l: WorkerStep, s': Sys)
    requires WorkerNext(p, s, l, s')
    ensures Grows(s.hist, s'.hist)
  {
    hide CorruptRecord, RequeuedRecord, ClaimedRecord, Marked, Storable, LoadNode, FirstDue, NoneDue, SubmitDecision,
         PollDecision, TimeoutDecision, Expired, AcsAnswer;
  }

  lemma StepGrows(p: Params, s: Sys, l: Label, s': Sys)
    requires Step(p, s, l, s')
    ensures Grows(s.hist, s'.hist)
  {
    hide SmtpNext, WorkerNext, Image, Apply, LoadNode, CorruptRecord, RecoveredRecord, Storable, Confined;
    match l
    case Smtp(id, step) => SmtpGrows(p, s, id, step, s');
    case Work(step) => WorkerGrows(p, s, step, s');
    case _ =>
  }

  lemma {:induction false} RunGrows(p: Params, run: Run, i: nat, j: nat)
    requires ValidRun(p, run) && i <= j < |run.states|
    ensures Grows(run.states[i].hist, run.states[j].hist)
    decreases j - i
  {
    hide Step, Init;
    if i < j {
      StepGrows(p, run.states[i], run.labels[i], run.states[i + 1]);
      RunGrows(p, run, i + 1, j);
    }
  }

  // ---- durability ----

  /**
   At every point of every run, a committed row whose insert did not report an error has its complete payload:
   it loads to the message of its Enqueue, and would still do so if the machine crashed here and the payload
   tree came back as any of its possible images.
   */
  lemma CommittedRowLoads(p: Params, run: Run, i: nat, id: string, after: Node)
    requires ValidRun(p, run) && i < |run.states|
    requires id in run.states[i].rows && id !in run.states[i].hist.withdrawn
    requires Image(run.states[i].disk.payloads, after)
    ensures id in run.states[i].hist.issued
    ensures var found := Loaded(Normal(run.states[i].hist.issued[id]));
            && LoadNode(p.codec, Find(run.states[i].disk.payloads, id)) == found
            && LoadNode(p.codec, Find(after, id)) == found
  {
    hide Inv, RInv, Step, Init, LoadNode, Normal, Image, RowsMove, PayloadNode, Canonical;
    var s := run.states[i];
    RInvAlways(p, run, i);
    LoadVerdict(p, s, id);
    InvAt(p, s, id);
    SafeSurvives(p.codec, s.hist.issued[id], s.disk.payloads, after, id);
  }

  /**
   Once HandleMessage has returned nil, the message has its row for ever, its payload stays in place and loads to
   the stored message, and no step condemns it as corrupt.
   */
  lemma AcknowledgedForever(p: Params, run: Run, i: nat, j: nat, id: string)
    requires ValidRun(p, run) && i <= j < |run.states| && id in run.states[i].hist.acked
    ensures id in run.states[i].hist.issued && id in run.states[j].rows
    ensures Find(run.states[j].disk.payloads, id) == Some(PayloadNode(p.codec, run.states[i].hist.issued[id]))
    ensures LoadNode(p.codec, Find(run.states[j].disk.payloads, id)) == Loaded(Normal(run.states[i].hist.issued[id]))
    ensures id !in run.states[j].hist.condemned
  {
    hide Inv, Step, Init, LoadNode, Normal, RowsMove, PayloadNode, Canonical;
    RInvAlways(p, run, i);
    RInvAlways(p, run, j);
    RunGrows(p, run, i, j);
    InvAt(p, run.states[i], id);
    InvAt(p, run.states[j], id);
    LoadVerdict(p, run.states[j], id);
    hide RInv;
    assert HistoryOk(p, run.states[j]);
  }

  /** No start-up ever moves or removes the payload of a row from payloads/. */
  lemma RowsAreNotQuarantined(p: Params, run: Run, i: nat)
    requires ValidRun(p, run) && i < |run.labels| && run.labels[i].Proc?
    ensures var l := run.labels[i].step;
            l.QuarantineMove? || l.QuarantineRemove? || l.SweepPayloads? ==> l.name !in run.states[i].rows
  {
    hide Inv, RInv, SmtpNext, WorkerNext, Canonical, Confined, RowsMove, Init;
    var s := run.states[i];
    assert Step(p, s, run.labels[i], run.states[i + 1]);
    InvAlways(p, run, i);
    InvRest(p, s);
    var l := run.labels[i].step;
    if l.SweepPayloads? && l.name in s.rows { CanonicalIsNoScratchName(l.name); }
  }

  // ---- submissions ----

  /** Attempts bound the calls of Submit from both sides, and the configured budget bounds the attempts. */
  lemma SubmitAccounting(p: Params, run: Run, i: nat, id: string)
    requires ValidRun(p, run) && i < |run.states|
    ensures var s := run.states[i];
            var calls, requeues := Count(s.hist.submits, id), Count(s.hist.requeues, id);
            && (id !in s.rows ==> calls == 0)
            && (id in s.rows ==>
                  var r := s.rows[id];
                  && r.attempt <= calls <= r.attempt + requeues + (if r.state == Working then 1 else 0)
                  && r.attempt <= p.worker.retryAttempts + 1
                  && (r.state == Queued || r.state == Working ==> r.attempt <= p.worker.retryAttempts))
            && calls <= p.worker.retryAttempts + 1 + requeues
  {
    hide Inv, Step, Init, RowsMove, Storable, AtRest, HistoryOk, WorkerOk, WorkingOk, TodoOk;
    RInvAlways(p, run, i);
    assert CountsOk(run.states[i], id);
  }

  /** The worker submits a working row, never an accepted one. */
  lemma SubmitIsNotAccepted(p: Params, s: Sys, a: Answer, s': Sys, id: string)
    requires RInv(p, s) && WorkerNext(p, s, Submit(a), s') && id in s.hist.accepted
    ensures s.proc.worker.Ready? && s.proc.worker.id != id
    ensures s'.hist.submits == Incremented(s.hist.submits, s.proc.worker.id)
  {
    hide SubmitDecision, AcsAnswer, RowOk, DecisionOk, Normal, CountsOk, TodoOk, WorkingOk;
  }

  lemma WorkerViewSame(p: Params, s: Sys, l: WorkerStep, s': Sys)
    requires WorkerNext(p, s, l, s') && !l.Submit?
    ensures s'.hist.submits == s.hist.submits
  {
    hide CorruptRecord, RequeuedRecord, ClaimedRecord, Marked, Storable, LoadNode, FirstDue, NoneDue, PollDecision,
         TimeoutDecision, Expired;
  }

  lemma AcceptedStays(p: Params, s: Sys, l: Label, s': Sys, id: string)
    requires RInv(p, s) && Step(p, s, l, s') && id in s.hist.accepted
    ensures Count(s'.hist.submits, id) == Count(s.hist.submits, id)
  {
    hide RInv, SmtpNext, WorkerNext, Image, Apply, LoadNode, CorruptRecord, RecoveredRecord, Storable, Confined;
    if l.Smtp? {
      SmtpViewSame(p, s, l.id, l.smtp, s');
    } else if l.Work? && l.work.Submit? {
      SubmitIsNotAccepted(p, s, l.work.answer, s', id);
    } else if l.Work? {
      WorkerViewSame(p, s, l.work, s');
    }
  }

  lemma SmtpViewSame(p: Params, s: Sys, id: string, l: SmtpStep, s': Sys)
    requires SmtpNext(p, s, id, l, s')
    ensures s'.hist.submits == s.hist.submits
  {
    hide Canonical, PlanOf, WellNamed, NodeOf, TmpNames, Apply, Confined, NewRecord, Storable, StageName,
         PublishTempName;
  }

  /** A submission the provider accepted, once recorded, is never made again. */
  lemma {:induction false} NeverSubmittedAgain(p: Params, run: Run, i: nat, j: nat, id: string)
    requires ValidRun(p, run) && i <= j < |run.states| && id in run.states[i].hist.accepted
    ensures Count(run.states[j].hist.submits, id) == Count(run.states[i].hist.submits, id)
    ensures id in run.states[j].rows && run.states[j].rows[id].state in {Submitted, Succeeded, DeadLetter}
    decreases j - i
  {
    hide Inv, Step, Init, RowsMove, RowOk, CountsOk, WorkerOk, WorkingOk, TodoOk;
    RInvAlways(p, run, i);
    if i < j {
      AcceptedStays(p, run.states[i], run.labels[i], run.states[i + 1], id);
      StepGrows(p, run.states[i], run.labels[i], run.states[i + 1]);
      NeverSubmittedAgain(p, run, i + 1, j, id);
    }
  }

  /** Whatever Submit is given is the message of the Enqueue with that identifier. */
  lemma SubmitsTheEnqueuedMessage(p: Params, run: Run, i: nat, id: string, m: Message)
    requires ValidRun(p, run) && i < |run.states| && (id, m) in run.states[i].hist.sent
    ensures id in run.states[i].hist.issued && m == Normal(run.states[i].hist.issued[id])
  {
    hide Inv, Step, Init, RowsMove, RowOk, CountsOk, WorkerOk, WorkingOk, TodoOk, Normal;
    RInvAlways(p, run, i);
    assert HistoryOk(p, run.states[i]);
  }

  // ---- polls ----

  /** Every poll belongs to a pass that began before the deadline; with ACS it asks for the record's own identifier. */
  lemma PollsAreInTime(p: Params, run: Run, i: nat, e: PollEvent)
    requires ValidRun(p, run) && i < |run.states| && e in run.states[i].hist.polls
    ensures e.passTime < e.firstSubmitted + p.worker.submittedTimeout
    ensures p.acs ==> e.operationID == e.id
  {
    hide Inv, Step, Init, RowsMove, RowOk, CountsOk, WorkerOk, WorkingOk, TodoOk;
    RInvAlways(p, run, i);
    assert HistoryOk(p, run.states[i]);
  }

  /** A poll step asks with the operation and first submission time of a row that is submitted at that moment. */
  lemma PollsSubmittedRows(p: Params, run: Run, i: nat)
    requires ValidRun(p, run) && i < |run.labels| && run.labels[i].Work? && run.labels[i].work.Poll?
    ensures exists id, now ::
              && id in run.states[i].rows && run.states[i].rows[id].state == Submitted
              && run.states[i].rows[id].firstSubmitted != ZERO_TIME
              && run.states[i + 1].hist.polls == run.states[i].hist.polls
                   + {PollEvent(id, run.states[i].rows[id].operationID, now, run.states[i].rows[id].firstSubmitted,
                                run.states[i].clock)}
  {
    hide Inv, Init, RowsMove, CountsOk, WorkingOk, TodoOk, HistoryOk, Storable, AtRest, DecisionOk, PollDecision,
         Expired, SmtpNext, ProcessNext;
    RInvAlways(p, run, i);
    var s := run.states[i];
    assert Step(p, s, run.labels[i], run.states[i + 1]);
    var w := s.proc.worker;
    assert RowOk(p, w.id, s.rows[w.id]);
  }

  /** A submitted row picked at or past its deadline is not polled: the pass can only dead-letter it, or stop. */
  lemma ExpiredIsDeadLettered(p: Params, run: Run, i: nat)
    requires ValidRun(p, run) && i < |run.labels| && run.labels[i].Work? && !run.labels[i].work.Stop?
    requires run.states[i].proc.Up? && run.states[i].proc.worker.Picked?
    requires var w := run.states[i].proc.worker; w.rec.firstSubmitted + p.worker.submittedTimeout <= w.now
    ensures var w := run.states[i].proc.worker;
            && run.labels[i].work.Expire?
            && run.states[i + 1].proc.Up? && run.states[i + 1].proc.worker.Finalizing?
            && run.states[i + 1].proc.worker.decision.mark.MarkDeadLetter? && run.states[i + 1].proc.worker.id == w.id
  {
    hide Inv, Init, RowsMove, CountsOk, WorkingOk, TodoOk, HistoryOk, Storable, AtRest, DecisionOk, PollDecision,
         SmtpNext, ProcessNext;
    RInvAlways(p, run, i);
    var s := run.states[i];
    assert Step(p, s, run.labels[i], run.states[i + 1]);
    assert RowOk(p, s.proc.worker.id, s.proc.worker.rec);
  }

  /** Before its deadline it can only be polled. */
  lemma PolledBeforeDeadline(p: Params, run: Run, i: nat)
    requires ValidRun(p, run) && i < |run.labels| && run.labels[i].Work? && !run.labels[i].work.Stop?
    requires run.states[i].proc.Up? && run.states[i].proc.worker.Picked?
    ensures var w := run.states[i].proc.worker;
            run.labels[i].work.Poll? <==> w.now < w.rec.firstSubmitted + p.worker.submittedTimeout
  {
    hide Inv, Init, RowsMove, CountsOk, WorkingOk, TodoOk, HistoryOk, Storable, AtRest, DecisionOk, PollDecision,
         TimeoutDecision, SmtpNext, ProcessNext;
    RInvAlways(p, run, i);
    var s := run.states[i];
    assert Step(p, s, run.labels[i], run.states[i + 1]);
    assert RowOk(p, s.proc.worker.id, s.proc.worker.rec);
  }

  // ---- the state graph ----

  /** What may have happened to a row in the meantime. */
  ghost predicate Later(r: Record, r': Record) {
    && r'.created == r.created && r.attempt <= r'.attempt
    && (r.state == Succeeded || r.state == DeadLetter ==> r' == r)
    && (r.state == Submitted ==>
          && r'.state in {Submitted, Succeeded, DeadLetter} && r'.attempt == r.attempt
          && (r'.state == Submitted ==> r'.firstSubmitted == r.firstSubmitted && r'.operationID == r.operationID))
  }

  /** Rows are never lost; terminal rows never change; submitted rows never go back; attempts never fall. */
  lemma {:induction false} RowsFollowTheStateGraph(p: Params, run: Run, i: nat, j: nat, id: string)
    requires ValidRun(p, run) && i <= j < |run.states| && id in run.states[i].rows
    ensures id in run.states[j].rows && Later(run.states[i].rows[id], run.states[j].rows[id])
    decreases j - i
  {
    hide Inv, RInv, Step, Init;
    if i < j {
      RInvAlways(p, run, i + 1);
      RowsFollowTheStateGraph(p, run, i + 1, j, id);
    }
  }

  /** One step changes a row along an edge of the graph, if at all. */
  lemma StepsAreEdges(p: Params, run: Run, i: nat, id: string)
    requires ValidRun(p, run) && i < |run.labels| && id in run.states[i].rows
    ensures id in run.states[i + 1].rows
    ensures || run.states[i + 1].rows[id] == run.states[i].rows[id]
            || Edge(run.states[i].rows[id], run.states[i + 1].rows[id])
  {
    hide Inv, RInv, Step, Init, Edge;
    RInvAlways(p, run, i + 1);
  }

  /** Queued and working rows carry no provider operation; submitted rows know when they were first submitted. */
  lemma OperationData(p: Params, run: Run, i: nat, id: string)
    requires ValidRun(p, run) && i < |run.states| && id in run.states[i].rows
    ensures var r := run.states[i].rows[id];
            && (r.state == Queued || r.state == Working ==>
                  && r.operationID == "" && r.operationLocation == "" && r.providerMessageID == ""
                  && r.firstSubmitted == ZERO_TIME)
            && (r.state == Submitted ==> r.firstSubmitted >= MILLISECOND)
            && (r.state == Submitted && p.acs ==> r.operationID == id)
            && MeetsConstraints(Encode(id, r)) && Scan(Encode(id, r)) == Some((id, r))
  {
    hide Inv, Step, Init, RowsMove, CountsOk, WorkerOk, WorkingOk, TodoOk, HistoryOk, AtRest, MeetsConstraints, Encode,
         Scan, Canonical;
    RInvAlways(p, run, i);
    InvCanonical(p, run.states[i], id);
    RowRoundTrip(id, run.states[i].rows[id]);
  }

  /** At most one row is working, none at the head of the worker's loop, none once recovery has rewritten the table. */
  lemma OneWorkingRow(p: Params, run: Run, i: nat, a: string)
    requires ValidRun(p, run) && i < |run.states| && a in run.states[i].rows && run.states[i].rows[a].state == Working
    ensures forall b | b in run.states[i].rows && run.states[i].rows[b].state == Working :: b == a
    ensures var proc := run.states[i].proc;
            && !proc.Recovering? && !proc.Quarantining?
            && (proc.Up? ==>
                  !proc.worker.Idle? && !proc.worker.Polling? && !proc.worker.Picked? && !proc.worker.Claiming?)
            && (proc.Up? && !proc.worker.Stopped? ==> proc.worker.id == a && proc.worker.rec == run.states[i].rows[a])
  {
    hide Inv, Step, Init, RowsMove, RowOk, CountsOk, TodoOk, HistoryOk, DecisionOk, Normal;
    RInvAlways(p, run, i);
  }

  // ---- bounds and start-up ----

  lemma InflightBound(p: Params, run: Run, i: nat)
    requires ValidRun(p, run) && i < |run.states|
    ensures |run.states[i].enq| <= p.maxInflight
  {
    hide Inv, Step, Init;
    InvAlways(p, run, i);
    InvAt(p, run.states[i], "");
  }

  predicate Tidying(proc: Process) { proc.Swept? || proc.Recovering? || proc.Quarantining? }

  ghost predicate OnlyRecords(d: Node) {
    d.Dir? && forall k | k in d.ents :: Canonical(k) && d.ents[k].Dir?
  }

  predicate Empty(d: Node) { d.Dir? && d.ents == map[] }

  lemma EmptyStays(p: Params, s: Sys, l: Label, s': Sys)
    requires Step(p, s, l, s') && Tidying(s'.proc) && (Tidying(s.proc) ==> Empty(s.disk.staging))
    ensures Empty(s'.disk.staging)
  {
    hide SmtpNext, WorkerNext, LoadNode, CorruptRecord, RecoveredRecord, Storable, Apply, Image, Confined;
    if l.Smtp? {
      SmtpQuiet(p, s, l.id, l.smtp, s');
      SmtpIsUp(p, s, l.id, l.smtp, s');
    } else if l.Work? {
      WorkerQuiet(p, s, l.work, s');
    }
  }

  lemma TidyStays(p: Params, s: Sys, l: Label, s': Sys)
    requires Inv(p, s) && Step(p, s, l, s') && Tidying(s'.proc) && (Tidying(s.proc) ==> OnlyRecords(s.disk.payloads))
    ensures OnlyRecords(s'.disk.payloads)
  {
    hide Inv, SmtpNext, WorkerNext, LoadNode, CorruptRecord, RecoveredRecord, Storable, Canonical, Apply, Plain, Below,
         Image;
    InvAt(p, s, "");
    if l.Smtp? {
      SmtpQuiet(p, s, l.id, l.smtp, s');
      SmtpIsUp(p, s, l.id, l.smtp, s');
    } else if l.Work? {
      WorkerQuiet(p, s, l.work, s');
    } else if l.Proc? && l.step.SweepDone? {
      forall k | k in s.disk.payloads.ents ensures Canonical(k) && s.disk.payloads.ents[k].Dir? {
        assert NodeOk(p.codec, s.hist.issued, k, s.disk.payloads.ents[k]);
        InvAt(p, s, k);
      }
    } else if l.Proc? && l.step.QuarantineRemove? {
      RemovedStaysTidy(s.disk.payloads, l.step.op, l.step.name);
    }
  }

  lemma SmtpIsUp(p: Params, s: Sys, id: string, l: SmtpStep, s': Sys)
    requires SmtpNext(p, s, id, l, s')
    ensures s.proc.Up?
  {
    hide Canonical, PlanOf, WellNamed, NodeOf, TmpNames, Apply, Confined, NewRecord, Storable, StageName,
         PublishTempName;
  }

  lemma RemovedStaysTidy(d: Node, op: Op, name: Name)
    requires OnlyRecords(d) && Confined(op, name)
    ensures OnlyRecords(Apply(d, op))
  {
    hide Canonical;
    ConfinedApply(d, op, name);
  }

  /**
   Whatever crash came before, once start-up has swept the scratch directories the payload directory holds nothing
   but directories named by canonical identifiers, so the orphan scan finds no name it would stop on.
   */
  lemma {:induction false} SweptTreeIsTidy(p: Params, run: Run, i: nat)
    requires ValidRun(p, run) && i < |run.states| && Tidying(run.states[i].proc)
    ensures OnlyRecords(run.states[i].disk.payloads) && Empty(run.states[i].disk.staging)
  {
    hide Inv, Step, OnlyRecords;
    if i > 0 {
      InvAlways(p, run, i - 1);
      if Tidying(run.states[i - 1].proc) { SweptTreeIsTidy(p, run, i - 1); }
      TidyStays(p, run.states[i - 1], run.labels[i - 1], run.states[i]);
      EmptyStays(p, run.states[i - 1], run.labels[i - 1], run.states[i]);
    }
  }

  ghost predicate PayloadsOfRowsOnly(s: Sys) {
    s.disk.payloads.Dir? && forall k | k in s.disk.payloads.ents :: k in s.rows
  }

  ghost predicate NoneWorking(rows: Table) { forall id | id in rows :: rows[id].state != Working }

  /** When the relay starts to serve, payloads/ holds directories of rows only, and no row is working. */
  lemma ServesOnlyRows(p: Params, run: Run, i: nat)
    requires ValidRun(p, run) && i < |run.labels| && run.labels[i] == Proc(Serve)
    ensures PayloadsOfRowsOnly(run.states[i + 1]) && NoneWorking(run.states[i + 1].rows)
  {
    hide Inv, RInv, SmtpNext, WorkerNext, RowsMove, Init;
    var s := run.states[i];
    assert Step(p, s, run.labels[i], run.states[i + 1]);
    RInvAlways(p, run, i);
    InvRest(p, s);
    assert WorkingOk(s.rows, s.proc) by { WorkingPart(p, s); }
  }

  lemma WorkingPart(p: Params, s: Sys)
    requires RInv(p, s)
    ensures WorkingOk(s.rows, s.proc)
  {}
}
