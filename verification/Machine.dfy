/**
 The relay as a step machine: SMTP enqueues, the delivery worker, start-up recovery, the two stores they
 share, and everything that can go wrong between any two steps.

 One step is one system call on the payload tree, one SQLite transaction, one provider call, or one
 reading of the clock. The history records what the provider and the SMTP clients have seen.
 */
module Machine {
  import opened Options
  import opened Text
  import opened Ids
  import opened Disk
  import opened Payload
  import opened Rows
  import opened Delivery

  datatype Params = Params(codec: Codec, worker: WorkerConfig, maxInflight: nat, acs: bool)
  {
    ghost predicate Valid() { codec.Faithful() && worker.Valid() }
  }

  // ---- state ----

  datatype Disks = Disks(staging: Node, payloads: Node, orphans: Node)

  datatype Phase =
    | Entered                                  // has its identifier and its time, nothing on disk yet
    | Staging(tmps: seq<Name>, done: nat)      // writing the staging directory
    | Copying(items: seq<Item>, done: nat)     // cross-device: writing the publish temporary
    | Placed                                   // the payload has its final name
    | Durable                                  // and payloads/ is synced
    | Inserted                                 // the row is committed and Enqueue knows
    | Removing                                 // the insert reported an error
    | Failed

  /** A running `HandleMessage` that has its slot. */
  datatype Enqueue = Enqueue(msg: Message, start: int, stageSuffix: string, tempSuffix: string, phase: Phase)

  datatype Worker =
    | Idle                                                     // loop head
    | Polling(now: int)                                        // about to query submitted records
    | Picked(id: string, rec: Record, now: int)
    | Claiming(now: int)
    | Claimed(id: string, rec: Record, now: int)               // about to load the payload
    | Condemned(id: string, rec: Record, now: int, cause: string)
    | Unreadable(id: string, rec: Record, now: int)
    | Ready(id: string, rec: Record, msg: Message, now: int)   // about to submit
    | Finalizing(id: string, rec: Record, decision: Decision, now: int)
    | Stopped

  datatype Process =
    | Down
    | Sweeping
    | Swept(now: int)
    | Recovering(todo: seq<string>, valid: set<string>)
    | Quarantining(valid: set<string>)
    | Up(worker: Worker)

  /** A call of Poll: for which row, in a pass begun when, made when. */
  datatype PollEvent = PollEvent(id: string, operationID: string, passTime: int, firstSubmitted: int, at: int)

  datatype History = History(
    issued: map<string, Message>,      // every message an Enqueue was started for
    acked: set<string>,                // HandleMessage returned nil
    withdrawn: set<string>,            // Enqueue has begun to remove the payload of a committed row
    condemned: set<string>,            // dead-lettered as corrupt
    accepted: set<string>,             // finalised as running or succeeded
    submits: map<string, nat>,         // calls of Submit
    requeues: map<string, nat>,        // recoveries that put the row back
    sent: set<(string, Message)>,      // what Submit was given
    polls: set<PollEvent>)

  datatype Sys = Sys(disk: Disks, rows: Table, enq: map<string, Enqueue>, proc: Process, clock: int, hist: History)

  function Count(m: map<string, nat>, id: string): nat { if id in m then m[id] else 0 }

  function Incremented(m: map<string, nat>, id: string): map<string, nat> { m[id := Count(m, id) + 1] }

  function Find(d: Node, k: Name): Option<Node> {
    if d.Dir? && k in d.ents then Some(d.ents[k]) else None
  }

  function StageOf(id: string, e: Enqueue): Name { StageName(id, e.stageSuffix) }
  function TempOf(id: string, e: Enqueue): Name { PublishTempName(id, e.tempSuffix) }

  // ---- labels ----

  /** COMMIT can take effect and still report an error. */
  datatype TxOutcome = RolledBack | Committed | CommittedUnreported

  datatype SmtpStep =
    | Begin(msg: Message)
    | MakeStage(stageSuffix: string, tmps: seq<Name>)
    | StageCall
    | Publish
    | MakeTemp(tempSuffix: string, items: seq<Item>)
    | CopyCall
    | PublishTemp
    | SyncPayloads
    | Insert(outcome: TxOutcome)
    | Acknowledge
    | Abandon                                   // Save returns an error
    | CleanStage(op: Op)
    | CleanTemp(op: Op)
    | Withdraw(op: Op)                          // Remove after a failed insert
    | Return

  datatype WorkerStep =
    | BeginPass
    | PickSubmitted(id: string)
    | NoSubmitted
    | Expire
    | Poll(answer: Answer)
    | Claim(id: string, outcome: TxOutcome)
    | ClaimNothing
    | LoadGood
    | LoadCorrupt(cause: string)
    | DeadLetterCorrupt(outcome: TxOutcome)
    | LoadError
    | Requeue(outcome: TxOutcome)
    | Submit(answer: Answer)
    | Finalize(outcome: TxOutcome)
    | Stop

  datatype ProcessStep =
    | Crash(after: Disks)
    | Exit
    | Start
    | SweepStaging(op: Op)
    | SweepPayloads(name: Name, op: Op)
    | SweepDone
    | RecoverTable(todo: seq<string>, outcome: TxOutcome)
    | RecoverGood
    | RecoverCorrupt(cause: string, outcome: TxOutcome)
    | RecoverDone
    | QuarantineMove(name: Name, target: Name)
    | QuarantineCopy(orphans: Node)
    | QuarantineRemove(name: Name, op: Op)
    | Serve

  datatype Label =
    | Smtp(id: string, smtp: SmtpStep)
    | Work(work: WorkerStep)
    | Proc(step: ProcessStep)
    | Flush(staging: bool, payloads: bool, orphans: bool)   // the system may write back at any time
    | Tick(to: int)

  // ---- steps ----

  function Written(rows: Table, id: string, r: Record, outcome: TxOutcome): Table {
    if outcome == RolledBack then rows else rows[id := r]
  }

  /** A row can be committed only if the table's constraints allow it. */
  predicate MayWrite(r: Record, outcome: TxOutcome) { outcome != RolledBack ==> Storable(r) }

  // SMTP side. Every step of thread `id` but the first finds its thread and the two directories.

  ghost predicate Live(s: Sys, id: string) {
    s.proc.Up? && s.disk.staging.Dir? && s.disk.payloads.Dir? && id in s.enq
  }

  function InPhase(s: Sys, id: string, phase: Phase): map<string, Enqueue>
    requires id in s.enq
  {
    s.enq[id := s.enq[id].(phase := phase)]
  }

  ghost predicate DoBegin(p: Params, s: Sys, id: string, msg: Message, s': Sys) {
    && s.proc.Up? && |s.enq| < p.maxInflight
    && Canonical(id) && id !in s.hist.issued
    && s' == s.(enq := s.enq[id := Enqueue(msg, s.clock, "", "", Entered)],
                hist := s.hist.(issued := s.hist.issued[id := msg]))
  }

  ghost predicate DoMakeStage(s: Sys, id: string, suffix: string, tmps: seq<Name>, s': Sys) {
    && Live(s, id) && s.enq[id].phase.Entered?
    && |tmps| == |s.enq[id].msg.attachments| + 1 && TmpNames(tmps)
    && StageName(id, suffix) !in s.disk.staging.ents
    && s' == s.(disk := s.disk.(staging := Put(s.disk.staging, StageName(id, suffix), EMPTY_DIR)),
                enq := s.enq[id := s.enq[id].(stageSuffix := suffix, phase := Staging(tmps, 0))])
  }

  function PlanOf(p: Params, e: Enqueue): seq<Op> {
    match e.phase
    case Staging(tmps, _) => if |tmps| == |e.msg.attachments| + 1 then StagePlan(p.codec, e.msg, tmps) else []
    case Copying(items, _) => CopyPlan(items)
    case _ => []
  }

  ghost predicate DoStageCall(p: Params, s: Sys, id: string, s': Sys) {
    && Live(s, id) && s.enq[id].phase.Staging?
    && var e := s.enq[id];
       var stage := StageOf(id, e);
       && stage in s.disk.staging.ents && e.phase.done < |PlanOf(p, e)|
       && s' == s.(disk := s.disk.(staging := Within(s.disk.staging, stage,
                                                     Apply(s.disk.staging.ents[stage], PlanOf(p, e)[e.phase.done]))),
                   enq := InPhase(s, id, Staging(e.phase.tmps, e.phase.done + 1)))
  }

  ghost predicate StageComplete(p: Params, s: Sys, id: string) {
    && Live(s, id) && s.enq[id].phase.Staging?
    && StageOf(id, s.enq[id]) in s.disk.staging.ents
    && s.enq[id].phase.done == |PlanOf(p, s.enq[id])|
  }

  ghost predicate DoPublish(p: Params, s: Sys, id: string, s': Sys) {
    && StageComplete(p, s, id) && id !in s.disk.payloads.ents
    && var stage := StageOf(id, s.enq[id]);
       s' == s.(disk := s.disk.(staging := Drop(s.disk.staging, stage),
                                payloads := Put(s.disk.payloads, id, s.disk.staging.ents[stage])),
                enq := InPhase(s, id, Placed))
  }

  ghost predicate DoMakeTemp(p: Params, s: Sys, id: string, suffix: string, items: seq<Item>, s': Sys) {
    && StageComplete(p, s, id) && PublishTempName(id, suffix) !in s.disk.payloads.ents
    && WellNamed(items) && NodeOf(Folder(items)) == s.disk.staging.ents[StageOf(id, s.enq[id])]
    && s' == s.(disk := s.disk.(payloads := Put(s.disk.payloads, PublishTempName(id, suffix), EMPTY_DIR)),
                enq := s.enq[id := s.enq[id].(tempSuffix := suffix, phase := Copying(items, 0))])
  }

  ghost predicate DoCopyCall(p: Params, s: Sys, id: string, s': Sys) {
    && Live(s, id) && s.enq[id].phase.Copying?
    && var e := s.enq[id];
       var temp := TempOf(id, e);
       && temp in s.disk.payloads.ents && e.phase.done < |PlanOf(p, e)|
       && s' == s.(disk := s.disk.(payloads := Within(s.disk.payloads, temp,
                                                      Apply(s.disk.payloads.ents[temp], PlanOf(p, e)[e.phase.done]))),
                   enq := InPhase(s, id, Copying(e.phase.items, e.phase.done + 1)))
  }

  ghost predicate DoPublishTemp(p: Params, s: Sys, id: string, s': Sys) {
    && Live(s, id) && s.enq[id].phase.Copying?
    && var e := s.enq[id];
       var temp := TempOf(id, e);
       && temp in s.disk.payloads.ents && e.phase.done == |PlanOf(p, e)| && id !in s.disk.payloads.ents
       && s' == s.(disk := s.disk.(payloads := Drop(Put(s.disk.payloads, id, s.disk.payloads.ents[temp]), temp)),
                   enq := InPhase(s, id, Placed))
  }

  ghost predicate DoSyncPayloads(s: Sys, id: string, s': Sys) {
    && Live(s, id) && s.enq[id].phase.Placed?
    && s' == s.(disk := s.disk.(payloads := Synced(s.disk.payloads)), enq := InPhase(s, id, Durable))
  }

  ghost predicate DoInsert(s: Sys, id: string, outcome: TxOutcome, s': Sys) {
    && Live(s, id) && s.enq[id].phase.Durable?
    && var r := NewRecord(s.enq[id].start);
       && MayWrite(r, outcome) && (outcome != RolledBack ==> id !in s.rows)
       && s' == s.(rows := Written(s.rows, id, r, outcome),
                   enq := InPhase(s, id, if outcome == Committed then Inserted else Removing))
  }

  ghost predicate DoAcknowledge(s: Sys, id: string, s': Sys) {
    && Live(s, id) && s.enq[id].phase.Inserted?
    && s' == s.(enq := s.enq - {id}, hist := s.hist.(acked := s.hist.acked + {id}))
  }

  /** `Save` returns an error. */
  ghost predicate DoAbandon(s: Sys, id: string, s': Sys) {
    && Live(s, id) && !s.enq[id].phase.Inserted? && !s.enq[id].phase.Removing?
    && s' == s.(enq := InPhase(s, id, Failed))
  }

  /** Removal of the staging directory: after an error, or once the cross-device copy is in place. */
  ghost predicate DoCleanStage(s: Sys, id: string, op: Op, s': Sys) {
    && Live(s, id) && !s.enq[id].phase.Entered? && !s.enq[id].phase.Staging? && !s.enq[id].phase.Copying?
    && Confined(op, StageOf(id, s.enq[id]))
    && s' == s.(disk := s.disk.(staging := Apply(s.disk.staging, op)))
  }

  ghost predicate DoCleanTemp(s: Sys, id: string, op: Op, s': Sys) {
    && Live(s, id) && s.enq[id].phase.Failed? && Confined(op, TempOf(id, s.enq[id]))
    && s' == s.(disk := s.disk.(payloads := Apply(s.disk.payloads, op)))
  }

  /** The row may have been committed all the same; from the first removal call on its payload is lost. */
  function Withdrawing(s: Sys, id: string): History {
    if id in s.rows then s.hist.(withdrawn := s.hist.withdrawn + {id}) else s.hist
  }

  /** `Remove` after a failed insert. */
  ghost predicate DoWithdraw(s: Sys, id: string, op: Op, s': Sys) {
    && Live(s, id) && s.enq[id].phase.Removing? && Confined(op, id)
    && s' == s.(disk := s.disk.(payloads := Apply(s.disk.payloads, op)), hist := Withdrawing(s, id))
  }

  ghost predicate DoReturn(s: Sys, id: string, s': Sys) {
    && Live(s, id) && (s.enq[id].phase.Removing? || s.enq[id].phase.Failed?)
    && s' == s.(enq := s.enq - {id})
  }

  ghost predicate SmtpNext(p: Params, s: Sys, id: string, l: SmtpStep, s': Sys) {
    match l
    case Begin(msg) => DoBegin(p, s, id, msg, s')
    case MakeStage(suffix, tmps) => DoMakeStage(s, id, suffix, tmps, s')
    case StageCall => DoStageCall(p, s, id, s')
    case Publish => DoPublish(p, s, id, s')
    case MakeTemp(suffix, items) => DoMakeTemp(p, s, id, suffix, items, s')
    case CopyCall => DoCopyCall(p, s, id, s')
    case PublishTemp => DoPublishTemp(p, s, id, s')
    case SyncPayloads => DoSyncPayloads(s, id, s')
    case Insert(outcome) => DoInsert(s, id, outcome, s')
    case Acknowledge => DoAcknowledge(s, id, s')
    case Abandon => DoAbandon(s, id, s')
    case CleanStage(op) => DoCleanStage(s, id, op, s')
    case CleanTemp(op) => DoCleanTemp(s, id, op, s')
    case Withdraw(op) => DoWithdraw(s, id, op, s')
    case Return => DoReturn(s, id, s')
  }

  // Worker.

  ghost predicate DoPickSubmitted(s: Sys, w: Worker, id: string, s': Sys) {
    && w.Polling? && FirstDue(s.rows, Submitted, w.now, id)
    && s' == s.(proc := Up(Picked(id, s.rows[id], w.now)))
  }

  ghost predicate DoNoSubmitted(s: Sys, w: Worker, s': Sys) {
    && w.Polling? && NoneDue(s.rows, Submitted, w.now)
    && s' == s.(proc := Up(Claiming(w.now)))
  }

  ghost predicate DoExpire(p: Params, s: Sys, w: Worker, s': Sys) {
    && w.Picked? && Expired(p.worker, w.rec, w.now)
    && s' == s.(proc := Up(Finalizing(w.id, w.rec, TimeoutDecision(p.worker, w.rec, w.now), w.now)))
  }

  function Polled(h: History, e: PollEvent): History { h.(polls := h.polls + {e}) }

  ghost predicate DoPoll(p: Params, s: Sys, w: Worker, a: Answer, s': Sys) {
    && w.Picked? && !Expired(p.worker, w.rec, w.now)
    && s' == s.(proc := Up(Finalizing(w.id, w.rec, PollDecision(p.worker, w.rec, w.now, a), w.now)),
                hist := Polled(s.hist, PollEvent(w.id, w.rec.operationID, w.now, w.rec.firstSubmitted, s.clock)))
  }

  ghost predicate DoClaim(s: Sys, w: Worker, id: string, outcome: TxOutcome, s': Sys) {
    && w.Claiming? && FirstDue(s.rows, Queued, w.now, id)
    && var r := ClaimedRecord(s.rows[id], s.clock);
       && MayWrite(r, outcome)
       && s' == s.(rows := Written(s.rows, id, r, outcome),
                   proc := Up(if outcome == Committed then Claimed(id, r, w.now) else Stopped))
  }

  ghost predicate DoClaimNothing(s: Sys, w: Worker, s': Sys) {
    && w.Claiming? && NoneDue(s.rows, Queued, w.now)
    && s' == s.(proc := Up(Idle))
  }

  ghost predicate DoLoadGood(p: Params, s: Sys, w: Worker, s': Sys) {
    && w.Claimed?
    && var found := LoadNode(p.codec, Find(s.disk.payloads, w.id));
       && found.Loaded?
       && s' == s.(proc := Up(Ready(w.id, w.rec, found.msg, w.now)))
  }

  ghost predicate DoLoadCorrupt(p: Params, s: Sys, w: Worker, cause: string, s': Sys) {
    && w.Claimed? && LoadNode(p.codec, Find(s.disk.payloads, w.id)) == Corrupt
    && s' == s.(proc := Up(Condemned(w.id, w.rec, w.now, cause)))
  }

  ghost predicate DoDeadLetterCorrupt(s: Sys, w: Worker, outcome: TxOutcome, s': Sys) {
    && w.Condemned? && w.id in s.rows && s.rows[w.id].state == w.rec.state
    && var r := CorruptRecord(w.rec, w.cause, s.clock);
       && MayWrite(r, outcome)
       && s' == s.(rows := Written(s.rows, w.id, r, outcome),
                   proc := Up(if outcome == Committed then Claiming(w.now) else Stopped),
                   hist := s.hist.(condemned := s.hist.condemned + (if outcome == RolledBack then {} else {w.id})))
  }

  ghost predicate DoLoadError(s: Sys, w: Worker, s': Sys) {
    && w.Claimed?
    && s' == s.(proc := Up(Unreadable(w.id, w.rec, w.now)))
  }

  ghost predicate DoRequeue(s: Sys, w: Worker, outcome: TxOutcome, s': Sys) {
    && w.Unreadable? && w.id in s.rows && s.rows[w.id].state == w.rec.state
    && var r := RequeuedRecord(w.rec, s.clock);
       && MayWrite(r, outcome)
       && s' == s.(rows := Written(s.rows, w.id, r, outcome), proc := Up(Stopped))
  }

  ghost predicate DoSubmit(p: Params, s: Sys, w: Worker, a: Answer, s': Sys) {
    && w.Ready? && (p.acs ==> AcsAnswer(w.id, a))
    && s' == s.(proc := Up(Finalizing(w.id, w.rec, SubmitDecision(p.worker, w.rec, w.now, a), w.now)),
                hist := s.hist.(submits := Incremented(s.hist.submits, w.id), sent := s.hist.sent + {(w.id, w.msg)}))
  }

  /** The provider has the message and the table says so. */
  predicate Accepts(mark: Mark, outcome: TxOutcome) {
    outcome != RolledBack && (mark.MarkSubmitted? || mark.MarkSucceeded?)
  }

  function Recorded(h: History, id: string, accepted: bool): History {
    h.(accepted := h.accepted + (if accepted then {id} else {}))
  }

  ghost predicate DoFinalize(s: Sys, w: Worker, outcome: TxOutcome, s': Sys) {
    && w.Finalizing? && w.id in s.rows && s.rows[w.id].state == w.decision.record.state
    && var r := Marked(w.decision.record, w.decision.mark, s.clock);
       && r.Some? && MayWrite(r.value, outcome)
       && s' == s.(rows := Written(s.rows, w.id, r.value, outcome),
                   proc := Up(if outcome != Committed then Stopped
                              else if w.rec.state == Working then Idle else Claiming(w.now)),
                   hist := Recorded(s.hist, w.id, Accepts(w.decision.mark, outcome)))
  }

  ghost predicate WorkerNext(p: Params, s: Sys, l: WorkerStep, s': Sys) {
    s.proc.Up? &&
    var w := s.proc.worker;
    match l
    case BeginPass => w.Idle? && s' == s.(proc := Up(Polling(s.clock)))
    case PickSubmitted(id) => DoPickSubmitted(s, w, id, s')
    case NoSubmitted => DoNoSubmitted(s, w, s')
    case Expire => DoExpire(p, s, w, s')
    case Poll(a) => DoPoll(p, s, w, a, s')
    case Claim(id, outcome) => DoClaim(s, w, id, outcome, s')
    case ClaimNothing => DoClaimNothing(s, w, s')
    case LoadGood => DoLoadGood(p, s, w, s')
    case LoadCorrupt(cause) => DoLoadCorrupt(p, s, w, cause, s')
    case DeadLetterCorrupt(outcome) => DoDeadLetterCorrupt(s, w, outcome, s')
    case LoadError => DoLoadError(s, w, s')
    case Requeue(outcome) => DoRequeue(s, w, outcome, s')
    case Submit(a) => DoSubmit(p, s, w, a, s')
    case Finalize(outcome) => DoFinalize(s, w, outcome, s')
    case Stop => s' == s.(proc := Up(Stopped))
  }

  // Process: crashes, start-up, recovery.

  ghost predicate DoCrash(s: Sys, after: Disks, s': Sys) {
    && Image(s.disk.staging, after.staging) && Image(s.disk.payloads, after.payloads)
    && Image(s.disk.orphans, after.orphans)
    && s' == s.(disk := after, enq := map[], proc := Down)
  }

  ghost predicate DoSweepStaging(s: Sys, op: Op, s': Sys) {
    && s.proc.Sweeping? && op.call.Unlink?
    && s' == s.(disk := s.disk.(staging := Apply(s.disk.staging, op)))
  }

  ghost predicate DoSweepPayloads(s: Sys, name: Name, op: Op, s': Sys) {
    && s.proc.Sweeping? && HasPrefix(name, PUBLISH_PREFIX) && Confined(op, name)
    && s' == s.(disk := s.disk.(payloads := Apply(s.disk.payloads, op)))
  }

  ghost predicate DoSweepDone(s: Sys, s': Sys) {
    && s.proc.Sweeping? && s.disk.staging.Dir? && s.disk.staging.ents == map[]
    && s.disk.payloads.Dir? && (forall k | k in s.disk.payloads.ents :: !HasPrefix(k, PUBLISH_PREFIX))
    && s' == s.(proc := Swept(s.clock))
  }

  /** The table after the recovery transaction. */
  function RecoveredTable(rows: Table, now: int, clock: int): Table {
    map id | id in rows :: if rows[id].state == Working then RecoveredRecord(rows[id], now, clock) else rows[id]
  }

  function RequeuesAfter(rows: Table, requeues: map<string, nat>): map<string, nat> {
    map id | id in rows.Keys + requeues.Keys ::
      Count(requeues, id) + (if id in rows && rows[id].state == Working then 1 else 0)
  }

  ghost predicate DoRecoverTable(s: Sys, todo: seq<string>, outcome: TxOutcome, s': Sys) {
    && s.proc.Swept?
    && (forall id :: id in todo <==> id in s.rows && (s.rows[id].state == Working || s.rows[id].state == Submitted))
    && (forall i, j | 0 <= i < j < |todo| :: todo[i] != todo[j])
    && var rows := RecoveredTable(s.rows, s.proc.now, s.clock);
       && (outcome != RolledBack ==> forall id | id in rows && s.rows[id].state == Working :: Storable(rows[id]))
       && s' == s.(rows := if outcome == RolledBack then s.rows else rows,
                   proc := if outcome == Committed then Recovering(todo, s.rows.Keys) else Down,
                   hist := if outcome == RolledBack then s.hist
                           else s.hist.(requeues := RequeuesAfter(s.rows, s.hist.requeues)))
  }

  ghost predicate DoRecoverGood(p: Params, s: Sys, s': Sys) {
    && s.proc.Recovering? && s.proc.todo != []
    && LoadNode(p.codec, Find(s.disk.payloads, s.proc.todo[0])).Loaded?
    && s' == s.(proc := Recovering(s.proc.todo[1..], s.proc.valid))
  }

  ghost predicate DoRecoverCorrupt(p: Params, s: Sys, cause: string, outcome: TxOutcome, s': Sys) {
    && s.proc.Recovering? && s.proc.todo != [] && s.proc.todo[0] in s.rows
    && LoadNode(p.codec, Find(s.disk.payloads, s.proc.todo[0])) == Corrupt
    && var id := s.proc.todo[0];
       var r := CorruptRecord(s.rows[id], cause, s.clock);
       && MayWrite(r, outcome)
       && s' == s.(rows := Written(s.rows, id, r, outcome),
                   proc := if outcome == Committed then Recovering(s.proc.todo[1..], s.proc.valid) else Down,
                   hist := s.hist.(condemned := s.hist.condemned + (if outcome == RolledBack then {} else {id})))
  }

  ghost predicate DoQuarantineMove(s: Sys, name: Name, target: Name, s': Sys) {
    && s.proc.Quarantining? && s.disk.payloads.Dir? && s.disk.orphans.Dir?
    && name in s.disk.payloads.ents && name !in s.proc.valid && target !in s.disk.orphans.ents
    && s' == s.(disk := s.disk.(payloads := Drop(s.disk.payloads, name),
                                orphans := Put(s.disk.orphans, target, s.disk.payloads.ents[name])))
  }

  /** Cross-device: any progress, or clean-up, of the copy in the quarantine directory. */
  ghost predicate DoQuarantineCopy(s: Sys, orphans: Node, s': Sys) {
    && s.proc.Quarantining? && orphans.Dir?
    && s' == s.(disk := s.disk.(orphans := orphans))
  }

  ghost predicate DoQuarantineRemove(s: Sys, name: Name, op: Op, s': Sys) {
    && s.proc.Quarantining? && name !in s.proc.valid && Confined(op, name)
    && s' == s.(disk := s.disk.(payloads := Apply(s.disk.payloads, op)))
  }

  ghost predicate DoServe(s: Sys, s': Sys) {
    && s.proc.Quarantining? && s.disk.payloads.Dir?
    && (forall k | k in s.disk.payloads.ents :: k in s.proc.valid)
    && s' == s.(proc := Up(Idle))
  }

  ghost predicate ProcessNext(p: Params, s: Sys, l: ProcessStep, s': Sys) {
    match l
    case Crash(after) => DoCrash(s, after, s')
    case Exit => s' == s.(enq := map[], proc := Down)
    case Start => s.proc.Down? && s' == s.(proc := Sweeping)
    case SweepStaging(op) => DoSweepStaging(s, op, s')
    case SweepPayloads(name, op) => DoSweepPayloads(s, name, op, s')
    case SweepDone => DoSweepDone(s, s')
    case RecoverTable(todo, outcome) => DoRecoverTable(s, todo, outcome, s')
    case RecoverGood => DoRecoverGood(p, s, s')
    case RecoverCorrupt(cause, outcome) => DoRecoverCorrupt(p, s, cause, outcome, s')
    case RecoverDone =>
      && s.proc.Recovering? && s.proc.todo == []
      && s' == s.(proc := Quarantining(s.proc.valid))
    case QuarantineMove(name, target) => DoQuarantineMove(s, name, target, s')
    case QuarantineCopy(orphans) => DoQuarantineCopy(s, orphans, s')
    case QuarantineRemove(name, op) => DoQuarantineRemove(s, name, op, s')
    case Serve => DoServe(s, s')
  }

  function Flushed(d: Node, really: bool): Node { if really && d.Dir? then Synced(d) else d }

  ghost predicate DoFlush(s: Sys, staging: bool, payloads: bool, orphans: bool, s': Sys) {
    s' == s.(disk := Disks(Flushed(s.disk.staging, staging), Flushed(s.disk.payloads, payloads),
                           Flushed(s.disk.orphans, orphans)))
  }

  ghost predicate Step(p: Params, s: Sys, l: Label, s': Sys) {
    match l
    case Smtp(id, step) => SmtpNext(p, s, id, step, s')
    case Work(step) => WorkerNext(p, s, step, s')
    case Proc(step) => ProcessNext(p, s, step, s')
    case Flush(a, b, c) => DoFlush(s, a, b, c, s')
    case Tick(to) => s' == s.(clock := to)
  }

  const NO_HISTORY := History(map[], {}, {}, {}, {}, map[], map[], {}, {})

  /** A fresh spool root. */
  ghost predicate Init(s: Sys) {
    && s.disk == Disks(EMPTY_DIR, EMPTY_DIR, EMPTY_DIR)
    && s.rows == map[] && s.enq == map[] && s.proc == Down && s.hist == NO_HISTORY
  }

  /** A finite run: states and the labels between them. */
  datatype Run = Run(states: seq<Sys>, labels: seq<Label>)

  ghost predicate ValidRun(p: Params, run: Run) {
    && p.Valid()
    && |run.states| == |run.labels| + 1
    && Init(run.states[0])
    && forall i | 0 <= i < |run.labels| :: Step(p, run.states[i], run.labels[i], run.states[i + 1])
  }
}
