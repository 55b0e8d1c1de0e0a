/** Crashes, start-up and everything the worker does keep the disk invariant too. */
module ProcessSteps {
  import opened Ids
  import opened Disk
  import opened Payload
  import opened Rows
  import opened Delivery
  import opened Machine
  import opened DiskInvariant
  import opened SmtpSteps

  /** Steps that leave the tree, the threads and the set of rows as they are. */
  lemma QuietKeeps(p: Params, s: Sys, s': Sys)
    requires Inv(p, s) && s'.disk == s.disk && s'.enq == s.enq && s'.rows.Keys == s.rows.Keys
    requires s'.hist.issued == s.hist.issued && s'.hist.acked == s.hist.acked && s'.hist.withdrawn == s.hist.withdrawn
    requires ValidSet(s'.proc, s'.rows) && (!s'.proc.Up? ==> s.enq == map[])
    ensures Inv(p, s')
  {
    hide PhaseOk, PayloadsOk, Safe, Canonical, Plain;
    assert forall id | id in s'.rows :: id in s.rows.Keys;
    forall id | id in s'.enq ensures ThreadOk(p, s', id) {
      assert ThreadOk(p, s, id);
      assert id in s.rows.Keys <==> id in s'.rows.Keys;
    }
    forall id | id in s'.hist.acked ensures id in s'.rows { assert id in s.rows.Keys; }
    forall id | id in s'.hist.withdrawn ensures id in s'.rows { assert id in s.rows.Keys; }
  }

  /** Steps that end all threads, or run when there are none, and keep the payloads of rows. */
  lemma QuiescentKeeps(p: Params, s: Sys, s': Sys)
    requires Inv(p, s) && s'.enq == map[] && s'.rows == s.rows && s'.hist == s.hist
    requires s'.disk.staging.Dir? && Plain(s'.disk.staging) && s'.disk.orphans.Dir?
    requires PayloadsOk(p.codec, s.hist.issued, s'.disk.payloads)
    requires forall id, msg | id in s.rows && Safe(p.codec, msg, s.disk.payloads, id) ::
               Safe(p.codec, msg, s'.disk.payloads, id)
    requires ValidSet(s'.proc, s'.rows)
    ensures Inv(p, s')
  {
    hide ThreadOk, PayloadsOk, Safe, Canonical, Plain;
  }

  // ---- crash ----

  lemma ImageOk(c: Codec, issued: map<string, Message>, k: Name, n: Node, m: Node)
    requires NodeOk(c, issued, k, n) && Image(n, m)
    ensures NodeOk(c, issued, k, m)
  {
    if k in issued && n.Dir? && Below(n, PayloadNode(c, issued[k])) {
      ImageBelow(n, m, PayloadNode(c, issued[k]));
    } else {
      ImagePlain(n, m);
    }
  }

  lemma CrashedPayloads(c: Codec, issued: map<string, Message>, d: Node, d': Node)
    requires PayloadsOk(c, issued, d) && Image(d, d')
    ensures PayloadsOk(c, issued, d')
  {
    hide NodeOk;
    forall k | k in d'.ents ensures NodeOk(c, issued, k, d'.ents[k]) {
      if k in d.ents && Image(d.ents[k], d'.ents[k]) {
        ImageOk(c, issued, k, d.ents[k], d'.ents[k]);
      } else {
        var o :| o in d.past[k].nodes && Image(o, d'.ents[k]);
        ImageOk(c, issued, k, o, d'.ents[k]);
      }
    }
  }

  lemma SafeSurvives(c: Codec, msg: Message, d: Node, d': Node, id: string)
    requires Safe(c, msg, d, id) && Image(d, d')
    ensures Safe(c, msg, d', id)
  {
    PayloadIsSettled(c, msg);
    assert Image(d.ents[id], d'.ents[id]);
    SettledSurvives(d.ents[id], d'.ents[id]);
  }

  lemma CrashKeeps(p: Params, s: Sys, after: Disks, s': Sys)
    requires Inv(p, s) && DoCrash(s, after, s')
    ensures Inv(p, s')
  {
    hide Inv, PayloadsOk, Safe, Plain, Below;
    InvAt(p, s, "");
    CrashedPayloads(p.codec, s.hist.issued, s.disk.payloads, after.payloads);
    ImagePlain(s.disk.staging, after.staging);
    forall id, msg | id in s.rows && Safe(p.codec, msg, s.disk.payloads, id)
      ensures Safe(p.codec, msg, after.payloads, id)
    {
      SafeSurvives(p.codec, msg, s.disk.payloads, after.payloads, id);
    }
    QuiescentKeeps(p, s, s');
  }

  // ---- start-up ----

  lemma SafeElsewhere(c: Codec, msg: Message, d: Node, d': Node, name: Name, id: string)
    requires Safe(c, msg, d, id) && OnlyAt(d, d', name) && name != id
    ensures Safe(c, msg, d', id)
  {
    assert Find(d', id) == Find(d, id);
  }

  lemma RemovalKeeps(p: Params, s: Sys, name: Name, op: Op, s': Sys)
    requires Inv(p, s) && !s.proc.Up? && name !in s.rows && Confined(op, name)
    requires s' == s.(disk := s.disk.(payloads := Apply(s.disk.payloads, op)))
    ensures Inv(p, s')
  {
    InvRest(p, s);
    hide Inv, PayloadsOk, Safe, Plain, Below, Apply, OnlyAt;
    InvAt(p, s, "");
    ConfinedOk(p.codec, s.hist.issued, s.disk.payloads, op, name);
    ConfinedIsLocal(s.disk.payloads, op, name);
    forall id, msg | id in s.rows && Safe(p.codec, msg, s.disk.payloads, id)
      ensures Safe(p.codec, msg, s'.disk.payloads, id)
    {
      SafeElsewhere(p.codec, msg, s.disk.payloads, s'.disk.payloads, name, id);
    }
    QuiescentKeeps(p, s, s');
  }

  lemma InvRest(p: Params, s: Sys)
    requires Inv(p, s)
    ensures ValidSet(s.proc, s.rows) && (!s.proc.Up? ==> s.enq == map[])
    ensures forall id | id in s.rows :: Canonical(id)
  {
    hide ThreadOk, PayloadsOk, Safe, Canonical, Plain;
  }

  lemma SweepStagingKeeps(p: Params, s: Sys, op: Op, s': Sys)
    requires Inv(p, s) && DoSweepStaging(s, op, s')
    ensures Inv(p, s')
  {
    InvRest(p, s);
    hide Inv, PayloadsOk, Safe, Plain, Below, Apply;
    InvAt(p, s, "");
    ApplyKeeps(s.disk.staging, op);
    QuiescentKeeps(p, s, s');
  }

  lemma SweepPayloadsKeeps(p: Params, s: Sys, name: Name, op: Op, s': Sys)
    requires Inv(p, s) && DoSweepPayloads(s, name, op, s')
    ensures Inv(p, s')
  {
    InvRest(p, s);
    hide Inv, Apply, Canonical;
    if name in s.rows { CanonicalIsNoScratchName(name); }
    RemovalKeeps(p, s, name, op, s');
  }

  lemma QuarantineMoveKeeps(p: Params, s: Sys, name: Name, target: Name, s': Sys)
    requires Inv(p, s) && DoQuarantineMove(s, name, target, s')
    ensures Inv(p, s')
  {
    InvRest(p, s);
    hide Inv, PayloadsOk, Safe, Plain, Below, OnlyAt;
    InvAt(p, s, "");
    DropOk(p.codec, s.hist.issued, s.disk.payloads, name);
    ChangesAreLocal(s.disk.payloads, name, Special);
    forall id, msg | id in s.rows && Safe(p.codec, msg, s.disk.payloads, id)
      ensures Safe(p.codec, msg, s'.disk.payloads, id)
    {
      assert id in s.proc.valid;
      SafeElsewhere(p.codec, msg, s.disk.payloads, s'.disk.payloads, name, id);
    }
    QuiescentKeeps(p, s, s');
  }

  lemma QuarantineCopyKeeps(p: Params, s: Sys, orphans: Node, s': Sys)
    requires Inv(p, s) && DoQuarantineCopy(s, orphans, s')
    ensures Inv(p, s')
  {
    InvRest(p, s);
    hide Inv, PayloadsOk, Safe, Plain, Below;
    InvAt(p, s, "");
    QuiescentKeeps(p, s, s');
  }

  lemma ProcessKeeps(p: Params, s: Sys, l: ProcessStep, s': Sys)
    requires Inv(p, s) && ProcessNext(p, s, l, s')
    ensures Inv(p, s')
  {
    hide Inv, DoCrash, DoSweepStaging, DoSweepPayloads, DoQuarantineMove, DoQuarantineCopy, Confined, CorruptRecord,
         RecoveredRecord, Storable, LoadNode, Safe, PayloadsOk, Plain;
    InvRest(p, s);
    match l
    case Crash(after) => CrashKeeps(p, s, after, s');
    case Exit => InvAt(p, s, ""); QuiescentKeeps(p, s, s');
    case SweepStaging(op) => SweepStagingKeeps(p, s, op, s');
    case SweepPayloads(name, op) => SweepPayloadsKeeps(p, s, name, op, s');
    case QuarantineMove(name, target) => QuarantineMoveKeeps(p, s, name, target, s');
    case QuarantineCopy(orphans) => QuarantineCopyKeeps(p, s, orphans, s');
    case QuarantineRemove(name, op) => RemovalKeeps(p, s, name, op, s');
    case RecoverTable(_, _) => assert s'.rows.Keys == s.rows.Keys; QuietKeeps(p, s, s');
    case RecoverCorrupt(_, _) => assert s'.rows.Keys == s.rows.Keys; QuietKeeps(p, s, s');
    case _ => QuietKeeps(p, s, s');
  }

  // ---- the worker, the clock, write-back ----

  lemma WorkerQuiet(p: Params, s: Sys, l: WorkerStep, s': Sys)
    requires WorkerNext(p, s, l, s')
    ensures s'.disk == s.disk && s'.enq == s.enq && s'.proc.Up? && s'.clock == s.clock
    ensures s'.hist.issued == s.hist.issued && s'.hist.acked == s.hist.acked && s'.hist.withdrawn == s.hist.withdrawn
    ensures !(l.Claim? || l.DeadLetterCorrupt? || l.Requeue? || l.Finalize?) ==> s'.rows == s.rows
  {
    hide CorruptRecord, RequeuedRecord, ClaimedRecord, Marked, Storable, LoadNode, FirstDue, NoneDue, SubmitDecision,
         PollDecision, TimeoutDecision, Expired, AcsAnswer;
  }

  lemma WorkerRowKeys(p: Params, s: Sys, l: WorkerStep, s': Sys)
    requires WorkerNext(p, s, l, s')
    ensures s'.rows.Keys == s.rows.Keys
  {
    hide CorruptRecord, RequeuedRecord, ClaimedRecord, Marked, Storable, LoadNode, NoneDue, SubmitDecision,
         PollDecision, TimeoutDecision, Expired, AcsAnswer;
  }

  lemma WorkerKeeps(p: Params, s: Sys, l: WorkerStep, s': Sys)
    requires Inv(p, s) && WorkerNext(p, s, l, s')
    ensures Inv(p, s')
  {
    hide Inv, WorkerNext;
    WorkerQuiet(p, s, l, s');
    WorkerRowKeys(p, s, l, s');
    QuietKeeps(p, s, s');
  }

  lemma FlushedThread(p: Params, s: Sys, a: bool, b: bool, c: bool, s': Sys, id: string)
    requires DoFlush(s, a, b, c, s') && ThreadOk(p, s, id)
    ensures ThreadOk(p, s', id)
  {
    hide PayloadNode, StagePlan, CopyPlan, RunOps, NodeOf, WellNamed, TmpNames, StageOf, TempOf;
    var x, y := s.disk.staging, s.disk.payloads;
    assert forall k :: Find(Flushed(x, a), k) == Find(x, k) && Find(Flushed(y, b), k) == Find(y, k);
  }

  lemma FlushedDirs(c: Codec, issued: map<string, Message>, d: Node, d': Node, really: bool, id: string, msg: Message)
    requires d.Dir? && d' == Flushed(d, really)
    ensures d'.Dir? && (Plain(d) ==> Plain(d')) && (PayloadsOk(c, issued, d) ==> PayloadsOk(c, issued, d'))
    ensures Safe(c, msg, d, id) ==> Safe(c, msg, d', id)
  {
    hide PayloadNode, NodeOk;
  }

  lemma FlushKeeps(p: Params, s: Sys, a: bool, b: bool, c: bool, s': Sys)
    requires Inv(p, s) && DoFlush(s, a, b, c, s')
    ensures Inv(p, s')
  {
    hide PayloadsOk, Plain, Canonical, PayloadNode, ThreadOk, Safe, Flushed;
    InvAt(p, s, "");
    FlushedDirs(p.codec, s.hist.issued, s.disk.staging, s'.disk.staging, a, "", EMPTY_MESSAGE);
    FlushedDirs(p.codec, s.hist.issued, s.disk.payloads, s'.disk.payloads, b, "", EMPTY_MESSAGE);
    FlushedDirs(p.codec, s.hist.issued, s.disk.orphans, s'.disk.orphans, c, "", EMPTY_MESSAGE);
    forall id | id in s'.enq ensures ThreadOk(p, s', id) {
      FlushedThread(p, s, a, b, c, s', id);
    }
    forall id | id in s'.rows && id !in s'.hist.withdrawn
      ensures Safe(p.codec, s'.hist.issued[id], s'.disk.payloads, id)
    {
      FlushedDirs(p.codec, s.hist.issued, s.disk.payloads, s'.disk.payloads, b, id, s.hist.issued[id]);
    }
  }

  lemma StepKeeps(p: Params, s: Sys, l: Label, s': Sys)
    requires Inv(p, s) && Step(p, s, l, s')
    ensures Inv(p, s')
  {
    hide Inv, SmtpNext, WorkerNext, ProcessNext, DoFlush;
    match l
    case Smtp(id, step) => SmtpKeeps(p, s, id, step, s');
    case Work(step) => WorkerKeeps(p, s, step, s');
    case Proc(step) => ProcessKeeps(p, s, step, s');
    case Flush(a, b, c) => FlushKeeps(p, s, a, b, c, s');
    case Tick(to) => InvRest(p, s); QuietKeeps(p, s, s');
  }

  lemma InitHolds(p: Params, s: Sys)
    requires Init(s)
    ensures Inv(p, s)
  {}

  /** The disk invariant holds in every state of every run. */
  lemma {:induction false} InvAlways(p: Params, run: Run, i: nat)
    requires ValidRun(p, run) && i < |run.states|
    ensures Inv(p, run.states[i])
  {
    hide Inv, Step;
    if i == 0 {
      InitHolds(p, run.states[0]);
    } else {
      InvAlways(p, run, i - 1);
      StepKeeps(p, run.states[i - 1], run.labels[i - 1], run.states[i]);
    }
  }
}
