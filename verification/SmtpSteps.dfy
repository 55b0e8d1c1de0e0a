/** Every step of every `Enqueue` keeps the disk invariant, whatever the other threads are doing. */
module SmtpSteps {
  import opened Ids
  import opened Disk
  import opened Payload
  import opened Rows
  import opened Machine
  import opened DiskInvariant

  lemma LocalChange(d: Node, k: Name, n: Node, id: string)
    requires d.Dir? && Owned(k, id)
    ensures forall x | !Owned(x, id) :: Kept(d, Put(d, k, n), x)
    ensures forall x | !Owned(x, id) :: Kept(d, Drop(d, k), x)
    ensures forall x | !Owned(x, id) :: Kept(d, Within(d, k, n), x)
    ensures forall x | !Owned(x, id) :: Kept(d, Synced(d), x)
    ensures forall x | !Owned(x, id) :: Kept(d, d, x)
  {
    hide Owned;
  }

  lemma LocalRemoval(d: Node, op: Op, name: Name, id: string)
    requires d.Dir? && Owned(name, id) && Confined(op, name)
    ensures forall x | !Owned(x, id) :: Kept(d, Apply(d, op), x)
  {
    hide Owned;
    ConfinedIsLocal(d, op, name);
  }

  lemma MapSizes<K, V>(m: map<K, V>, k: K, v: V)
    ensures k in m ==> |m[k := v]| == |m|
    ensures k !in m ==> |m[k := v]| == |m| + 1
    ensures |m - {k}| <= |m|
  {
    if k in m {
      assert m[k := v].Keys == m.Keys;
      assert m == (m - {k})[k := m[k]];
    } else {
      assert m - {k} == m;
    }
  }

  lemma PlainChange(d: Node, k: Name, n: Node)
    requires d.Dir? && Plain(d) && Plain(n)
    ensures Plain(Put(d, k, n)) && Plain(Drop(d, k)) && Plain(Within(d, k, n)) && Plain(Synced(d))
  {}

  lemma PlainChild(d: Node, k: Name)
    requires d.Dir? && Plain(d) && k in d.ents
    ensures Plain(d.ents[k])
  {}

  // Begin

  lemma BeginLocal(p: Params, s: Sys, id: string, msg: Message, s': Sys)
    requires s.disk.staging.Dir? && s.disk.payloads.Dir? && DoBegin(p, s, id, msg, s')
    ensures Local(s, s', id)
  {
    hide Owned;
    OwnNames(id, "");
    LocalChange(s.disk.staging, id, Special, id);
    LocalChange(s.disk.payloads, id, Special, id);
  }

  lemma BeginKeeps(p: Params, s: Sys, id: string, msg: Message, s': Sys)
    requires Inv(p, s) && DoBegin(p, s, id, msg, s')
    ensures Canonical(id) && Local(s, s', id) && OwnOk(p, s', id)
  {
    hide Inv, PayloadsOk, Plain, Find, Canonical, StagePlan, CopyPlan, PayloadNode, RunOps, NodeOf, WellNamed, TmpNames,
         StageOf, TempOf, Safe, Local;
    InvAt(p, s, id);
    BeginLocal(p, s, id, msg, s');
    MapSizes(s.enq, id, s'.enq[id]);
    NodeOkGrows(p.codec, s.hist.issued, s.disk.payloads, id, msg);
  }

  // Writing the staging directory

  lemma StageLocal(s: Sys, id: string, k: Name, n: Node, enq: map<string, Enqueue>, s': Sys)
    requires s.proc.Up? && s.disk.staging.Dir? && s.disk.payloads.Dir? && Owned(k, id)
    requires s' == s.(disk := s.disk.(staging := Put(s.disk.staging, k, n)), enq := enq) ||
             s' == s.(disk := s.disk.(staging := Within(s.disk.staging, k, n)), enq := enq)
    requires forall x | x != id :: (x in enq <==> x in s.enq) && (x in enq ==> enq[x] == s.enq[x])
    ensures Local(s, s', id)
  {
    hide Owned;
    LocalChange(s.disk.staging, k, n, id);
    LocalChange(s.disk.payloads, k, n, id);
  }

  lemma MakeStageKeeps(p: Params, s: Sys, id: string, suffix: string, tmps: seq<Name>, s': Sys)
    requires Inv(p, s) && DoMakeStage(s, id, suffix, tmps, s')
    ensures Canonical(id) && Local(s, s', id) && OwnOk(p, s', id)
  {
    hide Inv, PayloadsOk, Plain, Canonical, StagePlan, CopyPlan, PayloadNode, NodeOf, WellNamed, TmpNames, Safe, Owned,
         StageName, PublishTempName;
    InvAt(p, s, id);
    OwnNames(id, suffix);
    StageLocal(s, id, StageName(id, suffix), EMPTY_DIR, s'.enq, s');
    PlainEmpty();
    PlainChange(s.disk.staging, StageName(id, suffix), EMPTY_DIR);
    MapSizes(s.enq, id, s'.enq[id]);
    assert StagePlan(p.codec, s.enq[id].msg, tmps)[..0] == [];
  }

  lemma PlainEmpty()
    ensures Plain(EMPTY_DIR)
  {}

  lemma StageCallKeeps(p: Params, s: Sys, id: string, s': Sys)
    requires Inv(p, s) && DoStageCall(p, s, id, s')
    ensures Canonical(id) && Local(s, s', id) && OwnOk(p, s', id)
  {
    hide Inv, PayloadsOk, Plain, Canonical, StagePlan, CopyPlan, PayloadNode, NodeOf, WellNamed, TmpNames, Safe, Owned,
         StageName, PublishTempName, RunOps, Apply, Local;
    InvAt(p, s, id);
    var e := s.enq[id];
    var stage, plan := StageOf(id, e), PlanOf(p, e);
    OwnNames(id, e.stageSuffix);
    var n := Apply(s.disk.staging.ents[stage], plan[e.phase.done]);
    StageLocal(s, id, stage, n, s'.enq, s');
    PlainChild(s.disk.staging, stage);
    ApplyKeeps(s.disk.staging.ents[stage], plan[e.phase.done]);
    PlainChange(s.disk.staging, stage, n);
    MapSizes(s.enq, id, s'.enq[id]);
    RunNext(EMPTY_DIR, plan, e.phase.done);
  }

  // Publication

  /** A change of payloads/ under the thread's own names; staging may lose the staging directory. */
  lemma PayloadLocal(s: Sys, id: string, k: Name, n: Node, payloads: Node, enq: map<string, Enqueue>, s': Sys)
    requires s.proc.Up? && s.disk.staging.Dir? && s.disk.payloads.Dir? && Owned(k, id)
    requires || payloads == Put(s.disk.payloads, k, n)
             || payloads == Within(s.disk.payloads, k, n)
             || payloads == Synced(s.disk.payloads)
    requires s' == s.(disk := s.disk.(payloads := payloads), enq := enq)
    requires forall x | x != id :: (x in enq <==> x in s.enq) && (x in enq ==> enq[x] == s.enq[x])
    ensures Local(s, s', id)
  {
    hide Owned;
    LocalChange(s.disk.staging, k, n, id);
    LocalChange(s.disk.payloads, k, n, id);
  }

  lemma CompleteStage(p: Params, s: Sys, id: string)
    requires Inv(p, s) && StageComplete(p, s, id)
    ensures s.disk.staging.ents[StageOf(id, s.enq[id])] == PayloadNode(p.codec, s.enq[id].msg)
  {
    hide Inv, PayloadsOk, Plain, Canonical, StagePlan, CopyPlan, PayloadNode, NodeOf, WellNamed, Safe, StageName,
         PublishTempName, RunOps;
    InvAt(p, s, id);
    var e := s.enq[id];
    assert PlanOf(p, e)[..|PlanOf(p, e)|] == PlanOf(p, e);
    StagePlanBuilds(p.codec, e.msg, e.phase.tmps);
  }

  lemma FullIsOk(c: Codec, issued: map<string, Message>, id: string)
    requires id in issued
    ensures NodeOk(c, issued, id, PayloadNode(c, issued[id]))
  {
    PayloadIsSettled(c, issued[id]);
  }

  lemma PublishLocal(p: Params, s: Sys, id: string, s': Sys)
    requires DoPublish(p, s, id, s') && Canonical(id)
    ensures Local(s, s', id)
  {
    hide Owned, StageName, PlanOf;
    OwnNames(id, s.enq[id].stageSuffix);
    LocalChange(s.disk.staging, StageOf(id, s.enq[id]), Special, id);
    LocalChange(s.disk.payloads, id, s.disk.staging.ents[StageOf(id, s.enq[id])], id);
  }

  lemma PublishKeeps(p: Params, s: Sys, id: string, s': Sys)
    requires Inv(p, s) && DoPublish(p, s, id, s')
    ensures Canonical(id) && Local(s, s', id) && OwnOk(p, s', id)
  {
    hide Inv, PayloadsOk, Plain, Canonical, StagePlan, CopyPlan, PayloadNode, NodeOf, WellNamed, TmpNames, Safe, Owned,
         StageName, PublishTempName, RunOps, Apply, Local, Below, Settled;
    InvAt(p, s, id);
    PublishLocal(p, s, id, s');
    CompleteStage(p, s, id);
    var stage := StageOf(id, s.enq[id]);
    var full := PayloadNode(p.codec, s.enq[id].msg);
    FullIsOk(p.codec, s.hist.issued, id);
    PutOk(p.codec, s.hist.issued, s.disk.payloads, id, full);
    PlainChild(s.disk.staging, stage);
    PlainChange(s.disk.staging, stage, full);
    MapSizes(s.enq, id, s'.enq[id]);
  }

  lemma MakeTempKeeps(p: Params, s: Sys, id: string, suffix: string, items: seq<Item>, s': Sys)
    requires Inv(p, s) && DoMakeTemp(p, s, id, suffix, items, s')
    ensures Canonical(id) && Local(s, s', id) && OwnOk(p, s', id)
  {
    hide Inv, PayloadsOk, Plain, Canonical, StagePlan, CopyPlan, PayloadNode, NodeOf, WellNamed, TmpNames, Safe, Owned,
         StageName, PublishTempName, Local, Below, Settled;
    InvAt(p, s, id);
    CompleteStage(p, s, id);
    OwnNames(id, suffix);
    var temp := PublishTempName(id, suffix);
    PayloadLocal(s, id, temp, EMPTY_DIR, s'.disk.payloads, s'.enq, s');
    PlainEmpty();
    assert NodeOk(p.codec, s.hist.issued, temp, EMPTY_DIR);
    PutOk(p.codec, s.hist.issued, s.disk.payloads, temp, EMPTY_DIR);
    MapSizes(s.enq, id, s'.enq[id]);
    assert CopyPlan(items)[..0] == [];
  }

  lemma CopyCallKeeps(p: Params, s: Sys, id: string, s': Sys)
    requires Inv(p, s) && DoCopyCall(p, s, id, s')
    ensures Canonical(id) && Local(s, s', id) && OwnOk(p, s', id)
  {
    hide Inv, PayloadsOk, Plain, Canonical, StagePlan, CopyPlan, PayloadNode, NodeOf, WellNamed, TmpNames, Safe, Owned,
         StageName, PublishTempName, RunOps, Apply, Local, Below, Settled;
    InvAt(p, s, id);
    var e := s.enq[id];
    var temp, plan := TempOf(id, e), PlanOf(p, e);
    OwnNames(id, e.tempSuffix);
    var n := Apply(s.disk.payloads.ents[temp], plan[e.phase.done]);
    PayloadLocal(s, id, temp, n, s'.disk.payloads, s'.enq, s');
    RunNext(EMPTY_DIR, plan, e.phase.done);
    PlainEmpty();
    RunKeeps(EMPTY_DIR, plan[..e.phase.done + 1]);
    assert NodeOk(p.codec, s.hist.issued, temp, n);
    PutOk(p.codec, s.hist.issued, s.disk.payloads, temp, n);
    MapSizes(s.enq, id, s'.enq[id]);
    TempIsNotHome(id, e.tempSuffix);
  }

  lemma TempIsNotHome(id: string, suffix: string)
    requires Canonical(id)
    ensures PublishTempName(id, suffix) != id
  {
    CanonicalIsNoScratchName(id);
  }

  lemma PublishTempLocal(p: Params, s: Sys, id: string, s': Sys)
    requires DoPublishTemp(p, s, id, s') && Canonical(id)
    ensures Local(s, s', id)
  {
    hide Owned, PublishTempName, PlanOf;
    var temp := TempOf(id, s.enq[id]);
    OwnNames(id, s.enq[id].tempSuffix);
    LocalChange(s.disk.staging, id, Special, id);
    LocalChange(s.disk.payloads, id, s.disk.payloads.ents[temp], id);
    LocalChange(Put(s.disk.payloads, id, s.disk.payloads.ents[temp]), temp, Special, id);
  }

  lemma PublishTempKeeps(p: Params, s: Sys, id: string, s': Sys)
    requires Inv(p, s) && DoPublishTemp(p, s, id, s')
    ensures Canonical(id) && Local(s, s', id) && OwnOk(p, s', id)
  {
    hide Inv, PayloadsOk, Plain, Canonical, StagePlan, CopyPlan, PayloadNode, NodeOf, WellNamed, TmpNames, Safe, Owned,
         StageName, PublishTempName, RunOps, Apply, Local, Below, Settled;
    InvAt(p, s, id);
    var e := s.enq[id];
    PublishTempLocal(p, s, id, s');
    assert PlanOf(p, e)[..|PlanOf(p, e)|] == PlanOf(p, e);
    CopyPlanBuilds(p.codec, e.msg, e.phase.items);
    var full := PayloadNode(p.codec, e.msg);
    FullIsOk(p.codec, s.hist.issued, id);
    PutOk(p.codec, s.hist.issued, s.disk.payloads, id, full);
    DropOk(p.codec, s.hist.issued, Put(s.disk.payloads, id, full), TempOf(id, e));
    TempIsNotHome(id, e.tempSuffix);
    MapSizes(s.enq, id, s'.enq[id]);
  }

  lemma SyncPayloadsKeeps(p: Params, s: Sys, id: string, s': Sys)
    requires Inv(p, s) && DoSyncPayloads(s, id, s')
    ensures Canonical(id) && Local(s, s', id) && OwnOk(p, s', id)
  {
    hide Inv, PayloadsOk, Plain, Canonical, StagePlan, CopyPlan, PayloadNode, NodeOf, WellNamed, TmpNames, Safe, Owned,
         StageName, PublishTempName, RunOps, Apply, Local, Below, Settled;
    InvAt(p, s, id);
    OwnNames(id, "");
    PayloadLocal(s, id, id, Special, s'.disk.payloads, s'.enq, s');
    DropOk(p.codec, s.hist.issued, s.disk.payloads, id);
    MapSizes(s.enq, id, s'.enq[id]);
  }

  // Row and acknowledgement

  lemma QuietLocal(s: Sys, s': Sys, id: string)
    requires s.proc.Up? && s.disk.staging.Dir? && s.disk.payloads.Dir? && s'.disk == s.disk && s'.proc == s.proc
    requires s'.hist.issued == s.hist.issued && Canonical(id)
    requires forall k | k != id :: (k in s'.enq <==> k in s.enq) && (k in s.enq ==> s'.enq[k] == s.enq[k])
    requires forall k | k != id :: (k in s'.rows <==> k in s.rows)
    requires forall k | k != id ::
               (k in s'.hist.withdrawn <==> k in s.hist.withdrawn) && (k in s'.hist.acked <==> k in s.hist.acked)
    ensures Local(s, s', id)
  {
    hide Owned;
    OwnNames(id, "");
    LocalChange(s.disk.staging, id, Special, id);
    LocalChange(s.disk.payloads, id, Special, id);
  }

  lemma InsertKeeps(p: Params, s: Sys, id: string, outcome: TxOutcome, s': Sys)
    requires Inv(p, s) && DoInsert(s, id, outcome, s')
    ensures Canonical(id) && Local(s, s', id) && OwnOk(p, s', id)
  {
    hide Inv, PayloadsOk, Plain, Canonical, StagePlan, CopyPlan, PayloadNode, NodeOf, WellNamed, TmpNames, Owned,
         StageName, PublishTempName, RunOps, Local, NewRecord, Storable;
    InvAt(p, s, id);
    QuietLocal(s, s', id);
    MapSizes(s.enq, id, s'.enq[id]);
  }

  lemma AcknowledgeKeeps(p: Params, s: Sys, id: string, s': Sys)
    requires Inv(p, s) && DoAcknowledge(s, id, s')
    ensures Canonical(id) && Local(s, s', id) && OwnOk(p, s', id)
  {
    hide Inv, PayloadsOk, Plain, Canonical, StagePlan, CopyPlan, PayloadNode, NodeOf, WellNamed, TmpNames, Safe, Owned,
         StageName, PublishTempName, RunOps, Apply, Local, Below, Settled;
    InvAt(p, s, id);
    QuietLocal(s, s', id);
    MapSizes(s.enq, id, s.enq[id]);
  }

  lemma AbandonKeeps(p: Params, s: Sys, id: string, s': Sys)
    requires Inv(p, s) && DoAbandon(s, id, s')
    ensures Canonical(id) && Local(s, s', id) && OwnOk(p, s', id)
  {
    hide Inv, PayloadsOk, Plain, Canonical, StagePlan, CopyPlan, PayloadNode, NodeOf, WellNamed, TmpNames, Safe, Owned,
         StageName, PublishTempName, RunOps, Apply, Local, Below, Settled;
    InvAt(p, s, id);
    QuietLocal(s, s', id);
    MapSizes(s.enq, id, s'.enq[id]);
  }

  lemma ReturnKeeps(p: Params, s: Sys, id: string, s': Sys)
    requires Inv(p, s) && DoReturn(s, id, s')
    ensures Canonical(id) && Local(s, s', id) && OwnOk(p, s', id)
  {
    hide Inv, PayloadsOk, Plain, Canonical, StagePlan, CopyPlan, PayloadNode, NodeOf, WellNamed, TmpNames, Safe, Owned,
         StageName, PublishTempName, RunOps, Apply, Local, Below, Settled;
    InvAt(p, s, id);
    QuietLocal(s, s', id);
    MapSizes(s.enq, id, s.enq[id]);
  }

  // Cleaning up

  lemma CleanStageKeeps(p: Params, s: Sys, id: string, op: Op, s': Sys)
    requires Inv(p, s) && DoCleanStage(s, id, op, s')
    ensures Canonical(id) && Local(s, s', id) && OwnOk(p, s', id)
  {
    hide Inv, PayloadsOk, Plain, Canonical, StagePlan, CopyPlan, PayloadNode, NodeOf, WellNamed, TmpNames, Safe, Owned,
         StageName, PublishTempName, RunOps, Apply;
    InvAt(p, s, id);
    OwnNames(id, s.enq[id].stageSuffix);
    LocalRemoval(s.disk.staging, op, StageOf(id, s.enq[id]), id);
    LocalChange(s.disk.payloads, id, Special, id);
    ApplyKeeps(s.disk.staging, op);
  }

  lemma RemovalLocal(p: Params, s: Sys, id: string, name: Name, op: Op, s': Sys)
    requires s.proc.Up? && s.disk.staging.Dir? && s.disk.payloads.Dir? && Owned(name, id) && Confined(op, name)
    requires s' == s.(disk := s.disk.(payloads := Apply(s.disk.payloads, op)), hist := s'.hist)
    requires s'.hist == s.hist || s'.hist == s.hist.(withdrawn := s.hist.withdrawn + {id})
    ensures Local(s, s', id) && s'.disk.payloads.Dir?
  {
    hide Owned, Apply;
    LocalRemoval(s.disk.payloads, op, name, id);
    LocalChange(s.disk.staging, name, Special, id);
    ConfinedIsLocal(s.disk.payloads, op, name);
  }

  lemma CleanTempKeeps(p: Params, s: Sys, id: string, op: Op, s': Sys)
    requires Inv(p, s) && DoCleanTemp(s, id, op, s')
    ensures Canonical(id) && Local(s, s', id) && OwnOk(p, s', id)
  {
    hide Inv, PayloadsOk, Plain, Canonical, StagePlan, CopyPlan, PayloadNode, NodeOf, WellNamed, TmpNames, Safe, Owned,
         StageName, PublishTempName, RunOps, Apply, Local, Below, Settled;
    InvAt(p, s, id);
    OwnNames(id, s.enq[id].tempSuffix);
    RemovalLocal(p, s, id, TempOf(id, s.enq[id]), op, s');
    ConfinedOk(p.codec, s.hist.issued, s.disk.payloads, op, TempOf(id, s.enq[id]));
  }

  lemma WithdrawKeeps(p: Params, s: Sys, id: string, op: Op, s': Sys)
    requires Inv(p, s) && DoWithdraw(s, id, op, s')
    ensures Canonical(id) && Local(s, s', id) && OwnOk(p, s', id)
  {
    hide Inv, PayloadsOk, Plain, Canonical, StagePlan, CopyPlan, PayloadNode, NodeOf, WellNamed, TmpNames, Safe, Owned,
         StageName, PublishTempName, RunOps, Apply, Local, Below, Settled;
    InvAt(p, s, id);
    OwnNames(id, "");
    RemovalLocal(p, s, id, id, op, s');
    ConfinedOk(p.codec, s.hist.issued, s.disk.payloads, op, id);
  }

  lemma SmtpKeeps(p: Params, s: Sys, id: string, l: SmtpStep, s': Sys)
    requires Inv(p, s) && SmtpNext(p, s, id, l, s')
    ensures Inv(p, s')
  {
    hide Inv, Local, OwnOk, Canonical, DoBegin, DoMakeStage, DoStageCall, DoPublish, DoMakeTemp, DoCopyCall,
         DoPublishTemp, DoSyncPayloads, DoInsert, DoAcknowledge, DoAbandon, DoCleanStage, DoCleanTemp, DoWithdraw,
         DoReturn;
    match l {
      case Begin(msg) => BeginKeeps(p, s, id, msg, s');
      case MakeStage(suffix, tmps) => MakeStageKeeps(p, s, id, suffix, tmps, s');
      case StageCall => StageCallKeeps(p, s, id, s');
      case Publish => PublishKeeps(p, s, id, s');
      case MakeTemp(suffix, items) => MakeTempKeeps(p, s, id, suffix, items, s');
      case CopyCall => CopyCallKeeps(p, s, id, s');
      case PublishTemp => PublishTempKeeps(p, s, id, s');
      case SyncPayloads => SyncPayloadsKeeps(p, s, id, s');
      case Insert(outcome) => InsertKeeps(p, s, id, outcome, s');
      case Acknowledge => AcknowledgeKeeps(p, s, id, s');
      case Abandon => AbandonKeeps(p, s, id, s');
      case CleanStage(op) => CleanStageKeeps(p, s, id, op, s');
      case CleanTemp(op) => CleanTempKeeps(p, s, id, op, s');
      case Withdraw(op) => WithdrawKeeps(p, s, id, op, s');
      case Return => ReturnKeeps(p, s, id, s');
    }
    LocalKeeps(p, s, s', id);
  }
}
