/** What every step keeps about the payload tree: the order "payload synced, then row" survives any crash. */
module DiskInvariant {
  import opened Options
  import opened Text
  import opened Ids
  import opened Disk
  import opened Payload
  import opened Rows
  import opened Machine

  // ---- the invariant ----

  /** What may stand under a name in payloads/, now or after a crash. */
  ghost predicate NodeOk(c: Codec, issued: map<string, Message>, k: Name, n: Node) {
    || (k in issued && n.Dir? && Below(n, PayloadNode(c, issued[k])))
    || (HasPrefix(k, PUBLISH_PREFIX) && Plain(n))
  }

  ghost predicate PayloadsOk(c: Codec, issued: map<string, Message>, d: Node) {
    && d.Dir?
    && (forall k | k in d.ents :: NodeOk(c, issued, k, d.ents[k]))
    && (forall k | k in d.past :: forall o | o in d.past[k].nodes :: NodeOk(c, issued, k, o))
  }

  /** The complete payload of `msg` stands under `k` and no crash can change that. */
  ghost predicate Safe(c: Codec, msg: Message, d: Node, k: Name) {
    d.Dir? && k in d.ents && k !in d.past && d.ents[k] == PayloadNode(c, msg)
  }

  /** What a thread knows about its own files and its own row. */
  ghost predicate PhaseOk(c: Codec, e: Enqueue, stage: Option<Node>, temp: Option<Node>, home: Option<Node>,
                          dirty: bool, inRows: bool, withdrawn: bool)
  {
    match e.phase
    case Entered => !inRows && !withdrawn
    case Staging(tmps, done) =>
      && !inRows && !withdrawn && |tmps| == |e.msg.attachments| + 1 && TmpNames(tmps)
      && done <= |StagePlan(c, e.msg, tmps)|
      && stage == Some(RunOps(EMPTY_DIR, StagePlan(c, e.msg, tmps)[..done]))
    case Copying(items, done) =>
      && !inRows && !withdrawn && WellNamed(items) && NodeOf(Folder(items)) == PayloadNode(c, e.msg)
      && done <= |CopyPlan(items)|
      && temp == Some(RunOps(EMPTY_DIR, CopyPlan(items)[..done]))
    case Placed => !inRows && !withdrawn && home == Some(PayloadNode(c, e.msg))
    case Durable => !inRows && !withdrawn && home == Some(PayloadNode(c, e.msg)) && !dirty
    case Inserted => inRows && !withdrawn
    case Removing => withdrawn ==> inRows
    case Failed => !inRows && !withdrawn
  }

  ghost predicate ThreadOk(p: Params, s: Sys, id: string) {
    id in s.enq &&
    var e := s.enq[id];
    && id in s.hist.issued && s.hist.issued[id] == e.msg && id !in s.hist.acked
    && PhaseOk(p.codec, e, Find(s.disk.staging, StageOf(id, e)), Find(s.disk.payloads, TempOf(id, e)),
               Find(s.disk.payloads, id),
               s.disk.payloads.Dir? && id in s.disk.payloads.past, id in s.rows, id in s.hist.withdrawn)
  }

  ghost predicate ValidSet(proc: Process, rows: Table) {
    && (proc.Recovering? ==> proc.valid == rows.Keys)
    && (proc.Quarantining? ==> proc.valid == rows.Keys)
  }

  ghost predicate Inv(p: Params, s: Sys) {
    && s.disk.staging.Dir? && Plain(s.disk.staging) && s.disk.orphans.Dir?
    && PayloadsOk(p.codec, s.hist.issued, s.disk.payloads)
    && (forall id | id in s.hist.issued :: Canonical(id))
    && (forall id | id in s.enq :: ThreadOk(p, s, id))
    && (forall id | id in s.rows :: id in s.hist.issued)
    && (forall id | id in s.rows && id !in s.hist.withdrawn :: Safe(p.codec, s.hist.issued[id], s.disk.payloads, id))
    && (forall id | id in s.hist.acked :: id in s.rows && id !in s.hist.withdrawn)
    && (forall id | id in s.hist.withdrawn :: id in s.rows)
    && (!s.proc.Up? ==> s.enq == map[]) && |s.enq| <= p.maxInflight
    && ValidSet(s.proc, s.rows)
  }

  // ---- changes of payloads/ ----

  lemma NodeOkGrows(c: Codec, issued: map<string, Message>, d: Node, id: string, msg: Message)
    requires PayloadsOk(c, issued, d) && id !in issued
    ensures PayloadsOk(c, issued[id := msg], d)
  {
    var more := issued[id := msg];
    forall k | k in d.ents ensures NodeOk(c, more, k, d.ents[k]) {
      assert NodeOk(c, issued, k, d.ents[k]);
    }
    forall k, o | k in d.past && o in d.past[k].nodes ensures NodeOk(c, more, k, o) {
      assert NodeOk(c, issued, k, o);
    }
  }

  lemma PutOk(c: Codec, issued: map<string, Message>, d: Node, k: Name, n: Node)
    requires PayloadsOk(c, issued, d) && NodeOk(c, issued, k, n)
    ensures PayloadsOk(c, issued, Put(d, k, n)) && PayloadsOk(c, issued, Within(d, k, n))
  {
    hide NodeOk;
  }

  lemma DropOk(c: Codec, issued: map<string, Message>, d: Node, k: Name)
    requires PayloadsOk(c, issued, d)
    ensures PayloadsOk(c, issued, Drop(d, k)) && PayloadsOk(c, issued, Synced(d))
  {
    hide NodeOk;
  }

  /** Removing below one name. */
  lemma ConfinedApply(d: Node, op: Op, name: Name)
    requires d.Dir? && Confined(op, name)
    ensures Apply(d, op) == d || Apply(d, op) == Drop(d, name) ||
            (name in d.ents && op.path != []
             && Apply(d, op) == Within(d, name, Apply(d.ents[name], Op(op.path[1..], op.call))))
  {}

  lemma ConfinedOk(c: Codec, issued: map<string, Message>, d: Node, op: Op, name: Name)
    requires PayloadsOk(c, issued, d) && Confined(op, name)
    ensures PayloadsOk(c, issued, Apply(d, op))
  {
    ConfinedApply(d, op, name);
    DropOk(c, issued, d, name);
    if name in d.ents && op.path != [] {
      var inner := Op(op.path[1..], op.call);
      var n := d.ents[name];
      assert NodeOk(c, issued, name, n);
      if name in issued && n.Dir? && Below(n, PayloadNode(c, issued[name])) {
        UnlinkBelow(n, inner.path, inner.call.name, PayloadNode(c, issued[name]));
      } else {
        ApplyKeeps(n, inner);
      }
      PutOk(c, issued, d, name, Apply(n, inner));
    }
  }

  /** A directory changed under the name `k` only. */
  ghost predicate OnlyAt(d: Node, d': Node, k: Name) {
    && d.Dir? && d'.Dir?
    && (forall x | x != k :: Find(d', x) == Find(d, x) && (x in d'.past <==> x in d.past))
  }

  lemma ChangesAreLocal(d: Node, k: Name, n: Node)
    requires d.Dir?
    ensures OnlyAt(d, Put(d, k, n), k) && OnlyAt(d, Drop(d, k), k) && OnlyAt(d, Within(d, k, n), k)
  {}

  lemma ConfinedIsLocal(d: Node, op: Op, name: Name)
    requires d.Dir? && Confined(op, name)
    ensures OnlyAt(d, Apply(d, op), name)
  {
    ConfinedApply(d, op, name);
    var inner := if name in d.ents && op.path != [] then Apply(d.ents[name], Op(op.path[1..], op.call)) else Special;
    ChangesAreLocal(d, name, inner);
  }

  // ---- one thread's step leaves the others alone ----

  /** The names a record's `Enqueue` works under: its identifier and its scratch directories. */
  predicate Owned(x: Name, id: string) {
    || x == id
    || (|x| >= 45 && x[..9] == PUBLISH_PREFIX && x[9..45] == id)
    || (|x| >= 43 && x[..7] == STAGE_PREFIX && x[7..43] == id)
  }

  lemma OwnNames(id: string, suffix: string)
    requires Canonical(id)
    ensures Owned(id, id) && Owned(PublishTempName(id, suffix), id) && Owned(StageName(id, suffix), id)
  {
    assert PublishTempName(id, suffix)[9..45] == id;
    assert StageName(id, suffix)[7..43] == id;
  }

  lemma ForeignNames(id: string, other: string, suffix: string)
    requires Canonical(id) && Canonical(other) && id != other
    ensures !Owned(other, id) && !Owned(PublishTempName(other, suffix), id) && !Owned(StageName(other, suffix), id)
  {
    var t, g := PublishTempName(other, suffix), StageName(other, suffix);
    assert t[9..45] == other && g[7..43] == other;
    assert |other| == 36;
    CanonicalIsNoScratchName(id);
    assert t[..9] == PUBLISH_PREFIX && g[..7] == STAGE_PREFIX;
    assert t[1] == 'p' && g[1] == 's' && STAGE_PREFIX[1] == 's' && PUBLISH_PREFIX[1] == 'p';
    assert t[..7][1] == 'p' && g[..9][1] == 's';
    assert t != id && g != id;
  }

  ghost predicate Kept(d: Node, d': Node, x: Name) {
    d.Dir? && d'.Dir? && Find(d', x) == Find(d, x) && (x in d'.past ==> x in d.past)
  }

  ghost predicate Local(s: Sys, s': Sys, id: string) {
    && (forall x | !Owned(x, id) :: Kept(s.disk.staging, s'.disk.staging, x))
    && (forall x | !Owned(x, id) :: Kept(s.disk.payloads, s'.disk.payloads, x))
    && s'.disk.orphans == s.disk.orphans && s'.proc == s.proc && s.proc.Up?
    && (forall k | k != id :: (k in s'.enq <==> k in s.enq) && (k in s.enq ==> s'.enq[k] == s.enq[k]))
    && (forall k | k != id :: (k in s'.rows <==> k in s.rows))
    && (forall k | k != id ::
          (k in s'.hist.withdrawn <==> k in s.hist.withdrawn) && (k in s'.hist.acked <==> k in s.hist.acked))
    && (forall k | k in s.hist.issued :: k in s'.hist.issued && s'.hist.issued[k] == s.hist.issued[k])
    && (forall k | k in s'.hist.issued :: k == id || k in s.hist.issued)
  }

  lemma OtherThreadKept(p: Params, s: Sys, s': Sys, id: string, other: string)
    requires Inv(p, s) && Local(s, s', id) && Canonical(id) && other in s.enq && other != id
    ensures ThreadOk(p, s', other)
  {
    hide Owned, Inv, StageOf, TempOf, StagePlan, CopyPlan, PayloadNode, RunOps;
    assert ThreadOk(p, s, other) by { InvThread(p, s, other); }
    var e := s.enq[other];
    InvCanonical(p, s, other);
    OtherNamesKept(s, s', id, other, e);
  }

  /** The parts of the invariant that concern the directories, and one identifier. */
  lemma InvAt(p: Params, s: Sys, id: string)
    requires Inv(p, s)
    ensures s.disk.staging.Dir? && Plain(s.disk.staging) && s.disk.orphans.Dir? && s.disk.payloads.Dir?
    ensures PayloadsOk(p.codec, s.hist.issued, s.disk.payloads)
    ensures id in s.enq ==> ThreadOk(p, s, id)
    ensures id in s.rows ==> id in s.hist.issued
    ensures id in s.hist.issued ==> Canonical(id)
    ensures id in s.rows && id !in s.hist.withdrawn ==> Safe(p.codec, s.hist.issued[id], s.disk.payloads, id)
    ensures id in s.hist.acked ==> id in s.rows && id !in s.hist.withdrawn
    ensures id in s.hist.withdrawn ==> id in s.rows
    ensures |s.enq| <= p.maxInflight
  {
    hide ThreadOk, Safe, NodeOk, Plain;
  }

  lemma InvThread(p: Params, s: Sys, id: string)
    requires Inv(p, s) && id in s.enq
    ensures ThreadOk(p, s, id)
  {}

  lemma InvCanonical(p: Params, s: Sys, id: string)
    requires Inv(p, s) && (id in s.enq || id in s.rows || id in s.hist.issued)
    ensures Canonical(id)
  {}

  lemma OtherNamesKept(s: Sys, s': Sys, id: string, other: string, e: Enqueue)
    requires Local(s, s', id) && Canonical(id) && Canonical(other) && id != other
    ensures Kept(s.disk.staging, s'.disk.staging, StageOf(other, e))
    ensures Kept(s.disk.payloads, s'.disk.payloads, TempOf(other, e))
    ensures Kept(s.disk.payloads, s'.disk.payloads, other)
  {
    hide Owned;
    ForeignNames(id, other, e.stageSuffix);
    ForeignNames(id, other, e.tempSuffix);
  }

  lemma OtherRowKept(p: Params, s: Sys, s': Sys, id: string, other: string)
    requires Inv(p, s) && Local(s, s', id) && Canonical(id) && other != id
    requires other in s'.rows && other !in s'.hist.withdrawn
    ensures other in s'.hist.issued && Safe(p.codec, s'.hist.issued[other], s'.disk.payloads, other)
  {
    hide Owned, PayloadNode;
    InvCanonical(p, s, other);
    OtherNamesKept(s, s', id, other, Enqueue(s.hist.issued[other], 0, "", "", Failed));
  }

  /** The obligations that remain for the thread that made the step. */
  ghost predicate OwnOk(p: Params, s': Sys, id: string) {
    && s'.disk.staging.Dir? && Plain(s'.disk.staging)
    && PayloadsOk(p.codec, s'.hist.issued, s'.disk.payloads)
    && (id in s'.enq ==> ThreadOk(p, s', id))
    && (id in s'.rows ==> id in s'.hist.issued)
    && (id in s'.rows && id !in s'.hist.withdrawn ==> Safe(p.codec, s'.hist.issued[id], s'.disk.payloads, id))
    && (id in s'.hist.acked ==> id in s'.rows && id !in s'.hist.withdrawn)
    && (id in s'.hist.withdrawn ==> id in s'.rows)
    && |s'.enq| <= p.maxInflight
  }

  lemma LocalKeeps(p: Params, s: Sys, s': Sys, id: string)
    requires Inv(p, s) && Canonical(id) && Local(s, s', id) && OwnOk(p, s', id)
    ensures Inv(p, s')
  {
    hide Owned, ThreadOk, PayloadsOk, Safe;
    forall k | k in s'.enq ensures ThreadOk(p, s', k) {
      if k != id { OtherThreadKept(p, s, s', id, k); }
    }
    forall k | k in s'.rows ensures k in s'.hist.issued {
      if k != id { assert k in s.rows; }
    }
    forall k | k in s'.rows && k !in s'.hist.withdrawn ensures Safe(p.codec, s'.hist.issued[k], s'.disk.payloads, k) {
      if k != id { OtherRowKept(p, s, s', id, k); }
    }
    forall k | k in s'.hist.acked ensures k in s'.rows && k !in s'.hist.withdrawn {
      if k != id { assert k in s.hist.acked; }
    }
  }
}
