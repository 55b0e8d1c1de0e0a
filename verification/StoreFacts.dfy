/** What the methods of the spool store promise, and the facts about runs they rely on. */
module StoreFacts {
  import opened Options
  import opened Text
  import opened Ids
  import opened Disk
  import opened Payload
  import opened Rows
  import opened Machine
  import opened DiskInvariant
  import opened RowInvariant
  import opened RowSteps
  import opened Clock
  import opened Trees
  import opened Recovery
  import opened ProcessSteps
  import opened Theorems
  import opened RunSteps

  /** What the provider has been asked so far. */
  datatype Calls = Calls(submits: map<string, nat>, sent: set<(string, Message)>, polls: set<PollEvent>)

  function CallsOf(h: History): Calls { Calls(h.submits, h.sent, h.polls) }

  function WithSubmit(c: Calls, id: string, msg: Message): Calls {
    c.(submits := Incremented(c.submits, id), sent := c.sent + {(id, msg)})
  }

  function WithPoll(c: Calls, e: PollEvent): Calls { c.(polls := c.polls + {e}) }

  /** What `ClaimReady` hands to the worker. */
  datatype Claim =
    | Got(id: string, rec: Record, msg: Message)
    | NothingDue
    | Unreadable(id: string)        // the payload could not be read just now; the row is queued again
    | StoreFailed

  // ---- what ClaimReady promises, in terms of the table before and after ----

  /** Untouched, or due, corrupt and now dead-lettered. */
  predicate Skipped(c: Codec, payloads: Node, was: Table, after: Table, now: int, k: string)
    requires k in was && k in after
  {
    after[k] == was[k] || (Due(was[k], Queued, now) && CorruptAt(c, payloads, k) && CondemnedAs(was[k], after[k]))
  }

  /** Every due row before `id` was corrupt and is dead-lettered; every other row but `id` is as it was. */
  ghost predicate SkippedUpTo(c: Codec, payloads: Node, was: Table, after: Table, now: int, id: string)
    requires id in was
  {
    && after.Keys == was.Keys
    && forall k | k in was && k != id ::
         if Due(was[k], Queued, now) && Before(k, was[k], id, was[id])
         then CorruptAt(c, payloads, k) && CondemnedAs(was[k], after[k])
         else after[k] == was[k]
  }

  /** `id` is the least due row that loads, and is now working. */
  ghost predicate ClaimsFirstLoadable(c: Codec, payloads: Node, was: Table, after: Table, now: int, id: string) {
    && id in was && SkippedUpTo(c, payloads, was, after, now, id)
    && Due(was[id], Queued, now) && !CorruptAt(c, payloads, id)
    && after[id] == was[id].(state := Working, updated := after[id].updated)
  }

  ghost predicate NothingLoadable(c: Codec, payloads: Node, was: Table, after: Table, now: int) {
    && after.Keys == was.Keys
    && forall k | k in was ::
         if Due(was[k], Queued, now)
         then CorruptAt(c, payloads, k) && CondemnedAs(was[k], after[k]) else after[k] == was[k]
  }

  /** One row has a new state and modification time; nothing else changed. */
  ghost predicate OnlyTouched(was: Table, after: Table, id: string, state: State) {
    id in was && id in after && after == was[id := was[id].(state := state, updated := after[id].updated)]
  }

  /** The loop of `ClaimReady` after some rounds. */
  ghost predicate ClaimProgress(c: Codec, payloads: Node, was: Table, after: Table, now: int) {
    && after.Keys == was.Keys
    && (forall k | k in was :: Skipped(c, payloads, was, after, now, k))
    && InOrder(was, after, now)
  }

  /** The rows dealt with come before all due rows that are left. */
  ghost predicate InOrder(was: Table, after: Table, now: int)
    requires after.Keys == was.Keys
  {
    forall k, m | k in was && m in was && after[k] != was[k] && after[m] == was[m] && Due(was[m], Queued, now) ::
      Before(k, was[k], m, was[m])
  }

  /** A store failure stopped the loop: at most one more row is touched, its attempt and due time are kept. */
  ghost predicate ClaimInterrupted(c: Codec, payloads: Node, was: Table, after: Table, now: int) {
    && after.Keys == was.Keys
    && forall k | k in was ::
         || Skipped(c, payloads, was, after, now, k)
         || (Due(was[k], Queued, now) && after[k] == was[k].(state := after[k].state, updated := after[k].updated))
  }

  /** The payload of the least due row could not be read: it is queued again, with the same attempt and due time. */
  ghost predicate RequeuedFirst(c: Codec, payloads: Node, was: Table, after: Table, now: int, id: string) {
    && id in was && SkippedUpTo(c, payloads, was, after, now, id)
    && Due(was[id], Queued, now) && after[id] == was[id].(updated := after[id].updated)
  }

  lemma AllSkipped(c: Codec, payloads: Node, was: Table, after: Table, now: int)
    requires ClaimProgress(c, payloads, was, after, now) && NoneDue(after, Queued, now)
    ensures NothingLoadable(c, payloads, was, after, now)
  {
    hide CorruptAt, CondemnedAs, Before;
    forall k | k in was
      ensures if Due(was[k], Queued, now)
              then CorruptAt(c, payloads, k) && CondemnedAs(was[k], after[k]) else after[k] == was[k]
    {
      assert Skipped(c, payloads, was, after, now, k);
    }
  }

  function DueRows(rows: Table, now: int): set<string> {
    set k | k in rows && Due(rows[k], Queued, now)
  }

  /** The row the query returns is untouched so far, and all due rows before it have been skipped. */
  lemma NextIsFirst(c: Codec, payloads: Node, was: Table, before: Table, now: int, id: string)
    requires ClaimProgress(c, payloads, was, before, now) && FirstDue(before, Queued, now, id)
    ensures id in was && before[id] == was[id] && Due(was[id], Queued, now)
    ensures SkippedUpTo(c, payloads, was, before, now, id)
  {
    hide CorruptAt, Before;
    assert id in before.Keys;
    assert Skipped(c, payloads, was, before, now, id);
    forall k | k in was && k != id
      ensures if Due(was[k], Queued, now) && Before(k, was[k], id, was[id])
              then CorruptAt(c, payloads, k) && CondemnedAs(was[k], before[k]) else before[k] == was[k]
    {
      assert Skipped(c, payloads, was, before, now, k);
      BeforeIsTotalOrder(k, was[k], id, was[id], id, was[id]);
    }
  }

  lemma DueShrinks(before: Table, after: Table, now: int, id: string)
    requires id in before && Due(before[id], Queued, now) && id in after && after == before[id := after[id]]
    requires after[id].state != Queued
    ensures |DueRows(after, now)| < |DueRows(before, now)|
  {
    hide Truncated;
    assert DueRows(after, now) == DueRows(before, now) - {id};
  }

  lemma OrderOneMore(was: Table, before: Table, after: Table, now: int, id: string)
    requires before.Keys == was.Keys && InOrder(was, before, now) && FirstDue(before, Queued, now, id)
    requires id in after && after == before[id := after[id]] && after[id] != was[id]
    ensures InOrder(was, after, now)
  {
    hide Before, Truncated;
  }

  /** One more corrupt row is out of the way. */
  lemma SkippedOneMore(c: Codec, payloads: Node, was: Table, before: Table, after: Table, now: int, id: string,
                       rec: Record)
    requires ClaimProgress(c, payloads, was, before, now) && FirstDue(before, Queued, now, id)
    requires CorruptAt(c, payloads, id)
    requires id in was && rec == was[id].(state := Working, updated := rec.updated)
    requires id in after && after == before[id := after[id]] && CondemnedAs(rec, after[id])
    ensures ClaimProgress(c, payloads, was, after, now)
    ensures |DueRows(after, now)| < |DueRows(before, now)|
  {
    hide CorruptAt, Before, SkippedUpTo, InOrder, FirstDue;
    NextIsFirst(c, payloads, was, before, now, id);
    OrderOneMore(was, before, after, now, id);
    assert forall k | k in was :: Skipped(c, payloads, was, before, now, k);
    DueShrinks(before, after, now, id);
  }

  lemma StartOfClaim(c: Codec, payloads: Node, rows: Table, now: int)
    ensures ClaimProgress(c, payloads, rows, rows, now)
  {}

  lemma TouchedShape(was: Table, after: Table, id: string, state: State)
    requires OnlyTouched(was, after, id, state)
    ensures id in was && id in after && after == was[id := after[id]]
    ensures after[id] == was[id].(state := state, updated := after[id].updated)
  {}

  lemma ProgressIsInterrupted(c: Codec, payloads: Node, was: Table, after: Table, now: int)
    requires ClaimProgress(c, payloads, was, after, now)
    ensures ClaimInterrupted(c, payloads, was, after, now)
  {
    hide CorruptAt, Before, CondemnedAs;
  }

  lemma TouchedTwice(a: Table, b: Table, c: Table, id: string, x: State, y: State)
    requires OnlyTouched(a, b, id, x) && OnlyTouched(b, c, id, y)
    ensures OnlyTouched(a, c, id, y)
  {}

  lemma ClaimGot(c: Codec, payloads: Node, was: Table, before: Table, after: Table, now: int, id: string)
    requires ClaimProgress(c, payloads, was, before, now) && FirstDue(before, Queued, now, id)
    requires OnlyTouched(before, after, id, Working) && !CorruptAt(c, payloads, id)
    ensures ClaimsFirstLoadable(c, payloads, was, after, now, id)
  {
    hide CorruptAt, Before, ClaimProgress, FirstDue, CondemnedAs;
    NextIsFirst(c, payloads, was, before, now, id);
  }

  lemma ClaimRequeued(c: Codec, payloads: Node, was: Table, before: Table, after: Table, now: int, id: string)
    requires ClaimProgress(c, payloads, was, before, now) && FirstDue(before, Queued, now, id)
    requires OnlyTouched(before, after, id, Queued)
    ensures RequeuedFirst(c, payloads, was, after, now, id)
  {
    hide CorruptAt, Before, ClaimProgress, FirstDue, CondemnedAs;
    NextIsFirst(c, payloads, was, before, now, id);
  }

  lemma ClaimStopped(c: Codec, payloads: Node, was: Table, before: Table, after: Table, now: int, id: string,
                     state: State)
    requires ClaimProgress(c, payloads, was, before, now) && FirstDue(before, Queued, now, id)
    requires after == before || OnlyTouched(before, after, id, state)
    ensures ClaimInterrupted(c, payloads, was, after, now)
  {
    NextIsFirst(c, payloads, was, before, now, id);
    hide CorruptAt, Before, FirstDue, CondemnedAs;
    forall k | k in was && k != id ensures Skipped(c, payloads, was, after, now, k) {
      assert Skipped(c, payloads, was, before, now, k);
    }
  }

  /** The random names of one `Save`. */
  datatype Names = Names(stage: string, temp: string, tmps: seq<Name>)
  {
    predicate Fit(id: string, msg: Message, disk: Disks) {
      && disk.staging.Dir? && StageName(id, stage) !in disk.staging.ents
      && disk.payloads.Dir? && PublishTempName(id, temp) !in disk.payloads.ents
      && |tmps| == |msg.attachments| + 1 && TmpNames(tmps)
    }
  }

  /** Acknowledgements outlive everything that follows. */
  lemma AckedStays(p: Params, run: Run, run': Run, id: string)
    requires run in Runs(p) && run' in Runs(p) && Continues(run, run') && id in Last(run).hist.acked
    ensures id in Last(run').hist.acked
  {
    hide Step, Init;
    InRuns(p, run);
    InRuns(p, run');
    RunGrows(p, run', |run.states| - 1, |run'.states| - 1);
  }

  lemma NoThreadsBeforeServing(p: Params, run: Run)
    requires run in Runs(p) && !Last(run).proc.Up?
    ensures Last(run).enq == map[]
  {
    hide Inv, Step, Init;
    InRuns(p, run);
    InvAlways(p, run, |run.states| - 1);
    InvRest(p, Last(run));
  }

  lemma FreshStart(p: Params, run: Run)
    requires run in Runs(p) && run.labels == [] && Last(run).clock >= MILLISECOND
    ensures Forward(run) && Last(run).proc == Down && Last(run).rows == map[] && Last(run).hist.issued == map[]
  {
    hide Step;
    InRuns(p, run);
  }

  lemma TidiedStaging(was: Disks, after: Disks)
    requires Tidied(was, after)
    ensures after.staging.Dir? && after.staging.ents == map[]
  {
    hide HasPrefix;
  }

  lemma ServingIsTidy(c: Codec, was: Disks, after: Disks, rows: Table, rows': Table, now: int, t: int,
                      moved: map<Name, Name>)
    requires TableRecovered(c, was.payloads, rows, rows', now, t) && Quarantined(rows'.Keys, was, after, moved)
    ensures rows'.Keys == rows.Keys && NoneWorking(rows') && after.staging == was.staging && after.payloads.Dir?
    ensures forall k | k in after.payloads.ents :: k in rows'
  {
    hide MovedIntact, CorruptAt;
    forall id | id in rows' ensures rows'[id].state != Working {
      assert id in rows.Keys;
      assert RowRecovered(c, was.payloads, id, rows[id], rows'[id], now, t);
    }
  }

  lemma SameRun(run: Run)
    ensures Continues(run, run)
  {}

  lemma NotYetInFlight(p: Params, run: Run, id: string)
    requires run in Runs(p) && id !in Last(run).hist.issued && Canonical(id)
    ensures var s := Last(run);
            && s.disk.staging.Dir? && s.disk.payloads.Dir? && id !in s.enq && id !in s.rows
            && id !in s.disk.payloads.ents
            && id !in s.hist.acked
  {
    hide Inv, Step, Init, Plain, Below;
    InRuns(p, run);
    InvAlways(p, run, |run.states| - 1);
    InvAt(p, Last(run), id);
    CanonicalIsNoScratchName(id);
    var d := Last(run).disk.payloads;
    assert id in d.ents ==> NodeOk(p.codec, Last(run).hist.issued, id, d.ents[id]);
  }

  /** What a thread has written so far, and what it will have written in the end. */
  lemma StagedSoFar(p: Params, run: Run, id: string)
    requires run in Runs(p) && id in Last(run).enq && Last(run).enq[id].phase.Staging?
    ensures var s := Last(run);
            var e := s.enq[id];
            && s.disk.staging.Dir? && StageOf(id, e) in s.disk.staging.ents
            && |e.phase.tmps| == |e.msg.attachments| + 1 && PlanOf(p, e) == StagePlan(p.codec, e.msg, e.phase.tmps)
            && (e.phase.done == |PlanOf(p, e)| ==> s.disk.staging.ents[StageOf(id, e)] == PayloadNode(p.codec, e.msg))
  {
    hide Inv, Step, Init, Plain, Below, StagePlan, PayloadNode, RunOps, TmpNames, StageOf, TempOf;
    InRuns(p, run);
    InvAlways(p, run, |run.states| - 1);
    var s := Last(run);
    InvAt(p, s, id);
    var e := s.enq[id];
    StagePlanBuilds(p.codec, e.msg, e.phase.tmps);
    var plan := StagePlan(p.codec, e.msg, e.phase.tmps);
    assert plan[..|plan|] == plan;
  }

  /** Only the entry `name` of the directory is new or different. */
  ghost predicate OnlyChanged(was: Node, after: Node, name: Name) {
    was.Dir? && after.Dir? && name in after.ents && after.ents == was.ents[name := after.ents[name]]
  }

  lemma ChangedIsDir(was: Node, after: Node, name: Name)
    requires OnlyChanged(was, after, name)
    ensures was.Dir? && after.Dir? && name in after.ents && forall x | x != name :: x in after.ents <==> x in was.ents
  {}

  lemma TempBecomesPayload(was: Node, mid: Node, id: string, temp: Name)
    requires OnlyChanged(was, mid, temp) && temp !in was.ents && id != temp
    ensures Drop(Put(mid, id, mid.ents[temp]), temp).Dir?
    ensures Drop(Put(mid, id, mid.ents[temp]), temp).ents == was.ents[id := mid.ents[temp]]
  {}

  function AllFlushed(d: Disks, staging: bool, payloads: bool, orphans: bool): Disks {
    Disks(Flushed(d.staging, staging), Flushed(d.payloads, payloads), Flushed(d.orphans, orphans))
  }

  /** Every entry but `name` is as it was. */
  ghost predicate SameBut(was: Node, after: Node, name: Name) {
    was.Dir? && after.Dir? && forall x | x != name :: Find(after, x) == Find(was, x)
  }

  lemma PlacedIsLocal(was: Disks, id: string, stage: Name)
    requires was.staging.Dir? && was.payloads.Dir? && stage in was.staging.ents
    ensures SameBut(was.staging, was.staging, stage) && SameBut(was.staging, Drop(was.staging, stage), stage)
    ensures SameBut(was.payloads, was.payloads, id)
    ensures SameBut(was.payloads, Put(was.payloads, id, was.staging.ents[stage]), id)
  {}

  lemma WithinIsLocal(d: Node, k: Name, n: Node)
    requires d.Dir?
    ensures SameBut(d, Within(d, k, n), k) && SameBut(d, Put(d, k, n), k) && SameBut(d, Drop(d, k), k)
  {}

  lemma SameEntries(was: Node, mid: Node, after: Node, id: string)
    requires SameBut(was, mid, id) && after.Dir? && after.ents == mid.ents
    ensures SameBut(was, after, id)
  {}

  lemma SameAsItself(d: Node, name: Name)
    requires d.Dir?
    ensures SameBut(d, d, name)
  {}

  lemma SameTwice(a: Node, b: Node, c: Node, name: Name)
    requires SameBut(a, b, name) && SameBut(b, c, name)
    ensures SameBut(a, c, name)
  {}

  lemma RemovalIsLocal(was: Node, d: Node, name: Name, op: Op)
    requires SameBut(was, d, name) && Confined(op, name)
    ensures SameBut(was, Apply(d, op), name) && Apply(d, op).Dir?
  {
    hide Apply, Confined;
    ConfinedIsLocal(d, op, name);
  }

  lemma OneFewer(m: map<string, Enqueue>, id: string)
    requires id in m
    ensures |m - {id}| + 1 == |m|
  {
    assert m == (m - {id})[id := m[id]];
  }

  lemma SameNames(id: string, e: Enqueue, e': Enqueue)
    requires e'.stageSuffix == e.stageSuffix && e'.tempSuffix == e.tempSuffix
    ensures StageOf(id, e') == StageOf(id, e) && TempOf(id, e') == TempOf(id, e)
  {}

  lemma NewRecordFits(p: Params, run: Run, id: string)
    requires run in Runs(p) && RetriesFit(p.worker) && Forward(run) && id in Last(run).enq
    ensures Storable(NewRecord(Last(run).enq[id].start))
  {
    hide Step, Init, Storable, ClaimedRecord, NewRecord, RecoveredRecord, CorruptRecord, RequeuedRecord, Marked;
    InRuns(p, run);
    NoWriteIsRefused(p, run, |run.states| - 1);
  }

  datatype Reply = Accepted(start: int) | Busy | Rejected

  /**
   The message is in the spool: a queued row, a complete payload on disk, an acknowledgement; nothing else changed.
   */
  ghost predicate HasMessage(c: Codec, s: Sys, s': Sys, id: string, msg: Message, stage: Name, start: int) {
    && id !in s.rows && s'.rows == s.rows[id := NewRecord(start)]
    && s.disk.payloads.Dir? && s'.disk.payloads == Dir(s.disk.payloads.ents[id := PayloadNode(c, msg)], map[])
    && s'.disk.orphans == s.disk.orphans
    && LoadNode(c, Find(s'.disk.payloads, id)) == Loaded(Normal(msg))
    && s'.hist.acked == s.hist.acked + {id} && s'.enq == s.enq && s'.proc == s.proc && s'.clock == start
    && SameBut(s.disk.staging, s'.disk.staging, stage)
  }

  /** The message was not acknowledged; no other row, payload or staging directory is touched. */
  ghost predicate LostNothing(s: Sys, s': Sys, id: string, stage: Name, temp: Name) {
    && s'.hist.acked == s.hist.acked && id !in s.hist.acked && s'.enq == s.enq
    && (forall k | k in s.rows :: k in s'.rows && s'.rows[k] == s.rows[k])
    && (forall k | k in s'.rows :: k in s.rows || k == id)
    && (forall k | k != id && k != temp :: Find(s'.disk.payloads, k) == Find(s.disk.payloads, k))
    && SameBut(s.disk.staging, s'.disk.staging, stage) && s'.disk.orphans == s.disk.orphans
  }

  /** No scratch directory of the message is left, and after a rejection not both its row and its payload. */
  ghost predicate NothingLeft(s: Sys, id: string, draw: Names, reply: Reply) {
    && s.disk.staging.Dir? && StageName(id, draw.stage) !in s.disk.staging.ents
    && s.disk.payloads.Dir? && PublishTempName(id, draw.temp) !in s.disk.payloads.ents
    && (reply.Rejected? ==> id !in s.rows || id !in s.disk.payloads.ents)
  }

  // ---- the stages of an enqueue, state to state ----

  ghost predicate Begun(s: Sys, s': Sys, id: string, msg: Message, start: int) {
    && s.disk.payloads.Dir? && id !in s.enq && id !in s.disk.payloads.ents && id !in s.rows
    && s' == s.(clock := start, enq := s.enq[id := Enqueue(msg, start, "", "", Entered)],
                hist := s.hist.(issued := s.hist.issued[id := msg]))
    && Live(s', id)
  }

  /** Only the thread's own entry and the disk have changed. */
  ghost predicate Advanced(s: Sys, s': Sys, id: string) {
    && id in s.enq && Live(s', id) && s' == s.(disk := s'.disk, enq := s.enq[id := s'.enq[id]])
    && s'.enq[id].msg == s.enq[id].msg && s'.enq[id].start == s.enq[id].start && s'.disk.orphans == s.disk.orphans
  }

  ghost predicate SavedWell(c: Codec, s: Sys, s': Sys, id: string, msg: Message, stage: Name) {
    && Advanced(s, s', id) && s'.enq[id].phase == Durable && SameBut(s.disk.staging, s'.disk.staging, stage)
    && s.disk.payloads.Dir? && s'.disk.payloads == Dir(s.disk.payloads.ents[id := PayloadNode(c, msg)], map[])
  }

  predicate Abandonable(phase: Phase) { phase.Staging? || phase.Copying? || phase.Placed? || phase.Durable? }

  ghost predicate SaveFailed(s: Sys, s': Sys, id: string, draw: Names, temp: Option<Name>) {
    && Advanced(s, s', id) && StageOf(id, s'.enq[id]) == StageName(id, draw.stage) && Abandonable(s'.enq[id].phase)
    && (temp.Some? ==> temp.value == TempOf(id, s'.enq[id]) == PublishTempName(id, draw.temp))
    && SameBut(s.disk.staging, s'.disk.staging, StageName(id, draw.stage))
    && (forall x | x != id && temp != Some(x) :: Find(s'.disk.payloads, x) == Find(s.disk.payloads, x))
  }

  ghost predicate InsertTried(s: Sys, s': Sys, id: string, start: int, outcome: TxOutcome) {
    && id in s.enq && Live(s', id) && s'.disk == s.disk && s'.proc == s.proc && s'.clock == s.clock
    && s'.hist.acked == s.hist.acked
    && s'.rows == (if outcome == RolledBack then s.rows else s.rows[id := NewRecord(start)])
    && s'.enq == InPhase(s, id, if outcome == Committed then Inserted else Removing)
  }

  /** The thread is gone; at most one entry of payloads/ went with it. */
  ghost predicate Ended(s: Sys, s': Sys, id: string, stage: Name, removed: Option<Name>) {
    && s.disk.payloads.Dir? && s'.disk.payloads.Dir? && s'.disk.orphans == s.disk.orphans
    && s' == s.(disk := s'.disk, enq := s.enq - {id}, hist := s'.hist)
    && RemovalRecorded(Withdrawn, id, s.hist, s'.hist)
    && SameBut(s.disk.staging, s'.disk.staging, stage)
    && (forall x | removed != Some(x) :: Find(s'.disk.payloads, x) == Find(s.disk.payloads, x))
  }

  lemma BegunIsReady(s: Sys, s': Sys, id: string, msg: Message, start: int, draw: Names)
    requires Begun(s, s', id, msg, start) && draw.Fit(id, msg, s.disk)
    ensures Live(s', id) && s'.enq[id].phase == Entered && s'.enq[id].msg == msg && draw.Fit(id, msg, s'.disk)
    ensures s'.disk.payloads.Dir? && id !in s'.disk.payloads.ents && s'.rows == s.rows && s'.hist.acked == s.hist.acked
  {}

  lemma FailedIsLive(s: Sys, s': Sys, id: string, draw: Names, temp: Option<Name>)
    requires SaveFailed(s, s', id, draw, temp)
    ensures Live(s', id) && Abandonable(s'.enq[id].phase)
    ensures StageName(id, draw.stage) == StageOf(id, s'.enq[id])
    ensures temp.Some? ==> temp.value == TempOf(id, s'.enq[id])
  {}

  lemma SavedIsDurable(c: Codec, s0: Sys, s: Sys, s': Sys, id: string, msg: Message, stage: Name, start: int)
    requires Begun(s0, s, id, msg, start) && SavedWell(c, s, s', id, msg, stage)
    ensures Live(s', id) && s'.enq[id].phase == Durable && s'.enq[id].start == start && s'.rows == s0.rows
    ensures id !in s0.rows
  {
    hide PayloadNode;
  }

  lemma TriedIsLive(s: Sys, s': Sys, id: string, start: int, outcome: TxOutcome)
    requires InsertTried(s, s', id, start, outcome)
    ensures s'.disk == s.disk && Live(s', id)
    ensures s'.enq[id].phase == (if outcome == Committed then Inserted else Removing)
  {
    hide NewRecord;
  }

  lemma FailedSaveLosesNothing(s0: Sys, s1: Sys, s2: Sys, s3: Sys, id: string, msg: Message, start: int, draw: Names,
                               temp: Option<Name>)
    requires Begun(s0, s1, id, msg, start) && SaveFailed(s1, s2, id, draw, temp) && id !in s0.hist.acked
    requires Ended(s2, s3, id, StageName(id, draw.stage), temp)
    ensures LostNothing(s0, s3, id, StageName(id, draw.stage), PublishTempName(id, draw.temp)) && s3.enq == s0.enq
  {
    hide PublishTempName, StageOf, TempOf, StageName;
    assert s3.enq == s0.enq;
  }

  lemma FailedSaveLeavesNothing(s0: Sys, s1: Sys, s2: Sys, s3: Sys, id: string, msg: Message, start: int, draw: Names,
                                temp: Option<Name>)
    requires Begun(s0, s1, id, msg, start) && SaveFailed(s1, s2, id, draw, temp) && draw.Fit(id, msg, s0.disk)
    requires Ended(s2, s3, id, StageName(id, draw.stage), temp)
    requires s3.disk.staging.Dir? && StageName(id, draw.stage) !in s3.disk.staging.ents
    requires s3.disk.payloads.Dir? && (temp.Some? ==> temp.value !in s3.disk.payloads.ents)
    ensures NothingLeft(s3, id, draw, Rejected)
  {
    hide PublishTempName, StageOf, TempOf, StageName, TmpNames;
    NamesDiffer(id, draw.temp);
    var t := PublishTempName(id, draw.temp);
    if temp.None? {
      assert Find(s3.disk.payloads, t) == Find(s2.disk.payloads, t) == Find(s1.disk.payloads, t) == None;
    }
  }

  lemma SavedHasNoTemp(c: Codec, s0: Sys, s1: Sys, s2: Sys, id: string, msg: Message, start: int, draw: Names)
    requires Begun(s0, s1, id, msg, start) && SavedWell(c, s1, s2, id, msg, StageName(id, draw.stage))
    requires draw.Fit(id, msg, s0.disk)
    ensures s2.disk.payloads.Dir? && PublishTempName(id, draw.temp) !in s2.disk.payloads.ents
  {
    hide PublishTempName, StageName, TmpNames, PayloadNode;
    NamesDiffer(id, draw.temp);
  }

  lemma AcceptedLeavesNothing(s2: Sys, s3: Sys, s4: Sys, id: string, start: int, draw: Names)
    requires InsertTried(s2, s3, id, start, Committed) && s4.disk == s3.disk
    requires s2.disk.staging.Dir? && StageName(id, draw.stage) !in s2.disk.staging.ents
    requires s2.disk.payloads.Dir? && PublishTempName(id, draw.temp) !in s2.disk.payloads.ents
    ensures NothingLeft(s4, id, draw, Accepted(start))
  {}

  lemma WithdrawnLeavesNothing(s2: Sys, s3: Sys, s4: Sys, id: string, start: int, outcome: TxOutcome, draw: Names)
    requires InsertTried(s2, s3, id, start, outcome) && Ended(s3, s4, id, StageName(id, draw.stage), Some(id))
    requires s4.disk.staging.Dir? && s3.disk.staging.Dir? && s4.disk.staging.ents == s3.disk.staging.ents
    requires s4.disk.payloads.Dir? && id !in s4.disk.payloads.ents
    requires s2.disk.staging.Dir? && StageName(id, draw.stage) !in s2.disk.staging.ents
    requires s2.disk.payloads.Dir? && PublishTempName(id, draw.temp) !in s2.disk.payloads.ents
    ensures NothingLeft(s4, id, draw, Rejected)
  {
    hide PublishTempName, StageName;
    var t := PublishTempName(id, draw.temp);
    if t != id { assert Find(s4.disk.payloads, t) == Find(s3.disk.payloads, t) == None; }
  }

  lemma PartIsOrdinary(d: Node, name: Name)
    requires d.Dir? && Ordinary(d)
    ensures name in d.ents ==> Ordinary(d.ents[name])
  {}

  lemma FailedInsertLosesNothing(c: Codec, s0: Sys, s1: Sys, s2: Sys, s3: Sys, s4: Sys, id: string, msg: Message,
                                 start: int,
                                 outcome: TxOutcome, stage: Name, name: Name)
    requires Begun(s0, s1, id, msg, start) && SavedWell(c, s1, s2, id, msg, stage)
    requires InsertTried(s2, s3, id, start, outcome)
    requires Ended(s3, s4, id, stage, Some(id)) && id !in s0.hist.acked
    ensures LostNothing(s0, s4, id, stage, name) && s4.enq == s0.enq
  {
    hide PayloadNode, NewRecord;
    assert s4.enq == s0.enq;
  }

  lemma AcceptedHasMessage(p: Params, run: Run, s0: Sys, s1: Sys, s2: Sys, s3: Sys, s4: Sys, id: string, msg: Message,
                           stage: Name,
                           start: int)
    requires run in Runs(p)
    requires Begun(s0, s1, id, msg, start) && SavedWell(p.codec, s1, s2, id, msg, stage)
    requires InsertTried(s2, s3, id, start, Committed)
    requires s4 == s3.(enq := s3.enq - {id}, hist := s3.hist.(acked := s3.hist.acked + {id}))
    ensures HasMessage(p.codec, s0, s4, id, msg, stage, start) && s4.enq == s0.enq
  {
    hide PayloadNode, LoadNode, NewRecord, Normal, Step, Init;
    InRuns(p, run);
    SaveThenLoad(p.codec, msg);
    assert s4.enq == s0.enq;
  }

  lemma CopiedSoFar(p: Params, run: Run, id: string)
    requires run in Runs(p) && id in Last(run).enq && Last(run).enq[id].phase.Copying?
    ensures var s := Last(run);
            var e := s.enq[id];
            && s.disk.payloads.Dir? && TempOf(id, e) in s.disk.payloads.ents && PlanOf(p, e) == CopyPlan(e.phase.items)
            && (e.phase.done == |PlanOf(p, e)| ==> s.disk.payloads.ents[TempOf(id, e)] == PayloadNode(p.codec, e.msg))
  {
    hide Inv, Step, Init, Plain, Below, CopyPlan, PayloadNode, RunOps, TmpNames, StageOf, TempOf, WellNamed, NodeOf;
    InRuns(p, run);
    InvAlways(p, run, |run.states| - 1);
    var s := Last(run);
    InvAt(p, s, id);
    var e := s.enq[id];
    CopyPlanBuilds(p.codec, e.msg, e.phase.items);
    var plan := CopyPlan(e.phase.items);
    assert plan[..|plan|] == plan;
  }

  lemma NamesDiffer(id: string, suffix: string)
    ensures id != PublishTempName(id, suffix)
  {
    assert |PublishTempName(id, suffix)| > |id|;
  }

  /** The staged payload, listed for a copy. */
  method ListPayload(c: Codec, msg: Message) returns (items: seq<Item>)
    ensures WellNamed(items) && NodeOf(Folder(items)) == PayloadNode(c, msg)
  {
    hide Plain, Settled, Bare, Ordinary, WellNamed, NodeOf;
    var n := PayloadNode(c, msg);
    PayloadIsSettled(c, msg);
    SettledIsBare(n);
    PlainIsOrdinary(n);
    var ok;
    ok, items := ListTree(n);
  }

  datatype RecoveryResult =
    | Recovered(requeued: seq<string>, submitted: seq<string>, deadLettered: seq<string>, orphans: map<Name, Name>)
    | RecoveryFailed

  lemma DistinctHalves(a: seq<string>, b: seq<string>)
    requires forall i, j | 0 <= i < j < |a + b| :: (a + b)[i] != (a + b)[j]
    ensures forall i, j | 0 <= i < j < |a| :: a[i] != a[j]
    ensures forall i, j | 0 <= i < j < |b| :: b[i] != b[j]
  {
    assert forall i | 0 <= i < |a| :: a[i] == (a + b)[i];
    assert forall i | 0 <= i < |b| :: b[i] == (a + b)[|a| + i];
  }

  /** The two loops between them judge the working and the submitted rows, and no other. */
  lemma MoveUndisturbed(valid: set<string>, was: Disks, mid: Disks, after: Disks, name: Name, target: Name)
    requires Undisturbed(valid, was, mid) && name !in valid && target !in mid.orphans.ents
    requires after.staging == mid.staging
    requires SameBut(mid.payloads, after.payloads, name) && SameBut(mid.orphans, after.orphans, target)
    ensures Undisturbed(valid, was, after)
  {
    forall x | x in was.orphans.ents ensures Find(after.orphans, x) == Find(was.orphans, x) {
      assert Find(mid.orphans, x) == Find(was.orphans, x);
    }
  }

  lemma NothingDisturbed(p: Params, run: Run)
    requires run in Runs(p)
    ensures forall valid: set<string> :: Undisturbed(valid, Last(run).disk, Last(run).disk)
  {
    hide Runs, Ordinary;
    LeftoversAreOrdinary(p, run);
  }

  /** A recovery stopped before, or right after, its transaction. */
  lemma NotYetJudged(c: Codec, payloads: Node, was: Table, after: Table, now: int, t: int)
    requires after == was || after == RecoveredTable(was, now, t)
    ensures TableTouched(c, payloads, was, after, now, t)
  {
    hide TableTouched;
    assert after.Keys == was.Keys;
    JudgedIsTouched(c, payloads, was, after, after, now, t);
  }

  /** A recovery stopped in one of its loops. */
  lemma LoopsTouched(c: Codec, payloads: Node, was: Table, mid: Table, half: Table, after: Table, working: seq<string>,
                     submitted: seq<string>, now: int, t: int)
    requires Listed(was, Working, working) && Listed(was, Submitted, submitted) && mid == RecoveredTable(was, now, t)
    requires half.Keys == mid.Keys && after.Keys == half.Keys
    requires forall k | k in half && k !in working :: half[k] == mid[k]
    requires forall k | k in after && k !in submitted :: after[k] == half[k]
    requires forall k | k in working && k in half :: half[k] == mid[k] || Judged(c, payloads, k, mid[k], half[k])
    requires forall k | k in submitted && k in after :: after[k] == half[k] || Judged(c, payloads, k, half[k], after[k])
    ensures TableTouched(c, payloads, was, after, now, t)
  {
    hide Judged, TableTouched, RecoveredRecord, CreatedBefore;
    assert mid.Keys == was.Keys;
    forall id | id in was
      ensures || after[id] == mid[id]
              || (&& (was[id].state == Working || was[id].state == Submitted)
                  && Judged(c, payloads, id, mid[id], after[id]))
    {
      assert id in half.Keys && id in after.Keys;
    }
    JudgedIsTouched(c, payloads, was, mid, after, now, t);
  }

  lemma LoopsJudgeAll(c: Codec, payloads: Node, was: Table, mid: Table, half: Table, after: Table, working: seq<string>,
                      submitted: seq<string>, now: int, t: int)
    requires Listed(was, Working, working) && Listed(was, Submitted, submitted) && mid == RecoveredTable(was, now, t)
    requires half.Keys == mid.Keys && after.Keys == half.Keys
    requires forall k | k in half && k !in working :: half[k] == mid[k]
    requires forall k | k in after && k !in submitted :: after[k] == half[k]
    requires forall k | k in working :: k in half && Judged(c, payloads, k, mid[k], half[k])
    requires forall k | k in submitted :: k in after && Judged(c, payloads, k, half[k], after[k])
    ensures TableRecovered(c, payloads, was, after, now, t)
  {
    hide Judged, TableRecovered, RecoveredRecord, CreatedBefore;
    assert mid.Keys == was.Keys;
    forall id | id in was
      ensures if was[id].state == Working || was[id].state == Submitted
              then Judged(c, payloads, id, mid[id], after[id]) else after[id] == mid[id]
    {
      assert id in half.Keys && id in after.Keys;
    }
    JudgedIsRecovered(c, payloads, was, mid, after, now, t);
  }

  /** Why a payload directory, or part of it, is removed. */
  datatype Removal = Leftover | Orphan | Withdrawn | FailedTemp

  ghost predicate MayRemove(why: Removal, s: Sys, id: string, name: Name) {
    match why
    case Leftover => s.proc.Sweeping? && HasPrefix(name, PUBLISH_PREFIX)
    case Orphan => s.proc.Quarantining? && name !in s.proc.valid
    case Withdrawn => Live(s, id) && s.enq[id].phase.Removing? && name == id
    case FailedTemp => Live(s, id) && s.enq[id].phase.Failed? && name == TempOf(id, s.enq[id])
  }

  function RemovalLabel(why: Removal, id: string, name: Name, op: Op): Label {
    match why
    case Leftover => Proc(SweepPayloads(name, op))
    case Orphan => Proc(QuarantineRemove(name, op))
    case Withdrawn => Smtp(id, Withdraw(op))
    case FailedTemp => Smtp(id, CleanTemp(op))
  }

  function RemovalHistory(why: Removal, s: Sys, id: string): History {
    if why.Withdrawn? then Withdrawing(s, id) else s.hist
  }

  /** A removal adds at most its own row to the withdrawn ones. */
  predicate RemovalRecorded(why: Removal, id: string, h: History, h': History) {
    h' == h || (why.Withdrawn? && h' == h.(withdrawn := h.withdrawn + {id}))
  }

  lemma RemovalIsStep(p: Params, s: Sys, why: Removal, id: string, name: Name, op: Op)
    requires s.disk.payloads.Dir? && MayRemove(why, s, id, name) && Confined(op, name)
    ensures var s' := s.(disk := s.disk.(payloads := Apply(s.disk.payloads, op)), hist := RemovalHistory(why, s, id));
            && s' in Next(p, s, RemovalLabel(why, id, name, op))
            && MayRemove(why, s', id, name) && s'.disk.payloads.Dir?
  {
    hide Apply, Confined, TempOf;
    ApplyDir(s.disk.payloads, op);
  }

  /** What the clean-up at start leaves. */
  ghost predicate Tidied(was: Disks, after: Disks) {
    && after.staging.Dir? && after.staging.ents == map[] && after.orphans == was.orphans
    && was.payloads.Dir? && after.payloads.Dir?
    && (forall k :: k in after.payloads.ents <==> k in was.payloads.ents && !HasPrefix(k, PUBLISH_PREFIX))
    && (forall k | k in after.payloads.ents :: after.payloads.ents[k] == was.payloads.ents[k])
  }

  /** One start-up: the tree after the clean-up, the times of recovery and its transaction, the orphans' new names. */
  datatype Restart = Restart(tidy: Disks, now: int, t: int, moved: map<Name, Name>)

  ghost predicate Restarted(c: Codec, was: Disks, after: Disks, rows: Table, rows': Table, how: Restart) {
    && Tidied(was, how.tidy) && TableRecovered(c, how.tidy.payloads, rows, rows', how.now, how.t)
    && Quarantined(rows'.Keys, how.tidy, after, how.moved)
  }

  /** A second start-up finds its work done. */
  lemma RestartedTwice(c: Codec, d0: Disks, d1: Disks, d2: Disks, rows0: Table, rows1: Table, rows2: Table,
                       how: Restart, how': Restart)
    requires Restarted(c, d0, d1, rows0, rows1, how) && Restarted(c, d1, d2, rows1, rows2, how')
    ensures d1.payloads.Dir? && d2.payloads.Dir? && d1.orphans.Dir? && d2.orphans.Dir?
    ensures rows2 == rows1 && d2.payloads.ents == d1.payloads.ents && d2.orphans.ents == d1.orphans.ents
    ensures how'.moved == map[]
  {
    hide MovedIntact, HasPrefix, RowRecovered;
    assert rows1.Keys == rows0.Keys == rows2.Keys;
    assert how'.tidy.payloads.ents == d1.payloads.ents;
    forall id | id in rows0 ensures Find(how'.tidy.payloads, id) == Find(how.tidy.payloads, id) {
      assert id in rows1.Keys;
      assert id in d1.payloads.ents <==> id in how.tidy.payloads.ents;
    }
    RecoveringTwice(c, how.tidy.payloads, how'.tidy.payloads, rows0, rows1, rows2, how.now, how.t, how'.now, how'.t);
    NothingToQuarantine(rows2.Keys, how'.tidy, d2, how'.moved);
  }

  ghost predicate SweptSoFar(was: Node, after: Node, todo: set<Name>) {
    && was.Dir? && after.Dir?
    && (forall k | k in todo :: k in after.ents && HasPrefix(k, PUBLISH_PREFIX))
    && (forall k :: k in after.ents <==> k in was.ents && (HasPrefix(k, PUBLISH_PREFIX) ==> k in todo))
    && (forall k | k in after.ents :: after.ents[k] == was.ents[k])
  }

  lemma SweepStarts(d: Node)
    requires d.Dir?
    ensures SweptSoFar(d, d, set k | k in d.ents && HasPrefix(k, PUBLISH_PREFIX))
  {
    hide HasPrefix;
  }

  lemma SweepHas(was: Node, after: Node, todo: set<Name>, k: Name)
    requires SweptSoFar(was, after, todo) && k in todo
    ensures after.Dir? && k in after.ents && HasPrefix(k, PUBLISH_PREFIX)
  {
    hide HasPrefix;
  }

  lemma SweepSynced(was: Node, mid: Node, after: Node)
    requires SweptSoFar(was, mid, {}) && (after == Flushed(mid, true) || after == mid)
    ensures SweptSoFar(was, after, {})
  {
    hide HasPrefix;
  }

  lemma SweptOneMore(was: Node, mid: Node, after: Node, todo: set<Name>, k: Name)
    requires SweptSoFar(was, mid, todo) && k in todo && after.Dir? && k !in after.ents
    requires forall x | x != k ::
               (x in after.ents <==> x in mid.ents) && (x in mid.ents ==> after.ents[x] == mid.ents[x])
    ensures SweptSoFar(was, after, todo - {k})
  {
    hide HasPrefix;
  }

  lemma RemovedExactly(d: Node, name: Name, ok: bool, ops: seq<Op>, after: Node)
    requires d.Dir? && Removed(d, name, ok, ops, after)
    ensures after == RunOps(d, ops) && after.Dir? && (forall op | op in ops :: Confined(op, name))
    ensures ok ==> after.ents == d.ents - {name}
    ensures SameBut(d, after, name)
    ensures name in d.ents && d.ents[name].Dir? ==> (Intact(d, after, name) <==> ops == [])
  {
    hide RunOps, Confined, Ordinary;
    if ops == [] {
      RunNothing(d);
    } else if Intact(d, after, name) {
      SameBare(d, after, name);
    }
  }

  /** The tree under `name` still has all its names and bytes. */
  ghost predicate Intact(was: Node, after: Node, name: Name) {
    was.Dir? && after.Dir? && name in was.ents && name in after.ents && Bare(after.ents[name]) == Bare(was.ents[name])
  }

  lemma StillIntact(d: Node, name: Name)
    requires d.Dir? && name in d.ents
    ensures Intact(d, d, name) && SameBut(d, d, name)
  {}

  lemma SameBare(d: Node, after: Node, name: Name)
    requires SameBut(d, after, name) && Intact(d, after, name)
    ensures Bare(after) == Bare(d)
  {
    var a, b := Bare(d), Bare(after);
    forall x ensures x in a.ents <==> x in b.ents {
      assert x != name ==> Find(after, x) == Find(d, x);
    }
    forall x | x in a.ents ensures a.ents[x] == b.ents[x] {
      assert x != name ==> Find(after, x) == Find(d, x);
    }
    assert a.ents == b.ents;
  }

  lemma PartialCopyIsLocal(d: Node, copy: Item, made: nat)
    requires d.Dir? && copy.tree.Folder? && made <= |WriteItem(copy)|
    ensures RunOps(d, WriteItem(copy)[..made]).Dir? && SameBut(d, RunOps(d, WriteItem(copy)[..made]), copy.name)
    ensures copy.name !in d.ents ==> OrdinaryAt(RunOps(d, WriteItem(copy)[..made]), copy.name)
  {
    hide RunOps, WriteItem, OrdinaryAt;
    PartialCopy(d, copy, made);
  }

  lemma CopiedIsLocal(d: Node, target: Name, n: Node)
    requires d.Dir?
    ensures SameBut(d, Dir(d.ents[target := n], map[]), target)
  {}

  /** The tree of an orphan is whole in its old place, or under its name in the quarantine directory. */
  ghost predicate Whole(was: Disks, after: Disks, name: Name, target: Name) {
    && was.payloads.Dir? && name in was.payloads.ents
    && (|| Intact(was.payloads, after.payloads, name)
        || (&& after.orphans.Dir? && target in after.orphans.ents
            && Bare(after.orphans.ents[target]) == Bare(was.payloads.ents[name])))
  }

  lemma StillWhole(d: Disks, name: Name, target: Name)
    requires d.payloads.Dir? && name in d.payloads.ents
    ensures Whole(d, d, name, target)
  {}

  lemma RenamedIsWhole(d: Disks, name: Name, target: Name)
    requires d.payloads.Dir? && name in d.payloads.ents && d.orphans.Dir?
    ensures var after := d.(payloads := Drop(d.payloads, name),
                            orphans := Put(d.orphans, target, d.payloads.ents[name]));
            && Whole(d, after, name, target)
            && SameBut(d.payloads, after.payloads, name) && SameBut(d.orphans, after.orphans, target)
  {}

  lemma CopiedIsWhole(was: Disks, after: Disks, name: Name, target: Name, ok: bool)
    requires was.payloads.Dir? && name in was.payloads.ents
    requires ok ==> after.orphans.Dir? && target in after.orphans.ents
    requires ok ==> after.orphans.ents[target] == Bare(was.payloads.ents[name])
    ensures ok ==> Whole(was, after, name, target) && Bare(after.orphans.ents[target]) == Bare(was.payloads.ents[name])
    ensures Intact(was.payloads, after.payloads, name) ==> Whole(was, after, name, target)
  {
    BareTwice(was.payloads.ents[name]);
  }

  lemma FlushedIsWhole(was: Disks, moved: Disks, after: Disks, name: Name, target: Name)
    requires moved.payloads.Dir? && after.payloads.Dir? && after.payloads.ents == moved.payloads.ents
    requires moved.orphans.Dir? && after.orphans.Dir? && after.orphans.ents == moved.orphans.ents
    ensures Whole(was, moved, name, target) ==> Whole(was, after, name, target)
    ensures SameBut(was.payloads, moved.payloads, name) ==> SameBut(was.payloads, after.payloads, name)
    ensures SameBut(was.orphans, moved.orphans, target) ==> SameBut(was.orphans, after.orphans, target)
  {}

  lemma RemovedParts(d: Node, name: Name, ok: bool, ops: seq<Op>, after: Node)
    requires d.Dir? && Removed(d, name, ok, ops, after)
    ensures after == RunOps(d, ops) && after.Dir? && (forall op | op in ops :: Confined(op, name))
    ensures forall x | x != name :: (x in after.ents <==> x in d.ents) && (x in d.ents ==> after.ents[x] == d.ents[x])
    ensures ok ==> name !in after.ents
  {}

  /** Whatever is left of interrupted work is made of files and directories only. */
  lemma LeftoversAreOrdinary(p: Params, run: Run)
    requires run in Runs(p)
    ensures var d := Last(run).disk;
            && d.staging.Dir? && d.payloads.Dir? && d.orphans.Dir? && Ordinary(d.staging)
            && forall k | k in d.payloads.ents :: Ordinary(d.payloads.ents[k])
  {
    hide Inv, Step, Init, Plain, Below, PayloadNode, Ordinary;
    InRuns(p, run);
    var s := Last(run);
    InvAlways(p, run, |run.states| - 1);
    InvAt(p, s, "");
    PlainIsOrdinary(s.disk.staging);
    forall k | k in s.disk.payloads.ents ensures Ordinary(s.disk.payloads.ents[k]) {
      var n := s.disk.payloads.ents[k];
      assert NodeOk(p.codec, s.hist.issued, k, n);
      if k in s.hist.issued && n.Dir? && Below(n, PayloadNode(p.codec, s.hist.issued[k])) {
        BelowIsPlain(n, PayloadNode(p.codec, s.hist.issued[k]));
      }
      PlainIsOrdinary(n);
    }
  }

  lemma SortedNone(c: Codec, payloads: Node)
    ensures forall corrupt :: Sorted(c, payloads, [], corrupt) == []
  {}

  /** After the clean-up, the orphan scan meets directories of records only. */
  lemma EntriesAreRecords(p: Params, run: Run)
    requires run in Runs(p) && Tidying(Last(run).proc)
    ensures var d := Last(run).disk;
            && d.staging.Dir? && d.payloads.Dir? && d.orphans.Dir?
            && forall k | k in d.payloads.ents :: Canonical(k) && d.payloads.ents[k].Dir?
  {
    hide Runs, Canonical, Ordinary;
    InRuns(p, run);
    LeftoversAreOrdinary(p, run);
    RunNotEmpty(p, run);
    SweptTreeIsTidy(p, run, |run.states| - 1);
  }

  lemma RunNotEmpty(p: Params, run: Run)
    requires run in Runs(p)
    ensures run.states != [] && Last(run) == run.states[|run.states| - 1]
  {
    hide Step, Init;
    InRuns(p, run);
  }

  lemma ScanNext(valid: set<string>, was: Disks, after: Disks, moved: map<Name, Name>, todo: set<Name>, name: Name)
    requires ScanProgress(valid, was, after, moved, todo) && name in todo
    ensures after.payloads.Dir? && after.orphans.Dir? && name in after.payloads.ents
    ensures was.payloads.Dir? && name in was.payloads.ents && after.payloads.ents[name] == was.payloads.ents[name]
  {
    hide MovedIntact;
  }

  lemma ApplyDir(d: Node, op: Op)
    requires d.Dir?
    ensures Apply(d, op).Dir?
  {}

  lemma CorruptIsCondemned(r: Record, cause: string, clock: int)
    requires AtRest(r) == r
    ensures GivenUp(r, CorruptRecord(r, cause, clock), cause, clock) && CondemnedAs(r, CorruptRecord(r, cause, clock))
  {
    hide Truncated, Trim;
    AtRestParts(r);
    assert Tight("spool") && Trim("") == "";
    CondemnedSomehow(r, CorruptRecord(r, cause, clock), cause, clock);
  }

  /** The row the worker holds is in the table as it remembers it. */
  lemma HeldRow(p: Params, run: Run)
    requires run in Runs(p) && Last(run).proc.Up?
    requires var w := Last(run).proc.worker;
             w.Claimed? || w.Condemned? || w.Unreadable? || w.Ready? || w.Finalizing? || w.Picked?
    ensures var w := Last(run).proc.worker;
            && w.id in Last(run).rows && Last(run).rows[w.id] == w.rec && AtRest(w.rec) == w.rec && Storable(w.rec)
            && (w.Claimed? || w.Condemned? || w.Unreadable? || w.Ready? ==> w.rec.state == Working)
  {
    hide Inv, Step, Init, RowsMove, CountsOk, WorkingOk, TodoOk, HistoryOk, Storable, AtRest, DecisionOk, Normal;
    InRuns(p, run);
    RInvAlways(p, run, |run.states| - 1);
    var w := Last(run).proc.worker;
    assert RowOk(p, w.id, Last(run).rows[w.id]);
  }

  /** No decision is ever about a record in the wrong state. */
  lemma DecisionApplies(p: Params, run: Run)
    requires run in Runs(p) && Last(run).proc.Up? && Last(run).proc.worker.Finalizing?
    ensures var w := Last(run).proc.worker;
            && w.id in Last(run).rows && Last(run).rows[w.id] == w.rec && w.decision.record.state == w.rec.state
            && Marked(w.decision.record, w.decision.mark, Last(run).clock).Some?
  {
    hide Inv, Step, Init, RowsMove, CountsOk, WorkingOk, TodoOk, HistoryOk, RowOk, Normal, AtRest;
    InRuns(p, run);
    RInvAlways(p, run, |run.states| - 1);
  }

  lemma RequeuedShape(p: Params, run: Run, t: int)
    requires run in Runs(p) && Last(run).proc.Up? && Last(run).proc.worker.Unreadable?
    ensures var rec := Last(run).proc.worker.rec;
            RequeuedRecord(rec, t) == rec.(state := Queued, updated := Truncated(t))
  {
    hide Runs, Truncated, Trim, ErrorAtRest;
    InRuns(p, run);
    HeldRow(p, run);
    var rec := Last(run).proc.worker.rec;
    AtRestParts(rec);
    assert AtRest(rec).lastError == rec.lastError;
  }

  lemma SnapshotIsTodo(rows: Table, working: seq<string>, submitted: seq<string>)
    requires Listed(rows, Working, working) && Listed(rows, Submitted, submitted)
    ensures var todo := working + submitted;
            && (forall id :: id in todo <==> id in rows && (rows[id].state == Working || rows[id].state == Submitted))
            && (forall i, j | 0 <= i < j < |todo| :: todo[i] != todo[j])
  {
    ListedAreDistinct(rows, Working, working);
    ListedAreDistinct(rows, Submitted, submitted);
    assert forall i | 0 <= i < |working| :: working[i] in working;
    assert forall i | 0 <= i < |submitted| :: submitted[i] in submitted;
    hide CreatedBefore;
  }

  ghost function AfterRecoverTable(s: Sys, todo: seq<string>, outcome: TxOutcome): Sys
    requires s.proc.Swept?
  {
    if outcome == RolledBack then s.(proc := Down)
    else s.(rows := RecoveredTable(s.rows, s.proc.now, s.clock),
            proc := if outcome == Committed then Process.Recovering(todo, s.rows.Keys) else Down,
            hist := s.hist.(requeues := RequeuesAfter(s.rows, s.hist.requeues)))
  }

  lemma RecoverTableIsStep(p: Params, s: Sys, working: seq<string>, submitted: seq<string>, outcome: TxOutcome)
    requires s.proc.Swept? && Listed(s.rows, Working, working) && Listed(s.rows, Submitted, submitted)
    requires outcome != RolledBack ==>
               forall id | id in s.rows && s.rows[id].state == Working ::
                 Storable(RecoveredTable(s.rows, s.proc.now, s.clock)[id])
    ensures var todo := working + submitted;
            AfterRecoverTable(s, todo, outcome) in Next(p, s, Proc(RecoverTable(todo, outcome)))
  {
    hide Listed, Storable, RecoveredRecord, RequeuesAfter;
    SnapshotIsTodo(s.rows, working, submitted);
  }

  lemma RecoveredFits(p: Params, run: Run)
    requires run in Runs(p) && RetriesFit(p.worker) && Forward(run) && Last(run).proc.Swept?
    ensures var s := Last(run);
            forall id | id in s.rows && s.rows[id].state == Working ::
              Storable(RecoveredRecord(s.rows[id], s.proc.now, s.clock))
  {
    hide Step, Init, Storable, ClaimedRecord, NewRecord, RecoveredRecord, CorruptRecord, RequeuedRecord, Marked;
    InRuns(p, run);
    NoWriteIsRefused(p, run, |run.states| - 1);
  }

  lemma TodoFits(p: Params, run: Run, cause: string)
    requires run in Runs(p) && RetriesFit(p.worker) && Forward(run) && Last(run).proc.Recovering?
    requires Last(run).proc.todo != []
    ensures Last(run).proc.todo[0] in Last(run).rows
    ensures Storable(CorruptRecord(Last(run).rows[Last(run).proc.todo[0]], cause, Last(run).clock))
  {
    hide Step, Init, Storable, ClaimedRecord, NewRecord, RecoveredRecord, CorruptRecord, RequeuedRecord, Marked;
    InRuns(p, run);
    TodoRow(p, run);
    NoWriteIsRefused(p, run, |run.states| - 1);
    assert Last(run).proc.todo[0] in Last(run).proc.todo;
  }

  lemma TodoRow(p: Params, run: Run)
    requires run in Runs(p) && Last(run).proc.Recovering? && Last(run).proc.todo != []
    ensures var s := Last(run);
            && s.proc.todo[0] in s.rows && AtRest(s.rows[s.proc.todo[0]]) == s.rows[s.proc.todo[0]]
            && (s.rows[s.proc.todo[0]].state == Queued || s.rows[s.proc.todo[0]].state == Submitted)
  {
    hide Inv, Step, Init, RowsMove, CountsOk, WorkingOk, WorkerOk, HistoryOk, Storable, AtRest;
    InRuns(p, run);
    RInvAlways(p, run, |run.states| - 1);
    var s := Last(run);
    assert s.proc.todo[0] in s.proc.todo;
    assert RowOk(p, s.proc.todo[0], s.rows[s.proc.todo[0]]);
  }

  lemma HeldFits(p: Params, run: Run)
    requires run in Runs(p) && RetriesFit(p.worker) && Forward(run) && Last(run).proc.Up?
    ensures var w := Last(run).proc.worker;
            && (w.Condemned? ==> Storable(CorruptRecord(w.rec, w.cause, Last(run).clock)))
            && (w.Unreadable? ==> Storable(RequeuedRecord(w.rec, Last(run).clock)))
            && (w.Finalizing? ==>
                  var r := Marked(w.decision.record, w.decision.mark, Last(run).clock);
                  r.Some? && Storable(r.value))
  {
    hide Step, Init, Storable, ClaimedRecord, NewRecord, RecoveredRecord, CorruptRecord, RequeuedRecord, Marked;
    InRuns(p, run);
    NoWriteIsRefused(p, run, |run.states| - 1);
  }
  lemma ClaimFits(p: Params, run: Run, id: string)
    requires run in Runs(p) && RetriesFit(p.worker) && Forward(run)
    requires id in Last(run).rows && Last(run).rows[id].state == Queued && Last(run).proc.Up?
    requires Last(run).proc.worker.Claiming?
    ensures Storable(ClaimedRecord(Last(run).rows[id], Last(run).clock))
  {
    hide Step, Init, Storable, ClaimedRecord, NewRecord, RecoveredRecord, CorruptRecord, RequeuedRecord, Marked;
    InRuns(p, run);
    NoWriteIsRefused(p, run, |run.states| - 1);
  }
}
