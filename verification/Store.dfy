/**
 The spool store as an object: the table and the payload tree it changes in place. Every change is also a step
 of the relay machine, recorded in the ghost run, so what is proved of all runs holds of the object.
 */
module Store {
  import opened Options
  import opened Text
  import opened Ids
  import opened Disk
  import opened Payload
  import opened Rows
  import opened Delivery
  import opened Machine
  import opened Clock
  import opened Trees
  import opened Recovery
  import opened Theorems
  import opened RunSteps
  import opened StoreFacts

  class SpoolStore {
    const p: Params
    var disk: Disks
    var rows: Table
    var clock: int
    var inflight: nat
    ghost var run: Run

    ghost function Now(): Sys
      reads this`run
    {
      Last(run)
    }

    ghost predicate Valid()
      reads this
    {
      && run in Runs(p)
      && Now().disk == disk && Now().rows == rows && Now().clock == clock && |Now().enq| == inflight
    }

    /** The clock has not gone back so far, and no retry wait wraps around. */
    ghost predicate Calm()
      reads this
    {
      p.worker.Valid() && RetriesFit(p.worker) && Forward(run)
    }

    constructor (p: Params, clock: int)
      requires p.Valid()
      ensures Valid() && this.p == p && Init(Now()) && run.labels == [] && this.clock == clock
    {
      this.p := p;
      this.disk := Disks(EMPTY_DIR, EMPTY_DIR, EMPTY_DIR);
      this.rows := map[];
      this.clock := clock;
      this.inflight := 0;
      this.run := Run([FRESH.(clock := clock)], []);
    }

    /** Records a step the fields have already made. */
    ghost method Log(l: Label, s: Sys)
      requires run in Runs(p) && s in Next(p, Now(), l) && s.disk == disk && s.rows == rows && s.clock == clock
      requires |s.enq| == inflight
      modifies this`run
      ensures Continues(old(run), run)
      ensures Valid() && run == Extended(old(run), l, s) && Now() == s
      ensures Forward(old(run)) && old(Now()).clock <= s.clock ==> Forward(run)
    {
      ExtendedIsValid(p, run, l, s);
      run := Extended(run, l, s);
    }

    method ReadClock(calm: bool) returns (t: int)
      requires Valid() && (calm ==> Calm())
      modifies this
      ensures Continues(old(run), run)
      ensures Valid() && t == clock && rows == old(rows) && disk == old(disk) && (calm ==> Calm() && t >= old(clock))
      ensures Now() == old(Now()).(clock := t)
    {
      hide Runs, Next, Init;
      t := *;
      if calm && t < clock { t := clock; }
      ghost var s := Now().(clock := t);
      TickIs(p, Now(), t);
      clock := t;
      Log(Tick(t), s);
    }

    /** The fate of a transaction that writes `r`. */
    method Commit(r: Record, calm: bool) returns (outcome: TxOutcome)
      ensures MayWrite(r, outcome)
      ensures calm && Storable(r) ==> outcome == Committed
    {
      outcome := *;
      if !Storable(r) { outcome := RolledBack; } else if calm { outcome := Committed; }
    }

    // ---- claims ----

    /** `claimReadyMetadata`. */
    method ClaimReadyMetadata(now: int, calm: bool) returns (found: Option<string>, outcome: TxOutcome)
      requires Valid() && (calm ==> Calm()) && Now().proc == Up(Worker.Claiming(now))
      modifies this
      ensures Continues(old(run), run)
      ensures Valid() && (calm ==> Calm()) && disk == old(disk)
      ensures found.None? ==> NoneDue(rows, Queued, now) && rows == old(rows) && Now().proc == Up(Idle)
      ensures found.Some? ==> FirstDue(old(rows), Queued, now, found.value) && (calm ==> outcome == Committed)
      ensures found.Some? && outcome != Committed ==> Now().proc == Up(Stopped)
      ensures found.Some? && outcome == RolledBack ==> rows == old(rows)
      ensures found.Some? && outcome != RolledBack ==> OnlyTouched(old(rows), rows, found.value, Working)
      ensures found.Some? && outcome != RolledBack ==> rows[found.value].updated == Truncated(clock)
      ensures found.Some? && outcome == Committed ==>
                Now().proc == Up(Worker.Claimed(found.value, rows[found.value], now))
      ensures CallsOf(Now().hist) == old(CallsOf(Now().hist))
    {
      hide Runs, Next, Init, Before, Storable;
      outcome := Committed;
      found := QueryFirstDue(rows, Queued, now);
      if found.None? {
        ClaimNothingIs(p, Now(), Now().(proc := Up(Idle)));
        Log(Work(ClaimNothing), Now().(proc := Up(Idle)));
        return;
      }
      var id := found.value;
      var t := ReadClock(calm);
      var r := ClaimedRecord(rows[id], t);
      if calm { ClaimFits(p, run, id); }
      outcome := Commit(r, calm);
      ghost var s := Now();
      rows := Written(rows, id, r, outcome);
      ghost var s' := s.(rows := rows,
                         proc := Up(if outcome == Committed then Worker.Claimed(id, r, now) else Stopped));
      ClaimIs(p, s, id, outcome, s');
      Log(Work(WorkerStep.Claim(id, outcome)), s');
    }

    /** `deadLetterCorruptRecord`, for the row just claimed. */
    method DeadLetterCorruptRecord(id: string, rec: Record, cause: string, now: int, calm: bool)
      returns (outcome: TxOutcome)
      requires Valid() && (calm ==> Calm()) && Now().proc == Up(Worker.Condemned(id, rec, now, cause))
      modifies this
      ensures Continues(old(run), run)
      ensures Valid() && (calm ==> Calm() && outcome == Committed) && disk == old(disk)
      ensures id in old(rows) && old(rows)[id] == rec
      ensures outcome == RolledBack ==> rows == old(rows)
      ensures outcome != RolledBack ==> id in rows && rows == old(rows)[id := rows[id]]
      ensures outcome != RolledBack ==> GivenUp(rec, rows[id], cause, clock) && CondemnedAs(rec, rows[id])
      ensures Now().proc == Up(if outcome == Committed then Worker.Claiming(now) else Stopped)
      ensures CallsOf(Now().hist) == old(CallsOf(Now().hist))
    {
      hide Runs, Next, Init, Storable, CorruptRecord;
      HeldRow(p, run);
      var t := ReadClock(calm);
      var r := CorruptRecord(rec, cause, t);
      CorruptIsCondemned(rec, cause, t);
      if calm { HeldFits(p, run); }
      outcome := Commit(r, calm);
      ghost var s := Now();
      rows := Written(rows, id, r, outcome);
      ghost var s' := s.(rows := rows, proc := Up(if outcome == Committed then Worker.Claiming(now) else Stopped),
                         hist := s.hist.(condemned := s.hist.condemned + (if outcome == RolledBack then {} else {id})));
      DeadLetterIs(p, s, outcome, s');
      Log(Work(DeadLetterCorrupt(outcome)), s');
    }

    /** `requeueClaimedRecord`. */
    method RequeueClaimedRecord(id: string, rec: Record, now: int, calm: bool) returns (outcome: TxOutcome)
      requires Valid() && (calm ==> Calm()) && Now().proc == Up(Worker.Unreadable(id, rec, now))
      modifies this
      ensures Continues(old(run), run)
      ensures Valid() && (calm ==> Calm() && outcome == Committed) && disk == old(disk) && Now().proc == Up(Stopped)
      ensures id in old(rows) && old(rows)[id] == rec
      ensures outcome == RolledBack ==> rows == old(rows)
      ensures outcome != RolledBack ==> OnlyTouched(old(rows), rows, id, Queued) && rows[id].updated == Truncated(clock)
      ensures CallsOf(Now().hist) == old(CallsOf(Now().hist))
    {
      hide Runs, Next, Init, Storable, RequeuedRecord;
      HeldRow(p, run);
      var t := ReadClock(calm);
      var r := RequeuedRecord(rec, t);
      RequeuedShape(p, run, t);
      if calm { HeldFits(p, run); }
      outcome := Commit(r, calm);
      ghost var s := Now();
      rows := Written(rows, id, r, outcome);
      RequeueIs(p, s, outcome, s.(rows := rows, proc := Up(Stopped)));
      Log(Work(Requeue(outcome)), s.(rows := rows, proc := Up(Stopped)));
    }

    /** Loads the payload of the row just claimed. */
    method LoadClaimed(id: string, rec: Record, now: int, cause: string, calm: bool) returns (out: LoadOutcome)
      requires Valid() && (calm ==> Calm()) && Now().proc == Up(Worker.Claimed(id, rec, now))
      modifies this`run
      ensures Continues(old(run), run)
      ensures Valid() && (calm ==> Calm() && out.Read?)
      ensures out.Read? ==> out.result == LoadNode(p.codec, Find(disk.payloads, id))
      ensures Now() == old(Now()).(proc := Up(
                match out
                case ReadError => Worker.Unreadable(id, rec, now)
                case Read(Loaded(msg)) => Worker.Ready(id, rec, msg, now)
                case Read(Corrupt) => Worker.Condemned(id, rec, now, cause)))
    {
      hide Runs, Next, Init, LoadNode;
      out := Load(p.codec, Find(disk.payloads, id), !calm);
      ghost var s := Now();
      ghost var (l, w) := match out
        case ReadError => (LoadError, Worker.Unreadable(id, rec, now))
        case Read(Loaded(msg)) => (LoadGood, Worker.Ready(id, rec, msg, now))
        case Read(Corrupt) => (LoadCorrupt(cause), Worker.Condemned(id, rec, now, cause));
      LoadIs(p, s, l, s.(proc := Up(w)));
      Log(Work(l), s.(proc := Up(w)));
    }

    /**
     `ClaimReady`: claims the first due queued row whose payload loads. It ends after at most as many rounds as
     there are due rows.
     */
    method ClaimReady(now: int, calm: bool) returns (out: Claim)
      requires Valid() && (calm ==> Calm()) && Now().proc == Up(Worker.Claiming(now))
      modifies this
      ensures Continues(old(run), run)
      ensures Valid() && disk == old(disk)
      ensures calm ==> Calm() && !out.Unreadable? && !out.StoreFailed?
      ensures out.Got? ==>
                && ClaimsFirstLoadable(p.codec, disk.payloads, old(rows), rows, now, out.id)
                && LoadNode(p.codec, Find(disk.payloads, out.id)) == Loaded(out.msg) && out.rec == rows[out.id]
                && out.rec.updated == Truncated(clock) && Now().proc == Up(Worker.Ready(out.id, out.rec, out.msg, now))
      ensures out.NothingDue? ==> NothingLoadable(p.codec, disk.payloads, old(rows), rows, now)
      ensures out.NothingDue? ==> Now().proc == Up(Idle)
      ensures out.Unreadable? ==> RequeuedFirst(p.codec, disk.payloads, old(rows), rows, now, out.id)
      ensures out.Unreadable? ==> rows[out.id].updated == Truncated(clock) && Now().proc == Up(Stopped)
      ensures out.StoreFailed? ==> ClaimInterrupted(p.codec, disk.payloads, old(rows), rows, now)
      ensures out.StoreFailed? ==> Now().proc == Up(Stopped)
      ensures CallsOf(Now().hist) == old(CallsOf(Now().hist))
    {
      hide Runs, Next, Init, LoadNode, CondemnedAs, RetriesFit, Forward, ClaimProgress, FirstDue, NoneDue, OnlyTouched,
           ClaimsFirstLoadable, NothingLoadable, RequeuedFirst, ClaimInterrupted, DueRows, Continues;
      SameRun(run);
      StartOfClaim(p.codec, disk.payloads, rows, now);
      ghost var was := rows;
      while true
        invariant Valid() && (calm ==> Calm()) && disk == old(disk) && Now().proc == Up(Worker.Claiming(now))
        invariant CallsOf(Now().hist) == old(CallsOf(Now().hist))
        invariant Continues(old(run), run)
        invariant ClaimProgress(p.codec, disk.payloads, was, rows, now)
        decreases |DueRows(rows, now)|
      {
        ghost var before, r0 := rows, run;
        var found, outcome := ClaimReadyMetadata(now, calm);
        Onward(old(run), r0, run);
        if found.None? {
          AllSkipped(p.codec, disk.payloads, was, rows, now);
          return NothingDue;
        }
        var id := found.value;
        if outcome != Committed {
          ClaimStopped(p.codec, disk.payloads, was, before, rows, now, id, Working);
          return StoreFailed;
        }
        ghost var claimed := rows;
        TouchedShape(before, claimed, id, Working);
        NextIsFirst(p.codec, disk.payloads, was, before, now, id);
        var rec := rows[id];
        var cause: string := *;
        ghost var r1 := run;
        var loaded := LoadClaimed(id, rec, now, cause, calm);
        Onward(old(run), r1, run);
        ghost var r2 := run;
        if loaded.Read? && loaded.result.Loaded? {
          ClaimGot(p.codec, disk.payloads, was, before, rows, now, id);
          return Got(id, rec, loaded.result.msg);
        } else if loaded.Read? {
          outcome := DeadLetterCorruptRecord(id, rec, cause, now, calm);
          Onward(old(run), r2, run);
          if outcome == RolledBack {
            ClaimStopped(p.codec, disk.payloads, was, before, rows, now, id, Working);
          } else {
            SkippedOneMore(p.codec, disk.payloads, was, before, rows, now, id, rec);
          }
          if outcome != Committed {
            if outcome != RolledBack { ProgressIsInterrupted(p.codec, disk.payloads, was, rows, now); }
            return StoreFailed;
          }
        } else {
          outcome := RequeueClaimedRecord(id, rec, now, calm);
          Onward(old(run), r2, run);
          if outcome != RolledBack { TouchedTwice(before, claimed, rows, id, Working, Queued); }
          if outcome != Committed {
            ClaimStopped(p.codec, disk.payloads, was, before, rows, now, id, rows[id].state);
            return StoreFailed;
          }
          ClaimRequeued(p.codec, disk.payloads, was, before, rows, now, id);
          return Claim.Unreadable(id);
        }
      }
    }

    /** `nextSubmittedReady`: a plain query, which may fail. */
    method NextSubmittedReady(now: int, calm: bool) returns (failed: bool, found: Option<string>)
      requires Valid() && (calm ==> Calm()) && Now().proc == Up(Polling(now))
      modifies this`run
      ensures Continues(old(run), run)
      ensures Valid() && (calm ==> Calm() && !failed)
      ensures failed ==> Now().proc == Up(Stopped)
      ensures !failed && found.None? ==> NoneDue(rows, Submitted, now) && Now().proc == Up(Worker.Claiming(now))
      ensures !failed && found.Some? ==> FirstDue(rows, Submitted, now, found.value)
      ensures !failed && found.Some? ==> Now().proc == Up(Picked(found.value, rows[found.value], now))
      ensures CallsOf(Now().hist) == old(CallsOf(Now().hist))
    {
      hide Runs, Next, Init, RetriesFit, Forward, Before;
      ghost var s := Now();
      failed := *;
      if calm { failed := false; }
      found := None;
      if failed {
        StopIs(p, s, s.(proc := Up(Stopped)));
        Log(Work(Stop), s.(proc := Up(Stopped)));
        return;
      }
      found := QueryFirstDue(rows, Submitted, now);
      if found.None? {
        NoSubmittedIs(p, s, s.(proc := Up(Worker.Claiming(now))));
        Log(Work(NoSubmitted), s.(proc := Up(Worker.Claiming(now))));
      } else {
        PickSubmittedIs(p, s, found.value, s.(proc := Up(Picked(found.value, rows[found.value], now))));
        Log(Work(PickSubmitted(found.value)), s.(proc := Up(Picked(found.value, rows[found.value], now))));
      }
    }

    /** A `mark*` method under `finalizeRecord`: writes the decision, or fails and stops the worker. */
    method FinalizeRecord(id: string, rec: Record, d: Decision, now: int, calm: bool) returns (outcome: TxOutcome)
      requires Valid() && (calm ==> Calm()) && Now().proc == Up(Finalizing(id, rec, d, now))
      modifies this
      ensures Continues(old(run), run)
      ensures Valid() && (calm ==> Calm() && outcome == Committed) && disk == old(disk)
      ensures id in old(rows) && old(rows)[id] == rec && Marked(d.record, d.mark, clock).Some?
      ensures rows ==
                if outcome == RolledBack then old(rows) else old(rows)[id := Marked(d.record, d.mark, clock).value]
      ensures Now().proc ==
                Up(if outcome != Committed then Stopped
                   else if rec.state == Working then Idle else Worker.Claiming(now))
      ensures CallsOf(Now().hist) == old(CallsOf(Now().hist))
    {
      hide Runs, Next, Init, RetriesFit, Forward, Storable, Marked;
      var t := ReadClock(calm);
      DecisionApplies(p, run);
      if calm { HeldFits(p, run); }
      var r := Marked(d.record, d.mark, t).value;
      outcome := Commit(r, calm);
      ghost var s := Now();
      rows := Written(rows, id, r, outcome);
      ghost var s' := s.(rows := rows,
                         proc := Up(if outcome != Committed then Stopped
                                    else if rec.state == Working then Idle else Worker.Claiming(now)),
                         hist := Recorded(s.hist, id, Accepts(d.mark, outcome)));
      FinalizeIs(p, s, outcome, s');
      Log(Work(Finalize(outcome)), s');
    }

    // ---- changes of the payload tree ----

    /** `syncFD` on one of the directories; it may fail, and then nothing is known to be durable. */
    method Sync(staging: bool, payloads: bool, orphans: bool, calm: bool) returns (ok: bool)
      requires Valid()
      modifies this
      ensures Continues(old(run), run)
      ensures Valid() && rows == old(rows) && clock == old(clock) && (old(Calm()) ==> Calm()) && (calm ==> ok)
      ensures disk == if ok then AllFlushed(old(disk), staging, payloads, orphans) else old(disk)
      ensures Now() == old(Now()).(disk := disk)
    {
      hide Runs, Next, Init;
      ghost var s := Now();
      ok := *;
      if !calm && !ok { return false; }
      disk := AllFlushed(disk, staging, payloads, orphans);
      FlushIs(p, s, staging, payloads, orphans, s.(disk := disk));
      Log(Flush(staging, payloads, orphans), s.(disk := disk));
      ok := true;
    }

    /** Makes removal calls in payloads/, one by one. */
    method RemoveInPayloads(why: Removal, id: string, name: Name, ops: seq<Op>)
      requires Valid() && disk.payloads.Dir? && MayRemove(why, Now(), id, name)
      requires forall op | op in ops :: Confined(op, name)
      modifies this
      ensures Continues(old(run), run)
      ensures Valid() && rows == old(rows) && clock == old(clock) && (old(Calm()) ==> Calm())
      ensures disk == old(disk).(payloads := RunOps(old(disk).payloads, ops)) && disk.payloads.Dir?
      ensures Now() == old(Now()).(disk := disk, hist := Now().hist)
      ensures RemovalRecorded(why, id, old(Now()).hist, Now().hist)
    {
      hide Runs, Next, Init, Confined, RunOps, Apply, RetriesFit, Forward, MayRemove;
      RunNothing(disk.payloads);
      ghost var first := disk;
      var i := 0;
      while i < |ops|
        invariant 0 <= i <= |ops| && Valid() && rows == old(rows) && clock == old(clock) && (old(Calm()) ==> Calm())
        invariant Continues(old(run), run)
        invariant disk == first.(payloads := RunOps(first.payloads, ops[..i])) && disk.payloads.Dir?
        invariant Now() == old(Now()).(disk := disk, hist := Now().hist)
        invariant RemovalRecorded(why, id, old(Now()).hist, Now().hist)
        invariant MayRemove(why, Now(), id, name)
      {
        ghost var s := Now();
        RunNext(first.payloads, ops, i);
        RemovalIsStep(p, s, why, id, name, ops[i]);
        disk := disk.(payloads := Apply(disk.payloads, ops[i]));
        Log(RemovalLabel(why, id, name, ops[i]), s.(disk := disk, hist := RemovalHistory(why, s, id)));
        i := i + 1;
      }
      assert ops[..i] == ops;
    }

    /** Makes removal calls in staging/, one by one. */
    method RemoveInStaging(ops: seq<Op>)
      requires Valid() && disk.staging.Dir? && Now().proc.Sweeping? && forall op | op in ops :: op.call.Unlink?
      modifies this
      ensures Continues(old(run), run)
      ensures Valid() && rows == old(rows) && clock == old(clock) && (old(Calm()) ==> Calm())
      ensures disk == old(disk).(staging := RunOps(old(disk).staging, ops)) && disk.staging.Dir?
      ensures Now() == old(Now()).(disk := disk)
    {
      hide Runs, Next, Init, RunOps, Apply, RetriesFit, Forward;
      RunNothing(disk.staging);
      ghost var first := disk;
      var i := 0;
      while i < |ops|
        invariant 0 <= i <= |ops| && Valid() && rows == old(rows) && clock == old(clock) && (old(Calm()) ==> Calm())
        invariant Continues(old(run), run)
        invariant disk == first.(staging := RunOps(first.staging, ops[..i])) && disk.staging.Dir?
        invariant Now() == old(Now()).(disk := disk)
      {
        ghost var s := Now();
        RunNext(first.staging, ops, i);
        ApplyDir(disk.staging, ops[i]);
        disk := disk.(staging := Apply(disk.staging, ops[i]));
        SweepStagingIs(p, s, ops[i], s.(disk := disk));
        Log(Proc(SweepStaging(ops[i])), s.(disk := disk));
        i := i + 1;
      }
      assert ops[..i] == ops;
    }

    // ---- start-up ----

    /** `cleanupPayloadTemps`. */
    method CleanupPayloadTemps(calm: bool) returns (ok: bool)
      requires Valid() && (calm ==> Calm()) && Now().proc == Process.Sweeping
      modifies this
      ensures Continues(old(run), run)
      ensures Valid() && rows == old(rows) && (calm ==> Calm() && ok) && Now() == old(Now()).(disk := disk)
      ensures disk == old(disk).(payloads := disk.payloads)
      ensures (ok ==> SweptSoFar(old(disk).payloads, disk.payloads, {}))
    {
      hide Runs, Next, Init, RunOps, Removed, RetriesFit, Forward, HasPrefix, SweptSoFar, Confined, Ordinary;
      LeftoversAreOrdinary(p, run);
      ghost var was := disk;
      SweepStarts(disk.payloads);
      var todo := set k | k in disk.payloads.ents && HasPrefix(k, PUBLISH_PREFIX);
      while todo != {}
        invariant Valid() && rows == old(rows) && (calm ==> Calm()) && Now() == old(Now()).(disk := disk)
        invariant Continues(old(run), run)
        invariant disk.payloads.Dir? && disk == was.(payloads := disk.payloads)
        invariant SweptSoFar(was.payloads, disk.payloads, todo)
        decreases todo
      {
        var k :| k in todo;
        ghost var mid := disk.payloads;
        LeftoversAreOrdinary(p, run);
        SweepHas(was.payloads, mid, todo, k);
        var done, ops, after := RemoveEntryTree(disk.payloads, k, !calm);
        RemovedParts(disk.payloads, k, done, ops, after);
        RemoveInPayloads(Leftover, "", k, ops);
        if !done { return false; }
        SweptOneMore(was.payloads, mid, disk.payloads, todo, k);
        todo := todo - {k};
      }
      ghost var mid := disk.payloads;
      ok := Sync(false, true, false, calm);
      SweepSynced(was.payloads, mid, disk.payloads);
    }

    /** `NewPayloadStore`: empties staging/ and removes publish temporaries. Without faults it always succeeds. */
    method CleanUp(calm: bool) returns (ok: bool)
      requires Valid() && (calm ==> Calm()) && Now().proc == Process.Sweeping
      modifies this
      ensures Continues(old(run), run)
      ensures Now().hist.issued == old(Now()).hist.issued
      ensures Valid() && rows == old(rows) && (calm ==> Calm() && ok)
      ensures ok ==> Now().proc == Swept(clock) && Tidied(old(disk), disk)
    {
      hide Runs, Next, Init, RunOps, RetriesFit, Forward, HasPrefix, Ordinary, Continues;
      SameRun(run);
      LeftoversAreOrdinary(p, run);
      var done, ops, after := RemoveTreeContents(disk.staging, !calm);
      ghost var r0 := run;
      RemoveInStaging(ops);
      Onward(old(run), r0, run);
      if !done { return false; }
      ghost var r1 := run;
      ok := Sync(true, false, false, calm);
      Onward(old(run), r1, run);
      if !ok { return; }
      ghost var r2 := run;
      ok := CleanupPayloadTemps(calm);
      Onward(old(run), r2, run);
      if !ok { return; }
      ghost var r3 := run;
      var t := ReadClock(calm);
      Onward(old(run), r3, run);
      ghost var s := Now();
      SweepDoneIs(p, s, s.(proc := Swept(t)));
      ghost var r4 := run;
      Log(Proc(SweepDone), s.(proc := Swept(t)));
      Onward(old(run), r4, run);
    }

    /** `recoverMetadata`: one transaction puts every working row back in the queue. */
    method RecoverMetadata(now: int, calm: bool) returns (ok: bool, working: seq<string>, submitted: seq<string>)
      requires Valid() && (calm ==> Calm()) && Now().proc == Swept(now)
      modifies this
      ensures Continues(old(run), run)
      ensures Now().hist.issued == old(Now()).hist.issued
      ensures Valid() && (calm ==> Calm() && ok) && disk == old(disk)
      ensures Listed(old(rows), Working, working) && Listed(old(rows), Submitted, submitted)
      ensures ok ==> rows == RecoveredTable(old(rows), now, clock)
      ensures ok ==> Now().proc == Process.Recovering(working + submitted, rows.Keys)
      ensures !ok ==> Now().proc == Down && (rows == old(rows) || rows == RecoveredTable(old(rows), now, clock))
    {
      hide Runs, Next, Init, Storable, RecoveredRecord, Listed, Step, RequeuesAfter, Continues;
      SameRun(run);
      working := QueryByState(rows, Working);
      submitted := QueryByState(rows, Submitted);
      ghost var r0 := run;
      var t := ReadClock(calm);
      Onward(old(run), r0, run);
      var table := RecoveredTable(rows, now, t);
      var outcome: TxOutcome := *;
      if calm { RecoveredFits(p, run); }
      if !forall id | id in rows && rows[id].state == Working :: Storable(table[id]) {
        outcome := RolledBack;
      } else if calm {
        outcome := Committed;
      }
      ghost var s := Now();
      rows := if outcome == RolledBack then rows else table;
      ok := outcome == Committed;
      assert table.Keys == s.rows.Keys;
      RecoverTableIsStep(p, s, working, submitted, outcome);
      ghost var r1 := run;
      Log(Proc(RecoverTable(working + submitted, outcome)), AfterRecoverTable(s, working + submitted, outcome));
      Onward(old(run), r1, run);
    }

    /** One record of the recovery loops: keep it, or dead-letter it if its payload is corrupt. */
    method RecoverRecord(id: string, calm: bool) returns (ok: bool, kept: bool)
      requires Valid() && (calm ==> Calm()) && Now().proc.Recovering? && Now().proc.todo != []
      requires Now().proc.todo[0] == id
      modifies this
      ensures Continues(old(run), run)
      ensures Now().hist.issued == old(Now()).hist.issued
      ensures Valid() && (calm ==> Calm() && ok) && disk == old(disk) && rows.Keys == old(rows).Keys && id in rows
      ensures forall k | k in rows && k != id :: rows[k] == old(rows)[k]
      ensures ok ==> Now().proc == Process.Recovering(old(Now()).proc.todo[1..], old(Now()).proc.valid)
      ensures ok ==> (kept <==> !CorruptAt(p.codec, disk.payloads, id))
      ensures ok ==> Judged(p.codec, disk.payloads, id, old(rows)[id], rows[id])
      ensures rows[id] == old(rows)[id] || Judged(p.codec, disk.payloads, id, old(rows)[id], rows[id])
      ensures !ok ==> Now().proc == Down
    {
      hide Runs, Next, Init, Storable, CorruptRecord, LoadNode;
      TodoRow(p, run);
      var found := Load(p.codec, Find(disk.payloads, id), !calm);
      if found.ReadError? {
        ghost var s0 := Now();
        inflight := 0;
        ExitIs(p, s0);
        Log(Proc(Exit), s0.(enq := map[], proc := Down));
        return false, false;
      }
      if found.result.Loaded? {
        ghost var s0 := Now();
        RecoverGoodIs(p, s0, s0.(proc := Process.Recovering(s0.proc.todo[1..], s0.proc.valid)));
        Log(Proc(RecoverGood), s0.(proc := Process.Recovering(s0.proc.todo[1..], s0.proc.valid)));
        return true, true;
      }
      var cause: string := *;
      ok := DeadLetterRecovered(id, cause, calm);
      kept := false;
    }

    /** `deadLetterCorruptRecord`, for a record of the recovery snapshot. */
    method DeadLetterRecovered(id: string, cause: string, calm: bool) returns (ok: bool)
      requires Valid() && (calm ==> Calm()) && Now().proc.Recovering? && Now().proc.todo != []
      requires Now().proc.todo[0] == id
      requires CorruptAt(p.codec, disk.payloads, id)
      modifies this
      ensures Continues(old(run), run)
      ensures Now().hist.issued == old(Now()).hist.issued
      ensures Valid() && (calm ==> Calm() && ok) && disk == old(disk) && rows.Keys == old(rows).Keys && id in rows
      ensures forall k | k in rows && k != id :: rows[k] == old(rows)[k]
      ensures ok ==> Now().proc == Process.Recovering(old(Now()).proc.todo[1..], old(Now()).proc.valid)
      ensures ok ==> GivenUp(old(rows)[id], rows[id], cause, clock) && CondemnedAs(old(rows)[id], rows[id])
      ensures !ok ==> rows[id] == old(rows)[id] || GivenUp(old(rows)[id], rows[id], cause, clock)
      ensures !ok ==> Now().proc == Down
    {
      hide Runs, Next, Init, Storable, CorruptRecord, LoadNode;
      TodoRow(p, run);
      var t := ReadClock(calm);
      var r := CorruptRecord(rows[id], cause, t);
      CorruptIsCondemned(rows[id], cause, t);
      if calm { TodoFits(p, run, cause); }
      var outcome := Commit(r, calm);
      ghost var s := Now();
      rows := Written(rows, id, r, outcome);
      ok := outcome == Committed;
      ghost var s' := s.(rows := rows, proc := if ok then Process.Recovering(s.proc.todo[1..], s.proc.valid) else Down,
                         hist := s.hist.(condemned := s.hist.condemned + (if outcome == RolledBack then {} else {id})));
      RecoverCorruptIs(p, s, cause, outcome, s');
      Log(Proc(RecoverCorrupt(cause, outcome)), s');
    }

    /** A recovery loop over `ids`. */
    method RecoverRecords(ids: seq<string>, rest: seq<string>, calm: bool)
      returns (ok: bool, kept: seq<string>, dead: seq<string>)
      requires Valid() && (calm ==> Calm()) && Now().proc.Recovering? && Now().proc.todo == ids + rest
      requires forall i, j | 0 <= i < j < |ids| :: ids[i] != ids[j]
      modifies this
      ensures Continues(old(run), run)
      ensures Now().hist.issued == old(Now()).hist.issued
      ensures Valid() && (calm ==> Calm() && ok) && disk == old(disk) && rows.Keys == old(rows).Keys
      ensures forall k | k in rows && k !in ids :: rows[k] == old(rows)[k]
      ensures ok ==> Now().proc == Process.Recovering(rest, old(Now()).proc.valid)
      ensures ok ==> forall k | k in ids :: k in rows && Judged(p.codec, disk.payloads, k, old(rows)[k], rows[k])
      ensures forall k | k in ids && k in rows ::
                rows[k] == old(rows)[k] || Judged(p.codec, disk.payloads, k, old(rows)[k], rows[k])
      ensures ok ==> kept == Sorted(p.codec, disk.payloads, ids, false)
      ensures ok ==> dead == Sorted(p.codec, disk.payloads, ids, true)
      ensures !ok ==> Now().proc == Down
    {
      hide Runs, Next, Init, RetriesFit, Forward, CorruptAt, Judged, Sorted;
      SortedNone(p.codec, disk.payloads);
      kept, dead := [], [];
      ghost var was, valid := rows, Now().proc.valid;
      var i := 0;
      while i < |ids|
        invariant 0 <= i <= |ids| && Valid() && (calm ==> Calm()) && disk == old(disk) && rows.Keys == was.Keys
        invariant Continues(old(run), run)
        invariant Now().proc == Process.Recovering(ids[i..] + rest, valid)
        invariant Now().hist.issued == old(Now()).hist.issued
        invariant forall k | k in rows && k !in ids[..i] :: rows[k] == was[k]
        invariant forall j | 0 <= j < i ::
                    ids[j] in rows && Judged(p.codec, disk.payloads, ids[j], was[ids[j]], rows[ids[j]])
        invariant kept == Sorted(p.codec, disk.payloads, ids[..i], false)
        invariant dead == Sorted(p.codec, disk.payloads, ids[..i], true)
      {
        var id := ids[i];
        assert (ids[i..] + rest)[1..] == ids[i + 1..] + rest && id !in ids[..i];
        var fine, loads := RecoverRecord(id, calm);
        if !fine { return false, kept, dead; }
        SortedNext(p.codec, disk.payloads, ids, i, false);
        SortedNext(p.codec, disk.payloads, ids, i, true);
        if loads { kept := kept + [id]; } else { dead := dead + [id]; }
        i := i + 1;
      }
      assert ids[..i] == ids && ids[i..] + rest == rest;
      ok := true;
    }

    // ---- orphans ----

    /**
     `copyAndRemoveOrphan`: the quarantine directory is on another device. When it fails, the original is still whole
     exactly if none of its entries has been removed yet; the copy is removed as far as that goes.
     */
    method CopyAndRemoveOrphan(name: Name, target: Name, calm: bool, tidy: bool)
      returns (ok: bool, ghost calls: seq<Op>)
      requires Valid() && (calm ==> Calm()) && Now().proc.Quarantining? && name !in Now().proc.valid
      requires disk.payloads.Dir? && name in disk.payloads.ents && disk.payloads.ents[name].Dir?
      requires disk.orphans.Dir? && target !in disk.orphans.ents
      modifies this
      ensures Continues(old(run), run)
      ensures Valid() && rows == old(rows) && (calm ==> Calm() && ok) && Now() == old(Now()).(disk := disk)
      ensures disk.staging == old(disk).staging && disk.payloads == RunOps(old(disk).payloads, calls)
      ensures disk.payloads.Dir?
      ensures disk.orphans.Dir?
      ensures SameBut(old(disk).payloads, disk.payloads, name) && SameBut(old(disk).orphans, disk.orphans, target)
      ensures ok ==>
                && disk.payloads.ents == old(disk).payloads.ents - {name}
                && disk.orphans.ents == old(disk).orphans.ents[target := Bare(old(disk).payloads.ents[name])]
      ensures !ok ==> (Intact(old(disk).payloads, disk.payloads, name) <==> calls == [])
      ensures !ok && tidy ==> target !in disk.orphans.ents
    {
      hide Runs, Next, Init, RetriesFit, Forward, RunOps, Removed, Ordinary, Bare, WriteItem, NodeOf, WellNamed,
           Confined, SameBut, Intact, OrdinaryAt;
      LeftoversAreOrdinary(p, run);
      StillIntact(disk.payloads, name);
      RunNothing(disk.payloads);
      calls := [];
      var listed, items := ListTree(disk.payloads.ents[name]);
      var copy := Item(target, target, Folder(items));
      var made := WriteItem(copy);
      var broken: int := *;
      if !calm && 0 <= broken < |made| {
        PartialCopyIsLocal(disk.orphans, copy, broken);
        MoveOrphans(RunOps(disk.orphans, made[..broken]));
        ghost var partial := disk.orphans;
        DropCopy(target, tidy);
        SameTwice(old(disk).orphans, partial, disk.orphans, target);
        return false, [];
      }
      PartialCopyIsLocal(disk.orphans, copy, |made|);
      assert made[..|made|] == made;
      RunFolder(disk.orphans, copy);
      CopiedIsLocal(disk.orphans, target, NodeOf(copy.tree));
      MoveOrphans(RunOps(disk.orphans, made));
      var gone, ops, after := RemoveEntryTree(disk.payloads, name, !calm);
      RemovedExactly(disk.payloads, name, gone, ops, after);
      calls := ops;
      RemoveInPayloads(Orphan, "", name, ops);
      if !gone {
        ghost var whole := disk.orphans;
        DropCopy(target, tidy);
        SameTwice(old(disk).orphans, whole, disk.orphans, target);
        return false, ops;
      }
      ok := true;
    }

    /** Removes the copy of an orphan, as far as that goes. */
    method DropCopy(target: Name, tidy: bool)
      requires Valid() && Now().proc.Quarantining? && disk.orphans.Dir? && OrdinaryAt(disk.orphans, target)
      modifies this
      ensures Continues(old(run), run)
      ensures Valid() && rows == old(rows) && clock == old(clock) && (old(Calm()) ==> Calm())
      ensures disk == old(disk).(orphans := disk.orphans) && SameBut(old(disk).orphans, disk.orphans, target)
      ensures Now() == old(Now()).(disk := disk) && disk.orphans.Dir? && (tidy ==> target !in disk.orphans.ents)
    {
      hide Runs, Next, Init, RetriesFit, Forward, RunOps, Removed, Confined, SameBut, Ordinary;
      var gone, ops, rest := RemoveEntryTree(disk.orphans, target, !tidy);
      RemovedExactly(disk.orphans, target, gone, ops, rest);
      MoveOrphans(rest);
      var synced := Sync(false, false, true, false);
      SameEntries(old(disk).orphans, rest, disk.orphans, target);
    }

    method MoveOrphans(orphans: Node)
      requires Valid() && Now().proc.Quarantining? && orphans.Dir?
      modifies this
      ensures Continues(old(run), run)
      ensures Valid() && rows == old(rows) && clock == old(clock) && (old(Calm()) ==> Calm())
      ensures disk == old(disk).(orphans := orphans) && Now() == old(Now()).(disk := disk)
    {
      hide Runs, Next, Init;
      ghost var s := Now();
      disk := disk.(orphans := orphans);
      QuarantineCopyIs(p, s, orphans, s.(disk := disk));
      Log(Proc(QuarantineCopy(orphans)), s.(disk := disk));
    }

    /**
     Moves one orphan, by rename or by copy and removal, and syncs both directories. Unless a removal broke off, the
     tree is whole afterwards, whatever failed.
     */
    method QuarantineOne(name: Name, calm: bool) returns (ok: bool, target: Name, i: nat, ghost broke: bool)
      requires Valid() && (calm ==> Calm()) && Now().proc.Quarantining? && name !in Now().proc.valid
      requires disk.payloads.Dir? && disk.orphans.Dir? && name in disk.payloads.ents && disk.payloads.ents[name].Dir?
      modifies this
      ensures Continues(old(run), run)
      ensures Valid() && rows == old(rows) && (calm ==> Calm() && ok) && Now() == old(Now()).(disk := disk)
      ensures disk.staging == old(disk).staging && target == Numbered(name, i) && target !in old(disk).orphans.ents
      ensures SameBut(old(disk).payloads, disk.payloads, name) && SameBut(old(disk).orphans, disk.orphans, target)
      ensures disk.payloads.Dir? && disk.orphans.Dir?
      ensures ok ==>
                && !broke && disk.payloads.ents == old(disk).payloads.ents - {name} && target in disk.orphans.ents
                && disk.orphans.ents == old(disk).orphans.ents[target := disk.orphans.ents[target]]
                && Bare(disk.orphans.ents[target]) == Bare(old(disk).payloads.ents[name])
      ensures !broke ==> Whole(old(disk), disk, name, target)
    {
      hide Runs, Next, Init, RetriesFit, Forward, Numbered, Bare, Continues, SameBut, Intact, Whole, RunOps;
      SameRun(run);
      target, i := UniqueName(disk.orphans.ents.Keys, name);
      ok, broke := false, false;
      SameAsItself(disk.payloads, name);
      SameAsItself(disk.orphans, target);
      StillWhole(disk, name, target);
      var renamed, crossDevice: bool := *, *;
      if !renamed && !crossDevice && !calm { return; }
      if renamed {
        RenamedIsWhole(disk, name, target);
        RenameOrphan(name, target);
      } else {
        ghost var calls;
        var tidy: bool := *;
        ok, calls := CopyAndRemoveOrphan(name, target, calm, tidy);
        CopiedIsWhole(old(disk), disk, name, target, ok);
        if !ok {
          broke := calls != [];
          return;
        }
      }
      ghost var r1, moved := run, disk;
      ok := Sync(false, true, false, calm);
      Onward(old(run), r1, run);
      FlushedIsWhole(old(disk), moved, disk, name, target);
      if !ok { return; }
      ghost var r2 := run;
      ok := Sync(false, false, true, calm);
      Onward(old(run), r2, run);
      FlushedIsWhole(old(disk), moved, disk, name, target);
    }

    method RenameOrphan(name: Name, target: Name)
      requires Valid() && Now().proc.Quarantining? && name !in Now().proc.valid
      requires disk.payloads.Dir? && disk.orphans.Dir? && name in disk.payloads.ents && target !in disk.orphans.ents
      modifies this
      ensures Continues(old(run), run)
      ensures Valid() && rows == old(rows) && clock == old(clock) && (old(Calm()) ==> Calm())
      ensures Now() == old(Now()).(disk := disk)
      ensures disk == old(disk).(payloads := Drop(old(disk).payloads, name),
                                 orphans := Put(old(disk).orphans, target, old(disk).payloads.ents[name]))
    {
      hide Runs, Next, Init;
      ghost var s := Now();
      disk := disk.(payloads := Drop(disk.payloads, name),
                    orphans := Put(disk.orphans, target, disk.payloads.ents[name]));
      QuarantineMoveIs(p, s, name, target, s.(disk := disk));
      Log(Proc(QuarantineMove(name, target)), s.(disk := disk));
    }

    /** `QuarantineOrphans`: every directory without a row is moved aside intact. Without faults it always succeeds. */
    method QuarantineOrphans(valid: set<string>, calm: bool) returns (ok: bool, moved: map<Name, Name>)
      requires Valid() && (calm ==> Calm()) && Now().proc == Process.Quarantining(valid)
      modifies this
      ensures Continues(old(run), run)
      ensures Valid() && rows == old(rows) && (calm ==> Calm() && ok) && Now() == old(Now()).(disk := disk)
      ensures ok ==> Quarantined(valid, old(disk), disk, moved)
      ensures Undisturbed(valid, old(disk), disk)
    {
      hide Runs, Next, Init, RetriesFit, Forward, Numbered, Bare, ScanProgress, Quarantined, Canonical, Undisturbed,
           SameBut;
      EntriesAreRecords(p, run);
      ghost var was := disk;
      moved := map[];
      var todo := disk.payloads.ents.Keys;
      ScanStarts(valid, disk);
      while todo != {}
        invariant Valid() && rows == old(rows) && (calm ==> Calm()) && Now() == old(Now()).(disk := disk)
        invariant Continues(old(run), run)
        invariant ScanProgress(valid, was, disk, moved, todo)
        decreases todo
      {
        var name :| name in todo;
        EntriesAreRecords(p, run);
        ScanNext(valid, was, disk, moved, todo, name);
        ProgressUndisturbed(valid, was, disk, moved, todo);
        var canonical := ValidateCanonicalRecordID(name);
        if !canonical || !disk.payloads.ents[name].Dir? { return false, moved; }
        if name in valid {
          ScanSkips(valid, was, disk, moved, todo, name);
        } else {
          ghost var mid := disk;
          var fine, target, i, broke := QuarantineOne(name, calm);
          MoveUndisturbed(valid, was, mid, disk, name, target);
          if !fine { return false, moved; }
          ScanMoves(valid, was, mid, disk, moved, todo, name, i, disk.orphans.ents[target]);
          moved := moved[name := target];
        }
        todo := todo - {name};
      }
      ProgressUndisturbed(valid, was, disk, moved, {});
      ScanEnds(valid, was, disk, moved);
      ok := true;
    }

    /**
     `Recover`, and the relay starts to serve. Without faults it always succeeds: working rows are queued again or, if
     their payload is corrupt, dead-lettered; payloads without a row are in quarantine.
     */
    method Recover(now: int, calm: bool)
      returns (out: RecoveryResult, ghost working: seq<string>, ghost submitted: seq<string>, ghost t: int)
      requires Valid() && (calm ==> Calm()) && Now().proc == Swept(now)
      modifies this
      ensures Continues(old(run), run)
      ensures Now().hist.issued == old(Now()).hist.issued
      ensures Valid() && (calm ==> Calm() && out.Recovered?)
      ensures out.RecoveryFailed? ==> Now().proc == Down
      ensures out.RecoveryFailed? ==> TableTouched(p.codec, old(disk).payloads, old(rows), rows, now, t)
      ensures Undisturbed(rows.Keys, old(disk), disk)
      ensures out.Recovered? ==>
                && Now().proc == Up(Idle) && inflight == 0
                && TableRecovered(p.codec, old(disk).payloads, old(rows), rows, now, t)
                && Quarantined(rows.Keys, old(disk), disk, out.orphans)
                && Listed(old(rows), Working, working)
                && out.requeued == Sorted(p.codec, old(disk).payloads, working, false)
                && Listed(old(rows), Submitted, submitted)
                && out.submitted == Sorted(p.codec, old(disk).payloads, submitted, false)
                && out.deadLettered == Sorted(p.codec, old(disk).payloads, working, true)
                                       + Sorted(p.codec, old(disk).payloads, submitted, true)
    {
      hide Runs, Next, Init, RetriesFit, Forward, Listed, Sorted, Judged, TableRecovered, Quarantined, RecoveredTable,
           CorruptAt, TableTouched, Undisturbed;
      ghost var was := rows;
      var ok, w, u := RecoverMetadata(now, calm);
      working, submitted, t := w, u, clock;
      NothingDisturbed(p, run);
      if !ok {
        NotYetJudged(p.codec, disk.payloads, was, rows, now, t);
        return RecoveryFailed, working, submitted, t;
      }
      var requeued, still, dead;
      ok, requeued, still, dead := JudgeSnapshot(was, w, u, now, calm);
      if !ok { return RecoveryFailed, working, submitted, t; }
      var orphans;
      ok, orphans := FinishRecovery(rows.Keys, calm);
      if !ok { return RecoveryFailed, working, submitted, t; }
      return Recovered(requeued, still, dead, orphans), working, submitted, t;
    }

    /** The two loops of `Recover` over the snapshot. */
    method JudgeSnapshot(ghost was: Table, working: seq<string>, submitted: seq<string>, ghost now: int, calm: bool)
      returns (ok: bool, requeued: seq<string>, still: seq<string>, dead: seq<string>)
      requires Valid() && (calm ==> Calm()) && rows == RecoveredTable(was, now, clock)
      requires Now().proc == Process.Recovering(working + submitted, rows.Keys)
      requires Listed(was, Working, working) && Listed(was, Submitted, submitted)
      modifies this
      ensures Continues(old(run), run)
      ensures Now().hist.issued == old(Now()).hist.issued
      ensures Valid() && (calm ==> Calm() && ok) && disk == old(disk)
      ensures TableTouched(p.codec, disk.payloads, was, rows, now, old(clock))
      ensures ok ==> TableRecovered(p.codec, disk.payloads, was, rows, now, old(clock))
      ensures ok ==> Now().proc == Process.Recovering([], rows.Keys)
      ensures ok ==> requeued == Sorted(p.codec, disk.payloads, working, false)
      ensures ok ==> still == Sorted(p.codec, disk.payloads, submitted, false)
      ensures ok ==>
                dead == Sorted(p.codec, disk.payloads, working, true) + Sorted(p.codec, disk.payloads, submitted, true)
      ensures !ok ==> Now().proc == Down
    {
      hide Runs, Next, Init, RetriesFit, Forward, Listed, Sorted, Judged, TableRecovered, TableTouched, RecoveredTable,
           CorruptAt;
      ghost var mid, t := rows, clock;
      SnapshotIsTodo(was, working, submitted);
      DistinctHalves(working, submitted);
      still := [];
      ok, requeued, dead := RecoverRecords(working, submitted, calm);
      ghost var half := rows;
      if !ok {
        LoopsTouched(p.codec, disk.payloads, was, mid, rows, rows, working, submitted, now, t);
        return;
      }
      assert submitted + [] == submitted;
      var more;
      ok, still, more := RecoverRecords(submitted, [], calm);
      LoopsTouched(p.codec, disk.payloads, was, mid, half, rows, working, submitted, now, t);
      if !ok { return; }
      LoopsJudgeAll(p.codec, disk.payloads, was, mid, half, rows, working, submitted, now, t);
      dead := dead + more;
    }

    method FinishRecovery(valid: set<string>, calm: bool) returns (ok: bool, orphans: map<Name, Name>)
      requires Valid() && (calm ==> Calm()) && Now().proc == Process.Recovering([], valid) && valid == rows.Keys
      modifies this
      ensures Continues(old(run), run)
      ensures Now().hist.issued == old(Now()).hist.issued
      ensures Valid() && rows == old(rows) && (calm ==> Calm() && ok)
      ensures ok ==> Now().proc == Up(Idle) && Quarantined(valid, old(disk), disk, orphans) && inflight == 0
      ensures Undisturbed(valid, old(disk), disk)
      ensures !ok ==> Now().proc == Down
    {
      hide Runs, Next, Init, RetriesFit, Forward, MovedIntact, Continues;
      SameRun(run);
      ghost var s := Now();
      RecoverDoneIs(p, s);
      ghost var r0 := run;
      Log(Proc(RecoverDone), s.(proc := Process.Quarantining(valid)));
      Onward(old(run), r0, run);
      ghost var r1 := run;
      ok, orphans := QuarantineOrphans(valid, calm);
      Onward(old(run), r1, run);
      ghost var s' := Now();
      NoThreadsBeforeServing(p, run);
      if ok {
        ServeIs(p, s', s'.(proc := Up(Idle)));
        ghost var r2 := run;
        Log(Proc(Serve), s'.(proc := Up(Idle)));
        Onward(old(run), r2, run);
      } else {
        inflight := 0;
        ExitIs(p, s');
        ghost var r3 := run;
        Log(Proc(Exit), s'.(enq := map[], proc := Down));
        Onward(old(run), r3, run);
      }
    }

    /** The machine loses power; `after` is what its disk comes back with. */
    method PowerLoss(after: Disks)
      requires Valid() && Image(disk.staging, after.staging) && Image(disk.payloads, after.payloads)
      requires Image(disk.orphans, after.orphans)
      modifies this
      ensures Continues(old(run), run)
      ensures Valid() && disk == after && rows == old(rows) && inflight == 0 && (old(Calm()) ==> Calm())
      ensures Now().proc == Down
      ensures Now().hist == old(Now()).hist
    {
      hide Runs, Next, Init, RetriesFit, Forward, Image;
      ghost var s := Now();
      disk, inflight := after, 0;
      CrashIs(p, s, after, s.(disk := after, enq := map[], proc := Down));
      Log(Proc(Crash(after)), s.(disk := after, enq := map[], proc := Down));
    }

    /**
     From process start to serving. Whatever happened before, without new faults it succeeds: no row is working, and
     payloads/ holds the directories of rows and nothing else.
     */
    method StartUp(calm: bool) returns (ok: bool, ghost how: Restart)
      requires Valid() && (calm ==> Calm()) && Now().proc == Down
      modifies this
      ensures Continues(old(run), run)
      ensures Now().hist.issued == old(Now()).hist.issued
      ensures Valid() && (calm ==> Calm() && ok)
      ensures ok ==> Restarted(p.codec, old(disk), disk, old(rows), rows, how)
      ensures ok ==> rows.Keys == old(rows).Keys && Now().proc == Up(Idle) && NoneWorking(rows)
      ensures ok ==> PayloadsOfRowsOnly(Now())
      ensures ok ==> disk.staging.Dir? && disk.staging.ents == map[] && inflight == 0
    {
      hide Runs, Next, Init, RetriesFit, Forward, Tidied, TableRecovered, Quarantined, Sorted, Listed;
      ghost var s := Now();
      StartIs(p, s, s.(proc := Process.Sweeping));
      Log(Proc(Start), s.(proc := Process.Sweeping));
      ghost var first := disk;
      ok := CleanUp(calm);
      how := Restart(disk, clock, clock, map[]);
      if !ok { return; }
      ghost var was, start := rows, disk;
      var now := clock;
      var out, working, submitted, t := Recover(now, calm);
      ok := out.Recovered?;
      if ok {
        how := Restart(start, now, t, out.orphans);
        TidiedStaging(first, start);
        ServingIsTidy(p.codec, start, disk, was, rows, now, t, out.orphans);
      }
    }

    /** The process ends. */
    method Quit()
      requires Valid()
      modifies this
      ensures Continues(old(run), run)
      ensures Valid() && (old(Calm()) ==> Calm()) && disk == old(disk) && rows == old(rows) && clock == old(clock)
      ensures Now() == old(Now()).(enq := map[], proc := Down)
    {
      hide Runs, Next, Init, RetriesFit, Forward;
      ghost var s := Now();
      inflight := 0;
      ExitIs(p, s);
      Log(Proc(Exit), s.(enq := map[], proc := Down));
    }

    /** Started, ended and started again: the second start-up changes no row, no payload and nothing in quarantine. */
    method StartUpTwice(calm: bool) returns (ok: bool, ghost first: Sys)
      requires Valid() && (calm ==> Calm()) && Now().proc == Down
      modifies this
      ensures Continues(old(run), run)
      ensures Valid() && (calm ==> Calm() && ok)
      ensures ok ==> first.proc == Up(Idle) && Now().proc == Up(Idle) && rows == first.rows
      ensures ok ==> first.disk.payloads.Dir? && disk.payloads.Dir? && disk.payloads.ents == first.disk.payloads.ents
      ensures ok ==> first.disk.orphans.Dir? && disk.orphans.Dir? && disk.orphans.ents == first.disk.orphans.ents
    {
      hide Runs, Next, Init, RetriesFit, Forward, Tidied, TableRecovered, Quarantined;
      ghost var how, how';
      ghost var d0, rows0 := disk, rows;
      ok, how := StartUp(calm);
      first := Now();
      if !ok { return; }
      Quit();
      ok, how' := StartUp(calm);
      if ok { RestartedTwice(p.codec, d0, first.disk, disk, rows0, first.rows, rows, how, how'); }
    }

    // ---- enqueue ----

    method BeginEnqueue(id: string, msg: Message, calm: bool) returns (start: int)
      requires Valid() && (calm ==> Calm()) && Now().proc.Up? && inflight < p.maxInflight && Canonical(id)
      requires id !in Now().hist.issued
      modifies this
      ensures Continues(old(run), run)
      ensures Valid() && (calm ==> Calm()) && disk == old(disk) && rows == old(rows) && start == clock
      ensures inflight == old(inflight) + 1
      ensures Begun(old(Now()), Now(), id, msg, start)
    {
      hide Runs, Next, Init, RetriesFit, Forward, Canonical;
      start := ReadClock(calm);
      ghost var s := Now();
      NotYetInFlight(p, run, id);
      ghost var s' := s.(enq := s.enq[id := Enqueue(msg, start, "", "", Entered)],
                         hist := s.hist.(issued := s.hist.issued[id := msg]));
      BeginIs(p, s, id, msg, s');
      inflight := inflight + 1;
      Log(Smtp(id, Begin(msg)), s');
    }

    /** One call of `Save` in its staging directory. */
    method StageOne(id: string, stage: Name, op: Op)
      requires Valid() && Live(Now(), id) && Now().enq[id].phase.Staging? && stage == StageOf(id, Now().enq[id])
      requires var e := Now().enq[id]; e.phase.done < |PlanOf(p, e)| && op == PlanOf(p, e)[e.phase.done]
      modifies this
      ensures Continues(old(run), run)
      ensures Valid() && (old(Calm()) ==> Calm()) && rows == old(rows) && inflight == old(inflight)
      ensures clock == old(clock)
      ensures disk == old(disk).(staging := disk.staging) && SameBut(old(disk).staging, disk.staging, stage)
      ensures var e := old(Now()).enq[id];
              Now() == old(Now()).(disk := disk,
                                   enq := InPhase(old(Now()), id, Staging(e.phase.tmps, e.phase.done + 1)))
    {
      hide Runs, Next, Init, RetriesFit, Forward, PayloadNode, StagePlan, PlanOf, Apply, StageOf, SameBut;
      ghost var s := Now();
      ghost var e := s.enq[id];
      StagedSoFar(p, run, id);
      WithinIsLocal(disk.staging, stage, Apply(disk.staging.ents[stage], op));
      disk := disk.(staging := Within(disk.staging, stage, Apply(disk.staging.ents[stage], op)));
      ghost var s' := s.(disk := disk, enq := InPhase(s, id, Staging(e.phase.tmps, e.phase.done + 1)));
      StageCallIs(p, s, id, s');
      Log(Smtp(id, StageCall), s');
    }

    /** The part of `Save` up to the publication: the staging directory with the whole payload. */
    method StageMessage(id: string, msg: Message, suffix: string, tmps: seq<Name>, calm: bool) returns (ok: bool)
      requires Valid() && (calm ==> Calm()) && Live(Now(), id) && Now().enq[id].phase == Entered
      requires Now().enq[id].msg == msg
      requires |tmps| == |msg.attachments| + 1 && TmpNames(tmps) && StageName(id, suffix) !in disk.staging.ents
      modifies this
      ensures Continues(old(run), run)
      ensures Valid() && rows == old(rows) && (calm ==> Calm() && ok) && inflight == old(inflight)
      ensures clock == old(clock)
      ensures disk == old(disk).(staging := disk.staging) && Live(Now(), id)
      ensures SameBut(old(disk).staging, disk.staging, StageName(id, suffix))
      ensures Now() == old(Now()).(disk := disk, enq := old(Now()).enq[id := Now().enq[id]])
      ensures Now().enq[id] == old(Now()).enq[id].(stageSuffix := suffix, phase := Now().enq[id].phase)
      ensures Now().enq[id].phase.Staging?
      ensures ok ==> StageComplete(p, Now(), id)
      ensures ok ==> disk.staging.ents[StageName(id, suffix)] == PayloadNode(p.codec, msg)
    {
      hide Runs, Next, Init, RetriesFit, Forward, PayloadNode, StagePlan, TmpNames, RunOps, Apply, StageName, SameBut;
      ghost var s0 := Now();
      WithinIsLocal(disk.staging, StageName(id, suffix), EMPTY_DIR);
      ghost var e := s0.enq[id].(stageSuffix := suffix, phase := Staging(tmps, 0));
      var stage := StageName(id, suffix);
      disk := disk.(staging := Put(disk.staging, stage, EMPTY_DIR));
      MakeStageIs(p, s0, id, suffix, tmps, s0.(disk := disk, enq := s0.enq[id := e]));
      Log(Smtp(id, MakeStage(suffix, tmps)), s0.(disk := disk, enq := s0.enq[id := e]));
      var plan := StagePlan(p.codec, msg, tmps);
      var done := 0;
      while done < |plan|
        invariant 0 <= done <= |plan| && Valid() && rows == old(rows) && (calm ==> Calm()) && clock == old(clock)
        invariant inflight == old(inflight)
        invariant Continues(old(run), run)
        invariant disk == old(disk).(staging := disk.staging) && Live(Now(), id)
        invariant SameBut(old(disk).staging, disk.staging, stage)
        invariant Now() == s0.(disk := disk, enq := s0.enq[id := e.(phase := Staging(tmps, done))])
      {
        var failed: bool := *;
        if !calm && failed { return false; }
        ghost var before := disk.staging;
        StageOne(id, stage, plan[done]);
        SameTwice(s0.disk.staging, before, disk.staging, stage);
        done := done + 1;
      }
      StagedSoFar(p, run, id);
      ok := true;
    }

    method RenameStage(id: string, stage: Name)
      requires Valid() && StageComplete(p, Now(), id) && stage == StageOf(id, Now().enq[id])
      requires id !in disk.payloads.ents
      modifies this
      ensures Continues(old(run), run)
      ensures Valid() && rows == old(rows) && (old(Calm()) ==> Calm()) && inflight == old(inflight)
      ensures clock == old(clock)
      ensures disk == old(disk).(staging := Drop(old(disk).staging, stage),
                                 payloads := Put(old(disk).payloads, id, old(disk).staging.ents[stage]))
      ensures Now() == old(Now()).(disk := disk, enq := InPhase(old(Now()), id, Placed))
    {
      hide Runs, Next, Init, RetriesFit, Forward, StageOf, PlanOf;
      ghost var s := Now();
      disk := disk.(staging := Drop(disk.staging, stage), payloads := Put(disk.payloads, id, disk.staging.ents[stage]));
      ghost var s' := s.(disk := disk, enq := InPhase(s, id, Placed));
      assert s'.enq.Keys == s.enq.Keys;
      PublishIs(p, s, id, s');
      Log(Smtp(id, Publish), s');
    }

    /** Copies the staged tree into a temporary directory in payloads/. */
    method CopyToTemp(id: string, stage: Name, suffix: string, items: seq<Item>, calm: bool) returns (ok: bool)
      requires Valid() && (calm ==> Calm()) && StageComplete(p, Now(), id) && stage == StageOf(id, Now().enq[id])
      requires PublishTempName(id, suffix) !in disk.payloads.ents
      requires WellNamed(items) && NodeOf(Folder(items)) == disk.staging.ents[stage]
      modifies this
      ensures Continues(old(run), run)
      ensures Valid() && rows == old(rows) && (calm ==> Calm() && ok) && inflight == old(inflight)
      ensures clock == old(clock)
      ensures disk == old(disk).(payloads := disk.payloads)
      ensures OnlyChanged(old(disk).payloads, disk.payloads, PublishTempName(id, suffix))
      ensures Now().enq.Keys == old(Now()).enq.Keys
      ensures Now() == old(Now()).(disk := disk, enq := old(Now()).enq[id := Now().enq[id]])
      ensures Now().enq[id] == old(Now()).enq[id].(tempSuffix := suffix, phase := Now().enq[id].phase)
      ensures Now().enq[id].phase.Copying? && Now().enq[id].phase.items == items
      ensures ok ==> Now().enq[id].phase.done == |CopyPlan(items)|
    {
      hide Runs, Next, Init, RetriesFit, Forward, CopyPlan, WellNamed, NodeOf, RunOps, Apply, StageOf, PublishTempName,
           PlanOf;
      var temp := PublishTempName(id, suffix);
      ghost var s0 := Now();
      ghost var e := s0.enq[id].(tempSuffix := suffix, phase := Copying(items, 0));
      disk := disk.(payloads := Put(disk.payloads, temp, EMPTY_DIR));
      MakeTempIs(p, s0, id, suffix, items, s0.(disk := disk, enq := s0.enq[id := e]));
      Log(Smtp(id, MakeTemp(suffix, items)), s0.(disk := disk, enq := s0.enq[id := e]));
      var done := 0;
      while done < |CopyPlan(items)|
        invariant 0 <= done <= |CopyPlan(items)| && Valid() && rows == old(rows) && (calm ==> Calm())
        invariant clock == old(clock) && inflight == old(inflight)
        invariant Continues(old(run), run)
        invariant disk == old(disk).(payloads := disk.payloads) && OnlyChanged(old(disk).payloads, disk.payloads, temp)
        invariant Now() == s0.(disk := disk, enq := s0.enq[id := e.(phase := Copying(items, done))])
      {
        var failed: bool := *;
        if !calm && failed { return false; }
        ghost var s := Now();
        CopiedSoFar(p, run, id);
        disk := disk.(payloads := Within(disk.payloads, temp, Apply(disk.payloads.ents[temp], CopyPlan(items)[done])));
        ghost var s' := s.(disk := disk, enq := InPhase(s, id, Copying(items, done + 1)));
        CopyCallIs(p, s, id, s');
        assert s'.enq == s0.enq[id := e.(phase := Copying(items, done + 1))];
        Log(Smtp(id, CopyCall), s');
        done := done + 1;
      }
      ok := true;
    }

    /** `publishViaPayloadTemp`: staging/ is on another device, so the tree is copied next to its final name. */
    method PlaceCopy(id: string, stage: Name, msg: Message, suffix: string, calm: bool) returns (ok: bool)
      requires Valid() && (calm ==> Calm()) && StageComplete(p, Now(), id) && stage == StageOf(id, Now().enq[id])
      requires id !in disk.payloads.ents
      requires PublishTempName(id, suffix) !in disk.payloads.ents
      requires Now().enq[id].msg == msg && disk.staging.ents[stage] == PayloadNode(p.codec, msg)
      modifies this
      ensures Continues(old(run), run)
      ensures Valid() && rows == old(rows) && (calm ==> Calm() && ok) && inflight == old(inflight)
      ensures clock == old(clock)
      ensures disk == old(disk).(payloads := disk.payloads) && disk.payloads.Dir?
      ensures Now().enq.Keys == old(Now()).enq.Keys
      ensures Now() == old(Now()).(disk := disk, enq := old(Now()).enq[id := Now().enq[id]])
      ensures Now().enq[id] == old(Now()).enq[id].(tempSuffix := suffix, phase := Now().enq[id].phase)
      ensures ok ==> Now().enq[id].phase == Placed
      ensures ok ==> disk.payloads.ents == old(disk).payloads.ents[id := PayloadNode(p.codec, msg)]
      ensures !ok ==> Now().enq[id].phase.Copying?
      ensures !ok ==> OnlyChanged(old(disk).payloads, disk.payloads, PublishTempName(id, suffix))
    {
      hide Runs, Next, Init, RetriesFit, Forward, PayloadNode, CopyPlan, WellNamed, NodeOf, StageOf, PublishTempName,
           PlanOf, OnlyChanged, Drop, Put;
      var items := ListPayload(p.codec, msg);
      ok := CopyToTemp(id, stage, suffix, items, calm);
      var temp := PublishTempName(id, suffix);
      ChangedIsDir(old(disk).payloads, disk.payloads, temp);
      if !ok { return; }
      CopiedSoFar(p, run, id);
      NamesDiffer(id, suffix);
      TempBecomesPayload(old(disk).payloads, disk.payloads, id, temp);
      PlaceTemp(id, temp);
    }

    method PlaceTemp(id: string, temp: Name)
      requires Valid() && Live(Now(), id) && Now().enq[id].phase.Copying? && temp == TempOf(id, Now().enq[id])
      requires temp in disk.payloads.ents && id !in disk.payloads.ents
      requires Now().enq[id].phase.done == |PlanOf(p, Now().enq[id])|
      modifies this
      ensures Continues(old(run), run)
      ensures Valid() && rows == old(rows) && (old(Calm()) ==> Calm()) && inflight == old(inflight)
      ensures clock == old(clock)
      ensures disk == old(disk).(payloads := Drop(Put(old(disk).payloads, id, old(disk).payloads.ents[temp]), temp))
      ensures Now() == old(Now()).(disk := disk, enq := InPhase(old(Now()), id, Placed))
    {
      hide Runs, Next, Init, RetriesFit, Forward, TempOf, PlanOf;
      ghost var s := Now();
      disk := disk.(payloads := Drop(Put(disk.payloads, id, disk.payloads.ents[temp]), temp));
      ghost var s' := s.(disk := disk, enq := InPhase(s, id, Placed));
      assert s'.enq.Keys == s.enq.Keys;
      PublishTempIs(p, s, id, s');
      Log(Smtp(id, PublishTemp), s');
    }

    /** The final `syncFD` of `Save`: from here on the payload survives any crash. */
    method MakeDurable(id: string)
      requires Valid() && Live(Now(), id) && Now().enq[id].phase == Placed
      modifies this
      ensures Continues(old(run), run)
      ensures Valid() && rows == old(rows) && (old(Calm()) ==> Calm()) && inflight == old(inflight)
      ensures clock == old(clock)
      ensures disk == old(disk).(payloads := Synced(old(disk).payloads))
      ensures Now() == old(Now()).(disk := disk, enq := InPhase(old(Now()), id, Durable))
    {
      hide Runs, Next, Init, RetriesFit, Forward;
      ghost var s := Now();
      disk := disk.(payloads := Synced(disk.payloads));
      ghost var s' := s.(disk := disk, enq := InPhase(s, id, Durable));
      assert s'.enq.Keys == s.enq.Keys;
      SyncPayloadsIs(p, s, id, s');
      Log(Smtp(id, SyncPayloads), s');
    }

    /** Removes the staging directory of `id`, as far as that goes. */
    method CleanStage(id: string, stage: Name, tidy: bool)
      requires Valid() && Live(Now(), id) && stage == StageOf(id, Now().enq[id])
      requires var phase := Now().enq[id].phase; !phase.Entered? && !phase.Staging? && !phase.Copying?
      modifies this
      ensures Continues(old(run), run)
      ensures Valid() && rows == old(rows) && (old(Calm()) ==> Calm()) && inflight == old(inflight)
      ensures clock == old(clock)
      ensures disk == old(disk).(staging := disk.staging) && SameBut(old(disk).staging, disk.staging, stage)
      ensures Now() == old(Now()).(disk := disk) && disk.staging.Dir?
      ensures tidy ==> stage !in disk.staging.ents
    {
      hide Runs, Next, Init, RetriesFit, Forward, StageOf, Confined, RunOps, Apply, Removed, SameBut, Ordinary;
      LeftoversAreOrdinary(p, run);
      if tidy { PartIsOrdinary(disk.staging, stage); }
      var ok, ops, after := RemoveEntryTree(disk.staging, stage, !tidy);
      RemovedParts(disk.staging, stage, ok, ops, after);
      SameAsItself(disk.staging, stage);
      RunNothing(disk.staging);
      var i := 0;
      while i < |ops|
        invariant 0 <= i <= |ops| && Valid() && rows == old(rows) && (old(Calm()) ==> Calm())
        invariant inflight == old(inflight) && clock == old(clock)
        invariant Continues(old(run), run)
        invariant disk == old(disk).(staging := disk.staging) && SameBut(old(disk).staging, disk.staging, stage)
        invariant Now() == old(Now()).(disk := disk) && disk.staging.Dir?
        invariant disk.staging == RunOps(old(disk).staging, ops[..i])
      {
        ghost var s := Now();
        RunNext(old(disk).staging, ops, i);
        RemovalIsLocal(old(disk).staging, disk.staging, stage, ops[i]);
        disk := disk.(staging := Apply(disk.staging, ops[i]));
        CleanStageIs(p, s, id, ops[i], s.(disk := disk));
        Log(Smtp(id, SmtpStep.CleanStage(ops[i])), s.(disk := disk));
        i := i + 1;
      }
      assert ops[..i] == ops;
      ghost var removed := disk.staging;
      var synced := Sync(true, false, false, false);
      SameEntries(old(disk).staging, removed, disk.staging, stage);
    }

    /** The syncs after the rename, either of which may fail. */
    method SyncPublished(id: string, calm: bool) returns (ok: bool)
      requires Valid() && (calm ==> Calm()) && Live(Now(), id) && Now().enq[id].phase == Placed
      modifies this
      ensures Continues(old(run), run)
      ensures Valid() && rows == old(rows) && (calm ==> Calm() && ok) && inflight == old(inflight)
      ensures clock == old(clock)
      ensures disk.staging.Dir? && disk.staging.ents == old(disk).staging.ents && disk.orphans == old(disk).orphans
      ensures disk.payloads.Dir? && disk.payloads.ents == old(disk).payloads.ents
      ensures id in Now().enq && Now() == old(Now()).(disk := disk, enq := InPhase(old(Now()), id, Now().enq[id].phase))
      ensures Now().enq[id].phase.Placed? || Now().enq[id].phase.Durable?
      ensures ok ==> Now().enq[id].phase == Durable && disk.payloads.past == map[]
    {
      hide Runs, Next, Init, RetriesFit, Forward;
      ok := false;
      var failed: bool := *;
      if !calm && failed { return; }
      MakeDurable(id);
      ok := Sync(true, false, false, calm);
    }

    /** Publication by rename; the rename and the syncs after it may fail. */
    method PublishByRename(id: string, stage: Name, calm: bool) returns (ok: bool)
      requires Valid() && (calm ==> Calm()) && StageComplete(p, Now(), id) && stage == StageOf(id, Now().enq[id])
      requires id !in disk.payloads.ents
      modifies this
      ensures Continues(old(run), run)
      ensures Valid() && rows == old(rows) && (calm ==> Calm() && ok) && inflight == old(inflight)
      ensures clock == old(clock)
      ensures SameBut(old(disk).staging, disk.staging, stage) && disk.orphans == old(disk).orphans
      ensures SameBut(old(disk).payloads, disk.payloads, id)
      ensures Now().enq.Keys == old(Now()).enq.Keys
      ensures Now() == old(Now()).(disk := disk, enq := old(Now()).enq[id := Now().enq[id]])
      ensures Now().enq[id] == old(Now()).enq[id].(phase := Now().enq[id].phase)
      ensures ok ==> Now().enq[id].phase == Durable
      ensures ok ==> disk.payloads == Dir(old(disk).payloads.ents[id := old(disk).staging.ents[stage]], map[])
      ensures !ok ==> Now().enq[id].phase.Staging? || Now().enq[id].phase.Placed? || Now().enq[id].phase.Durable?
      ensures ok ==> stage !in disk.staging.ents
    {
      hide Runs, Next, Init, RetriesFit, Forward, StageOf, PlanOf, SameBut;
      ok := false;
      var failed: bool := *;
      PlacedIsLocal(disk, id, stage);
      if !calm && failed { return; }
      RenameStage(id, stage);
      ghost var placed := disk;
      ok := SyncPublished(id, calm);
      SameEntries(old(disk).payloads, placed.payloads, disk.payloads, id);
      SameEntries(old(disk).staging, placed.staging, disk.staging, stage);
    }

    /** `publishViaPayloadTemp` to the end. */
    method PublishByCopy(id: string, stage: Name, msg: Message, suffix: string, calm: bool, tidy: bool)
      returns (ok: bool)
      requires Valid() && (calm ==> Calm()) && StageComplete(p, Now(), id) && stage == StageOf(id, Now().enq[id])
      requires id !in disk.payloads.ents
      requires PublishTempName(id, suffix) !in disk.payloads.ents
      requires Now().enq[id].msg == msg && disk.staging.ents[stage] == PayloadNode(p.codec, msg)
      modifies this
      ensures Continues(old(run), run)
      ensures Valid() && rows == old(rows) && (calm ==> Calm() && ok) && inflight == old(inflight)
      ensures clock == old(clock)
      ensures SameBut(old(disk).staging, disk.staging, stage) && disk.payloads.Dir? && disk.orphans == old(disk).orphans
      ensures Now().enq.Keys == old(Now()).enq.Keys
      ensures Now() == old(Now()).(disk := disk, enq := old(Now()).enq[id := Now().enq[id]])
      ensures Now().enq[id] == old(Now()).enq[id].(tempSuffix := suffix, phase := Now().enq[id].phase)
      ensures ok ==> Now().enq[id].phase == Durable
      ensures ok ==> disk.payloads == Dir(old(disk).payloads.ents[id := PayloadNode(p.codec, msg)], map[])
      ensures !ok ==> Now().enq[id].phase.Copying? || Now().enq[id].phase.Placed?
      ensures ok && tidy ==> stage !in disk.staging.ents
      ensures forall x | x != id && x != PublishTempName(id, suffix) ::
                Find(disk.payloads, x) == Find(old(disk).payloads, x)
    {
      hide Runs, Next, Init, RetriesFit, Forward, StageName, PlanOf, PayloadNode, PublishTempName;
      ok := PlaceCopy(id, stage, msg, suffix, calm);
      if !ok { return; }
      var failed: bool := *;
      if !calm && failed { return false; }
      MakeDurable(id);
      CleanStage(id, stage, tidy);
    }

    /** `Save`, on the rename path or the cross-device path. */
    method Save(id: string, msg: Message, draw: Names, sameDevice: bool, calm: bool, tidy: bool)
      returns (ok: bool, temp: Option<Name>)
      requires Valid() && (calm ==> Calm()) && Live(Now(), id) && Now().enq[id].phase == Entered
      requires Now().enq[id].msg == msg && draw.Fit(id, msg, disk)
      requires id !in disk.payloads.ents
      modifies this
      ensures Continues(old(run), run)
      ensures Valid() && (calm ==> Calm() && ok)
      ensures ok ==> SavedWell(p.codec, old(Now()), Now(), id, msg, StageName(id, draw.stage))
      ensures !ok ==> SaveFailed(old(Now()), Now(), id, draw, temp)
      ensures ok && tidy ==> disk.staging.Dir? && StageName(id, draw.stage) !in disk.staging.ents
    {
      hide Runs, Next, Init, RetriesFit, Forward, PayloadNode, TmpNames, StageName, PublishTempName, PlanOf;
      temp := None;
      ok := StageMessage(id, msg, draw.stage, draw.tmps, calm);
      if !ok { return; }
      var stage := StageName(id, draw.stage);
      if sameDevice {
        ok := PublishByRename(id, stage, calm);
      } else {
        ok := PublishByCopy(id, stage, msg, draw.temp, calm, tidy);
        temp := Some(PublishTempName(id, draw.temp));
      }
    }

    /** The end of a thread that did not succeed. */
    method ReturnError(id: string)
      requires Valid() && Live(Now(), id) && (Now().enq[id].phase.Failed? || Now().enq[id].phase.Removing?)
      modifies this
      ensures Continues(old(run), run)
      ensures Valid() && rows == old(rows) && disk == old(disk) && clock == old(clock) && (old(Calm()) ==> Calm())
      ensures inflight + 1 == old(inflight)
      ensures Now() == old(Now()).(enq := old(Now()).enq - {id})
    {
      hide Runs, Next, Init, RetriesFit, Forward;
      ghost var s := Now();
      ghost var s' := s.(enq := s.enq - {id});
      OneFewer(s.enq, id);
      ReturnIs(p, s, id, s');
      inflight := inflight - 1;
      Log(Smtp(id, Return), s');
    }

    /** `Save` failed: its directories are removed as far as that goes. */
    method AbandonSave(id: string, stage: Name, temp: Option<Name>, tidy: bool)
      requires Valid() && Live(Now(), id) && Abandonable(Now().enq[id].phase)
      requires stage == StageOf(id, Now().enq[id]) && (temp.Some? ==> temp.value == TempOf(id, Now().enq[id]))
      modifies this
      ensures Continues(old(run), run)
      ensures Valid() && (old(Calm()) ==> Calm()) && Ended(old(Now()), Now(), id, stage, temp)
      ensures disk.staging.Dir? && disk.payloads.Dir?
      ensures tidy ==> stage !in disk.staging.ents && (temp.Some? ==> temp.value !in disk.payloads.ents)
    {
      hide Runs, Next, Init, RetriesFit, Forward, StageOf, TempOf, Removed, RunOps, Ordinary;
      ghost var s := Now();
      ghost var s' := s.(enq := InPhase(s, id, Failed));
      assert s'.enq.Keys == s.enq.Keys;
      SameNames(id, s.enq[id], s'.enq[id]);
      AbandonIs(p, s, id, s');
      Log(Smtp(id, Abandon), s');
      CleanStage(id, stage, tidy);
      if temp.Some? {
        LeftoversAreOrdinary(p, run);
        var ok, ops, after := RemoveEntryTree(disk.payloads, temp.value, !tidy);
        RemovedParts(disk.payloads, temp.value, ok, ops, after);
        RemoveInPayloads(FailedTemp, id, temp.value, ops);
        var synced := Sync(false, true, false, false);
      }
      ReturnError(id);
      assert Now().enq == old(Now()).enq - {id};
    }

    /** `insertRecord`. */
    method InsertRecord(id: string, start: int, calm: bool) returns (outcome: TxOutcome)
      requires Valid() && (calm ==> Calm()) && Live(Now(), id) && Now().enq[id].phase == Durable
      requires Now().enq[id].start == start && id !in rows
      modifies this
      ensures Continues(old(run), run)
      ensures Valid() && (calm ==> Calm() && outcome == Committed) && InsertTried(old(Now()), Now(), id, start, outcome)
    {
      hide Runs, Next, Init, RetriesFit, Forward, NewRecord, Storable;
      if calm { NewRecordFits(p, run, id); }
      outcome := Commit(NewRecord(start), calm);
      ghost var s := Now();
      rows := Written(rows, id, NewRecord(start), outcome);
      ghost var s' := s.(rows := rows, enq := InPhase(s, id, if outcome == Committed then Inserted else Removing));
      assert s'.enq.Keys == s.enq.Keys;
      RunSteps.InsertIs(p, s, id, outcome, s');
      Log(Smtp(id, Insert(outcome)), s');
    }

    /** The payload of a row that could not be inserted is removed as far as that goes. */
    method WithdrawPayload(id: string, ghost stage: Name, tidy: bool)
      requires Valid() && Live(Now(), id) && Now().enq[id].phase.Removing?
      modifies this
      ensures Continues(old(run), run)
      ensures Valid() && (old(Calm()) ==> Calm()) && Ended(old(Now()), Now(), id, stage, Some(id))
      ensures disk.staging.Dir? && disk.staging.ents == old(disk).staging.ents
      ensures disk.payloads.Dir? && (tidy ==> id !in disk.payloads.ents)
    {
      hide Runs, Next, Init, RetriesFit, Forward, Removed, RunOps, Ordinary;
      LeftoversAreOrdinary(p, run);
      var ok, ops, after := RemoveEntryTree(disk.payloads, id, !tidy);
      RemovedParts(disk.payloads, id, ok, ops, after);
      RemoveInPayloads(Withdrawn, id, id, ops);
      var synced := Sync(false, true, false, false);
      ReturnError(id);
    }

    /** `HandleMessage` returns nil. */
    method Acknowledge(id: string)
      requires Valid() && Live(Now(), id) && Now().enq[id].phase == Inserted
      modifies this
      ensures Continues(old(run), run)
      ensures Valid() && (old(Calm()) ==> Calm())
      ensures Now() == old(Now()).(enq := old(Now()).enq - {id},
                                   hist := old(Now()).hist.(acked := old(Now()).hist.acked + {id}))
    {
      hide Runs, Next, Init, RetriesFit, Forward;
      ghost var s := Now();
      ghost var s' := s.(enq := s.enq - {id}, hist := s.hist.(acked := s.hist.acked + {id}));
      OneFewer(s.enq, id);
      AcknowledgeIs(p, s, id, s');
      inflight := inflight - 1;
      Log(Smtp(id, SmtpStep.Acknowledge), s');
    }

    /**
     `HandleMessage` past the sender policy, with the identifier and the names drawn for it. It is accepted exactly
     with a durable payload and a row; without faults it is refused only when all slots are taken.
     */
    method HandleMessage(id: string, msg: Message, draw: Names, sameDevice: bool, calm: bool, tidy: bool)
      returns (reply: Reply)
      requires Valid() && (calm ==> Calm()) && Now().proc.Up? && Canonical(id) && id !in Now().hist.issued
      requires draw.Fit(id, msg, disk)
      modifies this
      ensures Continues(old(run), run)
      ensures Valid() && (calm ==> Calm() && !reply.Rejected?) && inflight == old(inflight)
      ensures reply.Busy? <==> old(inflight) >= p.maxInflight
      ensures reply.Busy? ==> Now() == old(Now())
      ensures reply.Accepted? ==>
                HasMessage(p.codec, old(Now()), Now(), id, msg, StageName(id, draw.stage), reply.start)
      ensures reply.Rejected? ==>
                LostNothing(old(Now()), Now(), id, StageName(id, draw.stage), PublishTempName(id, draw.temp))
      ensures tidy && !reply.Busy? ==> NothingLeft(Now(), id, draw, reply)
    {
      hide Runs, Next, Init, RetriesFit, Forward, HasMessage, LostNothing, Begun, SavedWell, SaveFailed, InsertTried,
           Ended, Canonical, Live;
      NotYetInFlight(p, run, id);
      if inflight >= p.maxInflight { return Busy; }
      ghost var s0 := Now();
      var start := BeginEnqueue(id, msg, calm);
      ghost var s1 := Now();
      BegunIsReady(s0, s1, id, msg, start, draw);
      var saved, temp := Save(id, msg, draw, sameDevice, calm, tidy);
      ghost var s2 := Now();
      if !saved {
        FailedIsLive(s1, s2, id, draw, temp);
        AbandonSave(id, StageName(id, draw.stage), temp, tidy);
        FailedSaveLosesNothing(s0, s1, s2, Now(), id, msg, start, draw, temp);
        if tidy { FailedSaveLeavesNothing(s0, s1, s2, Now(), id, msg, start, draw, temp); }
        reply := Reply.Rejected;
      } else {
        SavedIsDurable(p.codec, s0, s1, s2, id, msg, StageName(id, draw.stage), start);
        SavedHasNoTemp(p.codec, s0, s1, s2, id, msg, start, draw);
        reply := FinishEnqueue(s0, s1, id, msg, draw, start, calm, tidy);
      }
      assert Now().enq == s0.enq;
    }

    /** The second half of `Enqueue`: the row, and the answer. */
    method FinishEnqueue(ghost s0: Sys, ghost s1: Sys, id: string, msg: Message, draw: Names, start: int, calm: bool,
                         tidy: bool)
      returns (reply: Reply)
      requires Valid() && (calm ==> Calm()) && Live(Now(), id) && Now().enq[id].phase == Durable
      requires Now().enq[id].start == start && id !in rows
      requires Begun(s0, s1, id, msg, start) && SavedWell(p.codec, s1, Now(), id, msg, StageName(id, draw.stage))
      requires id !in s0.hist.acked && id !in s0.rows
      requires disk.payloads.Dir? && PublishTempName(id, draw.temp) !in disk.payloads.ents
      requires tidy ==> disk.staging.Dir? && StageName(id, draw.stage) !in disk.staging.ents
      modifies this
      ensures Continues(old(run), run)
      ensures Valid() && (calm ==> Calm() && reply.Accepted?) && (reply.Accepted? || reply.Rejected?)
      ensures Now().enq == s0.enq
      ensures reply.Accepted? ==> reply.start == start
      ensures reply.Accepted? ==> HasMessage(p.codec, s0, Now(), id, msg, StageName(id, draw.stage), start)
      ensures reply.Rejected? ==> LostNothing(s0, Now(), id, StageName(id, draw.stage), PublishTempName(id, draw.temp))
      ensures tidy ==> NothingLeft(Now(), id, draw, reply)
    {
      hide Runs, Next, Init, RetriesFit, Forward, HasMessage, LostNothing, Begun, SavedWell, InsertTried, Ended, Live;
      ghost var s2 := Now();
      var outcome := InsertRecord(id, start, calm);
      ghost var s3 := Now();
      TriedIsLive(s2, s3, id, start, outcome);
      if outcome == Committed {
        Acknowledge(id);
        AcceptedHasMessage(p, run, s0, s1, s2, s3, Now(), id, msg, StageName(id, draw.stage), start);
        if tidy { AcceptedLeavesNothing(s2, s3, Now(), id, start, draw); }
        return Reply.Accepted(start);
      }
      WithdrawPayload(id, StageName(id, draw.stage), tidy);
      FailedInsertLosesNothing(p.codec, s0, s1, s2, s3, Now(), id, msg, start, outcome, StageName(id, draw.stage),
                               PublishTempName(id, draw.temp));
      if tidy { WithdrawnLeavesNothing(s2, s3, Now(), id, start, outcome, draw); }
      return Reply.Rejected;
    }
  }
}
