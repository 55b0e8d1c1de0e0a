/** The delivery worker as an object over the spool store. */
module WorkerLoop {
  import opened Options
  import opened Ids
  import opened Disk
  import opened Payload
  import opened Rows
  import opened Delivery
  import opened Outcomes
  import opened Machine
  import opened Clock
  import opened Recovery
  import opened RunSteps
  import opened Theorems
  import opened StoreFacts
  import opened Store

  /** How the provider answers during one pass. */
  datatype Provider = Provider(submit: (Message, string) -> Answer, poll: string -> Answer)
  {
    /** The ACS provider accepts a submission under the identifier it was given. */
    ghost predicate Fits(p: Params) { p.acs ==> forall m, id :: AcsAnswer(id, submit(m, id)) }
  }

  /** What `processSubmittedOnce` decides about the record it picked. */
  function PickedDecision(cfg: WorkerConfig, r: Record, now: int, poll: string -> Answer): Decision {
    if Expired(cfg, r, now) then TimeoutDecision(cfg, r, now) else PollDecision(cfg, r, now, poll(r.operationID))
  }

  /** The row of a submitted record after its turn. */
  function PolledRow(cfg: WorkerConfig, r: Record, now: int, poll: string -> Answer, clock: int): Record {
    if r.firstSubmitted != ZERO_TIME && r.firstSubmitted + cfg.submittedTimeout <= now
    then TimeoutRow(cfg, r, now, clock)
    else PollRow(cfg, r, now, poll(r.operationID), clock)
  }

  lemma PickedWrites(cfg: WorkerConfig, r: Record, now: int, poll: string -> Answer, clock: int)
    requires r.state == Submitted && AtRest(r) == r
    ensures var d := PickedDecision(cfg, r, now, poll);
            Marked(d.record, d.mark, clock) == Some(PolledRow(cfg, r, now, poll, clock))
  {
    hide Marked, PollDecision, TimeoutDecision, PollRow, TimeoutRow, AtRest;
    PollWrites(cfg, r, now, poll(r.operationID), clock);
    TimeoutWrites(cfg, r, now, clock);
  }

  /**
   What the provider has been asked after the poll of a record, made at `at` unless the record is past its deadline.
   */
  function AfterPoll(cfg: WorkerConfig, c: Calls, id: string, r: Record, now: int, at: int): Calls {
    if r.firstSubmitted != ZERO_TIME && r.firstSubmitted + cfg.submittedTimeout <= now then c
    else WithPoll(c, PollEvent(id, r.operationID, now, r.firstSubmitted, at))
  }

  /** The first due submitted record has been polled, or found past its deadline, and the row says so. */
  ghost predicate PolledOne(p: Params, provider: Provider, s: Sys, s': Sys, now: int) {
    exists id ::
      && FirstDue(s.rows, Submitted, now, id)
      && s'.rows == s.rows[id := PolledRow(p.worker, s.rows[id], now, provider.poll, s'.clock)]
      && CallsOf(s'.hist) == AfterPoll(p.worker, CallsOf(s.hist), id, s.rows[id], now, s.clock)
  }

  /**
   The first due message that loads has been submitted, once, as it was stored, and its row stands where the answer
   leads.
   */
  ghost predicate SubmittedOne(p: Params, provider: Provider, s: Sys, s': Sys, now: int) {
    exists id, claimed: Table, msg ::
      && ClaimsFirstLoadable(p.codec, s.disk.payloads, s.rows, claimed, now, id)
      && LoadNode(p.codec, Find(s.disk.payloads, id)) == Loaded(msg) && id in claimed
      && s'.rows == claimed[id := SubmitRow(p.worker, claimed[id], now, provider.submit(msg, id), s'.clock)]
      && CallsOf(s'.hist) == WithSubmit(CallsOf(s.hist), id, msg)
  }

  predicate NotAsked(s: Sys, s': Sys) { CallsOf(s'.hist) == CallsOf(s.hist) }

  ghost predicate NothingToPoll(s: Sys, s': Sys, now: int) {
    NoneDue(s.rows, Submitted, now) && s'.rows == s.rows && NotAsked(s, s')
  }

  ghost predicate NothingToSubmit(p: Params, s: Sys, s': Sys, now: int) {
    NothingLoadable(p.codec, s.disk.payloads, s.rows, s'.rows, now) && NotAsked(s, s')
  }

  /** Also when the store fails: no more than one poll, of the first due record. */
  ghost predicate AtMostOnePoll(p: Params, s: Sys, s': Sys, now: int) {
    || NotAsked(s, s')
    || exists id ::
         && FirstDue(s.rows, Submitted, now, id)
         && CallsOf(s'.hist) == AfterPoll(p.worker, CallsOf(s.hist), id, s.rows[id], now, s.clock)
  }

  /** Also when the store fails: no more than one submission, of a due message as it was stored. */
  ghost predicate AtMostOneSubmit(p: Params, s: Sys, s': Sys, now: int) {
    || NotAsked(s, s')
    || exists id, msg ::
         && id in s.rows && Due(s.rows[id], Queued, now) && LoadNode(p.codec, Find(s.disk.payloads, id)) == Loaded(msg)
         && CallsOf(s'.hist) == WithSubmit(CallsOf(s.hist), id, msg)
  }

  /** A whole pass that began at `now`: one poll if one is due, then one submission if one is due. */
  ghost predicate Passed(p: Params, provider: Provider, s: Sys, mid: Sys, s': Sys, now: int) {
    && (NothingToPoll(s.(clock := now), mid, now) || PolledOne(p, provider, s.(clock := now), mid, now))
    && (NothingToSubmit(p, mid, s', now) || SubmittedOne(p, provider, mid, s', now))
  }

  class DeliveryWorker {
    const store: SpoolStore

    constructor (store: SpoolStore)
      ensures this.store == store
    {
      this.store := store;
    }

    /** `processSubmittedOnce`. */
    method ProcessSubmittedOnce(now: int, provider: Provider, calm: bool) returns (worked: bool, failed: bool)
      requires store.Valid() && (calm ==> store.Calm()) && store.Now().proc == Up(Polling(now))
      modifies store
      ensures Continues(old(store.run), store.run)
      ensures store.Valid() && (calm ==> store.Calm() && !failed) && store.disk == old(store.disk)
      ensures failed ==> store.Now().proc == Up(Stopped)
      ensures !failed ==> store.Now().proc == Up(Worker.Claiming(now))
      ensures !failed && !worked ==> NothingToPoll(old(store.Now()), store.Now(), now)
      ensures !failed && worked ==> PolledOne(store.p, provider, old(store.Now()), store.Now(), now)
      ensures AtMostOnePoll(store.p, old(store.Now()), store.Now(), now)
    {
      hide Runs, Next, Init, RetriesFit, Forward, FirstDue, NoneDue, Marked, PollDecision, TimeoutDecision, Expired,
           AfterPoll, CallsOf, PolledOne, AtMostOnePoll, PickedDecision, PolledRow, AtRest, Storable;
      ghost var s0 := store.Now();
      var found;
      failed, found := store.NextSubmittedReady(now, calm);
      worked := found.Some?;
      if failed || !worked { NoPoll(store.p, s0, store.Now(), now); return; }
      var id := found.value;
      DueIsThere(store.rows, Submitted, now, id);
      var rec := store.rows[id];
      HeldRow(store.p, store.run);
      var d := PickedDecision(store.p.worker, rec, now, provider.poll);
      Decide(id, rec, d, now, provider.poll);
      var outcome := store.FinalizeRecord(id, rec, d, now, calm);
      failed := outcome != Committed;
      OnePoll(store.p, s0, store.Now(), now, id);
      if !failed {
        PickedWrites(store.p.worker, rec, now, provider.poll, store.clock);
        ThisPolled(store.p, provider, s0, store.Now(), now, id);
      }
    }

    /** The poll, unless the record is past its deadline. */
    method Decide(id: string, rec: Record, d: Decision, now: int, poll: string -> Answer)
      requires store.Valid() && store.Now().proc == Up(Picked(id, rec, now))
      requires d == PickedDecision(store.p.worker, rec, now, poll)
      modifies store`run
      ensures Continues(old(store.run), store.run)
      ensures store.Valid() && (old(store.Calm()) ==> store.Calm())
      ensures store.Now().proc == Up(Finalizing(id, rec, d, now))
      ensures CallsOf(store.Now().hist) ==
                AfterPoll(store.p.worker, CallsOf(old(store.Now()).hist), id, rec, now, store.clock)
    {
      hide Runs, Next, Init, RetriesFit, Forward, PollDecision, TimeoutDecision;
      ghost var s := store.Now();
      if Expired(store.p.worker, rec, now) {
        ghost var s' := s.(proc := Up(Finalizing(id, rec, d, now)));
        ExpireIs(store.p, s, s');
        store.Log(Work(Expire), s');
      } else {
        ghost var a := poll(rec.operationID);
        ghost var s' := s.(proc := Up(Finalizing(id, rec, d, now)),
                           hist := Polled(s.hist, PollEvent(id, rec.operationID, now, rec.firstSubmitted, s.clock)));
        PollIs(store.p, s, a, s');
        store.Log(Work(Poll(a)), s');
      }
    }

    /** `processQueuedOnce`. */
    method ProcessQueuedOnce(now: int, provider: Provider, calm: bool) returns (worked: bool, failed: bool)
      requires store.Valid() && (calm ==> store.Calm()) && store.Now().proc == Up(Worker.Claiming(now))
      requires provider.Fits(store.p)
      modifies store
      ensures Continues(old(store.run), store.run)
      ensures store.Valid() && (calm ==> store.Calm() && !failed) && store.disk == old(store.disk)
      ensures failed ==> store.Now().proc == Up(Stopped)
      ensures !failed ==> store.Now().proc == Up(Idle)
      ensures !failed && !worked ==> NothingToSubmit(store.p, old(store.Now()), store.Now(), now)
      ensures !failed && worked ==> SubmittedOne(store.p, provider, old(store.Now()), store.Now(), now)
      ensures AtMostOneSubmit(store.p, old(store.Now()), store.Now(), now)
    {
      hide Runs, Next, Init, RetriesFit, Forward, Marked, SubmitDecision, ClaimsFirstLoadable, NothingLoadable,
           LoadNode, CallsOf, SubmittedOne, AtMostOneSubmit, SubmitRow, AtRest, Storable;
      ghost var s0 := store.Now();
      var claim := store.ClaimReady(now, calm);
      NoSubmission(store.p, s0, store.Now(), now);
      match claim {
        case NothingDue => return false, false;
        case StoreFailed => return false, true;
        case Unreadable(_) => return false, true;
        case Got(id, rec, msg) =>
          ghost var claimed := store.rows;
          ClaimedIsThere(store.p.codec, store.disk.payloads, s0.rows, claimed, now, id);
          HeldRow(store.p, store.run);
          var a := provider.submit(msg, id);
          var d := SubmitDecision(store.p.worker, rec, now, a);
          CallSubmit(id, rec, msg, a, d, now);
          var outcome := store.FinalizeRecord(id, rec, d, now, calm);
          OneSubmission(store.p, s0, store.Now(), claimed, now, id, msg);
          if outcome != Committed { return true, true; }
          SubmitWrites(store.p.worker, rec, now, a, store.clock);
          ThisSubmitted(store.p, provider, s0, store.Now(), claimed, now, id, msg);
          return true, false;
      }
    }

    method CallSubmit(id: string, rec: Record, msg: Message, a: Answer, d: Decision, now: int)
      requires store.Valid() && store.Now().proc == Up(Worker.Ready(id, rec, msg, now))
      requires d == SubmitDecision(store.p.worker, rec, now, a)
      requires store.p.acs ==> AcsAnswer(id, a)
      modifies store`run
      ensures Continues(old(store.run), store.run)
      ensures store.Valid() && (old(store.Calm()) ==> store.Calm())
      ensures store.Now().proc == Up(Finalizing(id, rec, d, now))
      ensures CallsOf(store.Now().hist) == WithSubmit(CallsOf(old(store.Now()).hist), id, msg)
    {
      hide Runs, Next, Init, RetriesFit, Forward, SubmitDecision, AcsAnswer;
      ghost var s := store.Now();
      ghost var s' := s.(proc := Up(Finalizing(id, rec, d, now)),
                         hist := s.hist.(submits := Incremented(s.hist.submits, id),
                                         sent := s.hist.sent + {(id, msg)}));
      SubmitIs(store.p, s, a, s');
      store.Log(Work(Submit(a)), s');
    }

    /** One round of `Start`, begun at `now`; `mid` is the state between the poll and the submission. */
    method Pass(provider: Provider, calm: bool) returns (worked: bool, failed: bool, ghost now: int, ghost mid: Sys)
      requires store.Valid() && (calm ==> store.Calm()) && store.Now().proc == Up(Idle) && provider.Fits(store.p)
      modifies store
      ensures Continues(old(store.run), store.run)
      ensures store.Valid() && (calm ==> store.Calm() && !failed) && store.disk == old(store.disk)
      ensures store.Now().proc == Up(if failed then Stopped else Idle)
      ensures !failed ==> Passed(store.p, provider, old(store.Now()), mid, store.Now(), now)
      ensures !failed && !worked ==> NothingToPoll(old(store.Now()), mid, now)
      ensures !failed && !worked ==> NothingToSubmit(store.p, mid, store.Now(), now)
      ensures !failed && worked ==>
                || PolledOne(store.p, provider, old(store.Now()).(clock := now), mid, now)
                || SubmittedOne(store.p, provider, mid, store.Now(), now)
      ensures AtMostOnePoll(store.p, old(store.Now()).(clock := now), mid, now)
      ensures AtMostOneSubmit(store.p, mid, store.Now(), now)
    {
      hide Runs, Next, Init, RetriesFit, Forward, PolledOne, SubmittedOne, AtMostOnePoll, AtMostOneSubmit,
           NothingLoadable, NoneDue, CallsOf;
      ghost var s0 := store.Now();
      var t := store.ReadClock(calm);
      now := t;
      BeginPass(t);
      ghost var s1 := store.Now();
      var polled, submitted;
      polled, failed := ProcessSubmittedOnce(t, provider, calm);
      mid := store.Now();
      BegunAt(store.p, provider, s0, s1, mid, t);
      NoSubmission(store.p, mid, mid, t);
      if failed { return false, true, t, mid; }
      submitted, failed := ProcessQueuedOnce(t, provider, calm);
      worked := polled || submitted;
    }

    method BeginPass(now: int)
      requires store.Valid() && store.Now().proc == Up(Idle) && now == store.clock
      modifies store`run
      ensures Continues(old(store.run), store.run)
      ensures store.Valid() && (old(store.Calm()) ==> store.Calm())
      ensures store.Now() == old(store.Now()).(proc := Up(Polling(now)))
    {
      hide Runs, Next, Init, RetriesFit, Forward;
      ghost var s := store.Now();
      BeginPassIs(store.p, s, s.(proc := Up(Polling(now))));
      store.Log(Work(WorkerStep.BeginPass), s.(proc := Up(Polling(now))));
    }

    /** `Start`, canceled after `rounds` rounds: the loop never stops by itself unless the store fails. */
    method Start(rounds: nat, provider: nat -> Provider, calm: bool) returns (failed: bool, ghost trace: seq<Sys>)
      requires store.Valid() && (calm ==> store.Calm()) && store.Now().proc == Up(Idle)
      requires forall i :: provider(i).Fits(store.p)
      modifies store
      ensures Continues(old(store.run), store.run)
      ensures store.Valid() && (calm ==> store.Calm() && !failed) && store.disk == old(store.disk)
      ensures store.Now().proc == Up(if failed then Stopped else Idle)
      ensures 0 < |trace| <= rounds + 1 && trace[0] == old(store.Now()) && PassAfterPass(store.p, provider, trace)
      ensures !failed ==> |trace| == rounds + 1 && trace[rounds] == store.Now()
    {
      hide Runs, Next, Init, RetriesFit, Forward, Passed, AtMostOnePoll, AtMostOneSubmit, NothingToPoll,
           NothingToSubmit;
      failed, trace := false, [store.Now()];
      var i := 0;
      while i < rounds
        invariant store.Valid() && (calm ==> store.Calm()) && store.disk == old(store.disk)
        invariant store.Now().proc == Up(Idle)
        invariant Continues(old(store.run), store.run)
        invariant 0 <= i <= rounds && |trace| == i + 1 && trace[0] == old(store.Now()) && trace[i] == store.Now()
        invariant PassAfterPass(store.p, provider, trace)
      {
        ghost var now, mid;
        var worked;
        worked, failed, now, mid := Pass(provider(i), calm);
        if failed { return; }
        OnePassMore(store.p, provider, trace, mid, store.Now(), now);
        trace := trace + [store.Now()];
        i := i + 1;
      }
    }
  }

  ghost predicate OnePass(p: Params, provider: Provider, s: Sys, s': Sys) {
    exists mid, now :: Passed(p, provider, s, mid, s', now)
  }

  /** From each state to the next, a pass in which the provider answers as it does in that round. */
  ghost predicate PassAfterPass(p: Params, provider: nat -> Provider, trace: seq<Sys>) {
    forall i: nat | i + 1 < |trace| :: OnePass(p, provider(i), trace[i], trace[i + 1])
  }

  lemma OnePassMore(p: Params, provider: nat -> Provider, trace: seq<Sys>, mid: Sys, s: Sys, now: int)
    requires trace != [] && PassAfterPass(p, provider, trace)
    requires Passed(p, provider(|trace| - 1), trace[|trace| - 1], mid, s, now)
    ensures PassAfterPass(p, provider, trace + [s])
  {
    hide Passed;
    var after := trace + [s];
    assert OnePass(p, provider(|trace| - 1), trace[|trace| - 1], s);
    forall i: nat | i + 1 < |after| ensures OnePass(p, provider(i), after[i], after[i + 1]) {
      assert after[i] == trace[i];
      if i + 1 < |trace| { assert OnePass(p, provider(i), trace[i], trace[i + 1]); }
    }
  }

  lemma NoPoll(p: Params, s: Sys, s': Sys, now: int)
    requires CallsOf(s'.hist) == CallsOf(s.hist)
    ensures AtMostOnePoll(p, s, s', now)
  {}

  lemma OnePoll(p: Params, s: Sys, s': Sys, now: int, id: string)
    requires FirstDue(s.rows, Submitted, now, id)
    requires CallsOf(s'.hist) == AfterPoll(p.worker, CallsOf(s.hist), id, s.rows[id], now, s.clock)
    ensures AtMostOnePoll(p, s, s', now)
  {
    hide CallsOf, AfterPoll, Before, Truncated;
  }

  lemma ThisPolled(p: Params, provider: Provider, s: Sys, s': Sys, now: int, id: string)
    requires FirstDue(s.rows, Submitted, now, id)
    requires s'.rows == s.rows[id := PolledRow(p.worker, s.rows[id], now, provider.poll, s'.clock)]
    requires CallsOf(s'.hist) == AfterPoll(p.worker, CallsOf(s.hist), id, s.rows[id], now, s.clock)
    ensures PolledOne(p, provider, s, s', now)
  {
    hide CallsOf, AfterPoll, Before, Truncated, PolledRow;
  }

  lemma NoSubmission(p: Params, s: Sys, s': Sys, now: int)
    ensures CallsOf(s'.hist) == CallsOf(s.hist) ==> AtMostOneSubmit(p, s, s', now)
  {
    hide LoadNode;
  }

  lemma OneSubmission(p: Params, s: Sys, s': Sys, claimed: Table, now: int, id: string, msg: Message)
    requires ClaimsFirstLoadable(p.codec, s.disk.payloads, s.rows, claimed, now, id)
    requires LoadNode(p.codec, Find(s.disk.payloads, id)) == Loaded(msg)
    requires CallsOf(s'.hist) == WithSubmit(CallsOf(s.hist), id, msg)
    ensures AtMostOneSubmit(p, s, s', now)
  {
    hide CallsOf, LoadNode, SkippedUpTo, CorruptAt, Truncated, WithSubmit;
  }

  lemma ThisSubmitted(p: Params, provider: Provider, s: Sys, s': Sys, claimed: Table, now: int, id: string,
                      msg: Message)
    requires ClaimsFirstLoadable(p.codec, s.disk.payloads, s.rows, claimed, now, id) && id in claimed
    requires LoadNode(p.codec, Find(s.disk.payloads, id)) == Loaded(msg)
    requires CallsOf(s'.hist) == WithSubmit(CallsOf(s.hist), id, msg)
    requires s'.rows == claimed[id := SubmitRow(p.worker, claimed[id], now, provider.submit(msg, id), s'.clock)]
    ensures SubmittedOne(p, provider, s, s', now)
  {
    hide CallsOf, LoadNode, ClaimsFirstLoadable, SubmitRow, WithSubmit;
  }

  /** Reading the clock and beginning the pass change nothing that the poll goes by. */
  lemma BegunAt(p: Params, provider: Provider, s0: Sys, s1: Sys, mid: Sys, now: int)
    requires s1.rows == s0.rows && s1.hist == s0.hist && s1.clock == now
    ensures NothingToPoll(s1, mid, now) ==> NothingToPoll(s0.(clock := now), mid, now) && NothingToPoll(s0, mid, now)
    ensures PolledOne(p, provider, s1, mid, now) ==> PolledOne(p, provider, s0.(clock := now), mid, now)
    ensures AtMostOnePoll(p, s1, mid, now) ==> AtMostOnePoll(p, s0.(clock := now), mid, now)
  {
    hide CallsOf, AfterPoll, FirstDue, NoneDue, PolledRow;
  }

  /** A fresh spool takes a message, if nothing fails. */
  method AcceptOne(p: Params, clock: int, id: string, msg: Message, draw: Names) returns (store: SpoolStore)
    requires p.Valid() && RetriesFit(p.worker) && clock >= MILLISECOND && p.maxInflight > 0
    requires Canonical(id) && |draw.tmps| == |msg.attachments| + 1 && TmpNames(draw.tmps)
    ensures fresh(store) && store.p == p && store.Valid() && store.Calm() && store.Now().proc == Up(Idle)
    ensures id in store.Now().hist.acked
    ensures FreshlyAccepted(p.codec, store.rows, store.disk.payloads, id, msg, store.clock)
  {
    hide Runs, Next, Init, RetriesFit, Canonical, TmpNames, HasMessage, LostNothing, Forward, FreshlyAccepted;
    store := new SpoolStore(p, clock);
    FreshStart(p, store.run);
    var up, how := store.StartUp(true);
    ghost var s0 := store.Now();
    EmptySpool(s0, id, msg, draw);
    var reply := store.HandleMessage(id, msg, draw, true, true, true);
    OnlyTheNewRow(p.codec, s0, store.Now(), id, msg, StageName(id, draw.stage), reply.start);
  }

  /**
   From a fresh spool to the provider's answer: without faults the message is accepted, claimed, loaded, submitted as it
   was stored, and its row stands where that answer leads.
   */
  method DeliverOne(p: Params, clock: int, id: string, msg: Message, draw: Names, provider: Provider)
    returns (store: SpoolStore)
    requires p.Valid() && RetriesFit(p.worker) && clock >= MILLISECOND && p.maxInflight > 0
    requires Canonical(id) && |draw.tmps| == |msg.attachments| + 1 && TmpNames(draw.tmps) && provider.Fits(p)
    ensures fresh(store) && store.Valid() && id in store.Now().hist.acked && store.rows.Keys == {id}
    ensures store.rows[id].state == SubmitState(provider.submit(Normal(msg), id), true) && store.rows[id].attempt == 1
    ensures (id, Normal(msg)) in store.Now().hist.sent
  {
    hide Runs, Next, Init, RetriesFit, Forward, Canonical, TmpNames, LoadNode, Normal, SubmitState, FreshlyAccepted,
         PolledOne, SubmittedOne, NothingToSubmit, AtMostOnePoll, AtMostOneSubmit, NoneDue;
    store := AcceptOne(p, clock, id, msg, draw);
    ghost var accepted, t := store.run, store.clock;
    var worker := new DeliveryWorker(store);
    var now := store.ReadClock(true);
    worker.BeginPass(now);
    ghost var s1 := store.Now();
    var worked, failed := worker.ProcessSubmittedOnce(now, provider, true);
    NotSubmittedYet(p, provider, s1, store.Now(), id, msg, t, now);
    ghost var s2 := store.Now();
    worked, failed := worker.ProcessQueuedOnce(now, provider, true);
    NewRowIsClaimed(p, s2, store.Now(), id, msg, t, now);
    AckedStays(p, accepted, store.run, id);
    AnsweredAsStored(p, provider, s2, store.Now(), id, msg, t, now);
  }

  lemma EmptySpool(s: Sys, id: string, msg: Message, draw: Names)
    requires PayloadsOfRowsOnly(s) && s.rows.Keys == {} && s.disk.staging.Dir? && s.disk.staging.ents == map[]
    requires |draw.tmps| == |msg.attachments| + 1 && TmpNames(draw.tmps)
    ensures draw.Fit(id, msg, s.disk)
  {
    hide TmpNames, StageName, PublishTempName;
    assert forall k | k in s.disk.payloads.ents :: k in s.rows.Keys;
  }

  /** One queued row, due, whose payload loads to the message. */
  ghost predicate FreshlyAccepted(c: Codec, rows: Table, d: Node, id: string, msg: Message, clock: int) {
    && rows.Keys == {id} && rows[id].attempt == 0 && Due(rows[id], Queued, clock)
    && LoadNode(c, Find(d, id)) == Loaded(Normal(msg))
  }

  lemma OnlyTheNewRow(c: Codec, s0: Sys, s: Sys, id: string, msg: Message, stage: Name, start: int)
    requires s0.rows.Keys == {} && HasMessage(c, s0, s, id, msg, stage, start)
    ensures FreshlyAccepted(c, s.rows, s.disk.payloads, id, msg, s.clock) && s.proc == s0.proc && id in s.hist.acked
  {
    hide LoadNode, Normal, PayloadNode;
  }

  lemma NotSubmittedYet(p: Params, provider: Provider, s: Sys, s': Sys, id: string, msg: Message, clock: int, now: int)
    requires FreshlyAccepted(p.codec, s.rows, s.disk.payloads, id, msg, clock)
    ensures !PolledOne(p, provider, s, s', now)
  {
    hide LoadNode, Normal, Truncated, PolledRow, CallsOf, AfterPoll;
    assert forall k | k in s.rows :: k in s.rows.Keys;
  }

  lemma NewRowIsClaimed(p: Params, s: Sys, s': Sys, id: string, msg: Message, clock: int, now: int)
    requires FreshlyAccepted(p.codec, s.rows, s.disk.payloads, id, msg, clock) && clock <= now
    ensures !NothingToSubmit(p, s, s', now)
  {
    hide LoadNode, Find, Normal, CallsOf;
    TruncatedMonotone(clock, now);
    assert Due(s.rows[id], Queued, now) && !CorruptAt(p.codec, s.disk.payloads, id);
  }

  lemma AnsweredAsStored(p: Params, provider: Provider, s: Sys, s': Sys, id: string, msg: Message, t: int, now: int)
    requires p.worker.Valid() && FreshlyAccepted(p.codec, s.rows, s.disk.payloads, id, msg, t)
    requires SubmittedOne(p, provider, s, s', now)
    ensures s'.rows.Keys == {id} && s'.rows[id].state == SubmitState(provider.submit(Normal(msg), id), true)
    ensures s'.rows[id].attempt == 1
    ensures (id, Normal(msg)) in s'.hist.sent
  {
    hide SubmitRow, SubmitState, LoadNode, Find, Normal, ClaimsFirstLoadable;
    var k, claimed: Table, m :|
      && ClaimsFirstLoadable(p.codec, s.disk.payloads, s.rows, claimed, now, k)
      && LoadNode(p.codec, Find(s.disk.payloads, k)) == Loaded(m) && k in claimed
      && s'.rows == claimed[k := SubmitRow(p.worker, claimed[k], now, provider.submit(m, k), s'.clock)]
      && CallsOf(s'.hist) == WithSubmit(CallsOf(s.hist), k, m);
    OnlyRowClaimed(p.codec, s.disk.payloads, s.rows, claimed, now, k, id);
    OnlyRowAnswered(p, claimed, s'.rows, id, now, provider.submit(m, k), s'.clock);
  }

  lemma OnlyRowClaimed(c: Codec, d: Node, was: Table, claimed: Table, now: int, k: string, id: string)
    requires was.Keys == {id} && was[id].attempt == 0 && ClaimsFirstLoadable(c, d, was, claimed, now, k)
    ensures k == id && claimed.Keys == {id} && claimed[id].state == Working && claimed[id].attempt == 0
  {
    assert k in was.Keys;
  }

  lemma OnlyRowAnswered(p: Params, claimed: Table, after: Table, id: string, now: int, a: Answer, clock: int)
    requires p.worker.Valid() && claimed.Keys == {id} && claimed[id].state == Working && claimed[id].attempt == 0
    requires after == claimed[id := SubmitRow(p.worker, claimed[id], now, a, clock)]
    ensures after.Keys == {id} && after[id].state == SubmitState(a, true) && after[id].attempt == 1
  {
    hide Truncated, Kept;
    assert after.Keys == claimed.Keys + {id};
  }

  lemma DueIsThere(rows: Table, state: State, now: int, id: string)
    requires FirstDue(rows, state, now, id)
    ensures id in rows && rows[id].state == state
  {}

  lemma ClaimedIsThere(c: Codec, payloads: Node, was: Table, after: Table, now: int, id: string)
    requires ClaimsFirstLoadable(c, payloads, was, after, now, id)
    ensures id in after && after[id].state == Working
  {}
}
