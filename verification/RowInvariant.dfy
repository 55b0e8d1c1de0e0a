/** What every step keeps about the table, the worker and the provider's view. */
module RowInvariant {
  import opened Options
  import opened Text
  import opened Ids
  import opened Disk
  import opened Payload
  import opened Rows
  import opened Durations
  import opened Delivery
  import opened Machine
  import opened DiskInvariant

  // ---- one row ----

  predicate NoOperation(r: Record) {
    r.operationID == "" && r.operationLocation == "" && r.providerMessageID == "" && r.firstSubmitted == ZERO_TIME
  }

  ghost predicate RowOk(p: Params, id: string, r: Record) {
    && Storable(r) && AtRest(r) == r
    && 0 <= r.attempt <= p.worker.retryAttempts + 1
    && (r.state == Queued || r.state == Working ==> r.attempt <= p.worker.retryAttempts && NoOperation(r))
    && (r.state == Submitted ==> r.firstSubmitted != ZERO_TIME && (p.acs ==> r.operationID == id))
  }

  /** What one write may do to a row. */
  ghost predicate Edge(r: Record, r': Record) {
    && r'.created == r.created
    && r.attempt <= r'.attempt <= r.attempt + 1
    && match r.state
       case Queued => (r'.state == Working || r'.state == DeadLetter) && r'.attempt == r.attempt
       case Working => r'.state != Working
       case Submitted =>
         && (r'.state == Submitted || r'.state == Succeeded || r'.state == DeadLetter)
         && r'.attempt == r.attempt && r'.firstSubmitted == r.firstSubmitted && r'.operationID == r.operationID
       case _ => false
  }

  /** A decision is made about the record as it stands in the table. */
  ghost predicate DecisionOk(p: Params, id: string, rec: Record, d: Decision) {
    && d.record == rec.(providerMessageID := d.record.providerMessageID)
    && (rec.state == Working ==>
          && (d.mark.MarkRetry? ==> rec.attempt < p.worker.retryAttempts)
          && (d.mark.MarkSubmitted? && p.acs ==> Trim(d.mark.operationID) == id))
    && (rec.state == Submitted ==> !d.mark.MarkSubmitted?)
  }

  lemma ClaimedOk(p: Params, id: string, r: Record, clock: int)
    requires RowOk(p, id, r) && r.state == Queued && Storable(ClaimedRecord(r, clock))
    ensures RowOk(p, id, ClaimedRecord(r, clock)) && Edge(r, ClaimedRecord(r, clock))
  {
    hide Trim, ErrorAtRest;
    AtRestParts(r);
    TruncatedTwice(clock);
  }

  lemma NewOk(p: Params, id: string, now: int)
    requires p.worker.Valid() && Storable(NewRecord(now))
    ensures RowOk(p, id, NewRecord(now)) && NewRecord(now).state == Queued && NewRecord(now).attempt == 0
  {
    hide ErrorAtRest;
    AtRestTwice(Record(Queued, 0, now, "", "", "", ZERO_TIME, None, now, now));
  }

  lemma RequeuedOk(p: Params, id: string, r: Record, clock: int)
    requires RowOk(p, id, r) && r.state == Working && Storable(RequeuedRecord(r, clock))
    ensures RowOk(p, id, RequeuedRecord(r, clock)) && Edge(r, RequeuedRecord(r, clock))
    ensures RequeuedRecord(r, clock) == r.(state := Queued, updated := Truncated(clock))
  {
    hide Trim, ErrorAtRest, Storable;
    AtRestParts(r);
    AtRestTwice(r.(state := Queued, updated := clock));
    assert AtRest(r).lastError == r.lastError;
  }

  lemma RecoveredOk(p: Params, id: string, r: Record, now: int, clock: int)
    requires RowOk(p, id, r) && r.state == Working && Storable(RecoveredRecord(r, now, clock))
    ensures RowOk(p, id, RecoveredRecord(r, now, clock)) && Edge(r, RecoveredRecord(r, now, clock))
    ensures RecoveredRecord(r, now, clock).state == Queued && RecoveredRecord(r, now, clock).attempt == r.attempt
  {
    hide Trim, ErrorAtRest, Storable;
    AtRestParts(r);
    TruncatedTwice(now);
    TruncatedTwice(clock);
    assert AtRest(r).lastError == r.lastError;
    assert Trim("") == "";
  }

  lemma CorruptOk(p: Params, id: string, r: Record, cause: string, clock: int)
    requires RowOk(p, id, r) && (r.state == Queued || r.state == Working || r.state == Submitted)
    requires Storable(CorruptRecord(r, cause, clock))
    ensures RowOk(p, id, CorruptRecord(r, cause, clock)) && Edge(r, CorruptRecord(r, cause, clock))
    ensures CorruptRecord(r, cause, clock).attempt == r.attempt && CorruptRecord(r, cause, clock).state == DeadLetter
  {
    hide Trim, ErrorAtRest, Storable;
    AtRestParts(r);
    var dead := r.(state := DeadLetter, lastError := Some(LastError(cause, SPOOL_PROVIDER, false, clock)),
                   updated := clock);
    AtRestTwice(dead);
    AtRestTwice(WithoutOperation(dead));
  }

  lemma MarkedAtRest(d: Decision, clock: int)
    requires Marked(d.record, d.mark, clock).Some?
    ensures AtRest(Marked(d.record, d.mark, clock).value) == Marked(d.record, d.mark, clock).value
  {
    hide Trim, ErrorAtRest, AtRest, NormalizeLastError;
    forall r: Record ensures AtRest(AtRest(r)) == AtRest(r) { AtRestTwice(r); }
  }

  lemma MarkedEdge(p: Params, id: string, rec: Record, d: Decision, clock: int)
    requires RowOk(p, id, rec) && (rec.state == Working || rec.state == Submitted) && DecisionOk(p, id, rec, d)
    requires Marked(d.record, d.mark, clock).Some?
    ensures Edge(rec, Marked(d.record, d.mark, clock).value)
    ensures rec.state == Working ==> Marked(d.record, d.mark, clock).value.attempt == rec.attempt + 1
    ensures d.mark.MarkSubmitted? || d.mark.MarkSucceeded? ==>
              Marked(d.record, d.mark, clock).value.state in {Submitted, Succeeded}
  {
    hide ErrorAtRest, NormalizeLastError, Storable;
    AtRestParts(rec);
  }

  lemma MarkedOk(p: Params, id: string, rec: Record, d: Decision, clock: int)
    requires RowOk(p, id, rec) && (rec.state == Working || rec.state == Submitted) && DecisionOk(p, id, rec, d)
    requires Marked(d.record, d.mark, clock).Some? && Storable(Marked(d.record, d.mark, clock).value)
    ensures RowOk(p, id, Marked(d.record, d.mark, clock).value)
  {
    MarkedAtRest(d, clock);
    hide ErrorAtRest, NormalizeLastError;
    AtRestParts(rec);
  }

  // ---- the whole state ----

  /** The worker has claimed `id` and not yet called the provider for it. */
  predicate BeforeSubmit(proc: Process, id: string) {
    && proc.Up?
    && (proc.worker.Claimed? || proc.worker.Condemned? || proc.worker.Unreadable? || proc.worker.Ready?)
    && proc.worker.id == id
  }

  predicate Holds(proc: Process, id: string) {
    BeforeSubmit(proc, id) || (proc.Up? && proc.worker.Finalizing? && proc.worker.id == id)
  }

  /** What the worker remembers agrees with the table. */
  ghost predicate WorkerOk(p: Params, s: Sys) {
    s.proc.Up? ==>
      var w := s.proc.worker;
      && (w.Picked? ==> w.id in s.rows && s.rows[w.id] == w.rec && w.rec.state == Submitted)
      && (w.Claimed? || w.Condemned? || w.Unreadable? || w.Ready? ==>
            w.id in s.rows && s.rows[w.id] == w.rec && w.rec.state == Working)
      && (w.Condemned? ==> w.id in s.hist.withdrawn)
      && (w.Ready? ==> w.id in s.hist.issued && w.msg == Normal(s.hist.issued[w.id]))
      && (w.Finalizing? ==>
            && w.id in s.rows && s.rows[w.id] == w.rec && (w.rec.state == Working || w.rec.state == Submitted)
            && DecisionOk(p, w.id, w.rec, w.decision))
  }

  /** A working row belongs to the running worker, or is the one left behind by the worker that stopped. */
  ghost predicate WorkingOk(rows: Table, proc: Process) {
    && (forall a, b | a in rows && b in rows && rows[a].state == Working && rows[b].state == Working :: a == b)
    && (proc.Up? && !proc.worker.Stopped? ==> forall a | a in rows && rows[a].state == Working :: Holds(proc, a))
    && (proc.Recovering? || proc.Quarantining? ==> forall a | a in rows :: rows[a].state != Working)
  }

  /** The records start-up recovery has yet to look at. */
  ghost predicate TodoOk(rows: Table, proc: Process) {
    proc.Recovering? ==>
      && (forall id | id in proc.todo :: id in rows && (rows[id].state == Queued || rows[id].state == Submitted))
      && (forall i, j | 0 <= i < j < |proc.todo| :: proc.todo[i] != proc.todo[j])
  }

  /** Attempts against calls of Submit. */
  ghost predicate CountsOk(s: Sys, id: string) {
    var calls, requeues := Count(s.hist.submits, id), Count(s.hist.requeues, id);
    if id !in s.rows then calls == 0
    else
      var r := s.rows[id];
      var open := if r.state == Working && !BeforeSubmit(s.proc, id) then 1 else 0;
      && r.attempt <= calls <= r.attempt + requeues + open
      && (r.state == Working && s.proc.Up? && s.proc.worker.Finalizing? ==> r.attempt + 1 <= calls)
  }

  ghost predicate HistoryOk(p: Params, s: Sys) {
    && (forall e | e in s.hist.sent :: e.0 in s.hist.issued && e.1 == Normal(s.hist.issued[e.0]))
    && (forall id | id in s.hist.accepted :: id in s.rows && s.rows[id].state in {Submitted, Succeeded, DeadLetter})
    && (forall id | id in s.hist.condemned :: id in s.hist.withdrawn)
    && (forall e | e in s.hist.polls ::
          e.passTime < e.firstSubmitted + p.worker.submittedTimeout && (p.acs ==> e.operationID == e.id))
  }

  ghost predicate RInv(p: Params, s: Sys) {
    && (forall id | id in s.rows :: RowOk(p, id, s.rows[id]))
    && WorkerOk(p, s)
    && WorkingOk(s.rows, s.proc)
    && TodoOk(s.rows, s.proc)
    && (forall id :: CountsOk(s, id))
    && HistoryOk(p, s)
  }

  /** A load either gives back the message of the record or finds it corrupt; corrupt only if the insert went wrong. */
  lemma LoadVerdict(p: Params, s: Sys, id: string)
    requires p.Valid() && Inv(p, s) && id in s.rows
    ensures id in s.hist.issued
    ensures LoadNode(p.codec, Find(s.disk.payloads, id)) in {Loaded(Normal(s.hist.issued[id])), Corrupt}
    ensures id !in s.hist.withdrawn ==>
              LoadNode(p.codec, Find(s.disk.payloads, id)) == Loaded(Normal(s.hist.issued[id]))
  {
    hide Inv, LoadNode, PayloadNode, Below, Plain, Normal;
    InvAt(p, s, id);
    CanonicalIsNoScratchName(id);
    var msg := s.hist.issued[id];
    if id in s.disk.payloads.ents {
      assert NodeOk(p.codec, s.hist.issued, id, s.disk.payloads.ents[id]);
      LoadBelow(p.codec, msg, s.disk.payloads.ents[id]);
      SaveThenLoad(p.codec, msg);
    } else {
      NothingThere(p.codec);
    }
  }

  lemma NothingThere(c: Codec)
    ensures LoadNode(c, None) == Corrupt
  {}

  lemma SubmitDecisionOk(p: Params, id: string, rec: Record, now: int, a: Answer)
    requires Canonical(id) && rec.state == Working && (p.acs ==> AcsAnswer(id, a))
    ensures DecisionOk(p, id, rec, SubmitDecision(p.worker, rec, now, a))
  {
    hide Trim, ErrorOf, FailureOf, SubmitRetryDelay, Canonical;
    CanonicalIsNoScratchName(id);
    assert Trim(Trim(id)) == id;
    assert rec.(providerMessageID := rec.providerMessageID) == rec;
  }

  lemma PollDecisionOk(p: Params, id: string, rec: Record, now: int, a: Answer)
    requires rec.state == Submitted
    ensures DecisionOk(p, id, rec, PollDecision(p.worker, rec, now, a))
    ensures DecisionOk(p, id, rec, TimeoutDecision(p.worker, rec, now))
  {
    hide Trim, ErrorOf, FailureOf;
    assert rec.(providerMessageID := rec.providerMessageID) == rec;
  }
}
