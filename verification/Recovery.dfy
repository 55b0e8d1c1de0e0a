/** What start-up recovery promises, in terms of the table and the payload tree before and after. */
module Recovery {
  import opened Options
  import opened Text
  import opened Disk
  import opened Payload
  import opened Rows
  import opened Machine
  import opened Trees

  predicate CorruptAt(c: Codec, payloads: Node, id: string) { LoadNode(c, Find(payloads, id)) == Corrupt }

  /** `r'` is `r` given up at `t` because its payload is corrupt; only a submitted row keeps its operation. */
  predicate GivenUp(r: Record, r': Record, cause: string, t: int) {
    var cleared := r.(operationID := "", operationLocation := "", providerMessageID := "", firstSubmitted := ZERO_TIME);
    var kept := if r.state == Submitted then r else cleared;
    r' == kept.(state := DeadLetter, lastError := Some(LastError(Trim(cause), "spool", false, Truncated(t))),
                updated := Truncated(t))
  }

  /** Given up at some time, for some cause. */
  predicate CondemnedAs(r: Record, r': Record) {
    r'.lastError.Some? && GivenUp(r, r', r'.lastError.value.message, r'.updated)
  }

  lemma CondemnedSomehow(r: Record, r': Record, cause: string, t: int)
    requires GivenUp(r, r', cause, t)
    ensures CondemnedAs(r, r')
  {
    hide Truncated;
    TruncatedTwice(t);
    assert Trim(Trim(cause)) == Trim(cause);
  }

  /** One row after a recovery for `now` whose transaction was made at `t`. */
  predicate RowRecovered(c: Codec, payloads: Node, id: string, r: Record, r': Record, now: int, t: int) {
    match r.state
    case Working =>
      if CorruptAt(c, payloads, id) then CondemnedAs(r.(nextAttempt := Truncated(now)), r')
      else r' == r.(state := Queued, nextAttempt := Truncated(now), updated := Truncated(t), operationID := "",
                    operationLocation := "", providerMessageID := "", firstSubmitted := ZERO_TIME)
    case Submitted => if CorruptAt(c, payloads, id) then CondemnedAs(r, r') else r' == r
    case _ => r' == r
  }

  ghost predicate TableRecovered(c: Codec, payloads: Node, was: Table, after: Table, now: int, t: int) {
    after.Keys == was.Keys && forall id | id in was :: RowRecovered(c, payloads, id, was[id], after[id], now, t)
  }

  /** One row after a recovery that may have been interrupted: as it was, requeued, or recovered. */
  predicate RowTouched(c: Codec, payloads: Node, id: string, r: Record, r': Record, now: int, t: int) {
    || r' == r
    || (r.state == Working && r' == RecoveredRecord(r, now, t))
    || RowRecovered(c, payloads, id, r, r', now, t)
  }

  ghost predicate TableTouched(c: Codec, payloads: Node, was: Table, after: Table, now: int, t: int) {
    after.Keys == was.Keys && forall id | id in was :: RowTouched(c, payloads, id, was[id], after[id], now, t)
  }

  /** Recovery leaves no working row, and nothing for a second recovery to do. */
  lemma RecoveringTwice(c: Codec, payloads: Node, payloads': Node, was: Table, after: Table, again: Table, now: int,
                        t: int, later: int, u: int)
    requires TableRecovered(c, payloads, was, after, now, t) && TableRecovered(c, payloads', after, again, later, u)
    requires forall id | id in was :: Find(payloads', id) == Find(payloads, id)
    ensures forall id | id in after :: after[id].state != Working
    ensures again == after
  {
    hide LoadNode, Find;
    forall id | id in after ensures after[id].state != Working && again[id] == after[id] {
      assert id in was.Keys;
      assert RowRecovered(c, payloads, id, was[id], after[id], now, t);
      assert RowRecovered(c, payloads', id, after[id], again[id], later, u);
    }
    assert again == after;
  }

  // ---- the lists of the recovery snapshot ----

  /** ORDER BY created_at_ms, id. */
  predicate CreatedBefore(rows: Table, a: string, b: string)
    requires a in rows && b in rows
  {
    rows[a].created < rows[b].created || (rows[a].created == rows[b].created && TextLess(a, b))
  }

  /** `ids` lists the rows of the state, oldest first. */
  ghost predicate Listed(rows: Table, state: State, ids: seq<string>) {
    && (forall id :: id in ids <==> id in rows && rows[id].state == state)
    && (forall i, j | 0 <= i < j < |ids| ::
          var a, b := rows[ids[i]].created, rows[ids[j]].created; a < b || (a == b && TextLess(ids[i], ids[j])))
  }

  lemma ListedAreDistinct(rows: Table, state: State, ids: seq<string>)
    requires Listed(rows, state, ids)
    ensures forall i, j | 0 <= i < j < |ids| :: ids[i] != ids[j]
  {
    forall i, j | 0 <= i < j < |ids| ensures ids[i] != ids[j] {
      assert CreatedBefore(rows, ids[i], ids[j]);
      TextOrder(ids[i], ids[i], ids[i]);
    }
  }

  method Oldest(rows: Table, among: set<string>) returns (id: string)
    requires among != {} && among <= rows.Keys
    ensures id in among && forall k | k in among && k != id :: CreatedBefore(rows, id, k)
  {
    id :| id in among;
    var todo := among - {id};
    while todo != {}
      invariant todo <= among && id in among && id !in todo
      invariant forall k | k in among && k !in todo && k != id :: CreatedBefore(rows, id, k)
      decreases todo
    {
      var x :| x in todo;
      todo := todo - {x};
      forall k | k in among { TextOrder(x, id, k); }
      if CreatedBefore(rows, x, id) { id := x; }
    }
  }

  method QueryByState(rows: Table, state: State) returns (ids: seq<string>)
    ensures Listed(rows, state, ids)
  {
    ids := [];
    var todo := set id | id in rows && rows[id].state == state;
    while todo != {}
      invariant todo <= rows.Keys && forall id | id in todo :: rows[id].state == state
      invariant forall id :: (id in ids || id in todo) <==> id in rows && rows[id].state == state
      invariant forall i, j | 0 <= i < j < |ids| :: CreatedBefore(rows, ids[i], ids[j])
      invariant forall i, k | 0 <= i < |ids| && k in todo :: CreatedBefore(rows, ids[i], k)
      decreases todo
    {
      var id := Oldest(rows, todo);
      ids := ids + [id];
      todo := todo - {id};
    }
  }

  /** The records of a list whose payload is corrupt, or is not. */
  function Sorted(c: Codec, payloads: Node, ids: seq<string>, corrupt: bool): seq<string> {
    if ids == [] then []
    else
      var n := |ids| - 1;
      Sorted(c, payloads, ids[..n], corrupt) + (if CorruptAt(c, payloads, ids[n]) == corrupt then [ids[n]] else [])
  }

  lemma SortedNext(c: Codec, payloads: Node, ids: seq<string>, i: nat, corrupt: bool)
    requires i < |ids|
    ensures Sorted(c, payloads, ids[..i + 1], corrupt) ==
            Sorted(c, payloads, ids[..i], corrupt)
            + (if CorruptAt(c, payloads, ids[i]) == corrupt then [ids[i]] else [])
  {
    assert ids[..i + 1][..i] == ids[..i];
  }

  /** One row after the recovery loops, given the row after the recovery transaction. */
  predicate Judged(c: Codec, payloads: Node, id: string, r: Record, r': Record) {
    if CorruptAt(c, payloads, id) then CondemnedAs(r, r') else r' == r
  }

  /** The transaction and the loops together. */
  lemma JudgedIsRecovered(c: Codec, payloads: Node, was: Table, mid: Table, after: Table, now: int, clock: int)
    requires mid == RecoveredTable(was, now, clock) && after.Keys == was.Keys
    requires forall id | id in was ::
               if was[id].state == Working || was[id].state == Submitted
               then Judged(c, payloads, id, mid[id], after[id]) else after[id] == mid[id]
    ensures TableRecovered(c, payloads, was, after, now, clock)
  {
    hide CorruptAt;
  }

  /** The loops, wherever they stopped. */
  lemma JudgedIsTouched(c: Codec, payloads: Node, was: Table, mid: Table, after: Table, now: int, clock: int)
    requires mid == was || mid == RecoveredTable(was, now, clock)
    requires after.Keys == was.Keys
    requires forall id | id in was ::
               || after[id] == mid[id]
               || (&& mid == RecoveredTable(was, now, clock) && (was[id].state == Working || was[id].state == Submitted)
                   && Judged(c, payloads, id, mid[id], after[id]))
    ensures TableTouched(c, payloads, was, after, now, clock)
  {
    hide CorruptAt;
  }

  // ---- orphans ----

  /** The directories of rows, and what was in quarantine before, are untouched. */
  ghost predicate Undisturbed(valid: set<string>, was: Disks, after: Disks) {
    && was.payloads.Dir? && was.orphans.Dir? && after.payloads.Dir? && after.orphans.Dir?
    && after.staging == was.staging
    && (forall k | k in valid :: Find(after.payloads, k) == Find(was.payloads, k))
    && (forall x | x in was.orphans.ents :: Find(after.orphans, x) == Find(was.orphans, x))
  }

  lemma ProgressUndisturbed(valid: set<string>, was: Disks, after: Disks, moved: map<Name, Name>, todo: set<Name>)
    requires ScanProgress(valid, was, after, moved, todo)
    ensures Undisturbed(valid, was, after)
  {}

  /**
   Every payload directory without a row has been moved to its own unused name in the quarantine directory, with
   all its names and bytes; the directories of rows, and what was in quarantine before, are untouched.
   */
  ghost predicate Quarantined(valid: set<string>, was: Disks, after: Disks, moved: map<Name, Name>) {
    && was.payloads.Dir? && was.orphans.Dir? && after.payloads.Dir? && after.orphans.Dir?
    && after.staging == was.staging
    && moved.Keys == was.payloads.ents.Keys - valid
    && (forall k :: k in after.payloads.ents <==> k in was.payloads.ents && k in valid)
    && (forall k | k in after.payloads.ents :: after.payloads.ents[k] == was.payloads.ents[k])
    && MovedIntact(was, after, moved)
  }

  /** The directory `k` is now, complete, under the name `t` that was not in use. */
  ghost predicate Landed(was: Disks, after: Disks, k: Name, t: Name)
    requires was.payloads.Dir? && was.orphans.Dir? && after.orphans.Dir? && k in was.payloads.ents
  {
    && t !in was.orphans.ents && t in after.orphans.ents
    && Bare(after.orphans.ents[t]) == Bare(was.payloads.ents[k])
    && exists i :: t == Numbered(k, i)
  }

  ghost predicate MovedIntact(was: Disks, after: Disks, moved: map<Name, Name>)
    requires was.payloads.Dir? && was.orphans.Dir? && after.orphans.Dir? && moved.Keys <= was.payloads.ents.Keys
  {
    && (forall k, m | k in moved && m in moved && k != m :: moved[k] != moved[m])
    && (forall k | k in moved :: Landed(was, after, k, moved[k]))
    && (forall x | x in was.orphans.ents :: x in after.orphans.ents && after.orphans.ents[x] == was.orphans.ents[x])
    && (forall x | x in after.orphans.ents :: x in was.orphans.ents || exists k | k in moved :: moved[k] == x)
  }

  /** The scan after some entries: those in `todo` are still to come. */
  ghost predicate ScanProgress(valid: set<string>, was: Disks, after: Disks, moved: map<Name, Name>, todo: set<Name>) {
    && was.payloads.Dir? && was.orphans.Dir? && after.payloads.Dir? && after.orphans.Dir?
    && after.staging == was.staging
    && todo <= was.payloads.ents.Keys && moved.Keys == was.payloads.ents.Keys - valid - todo
    && (forall k :: k in after.payloads.ents <==> k in was.payloads.ents && (k in valid || k in todo))
    && (forall k | k in after.payloads.ents :: after.payloads.ents[k] == was.payloads.ents[k])
    && MovedIntact(was, after, moved)
  }

  lemma ScanStarts(valid: set<string>, was: Disks)
    requires was.payloads.Dir? && was.orphans.Dir?
    ensures ScanProgress(valid, was, was, map[], was.payloads.ents.Keys)
  {
    hide Bare, Numbered;
  }

  lemma ScanSkips(valid: set<string>, was: Disks, after: Disks, moved: map<Name, Name>, todo: set<Name>, name: Name)
    requires ScanProgress(valid, was, after, moved, todo) && name in todo && name in valid
    ensures ScanProgress(valid, was, after, moved, todo - {name})
  {
    hide MovedIntact;
    assert was.payloads.ents.Keys - valid - todo == was.payloads.ents.Keys - valid - (todo - {name});
  }

  lemma ScanEnds(valid: set<string>, was: Disks, after: Disks, moved: map<Name, Name>)
    requires ScanProgress(valid, was, after, moved, {})
    ensures Quarantined(valid, was, after, moved)
  {
    hide MovedIntact;
  }

  lemma ScanMoves(valid: set<string>, was: Disks, mid: Disks, after: Disks, moved: map<Name, Name>, todo: set<Name>,
                  name: Name, i: nat, n: Node)
    requires ScanProgress(valid, was, mid, moved, todo) && name in todo && name !in valid
    requires after.payloads.Dir? && after.orphans.Dir? && after.staging == mid.staging
    requires after.payloads.ents == mid.payloads.ents - {name}
    requires Numbered(name, i) !in mid.orphans.ents && after.orphans.ents == mid.orphans.ents[Numbered(name, i) := n]
    requires Bare(n) == Bare(was.payloads.ents[name])
    ensures ScanProgress(valid, was, after, moved[name := Numbered(name, i)], todo - {name})
  {
    hide Bare, Numbered, MovedIntact;
    var m := moved[name := Numbered(name, i)];
    assert m.Keys == was.payloads.ents.Keys - valid - (todo - {name});
    MovedOneMore(was, mid, after, moved, name, i, n);
  }

  lemma MovedOneMore(was: Disks, mid: Disks, after: Disks, moved: map<Name, Name>, name: Name, i: nat, n: Node)
    requires was.payloads.Dir? && was.orphans.Dir? && mid.orphans.Dir? && after.orphans.Dir?
    requires moved.Keys <= was.payloads.ents.Keys
    requires MovedIntact(was, mid, moved) && name in was.payloads.ents && name !in moved
    requires Numbered(name, i) !in mid.orphans.ents && after.orphans.ents == mid.orphans.ents[Numbered(name, i) := n]
    requires Bare(n) == Bare(was.payloads.ents[name])
    ensures MovedIntact(was, after, moved[name := Numbered(name, i)])
  {
    hide Bare, Numbered;
    var m := moved[name := Numbered(name, i)];
    assert name in m && m[name] == Numbered(name, i);
    forall k | k in m ensures Landed(was, after, k, m[k]) {
      if k != name { assert Landed(was, mid, k, moved[k]); }
    }
    forall x | x in after.orphans.ents ensures x in was.orphans.ents || exists k | k in m :: m[k] == x {
      if x != Numbered(name, i) && x !in was.orphans.ents {
        var k :| k in moved && moved[k] == x;
        assert m[k] == x;
      }
    }
  }

  /** Without orphans the scan moves nothing. */
  lemma NothingToQuarantine(valid: set<string>, was: Disks, after: Disks, moved: map<Name, Name>)
    requires Quarantined(valid, was, after, moved) && forall k | k in was.payloads.ents :: k in valid
    ensures moved == map[] && after.payloads.ents == was.payloads.ents && after.orphans.ents == was.orphans.ents
  {
    hide Bare, Numbered;
    assert moved.Keys == {};
    assert after.payloads.ents == was.payloads.ents;
    assert after.orphans.ents == was.orphans.ents;
  }

  /** A second scan finds nothing to move. */
  lemma NothingLeftToQuarantine(valid: set<string>, was: Disks, after: Disks, moved: map<Name, Name>, again: Disks,
                                moved': map<Name, Name>)
    requires Quarantined(valid, was, after, moved) && Quarantined(valid, after, again, moved')
    ensures moved' == map[] && again.payloads.ents == after.payloads.ents && again.orphans.ents == after.orphans.ents
  {
    hide MovedIntact;
    NothingToQuarantine(valid, after, again, moved');
  }
}
