/** Spool records: the state changes the store makes, and the form records take in the SQLite table. */
module Rows {
  import opened Options
  import opened Text
  import opened Ids

  datatype State = Queued | Working | Submitted | Succeeded | DeadLetter

  /** Instants are nanoseconds since 1970; Go's zero `time.Time` is the first instant of year 1. */
  const ZERO_TIME: int := -62_135_596_800_000_000_000
  const MILLISECOND: int := 1_000_000

  datatype LastError = LastError(message: string, provider: string, temporary: bool, at: int)

  datatype Record = Record(
    state: State, attempt: int, nextAttempt: int,
    operationID: string, operationLocation: string, providerMessageID: string, firstSubmitted: int,
    lastError: Option<LastError>, created: int, updated: int)

  // ---- time ----

  function TimeToMillis(t: int): int { if t == ZERO_TIME then 0 else t / MILLISECOND }

  function MillisToTime(ms: int): int { ms * MILLISECOND }

  /** An instant as it reads back after a trip through the table. */
  function Truncated(t: int): (r: int)
    ensures r <= t < r + MILLISECOND
    ensures t >= MILLISECOND ==> r >= MILLISECOND
  {
    t / MILLISECOND * MILLISECOND
  }

  lemma TruncatedTwice(t: int)
    ensures Truncated(Truncated(t)) == Truncated(t)
  {}

  lemma TruncatedMonotone(s: int, t: int)
    requires s <= t
    ensures Truncated(s) <= Truncated(t)
  {}

  // ---- the record as the table keeps it ----

  function ErrorAtRest(e: LastError): LastError {
    LastError(Trim(e.message), Trim(e.provider), e.temporary, Truncated(e.at))
  }

  /** Text trimmed, instants cut to milliseconds. */
  function AtRest(r: Record): Record {
    r.(nextAttempt := Truncated(r.nextAttempt),
       operationID := Trim(r.operationID), operationLocation := Trim(r.operationLocation),
       providerMessageID := Trim(r.providerMessageID),
       firstSubmitted := if r.firstSubmitted == ZERO_TIME then ZERO_TIME else Truncated(r.firstSubmitted),
       lastError := if r.lastError.None? then None else Some(ErrorAtRest(r.lastError.value)),
       created := Truncated(r.created), updated := Truncated(r.updated))
  }

  lemma AtRestTwice(r: Record)
    ensures AtRest(AtRest(r)) == AtRest(r)
  {
    var s := AtRest(r);
    TruncatedTwice(r.nextAttempt);
    TruncatedTwice(r.created);
    TruncatedTwice(r.updated);
    TruncatedTwice(r.firstSubmitted);
    assert Trim(s.operationID) == s.operationID && Trim(s.operationLocation) == s.operationLocation;
    assert Trim(s.providerMessageID) == s.providerMessageID;
    if r.lastError.Some? {
      TruncatedTwice(r.lastError.value.at);
      var e := s.lastError.value;
      assert Trim(e.message) == e.message && Trim(e.provider) == e.provider;
    }
    if Truncated(r.firstSubmitted) == ZERO_TIME { assert Truncated(ZERO_TIME) == ZERO_TIME; }
  }

  lemma AtRestParts(r: Record)
    requires AtRest(r) == r
    ensures Truncated(r.nextAttempt) == r.nextAttempt && Truncated(r.created) == r.created
    ensures Truncated(r.updated) == r.updated
    ensures Trim(r.operationID) == r.operationID && Trim(r.operationLocation) == r.operationLocation
    ensures Trim(r.providerMessageID) == r.providerMessageID
    ensures r.firstSubmitted == ZERO_TIME || Truncated(r.firstSubmitted) == r.firstSubmitted
    ensures r.lastError.Some? ==> ErrorAtRest(r.lastError.value) == r.lastError.value
  {
    hide Trim, Truncated, ErrorAtRest;
    var q := AtRest(r);
    assert q.nextAttempt == Truncated(r.nextAttempt) && q.created == Truncated(r.created);
    assert q.updated == Truncated(r.updated);
    assert q.operationID == Trim(r.operationID) && q.operationLocation == Trim(r.operationLocation);
    assert q.providerMessageID == Trim(r.providerMessageID);
    assert q.lastError == r.lastError;
  }

  datatype Columns = Columns(
    id: Option<string>, state: string, attempt: int, nextAttemptMS: int,
    operationID: Option<string>, operationLocation: Option<string>, providerMessageID: Option<string>,
    firstSubmittedMS: Option<int>,
    errMessage: Option<string>, errProvider: Option<string>, errTemporary: Option<int>, errTimestampMS: Option<int>,
    createdMS: int, updatedMS: int)

  function StateText(s: State): string {
    match s
    case Queued => "queued"
    case Working => "working"
    case Submitted => "submitted"
    case Succeeded => "succeeded"
    case DeadLetter => "dead-letter"
  }

  function ParseState(s: string): Option<State> {
    if s == "queued" then Some(Queued)
    else if s == "working" then Some(Working)
    else if s == "submitted" then Some(Submitted)
    else if s == "succeeded" then Some(Succeeded)
    else if s == "dead-letter" then Some(DeadLetter)
    else None
  }

  lemma StateTextReadsBack(s: State)
    ensures ParseState(StateText(s)) == Some(s)
  {
    assert "queued"[0] == 'q' && "working"[0] == 'w' && "submitted"[1] == 'u' && "succeeded"[2] == 'c';
    assert "dead-letter"[0] == 'd';
    assert "submitted"[2] == 'b' && "submitted"[0] == 's' && "succeeded"[0] == 's';
  }

  function NullIfEmpty(s: string): Option<string> { if Trim(s) == "" then None else Some(Trim(s)) }

  function NullIfZeroTime(t: int): Option<int> { if t == ZERO_TIME then None else Some(t / MILLISECOND) }

  function Encode(id: string, r: Record): Columns {
    var e := r.lastError;
    Columns(
      Some(id), StateText(r.state), r.attempt, TimeToMillis(r.nextAttempt),
      NullIfEmpty(r.operationID), NullIfEmpty(r.operationLocation), NullIfEmpty(r.providerMessageID),
      NullIfZeroTime(r.firstSubmitted),
      if e.None? then None else NullIfEmpty(e.value.message),
      if e.None? then None else NullIfEmpty(e.value.provider),
      if e.None? then None else Some(if e.value.temporary then 1 else 0),
      if e.None? then None else NullIfZeroTime(e.value.at),
      TimeToMillis(r.created), TimeToMillis(r.updated))
  }

  /** SQLite's `trim` strips blanks only. */
  predicate NoOuterBlanks(s: string) { s == [] || (s[0] != ' ' && s[|s| - 1] != ' ') }

  /** The CHECK and NOT NULL constraints of the records table. */
  predicate MeetsConstraints(c: Columns) {
    && c.id.Some? && |c.id.value| > 0 && NoOuterBlanks(c.id.value)
    && ParseState(c.state).Some?
    && c.attempt >= 0
    && c.nextAttemptMS > 0
    && (c.firstSubmittedMS.None? || c.firstSubmittedMS.value > 0)
    && (c.errTemporary.None? || c.errTemporary.value == 0 || c.errTemporary.value == 1)
    && (c.errTimestampMS.None? || c.errTimestampMS.value > 0)
    && c.createdMS > 0
    && c.updatedMS > 0 && c.updatedMS >= c.createdMS
    && (|| (c.errMessage.None? && c.errProvider.None? && c.errTemporary.None? && c.errTimestampMS.None?)
        || c.errTimestampMS.Some?)
  }

  function TextOf(s: Option<string>): string { if s.None? then "" else Trim(s.value) }

  ghost function ScanError(c: Columns): Option<Option<LastError>> {
    if c.errMessage.None? && c.errProvider.None? && c.errTemporary.None? && c.errTimestampMS.None? then Some(None)
    else if c.errTemporary.Some? && c.errTemporary.value != 0 && c.errTemporary.value != 1 then None
    else if c.errTimestampMS.None? || c.errTimestampMS.value <= 0 then None
    else Some(Some(LastError(
      TextOf(c.errMessage), TextOf(c.errProvider), c.errTemporary.Some? && c.errTemporary.value != 0,
      MillisToTime(c.errTimestampMS.value))))
  }

  /** `scanMetadata`: a row, or a validation error. */
  ghost function Scan(c: Columns): Option<(string, Record)> {
    if c.id.None? || !Canonical(c.id.value) then None
    else if ParseState(c.state).None? || c.attempt < 0 then None
    else if c.nextAttemptMS <= 0 || c.createdMS <= 0 || c.updatedMS <= 0 then None
    else if c.firstSubmittedMS.Some? && c.firstSubmittedMS.value <= 0 then None
    else if MillisToTime(c.updatedMS) < MillisToTime(c.createdMS) then None
    else
      match ScanError(c)
      case None => None
      case Some(e) => Some((c.id.value, Record(
        ParseState(c.state).value, c.attempt, MillisToTime(c.nextAttemptMS),
        TextOf(c.operationID), TextOf(c.operationLocation), TextOf(c.providerMessageID),
        if c.firstSubmittedMS.None? then ZERO_TIME else MillisToTime(c.firstSubmittedMS.value),
        e, MillisToTime(c.createdMS), MillisToTime(c.updatedMS))))
  }

  /** What a record must satisfy to be written at all. */
  predicate Storable(r: Record) {
    && r.attempt >= 0
    && r.nextAttempt >= MILLISECOND && r.created >= MILLISECOND
    && (r.firstSubmitted == ZERO_TIME || r.firstSubmitted >= MILLISECOND)
    && (r.lastError.None? || r.lastError.value.at >= MILLISECOND)
    && Truncated(r.created) <= Truncated(r.updated)
  }

  lemma MillisOf(t: int)
    ensures TimeToMillis(t) > 0 <==> t >= MILLISECOND
    ensures t != ZERO_TIME ==> MillisToTime(TimeToMillis(t)) == Truncated(t)
  {}

  lemma EncodeMeetsConstraintsIff(id: string, r: Record)
    requires Canonical(id)
    ensures MeetsConstraints(Encode(id, r)) <==> Storable(r)
  {
    hide Trim, StateText, ParseState;
    CanonicalIsNoScratchName(id);
    assert Allowed(0, id[0]) && Allowed(35, id[35]);
    StateTextReadsBack(r.state);
    MillisOf(r.nextAttempt);
    MillisOf(r.created);
    MillisOf(r.updated);
  }

  lemma ErrorReadsBack(id: string, r: Record)
    requires r.lastError.Some? ==> r.lastError.value.at >= MILLISECOND
    ensures ScanError(Encode(id, r)) == Some(if r.lastError.None? then None else Some(ErrorAtRest(r.lastError.value)))
  {
    hide StateText;
    if r.lastError.Some? {
      var e := r.lastError.value;
      TextReadsBack(e.message);
      TextReadsBack(e.provider);
      MillisOf(e.at);
    }
  }

  lemma TextReadsBack(s: string)
    ensures TextOf(NullIfEmpty(s)) == Trim(s)
  {
    assert Trim(Trim(s)) == Trim(s);
  }

  /**
   A write is accepted by the table exactly when it is accepted by the next read, both exactly for storable
   records; and what is read is what was written, at millisecond precision, with trimmed text.
   */
  lemma RowRoundTrip(id: string, r: Record)
    requires Canonical(id)
    ensures MeetsConstraints(Encode(id, r)) <==> Storable(r)
    ensures Storable(r) ==> Scan(Encode(id, r)) == Some((id, AtRest(r)))
    ensures !Storable(r) ==> Scan(Encode(id, r)).None?
  {
    EncodeMeetsConstraintsIff(id, r);
    hide Trim, StateText, ParseState, MeetsConstraints, ErrorAtRest, NullIfEmpty, TextOf;
    StateTextReadsBack(r.state);
    MillisOf(r.nextAttempt);
    MillisOf(r.created);
    MillisOf(r.updated);
    TextReadsBack(r.operationID);
    TextReadsBack(r.operationLocation);
    TextReadsBack(r.providerMessageID);
    if r.lastError.None? || r.lastError.value.at >= MILLISECOND {
      ErrorReadsBack(id, r);
    }
  }

  /** Empty text and the zero time are NULL in the table, and so are all columns of an error that is not there. */
  lemma NullsAre(id: string, r: Record)
    ensures var c := Encode(id, r);
            var op, location, provider := Trim(r.operationID), Trim(r.operationLocation), Trim(r.providerMessageID);
            && c.operationID == (if op == "" then None else Some(op))
            && c.operationLocation == (if location == "" then None else Some(location))
            && c.providerMessageID == (if provider == "" then None else Some(provider))
            && (c.firstSubmittedMS.None? <==> r.firstSubmitted == ZERO_TIME)
            && (r.lastError.None? ==>
                  c.errMessage.None? && c.errProvider.None? && c.errTemporary.None? && c.errTimestampMS.None?)
            && (r.lastError.Some? ==>
                  && (c.errMessage.None? <==> Trim(r.lastError.value.message) == "")
                  && (c.errProvider.None? <==> Trim(r.lastError.value.provider) == "")
                  && c.errTemporary == Some(if r.lastError.value.temporary then 1 else 0)
                  && (c.errTimestampMS.None? <==> r.lastError.value.at == ZERO_TIME))
  {
    hide Trim, StateText;
  }

  /** Go's zero time lies 719,162 days before 1970. */
  lemma ZeroTimeIsYearOne()
    ensures ZERO_TIME == -719_162 * 24 * 3600 * 1000 * MILLISECOND
  {}

  // ---- what the store writes ----

  /** `normalizeLastError`. */
  function NormalizeLastError(e: Option<LastError>, fallback: int): Option<LastError> {
    if e.None? then None
    else Some(LastError(Trim(e.value.message), Trim(e.value.provider), e.value.temporary,
                        if e.value.at == ZERO_TIME && fallback != ZERO_TIME then fallback else e.value.at))
  }

  function WithoutOperation(r: Record): Record {
    r.(operationID := "", operationLocation := "", providerMessageID := "", firstSubmitted := ZERO_TIME)
  }

  /** A record as `Enqueue` inserts it. */
  function NewRecord(now: int): Record {
    AtRest(Record(Queued, 0, now, "", "", "", ZERO_TIME, None, now, now))
  }

  lemma NewRecordIs(now: int)
    ensures NewRecord(now) ==
              Record(Queued, 0, Truncated(now), "", "", "", ZERO_TIME, None, Truncated(now), Truncated(now))
  {
    hide Truncated;
    assert Trim("") == "";
  }

  function ClaimedRecord(r: Record, clock: int): Record {
    r.(state := Working, updated := Truncated(clock))
  }

  function RequeuedRecord(r: Record, clock: int): Record {
    AtRest(r.(state := Queued, updated := clock))
  }

  /** A working record as start-up recovery puts it back. */
  function RecoveredRecord(r: Record, now: int, clock: int): Record {
    WithoutOperation(r).(state := Queued, nextAttempt := Truncated(now), updated := Truncated(clock))
  }

  const SPOOL_PROVIDER := "spool"

  function CorruptRecord(r: Record, cause: string, clock: int): Record {
    var dead := r.(state := DeadLetter, lastError := Some(LastError(cause, SPOOL_PROVIDER, false, clock)),
                   updated := clock);
    AtRest(if r.state == Submitted then dead else WithoutOperation(dead))
  }

  /** A decision about a record, to be written with `Finalize`. */
  datatype Mark =
    | MarkSubmitted(operationID: string, operationLocation: string, providerMessageID: string, nextAttempt: int)
    | MarkRetry(nextAttempt: int, lastError: Option<LastError>)
    | MarkSucceeded
    | MarkDeadLetter(lastError: Option<LastError>)

  /** The record a `mark*` method writes, or an error if the record is in the wrong state. */
  function Marked(r: Record, mark: Mark, clock: int): Option<Record> {
    match mark
    case MarkSubmitted(op, location, provider, next) =>
      if r.state != Working then None
      else Some(AtRest(r.(
        state := Submitted, attempt := r.attempt + 1, operationID := Trim(op), operationLocation := Trim(location),
        providerMessageID := Trim(provider), nextAttempt := next, lastError := None, updated := clock,
        firstSubmitted := if r.firstSubmitted == ZERO_TIME then clock else r.firstSubmitted)))
    case MarkRetry(next, e) =>
      var u := r.(nextAttempt := next, lastError := NormalizeLastError(e, clock), updated := clock);
      if r.state == Working then Some(AtRest(WithoutOperation(u).(state := Queued, attempt := r.attempt + 1)))
      else if r.state == Submitted then Some(AtRest(u))
      else None
    case MarkSucceeded =>
      var u := r.(state := Succeeded, lastError := None, updated := clock);
      if r.state == Working then Some(AtRest(u.(attempt := r.attempt + 1)))
      else if r.state == Submitted then Some(AtRest(u))
      else None
    case MarkDeadLetter(e) =>
      var u := r.(state := DeadLetter, lastError := NormalizeLastError(e, clock), updated := clock);
      if r.state == Working then Some(AtRest(WithoutOperation(u).(attempt := r.attempt + 1)))
      else if r.state == Submitted then Some(AtRest(u))
      else None
  }

  /** A mark fits working rows, and submitted rows unless it says they were just submitted. */
  lemma MarkedIff(r: Record, m: Mark, clock: int)
    ensures Marked(r, m, clock).Some? <==> r.state == Working || (r.state == Submitted && !m.MarkSubmitted?)
  {
    hide AtRest, NormalizeLastError;
  }

  // ---- the order of the ready queries ----

  predicate TextLess(a: string, b: string) {
    if b == [] then false
    else if a == [] then true
    else a[0] < b[0] || (a[0] == b[0] && TextLess(a[1..], b[1..]))
  }

  /** The first place where two texts differ. */
  predicate DifferAt(a: string, b: string, i: nat) {
    && i <= |a| && i <= |b| && a[..i] == b[..i]
    && (i < |a| && i < |b| ==> a[i] != b[i])
    && (i < |a| || i < |b|)
  }

  /** It decides their order: the smaller character comes first, and so does the end of the text. */
  lemma {:induction false} TextLessAt(a: string, b: string, i: nat)
    requires DifferAt(a, b, i)
    ensures TextLess(a, b) <==> i < |b| && (i == |a| || a[i] < b[i])
  {
    if i > 0 {
      assert a[0] == a[..i][0] && b[0] == b[..i][0];
      assert a[1..][..i - 1] == a[..i][1..] && b[1..][..i - 1] == b[..i][1..];
      TextLessAt(a[1..], b[1..], i - 1);
    }
  }

  lemma {:induction false} TextOrder(a: string, b: string, c: string)
    ensures a != b ==> TextLess(a, b) || TextLess(b, a)
    ensures !(TextLess(a, b) && TextLess(b, a)) && !TextLess(a, a)
    ensures TextLess(a, b) && TextLess(b, c) ==> TextLess(a, c)
    decreases |a| + |b| + |c|
  {
    if a != [] && b != [] {
      assert a == [a[0]] + a[1..] && b == [b[0]] + b[1..];
      if c != [] { TextOrder(a[1..], b[1..], c[1..]); } else { TextOrder(a[1..], b[1..], c); }
    } else if a != [] {
      TextOrder(a[1..], b, c);
    }
  }

  /** ORDER BY next_attempt_at_ms, created_at_ms, id. */
  predicate Before(idA: string, a: Record, idB: string, b: Record) {
    || a.nextAttempt < b.nextAttempt
    || (a.nextAttempt == b.nextAttempt && (a.created < b.created || (a.created == b.created && TextLess(idA, idB))))
  }

  lemma BeforeIsTotalOrder(idA: string, a: Record, idB: string, b: Record, idC: string, c: Record)
    ensures idA != idB ==> Before(idA, a, idB, b) || Before(idB, b, idA, a)
    ensures !(Before(idA, a, idB, b) && Before(idB, b, idA, a)) && !Before(idA, a, idA, a)
    ensures Before(idA, a, idB, b) && Before(idB, b, idC, c) ==> Before(idA, a, idC, c)
  {
    TextOrder(idA, idB, idC);
  }

  type Table = map<string, Record>

  predicate Due(r: Record, state: State, now: int) {
    r.state == state && r.nextAttempt <= Truncated(now)
  }

  /** `id` is what the ready query returns: the first due row of the state. */
  ghost predicate FirstDue(rows: Table, state: State, now: int, id: string) {
    && id in rows && Due(rows[id], state, now)
    && forall k | k in rows && k != id && Due(rows[k], state, now) :: Before(id, rows[id], k, rows[k])
  }

  ghost predicate NoneDue(rows: Table, state: State, now: int) {
    forall k | k in rows :: !Due(rows[k], state, now)
  }

  /** The ready query as a scan over the table. */
  method QueryFirstDue(rows: Table, state: State, now: int) returns (found: Option<string>)
    ensures found.None? <==> NoneDue(rows, state, now)
    ensures found.Some? ==> FirstDue(rows, state, now, found.value)
  {
    found := None;
    var todo := rows.Keys;
    while todo != {}
      invariant todo <= rows.Keys
      invariant found.None? ==> forall k | k in rows && k !in todo :: !Due(rows[k], state, now)
      invariant found.Some? ==>
                  && found.value in rows && found.value !in todo && Due(rows[found.value], state, now)
                  && forall k | k in rows && k !in todo && k != found.value && Due(rows[k], state, now) ::
                       Before(found.value, rows[found.value], k, rows[k])
      decreases todo
    {
      var id :| id in todo;
      todo := todo - {id};
      if Due(rows[id], state, now) {
        if found.None? {
          found := Some(id);
        } else {
          var best := found.value;
          forall k | k in rows { BeforeIsTotalOrder(id, rows[id], best, rows[best], k, rows[k]); }
          if Before(id, rows[id], best, rows[best]) { found := Some(id); }
        }
      }
    }
  }
}
