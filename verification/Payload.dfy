/** The payload of a record: what `Save` writes and what `Load` makes of it. */
module Payload {
  import opened Options
  import opened Text
  import opened Ids
  import opened Disk

  datatype Attachment = Attachment(filename: string, contentType: string, data: seq<byte>)

  datatype Message = Message(
    envelopeFrom: string, headerFrom: string, replyTo: seq<string>, to: seq<string>,
    subject: string, textBody: string, htmlBody: string, attachments: seq<Attachment>)

  const EMPTY_MESSAGE := Message("", "", [], [], "", "", "", [])

  datatype AttachmentRef = AttachmentRef(filename: string, contentType: string, path: string, size: int, sha256: string)

  datatype Manifest = Manifest(
    envelopeFrom: string, headerFrom: string, replyTo: seq<string>, to: seq<string>,
    subject: string, textBody: string, htmlBody: string, attachments: seq<AttachmentRef>)

  /** JSON and SHA-256, as far as the spool depends on them. */
  datatype Codec = Codec(
    marshal: Manifest -> seq<byte>,
    unmarshal: seq<byte> -> Option<Manifest>,
    sha256: seq<byte> -> seq<byte>)
  {
    ghost predicate Faithful() {
      && (forall m: Manifest :: unmarshal(marshal(m)) == Some(m))
      && (forall data: seq<byte> :: |sha256(data)| == 32)
    }
  }

  const MESSAGE_FILE := "message.json"
  const ATTACHMENTS_DIR := "attachments"

  function AttachmentFile(i: nat): Name { Decimal(i) + ".bin" }

  lemma AttachmentFileInjective(i: nat, j: nat)
    requires AttachmentFile(i) == AttachmentFile(j)
    ensures i == j
  {
    assert AttachmentFile(i)[..|AttachmentFile(i)| - 4] == Decimal(i);
    assert AttachmentFile(j)[..|AttachmentFile(j)| - 4] == Decimal(j);
    DecimalInjective(i, j);
  }

  function AttachmentPath(i: nat): (p: string)
    ensures Tight(p)
  {
    ATTACHMENTS_DIR + "/" + AttachmentFile(i)
  }

  // ---- Save ----

  function RefOf(c: Codec, a: Attachment, i: nat): AttachmentRef {
    AttachmentRef(a.filename, a.contentType, AttachmentPath(i), |a.data|, HexText(c.sha256(a.data)))
  }

  function ManifestOf(c: Codec, msg: Message): Manifest {
    Manifest(Trim(msg.envelopeFrom), Trim(msg.headerFrom), msg.replyTo, msg.to, msg.subject, msg.textBody, msg.htmlBody,
             seq(|msg.attachments|, i requires 0 <= i < |msg.attachments| => RefOf(c, msg.attachments[i], i)))
  }

  /** What `Load` gives back for a saved message. */
  function Normal(msg: Message): Message {
    msg.(envelopeFrom := Trim(msg.envelopeFrom), headerFrom := Trim(msg.headerFrom))
  }

  function AttachmentNodes(atts: seq<Attachment>): map<Name, Node> {
    if atts == [] then map[]
    else
      var n := |atts| - 1;
      AttachmentNodes(atts[..n])[AttachmentFile(n) := File(atts[n].data, true)]
  }

  lemma {:induction false} AttachmentNodeAt(atts: seq<Attachment>, i: nat)
    requires i < |atts|
    ensures AttachmentFile(i) in AttachmentNodes(atts)
    ensures AttachmentNodes(atts)[AttachmentFile(i)] == File(atts[i].data, true)
  {
    var n := |atts| - 1;
    if i < n {
      AttachmentNodeAt(atts[..n], i);
      if AttachmentFile(i) == AttachmentFile(n) { AttachmentFileInjective(i, n); }
    }
  }

  lemma {:induction false} AttachmentNodeNames(atts: seq<Attachment>, k: Name) returns (i: nat)
    requires k in AttachmentNodes(atts)
    ensures i < |atts| && k == AttachmentFile(i)
  {
    var n := |atts| - 1;
    if k == AttachmentFile(n) { i := n; } else { i := AttachmentNodeNames(atts[..n], k); }
  }

  /** The complete payload directory of a message, every byte and entry on disk. */
  function PayloadNode(c: Codec, msg: Message): (n: Node)
    ensures n.Dir?
  {
    var manifest := map[MESSAGE_FILE := File(c.marshal(ManifestOf(c, msg)), true)];
    if msg.attachments == [] then Dir(manifest, map[])
    else Dir(manifest[ATTACHMENTS_DIR := Dir(AttachmentNodes(msg.attachments), map[])], map[])
  }

  const TMP_PREFIX := ".tmp-"

  predicate TmpNames(tmps: seq<Name>) {
    forall i | 0 <= i < |tmps| :: HasPrefix(tmps[i], TMP_PREFIX)
  }

  function AttachmentItems(atts: seq<Attachment>, tmps: seq<Name>): (items: seq<Item>)
    requires |tmps| == |atts| + 1
  {
    seq(|atts|, i requires 0 <= i < |atts| => Item(AttachmentFile(i), tmps[i], Blob(atts[i].data)))
  }

  /** The tree `Save` writes, in its order: attachments first, the manifest last. */
  function StageItems(c: Codec, msg: Message, tmps: seq<Name>): seq<Item>
    requires |tmps| == |msg.attachments| + 1
  {
    (if msg.attachments == [] then []
     else [Item(ATTACHMENTS_DIR, TMP_PREFIX, Folder(AttachmentItems(msg.attachments, tmps)))])
    + [Item(MESSAGE_FILE, tmps[|msg.attachments|], Blob(c.marshal(ManifestOf(c, msg))))]
  }

  /** Every call `Save` makes in its staging directory, from after its creation up to its publication. */
  function StagePlan(c: Codec, msg: Message, tmps: seq<Name>): seq<Op>
    requires |tmps| == |msg.attachments| + 1
  {
    [Op([], Fsync)] + WriteAll(StageItems(c, msg, tmps)) + [Op([], Fsync)]
  }

  /** Every call `publishViaPayloadTemp` makes in its temporary directory; `items` is the order of the listing. */
  function CopyPlan(items: seq<Item>): seq<Op> {
    [Op([], Fsync)] + WriteAll(items)
  }

  lemma TmpIsNoFinalName(tmp: Name, i: nat)
    requires HasPrefix(tmp, TMP_PREFIX)
    ensures tmp != MESSAGE_FILE && tmp != ATTACHMENTS_DIR && tmp != AttachmentFile(i)
  {
    assert tmp[..5][0] == '.' && tmp[0] == '.';
    assert IsDigit(AttachmentFile(i)[0]);
  }

  lemma StageItemsWellNamed(c: Codec, msg: Message, tmps: seq<Name>)
    requires |tmps| == |msg.attachments| + 1 && TmpNames(tmps)
    ensures WellNamed(StageItems(c, msg, tmps)) && WellNamed(AttachmentItems(msg.attachments, tmps))
  {
    var atts := AttachmentItems(msg.attachments, tmps);
    forall i, j | 0 <= i < j < |atts| ensures atts[i].name != atts[j].name {
      if AttachmentFile(i) == AttachmentFile(j) { AttachmentFileInjective(i, j); }
    }
    forall i, j | 0 <= i < |atts| && 0 <= j < |atts| ensures atts[i].tmp != atts[j].name {
      TmpIsNoFinalName(tmps[i], j);
    }
    TmpIsNoFinalName(tmps[|msg.attachments|], 0);
    TmpIsNoFinalName(TMP_PREFIX, 0);
  }

  lemma {:induction false} EntriesAt(items: seq<Item>)
    requires WellNamed(items)
    ensures forall i | 0 <= i < |items| ::
              items[i].name in EntriesOf(items) && EntriesOf(items)[items[i].name] == NodeOf(items[i].tree)
  {
    if items != [] {
      TailWellNamed(items);
      EntriesAt(items[1..]);
      HeadNotInTail(items);
      forall i | 0 <= i < |items|
        ensures items[i].name in EntriesOf(items) && EntriesOf(items)[items[i].name] == NodeOf(items[i].tree)
      {
        if i > 0 { assert items[1..][i - 1] == items[i]; }
      }
    }
  }

  lemma {:induction false} AttachmentItemsNode(atts: seq<Attachment>, tmps: seq<Name>)
    requires |tmps| == |atts| + 1 && WellNamed(AttachmentItems(atts, tmps))
    ensures EntriesOf(AttachmentItems(atts, tmps)) == AttachmentNodes(atts)
  {
    var items := AttachmentItems(atts, tmps);
    EntriesAt(items);
    EntriesNames(items);
    var a, b := EntriesOf(items), AttachmentNodes(atts);
    forall k | k in a ensures k in b && a[k] == b[k] {
      var i :| 0 <= i < |items| && items[i].name == k;
      AttachmentNodeAt(atts, i);
    }
    forall k | k in b ensures k in a {
      var i := AttachmentNodeNames(atts, k);
      assert items[i].name == k;
    }
  }

  lemma StageItemsNode(c: Codec, msg: Message, tmps: seq<Name>)
    requires |tmps| == |msg.attachments| + 1 && TmpNames(tmps)
    ensures NodeOf(Folder(StageItems(c, msg, tmps))) == PayloadNode(c, msg)
  {
    StageItemsWellNamed(c, msg, tmps);
    AttachmentItemsNode(msg.attachments, tmps);
    var items := StageItems(c, msg, tmps);
    var last := Item(MESSAGE_FILE, tmps[|msg.attachments|], Blob(c.marshal(ManifestOf(c, msg))));
    assert [last][1..] == [];
    assert EntriesOf([last]) == map[MESSAGE_FILE := File(c.marshal(ManifestOf(c, msg)), true)];
    if msg.attachments != [] {
      var atts := Folder(AttachmentItems(msg.attachments, tmps));
      assert items == [Item(ATTACHMENTS_DIR, TMP_PREFIX, atts), last] && items[1..] == [last];
      assert NodeOf(atts) == Dir(AttachmentNodes(msg.attachments), map[]);
      assert EntriesOf(items) == EntriesOf([last])[ATTACHMENTS_DIR := NodeOf(atts)];
    } else {
      assert items == [last];
    }
  }

  lemma RunBracketed(items: seq<Item>)
    requires WellNamed(items)
    ensures RunOps(EMPTY_DIR, CopyPlan(items)) == NodeOf(Folder(items))
    ensures RunOps(EMPTY_DIR, CopyPlan(items) + [Op([], Fsync)]) == NodeOf(Folder(items))
  {
    var sync := Op([], Fsync);
    assert RunOps(EMPTY_DIR, [sync]) == EMPTY_DIR by { assert [sync][1..] == []; }
    RunConcat(EMPTY_DIR, [sync], WriteAll(items));
    RunAll(map[], items);
    assert map[] + EntriesOf(items) == EntriesOf(items);
    RunConcat(EMPTY_DIR, CopyPlan(items), [sync]);
    assert RunOps(NodeOf(Folder(items)), [sync]) == NodeOf(Folder(items)) by { assert [sync][1..] == []; }
  }

  /** Run to its end, `Save`'s program leaves the complete payload, nothing of it unsynced. */
  lemma StagePlanBuilds(c: Codec, msg: Message, tmps: seq<Name>)
    requires |tmps| == |msg.attachments| + 1 && TmpNames(tmps)
    ensures RunOps(EMPTY_DIR, StagePlan(c, msg, tmps)) == PayloadNode(c, msg)
  {
    var items := StageItems(c, msg, tmps);
    StageItemsWellNamed(c, msg, tmps);
    StageItemsNode(c, msg, tmps);
    RunBracketed(items);
    assert StagePlan(c, msg, tmps) == CopyPlan(items) + [Op([], Fsync)];
  }

  /** So does the copy made on the cross-device path, in whatever order the entries are listed. */
  lemma CopyPlanBuilds(c: Codec, msg: Message, items: seq<Item>)
    requires WellNamed(items) && NodeOf(Folder(items)) == PayloadNode(c, msg)
    ensures RunOps(EMPTY_DIR, CopyPlan(items)) == PayloadNode(c, msg)
  {
    RunBracketed(items);
  }

  lemma PayloadIsSettled(c: Codec, msg: Message)
    ensures Settled(PayloadNode(c, msg)) && Plain(PayloadNode(c, msg))
    ensures Below(PayloadNode(c, msg), PayloadNode(c, msg))
  {
    var tmps := seq(|msg.attachments| + 1, i => TMP_PREFIX);
    StageItemsNode(c, msg, tmps);
    TreesAreSettled(Folder(StageItems(c, msg, tmps)));
    SettledBelowItself(PayloadNode(c, msg));
  }

  // ---- Load ----

  datatype LoadResult = Loaded(msg: Message) | Corrupt

  function Lower(s: string): (r: string)
    ensures |r| == |s|
  {
    seq(|s|, i requires 0 <= i < |s| => if 'A' <= s[i] <= 'Z' then s[i] - 'A' + 'a' else s[i])
  }

  lemma LowerLetters()
    ensures Lower("ABCDEFGHIJKLMNOPQRSTUVWXYZ") == "abcdefghijklmnopqrstuvwxyz"
  {}

  /** Everything but the capital letters stays. */
  lemma LowerKeeps(s: string)
    ensures (forall i | 0 <= i < |s| :: !('A' <= s[i] <= 'Z')) ==> Lower(s) == s
  {}

  predicate EqualFold(a: string, b: string) { Lower(a) == Lower(b) }

  predicate IsHexDigest(s: string) {
    |s| == 64 && forall i | 0 <= i < 64 :: IsLowerHex(Lower(s)[i])
  }

  predicate ValidRef(i: nat, ref: AttachmentRef) {
    && Trim(ref.path) == AttachmentPath(i)
    && ref.size >= 0
    && IsHexDigest(Trim(ref.sha256))
  }

  /** File `i` is there and agrees with its manifest entry. */
  predicate FileMatches(c: Codec, dir: Node, i: nat, ref: AttachmentRef)
    requires dir.Dir?
  {
    && AttachmentFile(i) in dir.ents && dir.ents[AttachmentFile(i)].File?
    && |dir.ents[AttachmentFile(i)].data| == ref.size
    && EqualFold(HexText(c.sha256(dir.ents[AttachmentFile(i)].data)), Trim(ref.sha256))
  }

  /** One round of the attachment loop; `None` means the payload is corrupt. */
  function ReadAttachment(c: Codec, dir: Node, i: nat, ref: AttachmentRef): Option<Attachment>
    requires dir.Dir?
  {
    if ValidRef(i, ref) && FileMatches(c, dir, i, ref)
    then Some(Attachment(ref.filename, ref.contentType, dir.ents[AttachmentFile(i)].data))
    else None
  }

  function Reader(c: Codec, dir: Node, refs: seq<AttachmentRef>): nat -> Option<Attachment>
    requires dir.Dir?
  {
    (i: nat) => if i < |refs| then ReadAttachment(c, dir, i, refs[i]) else None
  }

  /** Results `i` up to `n`, or nothing if one of them is missing. */
  function Collect<T>(read: nat -> Option<T>, i: nat, n: nat): (r: Option<seq<T>>)
    requires i <= n
    decreases n - i
  {
    if i == n then Some([])
    else if read(i).None? then None
    else
      match Collect(read, i + 1, n)
      case None => None
      case Some(rest) => Some([read(i).value] + rest)
  }

  lemma {:induction false} Collected<T>(read: nat -> Option<T>, i: nat, n: nat)
    requires i <= n
    ensures Collect(read, i, n).Some? <==> forall k | i <= k < n :: read(k).Some?
    ensures Collect(read, i, n).Some? ==>
              && |Collect(read, i, n).value| == n - i
              && forall k | i <= k < n :: Some(Collect(read, i, n).value[k - i]) == read(k)
    decreases n - i
  {
    if i < n {
      Collected(read, i + 1, n);
    }
  }

  function MessageOf(m: Manifest, atts: seq<Attachment>): Message {
    Message(Trim(m.envelopeFrom), Trim(m.headerFrom), m.replyTo, m.to, m.subject, m.textBody, m.htmlBody, atts)
  }

  /** The verdict on a payload directory that can be read without transient errors. */
  function LoadNode(c: Codec, found: Option<Node>): LoadResult {
    if found.None? || !found.value.Dir? then Corrupt
    else
      var d := found.value.ents;
      if MESSAGE_FILE !in d || !d[MESSAGE_FILE].File? then Corrupt
      else
        match c.unmarshal(d[MESSAGE_FILE].data)
        case None => Corrupt
        case Some(m) =>
          if m.attachments == [] then Loaded(MessageOf(m, []))
          else if ATTACHMENTS_DIR !in d || !d[ATTACHMENTS_DIR].Dir? then Corrupt
          else
            match Collect(Reader(c, d[ATTACHMENTS_DIR], m.attachments), 0, |m.attachments|)
            case None => Corrupt
            case Some(atts) => Loaded(MessageOf(m, atts))
  }

  datatype LoadOutcome = Read(result: LoadResult) | ReadError

  /** `Load`: any read may fail for reasons that say nothing about the payload. */
  method Load(c: Codec, found: Option<Node>, faults: bool) returns (out: LoadOutcome)
    ensures out.Read? ==> out.result == LoadNode(c, found)
    ensures out.ReadError? ==> faults
  {
    hide ReadAttachment, Reader, MessageOf;
    var failed: bool := *;
    if faults && failed { return ReadError; }
    if found.None? || !found.value.Dir? { return Read(Corrupt); }
    var d := found.value.ents;
    if MESSAGE_FILE !in d || !d[MESSAGE_FILE].File? { return Read(Corrupt); }
    var manifest := c.unmarshal(d[MESSAGE_FILE].data);
    if manifest.None? { return Read(Corrupt); }
    var m := manifest.value;
    var atts := [];
    if m.attachments != [] {
      if ATTACHMENTS_DIR !in d || !d[ATTACHMENTS_DIR].Dir? { return Read(Corrupt); }
      var n, read := |m.attachments|, Reader(c, d[ATTACHMENTS_DIR], m.attachments);
      var i := 0;
      while i < n
        invariant 0 <= i <= n && |atts| == i
        invariant forall k | 0 <= k < i :: read(k) == Some(atts[k])
      {
        failed := *;
        if faults && failed { return ReadError; }
        Collected(read, 0, n);
        if read(i).None? { return Read(Corrupt); }
        atts := atts + [read(i).value];
        i := i + 1;
      }
      Collected(read, 0, n);
      assert atts == Collect(read, 0, n).value;
    }
    return Read(Loaded(MessageOf(m, atts)));
  }

  lemma SavedRefsAreValid(c: Codec, msg: Message, i: nat)
    requires c.Faithful() && i < |msg.attachments|
    ensures ValidRef(i, ManifestOf(c, msg).attachments[i])
    ensures Trim(ManifestOf(c, msg).attachments[i].sha256) == HexText(c.sha256(msg.attachments[i].data))
  {
    var s := HexText(c.sha256(msg.attachments[i].data));
    assert Tight(s) && Lower(s) == s;
  }

  /** Of a directory holding parts of the saved attachments, attachment `i` reads back right or is missing. */
  lemma ReadBelow(c: Codec, msg: Message, dir: Node, i: nat)
    requires c.Faithful() && i < |msg.attachments|
    requires dir.Dir? && Below(dir, Dir(AttachmentNodes(msg.attachments), map[]))
    ensures ReadAttachment(c, dir, i, ManifestOf(c, msg).attachments[i]) ==
            if AttachmentFile(i) in dir.ents then Some(msg.attachments[i]) else None
  {
    SavedRefsAreValid(c, msg, i);
    if AttachmentFile(i) in dir.ents {
      AttachmentNodeAt(msg.attachments, i);
      assert Below(dir.ents[AttachmentFile(i)], File(msg.attachments[i].data, true));
    }
  }

  lemma CollectBelow(c: Codec, msg: Message, dir: Node)
    requires c.Faithful()
    requires dir.Dir? && Below(dir, Dir(AttachmentNodes(msg.attachments), map[]))
    ensures Collect(Reader(c, dir, ManifestOf(c, msg).attachments), 0, |msg.attachments|) ==
            if forall k | 0 <= k < |msg.attachments| :: AttachmentFile(k) in dir.ents then Some(msg.attachments)
            else None
  {
    var read, n := Reader(c, dir, ManifestOf(c, msg).attachments), |msg.attachments|;
    Collected(read, 0, n);
    forall k | 0 <= k < n ensures read(k) == if AttachmentFile(k) in dir.ents then Some(msg.attachments[k]) else None {
      ReadBelow(c, msg, dir, k);
    }
    if Collect(read, 0, n).Some? {
      assert Collect(read, 0, n).value == msg.attachments;
    }
  }

  /** Whatever is left of a payload, a load gives back the saved message or finds the payload corrupt. */
  lemma LoadBelow(c: Codec, msg: Message, n: Node)
    requires c.Faithful() && Below(n, PayloadNode(c, msg))
    ensures LoadNode(c, Some(n)) == Loaded(Normal(msg)) || LoadNode(c, Some(n)) == Corrupt
  {
    var m := ManifestOf(c, msg);
    if n.Dir? && MESSAGE_FILE in n.ents {
      assert Below(n.ents[MESSAGE_FILE], File(c.marshal(m), true));
      assert c.unmarshal(c.marshal(m)) == Some(m);
      if msg.attachments != [] && ATTACHMENTS_DIR in n.ents {
        var dir := n.ents[ATTACHMENTS_DIR];
        assert Below(dir, Dir(AttachmentNodes(msg.attachments), map[]));
        CollectBelow(c, msg, dir);
      }
    }
  }

  /** `Save` then `Load` gives back the message, its sender fields trimmed. */
  lemma SaveThenLoad(c: Codec, msg: Message)
    requires c.Faithful()
    ensures LoadNode(c, Some(PayloadNode(c, msg))) == Loaded(Normal(msg))
  {
    var m := ManifestOf(c, msg);
    assert c.unmarshal(c.marshal(m)) == Some(m);
    if msg.attachments != [] {
      var dir := PayloadNode(c, msg).ents[ATTACHMENTS_DIR];
      PayloadIsSettled(c, msg);
      assert Below(dir, dir);
      CollectBelow(c, msg, dir);
      forall k | 0 <= k < |msg.attachments|
        ensures AttachmentFile(k) in dir.ents
      {
        AttachmentNodeAt(msg.attachments, k);
      }
    }
  }

  // ---- what a load verifies ----

  predicate PairDenotes(high: char, low: char, b: byte) {
    0 <= HexValue(high) < 16 && 0 <= HexValue(low) < 16 && 16 * HexValue(high) + HexValue(low) == b
  }

  /** `s` writes the bytes in hexadecimal, two digits each, high half first. */
  predicate Denotes(s: string, bytes: seq<byte>) {
    |s| == 2 * |bytes| && forall k | 0 <= k < |bytes| :: PairDenotes(s[2 * k], s[2 * k + 1], bytes[k])
  }

  lemma DigitDenotes(c: char, n: int)
    requires 0 <= n < 16
    ensures HexValue(c) == n <==> Lower([c])[0] == HexDigit(n)
  {}

  lemma PairOfDigits(high: char, low: char, b: byte)
    ensures PairDenotes(high, low, b) <==> Lower([high])[0] == HexDigit(b / 16) && Lower([low])[0] == HexDigit(b % 16)
  {
    hide HexValue, Lower;
    DigitDenotes(high, b / 16);
    DigitDenotes(low, b % 16);
  }

  lemma PairInText(s: string, bytes: seq<byte>, k: nat)
    requires |s| == 2 * |bytes| && k < |bytes|
    ensures PairDenotes(s[2 * k], s[2 * k + 1], bytes[k]) <==>
              Lower(s)[2 * k] == HexText(bytes)[2 * k] && Lower(s)[2 * k + 1] == HexText(bytes)[2 * k + 1]
  {
    hide PairDenotes, HexDigit;
    PairOfDigits(s[2 * k], s[2 * k + 1], bytes[k]);
  }

  /** Comparing digests without regard to case compares what they denote. */
  lemma HexTextDenotes(s: string, bytes: seq<byte>)
    ensures EqualFold(HexText(bytes), s) <==> Denotes(s, bytes)
  {
    hide PairDenotes, HexText, Lower;
    var h, l := HexText(bytes), Lower(s);
    LowerHex(bytes);
    if |s| == 2 * |bytes| {
      forall k | 0 <= k < |bytes|
        ensures PairDenotes(s[2 * k], s[2 * k + 1], bytes[k]) <==> l[2 * k] == h[2 * k] && l[2 * k + 1] == h[2 * k + 1]
      {
        PairInText(s, bytes, k);
      }
      if Denotes(s, bytes) {
        forall j | 0 <= j < |s| ensures l[j] == h[j] {
          var k := j / 2;
          assert l[2 * k] == h[2 * k] && l[2 * k + 1] == h[2 * k + 1];
          assert j == 2 * k || j == 2 * k + 1;
        }
        assert l == h;
      }
    }
  }

  lemma LowerHex(bytes: seq<byte>)
    ensures Lower(HexText(bytes)) == HexText(bytes)
  {}

  /** Attachment `i`, as found on disk, is the one its manifest entry describes. */
  ghost predicate Genuine(c: Codec, n: Node, ref: AttachmentRef, i: nat, data: seq<byte>)
    requires n.Dir?
  {
    && "attachments" in n.ents && n.ents["attachments"].Dir?
    && Decimal(i) + ".bin" in n.ents["attachments"].ents && n.ents["attachments"].ents[Decimal(i) + ".bin"].File?
    && data == n.ents["attachments"].ents[Decimal(i) + ".bin"].data
    && Trim(ref.path) == "attachments/" + Decimal(i) + ".bin"
    && ref.size == |data|
    && Denotes(Trim(ref.sha256), c.sha256(data))
  }

  /** The directory holds the message: its fields, sender fields trimmed, and one genuine file for each attachment. */
  ghost predicate HoldsMessage(c: Codec, found: Option<Node>, msg: Message) {
    && found.Some? && found.value.Dir? && "message.json" in found.value.ents && found.value.ents["message.json"].File?
    && var m := c.unmarshal(found.value.ents["message.json"].data);
       && m.Some?
       && msg.envelopeFrom == Trim(m.value.envelopeFrom) && msg.headerFrom == Trim(m.value.headerFrom)
       && msg.replyTo == m.value.replyTo && msg.to == m.value.to && msg.subject == m.value.subject
       && msg.textBody == m.value.textBody && msg.htmlBody == m.value.htmlBody
       && |msg.attachments| == |m.value.attachments|
       && forall i | 0 <= i < |msg.attachments| ::
            && msg.attachments[i].filename == m.value.attachments[i].filename
            && msg.attachments[i].contentType == m.value.attachments[i].contentType
            && Genuine(c, found.value, m.value.attachments[i], i, msg.attachments[i].data)
  }

  lemma PathText(i: nat)
    ensures AttachmentPath(i) == "attachments/" + Decimal(i) + ".bin"
  {
    assert "attachments" + "/" == "attachments/";
  }

  /** One round of the loop takes exactly the genuine file. */
  lemma ReadsGenuine(c: Codec, n: Node, ref: AttachmentRef, i: nat, a: Attachment)
    requires c.Faithful() && n.Dir? && ATTACHMENTS_DIR in n.ents && n.ents[ATTACHMENTS_DIR].Dir?
    ensures ReadAttachment(c, n.ents[ATTACHMENTS_DIR], i, ref) == Some(a) <==>
              && a.filename == ref.filename && a.contentType == ref.contentType && Genuine(c, n, ref, i, a.data)
  {
    hide Trim, Denotes, EqualFold, HexText, Decimal;
    PathText(i);
    var dir := n.ents[ATTACHMENTS_DIR];
    if AttachmentFile(i) in dir.ents && dir.ents[AttachmentFile(i)].File? {
      var sum := c.sha256(dir.ents[AttachmentFile(i)].data);
      HexTextDenotes(Trim(ref.sha256), sum);
      if Denotes(Trim(ref.sha256), sum) { DigestIsHex(Trim(ref.sha256), sum); }
    }
  }

  lemma DigestIsHex(s: string, bytes: seq<byte>)
    requires |bytes| == 32 && Denotes(s, bytes)
    ensures IsHexDigest(s)
  {
    HexTextDenotes(s, bytes);
    LowerHex(bytes);
  }

  /** `Load` gives back a message exactly when the directory holds it. */
  lemma LoadsIff(c: Codec, found: Option<Node>, msg: Message)
    requires c.Faithful()
    ensures LoadNode(c, found) == Loaded(msg) <==> HoldsMessage(c, found, msg)
  {
    hide Genuine, ReadAttachment, Trim;
    if found.Some? && found.value.Dir? && MESSAGE_FILE in found.value.ents && found.value.ents[MESSAGE_FILE].File?
       && c.unmarshal(found.value.ents[MESSAGE_FILE].data).Some?
    {
      var n, m := found.value, c.unmarshal(found.value.ents[MESSAGE_FILE].data).value;
      if m.attachments != [] {
        if ATTACHMENTS_DIR in n.ents && n.ents[ATTACHMENTS_DIR].Dir? {
          LoadsAttachmentsIff(c, n, m, msg);
        } else {
          NotGenuine(c, n, m.attachments[0], 0);
        }
      }
    }
  }

  lemma NotGenuine(c: Codec, n: Node, ref: AttachmentRef, i: nat)
    requires n.Dir? && (ATTACHMENTS_DIR !in n.ents || !n.ents[ATTACHMENTS_DIR].Dir?)
    ensures forall data :: !Genuine(c, n, ref, i, data)
  {}

  lemma LoadsAttachmentsIff(c: Codec, n: Node, m: Manifest, msg: Message)
    requires c.Faithful() && n.Dir? && ATTACHMENTS_DIR in n.ents && n.ents[ATTACHMENTS_DIR].Dir?
    ensures Collect(Reader(c, n.ents[ATTACHMENTS_DIR], m.attachments), 0, |m.attachments|) == Some(msg.attachments) <==>
              && |msg.attachments| == |m.attachments|
              && forall i | 0 <= i < |msg.attachments| ::
                   && msg.attachments[i].filename == m.attachments[i].filename
                   && msg.attachments[i].contentType == m.attachments[i].contentType
                   && Genuine(c, n, m.attachments[i], i, msg.attachments[i].data)
  {
    hide Genuine, ReadAttachment, Trim;
    var read, k := Reader(c, n.ents[ATTACHMENTS_DIR], m.attachments), |m.attachments|;
    Collected(read, 0, k);
    if |msg.attachments| == k {
      forall i | 0 <= i < k
        ensures read(i) == Some(msg.attachments[i]) <==>
                  && msg.attachments[i].filename == m.attachments[i].filename
                  && msg.attachments[i].contentType == m.attachments[i].contentType
                  && Genuine(c, n, m.attachments[i], i, msg.attachments[i].data)
      {
        ReadsGenuine(c, n, m.attachments[i], i, msg.attachments[i]);
      }
      if forall i | 0 <= i < k :: read(i) == Some(msg.attachments[i]) {
        assert Collect(read, 0, k).value == msg.attachments;
      }
    }
  }

  /** And finds it corrupt exactly when it holds no message. */
  lemma CorruptIff(c: Codec, found: Option<Node>)
    requires c.Faithful()
    ensures LoadNode(c, found) == Corrupt <==> forall msg :: !HoldsMessage(c, found, msg)
  {
    hide LoadNode, HoldsMessage;
    forall msg ensures LoadNode(c, found) == Loaded(msg) <==> HoldsMessage(c, found, msg) { LoadsIff(c, found, msg); }
    if LoadNode(c, found).Loaded? { assert HoldsMessage(c, found, LoadNode(c, found).msg); }
  }

  /** Anything `Load` accepts has attachment `i` in attachments/i.bin, with the recorded path, size and digest. */
  lemma LoadChecksEveryAttachment(c: Codec, n: Node, msg: Message, i: nat)
    requires c.Faithful() && LoadNode(c, Some(n)) == Loaded(msg) && i < |msg.attachments|
    ensures n.Dir? && MESSAGE_FILE in n.ents && n.ents[MESSAGE_FILE].File?
    ensures var m := c.unmarshal(n.ents[MESSAGE_FILE].data);
            && m.Some? && |m.value.attachments| == |msg.attachments|
            && var ref := m.value.attachments[i];
               && Genuine(c, n, ref, i, msg.attachments[i].data)
               && Lower(Trim(ref.sha256)) == HexText(c.sha256(msg.attachments[i].data))
  {
    hide LoadNode, Trim, Denotes, HexText, Lower;
    LoadsIff(c, Some(n), msg);
    var ref := c.unmarshal(n.ents[MESSAGE_FILE].data).value.attachments[i];
    LowerHex(c.sha256(msg.attachments[i].data));
    HexTextDenotes(Trim(ref.sha256), c.sha256(msg.attachments[i].data));
  }

  /** A payload directory with other bytes in attachment `i`. */
  function Replaced(n: Node, i: nat, data: seq<byte>): Node
    requires n.Dir? && ATTACHMENTS_DIR in n.ents && n.ents[ATTACHMENTS_DIR].Dir?
  {
    var dir := n.ents[ATTACHMENTS_DIR];
    Dir(n.ents[ATTACHMENTS_DIR := Dir(dir.ents[AttachmentFile(i) := File(data, true)], dir.past)], n.past)
  }

  /** Bytes with another digest in place of a saved attachment are always noticed. */
  lemma ReplacedBytesAreCorrupt(c: Codec, msg: Message, i: nat, data: seq<byte>)
    requires c.Faithful() && i < |msg.attachments| && c.sha256(data) != c.sha256(msg.attachments[i].data)
    ensures LoadNode(c, Some(Replaced(PayloadNode(c, msg), i, data))) == Corrupt
  {
    hide LoadNode, Trim, HexText, Decimal;
    var n := Replaced(PayloadNode(c, msg), i, data);
    var m := ManifestOf(c, msg);
    assert c.unmarshal(c.marshal(m)) == Some(m);
    SavedRefsAreValid(c, msg, i);
    LowerHex(c.sha256(msg.attachments[i].data));
    HexTextDenotes(Trim(m.attachments[i].sha256), c.sha256(msg.attachments[i].data));
    CorruptIff(c, Some(n));
    forall other ensures !HoldsMessage(c, Some(n), other) {
      if HoldsMessage(c, Some(n), other) {
        assert Genuine(c, n, m.attachments[i], i, other.attachments[i].data);
        DenotesOnce(Trim(m.attachments[i].sha256), c.sha256(data), c.sha256(msg.attachments[i].data));
      }
    }
  }

  lemma DenotesOnce(s: string, a: seq<byte>, b: seq<byte>)
    requires Denotes(s, a) && Denotes(s, b)
    ensures a == b
  {
    hide HexValue;
    forall k | 0 <= k < |a| ensures a[k] == b[k] {
      assert PairDenotes(s[2 * k], s[2 * k + 1], a[k]) && PairDenotes(s[2 * k], s[2 * k + 1], b[k]);
    }
  }
}
