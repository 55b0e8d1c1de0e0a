/**
 A file system with explicit durability.

 A directory has its live entries and, for every name changed since the directory was last
 synced, the values that name had before. A crash may leave such a name absent, at its live
 value, or at any of the earlier values. Bytes of a file that was not synced may become anything.
 */
module Disk {
  import opened Ids

  type Name = string
  type Path = seq<Name>

  datatype Past = Past(nodes: set<Node>)

  datatype Node =
    | File(data: seq<byte>, synced: bool)
    | Special                                             // symbolic link, socket, device
    | Dir(ents: map<Name, Node>, past: map<Name, Past>)

  const EMPTY_DIR := Dir(map[], map[])

  // ---- what a crash leaves ----

  /** `m` may be found where `n` was before the crash. */
  ghost predicate Image(n: Node, m: Node) {
    match n
    case File(data, synced) => m.File? && m.synced && (synced ==> m.data == data)
    case Special => m == Special
    case Dir(ents, past) =>
      && m.Dir? && m.past == map[]
      && (forall k | k in ents && k !in past :: k in m.ents)
      && (forall k | k in m.ents ::
            || (k in ents && Image(ents[k], m.ents[k]))
            || (k in past && exists o | o in past[k].nodes :: Image(o, m.ents[k])))
  }

  /** Everything below `n` is on disk. */
  ghost predicate Settled(n: Node) {
    match n
    case File(_, synced) => synced
    case Special => true
    case Dir(ents, past) => past == map[] && forall k | k in ents :: Settled(ents[k])
  }

  /** Only directories and regular files, also among the values a crash may bring back. */
  ghost predicate Plain(n: Node) {
    match n
    case File(_, _) => true
    case Special => false
    case Dir(ents, past) =>
      && (forall k | k in ents :: Plain(ents[k]))
      && (forall k | k in past :: forall o | o in past[k].nodes :: Plain(o))
  }

  /** `n`, and whatever a crash may make of it, holds parts of the settled tree `t` and nothing else. */
  ghost predicate Below(n: Node, t: Node) {
    match n
    case File(_, synced) => n == t && synced
    case Special => false
    case Dir(ents, past) =>
      && t.Dir?
      && (forall k | k in ents :: k in t.ents && Below(ents[k], t.ents[k]))
      && (forall k | k in past :: forall o | o in past[k].nodes :: k in t.ents && Below(o, t.ents[k]))
  }

  lemma {:induction false} SettledSurvives(n: Node, m: Node)
    requires Settled(n) && Image(n, m)
    ensures m == n
  {
    match n
    case File(_, _) =>
    case Special =>
    case Dir(ents, _) =>
      forall k | k in ents ensures m.ents[k] == ents[k] {
        SettledSurvives(ents[k], m.ents[k]);
      }
      assert m.ents == ents;
  }

  lemma {:induction false} ImageBelow(n: Node, m: Node, t: Node)
    requires Below(n, t) && Image(n, m)
    ensures Below(m, t)
  {
    match n
    case File(_, _) =>
    case Dir(ents, past) =>
      forall k | k in m.ents ensures k in t.ents && Below(m.ents[k], t.ents[k]) {
        if k in ents && Image(ents[k], m.ents[k]) {
          ImageBelow(ents[k], m.ents[k], t.ents[k]);
        } else {
          var o :| o in past[k].nodes && Image(o, m.ents[k]);
          ImageBelow(o, m.ents[k], t.ents[k]);
        }
      }
  }

  lemma {:induction false} ImagePlain(n: Node, m: Node)
    requires Plain(n) && Image(n, m)
    ensures Plain(m)
  {
    match n
    case File(_, _) =>
    case Dir(ents, past) =>
      forall k | k in m.ents ensures Plain(m.ents[k]) {
        if k in ents && Image(ents[k], m.ents[k]) {
          ImagePlain(ents[k], m.ents[k]);
        } else {
          var o :| o in past[k].nodes && Image(o, m.ents[k]);
          ImagePlain(o, m.ents[k]);
        }
      }
  }

  lemma {:induction false} SettledBelowItself(t: Node)
    requires Settled(t) && Plain(t)
    ensures Below(t, t)
  {
    match t
    case File(_, _) =>
    case Dir(ents, _) =>
      forall k | k in ents ensures Below(ents[k], ents[k]) {
        SettledBelowItself(ents[k]);
      }
  }

  lemma {:induction false} BelowIsPlain(n: Node, t: Node)
    requires Below(n, t)
    ensures Plain(n)
  {
    match n
    case File(_, _) =>
    case Dir(ents, past) =>
      forall k | k in ents ensures Plain(ents[k]) { BelowIsPlain(ents[k], t.ents[k]); }
      forall k, o | k in past && o in past[k].nodes ensures Plain(o) { BelowIsPlain(o, t.ents[k]); }
  }

  // ---- changing one directory ----

  function Touch(d: Node, k: Name): (past: map<Name, Past>)
    requires d.Dir?
  {
    var before := (if k in d.past then d.past[k].nodes else {}) + (if k in d.ents then {d.ents[k]} else {});
    d.past[k := Past(before)]
  }

  /** A change of the name `k` itself: durable only once the directory is synced. */
  function Put(d: Node, k: Name, n: Node): Node
    requires d.Dir?
  {
    Dir(d.ents[k := n], Touch(d, k))
  }

  function Drop(d: Node, k: Name): Node
    requires d.Dir?
  {
    Dir(d.ents - {k}, Touch(d, k))
  }

  /** A change below `k`; the entry itself is not rewritten. */
  function Within(d: Node, k: Name, n: Node): Node
    requires d.Dir?
  {
    Dir(d.ents[k := n], d.past)
  }

  function Synced(d: Node): Node
    requires d.Dir?
  {
    Dir(d.ents, map[])
  }

  // ---- what may go wrong ----

  lemma {:induction false} SettledIsItsImage(n: Node)
    requires Settled(n)
    ensures Image(n, n)
  {
    match n
    case File(_, _) =>
    case Special =>
    case Dir(ents, _) => forall k | k in ents ensures Image(ents[k], ents[k]) { SettledIsItsImage(ents[k]); }
  }

  /** Until the directory is synced, a crash may undo a new or a removed entry, or not. */
  lemma UnsyncedMayBeUndone(d: Node, x: Name, n: Node)
    requires d.Dir? && Settled(d) && Settled(n)
    ensures x !in d.ents ==> Image(Put(d, x, n), d) && Image(Put(d, x, n), Dir(d.ents[x := n], map[]))
    ensures x in d.ents ==> Image(Drop(d, x), d) && Image(Drop(d, x), Dir(d.ents - {x}, map[]))
  {
    SettledIsItsImage(n);
    forall k | k in d.ents ensures Image(d.ents[k], d.ents[k]) { SettledIsItsImage(d.ents[k]); }
    if x in d.ents { assert d.ents[x] in Touch(d, x)[x].nodes; }
  }

  /** And bytes that were not synced may become any bytes. */
  lemma UnsyncedBytesMayChange(data: seq<byte>, found: seq<byte>)
    ensures Image(File(data, false), File(found, true))
  {}

  // ---- system calls ----

  datatype Call =
    | Mkdir(name: Name)
    | Create(name: Name)                    // O_CREAT | O_EXCL
    | Write(name: Name, data: seq<byte>)
    | FsyncFile(name: Name)
    | Rename(from: Name, to: Name)
    | Fsync
    | Unlink(name: Name)                    // a file, or an empty directory

  /** A call made in the directory at `path`. */
  datatype Op = Op(path: Path, call: Call)

  function Perform(d: Node, call: Call): Node
    requires d.Dir?
  {
    match call
    case Mkdir(x) => if x in d.ents then d else Put(d, x, EMPTY_DIR)
    case Create(x) => if x in d.ents then d else Put(d, x, File([], false))
    case Write(x, data) =>
      if x in d.ents && d.ents[x].File? then Within(d, x, File(d.ents[x].data + data, false)) else d
    case FsyncFile(x) =>
      if x in d.ents && d.ents[x].File? then Within(d, x, File(d.ents[x].data, true)) else d
    case Rename(x, y) => if x in d.ents then Drop(Put(d, y, d.ents[x]), x) else d
    case Fsync => Synced(d)
    case Unlink(x) =>
      if x in d.ents && (d.ents[x].File? || (d.ents[x].Dir? && d.ents[x].ents == map[])) then Drop(d, x) else d
  }

  function Apply(n: Node, op: Op): Node
    decreases |op.path|
  {
    if !n.Dir? then n
    else if op.path == [] then Perform(n, op.call)
    else if op.path[0] !in n.ents then n
    else Within(n, op.path[0], Apply(n.ents[op.path[0]], Op(op.path[1..], op.call)))
  }

  /** The call removes `name`, or something below it. */
  predicate Confined(op: Op, name: Name) {
    op.call.Unlink? && (if op.path == [] then op.call.name == name else op.path[0] == name)
  }

  function RunOps(n: Node, ops: seq<Op>): Node
    decreases |ops|
  {
    if ops == [] then n else RunOps(Apply(n, ops[0]), ops[1..])
  }

  lemma {:induction false} RunConcat(n: Node, a: seq<Op>, b: seq<Op>)
    ensures RunOps(n, a + b) == RunOps(RunOps(n, a), b)
    decreases |a|
  {
    if a == [] {
      assert a + b == b;
    } else {
      assert (a + b)[1..] == a[1..] + b;
      RunConcat(Apply(n, a[0]), a[1..], b);
    }
  }

  lemma RunNext(n: Node, ops: seq<Op>, k: nat)
    requires k < |ops|
    ensures RunOps(n, ops[..k + 1]) == Apply(RunOps(n, ops[..k]), ops[k])
  {
    assert ops[..k + 1] == ops[..k] + [ops[k]];
    RunConcat(n, ops[..k], [ops[k]]);
  }

  lemma {:induction false} ApplyKeeps(n: Node, op: Op)
    requires Plain(n)
    ensures Plain(Apply(n, op)) && (n.Dir? ==> Apply(n, op).Dir?)
    decreases |op.path|
  {
    if n.Dir? && op.path != [] && op.path[0] in n.ents {
      ApplyKeeps(n.ents[op.path[0]], Op(op.path[1..], op.call));
    }
  }

  lemma {:induction false} RunKeeps(n: Node, ops: seq<Op>)
    requires Plain(n)
    ensures Plain(RunOps(n, ops)) && (n.Dir? ==> RunOps(n, ops).Dir?)
    decreases |ops|
  {
    if ops != [] {
      ApplyKeeps(n, ops[0]);
      RunKeeps(Apply(n, ops[0]), ops[1..]);
    }
  }

  /** Removing things, in whatever order, never adds to a tree. */
  lemma {:induction false} UnlinkBelow(n: Node, path: Path, x: Name, t: Node)
    requires Below(n, t)
    ensures Below(Apply(n, Op(path, Unlink(x))), t)
    ensures n.Dir? ==> Apply(n, Op(path, Unlink(x))).Dir?
    decreases |path|
  {
    if n.Dir? && path != [] && path[0] in n.ents {
      UnlinkBelow(n.ents[path[0]], path[1..], x, t.ents[path[0]]);
    }
  }

  // ---- writing a whole tree ----

  /** A tree to be written, in the order it is written; `tmp` is the temporary name of a file. */
  datatype Tree = Blob(data: seq<byte>) | Folder(items: seq<Item>)
  datatype Item = Item(name: Name, tmp: Name, tree: Tree)

  /** Names are distinct and no temporary name is a final name. */
  ghost predicate WellNamed(items: seq<Item>) {
    && (forall i, j | 0 <= i < j < |items| :: items[i].name != items[j].name)
    && (forall i, j | 0 <= i < |items| && 0 <= j < |items| :: items[i].tmp != items[j].name)
    && (forall i | 0 <= i < |items| :: items[i].tree.Folder? ==> WellNamed(items[i].tree.items))
  }

  function NodeOf(t: Tree): Node
    decreases t, 0
  {
    match t
    case Blob(data) => File(data, true)
    case Folder(items) => Dir(EntriesOf(items), map[])
  }

  function EntriesOf(items: seq<Item>): map<Name, Node>
    decreases items, 1
  {
    if items == [] then map[]
    else EntriesOf(items[1..])[items[0].name := NodeOf(items[0].tree)]
  }

  /** The same calls, made one directory further down. */
  function Under(x: Name, ops: seq<Op>): (r: seq<Op>)
    ensures |r| == |ops|
  {
    if ops == [] then [] else [Op([x] + ops[0].path, ops[0].call)] + Under(x, ops[1..])
  }

  /** `writeRegularFileAt`: write and sync a temporary file, rename it, sync the directory. */
  function WriteFile(tmp: Name, name: Name, data: seq<byte>): seq<Op> {
    [ Op([], Create(tmp)), Op([], Write(tmp, data)), Op([], FsyncFile(tmp)), Op([], Rename(tmp, name)), Op([], Fsync) ]
  }

  /** `createDirectoryAt`. */
  function MakeFolder(x: Name): seq<Op> {
    [ Op([], Mkdir(x)), Op([x], Fsync), Op([], Fsync) ]
  }

  /** `copyDirectoryEntries`, and the same calls in `Save`. */
  function WriteAll(items: seq<Item>): seq<Op>
    decreases items, 1
  {
    if items == [] then [] else WriteItem(items[0]) + WriteAll(items[1..])
  }

  function WriteItem(item: Item): seq<Op>
    decreases item, 0
  {
    match item.tree
    case Blob(data) => WriteFile(item.tmp, item.name, data)
    case Folder(items) =>
      MakeFolder(item.name) + Under(item.name, WriteAll(items)) + [ Op([item.name], Fsync) ]
  }

  lemma {:induction false} RunUnder(d: Node, x: Name, ops: seq<Op>)
    requires d.Dir? && x in d.ents
    ensures RunOps(d, Under(x, ops)) == Within(d, x, RunOps(d.ents[x], ops))
    decreases |ops|
  {
    if ops == [] {
      assert d.ents[x := d.ents[x]] == d.ents;
    } else {
      var op := Op([x] + ops[0].path, ops[0].call);
      assert op.path[1..] == ops[0].path;
      var d' := Apply(d, op);
      assert Op(op.path[1..], op.call) == ops[0];
      assert d' == Within(d, x, Apply(d.ents[x], ops[0]));
      RunUnder(d', x, ops[1..]);
      assert Under(x, ops)[1..] == Under(x, ops[1..]);
      assert d'.ents[x := RunOps(d'.ents[x], ops[1..])] == d.ents[x := RunOps(d.ents[x], ops)];
    }
  }

  lemma RunFile(e: map<Name, Node>, tmp: Name, name: Name, data: seq<byte>)
    requires tmp !in e && name !in e && tmp != name
    ensures RunOps(Dir(e, map[]), WriteFile(tmp, name, data)) == Dir(e[name := File(data, true)], map[])
  {
    var ops := WriteFile(tmp, name, data);
    var d0 := Dir(e, map[]);
    var d1 := Apply(d0, ops[0]);
    var d2 := Apply(d1, ops[1]);
    assert d2.ents == e[tmp := File(data, false)] by { assert [] + data == data; }
    var d3 := Apply(d2, ops[2]);
    assert d3.ents == e[tmp := File(data, true)];
    var d4 := Apply(d3, ops[3]);
    assert d4.ents == e[name := File(data, true)];
    var d5 := Apply(d4, ops[4]);
    assert d5 == Dir(e[name := File(data, true)], map[]);
    assert RunOps(d0, ops) == RunOps(d1, ops[1..]);
    assert ops[1..][1..] == ops[2..] && RunOps(d1, ops[1..]) == RunOps(d2, ops[2..]);
    assert ops[2..][1..] == ops[3..] && RunOps(d2, ops[2..]) == RunOps(d3, ops[3..]);
    assert ops[3..][1..] == ops[4..] && RunOps(d3, ops[3..]) == RunOps(d4, ops[4..]);
    assert ops[4..][1..] == [] && RunOps(d4, ops[4..]) == d5;
  }

  /** Creating a directory also makes everything else in its parent durable. */
  lemma RunMakeFolder(d: Node, x: Name)
    requires d.Dir? && x !in d.ents
    ensures RunOps(d, MakeFolder(x)) == Dir(d.ents[x := EMPTY_DIR], map[])
  {
    var ops := MakeFolder(x);
    var a := Apply(d, ops[0]);
    assert a == Put(d, x, EMPTY_DIR);
    assert [x][1..] == [] && Apply(EMPTY_DIR, Op([], Fsync)) == EMPTY_DIR;
    var b := Apply(a, ops[1]);
    assert b == Within(a, x, EMPTY_DIR);
    assert b.ents == d.ents[x := EMPTY_DIR];
    assert Apply(b, ops[2]) == Dir(b.ents, map[]);
    assert ops[1..] == [ops[1], ops[2]] && ops[2..] == [ops[2]];
    RunNext(d, ops, 0);
    RunNext(d, ops, 1);
    RunNext(d, ops, 2);
    assert ops[..0] == [] && ops[..3] == ops;
  }

  lemma RunSyncFolder(e: map<Name, Node>, x: Name)
    requires x in e && e[x].Dir? && e[x].past == map[]
    ensures RunOps(Dir(e, map[]), [Op([x], Fsync)]) == Dir(e, map[])
  {
    var op := Op([x], Fsync);
    assert [x][1..] == [] && Apply(e[x], Op([], Fsync)) == e[x];
    assert e[x := e[x]] == e;
    assert Apply(Dir(e, map[]), op) == Dir(e, map[]) && [op][1..] == [];
  }

  lemma {:induction false} RunItem(e: map<Name, Node>, item: Item)
    requires item.name !in e && item.tmp !in e && item.tmp != item.name
    requires item.tree.Folder? ==> WellNamed(item.tree.items)
    ensures RunOps(Dir(e, map[]), WriteItem(item)) == Dir(e[item.name := NodeOf(item.tree)], map[])
    decreases item, 0
  {
    match item.tree
    case Blob(data) => RunFile(e, item.tmp, item.name, data);
    case Folder(items) => RunFolder(Dir(e, map[]), item);
  }

  /** `copyDirectoryTreeAt` into a directory in any state. */
  lemma {:induction false} RunFolder(d: Node, item: Item)
    requires d.Dir? && item.name !in d.ents && item.tree.Folder? && WellNamed(item.tree.items)
    ensures RunOps(d, WriteItem(item)) == Dir(d.ents[item.name := NodeOf(item.tree)], map[])
    decreases item, -1
  {
    hide Apply, RunOps, MakeFolder;
    var x, items := item.name, item.tree.items;
    var body := Under(x, WriteAll(items));
    var d1 := Dir(d.ents[x := EMPTY_DIR], map[]);
    RunMakeFolder(d, x);
    RunAll(map[], items);
    assert map[] + EntriesOf(items) == EntriesOf(items);
    RunUnder(d1, x, WriteAll(items));
    var e2 := d.ents[x := NodeOf(item.tree)];
    assert d.ents[x := EMPTY_DIR][x := NodeOf(item.tree)] == e2;
    assert RunOps(d1, body) == Dir(e2, map[]);
    RunSyncFolder(e2, x);
    RunConcat(d, MakeFolder(x) + body, [Op([x], Fsync)]);
    RunConcat(d, MakeFolder(x), body);
  }

  /** Written step by step into an empty place, a tree ends up complete and fully on disk. */
  lemma {:induction false} RunAll(e: map<Name, Node>, items: seq<Item>)
    requires WellNamed(items)
    requires forall i | 0 <= i < |items| :: items[i].name !in e && items[i].tmp !in e
    ensures RunOps(Dir(e, map[]), WriteAll(items)) == Dir(e + EntriesOf(items), map[])
    decreases items, 1
  {
    hide Apply, RunOps, WellNamed, WriteItem, NodeOf;
    RunNothing(Dir(e, map[]));
    if items == [] {
      assert e + map[] == e;
    } else {
      HeadAlone(items);
      var e1 := e[items[0].name := NodeOf(items[0].tree)];
      RunItem(e, items[0]);
      TailWellNamed(items);
      RunAll(e1, items[1..]);
      RunConcat(Dir(e, map[]), WriteItem(items[0]), WriteAll(items[1..]));
      HeadNotInTail(items);
      assert e1 + EntriesOf(items[1..]) == e + EntriesOf(items);
    }
  }

  lemma RunNothing(n: Node)
    ensures RunOps(n, []) == n
  {}

  lemma HeadAlone(items: seq<Item>)
    requires items != [] && WellNamed(items)
    ensures items[0].tmp != items[0].name && (items[0].tree.Folder? ==> WellNamed(items[0].tree.items))
    ensures forall i | 0 < i < |items| :: items[i].name != items[0].name && items[i].tmp != items[0].name
  {}

  lemma TailWellNamed(items: seq<Item>)
    requires items != [] && WellNamed(items)
    ensures WellNamed(items[1..])
  {
    var rest := items[1..];
    assert forall i | 0 <= i < |rest| :: rest[i] == items[i + 1];
  }

  lemma HeadNotInTail(items: seq<Item>)
    requires items != [] && WellNamed(items)
    ensures items[0].name !in EntriesOf(items[1..])
  {
    EntriesNames(items[1..]);
    assert forall i | 0 <= i < |items[1..]| :: items[1..][i] == items[i + 1];
  }

  lemma {:induction false} EntriesNames(items: seq<Item>)
    ensures forall k | k in EntriesOf(items) :: exists i | 0 <= i < |items| :: items[i].name == k
  {
    if items != [] {
      EntriesNames(items[1..]);
      forall k | k in EntriesOf(items) ensures exists i | 0 <= i < |items| :: items[i].name == k {
        if k == items[0].name {
          assert items[0].name == k;
        } else {
          assert k in EntriesOf(items[1..]);
          var i :| 0 <= i < |items[1..]| && items[1..][i].name == k;
          assert items[i + 1].name == k;
        }
      }
    }
  }

  lemma {:induction false} TreesAreSettled(t: Tree)
    ensures Settled(NodeOf(t)) && Plain(NodeOf(t))
    decreases t, 0
  {
    match t
    case Blob(_) =>
    case Folder(items) => EntriesAreSettled(items);
  }

  lemma {:induction false} EntriesAreSettled(items: seq<Item>)
    ensures forall k | k in EntriesOf(items) :: Settled(EntriesOf(items)[k]) && Plain(EntriesOf(items)[k])
    decreases items, 1
  {
    if items != [] {
      TreesAreSettled(items[0].tree);
      EntriesAreSettled(items[1..]);
    }
  }
}
