/** The directory walks: removing a tree, listing and copying one, and finding an unused name. */
module Trees {
  import opened Text
  import opened Disk
  import opened Payload

  /** Only directories and regular files, as a walk over the live entries sees them. */
  predicate Ordinary(n: Node) {
    match n
    case File(_, _) => true
    case Special => false
    case Dir(ents, _) => forall k | k in ents :: Ordinary(ents[k])
  }

  lemma {:induction false} PlainIsOrdinary(n: Node)
    requires Plain(n)
    ensures Ordinary(n)
  {
    match n
    case File(_, _) =>
    case Dir(ents, _) => forall k | k in ents ensures Ordinary(ents[k]) { PlainIsOrdinary(ents[k]); }
  }

  // ---- removal ----

  lemma {:induction false} UnderConfined(x: Name, ops: seq<Op>)
    requires forall op | op in ops :: op.call.Unlink?
    ensures forall op | op in Under(x, ops) :: Confined(op, x)
    decreases |ops|
  {
    if ops != [] {
      assert forall op | op in ops[1..] :: op in ops;
      UnderConfined(x, ops[1..]);
      assert ops[0] in ops;
    }
  }

  /** The outcome of a removal in `d`: the calls made, and whether all went well. */
  ghost predicate Removed(d: Node, name: Name, ok: bool, ops: seq<Op>, after: Node)
    requires d.Dir?
  {
    && after == RunOps(d, ops) && after.Dir?
    && (forall op | op in ops :: Confined(op, name))
    && (forall x | x != name :: (x in after.ents <==> x in d.ents) && (x in d.ents ==> after.ents[x] == d.ents[x]))
    && (ok ==> name !in after.ents && (name in d.ents ==> Ordinary(d.ents[name])))
    && (ops != [] ==> Bare(after) != Bare(d))
  }

  lemma GoneIsSeen(d: Node, after: Node, name: Name)
    requires d.Dir? && after.Dir? && name in d.ents && name !in after.ents
    ensures Bare(after) != Bare(d)
  {
    assert name in Bare(d).ents && name !in Bare(after).ents;
  }

  lemma RemovedFile(d: Node, name: Name)
    requires d.Dir? && name in d.ents && d.ents[name].File?
    ensures Removed(d, name, true, [Op([], Unlink(name))], Drop(d, name))
  {
    assert [Op([], Unlink(name))][1..] == [];
    assert Apply(d, Op([], Unlink(name))) == Drop(d, name);
    GoneIsSeen(d, Drop(d, name), name);
  }

  lemma RemovedInside(d: Node, name: Name, ops: seq<Op>)
    requires d.Dir? && name in d.ents && d.ents[name].Dir? && forall op | op in ops :: op.call.Unlink?
    requires ops != [] ==> Bare(RunOps(d.ents[name], ops)) != Bare(d.ents[name])
    ensures Removed(d, name, false, Under(name, ops), Within(d, name, RunOps(d.ents[name], ops)))
  {
    RunUnder(d, name, ops);
    UnderConfined(name, ops);
    var after := Within(d, name, RunOps(d.ents[name], ops));
    assert Bare(after).ents[name] == Bare(RunOps(d.ents[name], ops)) && Bare(d).ents[name] == Bare(d.ents[name]);
  }

  lemma RemovedDir(d: Node, name: Name, ops: seq<Op>)
    requires d.Dir? && name in d.ents && d.ents[name].Dir? && Ordinary(d.ents[name])
    requires forall op | op in ops :: op.call.Unlink?
    requires RunOps(d.ents[name], ops).Dir? && RunOps(d.ents[name], ops).ents == map[]
    requires ops != [] ==> Bare(RunOps(d.ents[name], ops)) != Bare(d.ents[name])
    ensures Removed(d, name, true, Under(name, ops) + [Op([], Unlink(name))],
                    Drop(Within(d, name, RunOps(d.ents[name], ops)), name))
  {
    RemovedInside(d, name, ops);
    var last := Op([], Unlink(name));
    var inner := Within(d, name, RunOps(d.ents[name], ops));
    assert Apply(inner, last) == Drop(inner, name) && [last][1..] == [];
    RunConcat(d, Under(name, ops), [last]);
    GoneIsSeen(d, Drop(inner, name), name);
  }

  /** `removeEntryTreeAt`: succeeds, unless a call fails, exactly on ordinary trees. */
  method RemoveEntryTree(d: Node, name: Name, faults: bool) returns (ok: bool, ops: seq<Op>, after: Node)
    requires d.Dir?
    ensures Removed(d, name, ok, ops, after)
    ensures !faults && (name in d.ents ==> Ordinary(d.ents[name])) ==> ok
    decreases if name in d.ents then d.ents[name] else Special, 2
  {
    hide Removed, RunOps, Under;
    var failed: bool := *;
    NothingRemoved(d, name);
    if faults && failed { return false, [], d; }
    if name !in d.ents { return true, [], d; }
    match d.ents[name] {
      case Special =>
        return false, [], d;
      case File(_, _) =>
        RemovedFile(d, name);
        return true, [Op([], Unlink(name))], Drop(d, name);
      case Dir(_, _) =>
        var emptied, inner, rest := RemoveTreeContents(d.ents[name], faults);
        failed := *;
        if !emptied || (faults && failed) {
          RemovedInside(d, name, inner);
          return false, Under(name, inner), Within(d, name, rest);
        }
        RemovedDir(d, name, inner);
        return true, Under(name, inner) + [Op([], Unlink(name))], Drop(Within(d, name, rest), name);
    }
  }

  lemma NothingRemoved(d: Node, name: Name)
    requires d.Dir?
    ensures Removed(d, name, false, [], d)
    ensures name !in d.ents ==> Removed(d, name, true, [], d)
  {}

  /** `removeTreeContentsFD`. */
  method RemoveTreeContents(n: Node, faults: bool) returns (ok: bool, ops: seq<Op>, after: Node)
    requires n.Dir?
    ensures after == RunOps(n, ops) && after.Dir? && forall op | op in ops :: op.call.Unlink?
    ensures ops != [] ==> Bare(after) != Bare(n)
    ensures ok ==> after.ents == map[] && Ordinary(n)
    ensures !faults && Ordinary(n) ==> ok
    decreases n, 1
  {
    hide RunOps;
    ok, ops, after := true, [], n;
    RunNothing(n);
    var todo := n.ents.Keys;
    while todo != {}
      invariant after == RunOps(n, ops) && after.Dir? && forall op | op in ops :: op.call.Unlink?
      invariant todo == after.ents.Keys && todo <= n.ents.Keys
      invariant forall k | k in todo :: after.ents[k] == n.ents[k]
      invariant if todo == n.ents.Keys then after == n && ops == [] else Bare(after) != Bare(n)
      invariant forall k | k in n.ents && k !in todo :: Ordinary(n.ents[k])
      decreases todo
    {
      var k :| k in todo;
      var gone, more, rest := RemoveEntryTree(after, k, faults);
      RunConcat(n, ops, more);
      assert forall op | op in more :: Confined(op, k);
      ops, after := ops + more, rest;
      if !gone {
        if x :| x in n.ents && x !in todo { GoneIsSeen(n, after, x); }
        return false, ops, after;
      }
      todo := todo - {k};
      assert after.ents.Keys == todo;
      GoneIsSeen(n, after, k);
    }
  }

  // ---- copies ----

  /** The call concerns `x` alone: it is made below `x`, or creates it, or syncs. */
  predicate About(op: Op, x: Name) {
    if op.path == [] then op.call == Mkdir(x) || op.call == Fsync else op.path[0] == x
  }

  /** No call makes anything but files and directories. */
  lemma {:induction false} ApplyOrdinary(n: Node, op: Op)
    requires Ordinary(n)
    ensures Ordinary(Apply(n, op))
    decreases |op.path|
  {
    if n.Dir? && op.path != [] && op.path[0] in n.ents {
      ApplyOrdinary(n.ents[op.path[0]], Op(op.path[1..], op.call));
    }
  }

  predicate OrdinaryAt(d: Node, x: Name) { d.Dir? && x in d.ents ==> Ordinary(d.ents[x]) }

  lemma AboutOrdinary(d: Node, op: Op, x: Name)
    requires d.Dir? && About(op, x) && OrdinaryAt(d, x)
    ensures OrdinaryAt(Apply(d, op), x)
  {
    if op.path != [] && x in d.ents { ApplyOrdinary(d.ents[x], Op(op.path[1..], op.call)); }
  }

  lemma {:induction false} RunAbout(d: Node, ops: seq<Op>, x: Name)
    requires d.Dir? && forall op | op in ops :: About(op, x)
    ensures RunOps(d, ops).Dir?
    ensures forall y | y != x ::
              (y in RunOps(d, ops).ents <==> y in d.ents) && (y in d.ents ==> RunOps(d, ops).ents[y] == d.ents[y])
    ensures OrdinaryAt(d, x) ==> OrdinaryAt(RunOps(d, ops), x)
    decreases |ops|
  {
    hide Ordinary;
    if ops != [] {
      assert ops[0] in ops && forall op | op in ops[1..] :: op in ops;
      if OrdinaryAt(d, x) { AboutOrdinary(d, ops[0], x); }
      RunAbout(Apply(d, ops[0]), ops[1..], x);
    }
  }

  lemma {:induction false} UnderAbout(x: Name, ops: seq<Op>)
    ensures forall op | op in Under(x, ops) :: About(op, x)
    decreases |ops|
  {
    if ops != [] { UnderAbout(x, ops[1..]); }
  }

  /** A copy that breaks off at any call has touched nothing but its own target. */
  lemma PartialCopy(d: Node, item: Item, made: nat)
    requires d.Dir? && item.tree.Folder? && made <= |WriteItem(item)|
    ensures var after := RunOps(d, WriteItem(item)[..made]);
            && after.Dir?
            && (item.name !in d.ents ==> OrdinaryAt(after, item.name))
            && forall y | y != item.name ::
                 (y in after.ents <==> y in d.ents) && (y in d.ents ==> after.ents[y] == d.ents[y])
  {
    hide RunOps, Apply, Ordinary;
    UnderAbout(item.name, WriteAll(item.tree.items));
    RunAbout(d, WriteItem(item)[..made], item.name);
  }

  /** The live names and bytes of a tree, as a copy of it ends up on disk. */
  function Bare(n: Node): Node {
    match n
    case File(data, _) => File(data, true)
    case Special => Special
    case Dir(ents, _) => Dir(map k | k in ents :: Bare(ents[k]), map[])
  }

  lemma {:induction false} SettledIsBare(n: Node)
    requires Settled(n)
    ensures Bare(n) == n
  {
    match n
    case File(_, _) =>
    case Special =>
    case Dir(ents, _) =>
      forall k | k in ents ensures Bare(ents[k]) == ents[k] { SettledIsBare(ents[k]); }
      assert Bare(n).ents == ents;
  }

  lemma {:induction false} BareTwice(n: Node)
    ensures Bare(Bare(n)) == Bare(n)
  {
    match n
    case File(_, _) =>
    case Special =>
    case Dir(ents, _) =>
      forall k | k in ents ensures Bare(Bare(ents[k])) == Bare(ents[k]) { BareTwice(ents[k]); }
      assert Bare(Bare(n)).ents == Bare(n).ents;
  }

  /** The first unused of `base`, `base-1`, `base-2`, ... */
  function Numbered(base: string, i: nat): string { if i == 0 then base else base + "-" + Decimal(i) }

  lemma NumberedInjective(base: string, i: nat, j: nat)
    requires Numbered(base, i) == Numbered(base, j)
    ensures i == j
  {
    assert (|Numbered(base, i)| == |base| <==> i == 0) && (|Numbered(base, j)| == |base| <==> j == 0);
    if i > 0 {
      assert Numbered(base, i)[|base| + 1..] == Decimal(i) && Numbered(base, j)[|base| + 1..] == Decimal(j);
      DecimalInjective(i, j);
    }
  }

  /** `uniqueQuarantineNameAt`: ends, whatever the directory holds, with its first unused name. */
  method UniqueName(taken: set<Name>, base: string) returns (target: Name, i: nat)
    ensures target == Numbered(base, i) && target !in taken
    ensures forall j | 0 <= j < i :: Numbered(base, j) in taken
  {
    target, i := base, 0;
    ghost var seen: set<Name> := {};
    while target in taken
      invariant target == Numbered(base, i)
      invariant forall j | 0 <= j < i :: Numbered(base, j) in taken
      invariant seen <= taken && forall x | x in seen :: exists j | 0 <= j < i :: x == Numbered(base, j)
      decreases taken - seen
    {
      if target in seen {
        var j :| 0 <= j < i && target == Numbered(base, j);
        NumberedInjective(base, i, j);
      }
      seen := seen + {target};
      i := i + 1;
      target := base + "-" + Decimal(i);
    }
  }

  /**
   The listing of a directory, as `copyDirectoryEntries` goes through it: fails exactly on other than ordinary trees.
   */
  method ListTree(n: Node) returns (ok: bool, items: seq<Item>)
    requires n.Dir?
    ensures ok <==> Ordinary(n)
    ensures ok ==> WellNamed(items) && NodeOf(Folder(items)) == Bare(n)
    decreases n
  {
    hide WellNamed, EntriesOf;
    items := [];
    NothingListed();
    var tmp, _ := UniqueName(n.ents.Keys, TMP_PREFIX);
    var todo := n.ents.Keys;
    while todo != {}
      invariant todo <= n.ents.Keys
      invariant WellNamed(items)
      invariant forall i | 0 <= i < |items| :: items[i].name in n.ents && items[i].name !in todo && items[i].tmp == tmp
      invariant EntriesOf(items) == map k | k in n.ents && k !in todo :: Bare(n.ents[k])
      invariant forall k | k in n.ents && k !in todo :: Ordinary(n.ents[k])
      decreases todo
    {
      var k :| k in todo;
      var tree;
      match n.ents[k] {
        case Special => return false, [];
        case File(data, _) => tree := Blob(data);
        case Dir(_, _) =>
          var fine, below := ListTree(n.ents[k]);
          if !fine { return false, []; }
          tree := Folder(below);
      }
      Prepended(items, Item(k, tmp, tree));
      assert EntriesOf([Item(k, tmp, tree)] + items) == EntriesOf(items)[k := Bare(n.ents[k])];
      items := [Item(k, tmp, tree)] + items;
      todo := todo - {k};
    }
    assert n.ents == map k | k in n.ents && k !in todo :: n.ents[k];
    return true, items;
  }

  lemma NothingListed()
    ensures WellNamed([]) && EntriesOf([]) == map[]
  {}

  lemma Prepended(items: seq<Item>, item: Item)
    requires WellNamed(items) && (item.tree.Folder? ==> WellNamed(item.tree.items)) && item.tmp != item.name
    requires forall i | 0 <= i < |items| ::
               items[i].name != item.name && items[i].tmp != item.name && items[i].name != item.tmp
    ensures WellNamed([item] + items)
    ensures EntriesOf([item] + items) == EntriesOf(items)[item.name := NodeOf(item.tree)]
  {
    var all := [item] + items;
    assert all[1..] == items;
  }
}
