/**
 * Whole runs of the consistent-hash ring: any sequence of Add and Remove, with
 * repeats, starting from the empty ring.
 */
module RingRuns {
  import opened ConsistentHash

  datatype Op = Add(node: string) | Remove(node: string)

  ghost function Apply(hash: Hash, n: int, m: map<Position, string>, op: Op): map<Position, string> {
    match op
    case Add(node) => AddNode(hash, n, m, node)
    case Remove(node) => RemoveNode(hash, n, m, node)
  }

  ghost function Run(hash: Hash, n: int, ops: seq<Op>): map<Position, string> {
    if ops == [] then map[] else Apply(hash, n, Run(hash, n, ops[..|ops| - 1]), ops[|ops| - 1])
  }

  /** The nodes that are in: added, and not removed since. */
  ghost function Live(ops: seq<Op>): set<string> {
    if ops == [] then {} else
      var before := Live(ops[..|ops| - 1]);
      match ops[|ops| - 1]
      case Add(node) => before + {node}
      case Remove(node) => before - {node}
  }

  ghost function Names(ops: seq<Op>): set<string> {
    set op | op in ops :: op.node
  }

  /** No position belongs to two of the given nodes. */
  ghost predicate NoCollisions(hash: Hash, n: int, names: set<string>) {
    forall a, b :: a in names && b in names && a != b ==> Positions(hash, a, n) !! Positions(hash, b, n)
  }

  /** The node that the specification assigns to a point: owner of the first live position clockwise. */
  ghost predicate Owns(hash: Hash, n: int, live: set<string>, h: Position, node: string) {
    && node in live
    && exists p :: p in Positions(hash, node, n) && FirstLive(hash, n, live, h, p)
  }

  ghost predicate IsLive(hash: Hash, n: int, live: set<string>, p: Position) {
    exists node :: node in live && p in Positions(hash, node, n)
  }

  ghost predicate FirstLive(hash: Hash, n: int, live: set<string>, h: Position, p: Position) {
    && IsLive(hash, n, live, p)
    && (|| (h <= p && forall q: Position :: IsLive(hash, n, live, q) && h <= q ==> p <= q)
        || ((forall q: Position :: IsLive(hash, n, live, q) ==> q < h)
            && forall q: Position :: IsLive(hash, n, live, q) ==> p <= q))
  }

  /** Every position in a reachable ring is a virtual-node position of the node it is mapped to. */
  ghost predicate Placed(hash: Hash, n: int, m: map<Position, string>) {
    forall p :: p in m ==> p in Positions(hash, m[p], n)
  }

  /** The map is exactly the live nodes' positions, each under its own node. */
  ghost predicate IsNodeMap(hash: Hash, n: int, m: map<Position, string>, live: set<string>) {
    && (forall p :: p in m <==> IsLive(hash, n, live, p))
    && (forall p :: p in m ==> m[p] in live && p in Positions(hash, m[p], n))
  }

  // ---------------------------------------------------------------- invariants of runs

  lemma {:induction false} RunPlaced(hash: Hash, n: int, ops: seq<Op>)
    ensures Placed(hash, n, Run(hash, n, ops))
  {
    if ops != [] {
      RunPlaced(hash, n, ops[..|ops| - 1]);
    }
  }

  lemma {:induction false} LiveAreNamed(ops: seq<Op>)
    ensures Live(ops) <= Names(ops)
  {
    if ops != [] {
      LiveAreNamed(ops[..|ops| - 1]);
      assert ops[|ops| - 1] in ops;
    }
  }

  /** Without collisions the ring holds exactly the live nodes' positions, whatever the order of operations. */
  lemma {:induction false} RunIsNodeMap(hash: Hash, n: int, ops: seq<Op>)
    requires NoCollisions(hash, n, Names(ops))
    ensures IsNodeMap(hash, n, Run(hash, n, ops), Live(ops))
  {
    if ops != [] {
      var before, op := ops[..|ops| - 1], ops[|ops| - 1];
      assert Names(before) <= Names(ops);
      RunIsNodeMap(hash, n, before);
      LiveAreNamed(before);
      assert op in ops && op.node in Names(ops);
      match op
      case Add(node) => AddKeepsNodeMap(hash, n, Run(hash, n, before), Live(before), node);
      case Remove(node) => RemoveKeepsNodeMap(hash, n, Run(hash, n, before), Live(before), node);
    }
  }

  lemma AddKeepsNodeMap(hash: Hash, n: int, m: map<Position, string>, live: set<string>, node: string)
    requires IsNodeMap(hash, n, m, live)
    ensures IsNodeMap(hash, n, AddNode(hash, n, m, node), live + {node})
  {
    var m' := AddNode(hash, n, m, node);
    forall p ensures p in m' <==> IsLive(hash, n, live + {node}, p) {
      if p in m {
        assert m[p] in live + {node};
      }
      if p in Positions(hash, node, n) {
        assert node in live + {node};
      }
      if IsLive(hash, n, live + {node}, p) {
        var a :| a in live + {node} && p in Positions(hash, a, n);
        assert a == node || IsLive(hash, n, live, p);
      }
    }
  }

  lemma RemoveKeepsNodeMap(hash: Hash, n: int, m: map<Position, string>, live: set<string>, node: string)
    requires IsNodeMap(hash, n, m, live)
    requires NoCollisions(hash, n, live + {node})
    ensures IsNodeMap(hash, n, RemoveNode(hash, n, m, node), live - {node})
  {
    hide Positions;
    var m' := RemoveNode(hash, n, m, node);
    forall p ensures p in m' <==> IsLive(hash, n, live - {node}, p) {
      if p in m' {
        assert m[p] in live - {node};
      }
      if IsLive(hash, n, live - {node}, p) {
        var a :| a in live - {node} && p in Positions(hash, a, n);
        assert a in live + {node} && node in live + {node};
        assert IsLive(hash, n, live, p);
      }
    }
  }

  lemma NodeMapUnique(hash: Hash, n: int, a: map<Position, string>, b: map<Position, string>, live: set<string>)
    requires IsNodeMap(hash, n, a, live) && IsNodeMap(hash, n, b, live) && NoCollisions(hash, n, live)
    ensures a == b
  {
    assert forall p :: p in a <==> p in b;
    forall p | p in a ensures a[p] == b[p] {
      assert p in b;
      assert p in Positions(hash, a[p], n) && p in Positions(hash, b[p], n);
    }
  }

  /** The object goes through the specification's states. */
  method Execute(ops: seq<Op>, vnodes: int, hash: Hash) returns (ring: Ring)
    ensures fresh(ring) && ring.Valid()
    ensures ring.nodes == Run(hash, vnodes, ops) && ring.hash == hash && ring.vnodes == vnodes
  {
    ring := new Ring(vnodes, hash);
    for i := 0 to |ops|
      invariant ring.Valid() && ring.hash == hash && ring.vnodes == vnodes
      invariant ring.nodes == Run(hash, vnodes, ops[..i])
    {
      assert ops[..i + 1][..i] == ops[..i];
      match ops[i]
      case Add(node) => ring.Add(node);
      case Remove(node) => ring.Remove(node);
    }
    assert ops[..|ops|] == ops;
  }

  // ---------------------------------------------------------------- main results

  /** The ring after any run depends only on which nodes are in. */
  lemma OrderIrrelevant(hash: Hash, n: int, ops: seq<Op>, ops': seq<Op>)
    requires NoCollisions(hash, n, Names(ops)) && NoCollisions(hash, n, Names(ops'))
    requires Live(ops) == Live(ops')
    ensures Run(hash, n, ops) == Run(hash, n, ops')
    ensures forall h :: Lookup(Run(hash, n, ops), h) == Lookup(Run(hash, n, ops'), h)
  {
    RunIsNodeMap(hash, n, ops);
    RunIsNodeMap(hash, n, ops');
    LiveAreNamed(ops);
    NodeMapUnique(hash, n, Run(hash, n, ops), Run(hash, n, ops'), Live(ops));
  }

  /** Lookup answers node exactly when node owns the first live position clockwise. */
  lemma LookupIsOwner(hash: Hash, n: int, ops: seq<Op>, h: Position, node: string)
    requires NoCollisions(hash, n, Names(ops))
    requires exists p :: IsLive(hash, n, Live(ops), p)
    ensures Lookup(Run(hash, n, ops), h) == node <==> Owns(hash, n, Live(ops), h, node)
  {
    var m, live := Run(hash, n, ops), Live(ops);
    RunIsNodeMap(hash, n, ops);
    LiveAreNamed(ops);
    assert m != map[] by {
      var p :| IsLive(hash, n, live, p);
      assert p in m;
    }
    var s := Successor(m.Keys, h);
    assert FirstLive(hash, n, live, h, s);
    assert s in Positions(hash, m[s], n);
    if Owns(hash, n, live, h, node) {
      var p :| p in Positions(hash, node, n) && FirstLive(hash, n, live, h, p);
      assert IsSuccessor(m.Keys, h, p);
      SuccessorUnique(m.Keys, h, p, s);
      assert node in live && m[s] in live;
    }
  }

  /** With nobody in, or no virtual nodes, every lookup answers "". */
  lemma LookupEmpty(hash: Hash, n: int, ops: seq<Op>, h: Position)
    requires NoCollisions(hash, n, Names(ops))
    requires !exists p :: IsLive(hash, n, Live(ops), p)
    ensures Lookup(Run(hash, n, ops), h) == ""
  {
    RunIsNodeMap(hash, n, ops);
    assert forall p :: p !in Run(hash, n, ops);
  }

  /** Adding a node only steals: each point keeps its answer or goes to the new node. No hypothesis at all. */
  lemma AddOnlySteals(hash: Hash, n: int, m: map<Position, string>, node: string, h: Position)
    ensures var after := Lookup(AddNode(hash, n, m, node), h); after == Lookup(m, h) || after == node
    ensures Positions(hash, node, n) != {} ==>
              (Lookup(AddNode(hash, n, m, node), h) == node
               <==> (m != map[] && Lookup(m, h) == node)
                    || Successor(m.Keys + Positions(hash, node, n), h) in Positions(hash, node, n))
  {
    var m' := AddNode(hash, n, m, node);
    assert m'.Keys == m.Keys + Positions(hash, node, n);
    if m' == map[] {
      assert m.Keys == {};
    } else {
      var s := Successor(m'.Keys, h);
      if s !in Positions(hash, node, n) {
        assert s in m;
        assert IsSuccessor(m.Keys, h, s);
        SuccessorUnique(m.Keys, h, s, Successor(m.Keys, h));
      }
    }
  }

  /** Removing a node is complete: afterwards nothing maps to it. */
  lemma RemoveIsComplete(hash: Hash, n: int, ops: seq<Op>, node: string, h: Position)
    ensures var m := Run(hash, n, ops + [Remove(node)]);
            node !in m.Values && (m != map[] ==> Lookup(m, h) != node)
  {
    RunPlaced(hash, n, ops);
    assert (ops + [Remove(node)])[..|ops|] == ops;
  }

  /** Removing a node is minimal: a point moves only if its old position was one of the node's. */
  lemma RemoveMovesOnly(hash: Hash, n: int, m: map<Position, string>, node: string, h: Position)
    requires m != map[]
    requires Lookup(RemoveNode(hash, n, m, node), h) != Lookup(m, h)
    ensures Successor(m.Keys, h) in Positions(hash, node, n)
  {
    var m' := RemoveNode(hash, n, m, node);
    var s := Successor(m.Keys, h);
    if s !in Positions(hash, node, n) {
      assert s in m';
      assert IsSuccessor(m'.Keys, h, s);
      SuccessorUnique(m'.Keys, h, s, Successor(m'.Keys, h));
    }
  }

  /** Hence, without collisions, only the keys the node owned move. */
  lemma RemoveIsMinimal(hash: Hash, n: int, ops: seq<Op>, node: string, h: Position)
    requires NoCollisions(hash, n, Names(ops) + {node})
    requires Lookup(Run(hash, n, ops), h) != node
    ensures Lookup(Run(hash, n, ops + [Remove(node)]), h) == Lookup(Run(hash, n, ops), h)
  {
    var m := Run(hash, n, ops);
    assert (ops + [Remove(node)])[..|ops|] == ops;
    assert Run(hash, n, ops + [Remove(node)]) == RemoveNode(hash, n, m, node);
    assert forall a :: a in Names(ops) ==> a in Names(ops) + {node};
    RunIsNodeMap(hash, n, ops);
    LiveAreNamed(ops);
    if m != map[] {
      var s := Successor(m.Keys, h);
      assert m[s] in Names(ops) + {node} && s in Positions(hash, m[s], n);
      assert s !in Positions(hash, node, n);
      if Lookup(RemoveNode(hash, n, m, node), h) != Lookup(m, h) {
        RemoveMovesOnly(hash, n, m, node, h);
      }
    }
  }

  /** Remove undoes Add exactly when none of the node's positions was occupied. */
  lemma RemoveUndoesAdd(hash: Hash, n: int, m: map<Position, string>, node: string)
    ensures RemoveNode(hash, n, AddNode(hash, n, m, node), node) == m <==> m.Keys !! Positions(hash, node, n)
  {
    var back := RemoveNode(hash, n, AddNode(hash, n, m, node), node);
    assert back.Keys == m.Keys - Positions(hash, node, n);
    if m.Keys !! Positions(hash, node, n) {
      assert back.Keys == m.Keys;
      assert forall p :: p in m ==> back[p] == m[p];
    } else {
      var p :| p in m.Keys && p in Positions(hash, node, n);
      assert p !in back.Keys;
    }
  }

  /** So without collisions, adding an absent node and removing it again restores every lookup. */
  lemma AddRemoveRestores(hash: Hash, n: int, ops: seq<Op>, node: string, h: Position)
    requires NoCollisions(hash, n, Names(ops) + {node}) && node !in Live(ops)
    ensures Run(hash, n, ops + [Add(node), Remove(node)]) == Run(hash, n, ops)
    ensures Lookup(Run(hash, n, ops + [Add(node), Remove(node)]), h) == Lookup(Run(hash, n, ops), h)
  {
    var m := Run(hash, n, ops);
    var all := ops + [Add(node), Remove(node)];
    assert all[..|all| - 1] == ops + [Add(node)] && (ops + [Add(node)])[..|ops|] == ops;
    assert forall a :: a in Names(ops) ==> a in Names(ops) + {node};
    RunIsNodeMap(hash, n, ops);
    LiveAreNamed(ops);
    forall p | p in m ensures p !in Positions(hash, node, n) {
      assert m[p] in Names(ops) + {node};
    }
    RemoveUndoesAdd(hash, n, m, node);
  }

  // ---------------------------------------------------------------- no collisions, exactly when

  /** After every run over the names, the ring is what the specification says. */
  ghost predicate AlwaysNodeMap(hash: Hash, n: int, names: set<string>) {
    forall ops :: Names(ops) <= names ==> IsNodeMap(hash, n, Run(hash, n, ops), Live(ops))
  }

  /** After every run over the names, every lookup answers exactly the owners of its point. */
  ghost predicate AlwaysOwner(hash: Hash, n: int, names: set<string>) {
    forall ops, h: Position, node ::
      Names(ops) <= names && (exists p :: IsLive(hash, n, Live(ops), p)) ==>
        (Lookup(Run(hash, n, ops), h) == node <==> Owns(hash, n, Live(ops), h, node))
  }

  lemma OneMore(hash: Hash, n: int, ops: seq<Op>, op: Op)
    ensures Run(hash, n, ops + [op]) == Apply(hash, n, Run(hash, n, ops), op)
    ensures Live(ops + [op]) == if op.Add? then Live(ops) + {op.node} else Live(ops) - {op.node}
  {
    assert (ops + [op])[..|ops|] == ops;
  }

  lemma BothAdded(hash: Hash, n: int, a: string, b: string)
    ensures var ops := [Add(a), Add(b)];
            && Names(ops) == {a, b} && Live(ops) == {a, b}
            && Run(hash, n, ops) == AddNode(hash, n, AddNode(hash, n, map[], a), b)
  {
    assert [] + [Add(a)] == [Add(a)] && [Add(a)] + [Add(b)] == [Add(a), Add(b)];
    OneMore(hash, n, [], Add(a));
    OneMore(hash, n, [Add(a)], Add(b));
    assert [Add(a), Add(b)][0] == Add(a) && [Add(a), Add(b)][1] == Add(b);
  }

  /** Two nodes share a position: removing the second takes it away from the first, which is still in. */
  lemma CollisionLosesPosition(hash: Hash, n: int, a: string, b: string, p: Position)
    requires a != b && p in Positions(hash, a, n) && p in Positions(hash, b, n)
    ensures var ops := [Add(a), Add(b), Remove(b)];
            Names(ops) == {a, b} && Live(ops) == {a} && IsLive(hash, n, Live(ops), p) && p !in Run(hash, n, ops)
  {
    hide Live, Run, Positions;
    var two, three := [Add(a), Add(b)], [Add(a), Add(b), Remove(b)];
    BothAdded(hash, n, a, b);
    assert two + [Remove(b)] == three;
    OneMore(hash, n, two, Remove(b));
    assert three[0] == Add(a) && three[1] == Add(b);
    assert Live(three) == {a};
  }

  /** The node added last answers for a shared position, and the other, which owns it as well, does not. */
  lemma CollisionHidesOwner(hash: Hash, n: int, a: string, b: string, p: Position)
    requires a != b && p in Positions(hash, a, n) && p in Positions(hash, b, n)
    ensures var ops := [Add(a), Add(b)];
            && Names(ops) == {a, b} && IsLive(hash, n, Live(ops), p)
            && Owns(hash, n, Live(ops), p, a) && Lookup(Run(hash, n, ops), p) == b
  {
    hide Live, Run, Positions;
    BothAdded(hash, n, a, b);
    var m := Run(hash, n, [Add(a), Add(b)]);
    assert p in m && m[p] == b;
    assert IsSuccessor(m.Keys, p, p);
    SuccessorUnique(m.Keys, p, p, Successor(m.Keys, p));
    assert IsLive(hash, n, {a, b}, p);
    assert FirstLive(hash, n, {a, b}, p, p);
  }

  /** The ring is the live nodes' positions after every run exactly when no two of the names collide. */
  lemma NodeMapIff(hash: Hash, n: int, names: set<string>)
    ensures AlwaysNodeMap(hash, n, names) <==> NoCollisions(hash, n, names)
  {
    if NoCollisions(hash, n, names) {
      forall ops | Names(ops) <= names ensures IsNodeMap(hash, n, Run(hash, n, ops), Live(ops)) {
        RunIsNodeMap(hash, n, ops);
      }
    } else {
      var a, b :| a in names && b in names && a != b && !(Positions(hash, a, n) !! Positions(hash, b, n));
      var p :| p in Positions(hash, a, n) && p in Positions(hash, b, n);
      CollisionLosesPosition(hash, n, a, b, p);
    }
  }

  /** Lookups answer the owners after every run exactly when no two of the names collide. */
  lemma OwnerIff(hash: Hash, n: int, names: set<string>)
    ensures AlwaysOwner(hash, n, names) <==> NoCollisions(hash, n, names)
  {
    if NoCollisions(hash, n, names) {
      forall ops, h: Position, node | Names(ops) <= names && (exists p :: IsLive(hash, n, Live(ops), p))
        ensures Lookup(Run(hash, n, ops), h) == node <==> Owns(hash, n, Live(ops), h, node)
      {
        LookupIsOwner(hash, n, ops, h, node);
      }
    } else {
      var a, b :| a in names && b in names && a != b && !(Positions(hash, a, n) !! Positions(hash, b, n));
      var p :| p in Positions(hash, a, n) && p in Positions(hash, b, n);
      CollisionHidesOwner(hash, n, a, b, p);
    }
  }
}
