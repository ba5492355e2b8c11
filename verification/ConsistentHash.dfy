/**
 * The consistent-hash ring: a map from positions to node names and a sorted list
 * of the same positions, searched by bisection.
 *
 * The hash (CRC-32 in the program) is a parameter. Nothing is assumed about it
 * beyond its range; where a result needs distinct nodes to have distinct
 * positions, that is a hypothesis about the finitely many names in play.
 */
module ConsistentHash {
  import opened Formatting

  type Position = p: int | 0 <= p < 0x1_0000_0000

  type Hash = string -> Position

  // ---------------------------------------------------------------- specification

  /** The key hashed for virtual node i, written "%s-v%d" in the program. */
  function VnodeKey(node: string, i: nat): string {
    node + "-v" + Decimal(i)
  }

  /** Different virtual nodes hash different keys, so only the hash can make positions collide. */
  lemma VnodeKeysDiffer(a: string, i: nat, b: string, j: nat)
    requires VnodeKey(a, i) == VnodeKey(b, j)
    ensures a == b && i == j
  {
    NumberedKeyInjective(a, i, b, j, "-v");
  }

  function Place(hash: Hash, node: string, i: nat): Position {
    hash(VnodeKey(node, i))
  }

  /** The positions of the first n virtual nodes of a node; n is an int, as in the program. */
  ghost function Positions(hash: Hash, node: string, n: int): set<Position> {
    if n <= 0 then {} else Positions(hash, node, n - 1) + {Place(hash, node, n - 1)}
  }

  lemma {:induction false} PositionsPlaced(hash: Hash, node: string, n: int, p: Position)
    ensures p in Positions(hash, node, n) <==> exists i: nat :: i < n && p == Place(hash, node, i)
  {
    if n > 0 {
      PositionsPlaced(hash, node, n - 1, p);
      assert p == Place(hash, node, n - 1) || (forall i: nat :: i < n && p == Place(hash, node, i) ==> i < n - 1);
    }
  }

  /** The position is the hash of the node's name, "-v" and a number from 0 to n - 1 in decimal. */
  ghost predicate IsVnode(hash: Hash, node: string, n: int, p: Position) {
    exists i: nat, number: string :: i < n && IsNumeral(number, i) && p == hash(node + "-v" + number)
  }

  /** Membership spelled out. */
  lemma PositionsAre(hash: Hash, node: string, n: int, p: Position)
    ensures p in Positions(hash, node, n) <==> IsVnode(hash, node, n, p)
  {
    PositionsPlaced(hash, node, n, p);
    if i: nat :| i < n && p == Place(hash, node, i) {
      DecimalIsNumeral(i);
    }
    if IsVnode(hash, node, n, p) {
      var i: nat, number: string :| i < n && IsNumeral(number, i) && p == hash(node + "-v" + number);
      NumeralIsDecimal(number, i);
      assert p == Place(hash, node, i);
    }
  }

  lemma AllPositionsAre(hash: Hash, node: string, n: int)
    ensures forall p :: p in Positions(hash, node, n) <==> IsVnode(hash, node, n, p)
  {
    forall p ensures p in Positions(hash, node, n) <==> IsVnode(hash, node, n, p) {
      PositionsAre(hash, node, n, p);
    }
  }

  /** Numbering starts at 0. */
  lemma FirstVnode(hash: Hash, node: string, n: int)
    requires n > 0
    ensures VnodeKey(node, 0) == node + "-v0"
    ensures hash(node + "-v0") in Positions(hash, node, n)
  {
    assert Decimal(0) == "0" && "-v" + "0" == "-v0";
    assert node + "-v" + "0" == node + "-v0";
    assert Place(hash, node, 0) == hash(node + "-v0");
    PositionsPlaced(hash, node, n, hash(node + "-v0"));
  }

  /** What Add does to the map: every position of the node is taken over, occupied or not. */
  ghost function AddNode(hash: Hash, n: int, m: map<Position, string>, node: string): map<Position, string> {
    m + map p | p in Positions(hash, node, n) :: node
  }

  /** What Remove does to the map: every position of the node is deleted, whoever owns it. */
  ghost function RemoveNode(hash: Hash, n: int, m: map<Position, string>, node: string): map<Position, string> {
    m - Positions(hash, node, n)
  }

  /** p is the first position at or clockwise after h, wrapping past the largest position. */
  ghost predicate IsSuccessor(ps: set<Position>, h: Position, p: Position) {
    && p in ps
    && (|| (h <= p && forall q :: q in ps && h <= q ==> p <= q)
        || ((forall q :: q in ps ==> q < h) && forall q :: q in ps ==> p <= q))
  }

  /** The owner of a point of the ring; "" on an empty ring. */
  ghost function Lookup(m: map<Position, string>, h: Position): string {
    if m == map[] then "" else m[Successor(m.Keys, h)]
  }

  ghost function Successor(ps: set<Position>, h: Position): (p: Position)
    requires ps != {}
    ensures IsSuccessor(ps, h, p)
  {
    SuccessorExists(ps, h);
    var p :| IsSuccessor(ps, h, p);
    p
  }

  lemma {:induction false} LeastExists(ps: set<Position>) returns (least: Position)
    requires ps != {}
    ensures least in ps && forall q :: q in ps ==> least <= q
    decreases |ps|
  {
    var p :| p in ps;
    least := p;
    if ps - {p} != {} {
      var rest := LeastExists(ps - {p});
      least := if rest < p then rest else p;
      forall q | q in ps ensures least <= q {
        assert q == p || q in ps - {p};
      }
    } else {
      forall q | q in ps ensures least <= q {
        assert q == p || q in ps - {p};
      }
    }
  }

  lemma SuccessorExists(ps: set<Position>, h: Position)
    requires ps != {}
    ensures exists p :: IsSuccessor(ps, h, p)
  {
    var above := set p | p in ps && h <= p;
    var p: Position;
    if above != {} {
      p := LeastExists(above);
      forall q | q in ps && h <= q ensures p <= q {
        assert q in above;
      }
    } else {
      p := LeastExists(ps);
      forall q | q in ps ensures q < h {
        assert q !in above;
      }
      assert forall q :: q in ps ==> q < h;
    }
    assert IsSuccessor(ps, h, p);
  }

  /** "First position clockwise" names one position only. */
  lemma SuccessorUnique(ps: set<Position>, h: Position, p: Position, q: Position)
    requires IsSuccessor(ps, h, p) && IsSuccessor(ps, h, q)
    ensures p == q
  {
  }

  // ---------------------------------------------------------------- the program

  predicate Ascending(s: seq<Position>) {
    forall i, j :: 0 <= i < j < |s| ==> s[i] <= s[j]
  }

  /** One step of the sort: h goes in after the last element that does not exceed it. */
  method Insert(s: seq<Position>, h: Position) returns (r: seq<Position>)
    requires Ascending(s)
    ensures Ascending(r)
    ensures multiset(r) == multiset(s) + multiset{h}
  {
    var j := |s|;
    while j > 0 && s[j - 1] > h
      invariant 0 <= j <= |s|
      invariant forall k :: j <= k < |s| ==> h < s[k]
    {
      j := j - 1;
    }
    r := s[..j] + [h] + s[j..];
    InsertAscends(s, j, h);
    InsertAdds(s, j, h);
  }

  lemma InsertAscends(s: seq<Position>, j: nat, h: Position)
    requires Ascending(s) && j <= |s|
    requires j > 0 ==> s[j - 1] <= h
    requires forall k :: j <= k < |s| ==> h < s[k]
    ensures Ascending(s[..j] + [h] + s[j..])
  {
    var r := s[..j] + [h] + s[j..];
    forall a, b | 0 <= a < b < |r| ensures r[a] <= r[b] {
      assert r[a] == if a < j then s[a] else if a == j then h else s[a - 1];
      assert r[b] == if b < j then s[b] else if b == j then h else s[b - 1];
    }
  }

  lemma InsertAdds(s: seq<Position>, j: nat, h: Position)
    requires j <= |s|
    ensures multiset(s[..j] + [h] + s[j..]) == multiset(s) + multiset{h}
  {
    assert s == s[..j] + s[j..];
  }

  /** Stands for sort.Slice with "<". */
  method SortPositions(s: seq<Position>) returns (r: seq<Position>)
    ensures Ascending(r)
    ensures multiset(r) == multiset(s)
  {
    r := [];
    for i := 0 to |s|
      invariant Ascending(r)
      invariant multiset(r) == multiset(s[..i])
    {
      r := Insert(r, s[i]);
      assert s[..i + 1] == s[..i] + [s[i]];
    }
    assert s[..|s|] == s;
  }

  /** sort.Search with the predicate sorted[i] >= h: the least such index, or the length. */
  method Search(s: seq<Position>, h: Position) returns (idx: nat)
    requires Ascending(s)
    ensures idx <= |s|
    ensures forall k :: 0 <= k < idx ==> s[k] < h
    ensures forall k :: idx <= k < |s| ==> h <= s[k]
  {
    var i, j := 0, |s|;
    while i < j
      invariant 0 <= i <= j <= |s|
      invariant forall k :: 0 <= k < i ==> s[k] < h
      invariant forall k :: j <= k < |s| ==> h <= s[k]
    {
      var mid := (i + j) / 2;
      if s[mid] < h {
        i := mid + 1;
      } else {
        j := mid;
      }
    }
    return i;
  }

  /** The loop over the map's keys, which the program visits in no particular order. */
  method Collect(keys: set<Position>) returns (s: seq<Position>)
    ensures forall p :: p in s <==> p in keys
  {
    s := [];
    var todo := keys;
    while todo != {}
      invariant todo <= keys
      invariant forall p :: p in s <==> p in keys - todo
      decreases |todo|
    {
      var h :| h in todo;
      s := s + [h];
      todo := todo - {h};
    }
  }

  class Ring {
    var nodes: map<Position, string>
    var sorted: seq<Position>
    const vnodes: int
    const hash: Hash

    /** The list is ascending and holds exactly the map's positions, possibly repeated. */
    ghost predicate Valid()
      reads this
    {
      && Ascending(sorted)
      && forall p :: p in sorted <==> p in nodes
    }

    constructor (vnodes: int, hash: Hash)
      ensures Valid() && nodes == map[]
      ensures this.vnodes == vnodes && this.hash == hash
    {
      this.vnodes := vnodes;
      this.hash := hash;
      nodes := map[];
      sorted := [];
    }

    method Add(node: string)
      requires Valid()
      modifies this
      ensures Valid()
      ensures nodes == AddNode(hash, vnodes, old(nodes), node)
      ensures forall p :: p in nodes <==> p in old(nodes) || IsVnode(hash, node, vnodes, p)
      ensures forall p :: p in nodes ==> nodes[p] == if IsVnode(hash, node, vnodes, p) then node else old(nodes)[p]
    {
      AllPositionsAre(hash, node, vnodes);
      AddSets(hash, vnodes, nodes, node);
      hide AddNode, IsVnode;
      AddNoPositions(hash, nodes, node);
      var i := 0;
      while i < vnodes
        invariant 0 <= i && (i <= vnodes || i == 0)
        invariant nodes == AddNode(hash, i, old(nodes), node)
        invariant forall p :: p in sorted <==> p in nodes
      {
        var h := hash(VnodeKey(node, i));
        AddNextPosition(hash, i, old(nodes), node);
        nodes := nodes[h := node];
        sorted := sorted + [h];
        i := i + 1;
      }
      var before := sorted;
      sorted := SortPositions(sorted);
      SameElements(before, sorted);
    }

    method Remove(node: string)
      requires Valid()
      modifies this
      ensures Valid()
      ensures nodes == RemoveNode(hash, vnodes, old(nodes), node)
      ensures forall p :: p in nodes <==> p in old(nodes) && !IsVnode(hash, node, vnodes, p)
      ensures forall p :: p in nodes ==> nodes[p] == old(nodes)[p]
    {
      AllPositionsAre(hash, node, vnodes);
      hide IsVnode;
      var i := 0;
      while i < vnodes
        invariant 0 <= i && (i <= vnodes || i == 0)
        invariant nodes == RemoveNode(hash, i, old(nodes), node)
      {
        var h := hash(VnodeKey(node, i));
        nodes := nodes - {h};
        i := i + 1;
      }
      sorted := Collect(nodes.Keys);
      var before := sorted;
      sorted := SortPositions(sorted);
      SameElements(before, sorted);
    }

    method Get(key: string) returns (node: string)
      requires Valid()
      ensures node == Lookup(nodes, hash(key))
    {
      if |sorted| == 0 {
        EmptyKeys(nodes, sorted);
        return "";
      }
      var h := hash(key);
      var idx := Search(sorted, h);
      if idx == |sorted| {
        idx := 0;
      }
      assert sorted[idx] in sorted;
      var p := sorted[idx];
      assert IsSuccessor(nodes.Keys, h, p) by {
        forall q | q in nodes.Keys ensures exists k :: 0 <= k < |sorted| && sorted[k] == q {
          assert q in sorted;
        }
      }
      SuccessorUnique(nodes.Keys, h, p, Successor(nodes.Keys, h));
      return nodes[p];
    }
  }

  lemma AddSets(hash: Hash, n: int, m: map<Position, string>, node: string)
    ensures var m' := AddNode(hash, n, m, node);
            && (forall p :: p in m' <==> p in m || p in Positions(hash, node, n))
            && forall p :: p in m' ==> m'[p] == if p in Positions(hash, node, n) then node else m[p]
  {
  }

  lemma AddNoPositions(hash: Hash, m: map<Position, string>, node: string)
    ensures forall n :: n <= 0 ==> AddNode(hash, n, m, node) == m
  {
  }

  lemma AddNextPosition(hash: Hash, i: nat, m: map<Position, string>, node: string)
    ensures AddNode(hash, i, m, node)[Place(hash, node, i) := node] == AddNode(hash, i + 1, m, node)
  {
  }

  lemma SameElements(s: seq<Position>, t: seq<Position>)
    requires multiset(s) == multiset(t)
    ensures forall p :: p in s <==> p in t
  {
    forall p ensures p in s <==> p in t {
      assert p in s <==> p in multiset(s);
      assert p in t <==> p in multiset(t);
    }
  }

  lemma EmptyKeys(m: map<Position, string>, s: seq<Position>)
    requires s == []
    requires forall p :: p in s <==> p in m
    ensures m == map[]
  {
  }
}
