/** The public arithmetic of a draw: the Merkle root that pins the eligible pool, and the
    rejection sampler that turns the revealed seed into a winner index. */
module DrawMath {
  import opened Hashing

  // ---------------------------------------------------------------- Merkle root

  /** The commitment as a tree: the recursive specification of the level-by-level loop. */
  datatype Tree = Leaf(id: string) | Node(left: Tree, right: Tree)

  function LeafText(id: string, drawCode: string): string {
    id + ":" + drawCode
  }

  function RootOf(h: HashFn, drawCode: string, t: Tree): Digest {
    match t
    case Leaf(id) => h(LeafText(id, drawCode))
    case Node(l, r) => h(RootOf(h, drawCode, l) + RootOf(h, drawCode, r))
  }

  /** Joins neighbours; a last node without a neighbour is joined with itself. */
  function PairUp<T>(level: seq<T>, join: (T, T) -> T): (next: seq<T>)
    ensures |next| == (|level| + 1) / 2
    ensures forall k :: 0 <= k < |next| ==>
              next[k] == join(level[2 * k], if 2 * k + 1 < |level| then level[2 * k + 1] else level[2 * k])
  {
    if |level| == 0 then []
    else if |level| == 1 then [join(level[0], level[0])]
    else [join(level[0], level[1])] + PairUp(level[2..], join)
  }

  function MakeNode(l: Tree, r: Tree): Tree {
    Node(l, r)
  }

  function Collapse(level: seq<Tree>): Tree
    requires |level| > 0
    decreases |level|
  {
    if |level| == 1 then level[0] else Collapse(PairUp(level, MakeNode))
  }

  function Leaves(ids: seq<string>): seq<Tree> {
    seq(|ids|, i requires 0 <= i < |ids| => Leaf(ids[i]))
  }

  function MerkleTree(ids: seq<string>): Tree
    requires |ids| > 0
  {
    Collapse(Leaves(ids))
  }

  function MerkleRoot(h: HashFn, ids: seq<string>, drawCode: string): Digest {
    if |ids| == 0 then h("EMPTY:" + drawCode) else RootOf(h, drawCode, MerkleTree(ids))
  }

  /** `level` holds the hashes of the trees of `trees`, in order. */
  ghost predicate HashesOf(h: HashFn, drawCode: string, level: seq<Digest>, trees: seq<Tree>) {
    && |level| == |trees|
    && forall k :: 0 <= k < |level| ==> level[k] == RootOf(h, drawCode, trees[k])
  }

  /** The digests of one level from those of the level below: neighbours in their order, and a last one
      without a neighbour with itself. */
  predicate NextLevel(h: HashFn, level: seq<Digest>, next: seq<Digest>) {
    && |next| == (|level| + 1) / 2
    && forall i :: 0 <= i < |next| ==>
         var left: string, right: string := level[2 * i], if 2 * i + 1 < |level| then level[2 * i + 1] else level[2 * i];
         next[i] == h(left + right)
  }

  /** Level upon level, from the hashed participants up to the root. */
  predicate AreLevels(h: HashFn, ids: seq<string>, drawCode: string, levels: seq<seq<Digest>>, root: Digest) {
    && |levels| > 0 && |levels[0]| == |ids|
    && (forall i :: 0 <= i < |ids| ==> levels[0][i] == h(ids[i] + ":" + drawCode))
    && (forall k :: 0 <= k < |levels| - 1 ==> |levels[k]| > 1 && NextLevel(h, levels[k], levels[k + 1]))
    && levels[|levels| - 1] == [root]
  }

  /** The root is what the levels lead up to, and it is the root of the tree. */
  method ComputeMerkleRoot(h: HashFn, ids: seq<string>, drawCode: string) returns (root: Digest, ghost levels: seq<seq<Digest>>)
    ensures root == MerkleRoot(h, ids, drawCode)
    ensures if ids == [] then root == h("EMPTY:" + drawCode) else AreLevels(h, ids, drawCode, levels, root)
  {
    if |ids| == 0 {
      return h("EMPTY:" + drawCode), [];
    }
    ghost var trees := Leaves(ids);
    var level := seq<Digest>(|ids|, i requires 0 <= i < |ids| => h(LeafText(ids[i], drawCode)));
    levels := [level];
    while |level| > 1
      invariant |level| > 0 && HashesOf(h, drawCode, level, trees)
      invariant Collapse(trees) == MerkleTree(ids)
      invariant levels != [] && levels[|levels| - 1] == level && |levels[0]| == |ids|
      invariant forall i :: 0 <= i < |ids| ==> levels[0][i] == h(ids[i] + ":" + drawCode)
      invariant forall k :: 0 <= k < |levels| - 1 ==> |levels[k]| > 1 && NextLevel(h, levels[k], levels[k + 1])
      decreases |level|
    {
      level := HashLevel(h, drawCode, level, trees);
      trees := PairUp(trees, MakeNode);
      levels := levels + [level];
    }
    root := level[0];
  }

  /** One pass of the loop: the next level up. */
  method HashLevel(h: HashFn, drawCode: string, level: seq<Digest>, ghost trees: seq<Tree>)
    returns (next: seq<Digest>)
    requires HashesOf(h, drawCode, level, trees)
    ensures NextLevel(h, level, next)
    ensures HashesOf(h, drawCode, next, PairUp(trees, MakeNode))
  {
    ghost var joined := PairUp(trees, MakeNode);
    next := [];
    for k := 0 to (|level| + 1) / 2
      invariant |next| == k && k <= |joined|
      invariant HashesOf(h, drawCode, next, joined[..k])
      invariant forall i :: 0 <= i < k ==>
                  var left: string, right: string := level[2 * i], if 2 * i + 1 < |level| then level[2 * i + 1] else level[2 * i];
         next[i] == h(left + right)
    {
      var i := 2 * k;
      var left: string := level[i];
      var right: string := if i + 1 < |level| then level[i + 1] else left;
      assert RootOf(h, drawCode, joined[k]) == h(left + right);
      next := next + [h(left + right)];
    }
    assert joined[..|joined|] == joined;
  }

  /** Every text hashed while computing a root. */
  function TreePreimages(h: HashFn, drawCode: string, t: Tree): set<string> {
    match t
    case Leaf(id) => {LeafText(id, drawCode)}
    case Node(l, r) =>
      {RootOf(h, drawCode, l) + RootOf(h, drawCode, r)}
      + TreePreimages(h, drawCode, l) + TreePreimages(h, drawCode, r)
  }

  function Preimages(h: HashFn, ids: seq<string>, drawCode: string): set<string> {
    if |ids| == 0 then {"EMPTY:" + drawCode} else TreePreimages(h, drawCode, MerkleTree(ids))
  }

  /** Leaf and node texts cannot be confused: only a leaf text has a colon. */
  lemma LeafIsNotNode(id: string, drawCode: string, l: Digest, r: Digest)
    ensures LeafText(id, drawCode) != l + r
  {
    assert LeafText(id, drawCode)[|id|] == ':';
    assert forall k :: 0 <= k < |l + r| ==> IsHex((l + r)[k]);
  }

  /** Equal roots come from equal trees, or from an explicit collision. */
  lemma {:induction false} RootBinds(h: HashFn, drawCode: string, s: Tree, t: Tree)
    requires RootOf(h, drawCode, s) == RootOf(h, drawCode, t)
    ensures s == t || Collision(h, TreePreimages(h, drawCode, s), TreePreimages(h, drawCode, t))
  {
    match (s, t) {
      case (Leaf(a), Leaf(b)) =>
        if LeafText(a, drawCode) == LeafText(b, drawCode) {
          assert |a| == |b|;
          assert a == LeafText(a, drawCode)[..|a|] == LeafText(b, drawCode)[..|b|] == b;
        } else {
          assert LeafText(a, drawCode) in TreePreimages(h, drawCode, s);
          assert LeafText(b, drawCode) in TreePreimages(h, drawCode, t);
        }
      case (Leaf(a), Node(l, r)) =>
        LeafIsNotNode(a, drawCode, RootOf(h, drawCode, l), RootOf(h, drawCode, r));
        assert RootOf(h, drawCode, l) + RootOf(h, drawCode, r) in TreePreimages(h, drawCode, t);
      case (Node(l, r), Leaf(b)) =>
        LeafIsNotNode(b, drawCode, RootOf(h, drawCode, l), RootOf(h, drawCode, r));
        assert RootOf(h, drawCode, l) + RootOf(h, drawCode, r) in TreePreimages(h, drawCode, s);
      case (Node(l, r), Node(l', r')) =>
        var x: string, y: string := RootOf(h, drawCode, l), RootOf(h, drawCode, r);
        var x': string, y': string := RootOf(h, drawCode, l'), RootOf(h, drawCode, r');
        assert x + y in TreePreimages(h, drawCode, s) && x' + y' in TreePreimages(h, drawCode, t);
        if x + y == x' + y' {
          assert x == (x + y)[..64] && x' == (x' + y')[..64];
          assert y == (x + y)[64..] && y' == (x' + y')[64..];
          RootBinds(h, drawCode, l, l');
          RootBinds(h, drawCode, r, r');
        }
    }
  }

  predicate Distinct<T(==)>(s: seq<T>) {
    forall i, j :: 0 <= i < j < |s| ==> s[i] != s[j]
  }

  function Height(t: Tree): nat {
    match t
    case Leaf(_) => 0
    case Node(l, _) => 1 + Height(l)
  }

  predicate SameHeight(level: seq<Tree>, k: nat) {
    forall i :: 0 <= i < |level| ==> Height(level[i]) == k
  }

  lemma {:induction false} CollapseHeight(level: seq<Tree>, k: nat)
    requires |level| > 0 && SameHeight(level, k)
    ensures Height(Collapse(level)) >= k
    ensures |level| > 1 ==> Height(Collapse(level)) > k
    decreases |level|
  {
    if |level| > 1 {
      CollapseHeight(PairUp(level, MakeNode), k + 1);
    }
  }

  /** Self-pairing of the last node is never ambiguous when the nodes are distinct. */
  lemma SelfPairedIffOdd(level: seq<Tree>)
    requires |level| > 0 && Distinct(level)
    ensures var next := PairUp(level, MakeNode); var last := next[|next| - 1];
            last.left == last.right <==> |level| % 2 == 1
  {
    var next := PairUp(level, MakeNode);
    var k := |next| - 1;
    assert next[k] == Node(level[2 * k], if 2 * k + 1 < |level| then level[2 * k + 1] else level[2 * k]);
  }

  lemma PairUpInjective(a: seq<Tree>, b: seq<Tree>)
    requires |a| > 0 && |b| > 0 && Distinct(a) && Distinct(b)
    requires PairUp(a, MakeNode) == PairUp(b, MakeNode)
    ensures a == b
  {
    var next := PairUp(a, MakeNode);
    SelfPairedIffOdd(a);
    SelfPairedIffOdd(b);
    assert |a| == |b|;
    forall i | 0 <= i < |a| ensures a[i] == b[i] {
      var k := i / 2;
      assert next[k].left == a[2 * k] == b[2 * k];
      assert i == 2 * k + 1 ==> next[k].right == a[i] == b[i];
    }
  }

  lemma {:induction false} CollapseInjective(a: seq<Tree>, b: seq<Tree>, k: nat)
    requires |a| > 0 && |b| > 0 && Distinct(a) && Distinct(b)
    requires SameHeight(a, k) && SameHeight(b, k)
    requires Collapse(a) == Collapse(b)
    ensures a == b
    decreases |a|
  {
    CollapseHeight(a, k);
    CollapseHeight(b, k);
    if |a| > 1 && |b| > 1 {
      CollapseInjective(PairUp(a, MakeNode), PairUp(b, MakeNode), k + 1);
      PairUpInjective(a, b);
    }
  }

  /** The published root binds the pool: two pools of distinct ids, of whatever sizes, that
      produce the same root are the same pool in the same order. */
  lemma MerkleBinding(h: HashFn, drawCode: string, a: seq<string>, b: seq<string>)
    requires |a| > 0 && |b| > 0 && Distinct(a) && Distinct(b)
    requires MerkleRoot(h, a, drawCode) == MerkleRoot(h, b, drawCode)
    ensures a == b || Collision(h, Preimages(h, a, drawCode), Preimages(h, b, drawCode))
  {
    RootBinds(h, drawCode, MerkleTree(a), MerkleTree(b));
    if MerkleTree(a) == MerkleTree(b) {
      var (x, y) := (Leaves(a), Leaves(b));
      assert forall i, j :: 0 <= i < j < |a| ==> x[i].id == a[i] && x[j].id == a[j];
      assert forall i, j :: 0 <= i < j < |b| ==> y[i].id == b[i] && y[j].id == b[j];
      CollapseInjective(x, y, 0);
      assert forall i :: 0 <= i < |a| ==> a[i] == x[i].id == y[i].id == b[i];
      assert |a| == |x| == |y| == |b|;
    }
  }

  // ---------------------------------------------------------------- pools with repeated ids

  lemma {:induction false} PairUpSameLength(a: seq<Tree>, b: seq<Tree>)
    requires |a| == |b| && PairUp(a, MakeNode) == PairUp(b, MakeNode)
    ensures a == b
    decreases |a|
  {
    if |a| > 0 {
      assert PairUp(a, MakeNode)[0] == PairUp(b, MakeNode)[0];
    }
    if |a| > 1 {
      assert PairUp(a, MakeNode)[1..] == PairUp(a[2..], MakeNode) && PairUp(b, MakeNode)[1..] == PairUp(b[2..], MakeNode);
      PairUpSameLength(a[2..], b[2..]);
      assert a == [a[0], a[1]] + a[2..] && b == [b[0], b[1]] + b[2..];
    }
  }

  lemma {:induction false} CollapseSameLength(a: seq<Tree>, b: seq<Tree>)
    requires |a| == |b| > 0 && Collapse(a) == Collapse(b)
    ensures a == b
    decreases |a|
  {
    if |a| > 1 {
      CollapseSameLength(PairUp(a, MakeNode), PairUp(b, MakeNode));
      PairUpSameLength(a, b);
    }
  }

  /** Together with its size a root binds any pool, whatever repeats in it. */
  lemma SizeAndRootBind(h: HashFn, drawCode: string, a: seq<string>, b: seq<string>)
    requires |a| == |b| > 0 && MerkleRoot(h, a, drawCode) == MerkleRoot(h, b, drawCode)
    ensures a == b || Collision(h, Preimages(h, a, drawCode), Preimages(h, b, drawCode))
  {
    RootBinds(h, drawCode, MerkleTree(a), MerkleTree(b));
    if MerkleTree(a) == MerkleTree(b) {
      CollapseSameLength(Leaves(a), Leaves(b));
      assert forall i :: 0 <= i < |a| ==> Leaves(a)[i].id == a[i] && Leaves(b)[i].id == b[i];
    }
  }

  function Append<T>(x: seq<T>, y: seq<T>): seq<T> {
    x + y
  }

  /** Blocks joined level by level, the last one with itself where it has no neighbour. */
  function Fill<T>(blocks: seq<seq<T>>): seq<T>
    requires |blocks| > 0
    decreases |blocks|
  {
    if |blocks| == 1 then blocks[0] else Fill(PairUp(blocks, Append))
  }

  function Singles(ids: seq<string>): seq<seq<string>> {
    seq(|ids|, i requires 0 <= i < |ids| => [ids[i]])
  }

  /** The pool filled up by the duplications of the level loop. */
  function Filled(ids: seq<string>): seq<string>
    requires |ids| > 0
  {
    Fill(Singles(ids))
  }

  /** The ids at the leaves of a tree, from left to right. */
  function Frontier(t: Tree): seq<string> {
    match t
    case Leaf(id) => [id]
    case Node(l, r) => Frontier(l) + Frontier(r)
  }

  function Frontiers(level: seq<Tree>): seq<seq<string>> {
    seq(|level|, i requires 0 <= i < |level| => Frontier(level[i]))
  }

  lemma {:induction false} CollapseFills(level: seq<Tree>)
    requires |level| > 0
    ensures Frontier(Collapse(level)) == Fill(Frontiers(level))
    decreases |level|
  {
    if |level| > 1 {
      var next := PairUp(level, MakeNode);
      CollapseFills(next);
      assert Frontiers(next) == PairUp(Frontiers(level), Append);
    }
  }

  lemma TreeFills(ids: seq<string>)
    requires |ids| > 0
    ensures Frontier(MerkleTree(ids)) == Filled(ids)
  {
    CollapseFills(Leaves(ids));
    assert Frontiers(Leaves(ids)) == Singles(ids);
  }

  /** Every leaf at the same depth. */
  predicate Perfect(t: Tree, height: nat) {
    match t
    case Leaf(_) => height == 0
    case Node(l, r) => height > 0 && Perfect(l, height - 1) && Perfect(r, height - 1)
  }

  lemma {:induction false} CollapsePerfect(level: seq<Tree>, k: nat) returns (height: nat)
    requires |level| > 0 && forall i :: 0 <= i < |level| ==> Perfect(level[i], k)
    ensures Perfect(Collapse(level), height)
    decreases |level|
  {
    height := k;
    if |level| > 1 {
      height := CollapsePerfect(PairUp(level, MakeNode), k + 1);
    }
  }

  function Power(k: nat): nat {
    if k == 0 then 1 else 2 * Power(k - 1)
  }

  lemma {:induction false} FrontierSize(t: Tree, k: nat)
    requires Perfect(t, k)
    ensures |Frontier(t)| == Power(k)
  {
    if k > 0 {
      FrontierSize(t.left, k - 1);
      FrontierSize(t.right, k - 1);
    }
  }

  lemma {:induction false} PowerInjective(j: nat, k: nat)
    requires Power(j) == Power(k)
    ensures j == k
  {
    if j > 0 && k > 0 {
      PowerInjective(j - 1, k - 1);
    }
  }

  lemma {:induction false} SameFrontier(s: Tree, t: Tree, k: nat)
    requires Perfect(s, k) && Perfect(t, k) && Frontier(s) == Frontier(t)
    ensures s == t
  {
    if k > 0 {
      FrontierSize(s.left, k - 1);
      FrontierSize(t.left, k - 1);
      var n := Power(k - 1);
      assert Frontier(s)[..n] == Frontier(s.left) && Frontier(t)[..n] == Frontier(t.left);
      assert Frontier(s)[n..] == Frontier(s.right) && Frontier(t)[n..] == Frontier(t.right);
      SameFrontier(s.left, t.left, k - 1);
      SameFrontier(s.right, t.right, k - 1);
    }
  }

  lemma SameTreeIff(a: seq<string>, b: seq<string>)
    requires |a| > 0 && |b| > 0
    ensures MerkleTree(a) == MerkleTree(b) <==> Filled(a) == Filled(b)
  {
    TreeFills(a);
    TreeFills(b);
    if Filled(a) == Filled(b) {
      var j := CollapsePerfect(Leaves(a), 0);
      var k := CollapsePerfect(Leaves(b), 0);
      FrontierSize(MerkleTree(a), j);
      FrontierSize(MerkleTree(b), k);
      PowerInjective(j, k);
      SameFrontier(MerkleTree(a), MerkleTree(b), k);
    }
  }

  /** Two pools have one root exactly when the duplications fill them up to the same list, short of a
      collision. */
  lemma RootsAgreeIff(h: HashFn, drawCode: string, a: seq<string>, b: seq<string>)
    requires |a| > 0 && |b| > 0
    ensures Filled(a) == Filled(b) ==> MerkleRoot(h, a, drawCode) == MerkleRoot(h, b, drawCode)
    ensures MerkleRoot(h, a, drawCode) == MerkleRoot(h, b, drawCode) ==>
              Filled(a) == Filled(b) || Collision(h, Preimages(h, a, drawCode), Preimages(h, b, drawCode))
  {
    SameTreeIff(a, b);
    if MerkleRoot(h, a, drawCode) == MerkleRoot(h, b, drawCode) {
      RootBinds(h, drawCode, MerkleTree(a), MerkleTree(b));
    }
  }

  function Flat<T>(blocks: seq<seq<T>>): seq<T> {
    if blocks == [] then [] else blocks[0] + Flat(blocks[1..])
  }

  lemma {:induction false} FlatGrows<T>(blocks: seq<seq<T>>)
    ensures Flat(blocks) <= Flat(PairUp(blocks, Append))
    decreases |blocks|
  {
    if |blocks| == 1 {
      assert PairUp(blocks, Append)[1..] == [] && blocks[1..] == [];
      assert Flat(blocks) == blocks[0];
    } else if |blocks| > 1 {
      var next := PairUp(blocks, Append);
      assert next[0] == blocks[0] + blocks[1] && next[1..] == PairUp(blocks[2..], Append) && blocks[1..][1..] == blocks[2..];
      FlatGrows(blocks[2..]);
      assert Flat(blocks) == blocks[0] + (blocks[1] + Flat(blocks[2..])) == next[0] + Flat(blocks[2..]);
    }
  }

  lemma {:induction false} FillExtends<T>(blocks: seq<seq<T>>)
    requires |blocks| > 0
    ensures Flat(blocks) <= Fill(blocks)
    decreases |blocks|
  {
    if |blocks| == 1 {
      assert blocks[1..] == [] && Flat(blocks) == blocks[0];
    } else {
      FlatGrows(blocks);
      FillExtends(PairUp(blocks, Append));
    }
  }

  lemma {:induction false} FlatSingles(ids: seq<string>)
    ensures Flat(Singles(ids)) == ids
  {
    if ids != [] {
      FlatSingles(ids[1..]);
      assert Singles(ids)[1..] == Singles(ids[1..]);
    }
  }

  lemma FilledExtends(ids: seq<string>)
    requires |ids| > 0
    ensures ids <= Filled(ids)
  {
    FillExtends(Singles(ids));
    FlatSingles(ids);
  }

  /** The part of a filled pool that is left when only its first `m` ids are known fills up to the
      same. */
  predicate RefillsFrom(a: seq<string>, m: nat)
    requires |a| > 0
  {
    0 < m <= |Filled(a)| && Filled(Filled(a)[..m]) == Filled(a)
  }

  predicate SameFill(a: seq<string>, b: seq<string>) {
    |a| > 0 && |b| > 0 && Filled(a) == Filled(b)
  }

  lemma PoolsAreRefills(a: seq<string>, b: seq<string>)
    requires SameFill(a, b)
    ensures |b| <= |Filled(a)| && b == Filled(a)[..|b|] && RefillsFrom(a, |b|)
  {
    FilledExtends(b);
  }

  lemma RefillsArePools(a: seq<string>, m: nat)
    requires |a| > 0 && RefillsFrom(a, m)
    ensures SameFill(a, Filled(a)[..m])
  {
  }

  /** Which pools a root binds without its size: exactly those whose filled list comes back from no
      other number of its first ids. There are finitely many to try. */
  lemma RootAloneBindsIff(a: seq<string>)
    requires |a| > 0
    ensures (forall b: seq<string> :: SameFill(a, b) ==> b == a) <==> (forall m: nat :: RefillsFrom(a, m) ==> m == |a|)
  {
    if forall b: seq<string> :: SameFill(a, b) ==> b == a {
      forall m: nat | RefillsFrom(a, m) ensures m == |a| {
        RefillsArePools(a, m);
      }
    }
    if forall m: nat :: RefillsFrom(a, m) ==> m == |a| {
      forall b: seq<string> | SameFill(a, b) ensures b == a {
        PoolsAreRefills(a, b);
        PoolsAreRefills(a, a);
      }
    }
  }

  lemma FilledThree(a: string, b: string, c: string)
    ensures Filled([a, b, c]) == [a, b, c, c] && Filled([a, b, c, c]) == [a, b, c, c]
  {
    assert Singles([a, b, c]) == [[a], [b], [c]] && Singles([a, b, c, c]) == [[a], [b], [c], [c]];
    assert [a] + [b] == [a, b] && [c] + [c] == [c, c] && [a, b] + [c, c] == [a, b, c, c];
    assert PairUp([[a], [b], [c]], Append) == [[a, b], [c, c]];
    assert PairUp([[a], [b], [c], [c]], Append) == [[a, b], [c, c]];
    FillTwo([a, b], [c, c]);
  }

  lemma FillTwo<T>(x: seq<T>, y: seq<T>)
    ensures Fill([x, y]) == x + y
  {
    assert PairUp([x, y], Append) == [x + y];
  }

  /** A pool of three and the same pool with its last id repeated have one root. */
  lemma RepeatedIdIsAmbiguous(h: HashFn, drawCode: string, a: string, b: string, c: string)
    ensures MerkleRoot(h, [a, b, c], drawCode) == MerkleRoot(h, [a, b, c, c], drawCode)
  {
    FilledThree(a, b, c);
    RootsAgreeIff(h, drawCode, [a, b, c], [a, b, c, c]);
  }

  /** Not every repeat is ambiguous: the pool of two equal ids is bound by its root. */
  lemma RepeatedPairIsBound(h: HashFn, drawCode: string, x: string, b: seq<string>)
    requires |b| > 0 && MerkleRoot(h, [x, x], drawCode) == MerkleRoot(h, b, drawCode)
    ensures b == [x, x] || Collision(h, Preimages(h, [x, x], drawCode), Preimages(h, b, drawCode))
  {
    FillTwo([x], [x]);
    assert Singles([x, x]) == [[x], [x]] && Singles([x]) == [[x]] && [x] + [x] == [x, x];
    assert [x, x][..1] == [x] && Filled([x]) == [x] && Filled([x, x]) == [x, x];
    assert forall m: nat :: RefillsFrom([x, x], m) ==> m == 2;
    RootAloneBindsIff([x, x]);
    RootsAgreeIff(h, drawCode, [x, x], b);
    assert Filled([x, x]) == Filled(b) ==> SameFill([x, x], b);
  }

  /** The root of no pool at all is confused with exactly one pool: the single id "EMPTY". */
  lemma EmptyRoot(h: HashFn, drawCode: string, b: seq<string>)
    requires |b| > 0
    ensures b == ["EMPTY"] ==> MerkleRoot(h, [], drawCode) == MerkleRoot(h, b, drawCode)
    ensures MerkleRoot(h, [], drawCode) == MerkleRoot(h, b, drawCode) ==>
              b == ["EMPTY"] || Collision(h, Preimages(h, [], drawCode), Preimages(h, b, drawCode))
  {
    assert LeafText("EMPTY", drawCode) == "EMPTY:" + drawCode;
    if b == ["EMPTY"] {
      assert Leaves(b) == [Leaf("EMPTY")];
    }
    if MerkleRoot(h, [], drawCode) == MerkleRoot(h, b, drawCode) {
      RootBinds(h, drawCode, Leaf("EMPTY"), MerkleTree(b));
      if MerkleTree(b) == Leaf("EMPTY") {
        assert SameHeight(Leaves(b), 0);
        CollapseHeight(Leaves(b), 0);
        assert Leaves(b)[0] == Leaf(b[0]);
      }
    }
  }

  // ---------------------------------------------------------------- rejection sampling

  const RANGE: nat := 0x1_0000_0000_0000_0000

  /** The first eight bytes of a 32-byte block, big-endian. */
  newtype Word64 = x: int | 0 <= x < 0x1_0000_0000_0000_0000

  /** HMAC-SHA256 (section 2 of RFC 2104) in counter mode, cut to one word per counter. */
  type BlockFn = (Digest, nat) -> Word64

  datatype IndexResult = Index(value: nat) | EmptyPool

  /** Words at or above the limit are rejected. */
  function Limit(n: int): nat
    requires n > 0
    ensures Limit(n) <= RANGE
  {
    RANGE / n * n
  }

  predicate Accepts(word: Word64, n: int)
    requires n > 0
  {
    word as int < Limit(n)
  }

  function WinnerKey(h: HashFn, seed: string, drawCode: string): Digest {
    h(seed + drawCode + ":WINNER_INDEX")
  }

  /** The first accepted counter at or after `from`, given that the one at `bound` is accepted. */
  function FirstAccepted(blocks: nat -> Word64, n: int, from: nat, bound: nat): (k: nat)
    requires n > 0 && from <= bound && Accepts(blocks(bound), n)
    ensures from <= k <= bound && Accepts(blocks(k), n)
    ensures forall j :: from <= j < k ==> !Accepts(blocks(j), n)
    decreases bound - from
  {
    if Accepts(blocks(from), n) then from else FirstAccepted(blocks, n, from + 1, bound)
  }

  function WinnerIndex(h: HashFn, hmac: BlockFn, seed: string, drawCode: string, n: int, bound: nat): (r: IndexResult)
    requires n > 1 ==> Accepts(hmac(WinnerKey(h, seed, drawCode), bound), n)
    ensures r.Index? <==> n > 0
    ensures r.Index? ==> r.value < n
  {
    if n <= 0 then EmptyPool
    else if n == 1 then Index(0)
    else
      var blocks := (c: nat) => hmac(WinnerKey(h, seed, drawCode), c);
      Index(blocks(FirstAccepted(blocks, n, 0, bound)) as int % n)
  }

  /** What the sampler has to return: the word at counter `k` is the first below the greatest multiple
      of `n` that fits into 64 bits, and its remainder is the index. */
  predicate Selects(h: HashFn, hmac: BlockFn, seed: string, drawCode: string, n: int, k: nat, r: IndexResult)
    requires n > 0
  {
    var key := h(seed + drawCode + ":WINNER_INDEX");
    var limit := 0x1_0000_0000_0000_0000 / n * n;
    && hmac(key, k) as int < limit && (forall j :: 0 <= j < k ==> hmac(key, j) as int >= limit)
    && r == Index(hmac(key, k) as int % n)
  }

  lemma WinnerIs(h: HashFn, hmac: BlockFn, seed: string, drawCode: string, n: int, bound: nat) returns (k: nat)
    requires n > 1 && Accepts(hmac(WinnerKey(h, seed, drawCode), bound), n)
    ensures k <= bound && Selects(h, hmac, seed, drawCode, n, k, WinnerIndex(h, hmac, seed, drawCode, n, bound))
  {
    var blocks := (c: nat) => hmac(WinnerKey(h, seed, drawCode), c);
    k := FirstAccepted(blocks, n, 0, bound);
    forall j | 0 <= j < k ensures hmac(h(seed + drawCode + ":WINNER_INDEX"), j) as int >= 0x1_0000_0000_0000_0000 / n * n {
      assert !Accepts(blocks(j), n);
    }
  }

  /** The sampling loop stops at the first accepted block, whichever accepted block is known to
      exist, and returns its remainder. */
  method DeterministicWinnerIndex(
    h: HashFn, hmac: BlockFn, seed: string, drawCode: string, n: int, ghost bound: nat)
    returns (r: IndexResult, ghost k: nat)
    requires n > 1 ==> Accepts(hmac(WinnerKey(h, seed, drawCode), bound), n)
    ensures r == WinnerIndex(h, hmac, seed, drawCode, n, bound)
    ensures n <= 0 ==> r == EmptyPool
    ensures n == 1 ==> r == Index(0)
    ensures n > 1 ==> k <= bound && Selects(h, hmac, seed, drawCode, n, k, r)
  {
    k := 0;
    if n <= 0 {
      return EmptyPool, 0;
    }
    if n == 1 {
      return Index(0), 0;
    }
    var key := WinnerKey(h, seed, drawCode);
    ghost var blocks := (c: nat) => hmac(key, c);
    var limit := RANGE / n * n;
    var counter := 0;
    while true
      invariant 0 <= counter <= bound
      invariant forall j :: 0 <= j < counter ==> hmac(key, j) as int >= limit
      invariant forall j :: 0 <= j < counter ==> !Accepts(blocks(j), n)
      decreases bound - counter
    {
      var x := hmac(key, counter) as int;
      if x < limit {
        FirstAcceptedIs(blocks, n, counter, bound);
        return Index(x % n), counter;
      }
      counter := counter + 1;
    }
  }

  lemma FirstAcceptedIs(blocks: nat -> Word64, n: int, k: nat, bound: nat)
    requires n > 0 && k <= bound && Accepts(blocks(bound), n) && Accepts(blocks(k), n)
    requires forall j :: 0 <= j < k ==> !Accepts(blocks(j), n)
    ensures FirstAccepted(blocks, n, 0, bound) == k
  {
  }

  /** The words below `bound` that leave remainder `r`. */
  function WordsWithResidue(bound: nat, n: int, r: int): set<int>
    requires n > 0
  {
    set x | 0 <= x < bound && x % n == r
  }

  lemma {:induction false} CountResidue(q: nat, n: int, r: int)
    requires 0 <= r < n
    ensures |WordsWithResidue(q * n, n, r)| == q
  {
    if q == 0 {
      assert WordsWithResidue(0, n, r) == {};
    } else {
      var (small, big) := (WordsWithResidue((q - 1) * n, n, r), WordsWithResidue(q * n, n, r));
      var top := (q - 1) * n + r;
      CountResidue(q - 1, n, r);
      OneMoreBlock(q - 1, n, r);
      assert big == small + {top};
    }
  }

  /** Each block of `n` words has one with the residue. */
  lemma OneMoreBlock(q: nat, n: int, r: int)
    requires 0 <= r < n
    ensures q * n <= q * n + r < (q + 1) * n
    ensures forall x :: x in WordsWithResidue((q + 1) * n, n, r) <==> x in WordsWithResidue(q * n, n, r) || x == q * n + r
  {
    assert (q + 1) * n == q * n + n;
    ModInBlock(q * n + r, q, n);
    forall x | q * n <= x < (q + 1) * n ensures x % n == r <==> x == q * n + r {
      ModInBlock(x, q, n);
    }
  }

  lemma ModInBlock(x: int, q: nat, n: int)
    requires n > 0 && q * n <= x < (q + 1) * n
    ensures x % n == x - q * n
  {
    var d := x / n - q;
    assert x == n * (x / n) + x % n;
    assert d * n == x - q * n - x % n;
    assert -n < d * n < n;
    assert d >= 1 ==> d * n >= n;
    assert d <= -1 ==> d * n <= -n;
  }

  /** Every word below `bound`. */
  function WordsBelow(bound: nat): set<int> {
    WordsWithResidue(bound, 1, 0)
  }

  /** The stream whose every block starts with the word `x`. */
  function Constant(x: Word64): BlockFn {
    (_, _) => x
  }

  /** With `x` as its first word the sampler stops at once and returns the index `r`. */
  predicate StopsAtOnce(h: HashFn, seed: string, drawCode: string, n: int, x: int, r: int)
    requires n > 0
  {
    && 0 <= x < 0x1_0000_0000_0000_0000 && r >= 0 && Accepts(x as Word64, n)
    && WinnerIndex(h, Constant(x as Word64), seed, drawCode, n, 0) == Index(r)
  }

  /** Only the first accepted word matters: whatever the later blocks are, a stream that starts with an
      accepted word gives the index of that word. */
  lemma FirstWordDecides(h: HashFn, hmac: BlockFn, seed: string, drawCode: string, n: int, bound: nat, r: nat)
    requires n > 0 && Accepts(hmac(WinnerKey(h, seed, drawCode), 0), n) && Accepts(hmac(WinnerKey(h, seed, drawCode), bound), n)
    ensures WinnerIndex(h, hmac, seed, drawCode, n, bound) == Index(r)
            <==> StopsAtOnce(h, seed, drawCode, n, hmac(WinnerKey(h, seed, drawCode), 0) as int, r)
  {
  }

  ghost function FirstWords(h: HashFn, seed: string, drawCode: string, n: int, r: int): set<int>
    requires n > 0
  {
    set x | 0 <= x < 0x1_0000_0000_0000_0000 && StopsAtOnce(h, seed, drawCode, n, x, r)
  }

  /** The sampler is exactly uniform: each index is returned at once for the same number of first words,
      and fewer than `n` of the 2^64 words are rejected. */
  lemma SamplerIsUniform(h: HashFn, seed: string, drawCode: string, n: int, r: int)
    requires 1 <= n <= 0x1_0000_0000_0000_0000 && 0 <= r < n
    ensures |FirstWords(h, seed, drawCode, n, r)| == 0x1_0000_0000_0000_0000 / n
    ensures |WordsBelow(RANGE) - WordsBelow(Limit(n))| == RANGE % n < n
    ensures WordsBelow(Limit(n)) != {}
  {
    forall x ensures x in FirstWords(h, seed, drawCode, n, r) <==> x in WordsWithResidue(Limit(n), n, r) {
      if n > 1 && 0 <= x < RANGE && Accepts(x as Word64, n) {
        var k := WinnerIs(h, Constant(x as Word64), seed, drawCode, n, 0);
      }
    }
    assert FirstWords(h, seed, drawCode, n, r) == WordsWithResidue(Limit(n), n, r);
    CountResidue(RANGE / n, n, r);
    CountResidue(RANGE, 1, 0);
    CountResidue(Limit(n), 1, 0);
    assert WordsBelow(Limit(n)) <= WordsBelow(RANGE);
    assert 0 in WordsBelow(Limit(n));
  }
}
