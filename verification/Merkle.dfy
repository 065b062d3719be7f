/** The RFC 6962 Merkle tree (section 2.1) and its audit paths (section 2.1.1).

    SHA-256 is not assumed injective. A binding theorem says "the conclusion holds, or this pair of
    byte strings collides", and the pair is computed by a function from the data of the theorem. */
module Merkle {
  import opened ByteStrings

  const LEAF_PREFIX: Bytes := [0]
  const NODE_PREFIX: Bytes := [1]

  function LeafHash(H: Hash, leaf: string): Digest {
    H(LEAF_PREFIX + Utf8(leaf))
  }

  function Node(H: Hash, left: Bytes, right: Bytes): Digest {
    H(NODE_PREFIX + left + right)
  }

  function LeafHashes(H: Hash, leaves: seq<string>): (hs: seq<Bytes>)
    ensures |hs| == |leaves|
    ensures forall i :: 0 <= i < |leaves| ==> hs[i] == LeafHash(H, leaves[i])
  {
    seq(|leaves|, i requires 0 <= i < |leaves| => LeafHash(H, leaves[i]))
  }

  // ------------------------------------------------------ where a tree splits

  ghost predicate IsPow2(k: nat) {
    k == 1 || (k > 1 && k % 2 == 0 && IsPow2(k / 2))
  }

  /** The largest power of two strictly below `n`. */
  function Split(n: nat): (k: nat)
    requires n >= 2
    ensures 1 <= k < n <= 2 * k
  {
    if n == 2 then 1 else 2 * Split((n + 1) / 2)
  }

  lemma {:induction false} SplitIsPow2(n: nat)
    requires n >= 2
    ensures IsPow2(Split(n))
  {
    if n > 2 {
      SplitIsPow2((n + 1) / 2);
      assert Split(n) / 2 == Split((n + 1) / 2);
    }
  }

  lemma {:induction false} SplitIsUnique(k: nat, j: nat, n: nat)
    requires IsPow2(k) && k < n <= 2 * k
    requires IsPow2(j) && j < n <= 2 * j
    ensures k == j
  {
    if n > 2 {
      SplitIsUnique(k / 2, j / 2, (n + 1) / 2);
    }
  }

  /** The doubling loop of the source. */
  method FindSplit(n: nat) returns (k: nat)
    requires n >= 2
    ensures IsPow2(k) && k < n <= 2 * k
    ensures k == Split(n)
  {
    k := 1;
    while k * 2 < n
      invariant IsPow2(k) && k < n
    {
      k := k * 2;
    }
    SplitIsPow2(n);
    SplitIsUnique(k, Split(n), n);
  }

  // ------------------------------------------------------------------- roots

  /** The Merkle tree hash over hashed leaves. */
  function Root(H: Hash, hashes: seq<Bytes>): Bytes
    decreases |hashes|
  {
    if hashes == [] then H([])
    else if |hashes| == 1 then hashes[0]
    else
      var k := Split(|hashes|);
      Node(H, Root(H, hashes[..k]), Root(H, hashes[k..]))
  }

  method ComputeRoot(H: Hash, hashes: seq<Bytes>) returns (root: Bytes)
    ensures root == Root(H, hashes)
    decreases |hashes|
  {
    hide Split;
    if hashes == [] {
      return H([]);
    }
    if |hashes| == 1 {
      return hashes[0];
    }
    var k := FindSplit(|hashes|);
    var left := ComputeRoot(H, hashes[..k]);
    var right := ComputeRoot(H, hashes[k..]);
    return Node(H, left, right);
  }

  function Tree(H: Hash, leaves: seq<string>): Bytes {
    Root(H, LeafHashes(H, leaves))
  }

  function MerkleRoot(H: Hash, leaves: seq<string>): string {
    "sha256:" + ToHex(Tree(H, leaves))
  }

  /** The byte string whose hash is the root of `leaves`. */
  function Preimage(H: Hash, leaves: seq<string>): Bytes {
    if leaves == [] then []
    else if |leaves| == 1 then LEAF_PREFIX + Utf8(leaves[0])
    else
      var k := Split(|leaves|);
      NODE_PREFIX + Tree(H, leaves[..k]) + Tree(H, leaves[k..])
  }

  lemma TreeHashesPreimage(H: Hash, leaves: seq<string>)
    ensures Tree(H, leaves) == H(Preimage(H, leaves))
  {
    if |leaves| >= 2 {
      var k := Split(|leaves|);
      assert LeafHashes(H, leaves)[..k] == LeafHashes(H, leaves[..k]);
      assert LeafHashes(H, leaves)[k..] == LeafHashes(H, leaves[k..]);
    }
  }

  /** The domain separation: empty input, a leaf and a node are never the same bytes. */
  lemma PreimageKind(H: Hash, leaves: seq<string>)
    ensures Preimage(H, leaves) == [] <==> leaves == []
    ensures leaves != [] ==> Preimage(H, leaves)[0] == if |leaves| == 1 then 0 else 1
  {
  }

  /** Walk two trees with equal roots down to the first place where equal hashes come from
      different bytes. */
  function RootClash(H: Hash, xs: seq<string>, ys: seq<string>): Pair
    decreases |xs|
  {
    if Preimage(H, xs) != Preimage(H, ys) || |xs| < 2 || |ys| < 2 then
      Pair(Preimage(H, xs), Preimage(H, ys))
    else
      var k, j := Split(|xs|), Split(|ys|);
      if xs[..k] != ys[..j] then RootClash(H, xs[..k], ys[..j]) else RootClash(H, xs[k..], ys[j..])
  }

  lemma SplitBytes(a: Bytes, b: Bytes, c: Bytes, d: Bytes)
    requires NODE_PREFIX + a + b == NODE_PREFIX + c + d && |a| == |c|
    ensures a == c && b == d
  {
    assert a == (NODE_PREFIX + a + b)[1..1 + |a|];
    assert c == (NODE_PREFIX + c + d)[1..1 + |c|];
    assert b == (NODE_PREFIX + a + b)[1 + |a|..];
    assert d == (NODE_PREFIX + c + d)[1 + |c|..];
  }

  lemma NodesAgree(H: Hash, xs: seq<string>, ys: seq<string>)
    requires |xs| >= 2 && |ys| >= 2 && Preimage(H, xs) == Preimage(H, ys)
    ensures var k, j := Split(|xs|), Split(|ys|);
            Tree(H, xs[..k]) == Tree(H, ys[..j]) && Tree(H, xs[k..]) == Tree(H, ys[j..])
  {
    hide Split;
    var k, j := Split(|xs|), Split(|ys|);
    TreeHashesPreimage(H, xs[..k]);
    TreeHashesPreimage(H, ys[..j]);
    SplitBytes(Tree(H, xs[..k]), Tree(H, xs[k..]), Tree(H, ys[..j]), Tree(H, ys[j..]));
  }

  ghost predicate Bound(H: Hash, xs: seq<string>, ys: seq<string>) {
    xs == ys || Collides(H, RootClash(H, xs, ys))
  }

  lemma BoundAbove(H: Hash, xs: seq<string>, ys: seq<string>)
    requires |xs| >= 2 && |ys| >= 2 && Preimage(H, xs) == Preimage(H, ys)
    requires var k, j := Split(|xs|), Split(|ys|);
             Bound(H, xs[..k], ys[..j]) && Bound(H, xs[k..], ys[j..])
    ensures Bound(H, xs, ys)
  {
    hide Split, Preimage;
    var k, j := Split(|xs|), Split(|ys|);
    assert xs == xs[..k] + xs[k..] && ys == ys[..j] + ys[j..];
  }

  /** A root binds the whole list of leaves, whatever its length. */
  lemma {:induction false} RootBindsLeaves(H: Hash, xs: seq<string>, ys: seq<string>)
    requires Tree(H, xs) == Tree(H, ys)
    ensures xs == ys || Collides(H, RootClash(H, xs, ys))
    decreases |xs|
  {
    hide Split, Tree, Utf8;
    TreeHashesPreimage(H, xs);
    TreeHashesPreimage(H, ys);
    PreimageKind(H, xs);
    PreimageKind(H, ys);
    var p, q := Preimage(H, xs), Preimage(H, ys);
    if p == q && |xs| == 1 {
      assert Utf8(xs[0]) == p[1..] && Utf8(ys[0]) == q[1..];
      Utf8Injective(xs[0], ys[0]);
    } else if p == q && |xs| >= 2 {
      NodesAgree(H, xs, ys);
      RootBindsLeaves(H, xs[..Split(|xs|)], ys[..Split(|ys|)]);
      RootBindsLeaves(H, xs[Split(|xs|)..], ys[Split(|ys|)..]);
      BoundAbove(H, xs, ys);
    }
  }

  lemma MerkleRootBindsLeaves(H: Hash, xs: seq<string>, ys: seq<string>)
    requires MerkleRoot(H, xs) == MerkleRoot(H, ys)
    ensures xs == ys || Collides(H, RootClash(H, xs, ys))
  {
    var p := "sha256:";
    assert MerkleRoot(H, xs)[|p|..] == ToHex(Tree(H, xs));
    assert MerkleRoot(H, ys)[|p|..] == ToHex(Tree(H, ys));
    HexRoundTrip(Tree(H, xs));
    HexRoundTrip(Tree(H, ys));
    RootBindsLeaves(H, xs, ys);
  }

  // ------------------------------------------------------------- audit paths

  /** The audit path of leaf `i`, bottom-up. */
  function Path(H: Hash, hashes: seq<Bytes>, i: nat): seq<Bytes>
    requires i < |hashes|
    decreases |hashes|
  {
    if |hashes| == 1 then []
    else
      var k := Split(|hashes|);
      if i < k then Path(H, hashes[..k], i) + [Root(H, hashes[k..])]
      else Path(H, hashes[k..], i - k) + [Root(H, hashes[..k])]
  }

  method ComputePath(H: Hash, hashes: seq<Bytes>, i: nat) returns (path: seq<Bytes>)
    requires i < |hashes|
    ensures path == Path(H, hashes, i)
    decreases |hashes|
  {
    hide Split;
    if |hashes| == 1 {
      return [];
    }
    var k := FindSplit(|hashes|);
    if i < k {
      path := ComputePath(H, hashes[..k], i);
      var sibling := ComputeRoot(H, hashes[k..]);
      path := path + [sibling];
    } else {
      path := ComputePath(H, hashes[k..], i - k);
      var sibling := ComputeRoot(H, hashes[..k]);
      path := path + [sibling];
    }
  }

  function ToHexAll(bs: seq<Bytes>): (ss: seq<string>)
    ensures |ss| == |bs|
  {
    if bs == [] then [] else [ToHex(bs[0])] + ToHexAll(bs[1..])
  }

  function FromHexAll(ss: seq<string>): Option<seq<Bytes>> {
    if ss == [] then Some([])
    else
      var b :- FromHex(ss[0]);
      var bs :- FromHexAll(ss[1..]);
      Some([b] + bs)
  }

  lemma {:induction false} HexAllRoundTrip(bs: seq<Bytes>)
    ensures FromHexAll(ToHexAll(bs)) == Some(bs)
  {
    if bs != [] {
      HexRoundTrip(bs[0]);
      HexAllRoundTrip(bs[1..]);
      assert ToHexAll(bs)[1..] == ToHexAll(bs[1..]);
      assert bs == [bs[0]] + bs[1..];
    }
  }

  /** `inclusion_proof`; `None` is `IndexError`. */
  function InclusionProof(H: Hash, leaves: seq<string>, index: int): Option<seq<string>> {
    if 0 <= index < |leaves| then Some(ToHexAll(Path(H, LeafHashes(H, leaves), index))) else None
  }

  /** Recompute the root from an audit path; the siblings may have any length. */
  function Climb(H: Hash, node: Bytes, index: nat, size: nat, proof: seq<Bytes>): Option<Bytes>
    requires index < size
    decreases size
  {
    if size == 1 then if proof == [] then Some(node) else None
    else if proof == [] then None
    else
      var k := Split(size);
      var sibling := proof[|proof| - 1];
      var below := proof[..|proof| - 1];
      if index < k then
        var sub :- Climb(H, node, index, k, below);
        Some(Node(H, sub, sibling))
      else
        var sub :- Climb(H, node, index - k, size - k, below);
        Some(Node(H, sibling, sub))
  }

  method ComputeClimb(H: Hash, node: Bytes, index: nat, size: nat, proof: seq<Bytes>)
    returns (root: Option<Bytes>)
    requires index < size
    ensures root == Climb(H, node, index, size, proof)
    decreases size
  {
    hide Split;
    if size == 1 {
      return if proof == [] then Some(node) else None;
    }
    if proof == [] {
      return None;
    }
    var k := FindSplit(size);
    var sibling := proof[|proof| - 1];
    if index < k {
      var sub := ComputeClimb(H, node, index, k, proof[..|proof| - 1]);
      return if sub.Some? then Some(Node(H, sub.value, sibling)) else None;
    }
    var sub := ComputeClimb(H, node, index - k, size - k, proof[..|proof| - 1]);
    return if sub.Some? then Some(Node(H, sibling, sub.value)) else None;
  }

  function RemovePrefix(s: string, p: string): string {
    if p <= s then s[|p|..] else s
  }

  /** `verify_inclusion`. The outer `None` is the `ValueError` of `bytes.fromhex`: the proof is
      decoded before the path is climbed, the root only when the climb succeeds. */
  function VerifyInclusion(H: Hash, leaf: string, index: int, size: int, proof: seq<string>, root: string): Option<bool> {
    if !(0 <= index < size) then Some(false)
    else
      var siblings :- FromHexAll(proof);
      match Climb(H, LeafHash(H, leaf), index, size, siblings)
      case None => Some(false)
      case Some(computed) =>
        var expected :- FromHex(RemovePrefix(root, "sha256:"));
        Some(computed == expected)
  }

  // ------------------------------------------------- soundness of audit paths

  /** The climb through the top level: the subtree's hash, and the bytes hashed at the top. */
  function Below(H: Hash, leaf: string, index: nat, size: nat, proof: seq<Bytes>): Option<Bytes>
    requires index < size && size >= 2 && proof != []
  {
    var k, below := Split(size), proof[..|proof| - 1];
    if index < k then Climb(H, LeafHash(H, leaf), index, k, below)
    else Climb(H, LeafHash(H, leaf), index - k, size - k, below)
  }

  function Mine(index: nat, size: nat, proof: seq<Bytes>, sub: Bytes): Bytes
    requires size >= 2 && proof != []
  {
    var sibling := proof[|proof| - 1];
    if index < Split(size) then NODE_PREFIX + sub + sibling else NODE_PREFIX + sibling + sub
  }

  /** The pair exposed by a path that climbs to the root of `leaves` without standing for one of
      them: the first level where the climb and the tree hash different bytes. */
  function InclusionClash(H: Hash, leaf: string, index: nat, size: nat, proof: seq<Bytes>, leaves: seq<string>): Pair
    requires index < size
    decreases size
  {
    var pre := Preimage(H, leaves);
    if size == 1 || proof == [] then Pair(LEAF_PREFIX + Utf8(leaf), pre)
    else
      var k, below := Split(size), proof[..|proof| - 1];
      var sub := Below(H, leaf, index, size, proof);
      if sub.None? then Pair([], [])
      else
        var mine := Mine(index, size, proof, sub.value);
        if mine != pre || |leaves| < 2 then Pair(mine, pre)
        else if index < k then InclusionClash(H, leaf, index, k, below, leaves[..Split(|leaves|)])
        else InclusionClash(H, leaf, index - k, size - k, below, leaves[Split(|leaves|)..])
  }

  lemma ClimbIsDigest(H: Hash, leaf: string, index: nat, size: nat, proof: seq<Bytes>)
    requires index < size
    ensures var r := Climb(H, LeafHash(H, leaf), index, size, proof); r.Some? ==> |r.value| == 32
    decreases size
  {
  }

  /** What an accepted path proves against `leaves`: the leaf occurs, and when the claimed size is
      the true one it occurs at the claimed index with the honest path. */
  ghost predicate Included(H: Hash, leaf: string, index: nat, size: nat, proof: seq<Bytes>, leaves: seq<string>) {
    && leaf in leaves
    && (size == |leaves| && index < size ==>
          leaf == leaves[index] && proof == Path(H, LeafHashes(H, leaves), index))
  }

  ghost predicate Sound(H: Hash, leaf: string, index: nat, size: nat, proof: seq<Bytes>, leaves: seq<string>)
    requires index < size
  {
    Included(H, leaf, index, size, proof, leaves)
    || Collides(H, InclusionClash(H, leaf, index, size, proof, leaves))
  }

  lemma SoundAtLeaf(H: Hash, leaf: string, leaves: seq<string>)
    requires LeafHash(H, leaf) == Tree(H, leaves)
    ensures Sound(H, leaf, 0, 1, [], leaves)
  {
    TreeHashesPreimage(H, leaves);
    PreimageKind(H, leaves);
    var mine, pre := LEAF_PREFIX + Utf8(leaf), Preimage(H, leaves);
    if mine == pre {
      assert mine[0] == 0 && Utf8(leaf) == mine[1..] && Utf8(leaves[0]) == pre[1..];
      Utf8Injective(leaf, leaves[0]);
    }
  }

  lemma SoundHere(H: Hash, leaf: string, index: nat, size: nat, proof: seq<Bytes>, leaves: seq<string>, sub: Bytes)
    requires index < size && size >= 2 && proof != []
    requires Below(H, leaf, index, size, proof) == Some(sub)
    requires H(Mine(index, size, proof, sub)) == Tree(H, leaves)
    requires Mine(index, size, proof, sub) != Preimage(H, leaves)
    ensures Sound(H, leaf, index, size, proof, leaves)
  {
    hide Split, Tree, Utf8, Climb, Preimage, Included;
    TreeHashesPreimage(H, leaves);
  }

  lemma {:induction false} ClimbIsSound(H: Hash, leaf: string, index: nat, size: nat, proof: seq<Bytes>, leaves: seq<string>)
    requires index < size
    requires Climb(H, LeafHash(H, leaf), index, size, proof) == Some(Tree(H, leaves))
    ensures Sound(H, leaf, index, size, proof, leaves)
    decreases size
  {
    hide Split, Tree, Utf8, Sound, Preimage;
    if size == 1 {
      SoundAtLeaf(H, leaf, leaves);
    } else {
      var k, below := Split(size), proof[..|proof| - 1];
      var left := index < k;
      var i, m := if left then index else index - k, if left then k else size - k;
      var sub := Below(H, leaf, index, size, proof).value;
      var mine := Mine(index, size, proof, sub);
      if mine != Preimage(H, leaves) {
        SoundHere(H, leaf, index, size, proof, leaves, sub);
      } else {
        ClimbIsDigest(H, leaf, i, m, below);
        assert mine[0] == 1;
        PreimageKind(H, leaves);
        ClimbStep(H, leaf, index, size, proof, leaves, sub);
        var j := Split(|leaves|);
        ClimbIsSound(H, leaf, i, m, below, if left then leaves[..j] else leaves[j..]);
        SoundAbove(H, leaf, index, size, proof, leaves, sub);
      }
    }
  }

  lemma SoundAbove(H: Hash, leaf: string, index: nat, size: nat, proof: seq<Bytes>, leaves: seq<string>, sub: Bytes)
    requires index < size && size >= 2 && proof != [] && |leaves| >= 2
    requires Below(H, leaf, index, size, proof) == Some(sub)
    requires Mine(index, size, proof, sub) == Preimage(H, leaves)
    requires var k, j, below, sibling := Split(size), Split(|leaves|), proof[..|proof| - 1], proof[|proof| - 1];
             if index < k then
               sibling == Tree(H, leaves[j..]) && Sound(H, leaf, index, k, below, leaves[..j])
             else
               sibling == Tree(H, leaves[..j]) && Sound(H, leaf, index - k, size - k, below, leaves[j..])
    ensures Sound(H, leaf, index, size, proof, leaves)
  {
    hide Split, Tree, Utf8, Climb, Preimage, Included;
    var k, j, below := Split(size), Split(|leaves|), proof[..|proof| - 1];
    if if index < k then Included(H, leaf, index, k, below, leaves[..j])
       else Included(H, leaf, index - k, size - k, below, leaves[j..]) {
      IncludedAbove(H, leaf, index, size, proof, leaves);
    }
  }

  /** Equal preimages at a node force the subtree and the sibling apart from each other. */
  lemma ClimbStep(H: Hash, leaf: string, index: nat, size: nat, proof: seq<Bytes>, leaves: seq<string>, sub: Bytes)
    requires index < size && size >= 2 && proof != [] && |leaves| >= 2 && |sub| == 32
    requires Mine(index, size, proof, sub) == Preimage(H, leaves)
    ensures var sibling, j := proof[|proof| - 1], Split(|leaves|);
            if index < Split(size) then sub == Tree(H, leaves[..j]) && sibling == Tree(H, leaves[j..])
            else sub == Tree(H, leaves[j..]) && sibling == Tree(H, leaves[..j])
  {
    var sibling, j := proof[|proof| - 1], Split(|leaves|);
    TreeHashesPreimage(H, leaves[..j]);
    TreeHashesPreimage(H, leaves[j..]);
    var l, r := Tree(H, leaves[..j]), Tree(H, leaves[j..]);
    if index < Split(size) {
      SplitBytes(sub, sibling, l, r);
    } else {
      assert |sibling| == |l| by {
        assert |NODE_PREFIX + sibling + sub| == |NODE_PREFIX + l + r|;
      }
      SplitBytes(sibling, sub, l, r);
    }
  }

  lemma PathOne(H: Hash, leaves: seq<string>, i: nat)
    requires i < |leaves| && |leaves| >= 2
    ensures var k := Split(|leaves|);
            Path(H, LeafHashes(H, leaves), i)
            == if i < k then Path(H, LeafHashes(H, leaves[..k]), i) + [Tree(H, leaves[k..])]
               else Path(H, LeafHashes(H, leaves[k..]), i - k) + [Tree(H, leaves[..k])]
  {
    hide Split;
    var k := Split(|leaves|);
    assert LeafHashes(H, leaves)[..k] == LeafHashes(H, leaves[..k]);
    assert LeafHashes(H, leaves)[k..] == LeafHashes(H, leaves[k..]);
  }

  lemma IncludedAbove(H: Hash, leaf: string, index: nat, size: nat, proof: seq<Bytes>, leaves: seq<string>)
    requires index < size && size >= 2 && proof != [] && |leaves| >= 2
    requires var k, j, below := Split(size), Split(|leaves|), proof[..|proof| - 1];
             if index < k then Included(H, leaf, index, k, below, leaves[..j])
                          && proof[|proof| - 1] == Tree(H, leaves[j..])
             else Included(H, leaf, index - k, size - k, below, leaves[j..])
                  && proof[|proof| - 1] == Tree(H, leaves[..j])
    ensures Included(H, leaf, index, size, proof, leaves)
  {
    hide Split;
    var j, below := Split(|leaves|), proof[..|proof| - 1];
    assert leaf in leaves by {
      assert leaves == leaves[..j] + leaves[j..];
    }
    assert proof == below + [proof[|proof| - 1]];
    if size == |leaves| {
      PathOne(H, leaves, index);
      if index < j {
        assert leaf == leaves[..j][index] && below == Path(H, LeafHashes(H, leaves[..j]), index);
      } else {
        assert leaf == leaves[j..][index - j] && below == Path(H, LeafHashes(H, leaves[j..]), index - j);
      }
    }
  }

  /** Inclusion soundness for adversarial proofs and any claimed size. */
  lemma InclusionIsSound(H: Hash, leaf: string, index: int, size: int, proof: seq<string>, leaves: seq<string>)
    requires VerifyInclusion(H, leaf, index, size, proof, MerkleRoot(H, leaves)) == Some(true)
    ensures 0 <= index < size && FromHexAll(proof).Some?
    ensures var siblings := FromHexAll(proof).value;
            Included(H, leaf, index, size, siblings, leaves)
            || Collides(H, InclusionClash(H, leaf, index, size, siblings, leaves))
  {
    var p := "sha256:";
    assert RemovePrefix(MerkleRoot(H, leaves), p) == ToHex(Tree(H, leaves));
    HexRoundTrip(Tree(H, leaves));
    ClimbIsSound(H, leaf, index, size, FromHexAll(proof).value, leaves);
  }

  // --------------------------------------------- completeness and path length

  lemma ClimbLeft(H: Hash, node: Bytes, i: nat, size: nat, below: seq<Bytes>, sibling: Bytes, sub: Bytes)
    requires 2 <= size && i < Split(size)
    requires Climb(H, node, i, Split(size), below) == Some(sub)
    ensures Climb(H, node, i, size, below + [sibling]) == Some(Node(H, sub, sibling))
  {
    assert (below + [sibling])[..|below|] == below;
  }

  lemma ClimbRight(H: Hash, node: Bytes, j: nat, size: nat, below: seq<Bytes>, sibling: Bytes, sub: Bytes)
    requires 2 <= size && j < size - Split(size)
    requires Climb(H, node, j, size - Split(size), below) == Some(sub)
    ensures Climb(H, node, Split(size) + j, size, below + [sibling]) == Some(Node(H, sibling, sub))
  {
    assert (below + [sibling])[..|below|] == below;
  }

  /** An audit path climbs back to the root. */
  ghost predicate Climbs(H: Hash, node: Bytes, hashes: seq<Bytes>, i: nat, path: seq<Bytes>) {
    i < |hashes| && Climb(H, node, i, |hashes|, path) == Some(Root(H, hashes))
  }

  lemma PathAbove(H: Hash, node: Bytes, hashes: seq<Bytes>, i: nat)
    requires |hashes| >= 2 && i < |hashes|
    requires var k := Split(|hashes|);
             if i < k then Climbs(H, node, hashes[..k], i, Path(H, hashes[..k], i))
             else Climbs(H, node, hashes[k..], i - k, Path(H, hashes[k..], i - k))
    ensures Climbs(H, node, hashes, i, Path(H, hashes, i))
  {
    hide Split, Climb;
    var n := |hashes|;
    var k := Split(n);
    var l, r := Root(H, hashes[..k]), Root(H, hashes[k..]);
    if i < k {
      var below := Path(H, hashes[..k], i);
      ClimbLeft(H, node, i, n, below, r, l);
    } else {
      var below := Path(H, hashes[k..], i - k);
      ClimbRight(H, node, i - k, n, below, l, r);
    }
  }

  lemma {:induction false} PathClimbs(H: Hash, hashes: seq<Bytes>, i: nat)
    requires i < |hashes|
    ensures Climbs(H, hashes[i], hashes, i, Path(H, hashes, i))
    decreases |hashes|
  {
    hide Split;
    if |hashes| > 1 {
      var k := Split(|hashes|);
      if i < k {
        PathClimbs(H, hashes[..k], i);
        assert hashes[..k][i] == hashes[i];
      } else {
        PathClimbs(H, hashes[k..], i - k);
        assert hashes[k..][i - k] == hashes[i];
      }
      PathAbove(H, hashes[i], hashes, i);
    }
  }

  /** Every honest proof is accepted. */
  lemma InclusionIsComplete(H: Hash, leaves: seq<string>, i: nat)
    requires i < |leaves|
    ensures InclusionProof(H, leaves, i).Some?
    ensures VerifyInclusion(H, leaves[i], i, |leaves|, InclusionProof(H, leaves, i).value, MerkleRoot(H, leaves)) == Some(true)
  {
    var hashes := LeafHashes(H, leaves);
    PathClimbs(H, hashes, i);
    HexAllRoundTrip(Path(H, hashes, i));
    var p := "sha256:";
    assert RemovePrefix(MerkleRoot(H, leaves), p) == ToHex(Tree(H, leaves));
    HexRoundTrip(Tree(H, leaves));
  }

  function Pow2(e: nat): (p: nat)
    ensures p >= 1
  {
    if e == 0 then 1 else 2 * Pow2(e - 1)
  }

  lemma {:induction false} SplitFits(n: nat, e: nat)
    requires 2 <= n <= Pow2(e)
    ensures e >= 1 && Split(n) <= Pow2(e - 1)
  {
    if n > 2 {
      SplitFits((n + 1) / 2, e - 1);
    }
  }

  /** An audit path has at most ceil(log2 n) siblings: at most `e` whenever `n <= 2^e`. */
  lemma {:induction false} PathLength(H: Hash, hashes: seq<Bytes>, i: nat, e: nat)
    requires i < |hashes| <= Pow2(e)
    ensures |Path(H, hashes, i)| <= e
    decreases |hashes|
  {
    hide Split;
    if |hashes| > 1 {
      var k := Split(|hashes|);
      SplitFits(|hashes|, e);
      if i < k {
        PathLength(H, hashes[..k], i, e - 1);
      } else {
        PathLength(H, hashes[k..], i - k, e - 1);
      }
    }
  }

  lemma ProofLength(H: Hash, leaves: seq<string>, i: nat, e: nat)
    requires i < |leaves| <= Pow2(e)
    ensures |InclusionProof(H, leaves, i).value| <= e
  {
    PathLength(H, LeafHashes(H, leaves), i, e);
  }
}
