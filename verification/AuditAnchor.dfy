/**
 * The Merkle root over the audit log, for an arbitrary hash of fixed width. The binding property is
 * a reduction: two different logs of the same length with one root exhibit two different inputs with
 * the same hash.
 */
module AuditAnchor {

  type Hash = string -> string

  ghost predicate FixedWidth(hash: Hash, width: nat) {
    forall x :: |hash(x)| == width
  }

  ghost predicate AllWide(level: seq<string>, width: nat) {
    forall i :: 0 <= i < |level| ==> |level[i]| == width
  }

  /** Two different inputs with the same hash. */
  ghost predicate Collision(hash: Hash, x: string, y: string) {
    x != y && hash(x) == hash(y)
  }

  /** The next level: neighbours hashed together, an odd last node promoted unchanged. */
  function Up(hash: Hash, level: seq<string>): (next: seq<string>)
    ensures |next| == (|level| + 1) / 2
  {
    if |level| <= 1 then level else [hash(level[0] + level[1])] + Up(hash, level[2..])
  }

  function Root(hash: Hash, leaves: seq<string>): string
    decreases |leaves|
  {
    if |leaves| == 0 then hash("lh-empty")
    else if |leaves| == 1 then leaves[0]
    else Root(hash, Up(hash, leaves))
  }

  /** Node i of the next level: its two children hashed together, or the odd last one as it is. */
  lemma {:induction false} UpAt(hash: Hash, level: seq<string>, i: nat)
    requires i < |Up(hash, level)|
    ensures 2 * i < |level|
    ensures Up(hash, level)[i] == if 2 * i + 1 < |level| then hash(level[2 * i] + level[2 * i + 1]) else level[2 * i]
  {
    if |level| > 1 && i > 0 {
      UpAt(hash, level[2..], i - 1);
    }
  }

  lemma {:induction false} UpAppend(hash: Hash, front: seq<string>, back: seq<string>)
    requires |front| % 2 == 0
    ensures Up(hash, front + back) == Up(hash, front) + Up(hash, back)
  {
    if front == [] {
      assert front + back == back;
    } else {
      assert (front + back)[2..] == front[2..] + back;
      UpAppend(hash, front[2..], back);
    }
  }

  function Upto(level: seq<string>, i: nat): seq<string> { if i < |level| then level[..i] else level }

  /** One turn of the inner loop: the next pair, or the odd node that is left. */
  lemma UpStep(hash: Hash, level: seq<string>, i: nat)
    requires i < |level| && i % 2 == 0
    ensures Up(hash, Upto(level, i + 2))
         == Up(hash, Upto(level, i)) + [if i + 1 < |level| then hash(level[i] + level[i + 1]) else level[i]]
  {
    if i + 1 < |level| {
      var pair := [level[i], level[i + 1]];
      assert Upto(level, i + 2) == level[..i] + pair;
      assert pair[2..] == [];
      UpAppend(hash, level[..i], pair);
    } else {
      assert level == level[..i] + [level[i]];
      UpAppend(hash, level[..i], [level[i]]);
    }
  }

  method MerkleRoot(hash: Hash, leafHashes: seq<string>) returns (root: string)
    ensures root == Root(hash, leafHashes)
  {
    hide Up;
    if |leafHashes| == 0 {
      return hash("lh-empty");
    }
    var level := leafHashes;
    while |level| > 1
      invariant |level| > 0 && Root(hash, level) == Root(hash, leafHashes)
    {
      var next: seq<string> := [];
      var i := 0;
      assert next == Up(hash, Upto(level, 0)) by { assert level[..0] == []; }
      while i < |level|
        invariant i >= 0 && i % 2 == 0
        invariant next == Up(hash, Upto(level, i))
      {
        UpStep(hash, level, i);
        if i + 1 < |level| {
          next := next + [hash(level[i] + level[i + 1])];
        } else {
          next := next + [level[i]];
        }
        i := i + 2;
      }
      level := next;
    }
    return level[0];
  }

  lemma {:induction false} UpWide(hash: Hash, level: seq<string>, width: nat)
    requires FixedWidth(hash, width) && AllWide(level, width)
    ensures AllWide(Up(hash, level), width)
  {
    if |level| > 1 {
      assert AllWide(level[2..], width);
      UpWide(hash, level[2..], width);
    }
  }

  /** The inputs hashed to make the next level. */
  ghost function PairsOf(level: seq<string>): set<string> {
    if |level| <= 1 then {} else {level[0] + level[1]} + PairsOf(level[2..])
  }

  /** The inputs hashed on the way from the leaves to the root. */
  ghost function Hashed(hash: Hash, leaves: seq<string>): set<string>
    decreases |leaves|
  {
    if |leaves| <= 1 then {} else PairsOf(leaves) + Hashed(hash, Up(hash, leaves))
  }

  /** Two different levels with the same next level: two different pairs of theirs, one from each, have one hash. */
  lemma {:induction false} UpCollides(hash: Hash, a: seq<string>, b: seq<string>, width: nat) returns (x: string, y: string)
    requires AllWide(a, width) && AllWide(b, width)
    requires |a| == |b| && a != b && Up(hash, a) == Up(hash, b)
    ensures x in PairsOf(a) && y in PairsOf(b) && Collision(hash, x, y)
  {
    var u, v := Up(hash, a), Up(hash, b);
    assert |a| > 1;
    x, y := a[0] + a[1], b[0] + b[1];
    assert hash(x) == u[0] == v[0] == hash(y);
    if x == y {
      assert a[0] == x[..width] == b[0] && a[1] == x[width..] == b[1];
      assert a == a[..2] + a[2..] && b == b[..2] + b[2..] && a[..2] == b[..2];
      assert u[1..] == Up(hash, a[2..]) && v[1..] == Up(hash, b[2..]);
      x, y := UpCollides(hash, a[2..], b[2..], width);
    }
  }

  lemma Singletons(a: seq<string>, b: seq<string>)
    requires |a| == |b| == 1 && a[0] == b[0]
    ensures a == b
  {
  }

  /**
   * The root and the count commit to the leaves: two lists of one length with one root differ only if
   * two different inputs hashed on the way, one in each computation, have the same hash.
   */
  lemma {:induction false} RootBindsLeaves(hash: Hash, a: seq<string>, b: seq<string>, width: nat)
    returns (x: string, y: string)
    requires FixedWidth(hash, width) && AllWide(a, width) && AllWide(b, width)
    requires |a| == |b| && a != b && Root(hash, a) == Root(hash, b)
    ensures x in Hashed(hash, a) && y in Hashed(hash, b) && Collision(hash, x, y)
    decreases |a|
  {
    var u, v := Up(hash, a), Up(hash, b);
    if |a| == 1 {
      Singletons(a, b);
      assert false;
    } else if u == v {
      x, y := UpCollides(hash, a, b, width);
    } else {
      UpWide(hash, a, width);
      UpWide(hash, b, width);
      x, y := RootBindsLeaves(hash, u, v, width);
    }
  }

  function LeafHashes(hash: Hash, events: seq<string>): (leaves: seq<string>)
    ensures |leaves| == |events| && forall i :: 0 <= i < |events| ==> leaves[i] == hash(events[i])
  {
    seq(|events|, i requires 0 <= i < |events| => hash(events[i]))
  }

  /** The inputs hashed to anchor a log: its events, and the pairs above them. */
  ghost function HashedLog(hash: Hash, events: seq<string>): set<string> {
    (set e | e in events) + Hashed(hash, LeafHashes(hash, events))
  }

  /** An anchored root and count commit to every event of the log, in order. */
  lemma RootBindsLog(hash: Hash, a: seq<string>, b: seq<string>, width: nat) returns (x: string, y: string)
    requires FixedWidth(hash, width) && |a| == |b| && a != b
    requires Root(hash, LeafHashes(hash, a)) == Root(hash, LeafHashes(hash, b))
    ensures x in HashedLog(hash, a) && y in HashedLog(hash, b) && Collision(hash, x, y)
  {
    if LeafHashes(hash, a) == LeafHashes(hash, b) {
      var i :| 0 <= i < |a| && a[i] != b[i];
      assert hash(a[i]) == LeafHashes(hash, a)[i] == LeafHashes(hash, b)[i] == hash(b[i]);
      x, y := a[i], b[i];
    } else {
      x, y := RootBindsLeaves(hash, LeafHashes(hash, a), LeafHashes(hash, b), width);
    }
  }

  /** So among logs of one length on whose inputs the hash does not collide, the root tells them apart. */
  lemma RootDecidesLog(hash: Hash, a: seq<string>, b: seq<string>, width: nat)
    requires FixedWidth(hash, width) && |a| == |b|
    requires forall x, y :: x in HashedLog(hash, a) && y in HashedLog(hash, b) ==> !Collision(hash, x, y)
    ensures Root(hash, LeafHashes(hash, a)) == Root(hash, LeafHashes(hash, b)) <==> a == b
  {
    if a != b && Root(hash, LeafHashes(hash, a)) == Root(hash, LeafHashes(hash, b)) {
      var x, y := RootBindsLog(hash, a, b, width);
    }
  }

  /** Without the count the root does not commit: a pair and its parent share one. */
  lemma RootAloneIsAmbiguous(hash: Hash, a: string, b: string)
    ensures Root(hash, [a, b]) == Root(hash, [hash(a + b)])
  {
    assert [a, b][2..] == [];
    assert Up(hash, [a, b]) == [hash(a + b)];
  }

  /** Nor do root and count bind leaves that are not hashes of one width. */
  lemma UnequalWidthsAreAmbiguous(hash: Hash)
    ensures Root(hash, ["a", "bc"]) == Root(hash, ["ab", "c"])
  {
    RootAloneIsAmbiguous(hash, "a", "bc");
    RootAloneIsAmbiguous(hash, "ab", "c");
    assert "a" + "bc" == "ab" + "c";
  }
}
