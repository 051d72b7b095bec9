/**
 * Schema versions are integers `major * 1000000 + minor * 1000 + patch`.
 * Every version-dependent rule compares against one of these thresholds,
 * each the inclusive lower bound of the era it opens.
 */
module Versions {

  /** Version 1.1: vector `format` (multi-matrix input) and `block_method` appear. */
  const V1_1: int := 1001000
  /** Version 1.2: a flat `identities` vector replaces `permutation`/`indices`. */
  const V1_2: int := 1002000
  /** Version 2.0: multiple modalities. */
  const V2_0: int := 2000000

  function Encode(major: nat, minor: nat, patch: nat): int {
    major * 1000000 + minor * 1000 + patch
  }

  predicate LexLess(a: (nat, nat, nat), b: (nat, nat, nat)) {
    a.0 < b.0 || (a.0 == b.0 && (a.1 < b.1 || (a.1 == b.1 && a.2 < b.2)))
  }

  /**
   * With minor and patch below 1000, comparing encoded versions is comparing
   * (major, minor, patch) lexicographically; in particular the thresholds
   * above are the encodings of 1.1.0, 1.2.0 and 2.0.0.
   */
  lemma {:induction false} EncodeOrder(a: (nat, nat, nat), b: (nat, nat, nat))
    requires a.1 < 1000 && a.2 < 1000 && b.1 < 1000 && b.2 < 1000
    ensures Encode(a.0, a.1, a.2) < Encode(b.0, b.1, b.2) <==> LexLess(a, b)
    ensures V1_1 == Encode(1, 1, 0) && V1_2 == Encode(1, 2, 0) && V2_0 == Encode(2, 0, 0)
  {
    var x := a.1 * 1000 + a.2;
    var y := b.1 * 1000 + b.2;
    assert 0 <= x < 1000000 && 0 <= y < 1000000;
    assert x < y <==> a.1 < b.1 || (a.1 == b.1 && a.2 < b.2);
    if a.0 < b.0 {
      assert a.0 * 1000000 + 1000000 <= b.0 * 1000000;
    } else if a.0 > b.0 {
      assert b.0 * 1000000 + 1000000 <= a.0 * 1000000;
    }
  }
}
