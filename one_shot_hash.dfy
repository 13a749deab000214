/** The earlier, non-streaming xmur3: it seeds the state and applies the
    fmix32 avalanche once, keeping nothing between calls. */
module OneShotHash {
  import opened Hash32
  import RandomNumberGenerator

  /** `xmur3(str)`: the seeding loop, then the avalanche, then `>>> 0`. */
  method Xmur3(str: seq<CodeUnit>) returns (r: nat)
    ensures r == Unsigned(Fmix(SeededState(str)))
    ensures r < TwoTo32
  {
    var h := InitialState(str);
    var i := 0;
    while i < |str|
      invariant 0 <= i <= |str|
      invariant h == Absorb(InitialState(str), str[..i])
    {
      assert str[..i + 1][..i] == str[..i];
      h := Imul(XorUnit(h, str[i]), C1);
      h := Rotl13(h);
      i := i + 1;
    }
    assert str[..|str|] == str;
    h := Imul(XorShiftRight(h, 16), F1);
    h := Imul(XorShiftRight(h, 13), F2);
    h := XorShiftRight(h, 16);
    r := Unsigned(h);
  }

  /** The one-shot hash of a string is the first value a fresh streaming
      hasher seeded with the same string returns. */
  method FirstOutputAgrees(str: seq<CodeUnit>) returns (oneShot: nat, streamed: nat)
    ensures oneShot == streamed
    ensures streamed == Output(str, 0)
  {
    oneShot := Xmur3(str);
    var hasher := new RandomNumberGenerator.Hasher(str);
    streamed := hasher.Next();
  }

  /** For the empty string the loop body never runs: the result is the
      avalanche of 1779033703. */
  lemma Xmur3Empty()
    ensures Unsigned(Fmix(SeededState([]))) == Unsigned(Fmix(1779033703))
    ensures Unsigned(Fmix(1779033703)) == 167010153
  {
  }
}
