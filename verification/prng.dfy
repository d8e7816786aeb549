/** The Park-Miller "minimal standard" generator behind `createSeededRandom`
    (components/tree/tree-model.tsx). The state is an integer; every product
    `state * 16807` stays below 2^46, so the source's doubles hold these
    integers exactly and unbounded integers model them faithfully. */
module Prng {
  import opened Basics

  const Modulus: int := 2147483647     // 2^31 - 1
  const Multiplier: int := 16807       // 7^5

  /** A state the recurrence keeps forever: neither zero nor a multiple of
      the modulus. */
  predicate ValidState(s: int)
  {
    1 <= s <= Modulus - 1
  }

  /** The state `createSeededRandom(seed)` starts from, as written: a
      truncated remainder, lifted by 2^31 - 2 when it is not positive. */
  function InitialState(seed: int): (s: int)
    ensures 0 <= s <= Modulus - 1
    ensures 1 <= seed <= Modulus - 1 ==> s == seed
    ensures s == 0 <==> seed < 0 && seed % Modulus == 1
  {
    var r := JsRem(seed, Modulus);
    NegativeResidue(seed);
    if r <= 0 then r + (Modulus - 1) else r
  }

  /** The truncated remainder is `-(2^31 - 2)` exactly on the negative seeds
      congruent to 1. */
  lemma NegativeResidue(seed: int)
    ensures JsRem(seed, Modulus) == -(Modulus - 1) <==> seed < 0 && seed % Modulus == 1
  {
    if seed < 0 {
      var q := (-seed) / 2147483647;
      var m := (-seed) % 2147483647;
      assert -seed == q * 2147483647 + m;
      if m == 2147483646 {
        assert seed == (-q - 1) * 2147483647 + 1;
      }
      if seed % 2147483647 == 1 {
        var p := seed / 2147483647;
        assert -seed == (-p - 1) * 2147483647 + 2147483646;
      }
    }
  }

  /** The corrected seeding: identical to `InitialState` except on the one
      residue class that `InitialState` sends to the absorbing state 0. */
  function SeedState(seed: int): (s: int)
    ensures ValidState(s)
    ensures InitialState(seed) != 0 ==> s == InitialState(seed)
  {
    var s := InitialState(seed);
    if s == 0 then Modulus - 1 else s
  }

  /** One step of the recurrence: `state = (state * 16807) % 2147483647`. */
  function NextState(s: int): (n: int)
    requires 0 <= s
    ensures 0 <= n < Modulus
    ensures ValidState(s) ==> ValidState(n)
    ensures s == 0 ==> n == 0
  {
    var n := JsRem(s * Multiplier, Modulus);
    assert ValidState(s) ==> ValidState(n) by {
      if ValidState(s) { ProductNotMultiple(s); }
    }
    n
  }

  /** 16807 is invertible modulo 2^31 - 1 (its inverse is 1407677000, since
      16807 * 1407677000 = 1 + 11017 * (2^31 - 1)), so multiplying a state
      that is not a multiple of the modulus never yields one. This replaces
      an appeal to the primality of the modulus. */
  lemma ProductNotMultiple(s: int)
    requires ValidState(s)
    ensures (s * Multiplier) % Modulus != 0
  {
    var p := s * 16807;
    var k, r := p / 2147483647, p % 2147483647;
    var t := s * 11017 - k * 1407677000;
    InverseIdentity(s, k, r);
    AffineRemainder(s, t);
    assert (r * 1407677000) % 2147483647 == s;
  }

  /** With `s * 16807 = k * (2^31 - 1) + r`, multiplying `r` by the inverse
      gives back `s` up to a multiple of the modulus. */
  lemma InverseIdentity(s: int, k: int, r: int)
    requires s * 16807 == k * 2147483647 + r
    ensures r * 1407677000 == s + 2147483647 * (s * 11017 - k * 1407677000)
  {
    calc {
      r * 1407677000;
      (s * 16807 - k * 2147483647) * 1407677000;
      { MulAssoc(s, 16807, 1407677000); MulAssoc(k, 2147483647, 1407677000); }
      s * (16807 * 1407677000) - k * (2147483647 * 1407677000);
      s * (1 + 11017 * 2147483647) - k * (2147483647 * 1407677000);
      s + 2147483647 * (s * 11017 - k * 1407677000);
    }
  }

  lemma AffineRemainder(a: int, t: int)
    requires 0 <= a < 2147483647
    ensures (a + 2147483647 * t) % 2147483647 == a
  {
  }

  lemma MulAssoc(a: int, b: int, c: int)
    ensures (a * b) * c == a * (b * c)
  {
  }

  /** The value returned by one call: `(state - 1) / 2147483646`. */
  function Output(s: int): (x: real)
    ensures ValidState(s) ==> 0.0 <= x < 1.0
    ensures s == 0 ==> x == -1.0 / (Modulus - 1) as real
  {
    (s - 1) as real / (Modulus - 1) as real
  }

  /** The state after `n` calls starting from state `s`. */
  function StateAfter(s: int, n: nat): (t: int)
    requires 0 <= s
    ensures 0 <= t
  {
    if n == 0 then s else NextState(StateAfter(s, n - 1))
  }

  /** The `k`-th value (counting from 0) the generator returns from state `s`. */
  function Draw(s: int, k: nat): real
    requires 0 <= s
  {
    Output(StateAfter(s, k + 1))
  }

  /** The whole sequence of values, as a draw stream. */
  function Stream(s: int): nat -> real
    requires 0 <= s
  {
    (k: nat) => Draw(s, k)
  }

  /** Every value the stream will ever supply. */
  ghost predicate UnitStream(rand: nat -> real)
  {
    forall k: nat :: 0.0 <= rand(k) < 1.0
  }

  lemma {:induction false} StateStaysValid(s: int, n: nat)
    requires ValidState(s)
    ensures ValidState(StateAfter(s, n))
  {
    if n > 0 {
      StateStaysValid(s, n - 1);
    }
  }

  /** From a valid state, every value lies in [0, 1). */
  lemma StreamInUnitInterval(s: int)
    requires ValidState(s)
    ensures UnitStream(Stream(s))
  {
    forall k: nat ensures 0.0 <= Stream(s)(k) < 1.0 {
      StateStaysValid(s, k + 1);
    }
  }

  /** Seeding through `SeedState` always yields a stream of values in [0, 1). */
  lemma SeededStreamInUnitInterval(seed: int)
    ensures UnitStream(Stream(SeedState(seed)))
  {
    StreamInUnitInterval(SeedState(seed));
  }

  lemma {:induction false} ZeroIsAbsorbing(n: nat)
    ensures StateAfter(0, n) == 0
  {
    if n > 0 {
      ZeroIsAbsorbing(n - 1);
    }
  }

  /** The defect of the source's seeding: the seed -2147483646 (and every
      seed below 0 congruent to 1 modulo 2^31 - 1) starts the generator in
      state 0, after which every call returns the same negative value. */
  lemma DegenerateSeed(seed: int, k: nat)
    requires seed < 0 && seed % Modulus == 1
    ensures InitialState(seed) == 0
    ensures Draw(InitialState(seed), k) == -1.0 / (Modulus - 1) as real
    ensures Draw(InitialState(seed), k) < 0.0
  {
    ZeroIsAbsorbing(k + 1);
  }

  lemma DegenerateSeedExample()
    ensures InitialState(-2147483646) == 0
    ensures SeedState(-2147483646) == Modulus - 1
  {
  }

  /** Seed 0, which the recurrence cannot use directly, is lifted to the
      valid state 2^31 - 2. */
  lemma ZeroSeed()
    ensures InitialState(0) == Modulus - 1
    ensures ValidState(InitialState(0))
  {
  }
}
