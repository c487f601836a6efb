/**
 * random_between (src/main.c:84-90) and the part of libsodium's randombytes_uniform it
 * relies on. The random source is a parameter: `draw` is the word the generator finally
 * reduces mod n, as an arbitrary natural number, and randombytes_uniform(n) is that
 * reduction into [0, n). The words libsodium's rejection loop discards before it are not
 * modelled. libsodium returns 0
 * for bounds below 2, which the reduction does by itself for 1 and explicitly for 0.
 */
module RandomDelay {

  /** randombytes_uniform takes its bound as a uint32_t. */
  const Uint32Modulus: nat := 0x1_0000_0000

  /** randombytes_uniform(n): a value in [0, n), or 0 when n < 2. */
  function Uniform(n: nat, draw: nat): (r: nat)
    ensures n >= 1 ==> r < n
    ensures n <= 1 ==> r == 0
  {
    if n < 2 then 0 else draw % n
  }

  /** The width of [lower, upper] as the uint32_t argument that reaches randombytes_uniform:
      the C expression `upper - lower + 1` is a long, truncated by the call. */
  function SpanArgument(lower: int, upper: int): (n: nat)
    requires lower < upper
    ensures n < Uint32Modulus
    ensures upper - lower + 1 < Uint32Modulus ==> n == upper - lower + 1
  {
    (upper - lower + 1) % Uint32Modulus
  }

  /** random_between(lower, upper): `upper` when the interval is empty or a single point,
      otherwise a value drawn from [lower, upper]. */
  function RandomBetween(lower: int, upper: int, draw: nat): (r: int)
    ensures lower >= upper ==> r == upper
    ensures lower < upper ==> lower <= r <= upper
  {
    if lower >= upper then upper
    else lower + Uniform(SpanArgument(lower, upper), draw)
  }

  /** Every value of [lower, upper] is the outcome of some draw, so the truncation to 32
      bits loses nothing on intervals narrower than 2^32. */
  lemma RandomBetweenReachesAll(lower: int, upper: int, v: int)
    requires lower < upper && upper - lower + 1 < Uint32Modulus
    requires lower <= v <= upper
    ensures exists draw: nat :: RandomBetween(lower, upper, draw) == v
  {
    var draw: nat := v - lower;
    var n := upper - lower + 1;
    ModOfSmall(n, Uint32Modulus);
    assert SpanArgument(lower, upper) == n;
    ModOfSmall(draw, n);
    assert Uniform(n, draw) == draw;
    assert RandomBetween(lower, upper, draw) == v;
  }

  /** Reduction leaves a value already below the modulus alone. */
  lemma ModOfSmall(a: nat, m: nat)
    requires a < m
    ensures a % m == a
  {
  }

  /** On an interval of exactly 2^32 values the truncated bound is 0, so every draw yields
      `lower`: the range promise still holds, but the randomness is gone. */
  lemma FullWidthIntervalCollapses(lower: int, draw: nat)
    ensures RandomBetween(lower, lower + Uint32Modulus - 1, draw) == lower
  {
  }
}
