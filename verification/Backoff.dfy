/** The dial backoff (connection/backoff.go), over reals where the source uses floats. */
module Backoff {

  /** `maxFactorJitter` is a fraction; a value between 0 and 0.01 makes the source
      panic and is excluded. */
  datatype Config = Config(factor: real, maxFactorJitter: real, initial: int, max: int)

  function JitterBound(c: Config): int {
    (c.maxFactorJitter * 100.0).Floor
  }

  /** What the configuration validates. */
  predicate Valid(c: Config) {
    && c.factor >= 1.0 && 0 < c.initial <= c.max
    && (c.maxFactorJitter == 0.0 || (c.maxFactorJitter > 0.0 && JitterBound(c) >= 1))
  }

  /** Conversion of a float to a Duration drops the fraction. */
  function Truncate(x: real): int {
    if x >= 0.0 then x.Floor else -((-x).Floor)
  }

  /** Half of the draws are applied with a minus sign. */
  function Signed(draw: nat): int {
    if (draw / 2) % 2 == 0 then -(draw as int) else draw
  }

  function Grown(c: Config, val: int, draw: nat): real {
    if c.maxFactorJitter == 0.0 then val as real * c.factor
    else val as real * (c.factor + c.factor * (Signed(draw) as real) / 100.0)
  }

  /** The next delay, from the current one and a random draw. */
  function NextDelay(c: Config, val: int, draw: nat): int {
    if val > c.max then c.max
    else
      var dur := Truncate(Grown(c, val, draw));
      if dur < c.initial then c.initial else if dur > c.max then c.max else dur
  }

  class Backoff {
    const conf: Config
    var attempt: nat
    var val: int

    ghost predicate InBounds()
      reads this
    {
      && Valid(conf) && conf.initial <= val <= conf.max
      && (attempt == 0 ==> val == conf.initial)
    }

    constructor (conf: Config)
      requires Valid(conf)
      ensures InBounds() && this.conf == conf && attempt == 0 && val == conf.initial
    {
      this.conf := conf;
      attempt, val := 0, conf.initial;
    }

    /** The delay Next waits for. */
    method Next(draw: nat) returns (delay: int)
      requires InBounds()
      modifies this
      ensures InBounds() && attempt == old(attempt) + 1 && conf.initial <= delay <= conf.max
      ensures delay == val == if old(attempt) == 0 then conf.initial else NextDelay(conf, old(val), draw)
    {
      if attempt == 0 {
        delay := conf.initial;
      } else {
        val := NextDelay(conf, val, draw);
        delay := val;
      }
      attempt := attempt + 1;
    }

    method Reset()
      requires InBounds()
      modifies this
      ensures InBounds() && attempt == 0 && val == conf.initial
    {
      attempt, val := 0, conf.initial;
    }
  }

  // ---------------------------------------------------------------- with jitter

  /** The growth without jitter. */
  function Plain(c: Config, val: int): real {
    val as real * c.factor
  }

  /** The jitter never exceeds its cap, and of any four draws in a row two push the
      delay up and two do not. */
  lemma JitterIsCapped(c: Config, val: int, draw: nat)
    requires Valid(c) && c.maxFactorJitter > 0.0 && val > 0 && draw < JitterBound(c)
    ensures Plain(c, val) * (1.0 - c.maxFactorJitter) <= Grown(c, val, draw)
    ensures Grown(c, val, draw) <= Plain(c, val) * (1.0 + c.maxFactorJitter)
    ensures Grown(c, val, draw) > Plain(c, val) <==> draw % 4 >= 2
  {
    hide Plain, Grown, Signed, JitterBound;
    JitterSize(c, draw);
    JitterShare(c, val, draw);
    Band(Plain(c, val), Signed(draw) as real / 100.0, c.maxFactorJitter);
  }

  lemma JitterShare(c: Config, val: int, draw: nat)
    requires Valid(c) && c.maxFactorJitter > 0.0 && val > 0
    ensures Plain(c, val) > 0.0
    ensures Grown(c, val, draw) == Plain(c, val) + Plain(c, val) * (Signed(draw) as real / 100.0)
  {
    hide Signed, JitterBound;
    Positive(val as real, c.factor);
    Spread(Plain(c, val), val as real, c.factor, Signed(draw) as real, Signed(draw) as real / 100.0);
  }

  lemma Positive(a: real, b: real)
    requires a > 0.0 && b >= 1.0
    ensures a * b > 0.0
  {
  }

  lemma JitterSize(c: Config, draw: nat)
    requires Valid(c) && c.maxFactorJitter > 0.0 && draw < JitterBound(c)
    ensures -c.maxFactorJitter <= Signed(draw) as real / 100.0 <= c.maxFactorJitter
    ensures Signed(draw) as real / 100.0 > 0.0 <==> draw % 4 >= 2
  {
  }

  lemma Spread(x: real, v: real, f: real, j: real, jitter: real)
    requires x == v * f && jitter == j / 100.0
    ensures v * (f + f * j / 100.0) == x + x * jitter
  {
    assert f * j / 100.0 == f * jitter;
    assert v * (f * jitter) == x * jitter;
  }

  lemma Band(x: real, a: real, b: real)
    requires x > 0.0 && -b <= a <= b
    ensures x * (1.0 - b) <= x + x * a <= x * (1.0 + b)
    ensures x + x * a > x <==> a > 0.0
  {
    assert x * (1.0 - b) == x - x * b && x * (1.0 + b) == x + x * b;
    assert x * (b - a) >= 0.0 && x * (a + b) >= 0.0;
  }

  // ---------------------------------------------------------------- without jitter

  /** The delay of the k-th Next after a Reset, counting from 0. */
  function Delay(c: Config, k: nat): int {
    if k == 0 then c.initial else NextDelay(c, Delay(c, k - 1), 0)
  }

  /** Without jitter the draw makes no difference. */
  lemma NoDraw(c: Config, val: int, draw: nat)
    requires c.maxFactorJitter == 0.0
    ensures NextDelay(c, val, draw) == NextDelay(c, val, 0)
  {
  }

  /** The k-th of a series of failed dials waits for `Delay(k)`. */
  method Retry(b: Backoff, draws: seq<nat>) returns (delays: seq<int>)
    requires b.InBounds() && b.attempt == 0 && b.conf.maxFactorJitter == 0.0
    modifies b
    ensures |delays| == |draws|
    ensures forall k :: 0 <= k < |delays| ==> delays[k] == Delay(b.conf, k)
  {
    hide NextDelay, Valid;
    delays := [];
    for k := 0 to |draws|
      invariant b.InBounds() && b.attempt == k && |delays| == k
      invariant k > 0 ==> b.val == Delay(b.conf, k - 1)
      invariant forall j :: 0 <= j < k ==> delays[j] == Delay(b.conf, j)
    {
      NoDraw(b.conf, b.val, draws[k]);
      var delay := b.Next(draws[k]);
      delays := delays + [delay];
    }
  }

  /** Without jitter the next delay is the last one times the factor, rounded down,
      as long as that is within the bounds, and the nearer bound otherwise. */
  lemma NextIsProduct(c: Config, val: int, draw: nat)
    requires Valid(c) && c.maxFactorJitter == 0.0 && 0 <= val <= c.max
    ensures var product := val as real * c.factor;
            var next := NextDelay(c, val, draw);
            if product < c.initial as real then next == c.initial
            else if product >= (c.max + 1) as real then next == c.max
            else next as real <= product < (next + 1) as real
  {
    var product := val as real * c.factor;
    assert product >= 0.0;
    assert product.Floor as real <= product < (product.Floor + 1) as real;
  }

  /** With jitter it is the jittered growth, rounded down and kept within the bounds;
      the draw is made among as many whole percents as the cap holds. */
  lemma NextIsJittered(c: Config, val: int, draw: nat)
    requires Valid(c) && c.maxFactorJitter > 0.0 && 0 < val <= c.max
    ensures JitterBound(c) as real <= c.maxFactorJitter * 100.0 < (JitterBound(c) + 1) as real
    ensures var percent := if draw % 4 < 2 then -(draw as int) else draw;
            var grown := val as real * c.factor * (1.0 + percent as real / 100.0);
            var next := NextDelay(c, val, draw);
            if grown < c.initial as real then next == c.initial
            else if grown >= (c.max + 1) as real then next == c.max
            else next as real <= grown < (next + 1) as real
  {
    hide Signed;
    SignedPercent(draw);
    JitterShare(c, val, draw);
    var grown := Plain(c, val) * (1.0 + Signed(draw) as real / 100.0);
    assert grown == Plain(c, val) + Plain(c, val) * (Signed(draw) as real / 100.0);
    hide JitterBound, Plain;
    Clamped(c, val, draw, grown);
  }

  lemma SignedPercent(draw: nat)
    ensures Signed(draw) == if draw % 4 < 2 then -(draw as int) else draw
  {
  }

  lemma Clamped(c: Config, val: int, draw: nat, grown: real)
    requires 0 < c.initial <= c.max && val <= c.max && grown == Grown(c, val, draw)
    ensures var next := NextDelay(c, val, draw);
            if grown < c.initial as real then next == c.initial
            else if grown >= (c.max + 1) as real then next == c.max
            else next as real <= grown < (next + 1) as real
  {
    hide Grown;
    assert grown.Floor as real <= grown < (grown.Floor + 1) as real;
  }

  lemma {:induction false} DelayInBounds(c: Config, k: nat)
    requires Valid(c)
    ensures c.initial <= Delay(c, k) <= c.max
  {
    if k == 0 {
    } else {
      DelayInBounds(c, k - 1);
    }
  }

  /** Multiplying `val` by the factor adds at least one. */
  predicate WholeUnit(c: Config, val: int) {
    val as real * (c.factor - 1.0) >= 1.0
  }

  /** One step of pure growth, in integers: at least as large, and strictly larger
      exactly when the growth is a whole unit. */
  lemma Growth(c: Config, val: int)
    requires Valid(c) && c.maxFactorJitter == 0.0 && val > 0
    ensures Truncate(Grown(c, val, 0)) >= val
    ensures Truncate(Grown(c, val, 0)) >= val + 1 <==> WholeUnit(c, val)
  {
    var x, g := Grown(c, val, 0), val as real * (c.factor - 1.0);
    assert x == val as real + g;
    assert g >= 0.0;
    assert x.Floor as real <= x < x.Floor as real + 1.0;
  }

  /** Delays never fall between resets. */
  lemma NeverFalls(c: Config, k: nat)
    requires Valid(c) && c.maxFactorJitter == 0.0
    ensures Delay(c, k) <= Delay(c, k + 1)
  {
    DelayInBounds(c, k);
    Growth(c, Delay(c, k));
  }

  lemma MoreGrows(c: Config, val: int)
    requires Valid(c) && val >= c.initial && WholeUnit(c, c.initial)
    ensures WholeUnit(c, val)
  {
    var d := c.factor - 1.0;
    assert (val - c.initial) as real * d >= 0.0;
    assert val as real * d == c.initial as real * d + (val - c.initial) as real * d;
  }

  lemma {:induction false} Climbs(c: Config, k: nat)
    requires Valid(c) && c.maxFactorJitter == 0.0 && WholeUnit(c, c.initial)
    ensures Delay(c, k) == c.max || Delay(c, k) >= c.initial + k
  {
    hide WholeUnit, Grown, Truncate;
    if k == 0 {
    } else {
      Climbs(c, k - 1);
      DelayInBounds(c, k - 1);
      MoreGrows(c, Delay(c, k - 1));
      Growth(c, Delay(c, k - 1));
    }
  }

  lemma {:induction false} Stuck(c: Config, k: nat)
    requires Valid(c) && c.maxFactorJitter == 0.0 && !WholeUnit(c, c.initial)
    ensures Delay(c, k) == c.initial
  {
    hide WholeUnit, Grown, Truncate;
    if k == 0 {
    } else {
      Stuck(c, k - 1);
      Growth(c, c.initial);
    }
  }

  /** Without jitter the delay reaches Max exactly when it starts there or the first
      step grows by a whole unit, and then within Max - Initial steps. */
  lemma ReachesMax(c: Config)
    requires Valid(c) && c.maxFactorJitter == 0.0
    ensures (exists k: nat :: Delay(c, k) == c.max) <==>
            c.initial == c.max || WholeUnit(c, c.initial)
    ensures c.initial == c.max || WholeUnit(c, c.initial) ==> Delay(c, c.max - c.initial) == c.max
  {
    hide WholeUnit, Grown, Truncate;
    if c.initial == c.max {
      assert Delay(c, 0) == c.max;
    } else if WholeUnit(c, c.initial) {
      Climbs(c, c.max - c.initial);
      DelayInBounds(c, c.max - c.initial);
    } else {
      forall k: nat
        ensures Delay(c, k) != c.max
      {
        Stuck(c, k);
      }
    }
  }
}
