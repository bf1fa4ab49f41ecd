/**
 * The two draining loops of a two-finger move. The accumulator holds the
 * vertical travel not yet turned into scroll ticks; while it is below
 * `-s` one scroll-up tick is taken and `s` added back, then while it is
 * above `s` one scroll-down tick is taken and `s` subtracted. Both tests are
 * strict, so an accumulator of exactly `k * s` (k > 0) yields `k - 1` ticks
 * and keeps one full unit.
 */
module Scroll {

  /** What is left after draining, and how many ticks each loop took. */
  datatype Drained = Drained(rest: real, ups: nat, downs: nat)

  /** The number of whole sensitivities in `-acc`, which the up-loop strictly reduces. */
  function UpMeasure(acc: real, s: real): int
    requires s > 0.0
  {
    (-acc / s).Floor
  }

  function DownMeasure(acc: real, s: real): int
    requires s > 0.0
  {
    (acc / s).Floor
  }

  lemma DivideProduct(x: real, y: real, s: real)
    requires s != 0.0 && y * s == x
    ensures x / s == y
  {
    assert (x / s) * s == x;
    assert (x / s - y) * s == 0.0;
  }

  lemma UpStep(acc: real, s: real)
    requires s > 0.0 && acc < -s
    ensures 0 < UpMeasure(acc, s) && UpMeasure(acc + s, s) == UpMeasure(acc, s) - 1
  {
    var q := -acc / s;
    assert q * s == -acc;
    assert (q - 1.0) * s == -(acc + s);
    DivideProduct(-(acc + s), q - 1.0, s);
    assert q > 1.0;
  }

  lemma DownStep(acc: real, s: real)
    requires s > 0.0 && acc > s
    ensures 0 < DownMeasure(acc, s) && DownMeasure(acc - s, s) == DownMeasure(acc, s) - 1
  {
    var q := acc / s;
    assert q * s == acc;
    assert (q - 1.0) * s == acc - s;
    DivideProduct(acc - s, q - 1.0, s);
    assert q > 1.0;
  }

  /** `while (acc < -s) { scrollUp(); acc += s; }` */
  function DrainUp(acc: real, s: real): (r: (real, nat))
    requires s > 0.0
    decreases UpMeasure(acc, s)
  {
    if acc < -s then
      UpStep(acc, s);
      var r := DrainUp(acc + s, s);
      (r.0, r.1 + 1)
    else
      (acc, 0)
  }

  /** `while (acc > s) { scrollDown(); acc -= s; }` */
  function DrainDown(acc: real, s: real): (r: (real, nat))
    requires s > 0.0
    decreases DownMeasure(acc, s)
  {
    if acc > s then
      DownStep(acc, s);
      var r := DrainDown(acc - s, s);
      (r.0, r.1 + 1)
    else
      (acc, 0)
  }

  /** The up-loop followed by the down-loop. */
  function Drain(acc: real, s: real): Drained
    requires s > 0.0
  {
    var up := DrainUp(acc, s);
    var down := DrainDown(up.0, s);
    Drained(down.0, up.1, down.1)
  }

  lemma {:induction false} DrainUpFacts(acc: real, s: real)
    requires s > 0.0
    ensures acc == DrainUp(acc, s).0 - DrainUp(acc, s).1 as real * s
    ensures acc < -s ==> -s <= DrainUp(acc, s).0 < 0.0 && DrainUp(acc, s).1 > 0
    ensures acc >= -s ==> DrainUp(acc, s) == (acc, 0)
    decreases UpMeasure(acc, s)
  {
    if acc < -s {
      UpStep(acc, s);
      DrainUpFacts(acc + s, s);
    }
  }

  lemma {:induction false} DrainDownFacts(acc: real, s: real)
    requires s > 0.0
    ensures acc == DrainDown(acc, s).0 + DrainDown(acc, s).1 as real * s
    ensures acc > s ==> 0.0 < DrainDown(acc, s).0 <= s && DrainDown(acc, s).1 > 0
    ensures acc <= s ==> DrainDown(acc, s) == (acc, 0)
    decreases DownMeasure(acc, s)
  {
    if acc > s {
      DownStep(acc, s);
      DrainDownFacts(acc - s, s);
    }
  }

  /**
   * Draining keeps the accumulator within one sensitivity of zero, accounts
   * for every unit it removes (`acc == rest + (downs - ups) * s`), runs at most
   * one of the two loops, and leaves the sign of a drained accumulator.
   */
  lemma DrainSpec(acc: real, s: real)
    requires s > 0.0
    ensures var d := Drain(acc, s);
      && -s <= d.rest <= s
      && acc == d.rest + (d.downs as real - d.ups as real) * s
      && (d.ups == 0 || d.downs == 0)
      && (acc < -s ==> d.ups > 0 && d.rest < 0.0)
      && (acc > s ==> d.downs > 0 && d.rest > 0.0)
      && (-s <= acc <= s ==> d == Drained(acc, 0, 0))
  {
    DrainUpFacts(acc, s);
    var up := DrainUp(acc, s);
    DrainDownFacts(up.0, s);
  }

  /**
   * The number of scroll-down ticks is one less than `ceil(acc / s)`: it
   * equals `floor(acc / s)` except on an exact multiple of `s`, where one
   * full unit stays in the accumulator.
   */
  lemma DownTicksCount(acc: real, s: real)
    requires s > 0.0 && acc > s
    ensures var d := Drain(acc, s);
      && d.ups == 0
      && d.rest == acc - d.downs as real * s
      && d.downs as real < acc / s <= d.downs as real + 1.0
  {
    DrainSpec(acc, s);
    var d := Drain(acc, s);
    var n := d.downs as real;
    assert acc == d.rest + n * s;
    assert acc / s == d.rest / s + n;
    assert 0.0 < d.rest / s <= 1.0;
  }

  /** Mirror image for scroll-up ticks. */
  lemma UpTicksCount(acc: real, s: real)
    requires s > 0.0 && acc < -s
    ensures var d := Drain(acc, s);
      && d.downs == 0
      && d.rest == acc + d.ups as real * s
      && d.ups as real < -acc / s <= d.ups as real + 1.0
  {
    DrainSpec(acc, s);
    var d := Drain(acc, s);
    var n := d.ups as real;
    assert acc == d.rest - n * s;
    assert -acc / s == -d.rest / s + n;
    assert 0.0 < -d.rest / s <= 1.0;
  }

  /** Twice the sensitivity drains to a single tick and keeps a full unit. */
  lemma ExactMultipleKeepsUnit(s: real)
    requires s > 0.0
    ensures Drain(2.0 * s, s) == Drained(s, 0, 1)
  {
    DrainSpec(2.0 * s, s);
    DownTicksCount(2.0 * s, s);
    assert (2.0 * s) / s == 2.0;
  }
}
