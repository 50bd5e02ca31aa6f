/**
 * The random and clock inputs of facility generation, passed in as values:
 * each `Math.random()` call is a fraction in [0, 1), each `new Date()` a
 * millisecond timestamp and each `UUID.randomUUID()` a string.
 */
module Draws {
  import opened Tables

  /** The range of `Math.random()`. */
  predicate IsFraction(u: real)
  {
    0.0 <= u < 1.0
  }

  /** The inputs drawn while one line is generated. */
  datatype LineDraw = LineDraw(
    now: int,           // the clock reading taken for the line's run
    runPick: real,      // picks the run name
    companyPick: real,  // picks the run's customer
    startFrac: real,    // how far before `now` the run starts
    endFrac: real,      // how far after `now` the run ends
    rid: string,        // the run's id
    cid: string)        // the calendar entry's id

  /** The inputs drawn while one facility is generated: two for the facility, one draw per line. */
  datatype FacilityDraw = FacilityDraw(capacityFrac: real, utilizationFrac: real, lines: seq<LineDraw>)

  predicate WellFormedLineDraw(ld: LineDraw)
  {
    IsFraction(ld.runPick) && IsFraction(ld.companyPick) && IsFraction(ld.startFrac) && IsFraction(ld.endFrac)
  }

  /** Fractions in range and one line draw per row of the line table. */
  predicate WellFormedDraw(c: Config, d: FacilityDraw)
  {
    && IsFraction(d.capacityFrac)
    && IsFraction(d.utilizationFrac)
    && |d.lines| == |c.lines|
    && forall i :: 0 <= i < |d.lines| ==> WellFormedLineDraw(d.lines[i])
  }

  /** A uniformly chosen element of `strs`: the element at index floor(u * |strs|). */
  function Pick(strs: seq<string>, u: real): (r: string)
    requires |strs| > 0 && IsFraction(u)
    ensures r in strs
  {
    var x := u * |strs| as real;
    assert x < |strs| as real by { assert (1.0 - u) * |strs| as real > 0.0; }
    strs[x.Floor]
  }

  /** Every element can be picked: the fraction i / |strs| selects index i. */
  lemma PickReachesEvery(strs: seq<string>, i: nat)
    requires i < |strs|
    ensures IsFraction(i as real / |strs| as real)
    ensures Pick(strs, i as real / |strs| as real) == strs[i]
  {
    var n := |strs| as real;
    var u := i as real / n;
    assert u * n == i as real;
    assert u < 1.0 by {
      assert (1.0 - u) * n == n - i as real;
    }
    assert (i as real).Floor == i;
  }

  /** `Math.round(random * 10000)`: Java rounds half up, that is floor(x + 0.5). */
  function Capacity(u: real): (r: int)
    requires IsFraction(u)
    ensures 0 <= r <= 10000
  {
    (u * 10000.0 + 0.5).Floor
  }

  /** `.90 + .1 * random`. */
  function Utilization(u: real): (r: real)
    requires IsFraction(u)
    ensures 0.9 <= r < 1.0
  {
    0.9 + 0.1 * u
  }

  /** How many milliseconds before the clock reading a run starts: floor(random * 2 * one hour). */
  function StartOffset(u: real): (r: int)
    requires IsFraction(u)
    ensures 0 <= r < 2 * MsInHour
  {
    var x := (u * 2.0) * MsInHour as real;
    assert x < (2 * MsInHour) as real by { assert (1.0 - u) * (2 * MsInHour) as real > 0.0; }
    x.Floor
  }

  /** How many milliseconds after the clock reading a run ends: floor(random * 4 * one hour). */
  function EndOffset(u: real): (r: int)
    requires IsFraction(u)
    ensures 0 <= r < 4 * MsInHour
  {
    var x := (u * 4.0) * MsInHour as real;
    assert x < (4 * MsInHour) as real by { assert (1.0 - u) * (4 * MsInHour) as real > 0.0; }
    x.Floor
  }
}
