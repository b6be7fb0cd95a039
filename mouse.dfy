/** The Windows mouse-speed setting (1..20) turned into the pointer multiplier that scales
    raw mouse deltas: a fixed table, clamped outside its key range and linearly
    interpolated between neighbouring keys. */
module Mouse {
  import opened Wrappers

  /** The table, in increasing key order. */
  const SensitivityTable: seq<(int, real)> := [
    (1, 0.0625), (2, 0.125), (4, 0.25), (6, 0.5), (8, 0.75), (10, 1.0),
    (12, 1.5), (14, 2.0), (16, 2.5), (18, 3.0), (20, 3.5)]

  /** Keys strictly and values weakly increasing. */
  predicate Ascending(t: seq<(int, real)>)
  {
    forall i, j :: 0 <= i < j < |t| ==> t[i].0 < t[j].0 && t[i].1 <= t[j].1
  }

  /** `std::map::find`. */
  function Find(t: seq<(int, real)>, key: int): (r: Option<real>)
    ensures r.Some? ==> exists i :: 0 <= i < |t| && t[i] == (key, r.value)
    ensures r.None? ==> forall i :: 0 <= i < |t| ==> t[i].0 != key
  {
    if t == [] then None
    else if t[0].0 == key then Some(t[0].1)
    else Find(t[1..], key)
  }

  /** `y0 + t * (y1 - y0)` with `t = (x - x0) / (x1 - x0)`. */
  function Lerp(x0: int, y0: real, x1: int, y1: real, x: int): (r: real)
    requires x0 < x <= x1 && y0 <= y1
    ensures y0 <= r <= y1
  {
    var f := (x - x0) as real / (x1 - x0) as real;
    FractionScales(f, y1 - y0);
    y0 + f * (y1 - y0)
  }

  lemma FractionScales(f: real, d: real)
    requires 0.0 <= f <= 1.0 && d >= 0.0
    ensures 0.0 <= f * d <= d
  {
    assert d - f * d == (1.0 - f) * d;
  }

  /** The two entries that enclose `x`, found by walking the table, interpolated. */
  function Interpolate(t: seq<(int, real)>, x: int): (r: real)
    requires |t| >= 2 && Ascending(t)
    requires t[0].0 < x < t[|t| - 1].0
    ensures exists i ::
      && 0 <= i < |t| - 1 && t[i].0 < x <= t[i + 1].0 && t[i].1 <= t[i + 1].1
      && r == Lerp(t[i].0, t[i].1, t[i + 1].0, t[i + 1].1, x)
    decreases |t|
  {
    if x <= t[1].0 then
      Lerp(t[0].0, t[0].1, t[1].0, t[1].1, x)
    else
      AscendingTail(t);
      var r := Interpolate(t[1..], x);
      ghost var i :| 0 <= i < |t| - 2 && t[1..][i].0 < x <= t[1..][i + 1].0 && t[1..][i].1 <= t[1..][i + 1].1
        && r == Lerp(t[1..][i].0, t[1..][i].1, t[1..][i + 1].0, t[1..][i + 1].1, x);
      assert t[1..][i] == t[i + 1] && t[1..][i + 1] == t[i + 2];
      r
  }

  /** Dropping the first entry keeps a table ascending. */
  lemma AscendingTail(t: seq<(int, real)>)
    requires |t| >= 1 && Ascending(t)
    ensures Ascending(t[1..])
  {
  }

  lemma TableAscending()
    ensures Ascending(SensitivityTable)
  {
  }

  /** Lookup in an ascending table: the exact entry when the key is listed, the first or
      last value outside the key range, and an interpolation between neighbours inside. */
  function Lookup(t: seq<(int, real)>, x: int): (m: real)
    requires |t| >= 2 && Ascending(t)
    ensures forall i :: 0 <= i < |t| && t[i].0 == x ==> m == t[i].1
    ensures x <= t[0].0 ==> m == t[0].1
    ensures x >= t[|t| - 1].0 ==> m == t[|t| - 1].1
    ensures t[0].0 < x < t[|t| - 1].0 ==>
      exists i :: 0 <= i < |t| - 1 && t[i].0 < x <= t[i + 1].0 && t[i].1 <= m <= t[i + 1].1
    ensures t[0].1 <= m <= t[|t| - 1].1
  {
    match Find(t, x)
    case Some(v) =>
      ghost var i :| 0 <= i < |t| && t[i] == (x, v);
      assert 0 < i ==> t[i - 1].0 < x <= t[i].0 && t[i - 1].1 <= v <= t[i].1;
      v
    case None =>
      if x <= t[0].0 then t[0].1
      else if x >= t[|t| - 1].0 then t[|t| - 1].1
      else Interpolate(t, x)
  }

  /** `GetMouseSpeedMultiplier`: 0.0625 at or below speed 1, 3.5 at or above 20, the
      table's value at its keys and a value between the neighbouring keys' values
      elsewhere. */
  function GetMouseSpeedMultiplier(mouseSpeed: int): (m: real)
    ensures forall i :: 0 <= i < |SensitivityTable| && SensitivityTable[i].0 == mouseSpeed ==> m == SensitivityTable[i].1
    ensures mouseSpeed <= 1 ==> m == 0.0625
    ensures mouseSpeed >= 20 ==> m == 3.5
    ensures 1 < mouseSpeed < 20 ==>
      exists i :: 0 <= i < |SensitivityTable| - 1
        && SensitivityTable[i].0 < mouseSpeed <= SensitivityTable[i + 1].0
        && SensitivityTable[i].1 <= m <= SensitivityTable[i + 1].1
    ensures 0.0625 <= m <= 3.5
  {
    TableAscending();
    Lookup(SensitivityTable, mouseSpeed)
  }

  /** Strictly inside the key range, at a speed that is not a key, the lookup is the
      linear interpolation between the two neighbouring entries. */
  lemma LookupInterpolates(t: seq<(int, real)>, x: int)
    requires |t| >= 2 && Ascending(t)
    requires t[0].0 < x < t[|t| - 1].0
    requires forall k :: 0 <= k < |t| ==> t[k].0 != x
    ensures exists i ::
      && 0 <= i < |t| - 1 && t[i].0 < x <= t[i + 1].0 && t[i].1 <= t[i + 1].1
      && Lookup(t, x) == Lerp(t[i].0, t[i].1, t[i + 1].0, t[i + 1].1, x)
  {
    assert Find(t, x).None?;
    assert Lookup(t, x) == Interpolate(t, x);
  }

  /** The listed speeds are 1 and the even numbers up to 20. */
  lemma OddSpeedIsNotAKey(mouseSpeed: int)
    requires mouseSpeed % 2 == 1 && mouseSpeed > 1
    ensures forall k :: 0 <= k < |SensitivityTable| ==> SensitivityTable[k].0 != mouseSpeed
  {
    forall k | 0 <= k < |SensitivityTable|
      ensures SensitivityTable[k].0 != mouseSpeed
    {
      assert SensitivityTable[k].0 == 1 || SensitivityTable[k].0 % 2 == 0;
    }
  }

  /** An odd speed between 1 and 20 is not listed, so its multiplier is the linear
      interpolation between the neighbouring listed speeds. */
  lemma MultiplierInterpolates(mouseSpeed: int)
    requires 1 < mouseSpeed < 20 && mouseSpeed % 2 == 1
    ensures var t, m := SensitivityTable, GetMouseSpeedMultiplier(mouseSpeed);
      exists i ::
        && 0 <= i < |t| - 1 && t[i].0 < mouseSpeed <= t[i + 1].0 && t[i].1 <= t[i + 1].1
        && m == Lerp(t[i].0, t[i].1, t[i + 1].0, t[i + 1].1, mouseSpeed)
  {
    TableAscending();
    OddSpeedIsNotAKey(mouseSpeed);
    LookupInterpolates(SensitivityTable, mouseSpeed);
  }
}
