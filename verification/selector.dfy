/** `max77693_get_voltage_proper_val`: the search for the smallest selector
    of a linear map whose value reaches a requested minimum, together with
    the checks that the value also respects the requested maximum and that
    the selector fits the map's field width. */
module Selector {
  import opened Types
  import opened Descriptors

  /** What the search loop needs of a map to terminate and be meaningful. */
  predicate WellFormed(d: MapDesc) {
    d.step > 0 && d.min <= d.max
  }

  /** The value a selector stands for. */
  function Value(d: MapDesc, sel: int): int {
    d.min + d.step * sel
  }

  /** `1 << n`. */
  function Pow2(n: nat): nat {
    if n == 0 then 1 else 2 * Pow2(n - 1)
  }

  lemma ValueMonotone(d: MapDesc, a: int, b: int)
    requires d.step > 0 && a <= b
    ensures Value(d, a) <= Value(d, b)
  {
    assert d.step * b - d.step * a == d.step * (b - a);
  }

  /** The least selector whose value is at least `target`, in closed form. */
  function FirstAtLeast(d: MapDesc, target: int): (sel: nat)
    requires d.step > 0
    ensures Value(d, sel) >= target
    ensures forall w :: 0 <= w < sel ==> Value(d, w) < target
  {
    if target <= d.min then 0
    else
      var q := (target - d.min + d.step - 1) / d.step;
      assert q * d.step >= target - d.min && (q - 1) * d.step < target - d.min by {
        var n := target - d.min + d.step - 1;
        assert n == q * d.step + n % d.step;
      }
      forall w | 0 <= w < q ensures Value(d, w) < target {
        ValueMonotone(d, w, q - 1);
      }
      q
  }

  /** The result of `max77693_get_voltage_proper_val(desc, minVol, maxVol)`. */
  function ProperVal(desc: Option<MapDesc>, minVol: int, maxVol: int): (r: Result<nat>)
    requires desc.Some? ==> WellFormed(desc.value)
    ensures desc.None? ==> r.Err?
    ensures r.Ok? ==> var d := desc.value;
              && minVol <= Value(d, r.value) <= maxVol
              && r.value < Pow2(d.nBits)
              && forall w :: 0 <= w < r.value ==> Value(d, w) < minVol
  {
    match desc
    case None => Err(EInval)
    case Some(d) =>
      if maxVol < d.min || minVol > d.max then Err(EInval)
      else
        var sel := FirstAtLeast(d, minVol);
        if Value(d, sel) > maxVol then Err(EInval)
        else if sel >= Pow2(d.nBits) then Err(EInval)
        else Ok(sel)
  }

  /** The search as the driver writes it: step the selector up while its
      value is below both the requested minimum and the map's maximum. */
  method GetVoltageProperVal(desc: Option<MapDesc>, minVol: int, maxVol: int)
      returns (r: Result<nat>)
    requires desc.Some? ==> WellFormed(desc.value)
    ensures r == ProperVal(desc, minVol, maxVol)
  {
    if desc.None? {
      return Err(EInval);
    }
    var d := desc.value;
    if maxVol < d.min || minVol > d.max {
      return Err(EInval);
    }
    var sel: nat := 0;
    while Value(d, sel) < minVol && Value(d, sel) < d.max
      invariant sel <= FirstAtLeast(d, minVol)
      decreases d.max - Value(d, sel)
    {
      sel := sel + 1;
    }
    if Value(d, sel) > maxVol {
      return Err(EInval);
    }
    if sel >= Pow2(d.nBits) {
      return Err(EInval);
    }
    return Ok(sel);
  }

  /** When the map's maximum lies on its grid, the search fails exactly when
      no selector of the field width has a value in both the requested range
      and the map's range, and a success never exceeds the map's maximum. */
  lemma ProperValComplete(d: MapDesc, minVol: int, maxVol: int)
    requires WellFormed(d) && (d.max - d.min) % d.step == 0
    ensures ProperVal(Some(d), minVol, maxVol).Ok? <==>
              exists w :: 0 <= w < Pow2(d.nBits) && minVol <= Value(d, w) <= maxVol && Value(d, w) <= d.max
    ensures ProperVal(Some(d), minVol, maxVol).Ok? ==>
              Value(d, ProperVal(Some(d), minVol, maxVol).value) <= d.max
  {
    var r := ProperVal(Some(d), minVol, maxVol);
    var top := (d.max - d.min) / d.step;
    assert Value(d, top) == d.max by {
      assert d.max - d.min == top * d.step;
    }
    if r.Ok? {
      var v := r.value;
      if Value(d, v) > d.max {
        if v <= top {
          ValueMonotone(d, v, top);
        } else {
          ValueMonotone(d, top, v - 1);
        }
        assert false;
      }
      assert 0 <= v < Pow2(d.nBits) && minVol <= Value(d, v) <= maxVol && Value(d, v) <= d.max;
    }
    if w :| 0 <= w < Pow2(d.nBits) && minVol <= Value(d, w) <= maxVol && Value(d, w) <= d.max {
      assert d.min <= Value(d, w) by {
        ValueMonotone(d, 0, w);
      }
      var sel := FirstAtLeast(d, minVol);
      assert sel <= w;
      ValueMonotone(d, sel, w);
    }
  }

  /** For both maps of the driver the maximum lies on the grid. */
  lemma DriverMapsOnGrid()
    ensures WellFormed(ChargerCurrentMap) && (ChargerCurrentMap.max - ChargerCurrentMap.min) % ChargerCurrentMap.step == 0
    ensures WellFormed(TopoffCurrentMap) && (TopoffCurrentMap.max - TopoffCurrentMap.min) % TopoffCurrentMap.step == 0
    ensures Pow2(ChargerCurrentMap.nBits) == 128 && Pow2(TopoffCurrentMap.nBits) == 16
  {
  }
}
