/** The CHARGER current regulator: decoding the 7-bit current selector of
    CHG_CNFG_09 and choosing one for a requested current range. */
module Charger {
  import opened Types
  import opened Registers
  import opened Descriptors
  import opened Selector

  /** The current, in mA, that a charger code stands for: codes 0 to 3 all
      mean 60 mA, every further code adds 20 mA. */
  function CodeMilliamps(code: nat): int {
    if code <= 3 then 60 else 60 + 20 * (code - 3)
  }

  /** `max77693_list_voltage`: the value of a selector in µA (or µV), with the
      32-bit unsigned arithmetic of the expression `min + step * selector`. */
  function ListVoltage(rid: int, selector: U32): (r: Result<int>)
    ensures rid != CHARGER ==> r.Err?
    ensures r.Ok? ==> IsInt32(r.value)
  {
    if rid >= NUM_REGULATORS || rid < 0 then Err(EInval)
    else
      match VoltageMap(rid)
      case None => Err(EInval)
      case Some(d) =>
        var sel: U32 := if rid == CHARGER then (if selector <= 3 then 0 else selector - 3) else selector;
        var val := ToInt32(Wrap32(d.min + d.step * sel));
        if val > d.max then Err(EInval)
        else
          Ok(ToInt32(Wrap32(val * 1000)))
  }

  /** Every code up to 129 decodes, following the four-codes-for-60-mA quirk,
      to a current between 60 mA and the map's maximum of 2580 mA; the 7-bit
      codes stay at or below 2540 mA. Code 129 lands exactly on the maximum
      and is accepted, because the test is `val > max`. */
  lemma ChargerDecode(code: U32)
    requires code <= 0x81
    ensures ListVoltage(CHARGER, code) == Ok(1000 * CodeMilliamps(code))
    ensures 60000 <= 1000 * CodeMilliamps(code) <= 2580000
    ensures code <= 0x7f ==> 1000 * CodeMilliamps(code) <= 2540000
  {
  }

  /** The codes just past the 7-bit field, pinned: 128 and 129 are accepted,
      130 is the first one refused. */
  lemma ChargerDecodeBoundary()
    ensures ListVoltage(CHARGER, 128) == Ok(2560000)
    ensures ListVoltage(CHARGER, 129) == Ok(2580000)
    ensures ListVoltage(CHARGER, 130) == Err(EInval)
  {
  }

  /** Codes whose current would exceed 2580 mA are refused, as long as the
      value `min + step * selector` stays below 2^31. */
  lemma ChargerDecodeRejects(code: U32)
    requires 0x81 < code <= 107374182
    ensures ListVoltage(CHARGER, code) == Err(EInval)
  {
  }

  /** The first selector past that bound: `min + step * selector` reads as
      a negative int, passes the `> max` test, and `val * 1000` wraps to 12 mA. */
  lemma ChargerDecodeSignedWrap()
    ensures ListVoltage(CHARGER, 107374182) == Err(EInval)
    ensures ListVoltage(CHARGER, 107374183) == Ok(12000)
  {
  }

  /** From there on, as long as the unsigned sum stays below 2^32, it reads
      as a negative int, and every such selector is accepted although its
      current lies far above the maximum. */
  lemma ChargerDecodeNegativeAccepted(code: U32)
    requires 107374183 <= code <= 214748364
    ensures ListVoltage(CHARGER, code).Ok?
  {
    var sum := 60 + 20 * (code - 3);
    assert TWO_31 <= sum < TWO_32;
    assert Wrap32(sum) == sum;
    assert ToInt32(sum) < 0;
  }

  /** Within that range the product `val * 1000` can itself wrap to a
      negative int, which a C caller reads as an error code: 107481556 still
      yields a positive value, 107481557 is the first to yield a negative one. */
  lemma ChargerDecodeNegativeResult()
    ensures ListVoltage(CHARGER, 107481556) == Ok(2147472000)
    ensures ListVoltage(CHARGER, 107481557) == Ok(-2147475296)
  {
  }

  /** The unsigned sum wraps for the selectors after that: 214748365 wraps to
      4 mA, and 214748368 to 64 mA, a current that is not on the 20 mA grid. */
  lemma ChargerDecodeWraps()
    ensures ListVoltage(CHARGER, 214748365) == Ok(4000)
    ensures ListVoltage(CHARGER, 214748368) == Ok(64000)
  {
  }

  /** `max77693_set_voltage` (the charger's `set_current_limit`), as written:
      the selector search bounds the selector to the map's 7 bits, and only
      afterwards is the offset of 3 added. */
  function SetVoltage(regs: RegFile, rid: int, minUA: int, maxUA: int): (r: Result<RegFile>)
    ensures r.Ok? <==> rid == CHARGER && ProperVal(Some(ChargerCurrentMap), Div1000(minUA), Div1000(maxUA)).Ok?
    ensures r.Ok? ==>
              var sel := ProperVal(Some(ChargerCurrentMap), Div1000(minUA), Div1000(maxUA)).value;
              r.value.Read(ChgCnfg09) & 0x7f == ((sel + 3) as bv8) & 0x7f
    ensures r.Ok? ==> r.value.Read(SafeoutCtrl) == regs.Read(SafeoutCtrl)
    ensures r.Ok? ==> r.value.Read(ChgCnfg00) == regs.Read(ChgCnfg00)
    ensures r.Ok? ==> r.value.Read(ChgCnfg09) & 0x80 == regs.Read(ChgCnfg09) & 0x80
  {
    var minVol := Div1000(minUA);
    var maxVol := Div1000(maxUA);
    if rid != CHARGER then Err(EInval)
    else
      var desc := VoltageMap(rid);
      match ProperVal(desc, minVol, maxVol)
      case Err(e) => Err(e)
      case Ok(sel) =>
        assert sel < 128;
        var code := sel + 3;
        match GetVoltageRegister(rid)
        case Err(e) => Err(e)
        case Ok(f) => Ok(UpdateReg(regs, f.reg, (code as bv8) << f.shift, f.mask << f.shift))
  }

  /** The code `max77693_set_voltage` writes for a request in mA: the
      selector found by the search, shifted past the three extra 60 mA codes. */
  lemma ChargerCode(minVol: int, maxVol: int)
    requires ProperVal(Some(ChargerCurrentMap), minVol, maxVol).Ok?
    ensures var sel := ProperVal(Some(ChargerCurrentMap), minVol, maxVol).value;
              && sel <= 126
              && CodeMilliamps(sel + 3) == Value(ChargerCurrentMap, sel)
              && minVol <= CodeMilliamps(sel + 3) <= maxVol
  {
    DriverMapsOnGrid();
    ProperValComplete(ChargerCurrentMap, minVol, maxVol);
  }

  /** A charger request can be met by a code that fits the 7-bit field
      exactly when the search succeeds with a selector below 125. */
  lemma ChargerFitsField(minVol: int, maxVol: int)
    ensures (ProperVal(Some(ChargerCurrentMap), minVol, maxVol).Ok? &&
             ProperVal(Some(ChargerCurrentMap), minVol, maxVol).value + 3 <= 0x7f)
            <==>
            (exists code: nat :: code <= 0x7f && minVol <= CodeMilliamps(code) <= maxVol)
  {
    var d := ChargerCurrentMap;
    var r := ProperVal(Some(d), minVol, maxVol);
    if r.Ok? && r.value + 3 <= 0x7f {
      ChargerCode(minVol, maxVol);
      var code: nat := r.value + 3;
      assert code <= 0x7f && minVol <= CodeMilliamps(code) <= maxVol;
    }
    if code: nat :| code <= 0x7f && minVol <= CodeMilliamps(code) <= maxVol {
      var w := if code <= 3 then 0 else code - 3;
      assert Value(d, w) == CodeMilliamps(code);
      DriverMapsOnGrid();
      ProperValComplete(d, minVol, maxVol);
      assert r.Ok?;
      assert r.value <= w;
    }
  }

  /** The evident intent of `max77693_set_voltage`: the bound on the field
      width applies to the code actually written, offset included. */
  function SetVoltageChecked(regs: RegFile, rid: int, minUA: int, maxUA: int): (r: Result<RegFile>)
    ensures r.Ok? <==>
              (rid == CHARGER && exists code: nat :: code <= 0x7f && Div1000(minUA) <= CodeMilliamps(code) <= Div1000(maxUA))
    ensures r.Ok? ==> r.value.Read(SafeoutCtrl) == regs.Read(SafeoutCtrl)
    ensures r.Ok? ==> r.value.Read(ChgCnfg00) == regs.Read(ChgCnfg00)
    ensures r.Ok? ==> r.value.Read(ChgCnfg09) & 0x80 == regs.Read(ChgCnfg09) & 0x80
  {
    var minVol := Div1000(minUA);
    var maxVol := Div1000(maxUA);
    ChargerFitsField(minVol, maxVol);
    if rid != CHARGER then Err(EInval)
    else
      var desc := VoltageMap(rid);
      match ProperVal(desc, minVol, maxVol)
      case Err(e) => Err(e)
      case Ok(sel) =>
        var code := sel + 3;
        if code > 0x7f then Err(EInval)
        else
          match GetVoltageRegister(rid)
          case Err(e) => Err(e)
          case Ok(f) => Ok(UpdateReg(regs, f.reg, (code as bv8) << f.shift, f.mask << f.shift))
  }
}
