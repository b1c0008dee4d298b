/** Properties that relate several operations of the MAX77693 regulator
    driver: set-then-get round trips, idempotence of enabling, and the
    independence of the fields that share SAFEOUT_CTRL. */
module RegulatorProperties {
  import opened Types
  import opened Registers
  import opened Descriptors
  import opened Selector
  import opened Safeout
  import opened Charger
  import opened Regulator

  /** Bits that lie outside an updated mask keep their values. */
  lemma KeepOutside(after: bv8, before: bv8, m: bv8, k: bv8)
    requires after & !m == before & !m
    requires k & m == 0
    ensures after & k == before & k
  {
  }

  /** ESAFEOUT2's selector, bits 2-3, depends only on those bits. */
  lemma UpperFieldOwnBits(x: bv8, y: bv8)
    requires x & 0xc == y & 0xc
    ensures (x >> 2) & 3 == (y >> 2) & 3
  {
    assert (x >> 2) & 3 == (x & 0xc) >> 2;
    assert (y >> 2) & 3 == (y & 0xc) >> 2;
  }

  /** A regulator's reading depends only on the bits of its own field. */
  lemma GetVoltageFrame(x: RegFile, y: RegFile, rid: int)
    requires GetVoltageRegister(rid).Ok?
    requires var f := GetVoltageRegister(rid).value;
               x.Read(f.reg) & FieldBits(f) == y.Read(f.reg) & FieldBits(f)
    ensures GetVoltage(x, rid) == GetVoltage(y, rid)
  {
    var f := GetVoltageRegister(rid).value;
    if rid == ESAFEOUT1 {
      assert f == VoltageField(SafeoutCtrl, 0, 3);
      assert x.Read(SafeoutCtrl) & 3 == y.Read(SafeoutCtrl) & 3;
    } else if rid == ESAFEOUT2 {
      assert f == VoltageField(SafeoutCtrl, 2, 3);
      assert FieldBits(f) == 0xc;
      UpperFieldOwnBits(x.Read(SafeoutCtrl), y.Read(SafeoutCtrl));
    } else {
      assert f == VoltageField(ChgCnfg09, 0, 0x7f);
      assert x.Read(ChgCnfg09) & 0x7f == y.Read(ChgCnfg09) & 0x7f;
    }
  }

  /** A regulator's enable state depends only on its enable bits. */
  lemma IsEnabledFrame(x: RegFile, y: RegFile, rid: int)
    requires GetEnableRegister(rid).Ok?
    requires var f := GetEnableRegister(rid).value;
               x.Read(f.reg) & f.mask == y.Read(f.reg) & f.mask
    ensures IsEnabled(x, rid) == IsEnabled(y, rid)
  {
  }

  /** A code below 0x80 survives the 7-bit field unchanged. */
  lemma CodeFitsField(code: nat)
    requires code <= 0x7f
    ensures ((code as bv8) & 0x7f) as nat == code
  {
    assert (code as bv8) & 0x7f == code as bv8;
  }

  /** Enabling an enabled regulator writes nothing new. */
  lemma EnableIdempotent(regs: RegFile, rid: int)
    requires IsEnabled(regs, rid) == Ok(true)
    ensures Enable(regs, rid) == Ok(regs)
  {
    var f := GetEnableRegister(rid).value;
    var v := regs.Read(f.reg);
    if rid == ESAFEOUT1 {
      assert f == EnableField(SafeoutCtrl, 0x40, 0x40);
      assert v & 0x40 == 0x40;
      assert (v & !0x40) | (0x40 & 0x40) == v;
    } else if rid == ESAFEOUT2 {
      assert f == EnableField(SafeoutCtrl, 0x80, 0x80);
      assert v & 0x80 == 0x80;
      assert (v & !0x80) | (0x80 & 0x80) == v;
    } else {
      assert f == EnableField(ChgCnfg00, 0xf, 0x5);
      assert v & 0xf == 0x5;
      assert (v & !0xf) | (0x5 & 0xf) == v;
    }
    WriteUnchanged(regs, f.reg);
  }

  /** Disabling a regulator whose enable bits are clear writes nothing new. */
  lemma DisableIdempotent(regs: RegFile, rid: int)
    requires Disable(regs, rid).Ok?
    requires regs.Read(GetDisableRegister(rid).value.reg) & GetDisableRegister(rid).value.mask == 0
    ensures Disable(regs, rid) == Ok(regs)
  {
    var f := GetDisableRegister(rid).value;
    var v := regs.Read(f.reg);
    assert (v & !f.mask) | (f.pattern & f.mask) == v;
  }

  /** Switching a safe-out output on or off keeps both output voltages, the
      other output's state and everything of the charger. */
  lemma SafeoutSwitchPreserves(regs: RegFile, a: int, b: int, on: bool)
    requires IsSafeout(a) && IsSafeout(b) && a != b
    ensures var r := if on then Enable(regs, a) else Disable(regs, a);
              && r.Ok?
              && GetVoltage(r.value, a) == GetVoltage(regs, a)
              && GetVoltage(r.value, b) == GetVoltage(regs, b)
              && IsEnabled(r.value, b) == IsEnabled(regs, b)
              && IsEnabled(r.value, CHARGER) == IsEnabled(regs, CHARGER)
              && GetVoltage(r.value, CHARGER) == GetVoltage(regs, CHARGER)
  {
    var r := if on then Enable(regs, a) else Disable(regs, a);
    EnableDisableAgree(a);
    OnlyEnableBitsChange(r.value, regs, a, b);
  }

  /** What a change confined to one safe-out output's enable bit keeps. */
  lemma OnlyEnableBitsChange(x: RegFile, regs: RegFile, a: int, b: int)
    requires IsSafeout(a) && IsSafeout(b) && a != b
    requires var m := GetEnableRegister(a).value.mask;
               x.Read(SafeoutCtrl) & !m == regs.Read(SafeoutCtrl) & !m
    requires x.Read(ChgCnfg00) == regs.Read(ChgCnfg00) && x.Read(ChgCnfg09) == regs.Read(ChgCnfg09)
    ensures GetVoltage(x, a) == GetVoltage(regs, a)
    ensures GetVoltage(x, b) == GetVoltage(regs, b)
    ensures IsEnabled(x, b) == IsEnabled(regs, b)
    ensures IsEnabled(x, CHARGER) == IsEnabled(regs, CHARGER)
    ensures GetVoltage(x, CHARGER) == GetVoltage(regs, CHARGER)
  {
    var m := GetEnableRegister(a).value.mask;
    var after := x.Read(SafeoutCtrl);
    var before := regs.Read(SafeoutCtrl);
    FieldsDisjoint(a, b);
    FieldsDisjoint(b, a);
    assert GetVoltage(x, a) == GetVoltage(regs, a) by {
      KeepOutside(after, before, m, FieldBits(GetVoltageRegister(a).value));
      GetVoltageFrame(x, regs, a);
    }
    assert GetVoltage(x, b) == GetVoltage(regs, b) by {
      KeepOutside(after, before, m, FieldBits(GetVoltageRegister(b).value));
      GetVoltageFrame(x, regs, b);
    }
    assert IsEnabled(x, b) == IsEnabled(regs, b) by {
      KeepOutside(after, before, m, GetEnableRegister(b).value.mask);
      IsEnabledFrame(x, regs, b);
    }
    GetVoltageFrame(x, regs, CHARGER);
    IsEnabledFrame(x, regs, CHARGER);
  }

  /** After a successful safe-out request the output reads back the voltage
      that was chosen, which is the lowest table voltage inside the request. */
  lemma SafeoutSetGet(regs: RegFile, rid: int, minUV: int, maxUV: int)
    requires SetVoltageSafeout(regs, rid, minUV, maxUV).Ok?
    ensures var s := SetVoltageSafeout(regs, rid, minUV, maxUV).value;
              && GetVoltage(s.regs, rid) == ListVoltageSafeout(rid, s.selector)
              && Fits(GetVoltage(s.regs, rid).value, minUV, maxUV)
              && forall j :: 0 <= j < |SafeoutVolt| && Fits(SafeoutVolt[j], minUV, maxUV) ==>
                   GetVoltage(s.regs, rid).value <= SafeoutVolt[j]
  {
    var s := SetVoltageSafeout(regs, rid, minUV, maxUV).value;
    var f := GetVoltageRegister(rid).value;
    var sel := s.selector as bv8;
    var after := s.regs.Read(SafeoutCtrl);
    assert after & (f.mask << f.shift) == (sel << f.shift) & (f.mask << f.shift);
    assert (after >> f.shift) & f.mask == sel;
  }

  /** A safe-out request changes that output's selector field only: the
      other output's voltage, both enable bits and the charger stay as
      they were. */
  lemma SafeoutSetPreserves(regs: RegFile, a: int, b: int, minUV: int, maxUV: int)
    requires IsSafeout(b) && a != b
    requires SetVoltageSafeout(regs, a, minUV, maxUV).Ok?
    ensures var s := SetVoltageSafeout(regs, a, minUV, maxUV).value;
              && SameOutsideSelector(s.regs, regs, a)
              && s.regs.Read(ChgCnfg00) == regs.Read(ChgCnfg00)
              && s.regs.Read(ChgCnfg09) == regs.Read(ChgCnfg09)
              && GetVoltage(s.regs, b) == GetVoltage(regs, b)
              && IsEnabled(s.regs, a) == IsEnabled(regs, a)
              && IsEnabled(s.regs, b) == IsEnabled(regs, b)
              && IsEnabled(s.regs, CHARGER) == IsEnabled(regs, CHARGER)
              && GetVoltage(s.regs, CHARGER) == GetVoltage(regs, CHARGER)
  {
    var s := SetVoltageSafeout(regs, a, minUV, maxUV).value;
    OnlySelectorBitsChange(s.regs, regs, a, b);
  }

  /** The bits of SAFEOUT_CTRL outside output `a`'s selector field. */
  predicate SameOutsideSelector(x: RegFile, regs: RegFile, a: int)
    requires IsSafeout(a)
  {
    var m := FieldBits(GetVoltageRegister(a).value);
    x.Read(SafeoutCtrl) & !m == regs.Read(SafeoutCtrl) & !m
  }

  /** What a change confined to one safe-out output's selector field keeps. */
  lemma OnlySelectorBitsChange(x: RegFile, regs: RegFile, a: int, b: int)
    requires IsSafeout(a) && IsSafeout(b) && a != b
    requires SameOutsideSelector(x, regs, a)
    requires x.Read(ChgCnfg00) == regs.Read(ChgCnfg00) && x.Read(ChgCnfg09) == regs.Read(ChgCnfg09)
    ensures GetVoltage(x, b) == GetVoltage(regs, b)
    ensures IsEnabled(x, a) == IsEnabled(regs, a)
    ensures IsEnabled(x, b) == IsEnabled(regs, b)
    ensures IsEnabled(x, CHARGER) == IsEnabled(regs, CHARGER)
    ensures GetVoltage(x, CHARGER) == GetVoltage(regs, CHARGER)
  {
    SelectorChangeKeepsOtherVoltage(x, regs, a, b);
    SelectorChangeKeepsEnable(x, regs, a, a);
    SelectorChangeKeepsEnable(x, regs, a, b);
    GetVoltageFrame(x, regs, CHARGER);
    IsEnabledFrame(x, regs, CHARGER);
  }

  lemma SelectorChangeKeepsOtherVoltage(x: RegFile, regs: RegFile, a: int, b: int)
    requires IsSafeout(a) && IsSafeout(b) && a != b
    requires SameOutsideSelector(x, regs, a)
    ensures GetVoltage(x, b) == GetVoltage(regs, b)
  {
    FieldsDisjoint(a, b);
    var m := FieldBits(GetVoltageRegister(a).value);
    KeepOutside(x.Read(SafeoutCtrl), regs.Read(SafeoutCtrl), m, FieldBits(GetVoltageRegister(b).value));
    GetVoltageFrame(x, regs, b);
  }

  lemma SelectorChangeKeepsEnable(x: RegFile, regs: RegFile, a: int, c: int)
    requires IsSafeout(a) && IsSafeout(c)
    requires SameOutsideSelector(x, regs, a)
    ensures IsEnabled(x, c) == IsEnabled(regs, c)
  {
    FieldsDisjoint(a, c);
    var m := FieldBits(GetVoltageRegister(a).value);
    KeepOutside(x.Read(SafeoutCtrl), regs.Read(SafeoutCtrl), m, GetEnableRegister(c).value.mask);
    IsEnabledFrame(x, regs, c);
  }

  /** Round trip of the charger current as the driver writes it: whenever
      the requested minimum is at most 2540 mA, a successful request reads
      back a current inside the request (in whole mA), with the enable
      bits and the safe-out outputs untouched. */
  lemma ChargerSetGet(regs: RegFile, minUA: int, maxUA: int)
    requires SetVoltage(regs, CHARGER, minUA, maxUA).Ok?
    requires Div1000(minUA) <= 2540
    ensures var r := SetVoltage(regs, CHARGER, minUA, maxUA).value;
              && GetVoltage(r, CHARGER).Ok?
              && Div1000(minUA) * 1000 <= GetVoltage(r, CHARGER).value <= Div1000(maxUA) * 1000
              && IsEnabled(r, CHARGER) == IsEnabled(regs, CHARGER)
              && GetVoltage(r, ESAFEOUT1) == GetVoltage(regs, ESAFEOUT1)
              && GetVoltage(r, ESAFEOUT2) == GetVoltage(regs, ESAFEOUT2)
  {
    SetVoltageAgreesWhenInField(regs, CHARGER, minUA, maxUA);
    ChargerCheckedSetGet(regs, minUA, maxUA);
  }

  /** Round trip of the corrected charger request, with no side condition. */
  lemma ChargerCheckedSetGet(regs: RegFile, minUA: int, maxUA: int)
    requires SetVoltageChecked(regs, CHARGER, minUA, maxUA).Ok?
    ensures var r := SetVoltageChecked(regs, CHARGER, minUA, maxUA).value;
              && GetVoltage(r, CHARGER).Ok?
              && Div1000(minUA) * 1000 <= GetVoltage(r, CHARGER).value <= Div1000(maxUA) * 1000
              && IsEnabled(r, CHARGER) == IsEnabled(regs, CHARGER)
              && GetVoltage(r, ESAFEOUT1) == GetVoltage(regs, ESAFEOUT1)
              && GetVoltage(r, ESAFEOUT2) == GetVoltage(regs, ESAFEOUT2)
  {
    var minVol := Div1000(minUA);
    var maxVol := Div1000(maxUA);
    var r := SetVoltageChecked(regs, CHARGER, minUA, maxUA).value;
    var sel := ProperVal(Some(ChargerCurrentMap), minVol, maxVol).value;
    ChargerCode(minVol, maxVol);
    var code := sel + 3;
    assert code <= 0x7f;
    assert r.Read(ChgCnfg00) == regs.Read(ChgCnfg00);
    assert r.Read(SafeoutCtrl) == regs.Read(SafeoutCtrl);
    assert r.Read(ChgCnfg09) & 0x7f == (code as bv8) & 0x7f;
    CodeFitsField(code);
    GetVoltageFrame(r, regs, ESAFEOUT1);
    GetVoltageFrame(r, regs, ESAFEOUT2);
    IsEnabledFrame(r, regs, CHARGER);
  }

  /** Where the code fits the field, the driver's request and the corrected
      one write the same registers. */
  lemma SetVoltageAgreesWhenInField(regs: RegFile, rid: int, minUA: int, maxUA: int)
    requires Div1000(minUA) <= 2540
    ensures SetVoltage(regs, rid, minUA, maxUA) == SetVoltageChecked(regs, rid, minUA, maxUA)
  {
    var minVol := Div1000(minUA);
    var maxVol := Div1000(maxUA);
    if rid == CHARGER && ProperVal(Some(ChargerCurrentMap), minVol, maxVol).Ok? {
      var sel := ProperVal(Some(ChargerCurrentMap), minVol, maxVol).value;
      assert Value(ChargerCurrentMap, 124) >= minVol;
      assert sel <= 124;
    }
  }

  /** Any successful charger request with a minimum above 2540 mA, a range
      the map allows up to 2580 mA, makes the search return 125 or 126; the
      driver writes code 128 or 129, the 7-bit field keeps 0 or 1, and the
      charger reads back 60 mA, below what was asked. The corrected request
      refuses every such range. */
  lemma ChargerTopOfRange(regs: RegFile, minUA: int, maxUA: int)
    requires SetVoltage(regs, CHARGER, minUA, maxUA).Ok?
    requires Div1000(minUA) > 2540
    ensures GetVoltage(SetVoltage(regs, CHARGER, minUA, maxUA).value, CHARGER) == Ok(60000)
    ensures 60000 < Div1000(minUA) * 1000
    ensures SetVoltageChecked(regs, CHARGER, minUA, maxUA) == Err(EInval)
  {
    ChargerTopField(regs, minUA, maxUA);
    LowFieldReadsMinimum(SetVoltage(regs, CHARGER, minUA, maxUA).value);
    ChargerTopRefused(regs, minUA, maxUA);
  }

  /** Such a request leaves 0 or 1 in the 7-bit field: code 128 or 129
      truncated. */
  lemma ChargerTopField(regs: RegFile, minUA: int, maxUA: int)
    requires SetVoltage(regs, CHARGER, minUA, maxUA).Ok?
    requires Div1000(minUA) > 2540
    ensures var field := SetVoltage(regs, CHARGER, minUA, maxUA).value.Read(ChgCnfg09) & 0x7f;
            field == 0 || field == 1
  {
    var sel := ChargerTopSelector(Div1000(minUA), Div1000(maxUA));
    TopCodeTruncated(sel);
  }

  /** Codes 128 and 129 keep only 0 and 1 under the 7-bit mask. */
  lemma TopCodeTruncated(sel: nat)
    requires sel == 125 || sel == 126
    ensures ((sel + 3) as bv8) & 0x7f == (sel - 125) as bv8
  {
    if sel == 125 {
      assert (sel + 3) as bv8 == 128;
    } else {
      assert (sel + 3) as bv8 == 129;
    }
  }

  /** Fields 0 and 1 both read back as the lowest current, 60 mA. */
  lemma LowFieldReadsMinimum(r: RegFile)
    requires r.Read(ChgCnfg09) & 0x7f == 0 || r.Read(ChgCnfg09) & 0x7f == 1
    ensures GetVoltage(r, CHARGER) == Ok(60000)
  {
    var field := r.Read(ChgCnfg09) & 0x7f;
    assert CodeMilliamps(field as nat) == 60;
  }

  /** Above 2540 mA the search can only return one of the two selectors
      whose code no longer fits the field. */
  lemma ChargerTopSelector(minVol: int, maxVol: int) returns (sel: nat)
    requires ProperVal(Some(ChargerCurrentMap), minVol, maxVol).Ok?
    requires minVol > 2540
    ensures sel == ProperVal(Some(ChargerCurrentMap), minVol, maxVol).value
    ensures sel == 125 || sel == 126
  {
    ChargerCode(minVol, maxVol);
    sel := ProperVal(Some(ChargerCurrentMap), minVol, maxVol).value;
  }

  /** The corrected request refuses every minimum above 2540 mA. */
  lemma ChargerTopRefused(regs: RegFile, minUA: int, maxUA: int)
    requires Div1000(minUA) > 2540
    ensures SetVoltageChecked(regs, CHARGER, minUA, maxUA) == Err(EInval)
  {
    var minVol := Div1000(minUA);
    var maxVol := Div1000(maxUA);
    if ProperVal(Some(ChargerCurrentMap), minVol, maxVol).Ok? {
      var sel := ChargerTopSelector(minVol, maxVol);
      assert sel + 3 > 0x7f;
    }
  }

  /** The premise of `ChargerTopOfRange` is met: a request for exactly
      2580 mA succeeds. */
  lemma ChargerTopOfRangeReachable(regs: RegFile)
    ensures SetVoltage(regs, CHARGER, 2580000, 2580000).Ok?
    ensures Div1000(2580000) > 2540
  {
    var d := ChargerCurrentMap;
    assert Div1000(2580000) == 2580;
    assert ProperVal(Some(d), 2580, 2580) == Ok(126) by {
      DriverMapsOnGrid();
      assert FirstAtLeast(d, 2580) == 126;
    }
  }

  /** The round trip holds only in whole mA: `min_uA` is truncated before
      the search, so a request for 100.001–200 mA is met with 100 mA, below
      its minimum, although code 6 (120 mA) lies inside it. */
  lemma ChargerSubMilliampRequest(regs: RegFile)
    ensures SetVoltage(regs, CHARGER, 100001, 200000).Ok?
    ensures GetVoltage(SetVoltage(regs, CHARGER, 100001, 200000).value, CHARGER) == Ok(100000)
    ensures 100001 <= 1000 * CodeMilliamps(6) <= 200000
  {
    var d := ChargerCurrentMap;
    assert Div1000(100001) == 100 && Div1000(200000) == 200;
    assert ProperVal(Some(d), 100, 200) == Ok(2) by {
      DriverMapsOnGrid();
      assert FirstAtLeast(d, 100) == 2;
    }
    assert ((5 as bv8) & 0x7f) == 5;
  }
}
