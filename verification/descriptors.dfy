/** The fixed tables of the MAX77693 regulator driver: the linear current
    maps, and for each regulator id the register fields that enable it and
    that hold its voltage or current selector. */
module Descriptors {
  import opened Types
  import opened Registers

  /** `struct voltage_map_desc`: value(sel) = min + step * sel, valid up to
      `max`, with selectors of `nBits` bits. */
  datatype MapDesc = MapDesc(min: int, max: int, step: int, nBits: nat)

  /** Charger input current, in mA. */
  const ChargerCurrentMap: MapDesc := MapDesc(60, 2580, 20, 7)

  /** Charger top-off current, in mA; declared by the driver, used by no
      regulator. */
  const TopoffCurrentMap: MapDesc := MapDesc(50, 200, 10, 4)

  /** `reg_voltage_map`, indexed by regulator id; `None` is a NULL entry. */
  function VoltageMap(rid: int): (m: Option<MapDesc>)
    requires 0 <= rid < NUM_REGULATORS
    ensures m.Some? <==> rid == CHARGER
  {
    if rid == CHARGER then Some(ChargerCurrentMap) else None
  }

  /** Whether the regulator's operations table has a `list_voltage` hook:
      the safe-out table has one, the charger table does not. */
  predicate HasListVoltageOp(rid: int) {
    IsSafeout(rid)
  }

  /** A register, the bits that switch a regulator, and the value of those
      bits that the operation writes. */
  datatype EnableField = EnableField(reg: Reg, mask: bv8, pattern: bv8)

  type Shift = n: nat | n < 8

  /** A register, and the position and width of a selector field in it. */
  datatype VoltageField = VoltageField(reg: Reg, shift: Shift, mask: bv8)

  /** The bits of the register that a voltage field occupies. */
  function FieldBits(f: VoltageField): bv8 {
    f.mask << f.shift
  }

  function GetEnableRegister(rid: int): (r: Result<EnableField>)
    ensures r.Ok? <==> IsSafeout(rid) || rid == CHARGER
    ensures r.Ok? ==> r.value.pattern != 0 && r.value.pattern & !r.value.mask == 0
    ensures r.Ok? && IsSafeout(rid) ==>
              r.value.reg == SafeoutCtrl && r.value.pattern == r.value.mask
    ensures r.Ok? && rid == CHARGER ==> r.value.reg == ChgCnfg00
  {
    if IsSafeout(rid) then
      Ok(EnableField(SafeoutCtrl, 0x40 << (rid - ESAFEOUT1), 0x40 << (rid - ESAFEOUT1)))
    else if rid == CHARGER then
      Ok(EnableField(ChgCnfg00, 0xf, 0x5))
    else
      Err(EInval)
  }

  function GetDisableRegister(rid: int): (r: Result<EnableField>)
    ensures r.Ok? <==> IsSafeout(rid) || rid == CHARGER
    ensures r.Ok? ==> r.value.pattern == 0
  {
    if IsSafeout(rid) then
      Ok(EnableField(SafeoutCtrl, 0x40 << (rid - ESAFEOUT1), 0x00))
    else if rid == CHARGER then
      Ok(EnableField(ChgCnfg00, 0xf, 0x00))
    else
      Err(EInval)
  }

  function GetVoltageRegister(rid: int): (r: Result<VoltageField>)
    ensures r.Ok? <==> IsSafeout(rid) || rid == CHARGER
    ensures r.Ok? && IsSafeout(rid) ==> r.value.reg == SafeoutCtrl
    ensures r.Ok? && rid == CHARGER ==> r.value.reg == ChgCnfg09
    ensures r.Ok? ==> r.value.mask << r.value.shift >> r.value.shift == r.value.mask
  {
    if IsSafeout(rid) then
      Ok(VoltageField(SafeoutCtrl, if rid == ESAFEOUT2 then 2 else 0, 0x3))
    else if rid == CHARGER then
      Ok(VoltageField(ChgCnfg09, 0, 0x7f))
    else
      Err(EInval)
  }

  /** The enable and disable descriptors of every regulator, bit by bit:
      each safe-out output is switched by its own bit of SAFEOUT_CTRL, the
      charger by the low nibble of CHG_CNFG_00 (0x5 on, 0x0 off). */
  lemma SwitchTable(rid: int)
    ensures rid == ESAFEOUT1 ==>
              && GetEnableRegister(rid) == Ok(EnableField(SafeoutCtrl, 0x40, 0x40))
              && GetDisableRegister(rid) == Ok(EnableField(SafeoutCtrl, 0x40, 0x00))
    ensures rid == ESAFEOUT2 ==>
              && GetEnableRegister(rid) == Ok(EnableField(SafeoutCtrl, 0x80, 0x80))
              && GetDisableRegister(rid) == Ok(EnableField(SafeoutCtrl, 0x80, 0x00))
    ensures rid == CHARGER ==>
              && GetEnableRegister(rid) == Ok(EnableField(ChgCnfg00, 0xf, 0x5))
              && GetDisableRegister(rid) == Ok(EnableField(ChgCnfg00, 0xf, 0x0))
    ensures !(IsSafeout(rid) || rid == CHARGER) ==>
              GetEnableRegister(rid) == Err(EInval) && GetDisableRegister(rid) == Err(EInval)
  {
  }

  /** The selector field of every regulator: bits 0-1 (ESAFEOUT1) and 2-3
      (ESAFEOUT2) of SAFEOUT_CTRL, bits 0-6 of CHG_CNFG_09 (CHARGER). */
  lemma SelectorTable(rid: int)
    ensures rid == ESAFEOUT1 ==> GetVoltageRegister(rid) == Ok(VoltageField(SafeoutCtrl, 0, 0x3))
    ensures rid == ESAFEOUT2 ==> GetVoltageRegister(rid) == Ok(VoltageField(SafeoutCtrl, 2, 0x3))
    ensures rid == CHARGER ==> GetVoltageRegister(rid) == Ok(VoltageField(ChgCnfg09, 0, 0x7f))
    ensures !(IsSafeout(rid) || rid == CHARGER) ==> GetVoltageRegister(rid) == Err(EInval)
    ensures IsSafeout(rid) ==> FieldBits(GetVoltageRegister(rid).value) == 0x3 << (2 * rid)
  {
  }

  /** The enable and disable descriptors name the same register bits for
      every regulator and differ only in the pattern written there. */
  lemma EnableDisableAgree(rid: int)
    ensures GetEnableRegister(rid).Ok? <==> GetDisableRegister(rid).Ok?
    ensures GetEnableRegister(rid).Ok? ==>
              GetEnableRegister(rid).value.reg == GetDisableRegister(rid).value.reg &&
              GetEnableRegister(rid).value.mask == GetDisableRegister(rid).value.mask &&
              GetEnableRegister(rid).value.pattern != GetDisableRegister(rid).value.pattern
  {
  }

  /** Inside SAFEOUT_CTRL the two selector fields and the two enable bits
      occupy pairwise disjoint bits; the charger keeps its enable bits and
      its current selector in different registers. */
  lemma FieldsDisjoint(a: int, b: int)
    requires IsSafeout(a) && IsSafeout(b)
    ensures FieldBits(GetVoltageRegister(a).value) & GetEnableRegister(b).value.mask == 0
    ensures a != b ==> FieldBits(GetVoltageRegister(a).value) & FieldBits(GetVoltageRegister(b).value) == 0
    ensures a != b ==> GetEnableRegister(a).value.mask & GetEnableRegister(b).value.mask == 0
    ensures GetEnableRegister(CHARGER).value.reg != GetVoltageRegister(CHARGER).value.reg
  {
  }
}
