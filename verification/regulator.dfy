/** The regulator operations the driver hands to the host framework, over
    an explicit register file: enable state, get voltage/current, and the
    properties that tie the set and get paths together. */
module Regulator {
  import opened Types
  import opened Registers
  import opened Descriptors
  import opened Selector
  import opened Safeout
  import opened Charger

  /** `max77693_reg_is_enabled`: the enable bits hold the enable pattern. */
  function IsEnabled(regs: RegFile, rid: int): (r: Result<bool>)
    ensures r.Ok? <==> IsSafeout(rid) || rid == CHARGER
    ensures IsSafeout(rid) ==> r == Ok(regs.Read(SafeoutCtrl) & (0x40 << rid) != 0)
    ensures rid == CHARGER ==> r == Ok(regs.Read(ChgCnfg00) & 0xf == 0x5)
  {
    match GetEnableRegister(rid)
    case Err(e) => Err(e)
    case Ok(f) => Ok(regs.Read(f.reg) & f.mask == f.pattern)
  }

  /** `max77693_reg_enable`. */
  function Enable(regs: RegFile, rid: int): (r: Result<RegFile>)
    ensures r.Ok? <==> IsSafeout(rid) || rid == CHARGER
    ensures r.Ok? ==> var f := GetEnableRegister(rid).value;
              && r.value.Read(f.reg) & f.mask == f.pattern
              && r.value.Read(f.reg) & !f.mask == regs.Read(f.reg) & !f.mask
              && forall q :: q != f.reg ==> r.value.Read(q) == regs.Read(q)
  {
    match GetEnableRegister(rid)
    case Err(e) => Err(e)
    case Ok(f) =>
      Ok(UpdateReg(regs, f.reg, f.pattern, f.mask))
  }

  /** `max77693_reg_disable`. */
  function Disable(regs: RegFile, rid: int): (r: Result<RegFile>)
    ensures r.Ok? <==> IsSafeout(rid) || rid == CHARGER
    ensures r.Ok? ==> var f := GetDisableRegister(rid).value;
              && r.value.Read(f.reg) & f.mask == 0
              && r.value.Read(f.reg) & !f.mask == regs.Read(f.reg) & !f.mask
              && forall q :: q != f.reg ==> r.value.Read(q) == regs.Read(q)
  {
    match GetDisableRegister(rid)
    case Err(e) => Err(e)
    case Ok(f) =>
      var regs' := UpdateReg(regs, f.reg, f.pattern, f.mask);
      assert regs'.Read(f.reg) & f.mask == 0 by {
        assert f.pattern == 0;
      }
      Ok(regs')
  }

  /** Enabling a regulator makes it read as enabled, disabling it makes it
      read as disabled. */
  lemma SwitchTakesEffect(regs: RegFile, rid: int)
    requires IsSafeout(rid) || rid == CHARGER
    ensures IsEnabled(Enable(regs, rid).value, rid) == Ok(true)
    ensures IsEnabled(Disable(regs, rid).value, rid) == Ok(false)
  {
    SwitchTable(rid);
  }

  /** The outcome of `max77693_reg_disable_suspend`: the register file and
      the driver's `saved_states` array, indexed by regulator id. */
  datatype Suspended = Suspended(regs: RegFile, saved: map<int, bv8>)

  /** `max77693_reg_disable_suspend`: remember the control register under the
      regulator's id, then disable the regulator. */
  function DisableSuspend(regs: RegFile, saved: map<int, bv8>, rid: int): (r: Result<Suspended>)
    ensures r.Ok? <==> Disable(regs, rid).Ok?
    ensures r.Ok? ==> Ok(r.value.regs) == Disable(regs, rid)
    ensures r.Ok? ==> rid in r.value.saved && r.value.saved[rid] == regs.Read(GetDisableRegister(rid).value.reg)
    ensures r.Ok? ==> forall k :: k in saved && k != rid ==> k in r.value.saved && r.value.saved[k] == saved[k]
    ensures r.Ok? ==> r.value.saved.Keys == saved.Keys + {rid}
  {
    match GetDisableRegister(rid)
    case Err(e) => Err(e)
    case Ok(f) =>
      var saved' := saved[rid := regs.Read(f.reg)];
      Ok(Suspended(UpdateReg(regs, f.reg, f.pattern, f.mask), saved'))
  }

  /** `max77693_get_voltage` (the charger's `get_current_limit`): extract the
      selector field and decode it with the regulator's `list_voltage` hook,
      or with `max77693_list_voltage` when there is none. */
  function GetVoltage(regs: RegFile, rid: int): (r: Result<int>)
    ensures r.Ok? <==> IsSafeout(rid) || rid == CHARGER
    ensures IsSafeout(rid) ==> r.value in SafeoutVolt
    ensures rid == ESAFEOUT1 ==> r == ListVoltageSafeout(rid, (regs.Read(SafeoutCtrl) & 0x3) as int)
    ensures rid == ESAFEOUT2 ==> r == ListVoltageSafeout(rid, ((regs.Read(SafeoutCtrl) >> 2) & 0x3) as int)
    ensures rid == CHARGER ==> r == Ok(1000 * CodeMilliamps((regs.Read(ChgCnfg09) & 0x7f) as nat))
  {
    match GetVoltageRegister(rid)
    case Err(e) => Err(e)
    case Ok(f) =>
      var val := (regs.Read(f.reg) >> f.shift) & f.mask;
      if HasListVoltageOp(rid) then
        ListVoltageSafeout(rid, val as int)
      else
        ChargerDecode(val as int);
        ListVoltage(rid, val as int)
  }
}
