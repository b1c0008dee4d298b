/** The three charger-block registers of the MAX77693 that the regulator
    driver touches, and the read-modify-write primitive it writes them with. */
module Registers {

  /** Register addresses; only their distinctness matters here. */
  datatype Reg = SafeoutCtrl | ChgCnfg00 | ChgCnfg09

  /** The 8-bit contents of every register the driver uses. */
  datatype RegFile = RegFile(safeoutCtrl: bv8, chgCnfg00: bv8, chgCnfg09: bv8) {

    function Read(r: Reg): bv8 {
      match r
      case SafeoutCtrl => safeoutCtrl
      case ChgCnfg00 => chgCnfg00
      case ChgCnfg09 => chgCnfg09
    }

    function Write(r: Reg, v: bv8): (f: RegFile)
      ensures f.Read(r) == v
      ensures forall q :: q != r ==> f.Read(q) == Read(q)
    {
      match r
      case SafeoutCtrl => this.(safeoutCtrl := v)
      case ChgCnfg00 => this.(chgCnfg00 := v)
      case ChgCnfg09 => this.(chgCnfg09 := v)
    }
  }

  /** Writing back what a register holds leaves the register file as it was. */
  lemma WriteUnchanged(regs: RegFile, r: Reg)
    ensures regs.Write(r, regs.Read(r)) == regs
  {
  }

  /** The assumed behaviour of `max77693_update_reg(map, reg, val, mask)`:
      the bits under `mask` take the bits of `val`, all other bits and all
      other registers keep their values. */
  function UpdateReg(regs: RegFile, r: Reg, val: bv8, mask: bv8): (f: RegFile)
    ensures f.Read(r) & mask == val & mask
    ensures f.Read(r) & !mask == regs.Read(r) & !mask
    ensures forall q :: q != r ==> f.Read(q) == regs.Read(q)
  {
    regs.Write(r, (regs.Read(r) & !mask) | (val & mask))
  }
}
