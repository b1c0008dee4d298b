/** The two safe-out LDOs (ESAFEOUT1, ESAFEOUT2): their four-entry voltage
    table, decoding a hardware selector and choosing one for a request. */
module Safeout {
  import opened Types
  import opened Registers
  import opened Descriptors

  /** `max77693_safeoutvolt`, in µV: the order `set_voltage` scans in,
      which is ascending and differs from the hardware selector order. */
  const SafeoutVolt: seq<int> := [3300000, 4850000, 4900000, 4950000]

  /** `max77693_list_voltage_safeout`: the voltage a hardware selector
      stands for. */
  function ListVoltageSafeout(rid: int, selector: U32): (r: Result<int>)
    ensures r.Ok? <==> IsSafeout(rid) && selector < |SafeoutVolt|
    ensures r.Ok? ==> r.value in SafeoutVolt
  {
    if IsSafeout(rid) then
      if selector == 0 then Ok(4850000)
      else if selector == 1 then Ok(4900000)
      else if selector == 2 then Ok(4950000)
      else if selector == 3 then Ok(3300000)
      else Err(EInval)
    else
      Err(EInval)
  }

  /** The hardware selector of table entry `i`. */
  function SelectorOf(i: nat): (sel: nat)
    requires i < |SafeoutVolt|
    ensures sel < |SafeoutVolt|
  {
    if i == 0 then 3 else i - 1
  }

  /** Decoding the selector of a table entry gives that entry back. */
  lemma DecodeSelectorOf(rid: int, i: nat)
    requires IsSafeout(rid) && i < |SafeoutVolt|
    ensures ListVoltageSafeout(rid, SelectorOf(i)) == Ok(SafeoutVolt[i])
  {
  }

  /** Every hardware selector is the selector of exactly one table entry. */
  lemma SelectorOfBijective(sel: nat)
    requires sel < |SafeoutVolt|
    ensures exists i :: 0 <= i < |SafeoutVolt| && SelectorOf(i) == sel
    ensures forall i, j ::
              (0 <= i < |SafeoutVolt| && 0 <= j < |SafeoutVolt| && SelectorOf(i) == sel && SelectorOf(j) == sel)
              ==> i == j
  {
    var i := if sel == 3 then 0 else sel + 1;
    assert SelectorOf(i) == sel;
  }

  predicate Fits(v: int, minUV: int, maxUV: int) {
    minUV <= v && v <= maxUV
  }

  /** The scan of `set_voltage_safeout`: the first entry from `i` on whose
      voltage lies in the request, or `|SafeoutVolt|` when there is none. */
  function FirstFit(minUV: int, maxUV: int, i: nat): (k: nat)
    requires i <= |SafeoutVolt|
    ensures i <= k <= |SafeoutVolt|
    ensures k < |SafeoutVolt| ==> Fits(SafeoutVolt[k], minUV, maxUV)
    ensures forall j :: i <= j < k ==> !Fits(SafeoutVolt[j], minUV, maxUV)
    decreases |SafeoutVolt| - i
  {
    if i == |SafeoutVolt| then i
    else if Fits(SafeoutVolt[i], minUV, maxUV) then i
    else FirstFit(minUV, maxUV, i + 1)
  }

  /** The outcome of a successful `set_voltage_safeout`: the new register
      contents and the selector reported to the caller. */
  datatype SafeoutSet = SafeoutSet(regs: RegFile, selector: U32)

  /** `max77693_set_voltage_safeout`. */
  function SetVoltageSafeout(regs: RegFile, rid: int, minUV: int, maxUV: int): (r: Result<SafeoutSet>)
    ensures r.Ok? <==>
              (IsSafeout(rid) && exists i :: 0 <= i < |SafeoutVolt| && Fits(SafeoutVolt[i], minUV, maxUV))
    ensures r.Ok? ==>
              && ListVoltageSafeout(rid, r.value.selector).Ok?
              && Fits(ListVoltageSafeout(rid, r.value.selector).value, minUV, maxUV)
              && forall j :: 0 <= j < |SafeoutVolt| && Fits(SafeoutVolt[j], minUV, maxUV) ==>
                   ListVoltageSafeout(rid, r.value.selector).value <= SafeoutVolt[j]
    ensures r.Ok? ==> var m := FieldBits(GetVoltageRegister(rid).value);
              && r.value.regs.Read(SafeoutCtrl) & !m == regs.Read(SafeoutCtrl) & !m
              && r.value.regs.Read(ChgCnfg00) == regs.Read(ChgCnfg00)
              && r.value.regs.Read(ChgCnfg09) == regs.Read(ChgCnfg09)
  {
    if !IsSafeout(rid) then Err(EInval)
    else
      var i := FirstFit(minUV, maxUV, 0);
      if i >= |SafeoutVolt| then Err(EInval)
      else
        var val := SelectorOf(i);
        DecodeSelectorOf(rid, i);
        match GetVoltageRegister(rid)
        case Err(e) => Err(e)
        case Ok(f) =>
          Ok(SafeoutSet(UpdateReg(regs, f.reg, (val as bv8) << f.shift, f.mask << f.shift), val))
  }
}
