# MAX77693 regulator driver: selector and register-field model

This project models the core of the Linux MAX77693 regulator driver
(`drivers/regulator/max77693-regulator.c`) and proves properties of the model.
The driver exposes three regulators of the PMIC's charger block:

- the safe-out LDOs ESAFEOUT1 and ESAFEOUT2, each with a four-entry voltage table;
- the CHARGER current regulator, which uses a linear current map of 60–2580 mA in 20 mA steps with a 7-bit selector.

Each regulator id maps to fixed register fields. The driver's callbacks
enable and disable a regulator, test whether it is enabled, read its
voltage or current, and set it. Without the kernel regulator framework
around it, all of this is pure integer and bit-field logic over three 8-bit
registers: SAFEOUT_CTRL, CHG_CNFG_00 and CHG_CNFG_09.

Modules, one per concern:

- `Types` (types.dfy) defines the following:
  - `Result`: C return values; every error the driver raises is `Err(EInval)`, i.e. `-EINVAL`.
  - the regulator ids ESAFEOUT1 = 0, ESAFEOUT2 = 1 and CHARGER = 2, as ordered by `regulators[]` and `reg_voltage_map[]`;
  - 32-bit unsigned wrap-around and two's-complement reinterpretation;
  - C's truncating `/ 1000`.
- `Registers` (registers.dfy) holds the register file, a record of three `bv8` registers. It also holds `UpdateReg`, the read-modify-write `(old & ~mask) | (val & mask)` that `max77693_update_reg` is assumed to perform. That function's body is not part of this model, so the model's definition of `UpdateReg` is an assumption.
- `Descriptors` (descriptors.dfy) holds the `voltage_map_desc` constants, `reg_voltage_map`, and the enable, disable and voltage register descriptors.
- `Selector` (selector.dfy) models `max77693_get_voltage_proper_val`. It has two parts:
  - a closed-form reference, `ProperVal`;
  - the driver's loop as a method, `GetVoltageProperVal`, proved equal to `ProperVal`.
- `Safeout` (safeout.dfy) holds the safe-out voltage table, `list_voltage_safeout` and `set_voltage_safeout`.
- `Charger` (charger.dfy) holds `list_voltage` and `set_voltage` for the charger current, as written and corrected.
- `Regulator` (regulator.dfy) holds `is_enabled`, `enable`, `disable`, `disable_suspend` and `get_voltage`, all over the register file.
- `RegulatorProperties` (properties.dfy) holds the lemmas that relate several operations: round trips, idempotence, and independence of the fields.

Notes on the code as written:

- `max77693_list_voltage` computes `min + step * selector` with an `unsigned int` selector, so the sum wraps modulo 2^32. It then stores the sum in an `int` and multiplies that by 1000. The model keeps both wraps. The charger selectors fall into these ranges:
  - Selectors 0 to 129 decode without any wrap, to 60–2580 mA (`Charger.ChargerDecode`). This covers the 7-bit codes that `get_voltage` passes. It also covers 128 and 129, which land on 2560 and 2580 mA and are accepted, since the test is `val > max` (`Charger.ChargerDecodeBoundary`).
  - Selectors 130 to 107374182 are refused as above the 2580 mA maximum (`Charger.ChargerDecodeRejects`).
  - Selectors 107374183 to 214748364 give a sum in [2^31, 2^32). As an `int` the sum reads as negative, so every one of them passes the `> max` test and reaches `return val * 1000` (`Charger.ChargerDecodeNegativeAccepted`). That product wraps again. From selector 107481557 on, some of these selectors return a negative `int`, which a caller reads as an error code: 107481556 yields 2147472000 and 107481557 yields −2147475296 (`Charger.ChargerDecodeNegativeResult`). At 107374183 the sum is 2147483660 and reads as −2147483636. Then `val * 1000` overflows and the call yields 12000 (`Charger.ChargerDecodeSignedWrap`).
  - From selector 214748365 on, the unsigned sum itself wraps past 2^32. At 214748365 it wraps to 4 and the call yields 4000. At 214748368 it wraps to 64 and the call yields 64000, which is off the 20 mA grid (`Charger.ChargerDecodeWraps`).
  - `get_voltage` only passes 7-bit codes, so it reaches none of the wrapped values.
- `max77693_set_voltage` reads CHG_CNFG_09 into `org` at line 362 and never uses the value. The model omits that read.
- `max77693_set_voltage` truncates the requested range `min_uV`–`max_uV` (the currents in µA for the charger) to whole mA (lines 338-339) before the search. The charger round trip therefore holds in whole mA only: the current read back is at least `(min_uV / 1000) * 1000`, which can be below the requested minimum. For example, a request for 100001–200000 µA is met with code 5, which reads back 100000 µA, although code 6 (120 mA) lies inside the request (`RegulatorProperties.ChargerSubMilliampRequest`). The corrected `Charger.SetVoltageChecked` keeps this truncation. It corrects only the field-width bound.
- `max77693_get_voltage_proper_val` only promises a value at most `desc->max` when `max - min` is a multiple of `step`. Both maps of the driver satisfy this (`Selector.ProperValComplete`, `Selector.DriverMapsOnGrid`).

## Model

| member | source | states |
|---|---|---|
| Types.Div1000 | drivers/regulator/max77693-regulator.c:338-339 | µA to mA truncates toward zero: for x ≥ 0 the result times 1000 lies in (x − 1000, x]; for x < 0 it lies in [x, x + 1000) |
| Types.ToInt32 | drivers/regulator/max77693-regulator.c:258 | an unsigned 32-bit result assigned to `int` lies in the int32 range, is congruent to it modulo 2^32, and is unchanged below 2^31 |
| Registers.UpdateReg | drivers/regulator/max77693-regulator.c:182 | the assumed read-modify-write: bits under the mask take the value's bits, bits outside the mask and every other register keep theirs |
| Descriptors.VoltageMap | drivers/regulator/max77693-regulator.c:61-65 | only CHARGER has a current map; both safe-out entries are NULL |
| Descriptors.GetEnableRegister | drivers/regulator/max77693-regulator.c:97-123 | succeeds exactly for ESAFEOUT1, ESAFEOUT2 and CHARGER; the pattern is non-zero and lies inside the mask; for the safe-out outputs the register is SAFEOUT_CTRL and the pattern equals the mask; CHARGER uses CHG_CNFG_00 |
| Descriptors.GetDisableRegister | drivers/regulator/max77693-regulator.c:125-151 | succeeds exactly for the three regulators; the disable pattern is always 0 |
| Descriptors.GetVoltageRegister | drivers/regulator/max77693-regulator.c:200-232 | succeeds exactly for the three regulators; safe-out fields live in SAFEOUT_CTRL and the charger field in CHG_CNFG_09; no field bit is shifted out |
| Descriptors.SwitchTable | drivers/regulator/max77693-regulator.c:97-151 | SAFEOUT1/2 switch bit 0x40/0x80 of SAFEOUT_CTRL (on = mask, off = 0); CHARGER switches CHG_CNFG_00 under 0xf (on = 0x5, off = 0); any other id is -EINVAL |
| Descriptors.SelectorTable | drivers/regulator/max77693-regulator.c:200-232 | SAFEOUT1 uses bits 0-1 and SAFEOUT2 uses bits 2-3 of SAFEOUT_CTRL; CHARGER uses bits 0-6 of CHG_CNFG_09; any other id is -EINVAL |
| Descriptors.EnableDisableAgree | drivers/regulator/max77693-regulator.c:97-151 | enable and disable descriptors exist for the same ids, name the same register and mask, and differ in pattern |
| Descriptors.FieldsDisjoint | drivers/regulator/max77693-regulator.c:211-214 | in SAFEOUT_CTRL the two selector fields and the two enable bits are pairwise disjoint; the charger's enable and selector registers differ |
| Selector.FirstAtLeast | drivers/regulator/max77693-regulator.c:310-312 | the closed-form selector reaches the target value and every smaller selector stays below it |
| Selector.ProperVal | drivers/regulator/max77693-regulator.c:298-321 | NULL desc is -EINVAL; a success has a value in [min_vol, max_vol], fits n_bits, and is the smallest selector reaching min_vol |
| Selector.GetVoltageProperVal | drivers/regulator/max77693-regulator.c:298-321 | the driver's search loop returns exactly the closed-form result, including every -EINVAL case |
| Selector.ProperValComplete | drivers/regulator/max77693-regulator.c:307-318 | for a map whose maximum is on its grid, the search fails exactly when no selector of the field width has a value in both the request and the map's range; a success never exceeds the map's maximum |
| Selector.DriverMapsOnGrid | drivers/regulator/max77693-regulator.c:52-59 | both current maps are well formed and end on their grid; their selectors are 7 and 4 bits wide |
| Safeout.ListVoltageSafeout | drivers/regulator/max77693-regulator.c:72-95 | succeeds exactly for a safe-out id and a selector below 4, and then yields a voltage of the table |
| Safeout.DecodeSelectorOf | drivers/regulator/max77693-regulator.c:405-408 | the selector written for table entry i (3 for entry 0, i − 1 otherwise) decodes back to entry i's voltage |
| Safeout.SelectorOfBijective | drivers/regulator/max77693-regulator.c:405-408 | every hardware selector 0..3 comes from exactly one table entry |
| Safeout.FirstFit | drivers/regulator/max77693-regulator.c:396-400 | the scan stops at the first table entry inside [min_uV, max_uV], or at the table's end when none fits |
| Safeout.SetVoltageSafeout | drivers/regulator/max77693-regulator.c:377-421 | succeeds exactly for a safe-out id whose request contains a table voltage; the reported selector decodes to a voltage inside the request, and to the lowest table voltage inside it; only the output's selector field of SAFEOUT_CTRL can change, and CHG_CNFG_00 and CHG_CNFG_09 keep their values |
| Charger.ListVoltage | drivers/regulator/max77693-regulator.c:234-263 | any id other than CHARGER is -EINVAL; a success is an int32 value |
| Charger.ChargerDecode | drivers/regulator/max77693-regulator.c:250-262 | every code up to 129 decodes to 1000 × (60 mA for codes 0..3, 60 + 20·(c − 3) mA above), between 60000 and 2580000 µA, and between 60000 and 2540000 µA for the 7-bit codes |
| Charger.ChargerDecodeBoundary | drivers/regulator/max77693-regulator.c:258-262 | the `val > max` boundary: codes 128 and 129 decode to 2560000 and 2580000 µA, and code 130 is -EINVAL |
| Charger.ChargerDecodeRejects | drivers/regulator/max77693-regulator.c:258-260 | codes 130 to 107374182, whose current exceeds 2580 mA, are -EINVAL |
| Charger.ChargerDecodeSignedWrap | drivers/regulator/max77693-regulator.c:251-262 | the refusal stops at selector 107374182: selector 107374183 reads as a negative `int`, passes the `> max` test, and `val * 1000` wraps to 12000 µA |
| Charger.ChargerDecodeNegativeAccepted | drivers/regulator/max77693-regulator.c:251-262 | every selector from 107374183 to 214748364 passes the `> max` test and reaches the return: its sum lies in [2^31, 2^32) and reads as a negative `int` |
| Charger.ChargerDecodeNegativeResult | drivers/regulator/max77693-regulator.c:258-262 | the returned product wraps as well: selector 107481556 yields 2147472000 and selector 107481557, the first to do so, yields the negative −2147475296 |
| Charger.ChargerDecodeWraps | drivers/regulator/max77693-regulator.c:251-262 | the unsigned sum wraps past 2^32: selector 214748365 decodes to 4000 µA and selector 214748368 to 64000 µA |
| Charger.SetVoltage | drivers/regulator/max77693-regulator.c:323-367 | succeeds exactly when the id is CHARGER and the selector search succeeds on the truncated mA range; the 7-bit field of CHG_CNFG_09 then holds the search result plus 3, truncated to 7 bits; nothing else changes |
| Charger.ChargerCode | drivers/regulator/max77693-regulator.c:350-356 | the written code is the search result plus 3, at most 129, and its current equals the searched value, inside the mA request |
| Charger.ChargerFitsField | drivers/regulator/max77693-regulator.c:317-356 | the search's code fits the 7-bit field exactly when some 7-bit code's current lies in the mA request |
| Charger.SetVoltageChecked | drivers/regulator/max77693-regulator.c:323-367 | corrected request: succeeds exactly when some 7-bit code's current lies in the mA request; only the 7-bit field of CHG_CNFG_09 changes |
| Regulator.IsEnabled | drivers/regulator/max77693-regulator.c:153-168 | succeeds exactly for the three regulators; for a safe-out output it is the state of its enable bit; for CHARGER it is whether the low nibble of CHG_CNFG_00 equals 0x5 |
| Regulator.Enable | drivers/regulator/max77693-regulator.c:170-183 | succeeds exactly for the three regulators; the bits under the enable mask become the enable pattern; bits outside the mask and all other registers are unchanged |
| Regulator.Disable | drivers/regulator/max77693-regulator.c:185-198 | succeeds exactly for the three regulators; the bits under the mask are cleared to the disable pattern 0; bits outside the mask and all other registers are unchanged |
| Regulator.SwitchTakesEffect | drivers/regulator/max77693-regulator.c:153-198 | after enable the regulator reads as enabled, after disable as disabled |
| Regulator.DisableSuspend | drivers/regulator/max77693-regulator.c:429-449 | writes what disable writes, saves the pre-disable register under the regulator id, keeps other saved states, and adds no key other than the id |
| Regulator.GetVoltage | drivers/regulator/max77693-regulator.c:265-296 | succeeds exactly for the three regulators; a safe-out output reads a table voltage; the value of a safe-out output is that of its 2-bit field (bits 0-1 or 2-3 of SAFEOUT_CTRL) under `list_voltage_safeout`; the charger reads 1000 × the current of the 7-bit code in CHG_CNFG_09 |
| RegulatorProperties.GetVoltageFrame | drivers/regulator/max77693-regulator.c:276-288 | a regulator's reading depends only on the bits of its own selector field |
| RegulatorProperties.EnableIdempotent | drivers/regulator/max77693-regulator.c:167-182 | enabling an enabled regulator leaves the registers unchanged |
| RegulatorProperties.DisableIdempotent | drivers/regulator/max77693-regulator.c:193-197 | disabling a regulator whose enable bits are clear leaves the registers unchanged |
| RegulatorProperties.SafeoutSwitchPreserves | drivers/regulator/max77693-regulator.c:105-108 | switching one safe-out output keeps both voltages, the other output's state, and the charger's state and current |
| RegulatorProperties.OnlyEnableBitsChange | drivers/regulator/max77693-regulator.c:105-108 | any change confined to one safe-out enable bit keeps both voltages, the other enable bit and the charger |
| RegulatorProperties.SafeoutSetGet | drivers/regulator/max77693-regulator.c:410-418 | after a successful safe-out request, get_voltage returns the reported selector's voltage: inside the request and the lowest table voltage in it |
| RegulatorProperties.SafeoutSetPreserves | drivers/regulator/max77693-regulator.c:414 | a safe-out request changes only that output's selector field: the rest of SAFEOUT_CTRL, CHG_CNFG_00 and CHG_CNFG_09 keep their bits, so the other output's voltage, both enable bits and the charger are kept |
| RegulatorProperties.OnlySelectorBitsChange | drivers/regulator/max77693-regulator.c:211-214 | any change confined to one safe-out selector field keeps the other output's voltage, both enable bits and the charger |
| RegulatorProperties.ChargerSetGet | drivers/regulator/max77693-regulator.c:350-366 | driver as written: when the requested minimum is at most 2540 mA, the current read back lies in the truncated mA request, and the charger's enable state and both safe-out voltages are unchanged |
| RegulatorProperties.ChargerCheckedSetGet | drivers/regulator/max77693-regulator.c:350-366 | corrected request: the current read back always lies in the truncated mA request, with the same frame |
| RegulatorProperties.SetVoltageAgreesWhenInField | drivers/regulator/max77693-regulator.c:317-356 | for requested minima up to 2540 mA, the driver and the corrected request write identical registers |
| RegulatorProperties.ChargerTopOfRange | drivers/regulator/max77693-regulator.c:310-366 | every successful request with a minimum above 2540 mA reads back 60000 µA, below the requested minimum, because code 128 or 129 is truncated by the 7-bit field; the corrected request refuses every such range |
| RegulatorProperties.ChargerSubMilliampRequest | drivers/regulator/max77693-regulator.c:338-366 | as written, the round trip holds in whole mA only: a request for 100001–200000 µA succeeds and reads back 100000 µA, below its minimum, although 120 mA lies inside it |
| RegulatorProperties.ChargerTopOfRangeReachable | drivers/regulator/max77693-regulator.c:310-321 | such a request exists: 2580000 µA passes the search |

## Findings

| source | as written | input that shows it | evidently intended | confidence | as-written member | corrected member |
|---|---|---|---|---|---|---|
| drivers/regulator/max77693-regulator.c:317-356 | the `val >= 1 << n_bits` bound is tested on the search result, and `val += 3` is added only afterwards; the code then goes through the 0x7f field mask | `set_current_limit(CHARGER, 2580000, 2580000)`: the search gives 126, the driver writes 129, the field keeps 1, and the charger reads back 60 mA. Every successful request with a minimum of 2541–2580 mA does the same, with code 128 or 129 | reject a request whose code does not fit the 7-bit field | high (not executed) | RegulatorProperties.ChargerTopOfRange | Charger.SetVoltageChecked |

## Left out

- Probe, remove and module plumbing are not modelled. This covers `max77693_pmic_probe`, `max77693_pmic_remove`, allocation and its unwinding, regulator registration, the platform driver tables and the initcalls. They are host-framework resource handling with no selector logic.
- `dev_info`, `dev_dbg` and `dev_err` logging is not modelled, because it has no effect on results.
- `max77693_reg_enable_suspend` is not modelled. It only logs and returns 0.
- The register transport is not modelled: the bodies of `max77693_read_reg` and `max77693_update_reg`, regmap and I2C are not part of this model. Reads always succeed. `update_reg` is assumed to be the read-modify-write in `Registers.UpdateReg` and to always succeed. So the propagation of transport error codes (lines 163-165, 280-282, 182, 197, 365, 414-416, 448) is not represented. The result of the `read_reg` in `max77693_reg_disable_suspend` (line 441), which the driver ignores, is likewise not represented.
- The unused read of CHG_CNFG_09 into `org` in `max77693_set_voltage` (lines 362-363) is omitted, because its value is never used.
- In `get_voltage`, `rdev->desc` and `rdev->desc->ops` are taken to be those of the `regulators[]` entry for the id (`Descriptors.HasListVoltageOp`). The NULL-descriptor case cannot arise for a registered regulator.
- `saved_states` is a map keyed by regulator id, not an array of `MAX77693_REG_MAX` bytes.
- `TopoffCurrentMap` is declared, as in the driver, but no regulator uses it.
- The `min_uV` and `max_uV` arguments are unbounded integers rather than 32-bit `int`. Every intermediate value of the search is far inside the int32 range for the driver's maps.
- Charger.ListVoltage: its contract states only which ids are refused and the int32 range, because a selector-by-selector contract under 32-bit wrap-around would be unwieldy. The lemmas state the charger's results for the following selectors, and for no others:
  - the value of every selector 0 to 129 (`Charger.ChargerDecode`, `Charger.ChargerDecodeBoundary`);
  - the refusal of every selector 130 to 107374182 (`Charger.ChargerDecodeRejects`);
  - the fact, but not the value, that every selector 107374183 to 214748364 passes the `> max` test (`Charger.ChargerDecodeNegativeAccepted`);
  - the values at selectors 107374183, 107481556, 107481557, 214748365 and 214748368 (`Charger.ChargerDecodeSignedWrap`, `Charger.ChargerDecodeNegativeResult`, `Charger.ChargerDecodeWraps`).
- Charger.ListVoltage: a value on the success path that wraps to a negative `int` is modelled as `Ok(v)` with `v < 0`. In C, the caller cannot tell such a value from an error code. The model keeps it apart from `Err`, so it does not capture that confusion.
- Charger.ListVoltage: `val * 1000` on an `int` is signed overflow, which is undefined in C. The model gives it the 32-bit two's-complement wrap that the compiled code typically produces. It does not model other outcomes a compiler may choose.
- `drivers/media/video/atomisp2/css2400_v2/spmem_dump.c` is not modelled. It is a generated firmware symbol table plus debug dump routines, with no logic to state.
- `arch/x86/platform/intel-mid/device_libs/platform_crystal_cove.c` is not modelled. It is static board data and a single registration call.
