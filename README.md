# Sample package generator, modelled in Dafny

`tools/gen-sample-packages.py` builds the "sample" set of SDC packages. SDC packages are sizing presets for SmartOS zones and KVM virtual machines.

The script starts from one base package `top`: 16 GB of RAM, 32 GB of swap, 256 GB of disk and a cpu_cap of 200. It then walks a fixed list of RAM sizes (0.25, 0.5, 1, 4, 8 and 16 GB). For each size it does the following:

- It copies the base.
- It divides cpu_cap, max_physical_memory, max_swap and quota by the ratio of base RAM to target RAM.
- It raises a cpu_cap below 20 to 20, and otherwise rounds it.
- It sets fss to cpu_cap.
- It names the package `sample-<size>-smartos`.
- It writes a "Sample <RAM> GB RAM, <disk> GB Disk" description.
- It appends the package, then appends a copy named `sample-<size>-kvm` that adds a vcpu count.

The model has these modules:

- `PyNumbers` (`pynumbers.dfy`): Python's `int()` (truncation), Python 2's `round()` (halves away from zero), both on exact reals, and `max` on ints.
- `Render` (`render.dfy`) renders numbers as the script prints them:
  - `str()` of a float, e.g. `0.25`, `1.0`, `16.0`. The model's `PyStr` writes out the exact decimal expansion of a non-negative whole number of MB, with at least one digit after the point. Python 2 prints the same text for every size below 10^12 whose expansion has at most 12 significant digits, which covers every size the script uses (see "## Left out").
  - `str()` of an int.
  - The description's "drop `.0` when whole" rule.
  - A parser for rendered sizes, used to prove that `str()` can be decoded back to the size.
- `SamplePackages` (`packages.dfy`):
  - the `Package` record and the base `Top`;
  - the per-size records as pure functions (`SmartosPackage`, `KvmPackage`) and the whole output as `Table`;
  - the generator loop as two methods that follow the script's statements, with `ram_str` (lines 79-81) computed inside `Description`: `BuildSmartos` holds the inner loop over the four scaled fields, the cpu_cap branch and the field writes; `Generate` holds the outer loop and its two appends per size. Each method is proved equal to the corresponding function.
- `PackageProperties` (`properties.dfy`): what every generated record satisfies, for any list of valid sizes.
- `SampleRun` (`samplerun.dfy`): the script's fixed size list, proved to give the table in its docstring.

## Model

| member | source | states |
|---|---|---|
| SamplePackages.Generate | tools/gen-sample-packages.py:64-91 | The loop over the sizes appends, per size, the "-smartos" record and then its "-kvm" copy. The list it builds is exactly `Table(sizes)`. |
| SamplePackages.BuildSmartos | tools/gen-sample-packages.py:66-85 | Copying `top` and running the inner field loop, the cpu_cap branch and the fss/name/description writes gives exactly `SmartosPackage(ramGb)`. The loop invariant is: after j fields, the copy has exactly the first j writes applied. |
| SamplePackages.ScaleFirstAll | tools/gen-sample-packages.py:70-71 | Writing `top[field] / factor` into the four fields one at a time, in the source's order, is the same as dividing all four scaled fields by the factor. |
| SamplePackages.Set | tools/gen-sample-packages.py:71 | `pkg[field] = x` changes that field to x and leaves every other field unchanged. |
| SamplePackages.FieldsDetermine | tools/gen-sample-packages.py:70-71 | A record is determined by its four scaled fields together with all its other fields. `ScaleFirstAll` uses it to conclude that the four writes give exactly the scaled record. |
| SamplePackages.ScaleBy | tools/gen-sample-packages.py:67-71 | Every scaled field becomes the base value divided by the factor; no other field changes. |
| SamplePackages.ClampCpuCap | tools/gen-sample-packages.py:72-75 | The result is a whole number of at least 20. It is exactly 20 for inputs at or below 20. Otherwise it is within 0.5 of the input. |
| SamplePackages.DivideByFactor | tools/gen-sample-packages.py:67-71 | Dividing by the factor 16384 / (ram_gb * 1024) multiplies a value by ram_gb / 16. |
| SamplePackages.ScaledRam | tools/gen-sample-packages.py:71-79 | The scaled max_physical_memory divided by 1024 is exactly ram_gb, and the scaled quota is non-negative. |
| SamplePackages.Flatten | tools/gen-sample-packages.py:86-91 | Laying out one pair per size gives twice as many records as sizes. |
| SamplePackages.FlattenAt | tools/gen-sample-packages.py:86-91 | Pair i sits at positions 2i and 2i + 1. |
| SamplePackages.TableAt | tools/gen-sample-packages.py:64-91 | The record at position 2i is the "-smartos" record of size i; the one at 2i + 1 is its "-kvm" record. |
| SamplePackages.TableSnoc | tools/gen-sample-packages.py:86-91 | One more size appends exactly its two records, "-smartos" first; earlier records are untouched. |
| SamplePackages.ScaleFirst | tools/gen-sample-packages.py:70-71 | The record after the inner loop has written its first n fields, each as `top[field] / factor`. It is `BuildSmartos`'s loop invariant, and `ScaleFirstAll` gives its value after all four. |
| SamplePackages.SmartosName | tools/gen-sample-packages.py:77 | Computes `"sample-%s-smartos" % ram_gb`, with `str(ram_gb)` given by `Render.PyStr`. Its properties are stated by `SmartosText`, `NamesInjective` and `SmartosNotKvm`. |
| SamplePackages.KvmName | tools/gen-sample-packages.py:90 | Computes `"sample-%s-kvm" % ram_gb`. Its properties are stated by `KvmCopiesSmartos`, `NamesInjective` and `SmartosNotKvm`. |
| SamplePackages.Description | tools/gen-sample-packages.py:79-85 | Computes "Sample <RAM> GB RAM, <disk> GB Disk": the RAM is `max_physical_memory / 1024.0` shown by `Render.DisplayNumber`, the disk is `int(quota / 1024)`. `DescriptionOfSize` and `SmartosText` state it in terms of ram_gb. |
| SamplePackages.SmartosPackage | tools/gen-sample-packages.py:66-85 | Computes the "-smartos" record of one size: `top` with its four scaled fields divided by `16384 / (ram_gb * 1024)`, the cpu_cap policy, fss, name and description. Its properties are stated by `SmartosScaling`, `SmartosCpuCap`, `SmartosKeepsBase`, `SmartosText` and `SampleRun.TopIsSixteen`; `BuildSmartos` proves the loop computes it. |
| SamplePackages.KvmOf | tools/gen-sample-packages.py:88-90 | Computes the "-kvm" copy of a record: `vcpu = max(1, int(cpu_cap / 100.0))` and the "-kvm" name. `KvmCopiesSmartos` states what it changes and the bounds on vcpu. |
| SamplePackages.KvmPackage | tools/gen-sample-packages.py:88-90 | Computes the "-kvm" record of one size, `KvmOf` applied to `SmartosPackage`. Its properties are stated by `KvmCopiesSmartos` and `TableInvariants`. |
| SamplePackages.Table | tools/gen-sample-packages.py:64-91 | Computes the whole list `pkgs`: per size, in list order, its "-smartos" then its "-kvm" record. `Generate` proves the loop builds it; `TableAt`, `TableSnoc`, `TableLayout`, `TableRecord`, `TableInvariants` and `TableNamesDistinct` state its properties. |
| PackageProperties.SmartosScaling | tools/gen-sample-packages.py:44-71 | max_physical_memory = ram_gb * 1024, max_swap = 2 * max_physical_memory, quota = 16 * max_physical_memory. |
| PackageProperties.SmartosCpuCap | tools/gen-sample-packages.py:72-76 | Let s = 200 * ram_mb / 16384. cpu_cap is 20 if s < 20 and round(s) otherwise. It is a whole number of at least 20, and fss equals it. |
| PackageProperties.SmartosKeepsBase | tools/gen-sample-packages.py:37-66 | These fields keep the base values: version, active, default, max_lwps, zfs_io_priority (100, not fss), group and v. A "-smartos" record has no vcpu. |
| PackageProperties.SmartosText | tools/gen-sample-packages.py:77-85 | The name is "sample-" + str(ram_gb) + "-smartos". The description is "Sample " + RAM (without ".0" when whole) + " GB RAM, " + int(16 · ram_gb) + " GB Disk". |
| PackageProperties.DescriptionOfSize | tools/gen-sample-packages.py:79-85 | The description of a record with ram_gb GB of RAM and 16 times that much disk, written in terms of ram_gb. |
| PackageProperties.KvmCopiesSmartos | tools/gen-sample-packages.py:88-90 | The "-kvm" record equals the "-smartos" record except for its name and the added vcpu. vcpu ≥ 1, and it is 1 whenever cpu_cap < 200. Once cpu_cap ≥ 100, vcpu is the number of whole hundreds in cpu_cap. |
| PackageProperties.SmartosNotKvm | tools/gen-sample-packages.py:77-90 | No "-smartos" name equals any "-kvm" name. |
| PackageProperties.NamesInjective | tools/gen-sample-packages.py:77-90 | Different sizes get different names with the same suffix. |
| PackageProperties.InfixCancel | tools/gen-sample-packages.py:77-90 | Strings built with the same prefix and suffix are equal only when their middles are. |
| PackageProperties.TableLayout | tools/gen-sample-packages.py:64-91 | The output has 2·n records, one "-smartos"/"-kvm" pair per size, in list order. |
| PackageProperties.TableRecord | tools/gen-sample-packages.py:86-91 | Record j belongs to size j / 2. It is the "-kvm" record exactly when j is odd. |
| PackageProperties.TableInvariants | tools/gen-sample-packages.py:72-89 | Every emitted record has cpu_cap ≥ 20 and fss = cpu_cap, and is never `top` itself. A record has a vcpu exactly when it sits at an odd position, and that vcpu is ≥ 1. |
| PackageProperties.TableNamesDistinct | tools/gen-sample-packages.py:65-90 | If no size is repeated, all names in the output are pairwise distinct. |
| SampleRun.RamSizesValid | tools/gen-sample-packages.py:65 | The script's six sizes (the constant `RamSizesGb`, the list at line 65) are positive whole numbers of MB. |
| SampleRun.TopIsSixteen | tools/gen-sample-packages.py:37-51 | The base literal `top` (the constant `Top`) is the generator's own 16 GB "-smartos" record except for two keys. Its name reads "sample-16-smartos" where the generated one reads "sample-16.0-smartos", and it has no fss where the generated one has 200. |
| SampleRun.RowsClosedForm | tools/gen-sample-packages.py:66-90 | For every size, the docstring's eight columns of its two records in closed form: name, memory (g·1024), swap (2048·g), quota (16384·g) and description from the rendered size; cpu_cap = fss = `ClampCpuCap(200·g/16)`, no vcpu for "-smartos", and vcpu = `max(1, int(cpu_cap / 100))` for "-kvm". |
| SampleRun.CapClosedForm | tools/gen-sample-packages.py:66-89 | For every size g, cpu_cap is the policy of lines 72-75 applied to 200·g/16, and the "-kvm" vcpu is `max(1, int(cpu_cap / 100.0))` of that value. |
| SampleRun.SizeRows | tools/gen-sample-packages.py:10-21 | Size i's two records are docstring rows 2i + 1 ("-smartos") and 2i ("-kvm"). |
| SampleRun.SampleRunMatchesDocs | tools/gen-sample-packages.py:9-91 | The script's size list yields 12 records. The constant `DocumentedRows` holds the docstring's table (lines 10-21) in its order. Their name, max_physical_memory, max_swap, quota, cpu_cap, fss, vcpu and description columns are exactly the docstring's table. That includes cpu_cap 50/100/200 for 4/8/16 GB and vcpu 2 only for 16 GB. |
| SampleRun.SampleNamesDistinct | tools/gen-sample-packages.py:65-90 | The 12 names for the fixed size list are pairwise distinct. |
| Render.PyStr | tools/gen-sample-packages.py:77 | Computes `str(x)` for a non-negative whole number of MB: the whole part, a point, and the fraction's exact digits ("0" when there is none). `PyStrParts`, `ParseUnitsPyStr` and `PyStrInjective` state its properties. It agrees with Python 2 only in the range given under "## Left out". |
| Render.DisplayNumber | tools/gen-sample-packages.py:79-81 | Computes the description's RAM text: `str(int(x))` when x is whole, `str(x)` otherwise. `DisplayNumberDropsPointZero` relates it to `PyStr`. |
| Render.NatStr | tools/gen-sample-packages.py:81-84 | `str()` of a non-negative int: decimal digits with no leading zero, which parse back to the number. |
| Render.FixedDigits | tools/gen-sample-packages.py:77 | n written in exactly k digits, which parse back to n. |
| Render.StripTrailingZeros | tools/gen-sample-packages.py:77 | Drops only trailing '0' characters, and leaves a string that does not end in '0'. |
| Render.ParseUnitsPyStr | tools/gen-sample-packages.py:77-90 | Round trip: parsing `str(ram_gb)` gives back ram_gb's exact number of 1/1024ths. |
| Render.PyStrInjective | tools/gen-sample-packages.py:77-90 | Different sizes have different `str()` renderings. |
| Render.FracStrPadded | tools/gen-sample-packages.py:77 | The fractional digits of `str()`, padded to ten digits, are the exact decimal value of the fraction. |
| Render.DisplayNumberDropsPointZero | tools/gen-sample-packages.py:79-81 | For a whole RAM size, the description's rendering is `str()` without its ".0". Otherwise the two renderings are equal. |
| Render.PyStrParts | tools/gen-sample-packages.py:77 | `str(x)` is the whole part, a point, and the fraction's digits. |
| Render.StripZerosAppended | tools/gen-sample-packages.py:77 | Stripping trailing zeros undoes appending them to a string that does not end in '0'. |
| Render.FracQuarter | tools/gen-sample-packages.py:10-11 | `str(0.25)` ends in "25". |
| Render.FracHalf | tools/gen-sample-packages.py:12-13 | `str(0.5)` ends in "5". |
| PyNumbers.Trunc | tools/gen-sample-packages.py:80-89 | `int(x)` truncates toward zero: the result is within 1 of x, on x's side of zero. |
| PyNumbers.Round | tools/gen-sample-packages.py:75 | Python 2 `round`: the result is within 0.5 of x, and a tie goes away from zero. |
| PyNumbers.Max | tools/gen-sample-packages.py:89 | `max(a, b)` is at least both arguments and is one of them. |

The per-size lemmas `SampleRun.Numbers*`, `SampleRun.Words*` and `SampleRun.Rows*` (one each for Quarter, Half, One, Four, Eight and Sixteen) are steps of `SampleRun.SizeRows`. For one size they compute `str()`, the description's RAM value and the disk value, then the names and the description, and then the two docstring rows.

## Left out

- JSON output: `json.dumps` and `print` (line 93) are I/O and library formatting. The model stops at the list of records.
- Python's int/float distinction is not modelled. In the JSON output a clamped cpu_cap prints as `20` (an int) while a rounded one prints as `50.0` (a float). The model keeps every scaled field as an exact real.
- IEEE floating point is not modelled. For the script's sizes, every division except `cpu_cap / 100.0` at line 89 is exact, so exact reals give the same values. That one is rounded when cpu_cap is 20 (0.2 is not a binary float), and truncation still gives the same vcpu, 1.
- Render.PyStr: it writes the exact decimal expansion. Python 2's `str(float)` is `%.12g`, so the two agree only below 10^12, and only when the expansion has at most 12 significant digits. From 10^12 up, Python switches to exponent form (`str(1e12)` is `"1e+12"`); with more than 12 significant digits, it rounds. Every size the script uses is inside that range.
- PackageProperties.SmartosText: it describes the source's name and description only for sizes in the range where `Render.PyStr` agrees with Python 2 (see above).
- PackageProperties.NamesInjective: for the source, it holds only for sizes in the range where `Render.PyStr` agrees with Python 2. Outside it, Python's rounding can give two sizes the same name.
- PackageProperties.TableNamesDistinct: like `NamesInjective`, it carries over to the source only for sizes in the range where `Render.PyStr` agrees with Python 2.
- The docstring's shell pipeline (lines 7-8, `json` and `tabula`) is left out. `SampleRun.SampleRunMatchesDocs` relates the generation order to the table's order, which the pipeline's sort produces (within a size, "-kvm" sorts before "-smartos").
- SamplePackages.ValidSize: sizes must be positive whole numbers of MB. A zero size makes the script raise ZeroDivisionError. A negative size is an exact float, and the script runs on it: -1.0 gives cpu_cap 20 and "Sample -1 GB RAM, -16 GB Disk". The model leaves negative sizes out because `Render.Dyadic`, `Render.PyStr` and `Render.NatStr` render only non-negative numbers. Sizes that are not a whole number of MB are left out because of the model's grain. `Render.Units` and `Render.Dyadic` count whole 1/1024ths of a GB, and `Render.FracStr` writes at most ten fractional digits (f·5^10). Many such sizes are exact floats the script handles without rounding; 0.5 MB (0.00048828125 GB) is one. Neither kind occurs in the script's fixed list.
- Mutation of the copied dictionaries is modelled by record updates on values. `copy.copy` produces a fresh dictionary, so no aliasing is lost. `top` is a constant that nothing writes, which is the script's "top is never modified".
