/**
 * The sample-package generator: one fixed base record ("top", the 16 GB
 * package) scaled down to each RAM size of a fixed list, giving for every
 * size a "-smartos" record and a "-kvm" copy of it that adds a vcpu count.
 */
module SamplePackages {
  import opened Wrappers
  import opened PyNumbers
  import opened Render

  /**
   * One package record, a field per key of the source's dictionary. The
   * numbers the generator scales are real-valued (Python floats whose values
   * are exact here). fss and vcpu are keys a record may lack: the base has
   * neither, every generated record has fss, only "-kvm" records have vcpu.
   */
  datatype Package = Package(
    name: string,
    version: string,
    active: bool,
    cpuCap: real,
    default: bool,
    maxLwps: int,
    maxPhysicalMemory: real,
    maxSwap: real,
    quota: real,
    zfsIoPriority: int,
    group: string,
    description: string,
    v: int,
    fss: Option<real>,
    vcpu: Option<int>)

  /** The base record: the largest package, 16 GB of RAM and 256 GB of disk. */
  const Top := Package(
    "sample-16-smartos", "1.0.0", true, 200.0, false, 4000,
    16384.0, 32768.0, 262144.0, 100, "Sample", "Sample 16 GB RAM, 256 GB Disk", 1,
    None, None)

  /** The RAM sizes, in GB, that get a package, in generation order. */
  const RamSizesGb: seq<real> := [0.25, 0.5, 1.0, 4.0, 8.0, 16.0]

  /** The lower bound on cpu_cap. */
  const MinCpuCap: real := 20.0

  /** A RAM size the model renders exactly: positive and a whole number of MB. */
  predicate ValidSize(ramGb: real)
  {
    0.0 < ramGb && Dyadic(ramGb)
  }

  predicate ValidSizes(sizes: seq<real>)
  {
    forall i :: 0 <= i < |sizes| ==> ValidSize(sizes[i])
  }

  // ---------------------------------------------------------------------
  // The four fields that are scaled in proportion to RAM, in the order the
  // source's inner loop visits them, and field access by name.

  datatype ScaledField = CpuCap | MaxPhysicalMemory | MaxSwap | Quota

  const ScaledFields: seq<ScaledField> := [CpuCap, MaxPhysicalMemory, MaxSwap, Quota]

  function Get(p: Package, f: ScaledField): real
  {
    match f
    case CpuCap => p.cpuCap
    case MaxPhysicalMemory => p.maxPhysicalMemory
    case MaxSwap => p.maxSwap
    case Quota => p.quota
  }

  /** p with its scaled fields blanked: what a write to a scaled field leaves alone. */
  function Unscaled(p: Package): Package
  {
    p.(cpuCap := 0.0, maxPhysicalMemory := 0.0, maxSwap := 0.0, quota := 0.0)
  }

  /** pkg[field] = x */
  function Set(p: Package, f: ScaledField, x: real): (q: Package)
    ensures Get(q, f) == x
    ensures forall g :: g != f ==> Get(q, g) == Get(p, g)
    ensures Unscaled(q) == Unscaled(p)
  {
    match f
    case CpuCap => p.(cpuCap := x)
    case MaxPhysicalMemory => p.(maxPhysicalMemory := x)
    case MaxSwap => p.(maxSwap := x)
    case Quota => p.(quota := x)
  }

  /** A record is determined by its scaled fields and the rest. */
  lemma FieldsDetermine(p: Package, q: Package)
    requires Unscaled(p) == Unscaled(q)
    requires forall f :: Get(p, f) == Get(q, f)
    ensures p == q
  {
    assert Get(p, CpuCap) == Get(q, CpuCap);
    assert Get(p, MaxPhysicalMemory) == Get(q, MaxPhysicalMemory);
    assert Get(p, MaxSwap) == Get(q, MaxSwap);
    assert Get(p, Quota) == Get(q, Quota);
  }

  // ---------------------------------------------------------------------
  // The per-size record, as pure functions.

  /** Every scaled field of p divided by factor. */
  function ScaleBy(p: Package, factor: real): (q: Package)
    requires factor != 0.0
    ensures forall f :: Get(q, f) == Get(p, f) / factor
    ensures Unscaled(q) == Unscaled(p)
  {
    p.(cpuCap := p.cpuCap / factor, maxPhysicalMemory := p.maxPhysicalMemory / factor,
       maxSwap := p.maxSwap / factor, quota := p.quota / factor)
  }

  /** p after the source's inner loop has written its first n fields: pkg[field] = top[field] / factor. */
  function ScaleFirst(p: Package, factor: real, n: nat): Package
    requires factor != 0.0 && n <= |ScaledFields|
  {
    if n == 0 then p
    else
      var f := ScaledFields[n - 1];
      Set(ScaleFirst(p, factor, n - 1), f, Get(p, f) / factor)
  }

  /** Writing all four fields is scaling by the factor. */
  lemma ScaleFirstAll(p: Package, factor: real)
    requires factor != 0.0
    ensures ScaleFirst(p, factor, |ScaledFields|) == ScaleBy(p, factor)
  {
    assert ScaleFirst(p, factor, 0) == p;
    var q := ScaleFirst(p, factor, |ScaledFields|);
    var q1 := ScaleFirst(p, factor, 1);
    var q2 := ScaleFirst(p, factor, 2);
    var q3 := ScaleFirst(p, factor, 3);
    assert Unscaled(q) == Unscaled(q3) == Unscaled(q2) == Unscaled(q1) == Unscaled(p);
    forall f
      ensures Get(q, f) == Get(p, f) / factor
    {
      if f != Quota {
        assert Get(q, f) == Get(q3, f);
        if f != MaxSwap {
          assert Get(q3, f) == Get(q2, f);
          if f != MaxPhysicalMemory {
            assert Get(q2, f) == Get(q1, f);
          }
        }
      }
    }
    FieldsDetermine(q, ScaleBy(p, factor));
  }

  /** The cpu_cap policy: at least MinCpuCap, and otherwise the rounded scaled value. */
  function ClampCpuCap(raw: real): (c: real)
    ensures MinCpuCap <= c && c == c.Floor as real
    ensures MinCpuCap <= raw ==> c - raw <= 0.5 && raw - c <= 0.5
    ensures raw <= MinCpuCap ==> c == MinCpuCap
  {
    if raw < MinCpuCap then MinCpuCap else Round(raw) as real
  }

  function SmartosName(ramGb: real): string
    requires ValidSize(ramGb)
  {
    "sample-" + PyStr(ramGb) + "-smartos"
  }

  function KvmName(ramGb: real): string
    requires ValidSize(ramGb)
  {
    "sample-" + PyStr(ramGb) + "-kvm"
  }

  /** "Sample <RAM in GB> GB RAM, <disk in whole GB> GB Disk" */
  function Description(maxPhysicalMemory: real, quota: real): string
    requires Dyadic(maxPhysicalMemory / 1024.0) && 0.0 <= quota
  {
    "Sample " + DisplayNumber(maxPhysicalMemory / 1024.0) + " GB RAM, "
      + NatStr(Trunc(quota / 1024.0)) + " GB Disk"
  }

  /** Dividing by the ratio of the base RAM to the target RAM scales by ramGb / 16. */
  lemma DivideByFactor(c: real, ramGb: real)
    requires 0.0 < ramGb
    ensures Top.maxPhysicalMemory / (ramGb * 1024.0) == 16.0 / ramGb
    ensures c / (Top.maxPhysicalMemory / (ramGb * 1024.0)) == c * ramGb / 16.0
  {
    var factor := Top.maxPhysicalMemory / (ramGb * 1024.0);
    assert factor * ramGb == 16.0;
    assert (c * ramGb / 16.0) * factor == c;
  }

  /** The scaled RAM, in GB, is the target size, and the scaled quota is non-negative. */
  lemma ScaledRam(ramGb: real)
    requires 0.0 < ramGb
    ensures Top.maxPhysicalMemory / (Top.maxPhysicalMemory / (ramGb * 1024.0)) / 1024.0 == ramGb
    ensures 0.0 <= Top.quota / (Top.maxPhysicalMemory / (ramGb * 1024.0))
  {
    DivideByFactor(Top.maxPhysicalMemory, ramGb);
    DivideByFactor(Top.quota, ramGb);
  }

  /** The "-smartos" record for one RAM size. */
  function SmartosPackage(ramGb: real): Package
    requires ValidSize(ramGb)
  {
    var ramMb := ramGb * 1024.0;
    var factor := Top.maxPhysicalMemory / ramMb;
    ScaledRam(ramGb);
    var scaled := ScaleBy(Top, factor);
    var cap := ClampCpuCap(scaled.cpuCap);
    var p := scaled.(cpuCap := cap, fss := Some(cap), name := SmartosName(ramGb));
    p.(description := Description(p.maxPhysicalMemory, p.quota))
  }

  /** The "-kvm" copy of a "-smartos" record p for RAM size ramGb: a vcpu count added, renamed. */
  function KvmOf(p: Package, ramGb: real): Package
    requires ValidSize(ramGb)
  {
    p.(vcpu := Some(Max(1, Trunc(p.cpuCap / 100.0))), name := KvmName(ramGb))
  }

  /** The "-kvm" record for one RAM size. */
  function KvmPackage(ramGb: real): Package
    requires ValidSize(ramGb)
  {
    KvmOf(SmartosPackage(ramGb), ramGb)
  }

  /** The two records for one RAM size, in the order they are appended. */
  function Variants(ramGb: real): (Package, Package)
    requires ValidSize(ramGb)
  {
    (SmartosPackage(ramGb), KvmPackage(ramGb))
  }

  /** The pairs laid out one after the other. */
  function Flatten<T>(pairs: seq<(T, T)>): (r: seq<T>)
    ensures |r| == 2 * |pairs|
  {
    if pairs == [] then []
    else Flatten(pairs[..|pairs| - 1]) + [pairs[|pairs| - 1].0, pairs[|pairs| - 1].1]
  }

  lemma {:induction false} FlattenAt<T>(pairs: seq<(T, T)>, i: nat)
    requires i < |pairs|
    ensures Flatten(pairs)[2 * i] == pairs[i].0 && Flatten(pairs)[2 * i + 1] == pairs[i].1
  {
    if i < |pairs| - 1 {
      FlattenAt(pairs[..|pairs| - 1], i);
    }
  }

  function SizePairs(sizes: seq<real>): (r: seq<(Package, Package)>)
    requires ValidSizes(sizes)
    ensures |r| == |sizes|
  {
    seq(|sizes|, i requires 0 <= i < |sizes| => Variants(sizes[i]))
  }

  /** The whole output for a list of sizes: per size, its "-smartos" then its "-kvm" record. */
  function Table(sizes: seq<real>): seq<Package>
    requires ValidSizes(sizes)
  {
    Flatten(SizePairs(sizes))
  }

  /** The records of size i sit at positions 2i and 2i + 1. */
  lemma TableAt(sizes: seq<real>, i: nat)
    requires ValidSizes(sizes) && i < |sizes|
    ensures Table(sizes)[2 * i] == SmartosPackage(sizes[i])
    ensures Table(sizes)[2 * i + 1] == KvmPackage(sizes[i])
  {
    FlattenAt(SizePairs(sizes), i);
  }

  /** Appending a size appends its two records. */
  lemma TableSnoc(sizes: seq<real>, i: nat)
    requires ValidSizes(sizes) && i < |sizes|
    ensures Table(sizes[..i + 1]) == Table(sizes[..i]) + [SmartosPackage(sizes[i]), KvmPackage(sizes[i])]
  {
    var ps := SizePairs(sizes[..i + 1]);
    assert ps[..i] == SizePairs(sizes[..i]);
  }

  // ---------------------------------------------------------------------
  // The generator loop.

  /**
   * One pass of the loop up to the first append: copy the base, scale its
   * four proportional fields one by one, apply the cpu_cap policy, and set
   * fss, the name and the description.
   */
  method BuildSmartos(ramGb: real) returns (pkg: Package)
    requires ValidSize(ramGb)
    ensures pkg == SmartosPackage(ramGb)
  {
    hide Description, PyStr, DisplayNumber, NatStr, Trunc, Round;
    pkg := Top;
    var ramMb := ramGb * 1024.0;
    var factor := Top.maxPhysicalMemory / ramMb;
    DivideByFactor(1.0, ramGb);
    for j := 0 to |ScaledFields|
      invariant pkg == ScaleFirst(Top, factor, j)
    {
      var field := ScaledFields[j];
      pkg := Set(pkg, field, Get(Top, field) / factor);
    }
    ScaleFirstAll(Top, factor);
    if pkg.cpuCap < 20.0 {
      pkg := pkg.(cpuCap := 20.0);
    } else {
      pkg := pkg.(cpuCap := Round(pkg.cpuCap) as real);
    }
    pkg := pkg.(fss := Some(pkg.cpuCap));
    pkg := pkg.(name := "sample-" + PyStr(ramGb) + "-smartos");

    ScaledRam(ramGb);
    pkg := pkg.(description := Description(pkg.maxPhysicalMemory, pkg.quota));
  }

  /**
   * Builds the list of packages: for each size, the "-smartos" record, then
   * a copy of it with a vcpu count and the "-kvm" name.
   */
  method Generate(sizes: seq<real>) returns (pkgs: seq<Package>)
    requires ValidSizes(sizes)
    ensures pkgs == Table(sizes)
  {
    hide SmartosPackage, Description, PyStr, DisplayNumber, NatStr;
    pkgs := [];
    for i := 0 to |sizes|
      invariant pkgs == Table(sizes[..i])
    {
      var ramGb := sizes[i];
      var pkg := BuildSmartos(ramGb);
      ghost var before := pkgs;
      pkgs := pkgs + [pkg];

      var pkgKvm := pkg;
      pkgKvm := pkgKvm.(vcpu := Some(Max(1, Trunc(pkgKvm.cpuCap / 100.0))));
      pkgKvm := pkgKvm.(name := "sample-" + PyStr(ramGb) + "-kvm");
      assert pkgKvm == KvmOf(pkg, ramGb);
      pkgs := pkgs + [pkgKvm];
      assert pkgs == before + [pkg, pkgKvm];
      TableSnoc(sizes, i);
    }
    assert sizes[..|sizes|] == sizes;
  }
}
