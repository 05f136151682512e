/**
 * What the generator promises about every record it emits, for any list of
 * valid RAM sizes: the proportional fields, the cpu_cap policy, fss, the
 * fields copied from the base, the "-kvm" copy, names and descriptions, and
 * the layout of the output list.
 */
module PackageProperties {
  import opened Wrappers
  import opened PyNumbers
  import opened Render
  import opened SamplePackages

  /** RAM, swap and disk are in proportion to the target RAM size. */
  lemma SmartosScaling(ramGb: real)
    requires ValidSize(ramGb)
    ensures SmartosPackage(ramGb).maxPhysicalMemory == ramGb * 1024.0
    ensures SmartosPackage(ramGb).maxSwap == 2.0 * SmartosPackage(ramGb).maxPhysicalMemory
    ensures SmartosPackage(ramGb).quota == 16.0 * SmartosPackage(ramGb).maxPhysicalMemory
  {
    hide Description, PyStr, DisplayNumber, NatStr, Trunc, Round;
    DivideByFactor(Top.maxPhysicalMemory, ramGb);
    DivideByFactor(Top.maxSwap, ramGb);
    DivideByFactor(Top.quota, ramGb);
  }

  /**
   * cpu_cap is the base's 200 scaled by the RAM ratio when that is at least
   * 20, rounded half away from zero, and exactly 20 below that; so it is a
   * whole number of at least 20. fss equals it.
   */
  lemma SmartosCpuCap(ramGb: real)
    requires ValidSize(ramGb)
    ensures var raw := Top.cpuCap * (ramGb * 1024.0) / Top.maxPhysicalMemory;
      SmartosPackage(ramGb).cpuCap == if raw < MinCpuCap then MinCpuCap else Round(raw) as real
    ensures MinCpuCap <= SmartosPackage(ramGb).cpuCap
    ensures SmartosPackage(ramGb).cpuCap == SmartosPackage(ramGb).cpuCap.Floor as real
    ensures SmartosPackage(ramGb).fss == Some(SmartosPackage(ramGb).cpuCap)
  {
    hide Description, PyStr, DisplayNumber, NatStr, Trunc, Round;
    DivideByFactor(Top.cpuCap, ramGb);
  }

  /**
   * The fields the generator does not touch keep the base's values (in
   * particular zfs_io_priority stays 100 and is not set to fss), and a
   * "-smartos" record has no vcpu.
   */
  lemma SmartosKeepsBase(ramGb: real)
    requires ValidSize(ramGb)
    ensures var p := SmartosPackage(ramGb);
      p.version == Top.version && p.active == Top.active && p.default == Top.default
      && p.maxLwps == Top.maxLwps && p.zfsIoPriority == Top.zfsIoPriority
      && p.group == Top.group && p.v == Top.v && p.vcpu == None
  {
  }

  /**
   * The name is "sample-<str(ramGb)>-smartos"; the description shows the
   * RAM size without a ".0" and the disk as 16 GB per GB of RAM, truncated.
   */
  lemma SmartosText(ramGb: real)
    requires ValidSize(ramGb)
    ensures SmartosPackage(ramGb).name == "sample-" + PyStr(ramGb) + "-smartos"
    ensures SmartosPackage(ramGb).description
      == "Sample " + DisplayNumber(ramGb) + " GB RAM, " + NatStr(Trunc(16.0 * ramGb)) + " GB Disk"
  {
    SmartosScaling(ramGb);
    var p := SmartosPackage(ramGb);
    assert p.description == Description(p.maxPhysicalMemory, p.quota);
    DescriptionOfSize(p.maxPhysicalMemory, p.quota, ramGb);
  }

  /** The description of a record with ramGb GB of RAM and 16 times that as disk. */
  lemma DescriptionOfSize(maxPhysicalMemory: real, quota: real, ramGb: real)
    requires ValidSize(ramGb) && maxPhysicalMemory == ramGb * 1024.0
    requires quota == 16.0 * maxPhysicalMemory
    ensures Description(maxPhysicalMemory, quota)
      == "Sample " + DisplayNumber(ramGb) + " GB RAM, " + NatStr(Trunc(16.0 * ramGb)) + " GB Disk"
  {
    hide PyStr, DisplayNumber, NatStr, Trunc;
    assert maxPhysicalMemory / 1024.0 == ramGb;
    assert quota / 1024.0 == 16.0 * ramGb;
  }

  /**
   * The "-kvm" record equals the "-smartos" one except for its name and the
   * added vcpu, which is cpu_cap / 100 truncated but at least 1: the number
   * of whole hundreds in cpu_cap once cpu_cap reaches 100.
   */
  lemma KvmCopiesSmartos(ramGb: real)
    requires ValidSize(ramGb)
    ensures var s, k := SmartosPackage(ramGb), KvmPackage(ramGb);
      k.vcpu.Some? && k == s.(name := "sample-" + PyStr(ramGb) + "-kvm", vcpu := k.vcpu)
    ensures var cap, v := SmartosPackage(ramGb).cpuCap, KvmPackage(ramGb).vcpu.value;
      1 <= v && (cap < 200.0 ==> v == 1)
      && (100.0 <= cap ==> v as real * 100.0 <= cap < (v + 1) as real * 100.0)
  {
    SmartosCpuCap(ramGb);
  }

  /** A "-smartos" name is never a "-kvm" name: they end differently. */
  lemma SmartosNotKvm(g: real, h: real)
    requires ValidSize(g) && ValidSize(h)
    ensures SmartosName(g) != KvmName(h)
  {
    var a, b := SmartosName(g), KvmName(h);
    assert a[|a| - 1] == 's' && b[|b| - 1] == 'm';
  }

  /** Names with the same suffix differ when the sizes differ. */
  lemma NamesInjective(g: real, h: real)
    requires ValidSize(g) && ValidSize(h) && g != h
    ensures SmartosName(g) != SmartosName(h) && KvmName(g) != KvmName(h)
  {
    if PyStr(g) == PyStr(h) {
      PyStrInjective(g, h);
      assert false;
    }
    InfixCancel("sample-", PyStr(g), PyStr(h), "-smartos");
    InfixCancel("sample-", PyStr(g), PyStr(h), "-kvm");
  }

  /** Strings with equal prefixes and suffixes are equal only when their middles are. */
  lemma InfixCancel(pre: string, a: string, b: string, suf: string)
    ensures pre + a + suf == pre + b + suf ==> a == b
  {
    var s, t := pre + a + suf, pre + b + suf;
    if s == t {
      assert |a| == |b|;
      assert s[|pre|..|pre| + |a|] == a;
      assert t[|pre|..|pre| + |b|] == b;
    }
  }

  /** The output has two records per size: size i's "-smartos" at 2i, its "-kvm" at 2i + 1. */
  lemma TableLayout(sizes: seq<real>)
    requires ValidSizes(sizes)
    ensures |Table(sizes)| == 2 * |sizes|
    ensures forall i :: 0 <= i < |sizes| ==>
      Table(sizes)[2 * i] == SmartosPackage(sizes[i]) && Table(sizes)[2 * i + 1] == KvmPackage(sizes[i])
  {
    forall i | 0 <= i < |sizes|
      ensures Table(sizes)[2 * i] == SmartosPackage(sizes[i]) && Table(sizes)[2 * i + 1] == KvmPackage(sizes[i])
    {
      TableAt(sizes, i);
    }
  }

  /** The record at position j of the output belongs to size j / 2, and is its "-kvm" one exactly when j is odd. */
  lemma TableRecord(sizes: seq<real>, j: nat)
    requires ValidSizes(sizes) && j < 2 * |sizes|
    ensures j < |Table(sizes)|
    ensures Table(sizes)[j] == if j % 2 == 0 then SmartosPackage(sizes[j / 2]) else KvmPackage(sizes[j / 2])
  {
    hide SmartosPackage, KvmPackage;
    var i := j / 2;
    TableAt(sizes, i);
    if j % 2 == 0 {
      assert j == 2 * i;
    } else {
      assert j == 2 * i + 1;
    }
  }

  /**
   * Every emitted record has cpu_cap >= 20 and fss == cpu_cap, carries vcpu
   * exactly when it is a "-kvm" record (odd position) with vcpu >= 1, and is
   * never the base record itself.
   */
  lemma TableInvariants(sizes: seq<real>)
    requires ValidSizes(sizes)
    ensures forall j :: 0 <= j < |Table(sizes)| ==>
      var p := Table(sizes)[j];
      MinCpuCap <= p.cpuCap && p.fss == Some(p.cpuCap) && p != Top
      && (p.vcpu.Some? <==> j % 2 == 1) && (p.vcpu.Some? ==> 1 <= p.vcpu.value)
  {
    forall j | 0 <= j < |Table(sizes)|
      ensures var p := Table(sizes)[j];
        MinCpuCap <= p.cpuCap && p.fss == Some(p.cpuCap) && p != Top
        && (p.vcpu.Some? <==> j % 2 == 1) && (p.vcpu.Some? ==> 1 <= p.vcpu.value)
    {
      TableRecord(sizes, j);
      var g := sizes[j / 2];
      SmartosCpuCap(g);
      SmartosKeepsBase(g);
      KvmCopiesSmartos(g);
    }
  }

  /** With no size listed twice, all names in the output are pairwise distinct. */
  lemma TableNamesDistinct(sizes: seq<real>)
    requires ValidSizes(sizes)
    requires forall a, b :: 0 <= a < b < |sizes| ==> sizes[a] != sizes[b]
    ensures forall i, j :: 0 <= i < j < |Table(sizes)| ==> Table(sizes)[i].name != Table(sizes)[j].name
  {
    forall i, j | 0 <= i < j < |Table(sizes)|
      ensures Table(sizes)[i].name != Table(sizes)[j].name
    {
      TableRecord(sizes, i);
      TableRecord(sizes, j);
      var g, h := sizes[i / 2], sizes[j / 2];
      SmartosText(g);
      SmartosText(h);
      KvmCopiesSmartos(g);
      KvmCopiesSmartos(h);
      SmartosNotKvm(g, h);
      SmartosNotKvm(h, g);
      if i / 2 != j / 2 {
        NamesInjective(g, h);
      }
    }
  }
}
