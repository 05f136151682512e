/**
 * The script's fixed size list: the six RAM sizes it lists, and the table
 * of selected columns its docstring shows for them.
 */
module SampleRun {
  import opened Wrappers
  import opened PyNumbers
  import opened Render
  import opened SamplePackages
  import opened PackageProperties

  /** The columns the docstring selects ("-" for an absent vcpu is None). */
  datatype Row = Row(
    name: string, maxPhysicalMemory: real, maxSwap: real, quota: real,
    cpuCap: real, fss: Option<real>, vcpu: Option<int>, description: string)

  function RowOf(p: Package): Row
  {
    Row(p.name, p.maxPhysicalMemory, p.maxSwap, p.quota, p.cpuCap, p.fss, p.vcpu, p.description)
  }

  /** The docstring's table, in its order: by RAM size, the "-kvm" row first. */
  const DocumentedRows: seq<Row> := [
    Row("sample-0.25-kvm", 256.0, 512.0, 4096.0, 20.0, Some(20.0), Some(1), "Sample 0.25 GB RAM, 4 GB Disk"),
    Row("sample-0.25-smartos", 256.0, 512.0, 4096.0, 20.0, Some(20.0), None, "Sample 0.25 GB RAM, 4 GB Disk"),
    Row("sample-0.5-kvm", 512.0, 1024.0, 8192.0, 20.0, Some(20.0), Some(1), "Sample 0.5 GB RAM, 8 GB Disk"),
    Row("sample-0.5-smartos", 512.0, 1024.0, 8192.0, 20.0, Some(20.0), None, "Sample 0.5 GB RAM, 8 GB Disk"),
    Row("sample-1.0-kvm", 1024.0, 2048.0, 16384.0, 20.0, Some(20.0), Some(1), "Sample 1 GB RAM, 16 GB Disk"),
    Row("sample-1.0-smartos", 1024.0, 2048.0, 16384.0, 20.0, Some(20.0), None, "Sample 1 GB RAM, 16 GB Disk"),
    Row("sample-4.0-kvm", 4096.0, 8192.0, 65536.0, 50.0, Some(50.0), Some(1), "Sample 4 GB RAM, 64 GB Disk"),
    Row("sample-4.0-smartos", 4096.0, 8192.0, 65536.0, 50.0, Some(50.0), None, "Sample 4 GB RAM, 64 GB Disk"),
    Row("sample-8.0-kvm", 8192.0, 16384.0, 131072.0, 100.0, Some(100.0), Some(1), "Sample 8 GB RAM, 128 GB Disk"),
    Row("sample-8.0-smartos", 8192.0, 16384.0, 131072.0, 100.0, Some(100.0), None, "Sample 8 GB RAM, 128 GB Disk"),
    Row("sample-16.0-kvm", 16384.0, 32768.0, 262144.0, 200.0, Some(200.0), Some(2), "Sample 16 GB RAM, 256 GB Disk"),
    Row("sample-16.0-smartos", 16384.0, 32768.0, 262144.0, 200.0, Some(200.0), None, "Sample 16 GB RAM, 256 GB Disk")
  ]

  /** The script's sizes are all valid. */
  lemma RamSizesValid()
    ensures ValidSizes(RamSizesGb)
  {
    assert Units(0.25) == 256 && Units(0.5) == 512 && Units(1.0) == 1024;
    assert Units(4.0) == 4096 && Units(8.0) == 8192 && Units(16.0) == 16384;
  }

  /**
   * What every size's two records are: name, memory, swap, quota and
   * description in terms of its rendered strings, and cpu_cap, fss and vcpu
   * in terms of the cpu_cap policy applied to 200 * g / 16.
   */
  lemma RowsClosedForm(g: real)
    requires ValidSize(g)
    ensures var cap := SmartosPackage(g).cpuCap;
      var desc := "Sample " + DisplayNumber(g) + " GB RAM, " + NatStr(Trunc(16.0 * g)) + " GB Disk";
      RowOf(SmartosPackage(g))
        == Row(SmartosName(g), g * 1024.0, 2048.0 * g, 16384.0 * g, cap, Some(cap), None, desc)
      && RowOf(KvmPackage(g))
        == Row(KvmName(g), g * 1024.0, 2048.0 * g, 16384.0 * g, cap, Some(cap),
               KvmPackage(g).vcpu, desc)
    ensures SmartosPackage(g).cpuCap == ClampCpuCap(200.0 * g / 16.0)
    ensures KvmPackage(g).vcpu == Some(Max(1, Trunc(ClampCpuCap(200.0 * g / 16.0) / 100.0)))
  {
    SmartosScaling(g);
    SmartosCpuCap(g);
    SmartosText(g);
    SmartosKeepsBase(g);
    KvmCopiesSmartos(g);
    CapClosedForm(g);
  }

  /** cpu_cap and vcpu of a size's records, as the cpu_cap policy applied to 200 * g / 16. */
  lemma CapClosedForm(g: real)
    requires ValidSize(g)
    ensures SmartosPackage(g).cpuCap == ClampCpuCap(200.0 * g / 16.0)
    ensures KvmPackage(g).vcpu == Some(Max(1, Trunc(ClampCpuCap(200.0 * g / 16.0) / 100.0)))
  {
    hide Description, PyStr, DisplayNumber, NatStr, SmartosName, KvmName, SmartosPackage;
    SmartosCpuCap(g);
    assert Top.cpuCap * (g * 1024.0) / Top.maxPhysicalMemory == 200.0 * g / 16.0;
    assert KvmPackage(g) == KvmOf(SmartosPackage(g), g);
  }

  /** str(0.25), 0.25 as the description shows it, and 16 * 0.25 truncated. */
  lemma NumbersQuarter()
    ensures Dyadic(0.25) && 0.0 < 0.25
    ensures PyStr(0.25) == "0.25" && DisplayNumber(0.25) == "0.25" && NatStr(Trunc(16.0 * 0.25)) == "4"
  {
    PyStrParts(0.25, 0, 256);
    FracQuarter();
    assert Trunc(0.25) == 0 && NatStr(4) == "4";
  }

  /** The names and the description of the 0.25 GB records. */
  lemma WordsQuarter()
    ensures Dyadic(0.25) && 0.0 < 0.25
    ensures SmartosName(0.25) == "sample-0.25-smartos" && KvmName(0.25) == "sample-0.25-kvm"
    ensures "Sample " + DisplayNumber(0.25) + " GB RAM, " + NatStr(Trunc(16.0 * 0.25)) + " GB Disk"
      == "Sample 0.25 GB RAM, 4 GB Disk"
  {
    hide PyStr, DisplayNumber, NatStr, Trunc;
    NumbersQuarter();
  }

  /** The 0.25 GB records are the docstring's rows 1 and 0 (counting from 0). */
  lemma RowsQuarter()
    ensures ValidSize(0.25)
    ensures RowOf(SmartosPackage(0.25)) == DocumentedRows[1] && RowOf(KvmPackage(0.25)) == DocumentedRows[0]
  {
    hide SmartosPackage, KvmPackage, SmartosName, KvmName, PyStr, DisplayNumber, NatStr, Trunc;
    RamSizesValid();
    assert RamSizesGb[0] == 0.25;
    RowsClosedForm(0.25);
    SmartosCpuCap(0.25);
    KvmCopiesSmartos(0.25);
    WordsQuarter();
    assert SmartosPackage(0.25).cpuCap == 20.0;
    assert KvmPackage(0.25).vcpu == Some(1);
  }

  /** str(0.5), 0.5 as the description shows it, and 16 * 0.5 truncated. */
  lemma NumbersHalf()
    ensures Dyadic(0.5) && 0.0 < 0.5
    ensures PyStr(0.5) == "0.5" && DisplayNumber(0.5) == "0.5" && NatStr(Trunc(16.0 * 0.5)) == "8"
  {
    PyStrParts(0.5, 0, 512);
    FracHalf();
    assert Trunc(0.5) == 0 && NatStr(8) == "8";
  }

  /** The names and the description of the 0.5 GB records. */
  lemma WordsHalf()
    ensures Dyadic(0.5) && 0.0 < 0.5
    ensures SmartosName(0.5) == "sample-0.5-smartos" && KvmName(0.5) == "sample-0.5-kvm"
    ensures "Sample " + DisplayNumber(0.5) + " GB RAM, " + NatStr(Trunc(16.0 * 0.5)) + " GB Disk"
      == "Sample 0.5 GB RAM, 8 GB Disk"
  {
    hide PyStr, DisplayNumber, NatStr, Trunc;
    NumbersHalf();
  }

  /** The 0.5 GB records are the docstring's rows 3 and 2 (counting from 0). */
  lemma RowsHalf()
    ensures ValidSize(0.5)
    ensures RowOf(SmartosPackage(0.5)) == DocumentedRows[3] && RowOf(KvmPackage(0.5)) == DocumentedRows[2]
  {
    hide SmartosPackage, KvmPackage, SmartosName, KvmName, PyStr, DisplayNumber, NatStr, Trunc;
    RamSizesValid();
    assert RamSizesGb[1] == 0.5;
    RowsClosedForm(0.5);
    SmartosCpuCap(0.5);
    KvmCopiesSmartos(0.5);
    WordsHalf();
    assert SmartosPackage(0.5).cpuCap == 20.0;
    assert KvmPackage(0.5).vcpu == Some(1);
  }

  /** str(1.0), 1.0 as the description shows it, and 16 * 1.0 truncated. */
  lemma NumbersOne()
    ensures Dyadic(1.0) && 0.0 < 1.0
    ensures PyStr(1.0) == "1.0" && DisplayNumber(1.0) == "1" && NatStr(Trunc(16.0 * 1.0)) == "16"
  {
    PyStrParts(1.0, 1, 0);
    assert FracStr(0) == "0" && Trunc(1.0) == 1;
    assert NatStr(1) == "1" && NatStr(16) == "16";
  }

  /** The names and the description of the 1.0 GB records. */
  lemma WordsOne()
    ensures Dyadic(1.0) && 0.0 < 1.0
    ensures SmartosName(1.0) == "sample-1.0-smartos" && KvmName(1.0) == "sample-1.0-kvm"
    ensures "Sample " + DisplayNumber(1.0) + " GB RAM, " + NatStr(Trunc(16.0 * 1.0)) + " GB Disk"
      == "Sample 1 GB RAM, 16 GB Disk"
  {
    hide PyStr, DisplayNumber, NatStr, Trunc;
    NumbersOne();
  }

  /** The 1.0 GB records are the docstring's rows 5 and 4 (counting from 0). */
  lemma RowsOne()
    ensures ValidSize(1.0)
    ensures RowOf(SmartosPackage(1.0)) == DocumentedRows[5] && RowOf(KvmPackage(1.0)) == DocumentedRows[4]
  {
    hide SmartosPackage, KvmPackage, SmartosName, KvmName, PyStr, DisplayNumber, NatStr, Trunc;
    RamSizesValid();
    assert RamSizesGb[2] == 1.0;
    RowsClosedForm(1.0);
    SmartosCpuCap(1.0);
    KvmCopiesSmartos(1.0);
    WordsOne();
    assert SmartosPackage(1.0).cpuCap == 20.0;
    assert KvmPackage(1.0).vcpu == Some(1);
  }

  /** str(4.0), 4.0 as the description shows it, and 16 * 4.0 truncated. */
  lemma NumbersFour()
    ensures Dyadic(4.0) && 0.0 < 4.0
    ensures PyStr(4.0) == "4.0" && DisplayNumber(4.0) == "4" && NatStr(Trunc(16.0 * 4.0)) == "64"
  {
    PyStrParts(4.0, 4, 0);
    assert FracStr(0) == "0" && Trunc(4.0) == 4;
    assert NatStr(4) == "4" && NatStr(64) == "64";
  }

  /** The names and the description of the 4.0 GB records. */
  lemma WordsFour()
    ensures Dyadic(4.0) && 0.0 < 4.0
    ensures SmartosName(4.0) == "sample-4.0-smartos" && KvmName(4.0) == "sample-4.0-kvm"
    ensures "Sample " + DisplayNumber(4.0) + " GB RAM, " + NatStr(Trunc(16.0 * 4.0)) + " GB Disk"
      == "Sample 4 GB RAM, 64 GB Disk"
  {
    hide PyStr, DisplayNumber, NatStr, Trunc;
    NumbersFour();
  }

  /** The 4.0 GB records are the docstring's rows 7 and 6 (counting from 0). */
  lemma RowsFour()
    ensures ValidSize(4.0)
    ensures RowOf(SmartosPackage(4.0)) == DocumentedRows[7] && RowOf(KvmPackage(4.0)) == DocumentedRows[6]
  {
    hide SmartosPackage, KvmPackage, SmartosName, KvmName, PyStr, DisplayNumber, NatStr, Trunc;
    RamSizesValid();
    assert RamSizesGb[3] == 4.0;
    RowsClosedForm(4.0);
    SmartosCpuCap(4.0);
    KvmCopiesSmartos(4.0);
    WordsFour();
    assert SmartosPackage(4.0).cpuCap == 50.0;
    assert KvmPackage(4.0).vcpu == Some(1);
  }

  /** str(8.0), 8.0 as the description shows it, and 16 * 8.0 truncated. */
  lemma NumbersEight()
    ensures Dyadic(8.0) && 0.0 < 8.0
    ensures PyStr(8.0) == "8.0" && DisplayNumber(8.0) == "8" && NatStr(Trunc(16.0 * 8.0)) == "128"
  {
    PyStrParts(8.0, 8, 0);
    assert FracStr(0) == "0" && Trunc(8.0) == 8;
    assert NatStr(8) == "8" && NatStr(128) == "128";
  }

  /** The names and the description of the 8.0 GB records. */
  lemma WordsEight()
    ensures Dyadic(8.0) && 0.0 < 8.0
    ensures SmartosName(8.0) == "sample-8.0-smartos" && KvmName(8.0) == "sample-8.0-kvm"
    ensures "Sample " + DisplayNumber(8.0) + " GB RAM, " + NatStr(Trunc(16.0 * 8.0)) + " GB Disk"
      == "Sample 8 GB RAM, 128 GB Disk"
  {
    hide PyStr, DisplayNumber, NatStr, Trunc;
    NumbersEight();
  }

  /** The 8.0 GB records are the docstring's rows 9 and 8 (counting from 0). */
  lemma RowsEight()
    ensures ValidSize(8.0)
    ensures RowOf(SmartosPackage(8.0)) == DocumentedRows[9] && RowOf(KvmPackage(8.0)) == DocumentedRows[8]
  {
    hide SmartosPackage, KvmPackage, SmartosName, KvmName, PyStr, DisplayNumber, NatStr, Trunc;
    RamSizesValid();
    assert RamSizesGb[4] == 8.0;
    RowsClosedForm(8.0);
    SmartosCpuCap(8.0);
    KvmCopiesSmartos(8.0);
    WordsEight();
    assert SmartosPackage(8.0).cpuCap == 100.0;
    assert KvmPackage(8.0).vcpu == Some(1);
  }

  /** str(16.0), 16.0 as the description shows it, and 16 * 16.0 truncated. */
  lemma NumbersSixteen()
    ensures Dyadic(16.0) && 0.0 < 16.0
    ensures PyStr(16.0) == "16.0" && DisplayNumber(16.0) == "16" && NatStr(Trunc(16.0 * 16.0)) == "256"
  {
    PyStrParts(16.0, 16, 0);
    assert FracStr(0) == "0" && Trunc(16.0) == 16;
    assert NatStr(16) == "16" && NatStr(256) == "256";
  }

  /** The names and the description of the 16.0 GB records. */
  lemma WordsSixteen()
    ensures Dyadic(16.0) && 0.0 < 16.0
    ensures SmartosName(16.0) == "sample-16.0-smartos" && KvmName(16.0) == "sample-16.0-kvm"
    ensures "Sample " + DisplayNumber(16.0) + " GB RAM, " + NatStr(Trunc(16.0 * 16.0)) + " GB Disk"
      == "Sample 16 GB RAM, 256 GB Disk"
  {
    hide PyStr, DisplayNumber, NatStr, Trunc;
    NumbersSixteen();
  }

  /** The 16.0 GB records are the docstring's rows 11 and 10 (counting from 0). */
  lemma RowsSixteen()
    ensures ValidSize(16.0)
    ensures RowOf(SmartosPackage(16.0)) == DocumentedRows[11] && RowOf(KvmPackage(16.0)) == DocumentedRows[10]
  {
    hide SmartosPackage, KvmPackage, SmartosName, KvmName, PyStr, DisplayNumber, NatStr, Trunc;
    RamSizesValid();
    assert RamSizesGb[5] == 16.0;
    RowsClosedForm(16.0);
    SmartosCpuCap(16.0);
    KvmCopiesSmartos(16.0);
    WordsSixteen();
    assert SmartosPackage(16.0).cpuCap == 200.0;
    assert KvmPackage(16.0).vcpu == Some(2);
  }

  /**
   * The base record is the generator's own 16 GB "-smartos" record, apart
   * from two keys: the generated name writes the size as str(16.0), so it
   * reads "16.0" where the base's reads "16", and the base has no fss.
   * Scaling by a factor of 1 reproduces every other field of the literal.
   */
  lemma TopIsSixteen()
    ensures ValidSize(16.0)
    ensures Top.name == "sample-16-smartos" && Top.fss == None
    ensures SmartosPackage(16.0) == Top.(name := "sample-16.0-smartos", fss := Some(200.0))
  {
    hide SmartosPackage, KvmPackage, SmartosName, KvmName, PyStr, DisplayNumber, NatStr, Trunc;
    RowsSixteen();
    SmartosKeepsBase(16.0);
    var p := SmartosPackage(16.0);
    assert RowOf(p) == DocumentedRows[11];
    assert p.description == Top.description;
    assert p.cpuCap == Top.cpuCap && p.fss == Some(200.0);
    assert p.maxPhysicalMemory == Top.maxPhysicalMemory && p.maxSwap == Top.maxSwap && p.quota == Top.quota;
  }

  /** The two records for the i-th size are the docstring's rows 2i + 1 and 2i. */
  lemma SizeRows(i: nat)
    requires i < |RamSizesGb|
    ensures (RamSizesValid(); RowOf(SmartosPackage(RamSizesGb[i])) == DocumentedRows[2 * i + 1])
    ensures (RamSizesValid(); RowOf(KvmPackage(RamSizesGb[i])) == DocumentedRows[2 * i])
  {
    RamSizesValid();
    hide SmartosPackage, KvmPackage;
    if i == 0 {
      RowsQuarter();
    } else if i == 1 {
      RowsHalf();
    } else if i == 2 {
      RowsOne();
    } else if i == 3 {
      RowsFour();
    } else if i == 4 {
      RowsEight();
    } else {
      RowsSixteen();
    }
  }

  /**
   * The fixed size list gives twelve records whose selected columns are exactly
   * the docstring's table, once each pair is put in the table's name order.
   */
  lemma SampleRunMatchesDocs()
    ensures (RamSizesValid(); |Table(RamSizesGb)| == |DocumentedRows|)
    ensures (RamSizesValid(); forall i :: 0 <= i < |RamSizesGb| ==>
      RowOf(Table(RamSizesGb)[2 * i]) == DocumentedRows[2 * i + 1]
      && RowOf(Table(RamSizesGb)[2 * i + 1]) == DocumentedRows[2 * i])
  {
    RamSizesValid();
    forall i | 0 <= i < |RamSizesGb|
      ensures RowOf(Table(RamSizesGb)[2 * i]) == DocumentedRows[2 * i + 1]
        && RowOf(Table(RamSizesGb)[2 * i + 1]) == DocumentedRows[2 * i]
    {
      TableAt(RamSizesGb, i);
      SizeRows(i);
    }
  }

  /** The script's twelve records have twelve different names. */
  lemma SampleNamesDistinct()
    ensures (RamSizesValid(); |Table(RamSizesGb)| == 12)
    ensures (RamSizesValid(); forall i, j :: 0 <= i < j < |Table(RamSizesGb)| ==> Table(RamSizesGb)[i].name != Table(RamSizesGb)[j].name)
  {
    RamSizesValid();
    assert forall a, b :: 0 <= a < b < |RamSizesGb| ==> RamSizesGb[a] < RamSizesGb[b];
    TableNamesDistinct(RamSizesGb);
  }
}
