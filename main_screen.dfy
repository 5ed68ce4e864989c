/**
 * The two pieces of `MainScreen.kt` that are logic rather than layout:
 * its own copy of `formatBytes`, and the plain-text report that
 * `shareDeviceInfo` builds with `buildString` before handing it to the
 * share sheet.
 */
module Report {
  import opened KotlinRuntime
  import opened DeviceInfoModel
  import ViewModel

  // ---------------------------------------------------------------------
  // `formatBytes`, the screen's copy.

  /**
   * `"%.2f"` of a non-negative quotient, as half-up of the exact quotient to
   * hundredths with '.' as the separator; this is what `%.2f` prints for
   * these figures below 2^49 bytes.
   */
  function Format2(x: real): string
    requires x >= 0.0
  {
    var hundredths := (x * 100.0 + 0.5).Floor;
    assert hundredths >= 0;
    Fixed2(hundredths)
  }

  /**
   * `formatBytes` as the screen writes it: the count divided by 1024 once
   * (`kb`), twice (`mb`) and three times (`gb`), and the first quotient,
   * largest unit first, that is at least 1 printed with two decimals.
   */
  function FormatBytes(bytes: Int64): string
  {
    FormatQuotient(bytes, 3)
  }

  /**
   * The `when` from unit `k` down: unit `k` if its quotient reaches 1,
   * else the next smaller unit, and the bare count below 1 KB.
   */
  function FormatQuotient(bytes: Int64, k: nat): string
  {
    if k == 0 then IntToString(bytes) + " B"
    else if Quotient(bytes, k) >= 1.0 then Format2(Quotient(bytes, k)) + ViewModel.UnitName(k)
    else FormatQuotient(bytes, k - 1)
  }

  /**
   * The count divided by 1024 `k` times in a row.  The quotients are the
   * exact ones; dividing by 1024 loses nothing in binary.
   */
  function Quotient(bytes: Int64, k: nat): real
  {
    if k == 0 then bytes as real else Quotient(bytes, k - 1) / 1024.0
  }

  // Small facts of real arithmetic the rounding argument is made of.

  lemma MulCancel(a: real, b: real, d: real)
    requires d > 0.0 && a * d <= b * d
    ensures a <= b
  {
  }

  lemma MulCancelStrict(a: real, b: real, d: real)
    requires d > 0.0 && a * d < b * d
    ensures a < b
  {
  }

  lemma DivMul(n: real, d: real)
    requires d != 0.0
    ensures (n / d) * d == n
  {
  }

  lemma IntMulReal(a: int, b: int)
    ensures (a * b) as real == a as real * b as real
  {
  }

  lemma Reassociate(q: int, d: int)
    ensures 2 * q * d == q * (2 * d) && 2 * q * d + 2 * d == (q + 1) * (2 * d)
  {
  }

  /** Integer bounds `q·m <= a < (q+1)·m`, read as reals. */
  lemma BoundsAsReal(q: int, a: int, m: int)
    requires q * m <= a < (q + 1) * m
    ensures q as real * m as real <= a as real < (q + 1) as real * m as real
  {
    IntMulReal(q, m);
    IntMulReal(q + 1, m);
  }

  /** `q·m <= a < (q+1)·m` puts `a / m` between `q` and `q + 1`. */
  lemma BetweenByDivision(a: real, m: real, q: real)
    requires m > 0.0 && q * m <= a < (q + 1.0) * m
    ensures q <= a / m < q + 1.0
  {
    DivMul(a, m);
    MulCancel(q, a / m, m);
    MulCancelStrict(a / m, q + 1.0, m);
  }

  /** `n/d + 1/2 = (2n + d) / 2d`. */
  lemma HalfShift(n: real, d: real)
    requires d > 0.0
    ensures n / d + 0.5 == (2.0 * n + d) / (2.0 * d)
  {
    DivMul(n, d);
    DivMul(2.0 * n + d, 2.0 * d);
    var x, z := n / d + 0.5, (2.0 * n + d) / (2.0 * d);
    assert x * (2.0 * d) == 2.0 * n + d;
    MulCancel(x, z, 2.0 * d);
    MulCancel(z, x, 2.0 * d);
  }

  lemma FloorBetween(y: real, q: int)
    requires q as real <= y < q as real + 1.0
    ensures y.Floor == q
  {
  }

  /**
   * Rounding the exact quotient `n / d` half-up (`floor(n / d + 1/2)`) is
   * the integer rounding the view model uses.
   */
  lemma FloorOfHalfUp(n: nat, d: nat)
    requires d > 0
    ensures (n as real / d as real + 0.5).Floor == RoundHalfUp(n, d)
  {
    var q := RoundHalfUp(n, d);
    Reassociate(q, d);
    BoundsAsReal(q, 2 * n + d, 2 * d);
    assert (q + 1) as real == q as real + 1.0;
    BetweenByDivision((2 * n + d) as real, (2 * d) as real, q as real);
    HalfShift(n as real, d as real);
    FloorBetween(n as real / d as real + 0.5, q);
  }

  /** `"%.2f"` of the exact quotient is the view model's two-decimal figure. */
  lemma Format2OfQuotient(bytes: nat, unit: nat)
    requires unit > 0
    ensures Format2(bytes as real / unit as real) == ViewModel.Scaled(bytes, unit)
  {
    var x := bytes as real / unit as real;
    ScaleQuotient(bytes as real, unit as real, 100.0);
    assert (bytes * 100) as real == bytes as real * 100.0;
    assert x * 100.0 == (bytes * 100) as real / unit as real;
    FloorOfHalfUp(bytes * 100, unit);
    assert (x * 100.0 + 0.5).Floor == RoundHalfUp(bytes * 100, unit);
  }

  /** `(n/d)·k = (n·k)/d`. */
  lemma ScaleQuotient(n: real, d: real, k: real)
    requires d > 0.0
    ensures (n / d) * k == (n * k) / d
  {
    var x, z := (n / d) * k, (n * k) / d;
    DivMul(n, d);
    DivMul(n * k, d);
    assert x * d == n * k;
    MulCancel(x, z, d);
    MulCancel(z, x, d);
  }

  /** The screen's chained divisions are the quotients by 1024, 1024² and 1024³. */
  lemma ScreenQuotients(bytes: Int64)
    ensures Quotient(bytes, 1) == bytes as real / ViewModel.KIB as real
    ensures Quotient(bytes, 2) == bytes as real / ViewModel.MIB as real
    ensures Quotient(bytes, 3) == bytes as real / ViewModel.GIB as real
    ensures Quotient(bytes, 1) >= 1.0 <==> bytes >= ViewModel.KIB
    ensures Quotient(bytes, 2) >= 1.0 <==> bytes >= ViewModel.MIB
    ensures Quotient(bytes, 3) >= 1.0 <==> bytes >= ViewModel.GIB
  {
    assert Quotient(bytes, 1) == bytes as real / 1024.0;
    assert Quotient(bytes, 2) == Quotient(bytes, 1) / 1024.0;
    assert Quotient(bytes, 3) == Quotient(bytes, 2) / 1024.0;
  }

  // The screen's `formatBytes`, case by case: the unit the count reaches
  // and the figure printed.

  lemma GigabyteCase(bytes: Int64)
    requires bytes >= ViewModel.GIB
    ensures FormatBytes(bytes) == Format2(bytes as real / ViewModel.GIB as real) + " GB"
  {
    ScreenQuotients(bytes);
  }

  lemma MegabyteCase(bytes: Int64)
    requires ViewModel.MIB <= bytes < ViewModel.GIB
    ensures FormatBytes(bytes) == Format2(bytes as real / ViewModel.MIB as real) + " MB"
  {
    ScreenQuotients(bytes);
    assert FormatQuotient(bytes, 3) == FormatQuotient(bytes, 2);
  }

  lemma KilobyteCase(bytes: Int64)
    requires ViewModel.KIB <= bytes < ViewModel.MIB
    ensures FormatBytes(bytes) == Format2(bytes as real / ViewModel.KIB as real) + " KB"
  {
    ScreenQuotients(bytes);
    assert FormatQuotient(bytes, 3) == FormatQuotient(bytes, 2) == FormatQuotient(bytes, 1);
  }

  lemma ByteCase(bytes: Int64)
    requires bytes < ViewModel.KIB
    ensures FormatBytes(bytes) == IntToString(bytes) + " B"
  {
    ScreenQuotients(bytes);
    assert FormatQuotient(bytes, 3) == FormatQuotient(bytes, 2) == FormatQuotient(bytes, 1) == FormatQuotient(bytes, 0);
  }

  /**
   * The screen's `formatBytes` and the view model's print every count
   * alike: the same unit thresholds, the same rounding, the same text.
   */
  lemma FormatBytesAgrees(bytes: Int64)
    ensures FormatBytes(bytes) == ViewModel.FormatBytes(bytes)
  {
    ViewModel.FormatBytesByUnit(bytes);
    if bytes >= ViewModel.GIB {
      GigabyteCase(bytes);
      Format2OfQuotient(bytes, ViewModel.GIB);
    } else if bytes >= ViewModel.MIB {
      MegabyteCase(bytes);
      Format2OfQuotient(bytes, ViewModel.MIB);
    } else if bytes >= ViewModel.KIB {
      KilobyteCase(bytes);
      Format2OfQuotient(bytes, ViewModel.KIB);
    } else {
      ByteCase(bytes);
    }
  }

  // ---------------------------------------------------------------------
  // The report's lines.

  /**
   * The headings, as the code points the file stores: emoji whose UTF-8
   * bytes were decoded one byte per character at some point, then saved.
   */
  const REPORT_TITLE: string := "\U{011F}\U{0178}\U{201C}\U{00B1} Device Information Report"
  const OVERVIEW_HEADING: string := "\U{011F}\U{0178}\U{201D}\U{00A7} Device Overview:"
  const OS_HEADING: string := "\U{011F}\U{0178}\U{201C}\U{00B1} OS Information:"
  const HARDWARE_HEADING: string := "\U{00E2}\U{0161}\U{2122}\U{00EF}\U{00B8} Hardware:"
  const MEMORY_HEADING: string := "\U{011F}\U{0178}\U{2019}\U{00BE} Memory:"
  const BATTERY_HEADING: string := "\U{011F}\U{0178}\U{201D}\U{2039} Battery:"
  const DISPLAY_HEADING: string := "\U{011F}\U{0178}\U{201C}\U{00BA} Display:"
  const NETWORK_HEADING: string := "\U{011F}\U{0178}\U{0152} Network:"
  const SYSTEM_HEADING: string := "\U{011F}\U{0178}\U{201C}\U{0160} System:"

  /** The section headings in the order the report writes them. */
  const HEADINGS: seq<string> := [
    OVERVIEW_HEADING, OS_HEADING, HARDWARE_HEADING, MEMORY_HEADING,
    BATTERY_HEADING, DISPLAY_HEADING, NETWORK_HEADING, SYSTEM_HEADING]

  /** The temperature unit as stored in the file: a stray U+00C2 before the degree sign. */
  const DEGREES_C: string := "\U{00C2}\U{00B0}C"

  function HeaderLines(): seq<string>
  {
    [REPORT_TITLE, "Generated by DeviceInsight", Repeat('=', 40), ""]
  }

  function OverviewLines(o: DeviceOverview): seq<string>
  {
    [OVERVIEW_HEADING, "Manufacturer: " + o.manufacturer, "Model: " + o.model, "Brand: " + o.brand, ""]
  }

  function OSLines(os: OSInfo): seq<string>
  {
    [OS_HEADING, "Android Version: " + os.androidVersion, "API Level: " + IntToString(os.apiLevel),
     "Security Patch: " + os.securityPatch, ""]
  }

  function HardwareLines(h: HardwareInfo): seq<string>
  {
    [HARDWARE_HEADING, "CPU Architecture: " + h.cpuArchitecture, "CPU Cores: " + IntToString(h.cpuCores),
     "CPU Frequency: " + h.cpuFrequency, ""]
  }

  function MemoryLines(m: MemoryInfo): seq<string>
  {
    [MEMORY_HEADING, "Total RAM: " + FormatBytes(m.totalRam), "Available RAM: " + FormatBytes(m.availableRam), ""]
  }

  function BatteryLines(b: BatteryInfo): seq<string>
  {
    [BATTERY_HEADING, "Level: " + IntToString(b.level) + "%", "Status: " + b.status,
     "Temperature: " + b.temperature.text + DEGREES_C, ""]
  }

  function DisplayLines(d: DisplayInfo): seq<string>
  {
    [DISPLAY_HEADING, "Resolution: " + d.screenResolution, "Density: " + IntToString(d.screenDensity) + " dpi",
     "Refresh Rate: " + d.refreshRate.text + " Hz", ""]
  }

  /** `value?.let { appendLine("$caption$it") }`. */
  function OptionalLine(caption: string, value: Option<string>): seq<string>
  {
    if value.Some? then [caption + value.value] else []
  }

  /** The lines written only while WiFi is connected. */
  function WifiLines(n: NetworkInfo): seq<string>
  {
    if n.wifiConnected then OptionalLine("WiFi SSID: ", n.wifiSSID) + OptionalLine("IP Address: ", n.ipAddress)
    else []
  }

  function NetworkLines(n: NetworkInfo): seq<string>
  {
    [NETWORK_HEADING, "Network Type: " + n.networkType] + WifiLines(n) + [""]
  }

  function SystemLines(s: SystemInfo): seq<string>
  {
    [SYSTEM_HEADING, "Uptime: " + s.uptime, "Timezone: " + s.timezone, ""]
  }

  /**
   * The report, line by line.  `generatedOn` is the date text
   * `SimpleDateFormat` produces for the moment of sharing.
   */
  function ReportLines(d: DeviceInfo, generatedOn: string): seq<string>
  {
    HeaderLines() + OverviewLines(d.deviceOverview) + OSLines(d.osInfo) + HardwareLines(d.hardwareInfo)
    + MemoryLines(d.memoryInfo) + BatteryLines(d.batteryInfo) + DisplayLines(d.displayInfo)
    + NetworkLines(d.networkInfo) + SystemLines(d.systemInfo) + ["Generated on: " + generatedOn]
  }

  /** What a run of `appendLine` calls leaves in the builder: each line followed by "\n". */
  function Unlines(lines: seq<string>): string
  {
    if lines == [] then ""
    else Unlines(lines[..|lines| - 1]) + lines[|lines| - 1] + "\n"
  }

  lemma {:induction false} UnlinesAppend(a: seq<string>, b: seq<string>)
    ensures Unlines(a + b) == Unlines(a) + Unlines(b)
    decreases |b|
  {
    if b == [] {
      assert a + b == a;
    } else {
      var b' := b[..|b| - 1];
      assert (a + b)[..|a + b| - 1] == a + b';
      UnlinesAppend(a, b');
    }
  }

  // ---------------------------------------------------------------------
  // What the report says.

  /** The section headings among some lines, in their order. */
  function Headings(lines: seq<string>): seq<string>
  {
    if lines == [] then []
    else (if lines[0] in HEADINGS then [lines[0]] else []) + Headings(lines[1..])
  }

  lemma {:induction false} HeadingsAppend(a: seq<string>, b: seq<string>)
    ensures Headings(a + b) == Headings(a) + Headings(b)
  {
    if a == [] {
      assert a + b == b;
    } else {
      assert (a + b)[0] == a[0] && (a + b)[1..] == a[1..] + b;
      HeadingsAppend(a[1..], b);
    }
  }

  /** A line that starts with an ASCII character. */
  predicate Plain(line: string)
  {
    line == [] || line[0] < '\U{0080}'
  }

  /** Every heading starts with a character outside ASCII, so a plain line is none of them. */
  lemma PlainIsNoHeading(line: string)
    requires Plain(line)
    ensures line !in HEADINGS
  {
  }

  lemma {:induction false} PlainLinesHaveNoHeadings(lines: seq<string>)
    requires forall i :: 0 <= i < |lines| ==> Plain(lines[i])
    ensures Headings(lines) == []
  {
    if lines != [] {
      PlainIsNoHeading(lines[0]);
      PlainLinesHaveNoHeadings(lines[1..]);
    }
  }

  /** A block that opens with a heading and continues with plain lines contributes that heading alone. */
  lemma BlockHeadings(block: seq<string>)
    requires |block| > 0 && block[0] in HEADINGS
    requires forall i :: 1 <= i < |block| ==> Plain(block[i])
    ensures Headings(block) == [block[0]]
  {
    PlainLinesHaveNoHeadings(block[1..]);
  }

  // Each block of the report contributes its own heading and no other.

  lemma OverviewHeadings(o: DeviceOverview)
    ensures Headings(OverviewLines(o)) == [OVERVIEW_HEADING]
  {
    BlockHeadings(OverviewLines(o));
  }

  lemma OSHeadings(os: OSInfo)
    ensures Headings(OSLines(os)) == [OS_HEADING]
  {
    BlockHeadings(OSLines(os));
  }

  lemma HardwareHeadings(h: HardwareInfo)
    ensures Headings(HardwareLines(h)) == [HARDWARE_HEADING]
  {
    BlockHeadings(HardwareLines(h));
  }

  lemma MemoryHeadings(m: MemoryInfo)
    ensures Headings(MemoryLines(m)) == [MEMORY_HEADING]
  {
    BlockHeadings(MemoryLines(m));
  }

  lemma BatteryHeadings(b: BatteryInfo)
    ensures Headings(BatteryLines(b)) == [BATTERY_HEADING]
  {
    BlockHeadings(BatteryLines(b));
  }

  lemma DisplayHeadings(disp: DisplayInfo)
    ensures Headings(DisplayLines(disp)) == [DISPLAY_HEADING]
  {
    BlockHeadings(DisplayLines(disp));
  }

  lemma NetworkHeadings(n: NetworkInfo)
    ensures Headings(NetworkLines(n)) == [NETWORK_HEADING]
  {
    BlockHeadings(NetworkLines(n));
  }

  lemma SystemHeadings(s: SystemInfo)
    ensures Headings(SystemLines(s)) == [SYSTEM_HEADING]
  {
    BlockHeadings(SystemLines(s));
  }

  /** Appending three blocks to a prefix appends their headings. */
  lemma HeadingsOfThree(p: seq<string>, x: seq<string>, y: seq<string>, z: seq<string>)
    ensures Headings(p + x + y + z) == Headings(p) + Headings(x) + Headings(y) + Headings(z)
  {
    HeadingsAppend(p, x);
    HeadingsAppend(p + x, y);
    HeadingsAppend(p + x + y, z);
  }

  /** Ten blocks joined: their headings, joined. */
  lemma HeadingsOfBlocks(h: seq<string>, o: seq<string>, os: seq<string>, hw: seq<string>, m: seq<string>,
                         b: seq<string>, disp: seq<string>, n: seq<string>, sys: seq<string>, last: seq<string>)
    ensures Headings(h + o + os + hw + m + b + disp + n + sys + last) ==
              Headings(h) + Headings(o) + Headings(os) + Headings(hw) + Headings(m)
              + Headings(b) + Headings(disp) + Headings(n) + Headings(sys) + Headings(last)
  {
    HeadingsOfThree(h, o, os, hw);
    HeadingsOfThree(h + o + os + hw, m, b, disp);
    HeadingsOfThree(h + o + os + hw + m + b + disp, n, sys, last);
  }

  /** The title lines and the closing date line hold no heading. */
  lemma FrameHeadings(generatedOn: string)
    ensures Headings(HeaderLines()) == []
    ensures Headings(["Generated on: " + generatedOn]) == []
  {
    var h := HeaderLines();
    assert h[0] !in HEADINGS by { assert |h[0]| == 30; }
    assert h[1..] == ["Generated by DeviceInsight", Repeat('=', 40), ""];
    PlainLinesHaveNoHeadings(h[1..]);
    PlainLinesHaveNoHeadings(["Generated on: " + generatedOn]);
  }

  /**
   * The report's section headings are, in this order, Overview, OS,
   * Hardware, Memory, Battery, Display, Network and System, each once;
   * there are none for sensors or cameras.
   */
  lemma ReportHeadings(d: DeviceInfo, generatedOn: string)
    ensures Headings(ReportLines(d, generatedOn)) == HEADINGS
  {
    var h := HeaderLines();
    var o := OverviewLines(d.deviceOverview);
    var os := OSLines(d.osInfo);
    var hw := HardwareLines(d.hardwareInfo);
    var m := MemoryLines(d.memoryInfo);
    var b := BatteryLines(d.batteryInfo);
    var disp := DisplayLines(d.displayInfo);
    var n := NetworkLines(d.networkInfo);
    var sys := SystemLines(d.systemInfo);
    var last := ["Generated on: " + generatedOn];
    OverviewHeadings(d.deviceOverview);
    OSHeadings(d.osInfo);
    HardwareHeadings(d.hardwareInfo);
    MemoryHeadings(d.memoryInfo);
    BatteryHeadings(d.batteryInfo);
    DisplayHeadings(d.displayInfo);
    NetworkHeadings(d.networkInfo);
    SystemHeadings(d.systemInfo);
    FrameHeadings(generatedOn);
    HeadingsOfBlocks(h, o, os, hw, m, b, disp, n, sys, last);
    HeadingsInOrder(Headings(h), Headings(o), Headings(os), Headings(hw), Headings(m),
                    Headings(b), Headings(disp), Headings(n), Headings(sys), Headings(last));
  }

  /** Each block's headings, joined, are the eight headings in order. */
  lemma HeadingsInOrder(hh: seq<string>, ho: seq<string>, hos: seq<string>, hhw: seq<string>, hm: seq<string>,
                        hb: seq<string>, hd: seq<string>, hn: seq<string>, hs: seq<string>, hl: seq<string>)
    requires hh == [] && hl == []
    requires ho == [OVERVIEW_HEADING] && hos == [OS_HEADING] && hhw == [HARDWARE_HEADING] && hm == [MEMORY_HEADING]
    requires hb == [BATTERY_HEADING] && hd == [DISPLAY_HEADING] && hn == [NETWORK_HEADING] && hs == [SYSTEM_HEADING]
    ensures hh + ho + hos + hhw + hm + hb + hd + hn + hs + hl == HEADINGS
  {
  }

  /** The report opens with its title, the byline and a rule of forty '=' before an empty line. */
  lemma ReportOpening(d: DeviceInfo, generatedOn: string)
    ensures |ReportLines(d, generatedOn)| >= 4
    ensures ReportLines(d, generatedOn)[..4] == [REPORT_TITLE, "Generated by DeviceInsight", Repeat('=', 40), ""]
    ensures |Repeat('=', 40)| == 40 && forall i :: 0 <= i < 40 ==> Repeat('=', 40)[i] == '='
  {
    HeaderThenRest(d, generatedOn);
  }

  /** The report is the four header lines followed by the rest. */
  lemma HeaderThenRest(d: DeviceInfo, generatedOn: string)
    ensures |ReportLines(d, generatedOn)| >= 4
    ensures ReportLines(d, generatedOn)[..4] == HeaderLines()
    ensures ReportLines(d, generatedOn) == HeaderLines() + ReportLines(d, generatedOn)[4..]
  {
    SplitAfterFirst(HeaderLines(), OverviewLines(d.deviceOverview), OSLines(d.osInfo), HardwareLines(d.hardwareInfo),
                    MemoryLines(d.memoryInfo), BatteryLines(d.batteryInfo), DisplayLines(d.displayInfo),
                    NetworkLines(d.networkInfo), SystemLines(d.systemInfo), ["Generated on: " + generatedOn]);
  }

  /** A concatenation of ten blocks starts with its first block. */
  lemma SplitAfterFirst(h: seq<string>, o: seq<string>, os: seq<string>, hw: seq<string>, m: seq<string>,
                        b: seq<string>, disp: seq<string>, n: seq<string>, sys: seq<string>, last: seq<string>)
    ensures |h + o + os + hw + m + b + disp + n + sys + last| >= |h|
    ensures (h + o + os + hw + m + b + disp + n + sys + last)[..|h|] == h
    ensures h + o + os + hw + m + b + disp + n + sys + last == h + (h + o + os + hw + m + b + disp + n + sys + last)[|h|..]
  {
    var all := h + o + os + hw + m + b + disp + n + sys + last;
    assert all == h + (o + os + hw + m + b + disp + n + sys + last);
  }

  /** The four opening lines as text, each ended by a newline. */
  lemma HeaderText()
    ensures Unlines(HeaderLines()) == REPORT_TITLE + "\n" + "Generated by DeviceInsight\n" + Repeat('=', 40) + "\n\n"
  {
    var h := HeaderLines();
    assert h[..3][..2][..1] == [REPORT_TITLE];
    assert Unlines([REPORT_TITLE]) == REPORT_TITLE + "\n";
  }

  /** As text, the report starts with those four lines. */
  lemma ShareTextOpening(d: DeviceInfo, generatedOn: string)
    ensures |ReportLines(d, generatedOn)| >= 4
    ensures Unlines(ReportLines(d, generatedOn)) ==
              REPORT_TITLE + "\n" + "Generated by DeviceInsight\n" + Repeat('=', 40) + "\n\n"
              + Unlines(ReportLines(d, generatedOn)[4..])
  {
    HeaderThenRest(d, generatedOn);
    UnlinesAppend(HeaderLines(), ReportLines(d, generatedOn)[4..]);
    HeaderText();
  }

  /** Forty-one lines are always there; the WiFi block adds at most two, and none while WiFi is off. */
  lemma ReportLength(d: DeviceInfo, generatedOn: string)
    ensures |ReportLines(d, generatedOn)| == 41 + |WifiLines(d.networkInfo)|
    ensures |WifiLines(d.networkInfo)| <= 2
    ensures !d.networkInfo.wifiConnected ==> |WifiLines(d.networkInfo)| == 0
    ensures d.networkInfo.wifiConnected && d.networkInfo.wifiSSID.Some? && d.networkInfo.ipAddress.Some? ==>
              |WifiLines(d.networkInfo)| == 2
  {
  }

  /** No line starts with 'W' or 'I', the first letters of the two WiFi captions. */
  predicate NoWifiCaption(lines: seq<string>)
  {
    forall i :: 0 <= i < |lines| ==> lines[i] == [] || (lines[i][0] != 'W' && lines[i][0] != 'I')
  }

  lemma NoWifiCaptionAppend(a: seq<string>, b: seq<string>)
    requires NoWifiCaption(a) && NoWifiCaption(b)
    ensures NoWifiCaption(a + b)
  {
    forall i | 0 <= i < |a + b|
      ensures (a + b)[i] == [] || ((a + b)[i][0] != 'W' && (a + b)[i][0] != 'I')
    {
      if i >= |a| {
        assert (a + b)[i] == b[i - |a|];
      }
    }
  }

  /** The lines before the WiFi lines: everything up to the network type. */
  function LinesBeforeWifi(d: DeviceInfo): seq<string>
  {
    HeaderLines() + OverviewLines(d.deviceOverview) + OSLines(d.osInfo) + HardwareLines(d.hardwareInfo)
    + MemoryLines(d.memoryInfo) + BatteryLines(d.batteryInfo) + DisplayLines(d.displayInfo)
    + [NETWORK_HEADING, "Network Type: " + d.networkInfo.networkType]
  }

  /** The lines after the WiFi lines: the empty line closing the network block, the system block and the date. */
  function LinesAfterWifi(d: DeviceInfo, generatedOn: string): seq<string>
  {
    [""] + SystemLines(d.systemInfo) + ["Generated on: " + generatedOn]
  }

  lemma ReportAroundWifi(d: DeviceInfo, generatedOn: string)
    ensures ReportLines(d, generatedOn) == LinesBeforeWifi(d) + WifiLines(d.networkInfo) + LinesAfterWifi(d, generatedOn)
  {
    var p := HeaderLines() + OverviewLines(d.deviceOverview) + OSLines(d.osInfo) + HardwareLines(d.hardwareInfo)
             + MemoryLines(d.memoryInfo) + BatteryLines(d.batteryInfo) + DisplayLines(d.displayInfo);
    var net := [NETWORK_HEADING, "Network Type: " + d.networkInfo.networkType];
    Regroup(p, net, WifiLines(d.networkInfo), SystemLines(d.systemInfo), ["Generated on: " + generatedOn]);
  }

  /** Moving the brackets of a concatenation changes nothing. */
  lemma Regroup(p: seq<string>, net: seq<string>, w: seq<string>, sys: seq<string>, last: seq<string>)
    ensures p + (net + w + [""]) + sys + last == (p + net) + w + ([""] + sys + last)
  {
  }

  /** Eight blocks, none with a line starting with a WiFi caption letter, joined. */
  lemma NoWifiCaptionOfBlocks(h: seq<string>, o: seq<string>, os: seq<string>, hw: seq<string>,
                              m: seq<string>, b: seq<string>, disp: seq<string>, net: seq<string>)
    requires NoWifiCaption(h) && NoWifiCaption(o) && NoWifiCaption(os) && NoWifiCaption(hw)
    requires NoWifiCaption(m) && NoWifiCaption(b) && NoWifiCaption(disp) && NoWifiCaption(net)
    ensures NoWifiCaption(h + o + os + hw + m + b + disp + net)
  {
    NoWifiCaptionAppend(h, o);
    NoWifiCaptionAppend(h + o, os);
    NoWifiCaptionAppend(h + o + os, hw);
    NoWifiCaptionAppend(h + o + os + hw, m);
    NoWifiCaptionAppend(h + o + os + hw + m, b);
    NoWifiCaptionAppend(h + o + os + hw + m + b, disp);
    NoWifiCaptionAppend(h + o + os + hw + m + b + disp, net);
  }

  lemma BeforeWifiHasNoCaption(d: DeviceInfo)
    ensures NoWifiCaption(LinesBeforeWifi(d))
  {
    var net := [NETWORK_HEADING, "Network Type: " + d.networkInfo.networkType];
    HeaderHasNoCaption();
    OverviewHasNoCaption(d.deviceOverview);
    OSHasNoCaption(d.osInfo);
    HardwareHasNoCaption(d.hardwareInfo);
    MemoryHasNoCaption(d.memoryInfo);
    BatteryHasNoCaption(d.batteryInfo);
    DisplayHasNoCaption(d.displayInfo);
    assert NoWifiCaption(net);
    NoWifiCaptionOfBlocks(HeaderLines(), OverviewLines(d.deviceOverview), OSLines(d.osInfo),
                          HardwareLines(d.hardwareInfo), MemoryLines(d.memoryInfo), BatteryLines(d.batteryInfo),
                          DisplayLines(d.displayInfo), net);
  }

  lemma HeaderHasNoCaption() ensures NoWifiCaption(HeaderLines()) { }
  lemma OverviewHasNoCaption(o: DeviceOverview) ensures NoWifiCaption(OverviewLines(o)) { }
  lemma OSHasNoCaption(os: OSInfo) ensures NoWifiCaption(OSLines(os)) { }
  lemma HardwareHasNoCaption(h: HardwareInfo) ensures NoWifiCaption(HardwareLines(h)) { }
  lemma MemoryHasNoCaption(m: MemoryInfo) ensures NoWifiCaption(MemoryLines(m)) { }
  lemma BatteryHasNoCaption(b: BatteryInfo) ensures NoWifiCaption(BatteryLines(b)) { }
  lemma DisplayHasNoCaption(disp: DisplayInfo) ensures NoWifiCaption(DisplayLines(disp)) { }

  lemma AfterWifiHasNoCaption(d: DeviceInfo, generatedOn: string)
    ensures NoWifiCaption(LinesAfterWifi(d, generatedOn))
  {
  }

  /** A line that starts with 'W' or 'I' is in `a + w + b` only if it is in `w`. */
  lemma CaptionedLineAmong(line: string, a: seq<string>, w: seq<string>, b: seq<string>)
    requires NoWifiCaption(a) && NoWifiCaption(b)
    requires |line| > 0 && (line[0] == 'W' || line[0] == 'I')
    ensures line in a + w + b <==> line in w
  {
    if line in a + w + b {
      var i :| 0 <= i < |a + w + b| && (a + w + b)[i] == line;
      if |a| <= i < |a| + |w| {
        assert w[i - |a|] == line;
      }
    }
  }

  /** Prefixing a caption is injective. */
  lemma CaptionCancel(caption: string, x: string, y: string)
    ensures caption + x == caption + y <==> x == y
  {
    if caption + x == caption + y {
      assert (caption + x)[|caption|..] == x;
      assert (caption + y)[|caption|..] == y;
    }
  }

  lemma WifiLinesContents(n: NetworkInfo, x: string)
    ensures ("WiFi SSID: " + x) in WifiLines(n) <==> n.wifiConnected && n.wifiSSID == Some(x)
    ensures ("IP Address: " + x) in WifiLines(n) <==> n.wifiConnected && n.ipAddress == Some(x)
  {
    if n.wifiConnected {
      var ssid := OptionalLine("WiFi SSID: ", n.wifiSSID);
      var ip := OptionalLine("IP Address: ", n.ipAddress);
      assert ("WiFi SSID: " + x)[0] == 'W' && ("IP Address: " + x)[0] == 'I';
      assert forall line :: line in ssid ==> line[0] == 'W';
      assert forall line :: line in ip ==> line[0] == 'I';
      if n.wifiSSID.Some? {
        CaptionCancel("WiFi SSID: ", x, n.wifiSSID.value);
      }
      if n.ipAddress.Some? {
        CaptionCancel("IP Address: ", x, n.ipAddress.value);
      }
    }
  }

  /**
   * The report names SSID `x` exactly when WiFi is connected and the SSID
   * is `x`, and likewise for the IP address; a missing value leaves its
   * line out altogether.
   */
  lemma ReportWifiLines(d: DeviceInfo, generatedOn: string, x: string)
    ensures ("WiFi SSID: " + x) in ReportLines(d, generatedOn) <==>
              d.networkInfo.wifiConnected && d.networkInfo.wifiSSID == Some(x)
    ensures ("IP Address: " + x) in ReportLines(d, generatedOn) <==>
              d.networkInfo.wifiConnected && d.networkInfo.ipAddress == Some(x)
  {
    ReportAroundWifi(d, generatedOn);
    BeforeWifiHasNoCaption(d);
    AfterWifiHasNoCaption(d, generatedOn);
    var a := LinesBeforeWifi(d);
    var w := WifiLines(d.networkInfo);
    var b := LinesAfterWifi(d, generatedOn);
    CaptionedLineAmong("WiFi SSID: " + x, a, w, b);
    CaptionedLineAmong("IP Address: " + x, a, w, b);
    WifiLinesContents(d.networkInfo, x);
  }

  /** The memory block formats both RAM figures exactly as the view model's `formatBytes` does. */
  lemma ReportRamLines(d: DeviceInfo, generatedOn: string)
    ensures |ReportLines(d, generatedOn)| > 21
    ensures ReportLines(d, generatedOn)[19] == MEMORY_HEADING
    ensures ReportLines(d, generatedOn)[20] == "Total RAM: " + ViewModel.FormatBytes(d.memoryInfo.totalRam)
    ensures ReportLines(d, generatedOn)[21] == "Available RAM: " + ViewModel.FormatBytes(d.memoryInfo.availableRam)
  {
    var m := d.memoryInfo;
    var p := HeaderLines() + OverviewLines(d.deviceOverview) + OSLines(d.osInfo) + HardwareLines(d.hardwareInfo);
    var rest := ReportLines(d, generatedOn)[19 + |MemoryLines(m)|..];
    assert |p| == 19;
    assert ReportLines(d, generatedOn) == p + MemoryLines(m) + rest;
    FormatBytesAgrees(m.totalRam);
    FormatBytesAgrees(m.availableRam);
  }

  /** Sensor and camera data never reach the report. */
  lemma ReportIgnoresSensorsAndCameras(d: DeviceInfo, generatedOn: string, s: SensorInfo, c: CameraInfo)
    ensures ReportLines(d.(sensorInfo := s, cameraInfo := c), generatedOn) == ReportLines(d, generatedOn)
  {
  }

  // ---------------------------------------------------------------------
  // `buildString`.

  /** The `StringBuilder` that `buildString` hands to its block. */
  class LineBuilder {
    var text: string
    ghost var lines: seq<string>

    ghost predicate Valid()
      reads this
    {
      text == Unlines(lines)
    }

    constructor ()
      ensures text == "" && lines == [] && Valid()
    {
      text := "";
      lines := [];
    }

    /** `appendLine(line)`: the line and a newline go on the end. */
    method AppendLine(line: string)
      requires Valid()
      modifies this
      ensures text == old(text) + line + "\n"
      ensures lines == old(lines) + [line]
      ensures Valid()
    {
      assert (lines + [line])[..|lines|] == lines;
      text := text + line + "\n";
      lines := lines + [line];
    }
  }

  // One method per block of `appendLine` calls; each leaves the builder
  // holding what it held before followed by that block's lines.

  method AppendHeader(sb: LineBuilder)
    requires sb.Valid()
    modifies sb
    ensures sb.lines == old(sb.lines) + HeaderLines() && sb.Valid()
  {
    sb.AppendLine(REPORT_TITLE);
    sb.AppendLine("Generated by DeviceInsight");
    sb.AppendLine(Repeat('=', 40));
    sb.AppendLine("");
  }

  method AppendOverview(sb: LineBuilder, o: DeviceOverview)
    requires sb.Valid()
    modifies sb
    ensures sb.lines == old(sb.lines) + OverviewLines(o) && sb.Valid()
  {
    sb.AppendLine(OVERVIEW_HEADING);
    sb.AppendLine("Manufacturer: " + o.manufacturer);
    sb.AppendLine("Model: " + o.model);
    sb.AppendLine("Brand: " + o.brand);
    sb.AppendLine("");
  }

  method AppendOS(sb: LineBuilder, os: OSInfo)
    requires sb.Valid()
    modifies sb
    ensures sb.lines == old(sb.lines) + OSLines(os) && sb.Valid()
  {
    sb.AppendLine(OS_HEADING);
    sb.AppendLine("Android Version: " + os.androidVersion);
    sb.AppendLine("API Level: " + IntToString(os.apiLevel));
    sb.AppendLine("Security Patch: " + os.securityPatch);
    sb.AppendLine("");
  }

  method AppendHardware(sb: LineBuilder, h: HardwareInfo)
    requires sb.Valid()
    modifies sb
    ensures sb.lines == old(sb.lines) + HardwareLines(h) && sb.Valid()
  {
    sb.AppendLine(HARDWARE_HEADING);
    sb.AppendLine("CPU Architecture: " + h.cpuArchitecture);
    sb.AppendLine("CPU Cores: " + IntToString(h.cpuCores));
    sb.AppendLine("CPU Frequency: " + h.cpuFrequency);
    sb.AppendLine("");
  }

  method AppendMemory(sb: LineBuilder, m: MemoryInfo)
    requires sb.Valid()
    modifies sb
    ensures sb.lines == old(sb.lines) + MemoryLines(m) && sb.Valid()
  {
    sb.AppendLine(MEMORY_HEADING);
    sb.AppendLine("Total RAM: " + FormatBytes(m.totalRam));
    sb.AppendLine("Available RAM: " + FormatBytes(m.availableRam));
    sb.AppendLine("");
  }

  method AppendBattery(sb: LineBuilder, b: BatteryInfo)
    requires sb.Valid()
    modifies sb
    ensures sb.lines == old(sb.lines) + BatteryLines(b) && sb.Valid()
  {
    sb.AppendLine(BATTERY_HEADING);
    sb.AppendLine("Level: " + IntToString(b.level) + "%");
    sb.AppendLine("Status: " + b.status);
    sb.AppendLine("Temperature: " + b.temperature.text + DEGREES_C);
    sb.AppendLine("");
  }

  method AppendDisplay(sb: LineBuilder, disp: DisplayInfo)
    requires sb.Valid()
    modifies sb
    ensures sb.lines == old(sb.lines) + DisplayLines(disp) && sb.Valid()
  {
    sb.AppendLine(DISPLAY_HEADING);
    sb.AppendLine("Resolution: " + disp.screenResolution);
    sb.AppendLine("Density: " + IntToString(disp.screenDensity) + " dpi");
    sb.AppendLine("Refresh Rate: " + disp.refreshRate.text + " Hz");
    sb.AppendLine("");
  }

  method AppendNetwork(sb: LineBuilder, n: NetworkInfo)
    requires sb.Valid()
    modifies sb
    ensures sb.lines == old(sb.lines) + NetworkLines(n) && sb.Valid()
  {
    ghost var before := sb.lines;
    sb.AppendLine(NETWORK_HEADING);
    sb.AppendLine("Network Type: " + n.networkType);
    AppendWifi(sb, n);
    sb.AppendLine("");
    AppendRegroup(before, NETWORK_HEADING, "Network Type: " + n.networkType, WifiLines(n));
  }

  /** Two single lines, a block and a blank line, appended one after the other. */
  lemma AppendRegroup(before: seq<string>, x: string, y: string, w: seq<string>)
    ensures before + [x] + [y] + w + [""] == before + ([x, y] + w + [""])
  {
  }

  /** The `if (wifiConnected)` block: the SSID and the IP address, each when known. */
  method AppendWifi(sb: LineBuilder, n: NetworkInfo)
    requires sb.Valid()
    modifies sb
    ensures sb.lines == old(sb.lines) + WifiLines(n) && sb.Valid()
  {
    if n.wifiConnected {
      if n.wifiSSID.Some? {
        sb.AppendLine("WiFi SSID: " + n.wifiSSID.value);
      }
      ghost var afterSsid := sb.lines;
      if n.ipAddress.Some? {
        sb.AppendLine("IP Address: " + n.ipAddress.value);
      }
      assert sb.lines == afterSsid + OptionalLine("IP Address: ", n.ipAddress);
    }
  }

  method AppendSystem(sb: LineBuilder, s: SystemInfo)
    requires sb.Valid()
    modifies sb
    ensures sb.lines == old(sb.lines) + SystemLines(s) && sb.Valid()
  {
    sb.AppendLine(SYSTEM_HEADING);
    sb.AppendLine("Uptime: " + s.uptime);
    sb.AppendLine("Timezone: " + s.timezone);
    sb.AppendLine("");
  }

  /** `shareDeviceInfo`'s `buildString` block: the report, appended line by line. */
  method ShareText(d: DeviceInfo, generatedOn: string) returns (text: string)
    ensures text == Unlines(ReportLines(d, generatedOn))
  {
    var sb := new LineBuilder();
    AppendHeader(sb);
    assert sb.lines == HeaderLines();
    AppendOverview(sb, d.deviceOverview);
    AppendOS(sb, d.osInfo);
    AppendHardware(sb, d.hardwareInfo);
    AppendMemory(sb, d.memoryInfo);
    AppendBattery(sb, d.batteryInfo);
    AppendDisplay(sb, d.displayInfo);
    AppendNetwork(sb, d.networkInfo);
    AppendSystem(sb, d.systemInfo);
    sb.AppendLine("Generated on: " + generatedOn);
    text := sb.text;
  }
}
