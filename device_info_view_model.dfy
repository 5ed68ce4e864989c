/**
 * `DeviceInfoViewModel`: the screen's two pieces of state, `uiState` and
 * `sections`, the rule by which the use case's emissions update them, the
 * section toggle, and the pure builders that turn a snapshot into the ten
 * sections shown on screen.
 */
module ViewModel {
  import opened KotlinRuntime
  import opened DeviceInfoModel
  import opened UiModels
  import opened Collector
  import opened UseCase

  // ---------------------------------------------------------------------
  // `formatBytes`.

  const KIB: nat := 1024
  const MIB: nat := 1024 * 1024
  const GIB: nat := 1024 * 1024 * 1024

  /** Unit `k` of `formatBytes` (1 = KB, 2 = MB, 3 = GB): its size in bytes. */
  function UnitSize(k: nat): nat
  {
    if k <= 1 then KIB else if k == 2 then MIB else GIB
  }

  function UnitName(k: nat): string
  {
    if k <= 1 then " KB" else if k == 2 then " MB" else " GB"
  }

  /**
   * `formatBytes`: the largest of GB, MB and KB whose quotient is at least
   * 1, printed with two decimals (half-up, '.' separator); below 1 KB the
   * plain byte count.  Division by 1024 is exact in binary, so each
   * `>= 1` test is an exact integer comparison.
   */
  function FormatBytes(bytes: Int64): string
  {
    FormatFrom(bytes, 3)
  }

  /** The `when` of `formatBytes` from unit `k` down: the first unit the count reaches. */
  function FormatFrom(bytes: Int64, k: nat): string
  {
    if k == 0 then IntToString(bytes) + " B"
    else if bytes >= UnitSize(k) then Scaled(bytes, UnitSize(k)) + UnitName(k)
    else FormatFrom(bytes, k - 1)
  }

  /** `formatBytes`, case by case: the unit the count reaches and the figure printed. */
  lemma FormatBytesByUnit(bytes: Int64)
    ensures bytes >= GIB ==> FormatBytes(bytes) == Scaled(bytes, GIB) + " GB"
    ensures MIB <= bytes < GIB ==> FormatBytes(bytes) == Scaled(bytes, MIB) + " MB"
    ensures KIB <= bytes < MIB ==> FormatBytes(bytes) == Scaled(bytes, KIB) + " KB"
    ensures bytes < KIB ==> FormatBytes(bytes) == IntToString(bytes) + " B"
  {
    assert FormatBytes(bytes) == FormatFrom(bytes, 3);
    if bytes < GIB {
      assert FormatFrom(bytes, 3) == FormatFrom(bytes, 2);
      if bytes < MIB {
        assert FormatFrom(bytes, 2) == FormatFrom(bytes, 1);
        if bytes < KIB {
          assert FormatFrom(bytes, 1) == FormatFrom(bytes, 0);
        }
      }
    }
  }

  /** `"%.2f".format(bytes / unit)`: the quotient rounded half-up to hundredths. */
  function Scaled(bytes: nat, unit: nat): (s: string)
    requires unit > 0
    ensures |s| >= 4 && s[|s| - 3] == '.' && IsDigit(s[|s| - 1])
  {
    var s := Fixed2(RoundHalfUp(bytes * 100, unit));
    assert s[|s| - 2..][1] == s[|s| - 1];
    s
  }

  /**
   * The printed figure, read back as hundredths `q`, is the quotient
   * `bytes / unit` rounded half-up: `q - 1/2 <= 100 * bytes / unit < q + 1/2`.
   */
  lemma ScaledValue(bytes: nat, unit: nat)
    requires unit > 0
    ensures var s := Scaled(bytes, unit);
      && AllDigits(s[..|s| - 3]) && AllDigits(s[|s| - 2..])
      && var q := DigitsValue(s[..|s| - 3]) * 100 + DigitsValue(s[|s| - 2..]);
         2 * q * unit <= 200 * bytes + unit < 2 * q * unit + 2 * unit
  {
    var q := RoundHalfUp(bytes * 100, unit);
    assert 2 * q * unit <= 2 * (bytes * 100) + unit < 2 * q * unit + 2 * unit;
  }

  predicate EndsWith(s: string, suffix: string)
  {
    |suffix| <= |s| && s[|s| - |suffix|..] == suffix
  }

  /** The last character of an integer's decimal text is a digit. */
  lemma IntToStringEndsInDigit(n: int)
    ensures |IntToString(n)| >= 1 && IsDigit(IntToString(n)[|IntToString(n)| - 1])
  {
  }

  /**
   * A number ending in a digit followed by one of the units " GB", " MB"
   * and " KB" ends in that unit and in no other, and is no byte count
   * followed by " B".
   */
  lemma UnitText(number: string, suffix: string, bytes: int)
    requires |number| >= 1 && IsDigit(number[|number| - 1])
    requires suffix == " GB" || suffix == " MB" || suffix == " KB"
    ensures EndsWith(number + suffix, " GB") <==> suffix == " GB"
    ensures EndsWith(number + suffix, " MB") <==> suffix == " MB"
    ensures EndsWith(number + suffix, " KB") <==> suffix == " KB"
    ensures number + suffix != IntToString(bytes) + " B"
  {
    var t := number + suffix;
    assert t[|t| - 3..] == suffix;
    assert t[|t| - 2] == suffix[1] != ' ';
  }

  /** A byte count followed by " B" ends in none of the larger units. */
  lemma ByteText(bytes: int)
    ensures !EndsWith(IntToString(bytes) + " B", " GB")
    ensures !EndsWith(IntToString(bytes) + " B", " MB")
    ensures !EndsWith(IntToString(bytes) + " B", " KB")
  {
    IntToStringEndsInDigit(bytes);
    var n := IntToString(bytes);
    var t := n + " B";
    assert t[|t| - 2] == ' ';
  }

  /**
   * The unit is GB iff bytes ≥ 1024³, MB iff 1024² ≤ bytes < 1024³, KB iff
   * 1024 ≤ bytes < 1024², and otherwise (0 and negative counts included)
   * the text is the count with " B".
   */
  lemma FormatBytesUnits(bytes: Int64)
    ensures EndsWith(FormatBytes(bytes), " GB") <==> bytes >= GIB
    ensures EndsWith(FormatBytes(bytes), " MB") <==> MIB <= bytes < GIB
    ensures EndsWith(FormatBytes(bytes), " KB") <==> KIB <= bytes < MIB
    ensures FormatBytes(bytes) == IntToString(bytes) + " B" <==> bytes < KIB
  {
    FormatBytesShape(bytes);
    var k := UnitOf(bytes);
    SuffixFacts(FormatBytes(bytes), bytes, k, if k == 0 then "" else Scaled(bytes, UnitSize(k)));
  }

  /** The unit `formatBytes` picks: 3 for GB, 2 for MB, 1 for KB, 0 for bytes. */
  function UnitOf(bytes: int): (k: nat)
    ensures k <= 3
  {
    if bytes >= GIB then 3 else if bytes >= MIB then 2 else if bytes >= KIB then 1 else 0
  }

  lemma FormatBytesShape(bytes: Int64)
    ensures UnitOf(bytes) == 0 ==> FormatBytes(bytes) == IntToString(bytes) + " B"
    ensures UnitOf(bytes) > 0 ==> FormatBytes(bytes) == Scaled(bytes, UnitSize(UnitOf(bytes))) + UnitName(UnitOf(bytes))
  {
    FormatBytesByUnit(bytes);
  }

  /**
   * A text that is a digit-ended number followed by the unit of `k` (or,
   * for `k == 0`, a byte count followed by " B") names that unit and no
   * other.
   */
  lemma SuffixFacts(t: string, bytes: int, k: nat, number: string)
    requires k <= 3
    requires k == 0 ==> t == IntToString(bytes) + " B"
    requires k > 0 ==> |number| >= 1 && IsDigit(number[|number| - 1]) && t == number + UnitName(k)
    ensures EndsWith(t, " GB") <==> k == 3
    ensures EndsWith(t, " MB") <==> k == 2
    ensures EndsWith(t, " KB") <==> k == 1
    ensures t == IntToString(bytes) + " B" <==> k == 0
  {
    if k == 0 {
      ByteText(bytes);
    } else {
      UnitText(number, UnitName(k), bytes);
    }
  }

  // ---------------------------------------------------------------------
  // The section builders.

  /** The section titles, in `createSections` order. */
  const OVERVIEW_TITLE: string := "Device Overview"
  const OS_TITLE: string := "OS & Software Info"
  const HARDWARE_TITLE: string := "CPU & Hardware"
  const MEMORY_TITLE: string := "Memory & Storage"
  const BATTERY_TITLE: string := "Battery Info"
  const DISPLAY_TITLE: string := "Display Info"
  const NETWORK_TITLE: string := "Network Info"
  const SENSORS_TITLE: string := "Sensors"
  const CAMERAS_TITLE: string := "Camera Info"
  const SYSTEM_TITLE: string := "System Info"

  function YesNo(b: bool): string { if b then "Yes" else "No" }

  /** `"$title ($count)"`: a title that embeds a list's size. */
  function CountedTitle(title: string, count: nat): string
  {
    title + " (" + IntToString(count) + ")"
  }

  function OverviewSection(o: DeviceOverview): DeviceInfoSection
  {
    DeviceInfoSection(OVERVIEW_TITLE, [
      DeviceInfoItem("Manufacturer", o.manufacturer),
      DeviceInfoItem("Model", o.model),
      DeviceInfoItem("Brand", o.brand),
      DeviceInfoItem("Board", o.board),
      DeviceInfoItem("Bootloader", o.bootloader),
      DeviceInfoItem("Device", o.device),
      DeviceInfoItem("Product", o.product),
      DeviceInfoItem("Hardware", o.hardware)], isExpanded := true)
  }

  function OSSection(os: OSInfo): DeviceInfoSection
  {
    DeviceInfoSection(OS_TITLE, [
      DeviceInfoItem("Android Version", os.androidVersion),
      DeviceInfoItem("API Level", IntToString(os.apiLevel)),
      DeviceInfoItem("Security Patch", os.securityPatch),
      DeviceInfoItem("Build ID", os.buildId),
      DeviceInfoItem("Kernel Version", os.kernelVersion),
      DeviceInfoItem("Build Date", os.buildDate),
      DeviceInfoItem("Build Type", os.buildType),
      DeviceInfoItem("Build User", os.buildUser),
      DeviceInfoItem("Build Host", os.buildHost)])
  }

  function HardwareSection(h: HardwareInfo): DeviceInfoSection
  {
    DeviceInfoSection(HARDWARE_TITLE, [
      DeviceInfoItem("CPU Architecture", h.cpuArchitecture),
      DeviceInfoItem("CPU Cores", IntToString(h.cpuCores)),
      DeviceInfoItem("CPU Frequency", h.cpuFrequency),
      DeviceInfoItem("Supported ABIs", JoinToString(h.supportedAbis, ", ")),
      DeviceInfoItem("32-bit ABIs", JoinToString(h.supportedAbis32, ", ")),
      DeviceInfoItem("64-bit ABIs", JoinToString(h.supportedAbis64, ", "))])
  }

  /**
   * The hardware section's six lines; each ABI list is shown comma-and-space
   * joined in its own order, so a list of several ends with `", "` and its
   * last ABI after the join of the others.
   */
  lemma HardwareSectionLayout(h: HardwareInfo)
    ensures var items := HardwareSection(h).items;
      && |items| == 6
      && items[0] == DeviceInfoItem("CPU Architecture", h.cpuArchitecture)
      && items[1] == DeviceInfoItem("CPU Cores", IntToString(h.cpuCores))
      && items[2] == DeviceInfoItem("CPU Frequency", h.cpuFrequency)
      && items[3].value == JoinToString(h.supportedAbis, ", ")
      && items[3].text == "Supported ABIs" && items[4].text == "32-bit ABIs" && items[5].text == "64-bit ABIs"
      && (h.supportedAbis == [] ==> items[3].value == "")
      && (|h.supportedAbis| == 1 ==> items[3].value == h.supportedAbis[0])
      && (|h.supportedAbis| >= 2 ==>
            items[3].value == JoinToString(h.supportedAbis[..|h.supportedAbis| - 1], ", ")
                              + ", " + h.supportedAbis[|h.supportedAbis| - 1])
      && items[4].value == JoinToString(h.supportedAbis32, ", ")
      && items[5].value == JoinToString(h.supportedAbis64, ", ")
      && (h.supportedAbis32 == [] ==> items[4].value == "")
      && (|h.supportedAbis32| == 1 ==> items[4].value == h.supportedAbis32[0])
      && (h.supportedAbis64 == [] ==> items[5].value == "")
      && (|h.supportedAbis64| == 1 ==> items[5].value == h.supportedAbis64[0])
      && (|h.supportedAbis32| >= 2 ==>
            items[4].value == JoinToString(h.supportedAbis32[..|h.supportedAbis32| - 1], ", ")
                              + ", " + h.supportedAbis32[|h.supportedAbis32| - 1])
      && (|h.supportedAbis64| >= 2 ==>
            items[5].value == JoinToString(h.supportedAbis64[..|h.supportedAbis64| - 1], ", ")
                              + ", " + h.supportedAbis64[|h.supportedAbis64| - 1])
  {
    JoinLast(h.supportedAbis);
    JoinLast(h.supportedAbis32);
    JoinLast(h.supportedAbis64);
  }

  lemma JoinLast(abis: seq<string>)
    ensures |abis| >= 2 ==>
              JoinToString(abis, ", ") == JoinToString(abis[..|abis| - 1], ", ") + ", " + abis[|abis| - 1]
  {
    if |abis| >= 2 {
      assert abis == abis[..|abis| - 1] + [abis[|abis| - 1]];
      JoinSnoc(abis[..|abis| - 1], abis[|abis| - 1], ", ");
    }
  }

  /** The seven items the memory section always has. */
  function MemoryFixedItems(m: MemoryInfo): seq<DeviceInfoItem>
  {
    [DeviceInfoItem("Total RAM", FormatBytes(m.totalRam)),
     DeviceInfoItem("Available RAM", FormatBytes(m.availableRam)),
     DeviceInfoItem("Used RAM", FormatBytes(m.usedRam)),
     DeviceInfoItem("Total Internal Storage", FormatBytes(m.totalInternalStorage)),
     DeviceInfoItem("Available Internal Storage", FormatBytes(m.availableInternalStorage)),
     DeviceInfoItem("Used Internal Storage", FormatBytes(m.usedInternalStorage)),
     DeviceInfoItem("Has External Storage", YesNo(m.hasExternalStorage))]
  }

  /** The external-storage items, added only when storage is reported and its total is known. */
  function ExternalItems(m: MemoryInfo): seq<DeviceInfoItem>
  {
    if m.hasExternalStorage && m.totalExternalStorage.Some? then
      [DeviceInfoItem("Total External Storage", FormatBytes(m.totalExternalStorage.value))]
      + (if m.availableExternalStorage.Some? then
           [DeviceInfoItem("Available External Storage", FormatBytes(m.availableExternalStorage.value))]
         else [])
    else []
  }

  function MemorySection(m: MemoryInfo): DeviceInfoSection
  {
    DeviceInfoSection(MEMORY_TITLE, MemoryFixedItems(m) + ExternalItems(m))
  }

  function BatterySection(b: BatteryInfo): DeviceInfoSection
  {
    DeviceInfoSection(BATTERY_TITLE, [
      DeviceInfoItem("Battery Level", IntToString(b.level) + "%"),
      DeviceInfoItem("Status", b.status),
      DeviceInfoItem("Health", b.health),
      DeviceInfoItem("Temperature", b.temperature.text + "\U{00B0}C"),
      DeviceInfoItem("Voltage", IntToString(b.voltage) + " mV"),
      DeviceInfoItem("Technology", b.technology),
      DeviceInfoItem("Is Charging", YesNo(b.isCharging)),
      DeviceInfoItem("Charging Source", b.chargingSource)])
  }

  function DisplaySection(d: DisplayInfo): DeviceInfoSection
  {
    DeviceInfoSection(DISPLAY_TITLE, [
      DeviceInfoItem("Screen Resolution", d.screenResolution),
      DeviceInfoItem("Screen Density", IntToString(d.screenDensity) + " dpi"),
      DeviceInfoItem("Density Category", d.screenDensityDpi),
      DeviceInfoItem("Refresh Rate", d.refreshRate.text + " Hz"),
      DeviceInfoItem("Screen Size", d.screenSize),
      DeviceInfoItem("Orientation", d.orientation)])
  }

  /** `value?.let { add(DeviceInfoItem(label, it)) }`. */
  function OptionalItem(caption: string, value: Option<string>): seq<DeviceInfoItem>
  {
    if value.Some? then [DeviceInfoItem(caption, value.value)] else []
  }

  /** `"$it dBm"` of a present signal strength. */
  function SignalText(signal: Option<Int32>): Option<string>
  {
    if signal.Some? then Some(IntToString(signal.value) + " dBm") else None
  }

  function NetworkSection(n: NetworkInfo): DeviceInfoSection
  {
    DeviceInfoSection(NETWORK_TITLE,
      [DeviceInfoItem("WiFi Enabled", YesNo(n.wifiEnabled)),
       DeviceInfoItem("WiFi Connected", YesNo(n.wifiConnected))]
      + OptionalItem("WiFi SSID", n.wifiSSID)
      + OptionalItem("IP Address", n.ipAddress)
      + OptionalItem("MAC Address", n.macAddress)
      + [DeviceInfoItem("Network Type", n.networkType)]
      + OptionalItem("Signal Strength", SignalText(n.signalStrength)))
  }

  /** The item of sensor number `i` (counting from 0). */
  function SensorItem(i: nat, s: SensorData): DeviceInfoItem
  {
    DeviceInfoItem(IntToString(i + 1) + ". " + s.name, s.typeName + " - " + s.vendor)
  }

  function SensorSection(s: SensorInfo): DeviceInfoSection
  {
    DeviceInfoSection(CountedTitle(SENSORS_TITLE, |s.sensors|),
      seq(|s.sensors|, i requires 0 <= i < |s.sensors| => SensorItem(i, s.sensors[i])))
  }

  /** The item of camera number `i` (counting from 0). */
  function CameraItem(i: nat, c: CameraData): DeviceInfoItem
  {
    DeviceInfoItem("Camera " + IntToString(i + 1), c.facing + " - " + c.megapixels)
  }

  function CameraSection(c: CameraInfo): DeviceInfoSection
  {
    DeviceInfoSection(CountedTitle(CAMERAS_TITLE, |c.cameras|),
      seq(|c.cameras|, i requires 0 <= i < |c.cameras| => CameraItem(i, c.cameras[i])))
  }

  function SystemSection(s: SystemInfo): DeviceInfoSection
  {
    DeviceInfoSection(SYSTEM_TITLE, [
      DeviceInfoItem("Uptime", s.uptime),
      DeviceInfoItem("Boot Time", s.bootTime),
      DeviceInfoItem("Timezone", s.timezone),
      DeviceInfoItem("Locale", s.locale),
      DeviceInfoItem("Java VM Version", s.javaVmVersion),
      DeviceInfoItem("Java VM Name", s.javaVmName)])
  }

  /** Section number `i` of `createSections`. */
  function SectionAt(d: DeviceInfo, i: nat): DeviceInfoSection
    requires i < 10
  {
    if i == 0 then OverviewSection(d.deviceOverview)
    else if i == 1 then OSSection(d.osInfo)
    else if i == 2 then HardwareSection(d.hardwareInfo)
    else if i == 3 then MemorySection(d.memoryInfo)
    else if i == 4 then BatterySection(d.batteryInfo)
    else if i == 5 then DisplaySection(d.displayInfo)
    else if i == 6 then NetworkSection(d.networkInfo)
    else if i == 7 then SensorSection(d.sensorInfo)
    else if i == 8 then CameraSection(d.cameraInfo)
    else SystemSection(d.systemInfo)
  }

  /** `createSections`: the ten sections, in the order of the snapshot's facets. */
  function CreateSections(d: DeviceInfo): seq<DeviceInfoSection>
  {
    seq(10, i requires 0 <= i < 10 => SectionAt(d, i))
  }

  /**
   * The shape every non-empty section list has: ten sections whose titles
   * are the fixed ones, the sensor and camera titles carrying a count.
   */
  ghost predicate WellShaped(sections: seq<DeviceInfoSection>)
  {
    && |sections| == 10
    && sections[0].title == OVERVIEW_TITLE && sections[1].title == OS_TITLE
    && sections[2].title == HARDWARE_TITLE && sections[3].title == MEMORY_TITLE
    && sections[4].title == BATTERY_TITLE && sections[5].title == DISPLAY_TITLE
    && sections[6].title == NETWORK_TITLE && sections[9].title == SYSTEM_TITLE
    && (exists n: nat :: sections[7].title == CountedTitle(SENSORS_TITLE, n))
    && (exists n: nat :: sections[8].title == CountedTitle(CAMERAS_TITLE, n))
  }

  /**
   * `createSections` gives ten sections in the fixed order, the sensor and
   * camera titles embedding their list sizes, and only the overview
   * expanded.
   */
  lemma CreateSectionsShape(d: DeviceInfo)
    ensures var s := CreateSections(d);
      && WellShaped(s)
      && s[7].title == CountedTitle(SENSORS_TITLE, |d.sensorInfo.sensors|)
      && s[8].title == CountedTitle(CAMERAS_TITLE, |d.cameraInfo.cameras|)
      && s[0].isExpanded && forall i :: 1 <= i < |s| ==> !s[i].isExpanded
  {
    var s := CreateSections(d);
    FixedTitles(d);
    CountedTitles(d);
    CreateSectionsFlags(d);
    WellShapedByTitles(s, |d.sensorInfo.sensors|, |d.cameraInfo.cameras|);
  }

  /** The eight fixed titles, in order. */
  lemma FixedTitles(d: DeviceInfo)
    ensures var s := CreateSections(d);
      && |s| == 10
      && s[0].title == OVERVIEW_TITLE && s[1].title == OS_TITLE
      && s[2].title == HARDWARE_TITLE && s[3].title == MEMORY_TITLE
      && s[4].title == BATTERY_TITLE && s[5].title == DISPLAY_TITLE
      && s[6].title == NETWORK_TITLE && s[9].title == SYSTEM_TITLE
  {
  }

  /** The sensor and camera titles carry their list sizes. */
  lemma CountedTitles(d: DeviceInfo)
    ensures var s := CreateSections(d);
      && |s| == 10
      && s[7].title == CountedTitle(SENSORS_TITLE, |d.sensorInfo.sensors|)
      && s[8].title == CountedTitle(CAMERAS_TITLE, |d.cameraInfo.cameras|)
  {
  }

  /** Only the overview starts expanded. */
  lemma CreateSectionsFlags(d: DeviceInfo)
    ensures var s := CreateSections(d);
      |s| == 10 && s[0].isExpanded && forall i :: 1 <= i < |s| ==> !s[i].isExpanded
  {
  }

  /** Ten sections with the fixed titles and two counted ones are well shaped. */
  lemma WellShapedByTitles(s: seq<DeviceInfoSection>, sensors: nat, cameras: nat)
    requires |s| == 10
    requires s[0].title == OVERVIEW_TITLE && s[1].title == OS_TITLE
    requires s[2].title == HARDWARE_TITLE && s[3].title == MEMORY_TITLE
    requires s[4].title == BATTERY_TITLE && s[5].title == DISPLAY_TITLE
    requires s[6].title == NETWORK_TITLE && s[9].title == SYSTEM_TITLE
    requires s[7].title == CountedTitle(SENSORS_TITLE, sensors)
    requires s[8].title == CountedTitle(CAMERAS_TITLE, cameras)
    ensures WellShaped(s)
  {
  }

  // ---------------------------------------------------------------------
  // Reading a section's items by label.

  /** The value of the first item with this label, if any. */
  function ValueOf(items: seq<DeviceInfoItem>, caption: string): Option<string>
  {
    if items == [] then None
    else if items[0].text == caption then Some(items[0].value)
    else ValueOf(items[1..], caption)
  }

  /** The first of two lookups that finds something. */
  function FirstOf(x: Option<string>, y: Option<string>): Option<string>
  {
    if x.Some? then x else y
  }

  /** Looking a label up in two consecutive lists: the first list that has it decides. */
  lemma {:induction false} ValueOfAppend(a: seq<DeviceInfoItem>, b: seq<DeviceInfoItem>, caption: string)
    ensures ValueOf(a + b, caption) == FirstOf(ValueOf(a, caption), ValueOf(b, caption))
  {
    if a == [] {
      assert a + b == b;
    } else {
      assert (a + b)[0] == a[0];
      assert (a + b)[1..] == a[1..] + b;
      ValueOfAppend(a[1..], b, caption);
    }
  }

  lemma ValueOfOptional(caption: string, value: Option<string>, other: string)
    ensures ValueOf(OptionalItem(caption, value), other) == if caption == other then value else None
  {
    if value.Some? {
      assert OptionalItem(caption, value)[1..] == [];
    }
  }

  /** The seven fixed memory items, by label. */
  lemma MemoryFixedLabels(m: MemoryInfo)
    ensures var items := MemoryFixedItems(m);
      && |items| == 7
      && items[0].text == "Total RAM" && items[1].text == "Available RAM" && items[2].text == "Used RAM"
      && items[3].text == "Total Internal Storage" && items[4].text == "Available Internal Storage"
      && items[5].text == "Used Internal Storage" && items[6].text == "Has External Storage"
      && items[6].value == YesNo(m.hasExternalStorage)
  {
  }

  /**
   * The external items: the total iff storage is reported and its total is
   * known, then the available figure iff that is known as well.
   */
  lemma ExternalLayout(m: MemoryInfo)
    ensures var ext := ExternalItems(m);
      && |ext| <= 2
      && (|ext| > 0 <==> m.hasExternalStorage && m.totalExternalStorage.Some?)
      && (|ext| > 0 ==> ext[0] == DeviceInfoItem("Total External Storage", FormatBytes(m.totalExternalStorage.value)))
      && (|ext| > 1 <==> m.hasExternalStorage && m.totalExternalStorage.Some? && m.availableExternalStorage.Some?)
      && (|ext| > 1 ==> ext[1] == DeviceInfoItem("Available External Storage", FormatBytes(m.availableExternalStorage.value)))
  {
  }

  /**
   * The memory section lists its seven fixed items first; the external
   * total appears iff external storage is reported and its total is
   * known, and the external available figure can only follow it, iff it
   * is known as well.
   */
  lemma MemorySectionLayout(m: MemoryInfo)
    ensures var items := MemorySection(m).items;
      && 7 <= |items| <= 9
      && items[0].text == "Total RAM" && items[1].text == "Available RAM" && items[2].text == "Used RAM"
      && items[3].text == "Total Internal Storage" && items[4].text == "Available Internal Storage"
      && items[5].text == "Used Internal Storage" && items[6].text == "Has External Storage"
      && items[6].value == YesNo(m.hasExternalStorage)
      && (|items| > 7 <==> m.hasExternalStorage && m.totalExternalStorage.Some?)
      && (|items| > 7 ==> items[7] == DeviceInfoItem("Total External Storage", FormatBytes(m.totalExternalStorage.value)))
      && (|items| > 8 <==> m.hasExternalStorage && m.totalExternalStorage.Some? && m.availableExternalStorage.Some?)
      && (|items| > 8 ==> items[8] == DeviceInfoItem("Available External Storage", FormatBytes(m.availableExternalStorage.value)))
  {
    var fixed := MemoryFixedItems(m);
    var ext := ExternalItems(m);
    MemoryFixedLabels(m);
    ExternalLayout(m);
    var items := MemorySection(m).items;
    assert items == fixed + ext;
    assert items[0] == fixed[0] && items[1] == fixed[1] && items[2] == fixed[2] && items[3] == fixed[3];
    assert items[4] == fixed[4] && items[5] == fixed[5] && items[6] == fixed[6];
    if |ext| > 0 { assert items[7] == ext[0]; }
    if |ext| > 1 { assert items[8] == ext[1]; }
  }

  /** The network section read by label: the value each label carries, and none for any other label. */
  function NetworkField(n: NetworkInfo, caption: string): Option<string>
  {
    if caption == "WiFi Enabled" then Some(YesNo(n.wifiEnabled))
    else if caption == "WiFi Connected" then Some(YesNo(n.wifiConnected))
    else if caption == "WiFi SSID" then n.wifiSSID
    else if caption == "IP Address" then n.ipAddress
    else if caption == "MAC Address" then n.macAddress
    else if caption == "Network Type" then Some(n.networkType)
    else if caption == "Signal Strength" then SignalText(n.signalStrength)
    else None
  }

  /**
   * Reading the network section by label gives back the network facet:
   * the optional lines are present iff their field is, with its value;
   * the signal reads as "<n> dBm"; no other label occurs; and "WiFi
   * Enabled", "WiFi Connected" and "Network Type" are always present, in
   * that order.
   */
  lemma NetworkSectionLookup(n: NetworkInfo, caption: string)
    ensures ValueOf(NetworkSection(n).items, caption) == NetworkField(n, caption)
  {
    var enabled := DeviceInfoItem("WiFi Enabled", YesNo(n.wifiEnabled));
    var connected := DeviceInfoItem("WiFi Connected", YesNo(n.wifiConnected));
    var kind := DeviceInfoItem("Network Type", n.networkType);
    ValueOfBlocks([enabled, connected], OptionalItem("WiFi SSID", n.wifiSSID), OptionalItem("IP Address", n.ipAddress),
                  OptionalItem("MAC Address", n.macAddress), [kind],
                  OptionalItem("Signal Strength", SignalText(n.signalStrength)), caption);
    ValueOfPair(enabled, connected, caption);
    ValueOfOptional("WiFi SSID", n.wifiSSID, caption);
    ValueOfOptional("IP Address", n.ipAddress, caption);
    ValueOfOptional("MAC Address", n.macAddress, caption);
    ValueOfPair(kind, kind, caption);
    ValueOfOptional("Signal Strength", SignalText(n.signalStrength), caption);
  }

  /** Looking a label up in six consecutive blocks: the first block that has it decides. */
  lemma ValueOfBlocks(front: seq<DeviceInfoItem>, ssid: seq<DeviceInfoItem>, ip: seq<DeviceInfoItem>,
                      mac: seq<DeviceInfoItem>, kind: seq<DeviceInfoItem>, signal: seq<DeviceInfoItem>, caption: string)
    ensures ValueOf(front + ssid + ip + mac + kind + signal, caption) ==
              FirstOf(FirstOf(FirstOf(FirstOf(FirstOf(ValueOf(front, caption), ValueOf(ssid, caption)),
                ValueOf(ip, caption)), ValueOf(mac, caption)), ValueOf(kind, caption)), ValueOf(signal, caption))
  {
    ValueOfAppend(front + ssid + ip + mac + kind, signal, caption);
    ValueOfAppend(front + ssid + ip + mac, kind, caption);
    ValueOfAppend(front + ssid + ip, mac, caption);
    ValueOfAppend(front + ssid, ip, caption);
    ValueOfAppend(front, ssid, caption);
  }

  /** Looking a label up in a list of two items (the same item twice for one). */
  lemma ValueOfPair(a: DeviceInfoItem, b: DeviceInfoItem, caption: string)
    ensures ValueOf([a, b], caption) == if a.text == caption then Some(a.value) else if b.text == caption then Some(b.value) else None
    ensures ValueOf([a], caption) == if a.text == caption then Some(a.value) else None
  {
    assert [a, b][1..] == [b];
    assert [b][1..] == [] && [a][1..] == [];
    assert ValueOf([b], caption) == if b.text == caption then Some(b.value) else ValueOf([], caption);
  }

  /**
   * "WiFi Enabled", "WiFi Connected" and "Network Type" are always
   * present, in that order, and at most the signal line follows the type.
   */
  lemma NetworkSectionOrder(n: NetworkInfo)
    ensures var items := NetworkSection(n).items;
      var last := |items| - 1 - (if n.signalStrength.Some? then 1 else 0);
      && 3 <= |items| <= 7
      && items[0].text == "WiFi Enabled" && items[1].text == "WiFi Connected"
      && 2 <= last && items[last].text == "Network Type"
      && (n.signalStrength.Some? ==> items[|items| - 1].text == "Signal Strength")
  {
    var signal := OptionalItem("Signal Strength", SignalText(n.signalStrength));
    var front := [DeviceInfoItem("WiFi Enabled", YesNo(n.wifiEnabled)),
                  DeviceInfoItem("WiFi Connected", YesNo(n.wifiConnected))]
      + OptionalItem("WiFi SSID", n.wifiSSID)
      + OptionalItem("IP Address", n.ipAddress)
      + OptionalItem("MAC Address", n.macAddress)
      + [DeviceInfoItem("Network Type", n.networkType)];
    var items := NetworkSection(n).items;
    assert items == front + signal;
    assert front[|front| - 1].text == "Network Type";
  }

  /**
   * The sensor and camera sections have one item per element, in order,
   * numbered from 1, and titles embedding the list sizes.
   */
  lemma ListSectionsLayout(s: SensorInfo, c: CameraInfo)
    ensures var sec := SensorSection(s);
      && sec.title == CountedTitle(SENSORS_TITLE, |s.sensors|) && |sec.items| == |s.sensors|
      && forall i :: 0 <= i < |s.sensors| ==>
           sec.items[i].text == IntToString(i + 1) + ". " + s.sensors[i].name
           && sec.items[i].value == s.sensors[i].typeName + " - " + s.sensors[i].vendor
    ensures var sec := CameraSection(c);
      && sec.title == CountedTitle(CAMERAS_TITLE, |c.cameras|) && |sec.items| == |c.cameras|
      && forall i :: 0 <= i < |c.cameras| ==>
           sec.items[i].text == "Camera " + IntToString(i + 1)
           && sec.items[i].value == c.cameras[i].facing + " - " + c.cameras[i].megapixels
  {
  }

  // ---------------------------------------------------------------------
  // The state.

  /** `sections` after a sequence of emissions: rebuilt by each `Success`, kept otherwise. */
  function SectionsAfter(sections: seq<DeviceInfoSection>, states: seq<UiState>): seq<DeviceInfoSection>
  {
    if states == [] then sections
    else
      var last := states[|states| - 1];
      if last.Success? then CreateSections(last.deviceInfo)
      else SectionsAfter(sections, states[..|states| - 1])
  }

  /**
   * Without a `Success` the sections are untouched; otherwise they are the
   * sections of the last `Success`, whatever they were before.
   */
  lemma {:induction false} SectionsAfterFacts(sections: seq<DeviceInfoSection>, states: seq<UiState>, j: nat)
    ensures (forall i :: 0 <= i < |states| ==> !states[i].Success?) ==> SectionsAfter(sections, states) == sections
    ensures j < |states| && states[j].Success? && (forall i :: j < i < |states| ==> !states[i].Success?) ==>
              SectionsAfter(sections, states) == CreateSections(states[j].deviceInfo)
  {
    if states != [] {
      var prefix := states[..|states| - 1];
      SectionsAfterFacts(sections, prefix, j);
    }
  }

  /** One collection of the flow: a success rebuilds the sections, an error keeps them. */
  lemma SectionsAfterCollection(sections: seq<DeviceInfoSection>, outcome: Collection)
    ensures SectionsAfter(sections, Emissions(outcome)) ==
              if outcome.Collected? then CreateSections(outcome.info) else sections
  {
    var states := Emissions(outcome);
    assert states[..1] == [Loading] && [Loading][..0] == [];
    if outcome.Aborted? {
      assert SectionsAfter(sections, [Loading]) == sections;
    }
  }

  /** Rebuilding keeps the shape: from no sections or well-shaped ones, the result is one of the two. */
  lemma {:induction false} SectionsAfterKeepsShape(sections: seq<DeviceInfoSection>, states: seq<UiState>)
    requires sections == [] || WellShaped(sections)
    ensures SectionsAfter(sections, states) == [] || WellShaped(SectionsAfter(sections, states))
  {
    if states != [] {
      var last := states[|states| - 1];
      if last.Success? {
        CreateSectionsShape(last.deviceInfo);
      } else {
        SectionsAfterKeepsShape(sections, states[..|states| - 1]);
      }
    }
  }

  /** `toggleSection`'s `map`: flip the flag of every section with this title. */
  function Toggled(sections: seq<DeviceInfoSection>, title: string): seq<DeviceInfoSection>
  {
    seq(|sections|, i requires 0 <= i < |sections| =>
      if sections[i].title == title then sections[i].(isExpanded := !sections[i].isExpanded) else sections[i])
  }

  /**
   * Toggling flips `isExpanded` on exactly the sections with the title and
   * changes nothing else: not the order, the length, a title or an item.
   */
  lemma ToggledFacts(sections: seq<DeviceInfoSection>, title: string)
    ensures var t := Toggled(sections, title);
      && |t| == |sections|
      && forall i :: 0 <= i < |sections| ==>
           && t[i].title == sections[i].title && t[i].items == sections[i].items
           && (t[i].isExpanded != sections[i].isExpanded <==> sections[i].title == title)
  {
  }

  /** Toggling the same title twice restores the sections. */
  lemma ToggleTwice(sections: seq<DeviceInfoSection>, title: string)
    ensures Toggled(Toggled(sections, title), title) == sections
  {
    var t := Toggled(Toggled(sections, title), title);
    forall i | 0 <= i < |sections|
      ensures t[i] == sections[i]
    {
    }
  }

  /** Toggling a title no section has changes nothing. */
  lemma ToggleUnknownTitle(sections: seq<DeviceInfoSection>, title: string)
    requires forall i :: 0 <= i < |sections| ==> sections[i].title != title
    ensures Toggled(sections, title) == sections
  {
  }

  /** Toggling keeps the fixed shape of the section list. */
  lemma ToggledWellShaped(sections: seq<DeviceInfoSection>, title: string)
    requires WellShaped(sections)
    ensures WellShaped(Toggled(sections, title))
  {
    var t := Toggled(sections, title);
    var n: nat :| sections[7].title == CountedTitle(SENSORS_TITLE, n);
    assert t[7].title == CountedTitle(SENSORS_TITLE, n);
    var k: nat :| sections[8].title == CountedTitle(CAMERAS_TITLE, k);
    assert t[8].title == CountedTitle(CAMERAS_TITLE, k);
  }

  /**
   * A refresh that succeeds replaces the sections wholesale: whatever was
   * toggled before, the result is the freshly built list, with only the
   * overview expanded.
   */
  lemma RefreshDiscardsToggles(sections: seq<DeviceInfoSection>, title: string, d: DeviceInfo)
    ensures SectionsAfter(Toggled(sections, title), Emissions(Collected(d))) == CreateSections(d)
    ensures SectionsAfter(sections, Emissions(Collected(d))) == CreateSections(d)
  {
  }

  class DeviceInfoViewModel {
    var uiState: UiState
    var sections: seq<DeviceInfoSection>

    /** The sections are either not built yet or have the fixed ten-section shape. */
    ghost predicate Valid()
      reads this
    {
      sections == [] || WellShaped(sections)
    }

    /**
     * The initial state: `Loading` and no sections.  The load that
     * `init` launches is a separate `LoadDeviceInfo` call.
     */
    constructor ()
      ensures uiState == Loading && sections == []
      ensures Valid()
    {
      uiState := Loading;
      sections := [];
    }

    /** The `collect { state -> ... }` block: every state replaces `uiState`, a `Success` rebuilds `sections`. */
    method Collect(states: seq<UiState>)
      requires Valid()
      modifies this
      ensures uiState == if states == [] then old(uiState) else states[|states| - 1]
      ensures sections == SectionsAfter(old(sections), states)
      ensures Valid()
    {
      var i := 0;
      while i < |states|
        invariant 0 <= i <= |states|
        invariant uiState == if i == 0 then old(uiState) else states[i - 1]
        invariant sections == SectionsAfter(old(sections), states[..i])
      {
        var state := states[i];
        assert states[..i + 1][..i] == states[..i] && states[..i + 1][i] == state;
        uiState := state;
        if state.Success? {
          sections := CreateSections(state.deviceInfo);
        }
        i := i + 1;
      }
      assert states[..|states|] == states;
      SectionsAfterKeepsShape(old(sections), states);
    }

    /**
     * `loadDeviceInfo`: collects the use case's emissions.  The state ends
     * as the final emission; the sections are rebuilt iff the snapshot was
     * collected, and kept as they were on an error.
     */
    method LoadDeviceInfo(outcome: Collection)
      requires Valid()
      modifies this
      ensures uiState == Emissions(outcome)[1]
      ensures outcome.Collected? ==> uiState == Success(outcome.info) && sections == CreateSections(outcome.info)
      ensures outcome.Aborted? ==> uiState == Error(ErrorMessage(outcome.message)) && sections == old(sections)
      ensures Valid()
    {
      ghost var before := sections;
      Collect(Emissions(outcome));
      SectionsAfterCollection(before, outcome);
    }

    /**
     * `refreshDeviceInfo`: the same rule over the `refresh()` flow; a
     * successful refresh discards any earlier toggles.
     */
    method RefreshDeviceInfo(outcome: Collection)
      requires Valid()
      modifies this
      ensures uiState == Emissions(outcome)[1]
      ensures outcome.Collected? ==> sections == CreateSections(outcome.info)
      ensures outcome.Collected? ==> sections[0].isExpanded && forall i :: 1 <= i < |sections| ==> !sections[i].isExpanded
      ensures outcome.Aborted? ==> sections == old(sections)
      ensures Valid()
    {
      ghost var before := sections;
      Collect(Emissions(outcome));
      SectionsAfterCollection(before, outcome);
      if outcome.Collected? {
        CreateSectionsShape(outcome.info);
      }
    }

    /** `toggleSection`: flips the flag of the sections with this title; `uiState` is untouched. */
    method ToggleSection(title: string)
      requires Valid()
      modifies this
      ensures sections == Toggled(old(sections), title)
      ensures uiState == old(uiState)
      ensures Valid()
      ensures sections == [] || |sections| == 10
    {
      if sections != [] {
        ToggledWellShaped(sections, title);
      }
      sections := Toggled(sections, title);
    }
  }
}
