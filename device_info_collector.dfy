/**
 * The probes of the device-information collector.  Each probe reads one
 * facet from the platform; here the platform's answers are inputs (an
 * `Option`, `Lookup` or `Probe` wherever the Kotlin code null-checks them
 * or where the call can throw), and what the probe computes from them is
 * modelled exactly.
 */
module Collector {
  import opened KotlinRuntime
  import opened DeviceInfoModel

  // ---------------------------------------------------------------------
  // Platform constants (android.os.Build.VERSION_CODES, BatteryManager,
  // NetworkCapabilities, Sensor, CameraCharacteristics, Camera.CameraInfo,
  // Configuration, Environment).

  const SDK_LOLLIPOP: int := 21
  const SDK_M: int := 23

  const UNKNOWN: string := "Unknown"

  /** The answer of a platform call that may return null or throw. */
  datatype Lookup<T> = Found(value: T) | NotFound | Failed

  /** `System.getProperty(name) ?: "Unknown"`. */
  function OrUnknown(property: Option<string>): string
  {
    if property.Some? then property.value else UNKNOWN
  }

  // ---------------------------------------------------------------------
  // OS and hardware.

  datatype OSReadings = OSReadings(
    release: string, sdkInt: Int32, securityPatch: string, buildId: string,
    osVersion: Option<string>, buildDateText: string,
    buildType: string, buildUser: string, buildHost: string)

  /** `collectOSInfo`: the security patch is only reported from API 23 (M) on. */
  function CollectOSInfo(r: OSReadings): (info: OSInfo)
    ensures info.apiLevel == r.sdkInt
    ensures r.sdkInt < SDK_M ==> info.securityPatch == "N/A"
    ensures r.sdkInt >= SDK_M ==> info.securityPatch == r.securityPatch
    ensures r.osVersion.None? ==> info.kernelVersion == UNKNOWN
  {
    OSInfo(
      androidVersion := r.release,
      apiLevel := r.sdkInt,
      securityPatch := if r.sdkInt >= SDK_M then r.securityPatch else "N/A",
      buildId := r.buildId,
      kernelVersion := OrUnknown(r.osVersion),
      buildDate := r.buildDateText,
      buildType := r.buildType,
      buildUser := r.buildUser,
      buildHost := r.buildHost)
  }

  /** The file `/sys/devices/system/cpu/cpu0/cpufreq/cpuinfo_max_freq`. */
  datatype FileRead = FileMissing | ReadFailed | FileText(text: string)

  /**
   * `getCpuFrequency`: the file's trimmed text as a `Long` number of kHz,
   * rendered in MHz (truncating); "Unknown" when the file is missing, its
   * text is not a `Long`, or reading it throws.
   */
  function CpuFrequency(file: FileRead): (r: string)
    ensures file.FileText? && ParseLong(Trim(file.text)).Some? ==>
              r == IntToString(TruncDiv(ParseLong(Trim(file.text)).value, 1000)) + " MHz"
    ensures r == UNKNOWN <==> !(file.FileText? && ParseLong(Trim(file.text)).Some?)
  {
    if file.FileText? then
      var freq := ParseLong(Trim(file.text));
      if freq.Some? then
        var r := IntToString(TruncDiv(freq.value, 1000)) + " MHz";
        assert r[|r| - 1] == 'z';
        r
      else UNKNOWN
    else UNKNOWN
  }

  /**
   * A file holding the decimal text of a `Long` kHz figure, with any
   * whitespace around it, reads as that figure divided by 1000, in MHz.
   */
  lemma CpuFrequencyOfNumber(lead: string, khz: Int64, trail: string)
    requires AllWhitespace(lead) && AllWhitespace(trail)
    ensures CpuFrequency(FileText(lead + IntToString(khz) + trail))
            == IntToString(TruncDiv(khz, 1000)) + " MHz"
  {
    var x := IntToString(khz);
    assert x[0] == '-' || IsDigit(x[0]);
    assert IsDigit(x[|x| - 1]);
    TrimOfPadded(lead, x, trail);
    ParseLongOfIntToString(khz);
  }

  datatype HardwareReadings = HardwareReadings(
    osArch: Option<string>, availableProcessors: Int32, cpuMaxFreqFile: FileRead,
    supportedAbis: seq<string>, supportedAbis32: seq<string>, supportedAbis64: seq<string>)

  /** `collectHardwareInfo`. */
  function CollectHardwareInfo(r: HardwareReadings): (info: HardwareInfo)
    ensures info.cpuFrequency == CpuFrequency(r.cpuMaxFreqFile)
    ensures r.osArch.None? ==> info.cpuArchitecture == UNKNOWN
    ensures info.supportedAbis == r.supportedAbis && info.supportedAbis32 == r.supportedAbis32
    ensures info.supportedAbis64 == r.supportedAbis64
  {
    HardwareInfo(OrUnknown(r.osArch), r.availableProcessors, CpuFrequency(r.cpuMaxFreqFile),
                 r.supportedAbis, r.supportedAbis32, r.supportedAbis64)
  }

  // ---------------------------------------------------------------------
  // Memory and storage.

  const MEDIA_MOUNTED: string := "mounted"

  /** The three `Long` figures a `StatFs` reports. */
  datatype StatFs = StatFs(blockCount: Int64, blockSize: Int64, availableBlocks: Int64)

  /** `blockCountLong * blockSizeLong`, in `Long` arithmetic. */
  function TotalBytes(s: StatFs): Int64 { WrapLong(s.blockCount * s.blockSize) }

  /** `availableBlocksLong * blockSizeLong`, in `Long` arithmetic. */
  function AvailableBytes(s: StatFs): Int64 { WrapLong(s.availableBlocks * s.blockSize) }

  /**
   * What `collectMemoryInfo` reads: the RAM figures, the data directory's
   * `StatFs`, `Environment.getExternalStorageState()`, and the external
   * directory's `StatFs` (`None` when constructing it throws).
   */
  datatype MemoryReadings = MemoryReadings(
    totalMem: Int64, availMem: Int64, internal: StatFs,
    externalStorageState: string, external: Option<StatFs>)

  /** The memory facet that `collectMemoryInfo` returns. */
  function MemoryInfoOf(r: MemoryReadings): MemoryInfo
  {
    var mounted := r.externalStorageState == MEDIA_MOUNTED;
    var external := if mounted then r.external else None;
    MemoryInfo(
      totalRam := r.totalMem,
      availableRam := r.availMem,
      usedRam := WrapLong(r.totalMem - r.availMem),
      totalInternalStorage := TotalBytes(r.internal),
      availableInternalStorage := AvailableBytes(r.internal),
      usedInternalStorage := WrapLong(TotalBytes(r.internal) - AvailableBytes(r.internal)),
      hasExternalStorage := mounted,
      totalExternalStorage := if external.Some? then Some(TotalBytes(external.value)) else None,
      availableExternalStorage := if external.Some? then Some(AvailableBytes(external.value)) else None)
  }

  /** `collectMemoryInfo`, step by step as the Kotlin code assigns its variables. */
  method CollectMemoryInfo(r: MemoryReadings) returns (info: MemoryInfo)
    ensures info == MemoryInfoOf(r)
  {
    var internalTotal := TotalBytes(r.internal);
    var internalAvailable := AvailableBytes(r.internal);
    var externalTotal: Option<Int64> := None;
    var externalAvailable: Option<Int64> := None;
    var hasExternal := r.externalStorageState == MEDIA_MOUNTED;
    if hasExternal {
      if r.external.Some? {
        externalTotal := Some(TotalBytes(r.external.value));
        externalAvailable := Some(AvailableBytes(r.external.value));
      }
    }
    info := MemoryInfo(r.totalMem, r.availMem, WrapLong(r.totalMem - r.availMem),
                       internalTotal, internalAvailable, WrapLong(internalTotal as int - internalAvailable as int),
                       hasExternal, externalTotal, externalAvailable);
  }

  /**
   * Used = total − available, modulo 2^64 always and exactly whenever
   * `Long` does not overflow.
   */
  lemma MemoryUsedFigures(r: MemoryReadings)
    ensures var m := MemoryInfoOf(r);
      && (m.usedRam - (m.totalRam - m.availableRam)) % 0x1_0000_0000_0000_0000 == 0
      && (IsInt64(r.totalMem - r.availMem) ==> m.usedRam == m.totalRam - m.availableRam)
    ensures var m := MemoryInfoOf(r);
      && (m.usedInternalStorage - (m.totalInternalStorage - m.availableInternalStorage)) % 0x1_0000_0000_0000_0000 == 0
      && (IsInt64(m.totalInternalStorage - m.availableInternalStorage) ==>
            m.usedInternalStorage == m.totalInternalStorage - m.availableInternalStorage)
  {
    UsedFigure(r.totalMem, r.availMem);
    UsedFigure(TotalBytes(r.internal), AvailableBytes(r.internal));
  }

  /** `total - available` in `Long` arithmetic, against the exact difference. */
  lemma UsedFigure(total: Int64, available: Int64)
    ensures (WrapLong(total - available) - (total - available)) % 0x1_0000_0000_0000_0000 == 0
    ensures IsInt64(total - available) ==> WrapLong(total - available) == total - available
  {
    WrapLongDifference(total - available);
  }

  /** The wrapped value differs from the exact one by a multiple of 2^64. */
  lemma WrapLongDifference(x: int)
    ensures (WrapLong(x) - x) % 0x1_0000_0000_0000_0000 == 0
  {
    var d := x - WrapLong(x);
    var k := d / 0x1_0000_0000_0000_0000;
    assert d == k * 0x1_0000_0000_0000_0000;
    assert -d == (-k) * 0x1_0000_0000_0000_0000;
  }

  /**
   * External storage is reported iff it is mounted; the two external
   * figures are present together or not at all, and never when unmounted.
   */
  lemma MemoryExternalFigures(r: MemoryReadings)
    ensures var m := MemoryInfoOf(r);
      && (m.hasExternalStorage <==> r.externalStorageState == MEDIA_MOUNTED)
      && (m.totalExternalStorage.Some? <==> m.availableExternalStorage.Some?)
      && (m.totalExternalStorage.Some? <==> m.hasExternalStorage && r.external.Some?)
      && (!m.hasExternalStorage ==> m.totalExternalStorage.None? && m.availableExternalStorage.None?)
  {
  }

  // ---------------------------------------------------------------------
  // Battery (android.os.BatteryManager).

  const EXTRA_LEVEL: string := "level"
  const EXTRA_SCALE: string := "scale"
  const EXTRA_STATUS: string := "status"
  const EXTRA_HEALTH: string := "health"
  const EXTRA_TEMPERATURE: string := "temperature"
  const EXTRA_VOLTAGE: string := "voltage"
  const EXTRA_TECHNOLOGY: string := "technology"
  const EXTRA_PLUGGED: string := "plugged"

  const BATTERY_STATUS_UNKNOWN: int := 1
  const BATTERY_STATUS_CHARGING: int := 2
  const BATTERY_STATUS_DISCHARGING: int := 3
  const BATTERY_STATUS_NOT_CHARGING: int := 4
  const BATTERY_STATUS_FULL: int := 5

  const BATTERY_HEALTH_GOOD: int := 2
  const BATTERY_HEALTH_OVERHEAT: int := 3
  const BATTERY_HEALTH_DEAD: int := 4
  const BATTERY_HEALTH_OVER_VOLTAGE: int := 5
  const BATTERY_HEALTH_UNSPECIFIED_FAILURE: int := 6
  const BATTERY_HEALTH_COLD: int := 7

  const BATTERY_PLUGGED_AC: int := 1
  const BATTERY_PLUGGED_USB: int := 2
  const BATTERY_PLUGGED_WIRELESS: int := 4

  /** The sticky `ACTION_BATTERY_CHANGED` intent: its integer and string extras. */
  datatype BatteryIntent = BatteryIntent(intExtras: map<string, Int32>, stringExtras: map<string, string>)

  /** `batteryIntent?.getIntExtra(key, -1) ?: -1`. */
  function IntExtra(intent: Option<BatteryIntent>, key: string): Int32
  {
    if intent.Some? && key in intent.value.intExtras then intent.value.intExtras[key] else -1
  }

  /**
   * `(p / s.toFloat()).toInt()`: a division by zero gives an infinity or
   * NaN, which `toInt()` turns into `Int.MAX_VALUE`, `Int.MIN_VALUE` or 0;
   * otherwise the quotient truncated toward zero, saturated to `Int`.
   */
  function FloatQuotientToInt(p: Int32, s: Int32): (r: Int32)
    ensures s != 0 && r != INT_MAX ==> r == TruncDiv(p, s)
  {
    if s == 0 then (if p > 0 then INT_MAX else if p < 0 then INT_MIN else 0)
    else
      var q := TruncDiv(p, s);
      if q > INT_MAX then INT_MAX else q
  }

  /**
   * The battery percentage: -1 when the level or the scale is missing
   * (-1); otherwise `level * 100` (in `Int` arithmetic) over the scale,
   * truncated, as `collectBatteryInfo` computes it.
   */
  function BatteryPercent(level: Int32, scale: Int32): (pct: Int32)
    ensures level == -1 || scale == -1 ==> pct == -1
  {
    if level != -1 && scale != -1 then FloatQuotientToInt(WrapInt(level * 100), scale) else -1
  }

  /**
   * Without overflow the percentage is the truncated quotient, and a level
   * no greater than the scale gives a value from 0 to 100.
   */
  lemma BatteryPercentRange(level: Int32, scale: Int32)
    requires 0 <= level && 0 < scale && level * 100 <= INT_MAX
    ensures BatteryPercent(level, scale) == level * 100 / scale
    ensures level <= scale ==> 0 <= BatteryPercent(level, scale) <= 100
  {
    var p := level * 100;
    assert WrapInt(p) == p;
    assert TruncDiv(p, scale) == p / scale;
    QuotientAtMost(p, scale);
    if level <= scale {
      QuotientAtMost100(p, scale);
    }
  }

  /** A non-negative quotient is at most its dividend. */
  lemma QuotientAtMost(p: nat, s: nat)
    requires s > 0
    ensures 0 <= p / s <= p
  {
    var q := p / s;
    assert q * s <= p;
    if q > p {
      MulAtLeast(q, s);
    }
  }

  lemma MulAtLeast(q: nat, s: nat)
    requires s > 0
    ensures q * s >= q
  {
  }

  lemma QuotientAtMost100(p: nat, s: nat)
    requires s > 0 && p <= 100 * s
    ensures p / s <= 100
  {
    assert p / s * s <= p;
  }

  function BatteryStatusText(status: int): string
  {
    if status == BATTERY_STATUS_CHARGING then "Charging"
    else if status == BATTERY_STATUS_DISCHARGING then "Discharging"
    else if status == BATTERY_STATUS_FULL then "Full"
    else if status == BATTERY_STATUS_NOT_CHARGING then "Not Charging"
    else if status == BATTERY_STATUS_UNKNOWN then UNKNOWN
    else UNKNOWN
  }

  function BatteryHealthText(health: int): string
  {
    if health == BATTERY_HEALTH_GOOD then "Good"
    else if health == BATTERY_HEALTH_OVERHEAT then "Overheat"
    else if health == BATTERY_HEALTH_DEAD then "Dead"
    else if health == BATTERY_HEALTH_OVER_VOLTAGE then "Over Voltage"
    else if health == BATTERY_HEALTH_UNSPECIFIED_FAILURE then "Unspecified Failure"
    else if health == BATTERY_HEALTH_COLD then "Cold"
    else UNKNOWN
  }

  function ChargingSourceText(plugged: int): string
  {
    if plugged == BATTERY_PLUGGED_AC then "AC"
    else if plugged == BATTERY_PLUGGED_USB then "USB"
    else if plugged == BATTERY_PLUGGED_WIRELESS then "Wireless"
    else "Not Charging"
  }

  /** The inverse of `BatteryStatusText` on the codes it recognises. */
  function BatteryStatusCode(text: string): Option<int>
  {
    if text == "Charging" then Some(BATTERY_STATUS_CHARGING)
    else if text == "Discharging" then Some(BATTERY_STATUS_DISCHARGING)
    else if text == "Full" then Some(BATTERY_STATUS_FULL)
    else if text == "Not Charging" then Some(BATTERY_STATUS_NOT_CHARGING)
    else None
  }

  /** The inverse of `BatteryHealthText` on the codes it recognises. */
  function BatteryHealthCode(text: string): Option<int>
  {
    if text == "Good" then Some(BATTERY_HEALTH_GOOD)
    else if text == "Overheat" then Some(BATTERY_HEALTH_OVERHEAT)
    else if text == "Dead" then Some(BATTERY_HEALTH_DEAD)
    else if text == "Over Voltage" then Some(BATTERY_HEALTH_OVER_VOLTAGE)
    else if text == "Unspecified Failure" then Some(BATTERY_HEALTH_UNSPECIFIED_FAILURE)
    else if text == "Cold" then Some(BATTERY_HEALTH_COLD)
    else None
  }

  /** The inverse of `ChargingSourceText` on the codes it recognises. */
  function ChargingSourceCode(text: string): Option<int>
  {
    if text == "AC" then Some(BATTERY_PLUGGED_AC)
    else if text == "USB" then Some(BATTERY_PLUGGED_USB)
    else if text == "Wireless" then Some(BATTERY_PLUGGED_WIRELESS)
    else None
  }

  /**
   * The three decoders are total, send every unrecognised code to its
   * fallback ("Unknown", "Unknown", "Not Charging") and are invertible on
   * the codes they recognise, so no two recognised codes share a text.
   */
  lemma BatteryDecodersRoundTrip(code: int)
    ensures BatteryStatusCode(BatteryStatusText(code)) ==
              (if 2 <= code <= 5 then Some(code) else None)
    ensures BatteryStatusText(code) == UNKNOWN <==> !(2 <= code <= 5)
    ensures BatteryHealthCode(BatteryHealthText(code)) ==
              (if 2 <= code <= 7 then Some(code) else None)
    ensures BatteryHealthText(code) == UNKNOWN <==> !(2 <= code <= 7)
    ensures ChargingSourceCode(ChargingSourceText(code)) ==
              (if code in {1, 2, 4} then Some(code) else None)
    ensures ChargingSourceText(code) == "Not Charging" <==> code !in {1, 2, 4}
  {
  }

  /**
   * `temperature / 10.0f` printed by `Float.toString()`: the reading is in
   * tenths of a degree, so the text is the signed decimal with one
   * fractional digit.
   */
  function TemperatureOf(tenths: Int32): Float32
  {
    var a := Abs(tenths);
    Float32((if tenths < 0 then "-" else "") + Fixed1(a))
  }

  /** `collectBatteryInfo`. */
  function CollectBatteryInfo(intent: Option<BatteryIntent>): (info: BatteryInfo)
    ensures info.level == BatteryPercent(IntExtra(intent, EXTRA_LEVEL), IntExtra(intent, EXTRA_SCALE))
    ensures info.status == BatteryStatusText(IntExtra(intent, EXTRA_STATUS))
    ensures info.health == BatteryHealthText(IntExtra(intent, EXTRA_HEALTH))
    ensures info.chargingSource == ChargingSourceText(IntExtra(intent, EXTRA_PLUGGED))
    ensures info.isCharging <==> IntExtra(intent, EXTRA_STATUS) == BATTERY_STATUS_CHARGING
    ensures info.isCharging <==> info.status == "Charging"
    ensures intent.None? ==>
              && info.level == -1 && info.voltage == -1 && info.status == UNKNOWN
              && info.health == UNKNOWN && info.technology == UNKNOWN
              && info.chargingSource == "Not Charging" && !info.isCharging
  {
    var level := IntExtra(intent, EXTRA_LEVEL);
    var scale := IntExtra(intent, EXTRA_SCALE);
    var status := IntExtra(intent, EXTRA_STATUS);
    var technology :=
      if intent.Some? && EXTRA_TECHNOLOGY in intent.value.stringExtras
      then intent.value.stringExtras[EXTRA_TECHNOLOGY] else UNKNOWN;
    BatteryInfo(
      level := BatteryPercent(level, scale),
      status := BatteryStatusText(status),
      health := BatteryHealthText(IntExtra(intent, EXTRA_HEALTH)),
      temperature := TemperatureOf(IntExtra(intent, EXTRA_TEMPERATURE)),
      voltage := IntExtra(intent, EXTRA_VOLTAGE),
      technology := technology,
      isCharging := status == BATTERY_STATUS_CHARGING,
      chargingSource := ChargingSourceText(IntExtra(intent, EXTRA_PLUGGED)))
  }

  // ---------------------------------------------------------------------
  // Display.

  const DENSITY_BOUNDS: seq<int> := [120, 160, 240, 320, 480, 640]
  const DENSITY_NAMES: seq<string> := ["LDPI", "MDPI", "HDPI", "XHDPI", "XXHDPI", "XXXHDPI", "ULTRA_HIGH"]

  /** The density class of `collectDisplayInfo`: the first upper bound the dpi does not exceed. */
  function DensityBucket(dpi: int): string
  {
    if dpi <= 120 then "LDPI"
    else if dpi <= 160 then "MDPI"
    else if dpi <= 240 then "HDPI"
    else if dpi <= 320 then "XHDPI"
    else if dpi <= 480 then "XXHDPI"
    else if dpi <= 640 then "XXXHDPI"
    else "ULTRA_HIGH"
  }

  /** The number of bounds in `DENSITY_BOUNDS[from..]`'s prefix that `dpi` exceeds. */
  function BoundsExceeded(dpi: int, from: nat): (k: nat)
    requires from <= |DENSITY_BOUNDS|
    ensures from + k <= |DENSITY_BOUNDS|
    ensures forall i :: from <= i < from + k ==> dpi > DENSITY_BOUNDS[i]
    ensures from + k < |DENSITY_BOUNDS| ==> dpi <= DENSITY_BOUNDS[from + k]
    decreases |DENSITY_BOUNDS| - from
  {
    if from == |DENSITY_BOUNDS| || dpi <= DENSITY_BOUNDS[from] then 0
    else 1 + BoundsExceeded(dpi, from + 1)
  }

  /**
   * The bucket is the name at the index of the first bound not exceeded
   * (the top name when all are exceeded), and a higher density never gets
   * a lower bucket.
   */
  lemma {:induction false} DensityBucketByFirstBound(dpi: int, other: int)
    ensures DensityBucket(dpi) == DENSITY_NAMES[BoundsExceeded(dpi, 0)]
    ensures dpi <= other ==> BoundsExceeded(dpi, 0) <= BoundsExceeded(other, 0)
  {
  }

  lemma DensityBucketExamples()
    ensures DensityBucket(160) == "MDPI" && DensityBucket(161) == "HDPI"
    ensures DensityBucket(480) == "XXHDPI" && DensityBucket(641) == "ULTRA_HIGH"
  {
  }

  const ORIENTATION_PORTRAIT: int := 1
  const ORIENTATION_LANDSCAPE: int := 2

  /**
   * What `collectDisplayInfo` reads.  `screenSizeText` is the `"%.1f\""`
   * rendering of the diagonal, which is floating-point work done outside
   * this model.
   */
  datatype DisplayReadings = DisplayReadings(
    widthPixels: Int32, heightPixels: Int32, densityDpi: Int32, sdkInt: Int32,
    displayRefreshRate: Float32, screenSizeText: string, orientation: Int32)

  /** `collectDisplayInfo`. */
  function CollectDisplayInfo(r: DisplayReadings): (info: DisplayInfo)
    ensures info.screenResolution == IntToString(r.widthPixels) + " x " + IntToString(r.heightPixels)
    ensures info.screenDensityDpi == DensityBucket(r.densityDpi)
    ensures r.sdkInt < SDK_M ==> info.refreshRate == Float32("60.0")
    ensures info.orientation == UNKNOWN <==> r.orientation !in {1, 2}
  {
    DisplayInfo(
      screenResolution := IntToString(r.widthPixels) + " x " + IntToString(r.heightPixels),
      screenDensity := r.densityDpi,
      screenDensityDpi := DensityBucket(r.densityDpi),
      refreshRate := if r.sdkInt >= SDK_M then r.displayRefreshRate else Float32("60.0"),
      screenSize := r.screenSizeText,
      orientation :=
        if r.orientation == ORIENTATION_PORTRAIT then "Portrait"
        else if r.orientation == ORIENTATION_LANDSCAPE then "Landscape"
        else UNKNOWN)
  }

  // ---------------------------------------------------------------------
  // Network.

  const TRANSPORT_CELLULAR: int := 0
  const TRANSPORT_WIFI: int := 1
  const TRANSPORT_ETHERNET: int := 3

  /** The transports `NetworkCapabilities.hasTransport` reports for the active network. */
  datatype Capabilities = Capabilities(transports: set<int>)

  /** `WifiManager.connectionInfo`: SSID, packed IPv4 address and RSSI. */
  datatype WifiConnection = WifiConnection(ssid: Option<string>, ipAddress: Int32, rssi: Int32)

  /** A `java.net.NetworkInterface`: its name and hardware address. */
  datatype NetInterface = NetInterface(name: string, hardwareAddress: Option<seq<Int8>>)

  /**
   * What `collectNetworkInfo` reads.  `capabilities` is `NotFound` when
   * `getNetworkCapabilities` returns null and `Failed` when the lookup
   * throws; `connection` is only read on Wi-Fi (`NotFound` and `Failed`
   * both end in the catch); `interfaces` is the interface enumeration.
   */
  datatype NetworkReadings = NetworkReadings(
    wifiEnabled: bool, capabilities: Lookup<Capabilities>,
    connection: Lookup<WifiConnection>, interfaces: Lookup<seq<NetInterface>>)

  /** The transport classification: Wi-Fi over cellular over Ethernet. */
  function NetworkTypeOf(caps: Lookup<Capabilities>): string
  {
    if !caps.Found? then UNKNOWN
    else if TRANSPORT_WIFI in caps.value.transports then "WiFi"
    else if TRANSPORT_CELLULAR in caps.value.transports then "Mobile Data"
    else if TRANSPORT_ETHERNET in caps.value.transports then "Ethernet"
    else UNKNOWN
  }

  /** `ipInt shr (8 * k) and 0xff`: byte k of the packed address, low byte first (`shr` is a floor division). */
  function Octet(ip: Int32, k: nat): (b: nat)
    requires k < 4
    ensures b < 256
  {
    (if k == 0 then ip else if k == 1 then ip / 256 else if k == 2 then ip / 256 / 256 else ip / 256 / 256 / 256) % 256
  }

  /** `String.format("%d.%d.%d.%d", ...)` of the four octets. */
  function Ipv4Text(ip: Int32): string
  {
    IntToString(Octet(ip, 0)) + "." + IntToString(Octet(ip, 1)) + "."
      + IntToString(Octet(ip, 2)) + "." + IntToString(Octet(ip, 3))
  }

  /** The `Int` that holds the four octets, low byte first. */
  function PackIpv4(a: nat, b: nat, c: nat, d: nat): Int32
    requires a < 256 && b < 256 && c < 256 && d < 256
  {
    WrapInt(a + 0x100 * b + 0x1_0000 * c + 0x100_0000 * d)
  }

  /** The four octets and the bits shifted out above them make up the address. */
  lemma OctetsRebuild(ip: Int32)
    ensures ip == Octet(ip, 0) + 0x100 * Octet(ip, 1) + 0x1_0000 * Octet(ip, 2)
                  + 0x100_0000 * Octet(ip, 3) + 0x1_0000_0000 * (ip / 256 / 256 / 256 / 256)
  {
    var s1 := ip / 256;
    var s2 := s1 / 256;
    var s3 := s2 / 256;
    assert ip == ip % 256 + 256 * s1;
    assert s1 == s1 % 256 + 256 * s2;
    assert s2 == s2 % 256 + 256 * s3;
    assert s3 == s3 % 256 + 256 * (s3 / 256);
  }

  /** Packing the octets of any address gives the address back. */
  lemma PackOfOctets(ip: Int32)
    ensures PackIpv4(Octet(ip, 0), Octet(ip, 1), Octet(ip, 2), Octet(ip, 3)) == ip
  {
    OctetsRebuild(ip);
    var t := ip / 256 / 256 / 256 / 256;
    var x := Octet(ip, 0) + 0x100 * Octet(ip, 1) + 0x1_0000 * Octet(ip, 2) + 0x100_0000 * Octet(ip, 3);
    assert x == ip - 0x1_0000_0000 * t;
    assert 0 <= x < 0x1_0000_0000;
    assert t == 0 || t == -1;
  }

  /** Unpacking a packed quadruple gives the quadruple back. */
  lemma OctetsOfPack(a: nat, b: nat, c: nat, d: nat)
    requires a < 256 && b < 256 && c < 256 && d < 256
    ensures var p := PackIpv4(a, b, c, d);
      Octet(p, 0) == a && Octet(p, 1) == b && Octet(p, 2) == c && Octet(p, 3) == d
  {
    var x := a + 0x100 * b + 0x1_0000 * c + 0x100_0000 * d;
    var p := PackIpv4(a, b, c, d);
    var h := if x < 0x8000_0000 then 0 else 1;
    assert p == x - 0x1_0000_0000 * h;
    var q1 := b + 0x100 * c + 0x1_0000 * d - 0x100_0000 * h;
    assert p == a + 256 * q1;
    assert p / 256 == q1 && p % 256 == a;
    var q2 := c + 0x100 * d - 0x1_0000 * h;
    assert q1 == b + 256 * q2;
    assert q1 / 256 == q2 && q1 % 256 == b;
    var q3 := d - 0x100 * h;
    assert q2 == c + 256 * q3;
    assert q2 / 256 == q3 && q2 % 256 == c;
    assert q3 % 256 == d;
  }

  lemma Ipv4Loopback()
    ensures Ipv4Text(0x0100007F) == "127.0.0.1"
  {
    assert Octet(0x0100007F, 0) == 127 && Octet(0x0100007F, 1) == 0;
    assert Octet(0x0100007F, 2) == 0 && Octet(0x0100007F, 3) == 1;
    assert NatToString(127) == "127" by {
      assert NatToString(12) == "12" by { assert NatToString(1) == "1"; }
    }
  }

  /** ASCII upper-casing (`"wlan0"` has no letter with a non-ASCII case partner). */
  function UpperAscii(c: char): char
  {
    if 'a' <= c <= 'z' then (c as int - 32) as char else c
  }

  /** `name.equals("wlan0", ignoreCase = true)`. */
  predicate IsWlan0(name: string)
  {
    var w := "wlan0";
    |name| == |w| && forall i :: 0 <= i < |w| ==> UpperAscii(name[i]) == UpperAscii(w[i])
  }

  /** The index of the first interface named wlan0 (ignoring case), or |ifs| if there is none. */
  function FirstWlan0(ifs: seq<NetInterface>): (k: nat)
    ensures k <= |ifs|
    ensures forall i :: 0 <= i < k ==> !IsWlan0(ifs[i].name)
    ensures k < |ifs| ==> IsWlan0(ifs[k].name)
  {
    if ifs == [] then 0
    else if IsWlan0(ifs[0].name) then 0
    else 1 + FirstWlan0(ifs[1..])
  }

  /** `joinToString(":") { "%02x".format(it) }.uppercase()`. */
  function FormatMac(bytes: seq<Int8>): string
  {
    JoinToString(seq(|bytes|, i requires 0 <= i < |bytes| => HexByte(bytes[i])), ":")
  }

  /**
   * The MAC text of `collectNetworkInfo`: the hardware address of the
   * first wlan0 interface, or null when there is none, it has no address,
   * or the enumeration returns null or throws.
   */
  function MacAddress(interfaces: Lookup<seq<NetInterface>>): (mac: Option<string>)
    ensures mac.Some? <==> interfaces.Found?
                           && FirstWlan0(interfaces.value) < |interfaces.value|
                           && interfaces.value[FirstWlan0(interfaces.value)].hardwareAddress.Some?
    ensures mac.Some? ==>
              mac.value == FormatMac(interfaces.value[FirstWlan0(interfaces.value)].hardwareAddress.value)
  {
    if interfaces.Found? then
      var k := FirstWlan0(interfaces.value);
      if k < |interfaces.value| && interfaces.value[k].hardwareAddress.Some? then
        Some(FormatMac(interfaces.value[k].hardwareAddress.value))
      else None
    else None
  }

  /**
   * Layout of a MAC text: two upper-case hex digits per byte whose value
   * is the byte (mod 256), separated by ':' — so the text has 3n − 1
   * characters for n bytes and determines the bytes.
   */
  lemma {:induction false} FormatMacLayout(bytes: seq<Int8>)
    requires |bytes| > 0
    ensures |FormatMac(bytes)| == 3 * |bytes| - 1
    ensures forall k :: 0 <= k < |bytes| ==> FormatMac(bytes)[3 * k..3 * k + 2] == HexByte(bytes[k])
    ensures forall k :: 0 <= k < |bytes| - 1 ==> FormatMac(bytes)[3 * k + 2] == ':'
  {
    if |bytes| > 1 {
      var rest := bytes[1..];
      FormatMacLayout(rest);
      FormatMacCons(bytes);
      var m := FormatMac(bytes);
      var p := HexByte(bytes[0]) + ":";
      assert m == p + FormatMac(rest) && |p| == 3;
      forall k | 0 <= k < |bytes|
        ensures m[3 * k..3 * k + 2] == HexByte(bytes[k])
      {
        if k > 0 {
          SliceAfterPrefix(p, FormatMac(rest), 3 * (k - 1), 3 * (k - 1) + 2);
          assert rest[k - 1] == bytes[k];
        }
      }
      forall k | 0 <= k < |bytes| - 1
        ensures m[3 * k + 2] == ':'
      {
        if k > 0 {
          assert m[3 * k + 2] == FormatMac(rest)[3 * (k - 1) + 2];
        }
      }
    } else {
      assert FormatMac(bytes) == HexByte(bytes[0]);
    }
  }

  /** The MAC text of two or more bytes: the first byte's digits, ':', and the rest's text. */
  lemma FormatMacCons(bytes: seq<Int8>)
    requires |bytes| > 1
    ensures FormatMac(bytes) == HexByte(bytes[0]) + ":" + FormatMac(bytes[1..])
  {
    var parts := seq(|bytes|, i requires 0 <= i < |bytes| => HexByte(bytes[i]));
    var rest := bytes[1..];
    var restParts := seq(|rest|, i requires 0 <= i < |rest| => HexByte(rest[i]));
    assert parts[1..] == restParts;
  }

  /** A slice behind a prefix is the same slice of what follows the prefix. */
  lemma SliceAfterPrefix(p: string, r: string, i: nat, j: nat)
    requires i <= j <= |r|
    ensures (p + r)[|p| + i..|p| + j] == r[i..j]
  {
  }

  /** Different hardware addresses never render to the same MAC text. */
  lemma FormatMacInjective(a: seq<Int8>, b: seq<Int8>)
    requires FormatMac(a) == FormatMac(b)
    ensures a == b
  {
    if a == [] || b == [] {
      if a != [] { FormatMacLayout(a); }
      if b != [] { FormatMacLayout(b); }
    } else {
      FormatMacLayout(a);
      FormatMacLayout(b);
      assert |a| == |b|;
      forall k | 0 <= k < |a|
        ensures a[k] == b[k]
      {
        var m := FormatMac(a);
        assert HexByte(a[k]) == m[3 * k..3 * k + 2] == HexByte(b[k]);
        HexByteInjective(a[k], b[k]);
      }
    }
  }

  /** The network facet that `collectNetworkInfo` returns. */
  function NetworkInfoOf(r: NetworkReadings): NetworkInfo
  {
    var networkType := NetworkTypeOf(r.capabilities);
    var onWifi := networkType == "WiFi";
    var conn := if onWifi && r.connection.Found? then Some(r.connection.value) else None;
    NetworkInfo(
      wifiEnabled := r.wifiEnabled,
      wifiConnected := onWifi,
      wifiSSID :=
        if conn.Some? && conn.value.ssid.Some? then Some(RemoveChar(conn.value.ssid.value, '"')) else None,
      ipAddress := if conn.Some? then Some(Ipv4Text(conn.value.ipAddress)) else None,
      macAddress := MacAddress(r.interfaces),
      networkType := networkType,
      signalStrength := if conn.Some? then Some(conn.value.rssi) else None)
  }

  /** `collectNetworkInfo`, assigning its local variables branch by branch as the Kotlin code does. */
  method CollectNetworkInfo(r: NetworkReadings) returns (info: NetworkInfo)
    ensures info == NetworkInfoOf(r)
  {
    var wifiEnabled := r.wifiEnabled;
    var wifiConnected := false;
    var wifiSSID: Option<string> := None;
    var ipAddress: Option<string> := None;
    var networkType := UNKNOWN;
    var signalStrength: Option<Int32> := None;

    if r.capabilities.Found? {
      var transports := r.capabilities.value.transports;
      if TRANSPORT_WIFI in transports {
        networkType := "WiFi";
        wifiConnected := true;
        // Reading the connection info may throw; the catch keeps what was set so far.
        if r.connection.Found? {
          var wifiInfo := r.connection.value;
          wifiSSID := if wifiInfo.ssid.Some? then Some(RemoveChar(wifiInfo.ssid.value, '"')) else None;
          ipAddress := Some(Ipv4Text(wifiInfo.ipAddress));
          signalStrength := Some(wifiInfo.rssi);
        }
      } else if TRANSPORT_CELLULAR in transports {
        networkType := "Mobile Data";
      } else if TRANSPORT_ETHERNET in transports {
        networkType := "Ethernet";
      }
    }

    var macAddress := MacAddress(r.interfaces);
    info := NetworkInfo(wifiEnabled, wifiConnected, wifiSSID, ipAddress, macAddress,
                        networkType, signalStrength);
  }

  /**
   * The classification follows the transport priority; only the Wi-Fi
   * branch sets `wifiConnected`, the SSID (without any '"'), the IP and
   * the signal, and the IP and the signal are set together.
   */
  lemma NetworkFacts(r: NetworkReadings)
    ensures var n := NetworkInfoOf(r);
      && (n.networkType == "WiFi" <==> r.capabilities.Found? && TRANSPORT_WIFI in r.capabilities.value.transports)
      && (n.networkType == "Mobile Data" <==>
            && r.capabilities.Found?
            && TRANSPORT_WIFI !in r.capabilities.value.transports
            && TRANSPORT_CELLULAR in r.capabilities.value.transports)
      && (n.networkType == "Ethernet" <==>
            && r.capabilities.Found?
            && TRANSPORT_WIFI !in r.capabilities.value.transports
            && TRANSPORT_CELLULAR !in r.capabilities.value.transports
            && TRANSPORT_ETHERNET in r.capabilities.value.transports)
      && (n.wifiConnected <==> n.networkType == "WiFi")
      && (n.wifiSSID.Some? || n.ipAddress.Some? || n.signalStrength.Some? ==> n.wifiConnected)
      && (n.ipAddress.Some? <==> n.signalStrength.Some?)
      && (n.wifiSSID.Some? ==> '"' !in n.wifiSSID.value)
      && (n.ipAddress.Some? ==> r.connection.Found? && n.ipAddress.value == Ipv4Text(r.connection.value.ipAddress))
  {
  }

  // ---------------------------------------------------------------------
  // Sensors (android.hardware.Sensor).

  /** The `Sensor.TYPE_*` codes and the names `getSensorTypeName` gives them. */
  const SENSOR_NAMES: map<int, string> := map[
    1 := "Accelerometer", 2 := "Magnetometer", 3 := "Orientation", 4 := "Gyroscope",
    5 := "Light", 6 := "Pressure", 7 := "Temperature", 8 := "Proximity",
    9 := "Gravity", 10 := "Linear Acceleration", 11 := "Rotation Vector",
    12 := "Humidity", 13 := "Ambient Temperature"]

  const UNKNOWN_SENSOR_PREFIX: string := "Unknown ("

  /** `getSensorTypeName`: a known type's name, else `"Unknown (<code>)"`. */
  function SensorTypeName(code: Int32): (name: string)
    ensures code in SENSOR_NAMES ==> name == SENSOR_NAMES[code]
    ensures code !in SENSOR_NAMES ==> name == UNKNOWN_SENSOR_PREFIX + IntToString(code) + ")"
  {
    if code == 1 then "Accelerometer"
    else if code == 4 then "Gyroscope"
    else if code == 2 then "Magnetometer"
    else if code == 8 then "Proximity"
    else if code == 5 then "Light"
    else if code == 6 then "Pressure"
    else if code == 7 then "Temperature"
    else if code == 12 then "Humidity"
    else if code == 11 then "Rotation Vector"
    else if code == 10 then "Linear Acceleration"
    else if code == 9 then "Gravity"
    else if code == 3 then "Orientation"
    else if code == 13 then "Ambient Temperature"
    else UNKNOWN_SENSOR_PREFIX + IntToString(code) + ")"
  }

  /** Reads a type code back from a sensor type name. */
  function SensorTypeCode(name: string): Option<int>
  {
    var known := KnownSensorCode(name);
    if known.Some? then known
    else if |name| > |UNKNOWN_SENSOR_PREFIX| && name[..|UNKNOWN_SENSOR_PREFIX|] == UNKNOWN_SENSOR_PREFIX
            && name[|name| - 1] == ')' then
      var n := ParseLong(name[|UNKNOWN_SENSOR_PREFIX|..|name| - 1]);
      if n.Some? then Some(n.value as int) else None
    else None
  }

  /** The code whose table entry is `name`, if any. */
  function KnownSensorCode(name: string): (code: Option<int>)
    ensures code.Some? ==> code.value in SENSOR_NAMES && SENSOR_NAMES[code.value] == name
  {
    if name == "Accelerometer" then Some(1)
    else if name == "Magnetometer" then Some(2)
    else if name == "Orientation" then Some(3)
    else if name == "Gyroscope" then Some(4)
    else if name == "Light" then Some(5)
    else if name == "Pressure" then Some(6)
    else if name == "Temperature" then Some(7)
    else if name == "Proximity" then Some(8)
    else if name == "Gravity" then Some(9)
    else if name == "Linear Acceleration" then Some(10)
    else if name == "Rotation Vector" then Some(11)
    else if name == "Humidity" then Some(12)
    else if name == "Ambient Temperature" then Some(13)
    else None
  }

  /** Every type code, known or not, can be read back from its name, so distinct codes get distinct names. */
  lemma SensorTypeNameRoundTrip(code: Int32)
    ensures SensorTypeCode(SensorTypeName(code)) == Some(code)
  {
    if code in SENSOR_NAMES {
      KnownSensorTypeRoundTrip(code);
    } else {
      UnknownSensorTypeRoundTrip(code);
    }
  }

  lemma KnownSensorTypeRoundTrip(code: Int32)
    requires code in SENSOR_NAMES
    ensures SensorTypeCode(SensorTypeName(code)) == Some(code)
  {
    if code <= 7 {
      KnownLowRoundTrip(code);
    } else {
      KnownHighRoundTrip(code);
    }
  }

  lemma KnownLowRoundTrip(code: Int32)
    requires 1 <= code <= 7
    ensures KnownSensorCode(SensorTypeName(code)) == Some(code)
  {
    if code == 1 {
      assert SensorTypeName(1) == "Accelerometer";
    } else if code == 2 {
      assert SensorTypeName(2) == "Magnetometer";
    } else if code == 3 {
      assert SensorTypeName(3) == "Orientation";
    } else if code == 4 {
      assert SensorTypeName(4) == "Gyroscope";
    } else if code == 5 {
      assert SensorTypeName(5) == "Light";
    } else if code == 6 {
      assert SensorTypeName(6) == "Pressure";
    } else {
      assert SensorTypeName(7) == "Temperature";
    }
  }

  lemma KnownHighRoundTrip(code: Int32)
    requires 8 <= code <= 13
    ensures KnownSensorCode(SensorTypeName(code)) == Some(code)
  {
    if code == 8 {
      assert SensorTypeName(8) == "Proximity";
    } else if code == 9 {
      assert SensorTypeName(9) == "Gravity";
    } else if code == 10 {
      assert SensorTypeName(10) == "Linear Acceleration";
    } else if code == 11 {
      assert SensorTypeName(11) == "Rotation Vector";
    } else if code == 12 {
      assert SensorTypeName(12) == "Humidity";
    } else {
      assert SensorTypeName(13) == "Ambient Temperature";
    }
  }

  lemma UnknownSensorTypeRoundTrip(code: Int32)
    requires code !in SENSOR_NAMES
    ensures SensorTypeCode(SensorTypeName(code)) == Some(code)
  {
    var name := SensorTypeName(code);
    var digits := IntToString(code);
    assert name[..|UNKNOWN_SENSOR_PREFIX|] == UNKNOWN_SENSOR_PREFIX;
    assert name[0] == 'U';
    assert KnownSensorCode(name) == None;
    assert name[|UNKNOWN_SENSOR_PREFIX|..|name| - 1] == digits;
    ParseLongOfIntToString(code);
  }

  /** The platform's description of one sensor (`power`, `resolution`, `maximumRange` are floats). */
  datatype RawSensor = RawSensor(
    name: string, typeCode: Int32, vendor: string, version: Int32,
    power: Float32, resolution: Float32, maximumRange: Float32)

  /** `collectSensorInfo`: one entry per sensor, in the platform's order, with its type named. */
  function CollectSensorInfo(raw: seq<RawSensor>): (info: SensorInfo)
    ensures |info.sensors| == |raw|
    ensures forall i :: 0 <= i < |raw| ==>
              info.sensors[i].name == raw[i].name && info.sensors[i].vendor == raw[i].vendor
              && info.sensors[i].typeName == SensorTypeName(raw[i].typeCode)
              && info.sensors[i].version == raw[i].version
  {
    SensorInfo(seq(|raw|, i requires 0 <= i < |raw| =>
      SensorData(raw[i].name, SensorTypeName(raw[i].typeCode), raw[i].vendor, raw[i].version,
                 raw[i].power, raw[i].resolution, raw[i].maximumRange)))
  }

  // ---------------------------------------------------------------------
  // Cameras.

  const LENS_FACING_FRONT: int := 0
  const LENS_FACING_BACK: int := 1
  const LENS_FACING_EXTERNAL: int := 2
  const CAMERA_FACING_BACK: int := 0
  const CAMERA_FACING_FRONT: int := 1

  /** An `android.util.Size` of a JPEG output. */
  datatype Size = Size(width: Int32, height: Int32)

  /** `width * height` in `Int` arithmetic: the selector of `maxByOrNull`. */
  function Area(s: Size): Int32 { WrapInt(s.width * s.height) }

  /** `"${width}x${height}"`. */
  function SizeText(s: Size): string { IntToString(s.width) + "x" + IntToString(s.height) }

  /** The index `maxByOrNull { it.width * it.height }` picks: the first size of largest area. */
  function LargestSizeIndex(sizes: seq<Size>): (k: nat)
    requires |sizes| > 0
    ensures k < |sizes|
    ensures forall j :: 0 <= j < |sizes| ==> Area(sizes[j]) <= Area(sizes[k])
    ensures forall j :: 0 <= j < k ==> Area(sizes[j]) < Area(sizes[k])
  {
    if |sizes| == 1 then 0
    else
      var k := LargestSizeIndex(sizes[..|sizes| - 1]);
      if Area(sizes[k]) < Area(sizes[|sizes| - 1]) then |sizes| - 1 else k
  }

  /**
   * `String.format("%.1f MP", pixels / 1000000.0)`: the pixel count in
   * millions, rounded half-up to one decimal, '.' as separator.
   */
  function MegapixelText(pixels: Int32): (text: string)
    ensures |text| >= 3 && text[|text| - 3..] == " MP"
  {
    var tenths := RoundHalfUp(Abs(pixels), 100000);
    (if pixels < 0 then "-" else "") + Fixed1(tenths) + " MP"
  }

  /**
   * The figure before `" MP"`: a minus sign exactly for a negative count,
   * then a one-decimal number whose digits read back as the pixel count's
   * magnitude in tenths of a million, rounded half up.
   */
  lemma MegapixelTextValue(pixels: Int32)
    ensures var text := MegapixelText(pixels);
      var body := text[..|text| - 3];
      && |body| >= 3 && (body[0] == '-' <==> pixels < 0)
      && var num := if pixels < 0 then body[1..] else body;
         && |num| >= 3 && num[|num| - 2] == '.' && AllDigits(num[..|num| - 2]) && IsDigit(num[|num| - 1])
         && DigitsValue(num[..|num| - 2]) * 10 + (num[|num| - 1] as int - '0' as int)
              == RoundHalfUp(Abs(pixels), 100000)
  {
    var f := Fixed1(RoundHalfUp(Abs(pixels), 100000));
    var sign := if pixels < 0 then "-" else "";
    var text := MegapixelText(pixels);
    assert text == sign + f + " MP";
    assert text[..|text| - 3] == sign + f;
    assert (sign + f)[|sign|..] == f;
    assert f[..|f| - 2][0] == f[0];
  }

  /** `LENS_FACING` decoded; a missing or unrecognised value is "Unknown". */
  function LensFacingText(facing: Option<Int32>): string
  {
    if facing == Some(LENS_FACING_FRONT as Int32) then "Front"
    else if facing == Some(LENS_FACING_BACK as Int32) then "Back"
    else if facing == Some(LENS_FACING_EXTERNAL as Int32) then "External"
    else UNKNOWN
  }

  /** `Camera.CameraInfo.facing` decoded (note: back is 0 and front is 1 here). */
  function LegacyFacingText(facing: Int32): string
  {
    if facing == CAMERA_FACING_FRONT then "Front"
    else if facing == CAMERA_FACING_BACK then "Back"
    else UNKNOWN
  }

  /** What the camera2 API reports for one camera id; `jpegSizes` is null when no map or sizes exist. */
  datatype CameraCharacteristics = CameraCharacteristics(
    id: string, lensFacing: Option<Int32>, jpegSizes: Option<seq<Size>>)

  /** The camera entry built from camera2 characteristics. */
  /** `jpegSizes?.map { "${it.width}x${it.height}" } ?: emptyList()`. */
  function ResolutionTexts(sizes: Option<seq<Size>>): seq<string>
  {
    if sizes.Some? then seq(|sizes.value|, k requires 0 <= k < |sizes.value| => SizeText(sizes.value[k]))
    else []
  }

  /** The megapixels of the largest JPEG size, or "Unknown" without any. */
  function MegapixelsOf(sizes: Option<seq<Size>>): string
  {
    if sizes.Some? && sizes.value != [] then MegapixelText(Area(sizes.value[LargestSizeIndex(sizes.value)]))
    else UNKNOWN
  }

  /** The camera entry built from camera2 characteristics. */
  function Camera2Data(c: CameraCharacteristics): CameraData
  {
    CameraData(c.id, LensFacingText(c.lensFacing), MegapixelsOf(c.jpegSizes), ResolutionTexts(c.jpegSizes))
  }

  /**
   * A camera2 entry lists every JPEG size as `WxH` in the platform's order
   * and gives the megapixels of the first largest one; without sizes it
   * says "Unknown".
   */
  lemma Camera2DataFacts(c: CameraCharacteristics)
    ensures var cam := Camera2Data(c);
      && cam.id == c.id && cam.facing == LensFacingText(c.lensFacing)
      && (c.jpegSizes.None? ==> cam.supportedResolutions == [])
      && (c.jpegSizes.Some? ==>
            && |cam.supportedResolutions| == |c.jpegSizes.value|
            && forall k :: 0 <= k < |c.jpegSizes.value| ==>
                 cam.supportedResolutions[k] == SizeText(c.jpegSizes.value[k]))
      && (cam.megapixels == UNKNOWN <==> c.jpegSizes.None? || c.jpegSizes.value == [])
      && (c.jpegSizes.Some? && c.jpegSizes.value != [] ==>
            cam.megapixels == MegapixelText(Area(c.jpegSizes.value[LargestSizeIndex(c.jpegSizes.value)])))
  {
    var cam := Camera2Data(c);
    if c.jpegSizes.Some? && c.jpegSizes.value != [] {
      var m := cam.megapixels;
      assert m[|m| - 1] == 'P';
    }
  }

  /** The number of leading entries that were read before the first failure (`None`). */
  function ReadPrefix<T>(xs: seq<Option<T>>): (n: nat)
    ensures n <= |xs|
    ensures forall i :: 0 <= i < n ==> xs[i].Some?
    ensures n < |xs| ==> xs[n].None?
  {
    if xs == [] || xs[0].None? then 0 else 1 + ReadPrefix(xs[1..])
  }

  /**
   * What `collectCameraInfo` reads.  On API 21 and later: the camera2
   * characteristics of each id in order, `None` where the lookup throws
   * (which ends the loop in the catch).  Before that: the legacy facing of
   * camera 0, 1, ..., `None` where `getCameraInfo` throws.
   */
  datatype CameraReadings = CameraReadings(
    sdkInt: Int32, camera2: seq<Option<CameraCharacteristics>>, legacy: seq<Option<Int32>>)

  /** The cameras of the camera2 loop: one per id read before the first failure. */
  function Camera2Cameras(xs: seq<Option<CameraCharacteristics>>): seq<CameraData>
  {
    var n := ReadPrefix(xs);
    seq(n, i requires 0 <= i < n => Camera2Data(xs[i].value))
  }

  /** The camera of the legacy loop for camera number `i` facing `facing`. */
  function LegacyCamera(i: nat, facing: Int32): CameraData
  {
    CameraData(IntToString(i), LegacyFacingText(facing), UNKNOWN, [])
  }

  /** The cameras of the legacy loop: numbers 0, 1, ... up to the first failure. */
  function LegacyCameras(xs: seq<Option<Int32>>): seq<CameraData>
  {
    var n := ReadPrefix(xs);
    seq(n, i requires 0 <= i < n => LegacyCamera(i, xs[i].value))
  }

  /** The camera facet that `collectCameraInfo` returns. */
  function CameraInfoOf(r: CameraReadings): CameraInfo
  {
    if r.sdkInt >= SDK_LOLLIPOP then CameraInfo(Camera2Cameras(r.camera2))
    else CameraInfo(LegacyCameras(r.legacy))
  }

  /** The camera2 `for` loop over the camera ids, appending to a mutable list. */
  method CollectCamera2(xs: seq<Option<CameraCharacteristics>>) returns (cameras: seq<CameraData>)
    ensures cameras == Camera2Cameras(xs)
  {
    cameras := [];
    var i := 0;
    while i < |xs|
      invariant 0 <= i <= ReadPrefix(xs)
      invariant cameras == seq(i, k requires 0 <= k < i => Camera2Data(xs[k].value))
    {
      if xs[i].None? {
        break;
      }
      var camera := Camera2Data(xs[i].value);
      cameras := cameras + [camera];
      i := i + 1;
    }
  }

  /** The legacy `for` loop over `Camera.getNumberOfCameras()`. */
  method CollectLegacyCameras(xs: seq<Option<Int32>>) returns (cameras: seq<CameraData>)
    ensures cameras == LegacyCameras(xs)
  {
    cameras := [];
    var i := 0;
    while i < |xs|
      invariant 0 <= i <= ReadPrefix(xs)
      invariant |cameras| == i
      invariant forall k :: 0 <= k < i ==> cameras[k] == LegacyCamera(k, xs[k].value)
    {
      if xs[i].None? {
        break;
      }
      cameras := cameras + [LegacyCamera(i, xs[i].value)];
      i := i + 1;
    }
  }

  /** `collectCameraInfo`: the camera2 loop from API 21 on, the legacy loop before. */
  method CollectCameraInfo(r: CameraReadings) returns (info: CameraInfo)
    ensures info == CameraInfoOf(r)
  {
    var cameras;
    if r.sdkInt >= SDK_LOLLIPOP {
      cameras := CollectCamera2(r.camera2);
    } else {
      cameras := CollectLegacyCameras(r.legacy);
    }
    info := CameraInfo(cameras);
  }

  /**
   * The legacy path yields ids "0".."n-1" with no resolution data; the
   * camera2 path keeps the platform's order of ids.
   */
  lemma CameraFacts(r: CameraReadings)
    ensures var cams := CameraInfoOf(r).cameras;
      && (r.sdkInt < SDK_LOLLIPOP ==>
            |cams| == ReadPrefix(r.legacy) && |cams| <= |r.legacy|
            && forall i :: 0 <= i < |cams| ==>
                 cams[i].id == IntToString(i) && cams[i].megapixels == UNKNOWN
                 && cams[i].supportedResolutions == [])
      && (r.sdkInt >= SDK_LOLLIPOP ==>
            |cams| == ReadPrefix(r.camera2) && |cams| <= |r.camera2|
            && forall i :: 0 <= i < |cams| ==> cams[i].id == r.camera2[i].value.id)
  {
  }

  // ---------------------------------------------------------------------
  // System.

  /** `String.format("%02d", n)`: zero-padded to two characters; a negative value keeps its sign. */
  function Pad2(n: int): string
  {
    if n >= 0 then ZeroPad2(n) else "-" + NatToString(-n)
  }

  /** The uptime text `HH:MM:SS` of `collectSystemInfo`, from `elapsedRealtime()` in milliseconds. */
  function UptimeText(millis: Int64): string
  {
    var seconds := TruncDiv(millis, 1000);
    var hours := TruncDiv(seconds, 3600);
    var minutes := TruncDiv(TruncRem(seconds, 3600), 60);
    var rest := TruncRem(seconds, 60);
    Pad2(hours) + ":" + Pad2(minutes) + ":" + Pad2(rest)
  }

  /**
   * `t` is `H:MM:SS`: H at least two digits, minutes and seconds exactly
   * two digits below 60, and H·3600 + M·60 + S = `total`.
   */
  predicate ClockLayout(t: string, total: int)
  {
    && |t| >= 8 && t[|t| - 6] == ':' && t[|t| - 3] == ':'
    && AllDigits(t[..|t| - 6]) && AllDigits(t[|t| - 5..|t| - 3]) && AllDigits(t[|t| - 2..])
    && DigitsValue(t[|t| - 5..|t| - 3]) < 60 && DigitsValue(t[|t| - 2..]) < 60
    && DigitsValue(t[..|t| - 6]) * 3600 + DigitsValue(t[|t| - 5..|t| - 3]) * 60
         + DigitsValue(t[|t| - 2..]) == total
  }

  /** For a non-negative uptime the text is the clock layout of millis div 1000. */
  lemma UptimeTextFields(millis: Int64)
    requires millis >= 0
    ensures ClockLayout(UptimeText(millis), millis / 1000)
  {
    var seconds := millis / 1000;
    UptimeFields(millis);
    ClockArithmetic(seconds);
    ClockTextFields(ZeroPad2(seconds / 3600), ZeroPad2((seconds % 3600) / 60), ZeroPad2(seconds % 60), seconds);
  }

  /** A `H:MM:SS` text whose fields are digit strings, taken apart again. */
  lemma ClockTextFields(h: string, m: string, s: string, total: nat)
    requires |h| >= 2 && |m| == 2 && |s| == 2 && AllDigits(h) && AllDigits(m) && AllDigits(s)
    requires DigitsValue(m) < 60 && DigitsValue(s) < 60
    requires DigitsValue(h) * 3600 + DigitsValue(m) * 60 + DigitsValue(s) == total
    ensures ClockLayout(h + ":" + m + ":" + s, total)
  {
    var t := h + ":" + m + ":" + s;
    assert t[..|t| - 6] == h;
    assert t[|t| - 5..|t| - 3] == m;
    assert t[|t| - 2..] == s;
  }

  /** On a non-negative uptime the truncating divisions are the Euclidean ones. */
  lemma UptimeFields(millis: Int64)
    requires millis >= 0
    ensures var seconds := millis / 1000;
      UptimeText(millis) ==
        ZeroPad2(seconds / 3600) + ":" + ZeroPad2((seconds % 3600) / 60) + ":" + ZeroPad2(seconds % 60)
  {
    var seconds := TruncDiv(millis, 1000);
    assert seconds == millis / 1000;
    assert TruncDiv(seconds, 3600) == seconds / 3600 && TruncRem(seconds, 3600) == seconds % 3600;
    assert TruncDiv(TruncRem(seconds, 3600), 60) == (seconds % 3600) / 60;
    assert TruncRem(seconds, 60) == seconds % 60;
  }

  /** Hours, minutes and seconds add back up to the seconds they were taken from. */
  lemma ClockArithmetic(seconds: nat)
    ensures (seconds % 3600) / 60 < 60 && seconds % 60 < 60
    ensures (seconds / 3600) * 3600 + ((seconds % 3600) / 60) * 60 + seconds % 60 == seconds
  {
    var q, r := seconds / 3600, seconds % 3600;
    var m, s := r / 60, r % 60;
    assert r == m * 60 + s;
    assert seconds == (q * 60 + m) * 60 + s;
    DivMod60Unique(seconds, q * 60 + m, s);
  }

  /** The quotient and remainder of a division by 60 are the only ones. */
  lemma DivMod60Unique(n: int, q: int, r: int)
    requires n == q * 60 + r && 0 <= r < 60
    ensures n / 60 == q && n % 60 == r
  {
  }

  datatype SystemReadings = SystemReadings(
    elapsedRealtime: Int64, bootTimeText: string, timezoneName: string, localeName: string,
    javaVmVersion: Option<string>, javaVmName: Option<string>)

  /** `collectSystemInfo`; the boot time, time zone and locale texts are formatted by the platform. */
  function CollectSystemInfo(r: SystemReadings): (info: SystemInfo)
    ensures info.uptime == UptimeText(r.elapsedRealtime)
    ensures r.javaVmVersion.None? ==> info.javaVmVersion == UNKNOWN
    ensures r.javaVmName.None? ==> info.javaVmName == UNKNOWN
  {
    SystemInfo(UptimeText(r.elapsedRealtime), r.bootTimeText, r.timezoneName, r.localeName,
               OrUnknown(r.javaVmVersion), OrUnknown(r.javaVmName))
  }

  // ---------------------------------------------------------------------
  // The snapshot.

  /** A probe whose platform access may throw out of the probe. */
  datatype Probe<T> = Read(value: T) | Threw(message: Option<string>)

  /**
   * Everything `collectDeviceInfo` reads.  The memory, battery, display,
   * network and sensor probes call platform services outside any try, so
   * their readings may be an exception.  The camera probe catches its own
   * exceptions, and so does the CPU-frequency read of the hardware probe.
   * The overview, OS and system probes and the rest of the hardware probe have no
   * try; the model takes their platform calls as never throwing.
   */
  datatype Readings = Readings(
    overview: DeviceOverview, os: OSReadings, hardware: HardwareReadings,
    memory: Probe<MemoryReadings>, battery: Probe<Option<BatteryIntent>>,
    display: Probe<DisplayReadings>, network: Probe<NetworkReadings>,
    sensors: Probe<seq<RawSensor>>, cameras: CameraReadings, system: SystemReadings)

  /** The result of `collectDeviceInfo`: the snapshot, or the exception it lets through. */
  datatype Collection = Collected(info: DeviceInfo) | Aborted(message: Option<string>)

  /** The snapshot, or the first probe exception in the order the facets are evaluated. */
  function DeviceInfoOf(r: Readings): Collection
  {
    if r.memory.Threw? then Aborted(r.memory.message)
    else if r.battery.Threw? then Aborted(r.battery.message)
    else if r.display.Threw? then Aborted(r.display.message)
    else if r.network.Threw? then Aborted(r.network.message)
    else if r.sensors.Threw? then Aborted(r.sensors.message)
    else Collected(DeviceInfo(
      r.overview, CollectOSInfo(r.os), CollectHardwareInfo(r.hardware),
      MemoryInfoOf(r.memory.value), CollectBatteryInfo(r.battery.value),
      CollectDisplayInfo(r.display.value), NetworkInfoOf(r.network.value),
      CollectSensorInfo(r.sensors.value), CameraInfoOf(r.cameras),
      CollectSystemInfo(r.system)))
  }

  /**
   * `collectDeviceInfo`: runs the ten probes in order; an exception in a
   * probe propagates and the remaining probes do not run.
   */
  method CollectDeviceInfo(r: Readings) returns (result: Collection)
    ensures result == DeviceInfoOf(r)
  {
    var deviceOverview := r.overview;
    var osInfo := CollectOSInfo(r.os);
    var hardwareInfo := CollectHardwareInfo(r.hardware);
    if r.memory.Threw? { return Aborted(r.memory.message); }
    var memoryInfo := CollectMemoryInfo(r.memory.value);
    if r.battery.Threw? { return Aborted(r.battery.message); }
    var batteryInfo := CollectBatteryInfo(r.battery.value);
    if r.display.Threw? { return Aborted(r.display.message); }
    var displayInfo := CollectDisplayInfo(r.display.value);
    if r.network.Threw? { return Aborted(r.network.message); }
    var networkInfo := CollectNetworkInfo(r.network.value);
    if r.sensors.Threw? { return Aborted(r.sensors.message); }
    var sensorInfo := CollectSensorInfo(r.sensors.value);
    var cameraInfo := CollectCameraInfo(r.cameras);
    var systemInfo := CollectSystemInfo(r.system);
    result := Collected(DeviceInfo(deviceOverview, osInfo, hardwareInfo, memoryInfo, batteryInfo,
                                   displayInfo, networkInfo, sensorInfo, cameraInfo, systemInfo));
  }

  /**
   * No failure isolation: the collection fails exactly when some probe
   * throws, with the message of the first one; otherwise each of the ten
   * facets is the one its own probe computes.
   */
  lemma CollectionFacts(r: Readings)
    ensures DeviceInfoOf(r).Aborted? <==>
              r.memory.Threw? || r.battery.Threw? || r.display.Threw? || r.network.Threw? || r.sensors.Threw?
    ensures r.memory.Threw? ==> DeviceInfoOf(r) == Aborted(r.memory.message)
    ensures !r.memory.Threw? && r.battery.Threw? ==> DeviceInfoOf(r) == Aborted(r.battery.message)
    ensures !r.memory.Threw? && !r.battery.Threw? && r.display.Threw? ==>
              DeviceInfoOf(r) == Aborted(r.display.message)
    ensures !r.memory.Threw? && !r.battery.Threw? && !r.display.Threw? && r.network.Threw? ==>
              DeviceInfoOf(r) == Aborted(r.network.message)
    ensures (!r.memory.Threw? && !r.battery.Threw? && !r.display.Threw? && !r.network.Threw?
             && r.sensors.Threw?) ==> DeviceInfoOf(r) == Aborted(r.sensors.message)
    ensures DeviceInfoOf(r).Collected? ==>
              var d := DeviceInfoOf(r).info;
              d.deviceOverview == r.overview && d.memoryInfo == MemoryInfoOf(r.memory.value)
              && d.networkInfo == NetworkInfoOf(r.network.value) && d.cameraInfo == CameraInfoOf(r.cameras)
              && d.sensorInfo == CollectSensorInfo(r.sensors.value)
              && d.osInfo == CollectOSInfo(r.os) && d.hardwareInfo == CollectHardwareInfo(r.hardware)
              && d.batteryInfo == CollectBatteryInfo(r.battery.value)
              && d.displayInfo == CollectDisplayInfo(r.display.value)
              && d.systemInfo == CollectSystemInfo(r.system)
  {
  }
}
