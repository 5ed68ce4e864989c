# DeviceInsight in Dafny

DeviceInsight is an Android app that reads about a hundred facts about the
device it runs on and shows them in ten collapsible sections. It collects:

- build and OS properties;
- CPU, memory and storage figures;
- the battery;
- the display;
- the network, including the Wi-Fi address and the MAC address;
- the sensors and the cameras;
- the system clock.

It can also share a plain-text report of a subset of them. The report covers:

- three overview fields, three OS fields and three hardware fields;
- total and available RAM;
- battery level, status and temperature;
- resolution, density and refresh rate;
- the network type, plus the Wi-Fi SSID and IP address when connected;
- uptime and timezone.

It leaves out the sensors, the cameras, the storage figures, the ABI lists,
battery health, voltage, technology and charging source, the MAC address and
the signal strength.

This project models the app's core in Dafny and proves properties of that
model.

- **The collector** (`Collector`, device_info_collector.dfy). It turns the
  platform's raw answers into a `DeviceInfo` value.
  - Each probe becomes a function of a readings record. That record holds what
    the Android call returned, whether it returned nothing (`null`), or whether
    it threw.
  - The collector decodes:
    - battery codes;
    - density buckets;
    - transport types;
    - packed IPv4 addresses;
    - MAC bytes;
    - sensor type codes;
    - camera facing and sizes;
    - the uptime clock text.
  - The probes that loop over lists (network interfaces, cameras) and the
    assembly are methods proved equal to their functions.
- **The flow** (`UseCase`, get_device_info_use_case.dfy). One call of the
  use case emits `Loading`, then exactly one of `Success` or `Error`.
- **The view model** (`ViewModel`, device_info_view_model.dfy).
  - A class holding the two observable fields, `uiState` and `sections`.
  - Its methods load, refresh and toggle.
  - The pure section builders and `formatBytes`.
- **The report** (`Report`, main_screen.dfy).
  - The share text, built line by line by a `LineBuilder` class that stands for
    Kotlin's `buildString`.
  - The screen's own `formatBytes`, written over real numbers and proved equal
    to the view model's integer version.
- **Supporting modules:**
  - `KotlinRuntime` (kotlin_runtime.dfy) holds the Kotlin library behaviour the
    core relies on:
    - `Int`/`Long` wrap-around;
    - division rounded toward zero;
    - `toString`, `toLongOrNull` and `trim`;
    - `joinToString`;
    - `%02d`, `%02x` and `%.2f`.
  - `DeviceInfoModel` (device_info.dfy) holds the data classes.
  - `UiModels` (ui_state.dfy) holds the UI state types.

A float that the app only prints is carried as its printed text (`Float32`).
Each exception a probe can raise is an input of the model.

Three behaviours of the code are worth stating:

- `collectDeviceInfo` does not isolate its probes. The first throwing probe,
  taken in argument order, turns the whole call into an `Error`.
- The battery percentage is truncated by `Float.toInt()`, not rounded.
- Refreshing rebuilds the sections from scratch. The expanded or collapsed flag
  a user set is therefore discarded, not kept.

## Model

| member | source | states |
|---|---|---|
| KotlinRuntime.WrapInt | app/src/main/java/com/app/deviceinsight/data/collectors/DeviceInfoCollector.kt:382-384 | `Int` arithmetic: the result is congruent to the exact value modulo 2^32 and equals it when it fits |
| KotlinRuntime.WrapLong | app/src/main/java/com/app/deviceinsight/data/collectors/DeviceInfoCollector.kt:110-137 | `Long` arithmetic: congruent modulo 2^64 to the exact value, and equal to it when it fits |
| KotlinRuntime.TruncDiv | app/src/main/java/com/app/deviceinsight/data/collectors/DeviceInfoCollector.kt:96 | JVM integer division: the remainder is smaller than the divisor in magnitude and has the sign of the dividend |
| KotlinRuntime.TruncRem | app/src/main/java/com/app/deviceinsight/data/collectors/DeviceInfoCollector.kt:430-434 | JVM `%`: `a == (a / b) * b + r` with `|r| < |b|` |
| KotlinRuntime.RoundHalfUp | app/src/main/java/com/app/deviceinsight/ui/viewmodel/DeviceInfoViewModel.kt:228-230 | half-up rounding of the exact quotient, which is what `%.2f` prints for these figures below 2^49 bytes: `q` is the nearest integer to `n / d`, with ties rounded up |
| KotlinRuntime.NatToString | app/src/main/java/com/app/deviceinsight/ui/viewmodel/DeviceInfoViewModel.kt:98 | `toString` of a natural number: digits only, with no leading zero |
| KotlinRuntime.NatToStringValue | app/src/main/java/com/app/deviceinsight/ui/viewmodel/DeviceInfoViewModel.kt:98 | the decimal text reads back as the number, and its length is 1 exactly below 10 |
| KotlinRuntime.ZeroPad2 | app/src/main/java/com/app/deviceinsight/data/collectors/DeviceInfoCollector.kt:435 | `%02d`: at least two digits, exactly two below 100, reading back as the number |
| KotlinRuntime.Fixed2 | app/src/main/java/com/app/deviceinsight/ui/viewmodel/DeviceInfoViewModel.kt:228-230 | a fixed-point text with two decimals whose digits, read back, give the hundredths value |
| KotlinRuntime.Fixed1 | app/src/main/java/com/app/deviceinsight/data/collectors/DeviceInfoCollector.kt:384 | a fixed-point text with one decimal whose digits, read back, give the tenths value |
| KotlinRuntime.ParseLongOfIntToString | app/src/main/java/com/app/deviceinsight/data/collectors/DeviceInfoCollector.kt:94 | `toLongOrNull` inverts `toString` for every `Long` |
| KotlinRuntime.ParseLong | app/src/main/java/com/app/deviceinsight/data/collectors/DeviceInfoCollector.kt:94 | `toLongOrNull` returns a number only for non-empty text |
| KotlinRuntime.ParseLongAccepts | app/src/main/java/com/app/deviceinsight/data/collectors/DeviceInfoCollector.kt:94 | `toLongOrNull` gives a number exactly for an optional sign, then one or more digits and nothing else, within the `Long` range; any non-digit after the sign gives null |
| KotlinRuntime.ParseLongCanonical | app/src/main/java/com/app/deviceinsight/data/collectors/DeviceInfoCollector.kt:94 | a parsed value denotes its text: drop a `+`, the leading zeros and the sign of a zero, and the result is `v.toString()` |
| KotlinRuntime.StripZeros | app/src/main/java/com/app/deviceinsight/data/collectors/DeviceInfoCollector.kt:94 | removing leading zeros keeps the value and leaves canonical digits |
| KotlinRuntime.CanonicalDigitsUnique | app/src/main/java/com/app/deviceinsight/data/collectors/DeviceInfoCollector.kt:94 | two canonical digit texts with the same value are the same text |
| KotlinRuntime.TrimStart | app/src/main/java/com/app/deviceinsight/data/collectors/DeviceInfoCollector.kt:94 | the result is a suffix of the input; everything removed is whitespace; the result does not start with whitespace |
| KotlinRuntime.TrimEnd | app/src/main/java/com/app/deviceinsight/data/collectors/DeviceInfoCollector.kt:94 | the result is a prefix of the input; everything removed is whitespace; the result does not end with whitespace |
| KotlinRuntime.Trim | app/src/main/java/com/app/deviceinsight/data/collectors/DeviceInfoCollector.kt:94 | `trim()`: no longer than the input, and neither end is whitespace |
| KotlinRuntime.TrimOfPadded | app/src/main/java/com/app/deviceinsight/data/collectors/DeviceInfoCollector.kt:94 | trimming removes exactly the whitespace padding around a text |
| KotlinRuntime.JoinToString | app/src/main/java/com/app/deviceinsight/ui/viewmodel/DeviceInfoViewModel.kt:117-119 | `joinToString`: the empty list gives `""` and a single element gives itself |
| KotlinRuntime.JoinSnoc | app/src/main/java/com/app/deviceinsight/ui/viewmodel/DeviceInfoViewModel.kt:117-119 | joining one more part appends the separator and that part, so the parts appear in order with the separator between neighbours |
| KotlinRuntime.RemoveChar | app/src/main/java/com/app/deviceinsight/data/collectors/DeviceInfoCollector.kt:271 | `replace("\"", "")`: the character is gone, every other character is kept with its multiplicity, and the length drops by its count |
| KotlinRuntime.Repeat | app/src/main/java/com/app/deviceinsight/ui/screens/MainScreen.kt:195 | `"=".repeat(n)`: `n` copies of the character |
| KotlinRuntime.HexByte | app/src/main/java/com/app/deviceinsight/data/collectors/DeviceInfoCollector.kt:301 | `"%02x"` of a byte: two hex digits denoting the byte's unsigned value |
| KotlinRuntime.HexByteInjective | app/src/main/java/com/app/deviceinsight/data/collectors/DeviceInfoCollector.kt:301 | distinct bytes print differently |
| UiModels.ConstructorsKeepFields | app/src/test/java/com/app/deviceinsight/DeviceInfoCollectorTest.kt:10-37 | items and sections keep their label, value, title, items and flag; a section is collapsed by default |
| Collector.CollectOSInfo | app/src/main/java/com/app/deviceinsight/data/collectors/DeviceInfoCollector.kt:60-77 | the API level is the SDK level; the security patch is `"N/A"` below API 23; a missing `os.version` gives `"Unknown"` |
| Collector.CpuFrequency | app/src/main/java/com/app/deviceinsight/data/collectors/DeviceInfoCollector.kt:90-106 | `"Unknown"` exactly when the file is missing, unreadable or not a number; otherwise kHz / 1000 (rounded toward zero) followed by `" MHz"` |
| Collector.CpuFrequencyOfNumber | app/src/main/java/com/app/deviceinsight/data/collectors/DeviceInfoCollector.kt:90-106 | a file holding a padded number gives that number of kHz in MHz |
| Collector.CollectHardwareInfo | app/src/main/java/com/app/deviceinsight/data/collectors/DeviceInfoCollector.kt:79-88 | the frequency comes from the `cpuinfo_max_freq` file; the ABI lists are passed through; a missing `os.arch` gives `"Unknown"` |
| Collector.CollectMemoryInfo | app/src/main/java/com/app/deviceinsight/data/collectors/DeviceInfoCollector.kt:108-142 | the method computes the memory facet that `MemoryInfoOf` defines |
| Collector.MemoryUsedFigures | app/src/main/java/com/app/deviceinsight/data/collectors/DeviceInfoCollector.kt:134-137 | used RAM and used storage are total minus available: exactly when the difference fits in a `Long`, and modulo 2^64 always |
| Collector.UsedFigure | app/src/main/java/com/app/deviceinsight/data/collectors/DeviceInfoCollector.kt:134-137 | a `Long` difference equals the exact difference when it fits, and is congruent to it modulo 2^64 always |
| Collector.MemoryExternalFigures | app/src/main/java/com/app/deviceinsight/data/collectors/DeviceInfoCollector.kt:117-129 | external storage is reported exactly when the state is `"mounted"`; its two figures are present together, and exactly when the state is mounted and `StatFs` did not throw |
| Collector.FloatQuotientToInt | app/src/main/java/com/app/deviceinsight/data/collectors/DeviceInfoCollector.kt:150 | `(p / s.toFloat()).toInt()` rounds toward zero unless it saturates |
| Collector.BatteryPercent | app/src/main/java/com/app/deviceinsight/data/collectors/DeviceInfoCollector.kt:147-153 | `-1` when the level or the scale is missing |
| Collector.BatteryPercentRange | app/src/main/java/com/app/deviceinsight/data/collectors/DeviceInfoCollector.kt:147-153 | for valid extras the percentage is `level * 100 / scale`, and it lies in 0..100 when the level does not exceed the scale |
| Collector.BatteryDecodersRoundTrip | app/src/main/java/com/app/deviceinsight/data/collectors/DeviceInfoCollector.kt:155-187 | the status, health and charging-source texts decode back to their code exactly for the named codes; every other code gives the fallback text |
| Collector.CollectBatteryInfo | app/src/main/java/com/app/deviceinsight/data/collectors/DeviceInfoCollector.kt:144-199 | each field comes from its extra; charging holds exactly when the status is `CHARGING`, that is, when the status text is `"Charging"`; a missing intent gives every fallback |
| Collector.BoundsExceeded | app/src/main/java/com/app/deviceinsight/data/collectors/DeviceInfoCollector.kt:211-219 | the number of density bounds the dpi exceeds, counted from the first, stopping at the first bound it does not exceed |
| Collector.DensityBucketByFirstBound | app/src/main/java/com/app/deviceinsight/data/collectors/DeviceInfoCollector.kt:211-219 | the bucket is named by the first bound not exceeded, and the bucket is monotone in the dpi |
| Collector.DensityBucketExamples | app/src/main/java/com/app/deviceinsight/data/collectors/DeviceInfoCollector.kt:211-219 | the boundaries are inclusive: 160 is MDPI, 161 is HDPI, 480 is XXHDPI, 641 is ULTRA_HIGH |
| Collector.CollectDisplayInfo | app/src/main/java/com/app/deviceinsight/data/collectors/DeviceInfoCollector.kt:201-246 | resolution `"w x h"`; the density bucket; 60.0 Hz below API 23; `"Unknown"` exactly for orientations other than portrait and landscape |
| Collector.Octet | app/src/main/java/com/app/deviceinsight/data/collectors/DeviceInfoCollector.kt:273-280 | `(ip shr 8k) and 0xff` is a byte |
| Collector.OctetsRebuild | app/src/main/java/com/app/deviceinsight/data/collectors/DeviceInfoCollector.kt:273-280 | the four octets, little end first, rebuild the packed address |
| Collector.PackOfOctets | app/src/main/java/com/app/deviceinsight/data/collectors/DeviceInfoCollector.kt:273-280 | packing the octets of an address gives the address back |
| Collector.OctetsOfPack | app/src/main/java/com/app/deviceinsight/data/collectors/DeviceInfoCollector.kt:273-280 | unpacking a packed address gives its four bytes back |
| Collector.Ipv4Loopback | app/src/main/java/com/app/deviceinsight/data/collectors/DeviceInfoCollector.kt:273-280 | `0x0100007F` prints as `"127.0.0.1"` |
| Collector.FirstWlan0 | app/src/main/java/com/app/deviceinsight/data/collectors/DeviceInfoCollector.kt:299 | `find`: the index of the first interface named `wlan0` in any case, or the length when there is none |
| Collector.MacAddress | app/src/main/java/com/app/deviceinsight/data/collectors/DeviceInfoCollector.kt:296-305 | a MAC address exists exactly when the enumeration succeeds, has a `wlan0`, and the first one has a hardware address; it is that address formatted |
| Collector.FormatMacLayout | app/src/main/java/com/app/deviceinsight/data/collectors/DeviceInfoCollector.kt:301 | `joinToString(":")` of `%02x`: `3n - 1` characters, byte `k` at position `3k`, colons between |
| Collector.FormatMacCons | app/src/main/java/com/app/deviceinsight/data/collectors/DeviceInfoCollector.kt:301 | the text is the first byte, a colon, and the rest |
| Collector.FormatMacInjective | app/src/main/java/com/app/deviceinsight/data/collectors/DeviceInfoCollector.kt:301 | different hardware addresses print differently |
| Collector.CollectNetworkInfo | app/src/main/java/com/app/deviceinsight/data/collectors/DeviceInfoCollector.kt:249-316 | the method computes the network facet that `NetworkInfoOf` defines |
| Collector.NetworkFacts | app/src/main/java/com/app/deviceinsight/data/collectors/DeviceInfoCollector.kt:249-316 | the type is WiFi, Mobile Data or Ethernet exactly by transport priority; connected iff type WiFi; SSID, IP and signal are read only when connected; IP and signal are present together; the SSID has no quotes; the IP is the dotted form of the packed address |
| Collector.SensorTypeName | app/src/main/java/com/app/deviceinsight/data/collectors/DeviceInfoCollector.kt:337-354 | one of the thirteen names for a known type; otherwise `"Unknown (<code>)"` |
| Collector.KnownSensorCode | app/src/main/java/com/app/deviceinsight/data/collectors/DeviceInfoCollector.kt:337-354 | a name decodes only to a code that carries that name |
| Collector.SensorTypeNameRoundTrip | app/src/main/java/com/app/deviceinsight/data/collectors/DeviceInfoCollector.kt:337-354 | every type code can be recovered from its name, so no two codes share a name |
| Collector.KnownSensorTypeRoundTrip | app/src/main/java/com/app/deviceinsight/data/collectors/DeviceInfoCollector.kt:337-353 | the thirteen known names decode back to their codes |
| Collector.KnownLowRoundTrip | app/src/main/java/com/app/deviceinsight/data/collectors/DeviceInfoCollector.kt:339-345 | codes 1 to 7 decode back from their names |
| Collector.KnownHighRoundTrip | app/src/main/java/com/app/deviceinsight/data/collectors/DeviceInfoCollector.kt:346-351 | codes 8 to 13 decode back from their names |
| Collector.UnknownSensorTypeRoundTrip | app/src/main/java/com/app/deviceinsight/data/collectors/DeviceInfoCollector.kt:352 | an unknown code decodes back from `"Unknown (<code>)"` |
| Collector.CollectSensorInfo | app/src/main/java/com/app/deviceinsight/data/collectors/DeviceInfoCollector.kt:318-335 | one entry per sensor, in order, with name, vendor and version copied and the type named |
| Collector.LargestSizeIndex | app/src/main/java/com/app/deviceinsight/data/collectors/DeviceInfoCollector.kt:382 | `maxByOrNull { width * height }`: no size has a larger (`Int`) area, and no earlier size has the same area |
| Collector.MegapixelText | app/src/main/java/com/app/deviceinsight/data/collectors/DeviceInfoCollector.kt:384 | `"%.1f MP"` of the area in millions ends in `" MP"` |
| Collector.MegapixelTextValue | app/src/main/java/com/app/deviceinsight/data/collectors/DeviceInfoCollector.kt:384 | the figure before `" MP"` has a minus sign exactly for a negative area, and its one-decimal digits read back as the area's magnitude in tenths of a million, rounded half up |
| Collector.Camera2DataFacts | app/src/main/java/com/app/deviceinsight/data/collectors/DeviceInfoCollector.kt:365-396 | id and facing come from the characteristics; the resolutions are the JPEG sizes as `"wxh"`, in order; megapixels are `"Unknown"` exactly when there is no size, and otherwise those of the first largest size |
| Collector.ReadPrefix | app/src/main/java/com/app/deviceinsight/data/collectors/DeviceInfoCollector.kt:357-426 | the cameras read before the first one that throws |
| Collector.CollectCamera2 | app/src/main/java/com/app/deviceinsight/data/collectors/DeviceInfoCollector.kt:361-397 | the loop computes `Camera2Cameras` |
| Collector.CollectLegacyCameras | app/src/main/java/com/app/deviceinsight/data/collectors/DeviceInfoCollector.kt:400-419 | the loop computes `LegacyCameras` |
| Collector.CollectCameraInfo | app/src/main/java/com/app/deviceinsight/data/collectors/DeviceInfoCollector.kt:357-426 | the method computes `CameraInfoOf` |
| Collector.CameraFacts | app/src/main/java/com/app/deviceinsight/data/collectors/DeviceInfoCollector.kt:357-426 | below API 21 the legacy cameras, numbered from 0 with unknown megapixels and no resolutions; otherwise the camera2 ids in order; in both cases the cameras read before the first failure |
| Collector.UptimeTextFields | app/src/main/java/com/app/deviceinsight/data/collectors/DeviceInfoCollector.kt:429-435 | the uptime text is `hh:mm:ss` whose fields read back as hours, minutes below 60 and seconds below 60 that make up the elapsed whole seconds |
| Collector.ClockTextFields | app/src/main/java/com/app/deviceinsight/data/collectors/DeviceInfoCollector.kt:435 | padded fields joined by colons form the clock layout of their total |
| Collector.UptimeFields | app/src/main/java/com/app/deviceinsight/data/collectors/DeviceInfoCollector.kt:429-435 | for non-negative uptime, the text is the padded hours, minutes and seconds of `millis / 1000` |
| Collector.ClockArithmetic | app/src/main/java/com/app/deviceinsight/data/collectors/DeviceInfoCollector.kt:430-434 | hours, minutes and seconds rebuild the total, with minutes and seconds below 60 |
| Collector.CollectSystemInfo | app/src/main/java/com/app/deviceinsight/data/collectors/DeviceInfoCollector.kt:428-453 | the uptime is the clock text of the elapsed time; missing VM properties give `"Unknown"` |
| Collector.CollectDeviceInfo | app/src/main/java/com/app/deviceinsight/data/collectors/DeviceInfoCollector.kt:32-45 | the method computes the outcome that `DeviceInfoOf` defines |
| Collector.CollectionFacts | app/src/main/java/com/app/deviceinsight/data/collectors/DeviceInfoCollector.kt:32-45 | the call throws exactly when one of the throwing probes (memory, battery, display, network, sensors) throws; the exception is that of the first throwing probe in the order memory, battery, display, network, sensors; on success every facet is that probe's result |
| UseCase.Emissions | app/src/main/java/com/app/deviceinsight/domain/usecases/GetDeviceInfoUseCase.kt:12-20 | a collection emits two states, `Loading` first |
| UseCase.EmissionsFacts | app/src/main/java/com/app/deviceinsight/domain/usecases/GetDeviceInfoUseCase.kt:12-30 | `Success(d)` is emitted iff the repository returned `d`; `Error(m)` iff it threw, where `m` is its message or `"Unknown error occurred"`; `Loading` only first; never both `Success` and `Error` |
| UseCase.EmissionsOfCollection | app/src/main/java/com/app/deviceinsight/domain/usecases/GetDeviceInfoUseCase.kt:12-20 | the flow ends in `Success` exactly when no throwing probe of the collector threw |
| ViewModel.FormatBytesByUnit | app/src/main/java/com/app/deviceinsight/ui/viewmodel/DeviceInfoViewModel.kt:222-233 | the unit is GB from 1024^3 bytes, MB from 1024^2, KB from 1024, else the plain byte count with `" B"` |
| ViewModel.Scaled | app/src/main/java/com/app/deviceinsight/ui/viewmodel/DeviceInfoViewModel.kt:228-230 | a number with exactly two decimals |
| ViewModel.ScaledValue | app/src/main/java/com/app/deviceinsight/ui/viewmodel/DeviceInfoViewModel.kt:228-230 | the printed hundredths are `bytes * 100 / unit` rounded half up |
| ViewModel.IntToStringEndsInDigit | app/src/main/java/com/app/deviceinsight/ui/viewmodel/DeviceInfoViewModel.kt:231 | integer text ends in a digit |
| ViewModel.UnitText | app/src/main/java/com/app/deviceinsight/ui/viewmodel/DeviceInfoViewModel.kt:227-231 | a number followed by a unit ends in exactly that unit and is never a byte-count text |
| ViewModel.ByteText | app/src/main/java/com/app/deviceinsight/ui/viewmodel/DeviceInfoViewModel.kt:231 | the byte-count text ends in none of the scaled units |
| ViewModel.HardwareSectionLayout | app/src/main/java/com/app/deviceinsight/ui/viewmodel/DeviceInfoViewModel.kt:110-122 | six lines in order; each ABI list is shown joined by `", "` in its own order: empty gives `""`, one gives itself, several end with `", "` and the last ABI |
| ViewModel.SuffixFacts | app/src/main/java/com/app/deviceinsight/ui/viewmodel/DeviceInfoViewModel.kt:227-231 | a number followed by a unit names that unit and no other, and only the byte branch ends in `" B"` |
| ViewModel.FormatBytesShape | app/src/main/java/com/app/deviceinsight/ui/viewmodel/DeviceInfoViewModel.kt:222-233 | `formatBytes` prints the scaled figure and name of the unit it picks, or the byte count with `" B"` |
| ViewModel.FormatBytesUnits | app/src/main/java/com/app/deviceinsight/ui/viewmodel/DeviceInfoViewModel.kt:222-233 | the unit shown identifies the magnitude range, in both directions |
| ViewModel.CreateSectionsShape | app/src/main/java/com/app/deviceinsight/ui/viewmodel/DeviceInfoViewModel.kt:61-220 | ten sections with the fixed titles in order; sensors and cameras are titled with their counts; only the overview is expanded |
| ViewModel.FixedTitles | app/src/main/java/com/app/deviceinsight/ui/viewmodel/DeviceInfoViewModel.kt:61-74 | ten sections, and the eight fixed titles sit at their positions |
| ViewModel.CountedTitles | app/src/main/java/com/app/deviceinsight/ui/viewmodel/DeviceInfoViewModel.kt:192-201 | the sensors and cameras titles carry the list sizes |
| ViewModel.CreateSectionsFlags | app/src/main/java/com/app/deviceinsight/ui/viewmodel/DeviceInfoViewModel.kt:89 | the overview is built expanded and the nine others collapsed |
| ViewModel.WellShapedByTitles | app/src/main/java/com/app/deviceinsight/ui/viewmodel/DeviceInfoViewModel.kt:61-74 | the ten titles in order make a well-shaped section list |
| ViewModel.ValueOfAppend | app/src/main/java/com/app/deviceinsight/ui/viewmodel/DeviceInfoViewModel.kt:127-141 | looking a label up in two item lists put together finds it in the first list, else in the second |
| ViewModel.ValueOfOptional | app/src/main/java/com/app/deviceinsight/ui/viewmodel/DeviceInfoViewModel.kt:181-185 | `x?.let { add(...) }` contributes its value under its own label only |
| ViewModel.MemoryFixedLabels | app/src/main/java/com/app/deviceinsight/ui/viewmodel/DeviceInfoViewModel.kt:128-134 | the seven fixed memory lines, in order, ending with Yes/No for external storage |
| ViewModel.ExternalLayout | app/src/main/java/com/app/deviceinsight/ui/viewmodel/DeviceInfoViewModel.kt:135-140 | the total external line appears iff external storage is present and its total is known; the available line appears iff, in addition, the available figure is known |
| ViewModel.MemorySectionLayout | app/src/main/java/com/app/deviceinsight/ui/viewmodel/DeviceInfoViewModel.kt:124-143 | seven to nine items: the fixed seven, then the external lines under exactly their conditions |
| ViewModel.NetworkSectionLookup | app/src/main/java/com/app/deviceinsight/ui/viewmodel/DeviceInfoViewModel.kt:175-188 | every label of the network section shows the corresponding field, and an optional label is absent exactly when its field is null |
| ViewModel.ValueOfBlocks | app/src/main/java/com/app/deviceinsight/ui/viewmodel/DeviceInfoViewModel.kt:178-186 | a lookup over the six item blocks is the first hit in block order |
| ViewModel.NetworkSectionOrder | app/src/main/java/com/app/deviceinsight/ui/viewmodel/DeviceInfoViewModel.kt:178-186 | 3 to 7 items: WiFi Enabled, WiFi Connected first; Network Type last, or last but one when a signal follows |
| ViewModel.ListSectionsLayout | app/src/main/java/com/app/deviceinsight/ui/viewmodel/DeviceInfoViewModel.kt:190-206 | one item per sensor and per camera, numbered from 1, with `type - vendor` and `facing - megapixels` |
| ViewModel.SectionsAfterFacts | app/src/main/java/com/app/deviceinsight/ui/viewmodel/DeviceInfoViewModel.kt:29-49 | after a stream of states, the sections are those of the last `Success`, or unchanged when there was none |
| ViewModel.SectionsAfterCollection | app/src/main/java/com/app/deviceinsight/ui/viewmodel/DeviceInfoViewModel.kt:29-49 | after one flow the sections are rebuilt from a successful snapshot and unchanged after an error |
| ViewModel.SectionsAfterKeepsShape | app/src/main/java/com/app/deviceinsight/ui/viewmodel/DeviceInfoViewModel.kt:29-49 | collecting states keeps the sections empty or well shaped |
| ViewModel.ToggledFacts | app/src/main/java/com/app/deviceinsight/ui/viewmodel/DeviceInfoViewModel.kt:51-59 | toggling keeps length, titles and items, and flips the flag of exactly the sections with that title |
| ViewModel.ToggleTwice | app/src/main/java/com/app/deviceinsight/ui/viewmodel/DeviceInfoViewModel.kt:51-59 | toggling twice restores the sections |
| ViewModel.ToggleUnknownTitle | app/src/main/java/com/app/deviceinsight/ui/viewmodel/DeviceInfoViewModel.kt:51-59 | toggling a title no section has changes nothing |
| ViewModel.ToggledWellShaped | app/src/main/java/com/app/deviceinsight/ui/viewmodel/DeviceInfoViewModel.kt:51-59 | toggling keeps the sections well shaped |
| ViewModel.RefreshDiscardsToggles | app/src/main/java/com/app/deviceinsight/ui/viewmodel/DeviceInfoViewModel.kt:40-59 | a successful refresh yields the freshly built sections whatever was toggled before |
| ViewModel.DeviceInfoViewModel.constructor | app/src/main/java/com/app/deviceinsight/ui/viewmodel/DeviceInfoViewModel.kt:19-23 | starts in `Loading` with no sections |
| ViewModel.DeviceInfoViewModel.Collect | app/src/main/java/com/app/deviceinsight/ui/viewmodel/DeviceInfoViewModel.kt:31-36 | the collecting loop leaves the last state and the sections of the last `Success`, and keeps the shape invariant |
| ViewModel.DeviceInfoViewModel.LoadDeviceInfo | app/src/main/java/com/app/deviceinsight/ui/viewmodel/DeviceInfoViewModel.kt:29-38 | success shows the snapshot and rebuilds the sections; an error shows its message and keeps the sections |
| ViewModel.DeviceInfoViewModel.RefreshDeviceInfo | app/src/main/java/com/app/deviceinsight/ui/viewmodel/DeviceInfoViewModel.kt:40-49 | as load; after success only the overview is expanded |
| ViewModel.DeviceInfoViewModel.ToggleSection | app/src/main/java/com/app/deviceinsight/ui/viewmodel/DeviceInfoViewModel.kt:51-59 | the sections become the toggled ones and the UI state is unchanged; by the invariant `Valid`, the sections stay either empty or exactly ten |
| Report.Format2OfQuotient | app/src/main/java/com/app/deviceinsight/ui/screens/MainScreen.kt:265-267 | `%.2f` of the real quotient is the view model's integer rendering |
| Report.FloorOfHalfUp | app/src/main/java/com/app/deviceinsight/ui/screens/MainScreen.kt:265-267 | rounding a real quotient half up is the integer half-up quotient |
| Report.ScreenQuotients | app/src/main/java/com/app/deviceinsight/ui/screens/MainScreen.kt:259-267 | `kb`, `mb` and `gb` are the byte count over 1024, 1024^2 and 1024^3, and each is at least 1 exactly when the byte count reaches that unit |
| Report.GigabyteCase | app/src/main/java/com/app/deviceinsight/ui/screens/MainScreen.kt:265 | from 1024^3 bytes the screen prints gigabytes |
| Report.MegabyteCase | app/src/main/java/com/app/deviceinsight/ui/screens/MainScreen.kt:266 | between 1024^2 and 1024^3 it prints megabytes |
| Report.KilobyteCase | app/src/main/java/com/app/deviceinsight/ui/screens/MainScreen.kt:267 | between 1024 and 1024^2 it prints kilobytes |
| Report.ByteCase | app/src/main/java/com/app/deviceinsight/ui/screens/MainScreen.kt:268 | below 1024 it prints the byte count |
| Report.FormatBytesAgrees | app/src/main/java/com/app/deviceinsight/ui/screens/MainScreen.kt:259-270 | the screen's `formatBytes` and the view model's agree on every `Long` |
| Report.UnlinesAppend | app/src/main/java/com/app/deviceinsight/ui/screens/MainScreen.kt:192-247 | the text of two line lists is the concatenation of their texts |
| Report.HeadingsAppend | app/src/main/java/com/app/deviceinsight/ui/screens/MainScreen.kt:192-247 | the headings of two line lists put together are the headings of the first, then of the second |
| Report.ReportHeadings | app/src/main/java/com/app/deviceinsight/ui/screens/MainScreen.kt:192-247 | the report's headings are the eight section headings, each once, in order |
| Report.OverviewHeadings | app/src/main/java/com/app/deviceinsight/ui/screens/MainScreen.kt:198-202 | the overview block has its heading only |
| Report.NetworkHeadings | app/src/main/java/com/app/deviceinsight/ui/screens/MainScreen.kt:233-239 | the network block has its heading only, with or without the Wi-Fi lines |
| Report.ReportOpening | app/src/main/java/com/app/deviceinsight/ui/screens/MainScreen.kt:193-196 | the report opens with the title, the `Generated by DeviceInsight` line, forty `=` and a blank line |
| Report.ShareTextOpening | app/src/main/java/com/app/deviceinsight/ui/screens/MainScreen.kt:193-196 | the shared text begins with those four lines, each ended by a newline |
| Report.ReportLength | app/src/main/java/com/app/deviceinsight/ui/screens/MainScreen.kt:192-247 | the report has 41 lines plus at most two Wi-Fi lines; there are none when not connected, and both when connected with SSID and IP |
| Report.ReportAroundWifi | app/src/main/java/com/app/deviceinsight/ui/screens/MainScreen.kt:233-239 | the Wi-Fi lines sit between the network type and the system block |
| Report.WifiLinesContents | app/src/main/java/com/app/deviceinsight/ui/screens/MainScreen.kt:235-238 | an SSID or IP line is written iff connected and that value is present |
| Report.ReportWifiLines | app/src/main/java/com/app/deviceinsight/ui/screens/MainScreen.kt:235-238 | in the whole report, `WiFi SSID: x` appears iff connected with SSID `x`, and `IP Address: x` iff connected with IP `x` |
| Report.ReportRamLines | app/src/main/java/com/app/deviceinsight/ui/screens/MainScreen.kt:216-218 | lines 19 to 21 are the memory heading and the total and available RAM in `formatBytes` form |
| Report.ReportIgnoresSensorsAndCameras | app/src/main/java/com/app/deviceinsight/ui/screens/MainScreen.kt:192-247 | the report does not depend on the sensors or the cameras |
| Report.LineBuilder.constructor | app/src/main/java/com/app/deviceinsight/ui/screens/MainScreen.kt:192 | an empty builder |
| Report.LineBuilder.AppendLine | app/src/main/java/com/app/deviceinsight/ui/screens/MainScreen.kt:193-246 | `appendLine` adds the line and a newline, keeping text and lines in step |
| Report.AppendHeader | app/src/main/java/com/app/deviceinsight/ui/screens/MainScreen.kt:193-196 | appends the header lines |
| Report.AppendOverview | app/src/main/java/com/app/deviceinsight/ui/screens/MainScreen.kt:198-202 | appends the overview block |
| Report.AppendOS | app/src/main/java/com/app/deviceinsight/ui/screens/MainScreen.kt:204-208 | appends the OS block |
| Report.AppendHardware | app/src/main/java/com/app/deviceinsight/ui/screens/MainScreen.kt:210-214 | appends the hardware block |
| Report.AppendMemory | app/src/main/java/com/app/deviceinsight/ui/screens/MainScreen.kt:216-219 | appends the memory block |
| Report.AppendBattery | app/src/main/java/com/app/deviceinsight/ui/screens/MainScreen.kt:221-225 | appends the battery block |
| Report.AppendDisplay | app/src/main/java/com/app/deviceinsight/ui/screens/MainScreen.kt:227-231 | appends the display block |
| Report.AppendNetwork | app/src/main/java/com/app/deviceinsight/ui/screens/MainScreen.kt:233-239 | appends the network block |
| Report.AppendWifi | app/src/main/java/com/app/deviceinsight/ui/screens/MainScreen.kt:235-238 | appends the optional Wi-Fi lines |
| Report.AppendSystem | app/src/main/java/com/app/deviceinsight/ui/screens/MainScreen.kt:241-244 | appends the system block |
| Report.ShareText | app/src/main/java/com/app/deviceinsight/ui/screens/MainScreen.kt:192-247 | the built text is the report's lines, each ended by a newline |

## Left out

- Platform calls are inputs of the model, not calls. These are the `Build` constants, system properties, `ActivityManager`, `StatFs`, the battery intent, `DisplayMetrics`, `ConnectivityManager`, `WifiManager`, `NetworkInterface`, `SensorManager`, `CameraManager` and `SystemClock`. Each probe receives what the call returned, `null`, or that it threw. `collectDeviceOverview` only copies `Build` fields, so it is the overview value itself.
- Floating point: floats that are only printed (refresh rate, battery temperature, screen size) are carried as their printed text.
  - The screen diagonal (`sqrt`, line 229 of the collector) and the display refresh rate are given as text computed outside the model.
- TemperatureOf: it builds the text of `temperature / 10f` exactly from the tenths. This agrees with Kotlin's `Float.toString` only for fewer than a million tenths.
- BatteryPercent: it treats `level * 100 / scale.toFloat()` as an exact quotient before `toInt()`. The rounding of a 24-bit float mantissa is not modelled.
- BatteryPercentRange: it states the 0..100 bound only when `level * 100` fits in an `Int`.
- FormatBytes: it rounds the exact quotient half up. Java's `%.2f` instead rounds half up the shortest decimal text of the `Double` quotient. For MB and KB figures, and for GB figures below 2^49 bytes, the two agree. From about 2^49 bytes a GB figure can differ: for 1121837495919575 bytes the quotient's shortest text is `1044792.585`, so Java prints `1044792.59 GB`, while the exact hundredths are 104479258.4999… and the model prints `1044792.58 GB`. `Long`-to-`Double` rounding above 2^53 bytes is not modelled either.
- `String.format` and `%d`-style formatting use the default locale, which can change both the digits (Arabic or Persian digits, say) and the decimal separator. The model always writes ASCII digits and `.`, as an English or ROOT locale does. So the dotted IP text, the uptime text, the megapixel text and every `formatBytes` figure are modelled only for such locales, and `Collector.Ipv4Loopback`, `Collector.UptimeTextFields` and `ViewModel.ScaledValue` hold only there.
- The timezone, locale and boot-time texts and the report's `Generated on` date come from the clock and the locale. They are inputs.
- Coroutines, `StateFlow` and `viewModelScope` are not modelled. A flow is the finite list of states it emits, and a collection runs to completion before the next call.
- `DeviceInfoRepository` only forwards to the collector. It is not part of this model, and the use case takes the collector's outcome.
- The Compose UI, the share `Intent`, `DeviceInfoCard.kt`, `MainActivity.kt` and the unused `Gson` instance are not part of this model.
- ParseLong: Kotlin's `toLongOrNull` also accepts non-ASCII Unicode digits. The model accepts ASCII digits only.
- IsWlan0: `equals(..., ignoreCase = true)` is modelled by ASCII upper-casing. That is exact for the name `wlan0`.
- Collector.CameraInfoOf: a failure of `cameraIdList` itself is modelled as a failure on the first camera. Both give zero cameras.
- Report.ShareText: the single `buildString` block is written as one append method per block. The blocks run in the same order.
- Report.FormatBytes: the screen's `when` is written as a recursion over units, GB first.

