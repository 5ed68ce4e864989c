/**
 * The immutable snapshot record and its ten facets.  Every field of the
 * Kotlin data classes is kept, with its width; the fields declared
 * nullable there are `Option`s here and no others are.
 */
module DeviceInfoModel {
  import opened KotlinRuntime

  /**
   * A Kotlin `Float`.  The core never computes with the floats it carries:
   * it only prints them, so a float is represented by the text its
   * `toString()` produces.
   */
  datatype Float32 = Float32(text: string)

  /** One snapshot: exactly ten facets, none of them nullable. */
  datatype DeviceInfo = DeviceInfo(
    deviceOverview: DeviceOverview,
    osInfo: OSInfo,
    hardwareInfo: HardwareInfo,
    memoryInfo: MemoryInfo,
    batteryInfo: BatteryInfo,
    displayInfo: DisplayInfo,
    networkInfo: NetworkInfo,
    sensorInfo: SensorInfo,
    cameraInfo: CameraInfo,
    systemInfo: SystemInfo)

  datatype DeviceOverview = DeviceOverview(
    manufacturer: string, model: string, brand: string, board: string,
    bootloader: string, device: string, product: string, hardware: string)

  datatype OSInfo = OSInfo(
    androidVersion: string, apiLevel: Int32, securityPatch: string, buildId: string,
    kernelVersion: string, buildDate: string, buildType: string, buildUser: string,
    buildHost: string)

  datatype HardwareInfo = HardwareInfo(
    cpuArchitecture: string, cpuCores: Int32, cpuFrequency: string,
    supportedAbis: seq<string>, supportedAbis32: seq<string>, supportedAbis64: seq<string>)

  /** Only the two external-storage figures are optional. */
  datatype MemoryInfo = MemoryInfo(
    totalRam: Int64, availableRam: Int64, usedRam: Int64,
    totalInternalStorage: Int64, availableInternalStorage: Int64, usedInternalStorage: Int64,
    hasExternalStorage: bool,
    totalExternalStorage: Option<Int64>, availableExternalStorage: Option<Int64>)

  datatype BatteryInfo = BatteryInfo(
    level: Int32, status: string, health: string, temperature: Float32,
    voltage: Int32, technology: string, isCharging: bool, chargingSource: string)

  datatype DisplayInfo = DisplayInfo(
    screenResolution: string, screenDensity: Int32, screenDensityDpi: string,
    refreshRate: Float32, screenSize: string, orientation: string)

  /** Only SSID, IP, MAC and signal strength are optional. */
  datatype NetworkInfo = NetworkInfo(
    wifiEnabled: bool, wifiConnected: bool,
    wifiSSID: Option<string>, ipAddress: Option<string>, macAddress: Option<string>,
    networkType: string, signalStrength: Option<Int32>)

  /** An ordered, possibly empty list of sensors. */
  datatype SensorInfo = SensorInfo(sensors: seq<SensorData>)

  /** `typeName` is the Kotlin field `type` (a reserved word in Dafny). */
  datatype SensorData = SensorData(
    name: string, typeName: string, vendor: string, version: Int32,
    power: Float32, resolution: Float32, maximumRange: Float32)

  /** An ordered, possibly empty list of cameras. */
  datatype CameraInfo = CameraInfo(cameras: seq<CameraData>)

  datatype CameraData = CameraData(
    id: string, facing: string, megapixels: string, supportedResolutions: seq<string>)

  datatype SystemInfo = SystemInfo(
    uptime: string, bootTime: string, timezone: string, locale: string,
    javaVmVersion: string, javaVmName: string)
}
