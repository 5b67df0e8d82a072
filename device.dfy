/**
 * The capture-device selector that the settings window sends and the video
 * actor consumes: optional USB vendor and product ids and an optional serial number.
 */
module Device {
  import opened Prelude

  datatype DeviceId = DeviceId(vendorId: Option<uint16>, productId: Option<uint16>, serialNumber: Option<string>)
}
