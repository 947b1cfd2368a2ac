/** Identity, device class, status and error values shared by the recording and websocket layers. */
module DeviceTypes {

  /** A device id as its hyphenated UUID text (8-4-4-4-12 hex digits): the form `format!("{}", uuid)` prints. */
  type Uuid = s: string | |s| == 36 witness "00000000-0000-0000-0000-000000000000"

  /** The concrete device classes a device can be created as. */
  datatype DeviceSelection = Common | Ping1D | Ping360

  /** Status of a device in the device manager that the recording layer asks. */
  datatype DeviceStatus = Running | ContinuousMode | Stopped

  datatype ManagerError =
    | DeviceNotExist(id: Uuid)
    | DeviceStatusMismatch(status: DeviceStatus, id: Uuid)
    | DeviceError(detail: string)
    | NoDevices
    | Other(message: string)
}
