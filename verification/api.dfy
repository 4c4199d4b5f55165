/** The remote calls the device client makes, as plain data. The calls
    themselves are not modelled; the state machine emits them as effects and
    learns their results through later events. */
module Api {
  import opened Common

  /** The options object passed when updating the current meeting. */
  datatype UpdateOptions = UpdateOptions(
    endNow: bool,
    checkIn: bool,
    extensionTime: Option<int>,
    startNow: bool)

  /** The calls the core itself builds. The device-details fetch and the
      version query are the `Fetch` effect and the `VersionChecked` event. */
  datatype Request =
    | CreateMeeting(minutes: int, calendarId: Option<string>)
    | DeleteMeeting(meetingId: string, silent: bool)
    | UpdateMeeting(meetingId: string, options: UpdateOptions)
    | RemoveDevice
}
