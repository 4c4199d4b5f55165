/** The meeting-action slot: at most one room-changing action is tracked,
    together with the replayable descriptor that retry uses. */
module Actions {
  import opened Common
  import opened Api

  /** The replayable description of a meeting action, one variant per action
      creator, each carrying its own parameters. */
  datatype Descriptor =
    | Create(minutes: int)
    | Cancel
    | EndNow
    | CheckIn
    | Extend(minutes: int)
    | StartEarly
    | CreateInRoom(calendarId: string, minutes: int)

  /** The visible lifecycle of the tracked action. */
  datatype Phase = Idle | Running | Retrying | Failed | Succeeded

  /** The action slot. `source` names the control that triggered the action
      (a button name such as "create-15"); `errorStatus` is the server status
      of the last failure, when the failure carried one. An absent source
      is the reducer's `null`, which an empty or freshly started slot holds. */
  datatype Slot = Slot(
    descriptor: Option<Descriptor>,
    source: Option<string>,
    phase: Phase,
    errorStatus: Option<int>)

  /** The slot after `endAction`: nothing tracked. */
  const Empty: Slot := Slot(None, None, Idle, None)

  /** Starting an action overwrites the whole slot. */
  function Start(d: Descriptor): Slot {
    Slot(Some(d), None, Running, None)
  }

  function WithSource(slot: Slot, source: string): Slot {
    slot.(source := Some(source))
  }

  function MarkRetrying(slot: Slot): Slot {
    slot.(phase := Retrying)
  }

  /** A failure keeps the descriptor (and the source) so it can be retried. */
  function WithError(slot: Slot, status: Option<int>): Slot {
    slot.(phase := Failed, errorStatus := status)
  }

  function WithSuccess(slot: Slot): Slot {
    slot.(phase := Succeeded)
  }

  /** Actions that change the current meeting need its id. */
  predicate NeedsCurrentMeeting(d: Descriptor) {
    d.Cancel? || d.EndNow? || d.CheckIn? || d.Extend? || d.StartEarly?
  }

  /** The remote call an action makes. Actions on the current meeting read
      its id at the moment they run; with no current meeting the source's
      property access throws, so no call is made. */
  function RequestFor(d: Descriptor, meetingId: Option<string>): (r: Option<Request>)
    ensures r.None? <==> NeedsCurrentMeeting(d) && meetingId.None?
    ensures r.Some? && NeedsCurrentMeeting(d) ==>
      (r.value.DeleteMeeting? || r.value.UpdateMeeting?) && r.value.meetingId == meetingId.value
    ensures r.Some? ==> DescriptorOf(r.value) == Some(d)
  {
    match d
    case Create(minutes) => Some(CreateMeeting(minutes, None))
    case CreateInRoom(calendarId, minutes) => Some(CreateMeeting(minutes, Some(calendarId)))
    case _ =>
      if meetingId.None? then None
      else
        var id := meetingId.value;
        match d
        case Cancel => Some(DeleteMeeting(id, false))
        case EndNow => Some(UpdateMeeting(id, UpdateOptions(true, false, None, false)))
        case CheckIn => Some(UpdateMeeting(id, UpdateOptions(false, true, None, false)))
        case Extend(minutes) => Some(UpdateMeeting(id, UpdateOptions(false, false, Some(minutes), false)))
        case StartEarly => Some(UpdateMeeting(id, UpdateOptions(false, true, None, true)))
  }

  /** Reads back which action a request belongs to. Independent of
      `RequestFor`: it is written from the request's side. */
  function DescriptorOf(r: Request): Option<Descriptor> {
    match r
    case CreateMeeting(minutes, None) => Some(Create(minutes))
    case CreateMeeting(minutes, Some(calendarId)) => Some(CreateInRoom(calendarId, minutes))
    case DeleteMeeting(_, silent) => if silent then None else Some(Cancel)
    case UpdateMeeting(_, o) =>
      if o == UpdateOptions(true, false, None, false) then Some(EndNow)
      else if o == UpdateOptions(false, true, None, false) then Some(CheckIn)
      else if o == UpdateOptions(false, true, None, true) then Some(StartEarly)
      else if !o.endNow && !o.checkIn && !o.startNow && o.extensionTime.Some? then Some(Extend(o.extensionTime.value))
      else None
    case RemoveDevice => None
  }

  /** Different actions never make the same call: the call identifies the
      action and all of its parameters. */
  lemma RequestsIdentifyTheirAction(d1: Descriptor, d2: Descriptor, id1: Option<string>, id2: Option<string>)
    requires RequestFor(d1, id1).Some? && RequestFor(d1, id1) == RequestFor(d2, id2)
    ensures d1 == d2
  {
    assert DescriptorOf(RequestFor(d1, id1).value) == Some(d1);
  }
}
