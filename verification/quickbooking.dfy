/** The quick-booking buttons shown while the room is available: which
    durations are offered, how each button renders, and what a click does. */
module QuickBooking {
  import opened Common
  import opened Api
  import opened Actions
  import Device

  /** A create button: the meeting length in minutes and the name that is
      recorded as the action source. */
  datatype Button = Button(value: int, name: string)

  /** The room offers a button with this name. */
  ghost predicate Offers(buttons: seq<Button>, name: string) {
    exists b :: b in buttons && b.name == name
  }

  /** The buttons offered when the next meeting starts in `minutes`: each
      fixed length with enough slack before the next meeting, then either a
      two-hour button or a button for exactly the time left. */
  function Offered(minutes: int): (r: seq<Button>)
    ensures Button(15, "create-15") in r <==> minutes > 20
    ensures Button(30, "create-30") in r <==> minutes > 40
    ensures Button(60, "create-60") in r <==> minutes > 70
    ensures Button(120, "create-120") in r <==> minutes > 130
    ensures Button(minutes, "create-custom") in r <==> minutes <= 130
    ensures forall b :: b in r ==> b.value <= minutes
    ensures forall b :: b in r ==>
      b in [Button(15, "create-15"), Button(30, "create-30"), Button(60, "create-60"),
            Button(120, "create-120"), Button(minutes, "create-custom")]
  {
    (if minutes > 20 then [Button(15, "create-15")] else [])
    + (if minutes > 40 then [Button(30, "create-30")] else [])
    + (if minutes > 70 then [Button(60, "create-60")] else [])
    + (if minutes > 130 then [Button(120, "create-120")] else [])
    + (if minutes <= 130 then [Button(minutes, "create-custom")] else [])
  }

  /** The five button names are pairwise different. */
  lemma ButtonNamesDiffer()
    ensures var names := ["create-15", "create-30", "create-60", "create-120", "create-custom"];
      forall i, j :: 0 <= i < j < |names| ==> names[i] != names[j]
  {
    assert "create-15"[7] != "create-30"[7] && "create-15"[7] != "create-60"[7];
    assert "create-30"[7] != "create-60"[7];
    assert |"create-120"| == 10 && |"create-custom"| == 13 && |"create-15"| == 9;
  }

  /** The offered row spelled out for each range of free minutes. */
  lemma OfferedByRange(minutes: int)
    ensures var custom := Button(minutes, "create-custom");
      && (minutes <= 20 ==> Offered(minutes) == [custom])
      && (20 < minutes <= 40 ==> Offered(minutes) == [Button(15, "create-15"), custom])
      && (40 < minutes <= 70 ==> Offered(minutes) == [Button(15, "create-15"), Button(30, "create-30"), custom])
      && (70 < minutes <= 130 ==>
            Offered(minutes) == [Button(15, "create-15"), Button(30, "create-30"), Button(60, "create-60"), custom])
      && (130 < minutes ==> Offered(minutes) == FixedButtons)
  {
    var r := Offered(minutes);
    var custom := Button(minutes, "create-custom");
    if minutes <= 20 {
      assert r == [custom];
    } else if minutes <= 40 {
      assert r == [Button(15, "create-15"), custom];
    } else if minutes <= 70 {
      assert r == [Button(15, "create-15"), Button(30, "create-30"), custom];
    } else if minutes <= 130 {
      assert r == [Button(15, "create-15"), Button(30, "create-30"), Button(60, "create-60"), custom];
    } else {
      assert r == FixedButtons;
    }
  }

  /** No two offered buttons share a name. */
  lemma OfferedNamesAreDistinct(minutes: int)
    ensures var r := Offered(minutes);
      forall i, j :: 0 <= i < |r| && 0 <= j < |r| && r[i].name == r[j].name ==> i == j
  {
    ButtonNamesDiffer();
    OfferedByRange(minutes);
  }

  /** The buttons are laid out from the shortest booking to the longest: the
      custom length, when offered, comes last and exceeds every fixed length
      shown before it. */
  lemma OfferedInAscendingOrder(minutes: int)
    ensures var r := Offered(minutes);
      forall i, j :: 0 <= i < j < |r| ==> r[i].value < r[j].value
  {
    OfferedByRange(minutes);
  }

  /** The fixed lengths, shortest first. */
  const FixedButtons: seq<Button> :=
    [Button(15, "create-15"), Button(30, "create-30"), Button(60, "create-60"), Button(120, "create-120")]

  /** Offering a fixed length implies offering every shorter one. */
  lemma ShorterFixedLengthsAreOffered(minutes: int, shorter: nat, longer: nat)
    requires shorter <= longer < |FixedButtons|
    requires FixedButtons[longer] in Offered(minutes)
    ensures FixedButtons[shorter] in Offered(minutes)
  {
  }

  /** Exactly one of the two-hour button and the time-left button is offered. */
  lemma TwoHoursOrTimeLeft(minutes: int)
    ensures Offers(Offered(minutes), "create-120") != Offers(Offered(minutes), "create-custom")
  {
    var r := Offered(minutes);
    if minutes > 130 {
      assert Button(120, "create-120") in r;
      assert !Offers(r, "create-custom");
    } else {
      assert Button(minutes, "create-custom") in r;
      assert !Offers(r, "create-120");
    }
  }

  /** How one button renders. */
  datatype ButtonView = ButtonView(button: Button, disabled: bool, loading: bool)

  /** The buttons as rendered for the current action source: every button is
      disabled while some action source is set, and a button spins exactly
      when the source is its own name. Since names differ, at most one spins,
      and a spinning button means all are disabled. */
  function Render(minutes: int, source: Option<string>): (r: seq<ButtonView>)
    ensures |r| == |Offered(minutes)|
    ensures forall i :: 0 <= i < |r| ==> r[i].button == Offered(minutes)[i]
    ensures forall i :: 0 <= i < |r| ==> (r[i].disabled <==> source.Some?)
    ensures forall i :: 0 <= i < |r| ==> (r[i].loading <==> source == Some(r[i].button.name))
    ensures forall i, j :: 0 <= i < |r| && 0 <= j < |r| && r[i].loading && r[j].loading ==> i == j
    ensures forall i, j :: 0 <= i < |r| && 0 <= j < |r| && r[i].loading ==> r[j].disabled
  {
    var buttons := Offered(minutes);
    OfferedNamesAreDistinct(minutes);
    seq(|buttons|, k requires 0 <= k < |buttons| =>
      ButtonView(buttons[k], source.Some?, source == Some(buttons[k].name)))
  }

  /** A click on a button: the create-meeting action starts with the
      button's length, then the button's name is recorded as the source. */
  function Press(s: Device.State, b: Button): (r: Device.Transition)
    ensures r.state == s.(action := Slot(Some(Create(b.value)), Some(b.name), Running, None))
    ensures r.effects == [Device.Send(CreateMeeting(b.value, None))]
  {
    var started := Device.Step(s, Device.ActionStarted(Create(b.value)));
    var sourced := Device.Step(started.state, Device.ActionSourceSet(b.name));
    Device.Transition(sourced.state, started.effects + sourced.effects)
  }

  /** After a click on an offered button, that button and no other spins,
      and every button is disabled until the action is over. */
  lemma PressedButtonAloneSpins(s: Device.State, minutes: int, k: nat)
    requires k < |Offered(minutes)|
    ensures var buttons := Offered(minutes);
      var views := Render(minutes, Press(s, buttons[k]).state.action.source);
      && views[k].loading
      && (forall j :: 0 <= j < |views| && j != k ==> !views[j].loading)
      && (forall j :: 0 <= j < |views| ==> views[j].disabled)
  {
  }

  /** A quick booking from click to success: with 25 minutes free the
      fifteen-minute button is offered; clicking it starts the booking with
      that button spinning; when the call and the refresh succeed, the
      refreshed details are stored and the slot is empty again. */
  lemma QuickBookingSucceeds(s: Device.State, d: Device.DeviceData, fallback: Outcome<Device.DeviceData>)
    ensures Button(15, "create-15") in Offered(25)
    ensures var pressed := Press(s, Button(15, "create-15"));
      && pressed.state.action.phase == Running
      && pressed.effects == [Device.Send(CreateMeeting(15, None))]
      && var done := Device.Step(pressed.state, Device.MeetingCallSettled(Ok(()), Ok(d), fallback)).state;
         && done.device == Some(d)
         && done.action == Empty
         && done.action.source.None?
  {
  }
}
