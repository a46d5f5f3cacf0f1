/**
 * The state the Python window keeps between GTK events (`AudioControlApp`
 * in ui.py): the active device id, the volume slider, and the commands sent
 * to `wpctl` or to the application, in the order they are issued.
 */
module PyUi {
  import opened Wrappers
  import opened Decimal
  import opened Slider
  import opened PyAudio

  /** What the window asks of the outside world: a `wpctl` run with its argument vector, or quitting. */
  datatype Effect = Run(argv: seq<Arg>) | Quit

  /** The row listed when no device is found. */
  const Placeholder: PyDevice := PyDevice("No devices found", "audio-speakers-symbolic", false, 0.0, None)

  /** The volume the slider shows, as a fraction, when no row is active. */
  const DefaultVolume: real := 0.5

  /** The rows `setup_ui` lists: the devices found, or the placeholder alone when there are none. */
  function Rows(devices: seq<PyDevice>): (rows: seq<PyDevice>)
    ensures |rows| >= 1
    ensures devices != [] ==> rows == devices
    ensures devices == [] ==> rows == [Placeholder]
  {
    if devices == [] then [Placeholder] else devices
  }

  /** Python truthiness of a device id: None and the empty string are false. */
  predicate Truthy(id: Option<string>) {
    id.Some? && id.value != ""
  }

  /** The position of the last active row, None when no row is active. */
  function LastActive(rows: seq<PyDevice>): (k: Option<nat>)
    ensures k.Some? ==> k.value < |rows| && rows[k.value].isActive
    ensures k.Some? ==> forall j :: k.value < j < |rows| ==> !rows[j].isActive
    ensures k.None? ==> forall j :: 0 <= j < |rows| ==> !rows[j].isActive
    decreases |rows|
  {
    if rows == [] then None
    else if rows[|rows| - 1].isActive then Some(|rows| - 1)
    else LastActive(rows[..|rows| - 1])
  }

  /** The id a rebuild makes active: that of the last active row, None when no row is active. */
  function ActiveId(rows: seq<PyDevice>): (id: Option<string>)
    ensures |rows| > 0 && rows[|rows| - 1].isActive ==> id == rows[|rows| - 1].id
    ensures (forall j :: 0 <= j < |rows| ==> !rows[j].isActive) ==> id == None
  {
    match LastActive(rows)
    case None => None
    case Some(k) => rows[k].id
  }

  /** The volume a rebuild shows: that of the last active row, the default when no row is active. */
  function CurrentVolume(rows: seq<PyDevice>): (v: real)
    ensures |rows| > 0 && rows[|rows| - 1].isActive ==> v == rows[|rows| - 1].volume
    ensures (forall j :: 0 <= j < |rows| ==> !rows[j].isActive) ==> v == DefaultVolume
  {
    match LastActive(rows)
    case None => DefaultVolume
    case Some(k) => rows[k].volume
  }

  /** An active row followed only by inactive ones decides the rebuild, whatever precedes it. */
  lemma {:induction false} LastActiveWins(rows: seq<PyDevice>, i: nat)
    requires i < |rows| && rows[i].isActive
    requires forall j :: i < j < |rows| ==> !rows[j].isActive
    ensures LastActive(rows) == Some(i)
    ensures ActiveId(rows) == rows[i].id && CurrentVolume(rows) == rows[i].volume
  {
  }

  /** With no active row the rebuild has no active id and shows the default volume; the placeholder is such a list. */
  lemma {:induction false} NoActiveRow(rows: seq<PyDevice>)
    requires forall j :: 0 <= j < |rows| ==> !rows[j].isActive
    ensures ActiveId(rows) == None && CurrentVolume(rows) == DefaultVolume
    ensures ActiveId(Rows([])) == None && CurrentVolume(Rows([])) == DefaultVolume
  {
    assert LastActive(rows) == None;
    assert LastActive([Placeholder]) == None;
  }

  /** Looking at one more row: the rebuild's choice moves to it exactly when it is active. */
  lemma {:induction false} RebuildStep(rows: seq<PyDevice>, i: nat)
    requires i < |rows|
    ensures ActiveId(rows[..i + 1]) == if rows[i].isActive then rows[i].id else ActiveId(rows[..i])
    ensures CurrentVolume(rows[..i + 1]) == if rows[i].isActive then rows[i].volume else CurrentVolume(rows[..i])
  {
    assert rows[..i + 1][..i] == rows[..i];
  }

  /** The `volume_map` of `on_key_pressed`: the digit keys and the percentage each asks for. */
  const VolumeMap: map<string, nat> :=
    map["1" := 10, "2" := 20, "3" := 30, "4" := 40, "5" := 50,
        "6" := 60, "7" := 70, "8" := 80, "9" := 90, "0" := 100]

  /** The map holds exactly the ten digit keys; digit d asks for 10·d percent, and "0" for 100. */
  lemma {:induction false} VolumeMapSpec(key: string)
    ensures key in VolumeMap <==> |key| == 1 && IsDigit(key[0])
    ensures key in VolumeMap ==> VolumeMap[key] == if key == "0" then 100 else 10 * DigitValue(key[0])
    ensures key in VolumeMap ==> 10 <= VolumeMap[key] <= 100
  {
    if |key| == 1 && IsDigit(key[0]) {
      assert key == [key[0]];
    }
  }

  class AudioControlApp {
    var activeDeviceId: Option<string>
    var volumeScale: Scale?<string>
    var log: seq<Effect>

    /** The slider stays in its range, and its handler is connected exactly when the active id is truthy, capturing that id. */
    predicate Valid()
      reads this, volumeScale
    {
      volumeScale != null ==>
        volumeScale.Valid() && volumeScale.handler == (if Truthy(activeDeviceId) then activeDeviceId else None)
    }

    /** The window shows `rows`: the active id and the slider are the ones a rebuild from them picks. */
    predicate Shows(rows: seq<PyDevice>)
      reads this, volumeScale
    {
      volumeScale != null && activeDeviceId == ActiveId(rows)
      && volumeScale.value == Clamp(CurrentVolume(rows) * 100.0)
    }

    /** The state `setup_keyboard_controller` leaves before the first `setup_ui`. */
    constructor ()
      ensures Valid() && activeDeviceId == None && volumeScale == null && log == []
    {
      activeDeviceId := None;
      volumeScale := null;
      log := [];
    }

    /**
     * The device-list part of `setup_ui`: fetches the devices, lists them
     * (or the placeholder), lets the last active row choose the id and the
     * volume, sets a new slider to that volume and connects its handler when
     * the id is truthy. When the parser raises, nothing after the call runs
     * and the previous id and slider stay.
     */
    method SetupUi(output: Option<seq<string>>) returns (raised: bool)
      requires Valid()
      modifies this
      ensures Valid()
      ensures log == old(log)
      ensures raised <==> Listing(output).ValueError?
      ensures raised ==> activeDeviceId == old(activeDeviceId) && volumeScale == old(volumeScale)
      ensures !raised ==> fresh(volumeScale) && Shows(Rows(Listing(output).devices))
    {
      var found := GetAudioDevices(output);
      if found.ValueError? {
        return true;
      }
      var devices := found.devices;
      if devices == [] {
        devices := [Placeholder];
      }
      var currentVolume := DefaultVolume;
      var activeId: Option<string> := None;
      var i := 0;
      while i < |devices|
        invariant 0 <= i <= |devices|
        invariant activeId == ActiveId(devices[..i]) && currentVolume == CurrentVolume(devices[..i])
        modifies {}
      {
        RebuildStep(devices, i);
        if devices[i].isActive {
          currentVolume := devices[i].volume;
          activeId := devices[i].id;
        }
        i := i + 1;
      }
      assert devices[..i] == devices;
      var scale := new Scale<string>();
      var changed := scale.SetValue(currentVolume * 100.0);
      if Truthy(activeId) {
        scale.Connect(activeId.value);
      }
      volumeScale := scale;
      activeDeviceId := activeId;
      raised := false;
    }

    /** `on_volume_changed`: sets the device's volume to the slider's value as a fraction. */
    method OnVolumeChanged(scale: Scale<string>, deviceId: string)
      modifies this`log
      ensures log == old(log) + [Run(SetVolumeArgv(deviceId, scale.value / 100.0))]
    {
      log := log + [Run(SetVolumeArgv(deviceId, scale.value / 100.0))];
    }

    /**
     * Moves the slider to `v`, by a key or by the user: the scale stores the
     * clamped value, and when that changes the value and a handler is
     * connected, `on_volume_changed` runs for the captured id.
     */
    method MoveSlider(v: real)
      requires Valid() && volumeScale != null
      modifies this`log, volumeScale
      ensures Valid() && volumeScale.value == Clamp(v)
      ensures log == old(log) + if volumeScale.value != old(volumeScale.value) && Truthy(activeDeviceId)
                                then [Run(SetVolumeArgv(activeDeviceId.value, volumeScale.value / 100.0))]
                                else []
    {
      var changed := volumeScale.SetValue(v);
      if changed && volumeScale.handler.Some? {
        OnVolumeChanged(volumeScale, volumeScale.handler.value);
      }
    }

    /**
     * `on_key_pressed`: "q" quits, with or without Ctrl; a digit key moves the
     * slider to its percentage when there is a truthy active id and a
     * slider; every other key is not handled and changes nothing.
     */
    method OnKeyPressed(keyName: string, ctrlPressed: bool) returns (handled: bool)
      requires Valid()
      modifies this`log, volumeScale
      ensures Valid()
      ensures handled <==> keyName == "q" || (keyName in VolumeMap && Truthy(activeDeviceId) && volumeScale != null)
      ensures keyName == "q" ==> log == old(log) + [Quit] && (volumeScale != null ==> unchanged(volumeScale))
      ensures !handled ==> log == old(log) && (volumeScale != null ==> unchanged(volumeScale))
      ensures handled && keyName != "q" ==>
                volumeScale.value == VolumeMap[keyName] as real
                && log == old(log) + if volumeScale.value != old(volumeScale.value)
                                     then [Run(SetVolumeArgv(activeDeviceId.value, volumeScale.value / 100.0))]
                                     else []
    {
      if keyName == "q" || (keyName == "q" && ctrlPressed) {
        log := log + [Quit];
        return true;
      }
      if keyName in VolumeMap && Truthy(activeDeviceId) && volumeScale != null {
        var volumePercent := VolumeMap[keyName];
        VolumeMapSpec(keyName);
        MoveSlider(volumePercent as real);
        return true;
      }
      return false;
    }

    /** `on_device_clicked`: makes the row's device the default, then rebuilds from a fresh listing. */
    method OnDeviceClicked(deviceId: Option<string>, output: Option<seq<string>>) returns (raised: bool)
      requires Valid()
      modifies this
      ensures Valid() && log == old(log) + [Run(SetDefaultArgv(deviceId))]
      ensures raised <==> Listing(output).ValueError?
      ensures raised ==> activeDeviceId == old(activeDeviceId) && volumeScale == old(volumeScale)
      ensures !raised ==> fresh(volumeScale) && Shows(Rows(Listing(output).devices))
    {
      log := log + [Run(SetDefaultArgv(deviceId))];
      raised := SetupUi(output);
    }
  }
}
