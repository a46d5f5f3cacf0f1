/**
 * The state the C window keeps in the globals of main.c: the active device
 * id (-1 for none), the theme flag, the volume slider, and the commands the
 * handlers issue, in order.
 */
module CMain {
  import opened Wrappers
  import opened Slider
  import opened CAudio

  /** What the handlers ask of the outside world: `set_volume`, `set_default_device`, or quitting the application. */
  datatype Command = SetVolume(deviceId: int, fraction: real) | SetDefault(deviceId: int) | Quit

  /** The value of `active_device_id` when no device is active. */
  const NoDevice: int := -1

  /** The volume the slider shows, as a fraction, when no device is active. */
  const DefaultVolume: real := 0.5

  /** The key values `GDK_KEY_0` and `GDK_KEY_9`. */
  const KeyZero: nat := 0x30
  const KeyNine: nat := 0x39

  /** The colour scheme setting under which the window follows a dark system. */
  const PreferDark: string := "prefer-dark"

  /** The position of the last active device, None when no device is active. */
  function LastActive(devices: seq<AudioDevice>): (k: Option<nat>)
    ensures k.Some? ==> k.value < |devices| && devices[k.value].isActive
    ensures k.Some? ==> forall j :: k.value < j < |devices| ==> !devices[j].isActive
    ensures k.None? ==> forall j :: 0 <= j < |devices| ==> !devices[j].isActive
    decreases |devices|
  {
    if devices == [] then None
    else if devices[|devices| - 1].isActive then Some(|devices| - 1)
    else LastActive(devices[..|devices| - 1])
  }

  /** The id a rebuild makes active: that of the last active device, -1 when none is active. */
  function ActiveId(devices: seq<AudioDevice>): (id: int)
    ensures |devices| > 0 && devices[|devices| - 1].isActive ==> id == devices[|devices| - 1].id
    ensures (forall j :: 0 <= j < |devices| ==> !devices[j].isActive) ==> id == NoDevice
  {
    match LastActive(devices)
    case None => NoDevice
    case Some(k) => devices[k].id
  }

  /** The volume a rebuild shows: that of the last active device, the default when none is active. */
  function CurrentVolume(devices: seq<AudioDevice>): (v: real)
    ensures |devices| > 0 && devices[|devices| - 1].isActive ==> v == devices[|devices| - 1].volume
    ensures (forall j :: 0 <= j < |devices| ==> !devices[j].isActive) ==> v == DefaultVolume
  {
    match LastActive(devices)
    case None => DefaultVolume
    case Some(k) => devices[k].volume
  }

  /** An active device followed only by inactive ones decides the rebuild, whatever precedes it. */
  lemma {:induction false} LastActiveWins(devices: seq<AudioDevice>, i: nat)
    requires i < |devices| && devices[i].isActive
    requires forall j :: i < j < |devices| ==> !devices[j].isActive
    ensures LastActive(devices) == Some(i)
    ensures ActiveId(devices) == devices[i].id && CurrentVolume(devices) == devices[i].volume
  {
  }

  /** With no active device, or none at all, the id is -1 and the slider shows the default volume. */
  lemma {:induction false} NoActiveDevice(devices: seq<AudioDevice>)
    requires forall j :: 0 <= j < |devices| ==> !devices[j].isActive
    ensures ActiveId(devices) == NoDevice && CurrentVolume(devices) == DefaultVolume
  {
    assert LastActive(devices) == None;
  }

  /** Looking at one more device: the rebuild's choice moves to it exactly when it is active. */
  lemma {:induction false} RebuildStep(devices: seq<AudioDevice>, i: nat)
    requires i < |devices|
    ensures ActiveId(devices[..i + 1]) == if devices[i].isActive then devices[i].id else ActiveId(devices[..i])
    ensures CurrentVolume(devices[..i + 1]) == if devices[i].isActive then devices[i].volume else CurrentVolume(devices[..i])
  {
    assert devices[..i + 1][..i] == devices[..i];
  }

  /** The slider percentage digit key `keyval` asks for: 10 per digit, and 100 for "0". */
  function DigitVolume(keyval: nat): (percent: real)
    requires KeyZero <= keyval <= KeyNine
    ensures 10.0 <= percent <= 100.0
    ensures keyval == KeyZero <==> percent == 100.0
    ensures keyval != KeyZero ==> percent == (keyval - KeyZero) as real * 10.0
  {
    var num := keyval - KeyZero;
    (if num == 0 then 10 else num) as real * 10.0
  }

  /** Each digit key lands on its own percentage: different digits ask for different volumes. */
  lemma {:induction false} DigitVolumesDiffer(a: nat, b: nat)
    requires KeyZero <= a <= KeyNine && KeyZero <= b <= KeyNine && a != b
    ensures DigitVolume(a) != DigitVolume(b)
  {
  }

  class Popup {
    var activeDeviceId: int
    var isDarkTheme: bool
    var volumeScale: Scale?<int>
    var log: seq<Command>

    /** The slider stays in its range, and its handler is connected exactly when a device is active, capturing its id. */
    predicate Valid()
      reads this, volumeScale
    {
      volumeScale != null ==>
        volumeScale.Valid() && volumeScale.handler == (if activeDeviceId != NoDevice then Some(activeDeviceId) else None)
    }

    /** The window shows `devices`: the active id and the slider are the ones a rebuild from them picks. */
    predicate Shows(devices: seq<AudioDevice>)
      reads this, volumeScale
    {
      volumeScale != null && activeDeviceId == ActiveId(devices)
      && volumeScale.value == Clamp(CurrentVolume(devices) * 100.0)
    }

    /** The globals' initial values, before the first `setup_ui`. */
    constructor ()
      ensures Valid() && activeDeviceId == NoDevice && !isDarkTheme && volumeScale == null && log == []
    {
      activeDeviceId := NoDevice;
      isDarkTheme := false;
      volumeScale := null;
      log := [];
    }

    /**
     * The device-list part of `setup_ui`: resets the active id, fetches the
     * devices, lets the last active one choose the id and the volume, sets a
     * new slider to that volume and connects its handler when a device is
     * active. The parameters are the outcomes `get_audio_devices` depends on.
     */
    method SetupUi(output: Option<seq<string>>, memoryAvailable: bool, patternCompiles: bool)
      modifies this
      ensures Valid() && fresh(volumeScale)
      ensures Shows(Found(output, memoryAvailable, patternCompiles))
      ensures isDarkTheme == old(isDarkTheme) && log == old(log)
    {
      var devices, count := GetAudioDevices(output, memoryAvailable, patternCompiles);
      var currentVolume := DefaultVolume;
      activeDeviceId := NoDevice;
      if count == 0 {
        // the list stays empty
        NoActiveDevice([]);
      } else {
        currentVolume := ListDevices(devices, count);
      }
      var scale := new Scale<int>();
      volumeScale := scale;
      var changed := scale.SetValue(currentVolume * 100.0);
      if activeDeviceId != NoDevice {
        scale.Connect(activeDeviceId);
      }
    }

    /** The loop of `setup_ui` over the first `count` devices: each active one takes over the id and the volume. */
    method ListDevices(devices: array<AudioDevice>, count: nat) returns (currentVolume: real)
      requires count <= devices.Length && activeDeviceId == NoDevice
      modifies this`activeDeviceId
      ensures activeDeviceId == ActiveId(devices[..count]) && currentVolume == CurrentVolume(devices[..count])
    {
      currentVolume := DefaultVolume;
      for i := 0 to count
        invariant activeDeviceId == ActiveId(devices[..i]) && currentVolume == CurrentVolume(devices[..i])
      {
        RebuildStep(devices[..count], i);
        assert devices[..count][..i + 1] == devices[..i + 1] && devices[..count][..i] == devices[..i];
        if devices[i].isActive {
          currentVolume := devices[i].volume;
          activeDeviceId := devices[i].id;
        }
      }
    }

    /** `on_volume_changed`: sets the captured device's volume to the slider's value as a fraction. */
    method OnVolumeChanged(scale: Scale<int>, deviceId: int)
      modifies this`log
      ensures log == old(log) + [SetVolume(deviceId, scale.value / 100.0)]
    {
      log := log + [SetVolume(deviceId, scale.value / 100.0)];
    }

    /**
     * Moves the slider to `v`, by a key or by the user: the scale stores the
     * clamped value, and when that changes the value and a device is active,
     * `on_volume_changed` runs for it.
     */
    method MoveSlider(v: real)
      requires Valid() && volumeScale != null
      modifies this`log, volumeScale
      ensures Valid() && volumeScale.value == Clamp(v)
      ensures log == old(log) + if volumeScale.value != old(volumeScale.value) && activeDeviceId != NoDevice
                                then [SetVolume(activeDeviceId, volumeScale.value / 100.0)]
                                else []
    {
      var changed := volumeScale.SetValue(v);
      if changed && volumeScale.handler.Some? {
        OnVolumeChanged(volumeScale, volumeScale.handler.value);
      }
    }

    /**
     * `on_key_pressed`: "q" quits; while a device is active and a slider
     * exists, "grave" mutes, "minus" and "equal" step the slider by 5, and the
     * digit keys 1-9 and 0 set it to 10-90 and 100. Control is ignored, and
     * every other key is not handled and changes nothing.
     */
    method OnKeyPressed(keyval: nat, keyName: string, ctrlPressed: bool) returns (handled: bool)
      requires Valid()
      modifies this`log, volumeScale
      ensures Valid()
      ensures keyName == "q" ==> handled && log == old(log) + [Quit] && (volumeScale != null ==> unchanged(volumeScale))
      ensures keyName != "q" && (activeDeviceId == NoDevice || volumeScale == null) ==>
                !handled && log == old(log) && (volumeScale != null ==> unchanged(volumeScale))
      ensures keyName != "q" && activeDeviceId != NoDevice && volumeScale != null ==>
                handled == (keyName in ["grave", "minus", "equal"] || KeyZero <= keyval <= KeyNine)
                && (keyName == "grave" ==> volumeScale.value == Lower)
                && (keyName == "minus" ==> volumeScale.value == Clamp(old(volumeScale.value) - 5.0))
                && (keyName == "equal" ==> volumeScale.value == Clamp(old(volumeScale.value) + 5.0))
                && (keyName !in ["grave", "minus", "equal"] && KeyZero <= keyval <= KeyNine ==>
                      volumeScale.value == DigitVolume(keyval))
                && (!handled ==> unchanged(volumeScale))
                && log == old(log) + if volumeScale.value != old(volumeScale.value)
                                     then [SetVolume(activeDeviceId, volumeScale.value / 100.0)]
                                     else []
    {
      if keyName == "q" {
        log := log + [Quit];
        return true;
      }
      if activeDeviceId != NoDevice && volumeScale != null {
        if keyName == "grave" {
          MoveSlider(0.0);
          return true;
        }
        if keyName == "minus" {
          var val := volumeScale.value;
          MoveSlider(val - 5.0);
          return true;
        }
        if keyName == "equal" {
          var val := volumeScale.value;
          MoveSlider(val + 5.0);
          return true;
        }
        if KeyZero <= keyval <= KeyNine {
          var num := keyval - KeyZero;
          if num == 0 {
            num := 10;
          }
          MoveSlider(num as real * 10.0);
          return true;
        }
      }
      return false;
    }

    /** `on_device_clicked`: makes the row's device the default, then rebuilds from a fresh listing. */
    method OnDeviceClicked(deviceId: int, output: Option<seq<string>>, memoryAvailable: bool, patternCompiles: bool)
      modifies this
      ensures Valid() && fresh(volumeScale)
      ensures Shows(Found(output, memoryAvailable, patternCompiles))
      ensures isDarkTheme == old(isDarkTheme) && log == old(log) + [SetDefault(deviceId)]
    {
      log := log + [SetDefault(deviceId)];
      SetupUi(output, memoryAvailable, patternCompiles);
    }

    /** `toggle_theme`: flips the theme and touches nothing else. */
    method ToggleTheme()
      modifies this`isDarkTheme
      ensures isDarkTheme == !old(isDarkTheme)
    {
      isDarkTheme := !isDarkTheme;
    }

    /** `update_theme_from_system`: the theme is dark exactly when the colour scheme is "prefer-dark". */
    method UpdateThemeFromSystem(scheme: string)
      modifies this`isDarkTheme
      ensures isDarkTheme <==> scheme == PreferDark
    {
      isDarkTheme := scheme == PreferDark;
    }
  }
}
