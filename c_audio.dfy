/**
 * The C parser `get_audio_devices` and its icon helper `get_icon_name`: the
 * same scan as the Python one, with C's end-of-section test, fixed-size
 * buffers and a cap of 32 devices.
 */
module CAudio {
  import opened Wrappers
  import opened Text
  import opened Decimal
  import opened IconPolicy
  import opened SinkLine
  import opened Status

  /** `MAX_DEVICES`: the array holds this many devices and one terminator. */
  const MaxDevices: nat := 32
  /** Characters kept of a name: `char name[256]` less the NUL. */
  const NameCapacity: nat := 255
  /** Characters kept of the id and the volume: `char id_str[16]`, `char vol_str[16]` less the NUL. */
  const FieldCapacity: nat := 15

  /** `AudioDevice` of audio.h; an `id` of -1 marks the end of the array. */
  datatype AudioDevice = AudioDevice(name: string, iconName: string, isActive: bool, volume: real, id: int)

  /** The device filled in from one match: the three captures truncated to their buffers, then `atoi` and `atof`. */
  function DeviceOf(m: SinkMatch): (d: AudioDevice)
    requires AllDigits(m.idDigits) && AllVolumeChars(m.volumeDigits)
    ensures |d.name| <= NameCapacity && |d.name| <= |m.name| && d.name == m.name[..|d.name|]
    ensures |m.name| <= NameCapacity ==> d.name == m.name
    ensures d.iconName == IconName(IconFor(d.name))
    ensures d.isActive == m.active
    ensures d.id >= 0 && d.volume >= 0.0
  {
    var name := Prefix(m.name, NameCapacity);
    AudioDevice(name, IconName(IconFor(name)), m.active,
                Atof(Prefix(m.volumeDigits, FieldCapacity)), Atoi(Prefix(m.idDigits, FieldCapacity)))
  }

  /** Captures that fit their buffers are stored whole: the id and the volume are the values of their digits. */
  lemma {:induction false} DeviceOfShortFields(m: SinkMatch)
    requires AllDigits(m.idDigits) && AllVolumeChars(m.volumeDigits)
    requires |m.name| <= NameCapacity && |m.idDigits| <= FieldCapacity && |m.volumeDigits| <= FieldCapacity
    ensures DeviceOf(m) == AudioDevice(m.name, IconName(IconFor(m.name)), m.active, Atof(m.volumeDigits), NatValue(m.idDigits))
  {
  }

  /** An id longer than its buffer is read from its first 15 digits only. */
  lemma {:induction false} LongIdTruncated(m: SinkMatch)
    requires AllDigits(m.idDigits) && AllVolumeChars(m.volumeDigits)
    requires |m.idDigits| > FieldCapacity
    ensures DeviceOf(m).id == NatValue(m.idDigits[..FieldCapacity])
    ensures DeviceOf(m).id < Pow10(FieldCapacity)
  {
  }

  /**
   * `get_icon_name`: copies at most 255 characters of the name into a
   * 256-character buffer, lower-cases it in place up to the first NUL, and
   * picks the icon from the lowered text.
   */
  method GetIconName(name: string) returns (iconName: string)
    ensures iconName == IconName(IconFor(CString(Prefix(name, NameCapacity))))
  {
    var src := Prefix(name, NameCapacity);
    var lowerName := new char[NameCapacity + 1](k requires 0 <= k <= NameCapacity => if k < |src| then src[k] else '\0');
    ghost var text := CString(src);
    assert |text| <= |src| <= NameCapacity;
    forall k | 0 <= k < |text| ensures lowerName[k] == text[k] {
      assert text[k] == src[k];
    }
    assert lowerName[|text|] == '\0';
    var i := 0;
    while lowerName[i] != '\0'
      invariant 0 <= i <= |text| <= NameCapacity
      invariant forall k :: 0 <= k < i ==> lowerName[k] == LowerChar(text[k])
      invariant forall k :: i <= k < |text| ==> lowerName[k] == text[k]
      invariant lowerName[|text|] == '\0'
      decreases |text| - i
    {
      lowerName[i] := LowerChar(lowerName[i]);
      i := i + 1;
    }
    assert lowerName[..i] == AsciiLower(text);
    iconName := IconName(Classify(lowerName[..i]));
  }

  /** The outcomes of the loop's three tests on one line: `strstr` for the header, `strstr` for the markers, `regexec`. */
  datatype Probe = Probe(header: bool, marker: bool, entry: Option<AudioDevice>)

  /** The probe of one line; a match gives the device filled in from it. */
  function ProbeOf(line: string): Probe {
    Probe(IsSinksHeader(line), IsSectionMarker(line),
          match Match(line) case None => None case Some(m) => Some(DeviceOf(m)))
  }

  /** The probes of the reads, each read seen up to its first NUL. */
  function Probes(output: seq<string>): (probes: seq<Probe>)
    ensures |probes| == |output|
    decreases |output|
  {
    if output == [] then [] else [ProbeOf(CString(output[0]))] + Probes(output[1..])
  }

  lemma {:induction false} ProbesAt(output: seq<string>, i: nat)
    requires i < |output|
    ensures Probes(output)[i] == ProbeOf(CString(output[i]))
    decreases i
  {
    if i > 0 {
      ProbesAt(output[1..], i - 1);
    }
  }

  /** What one line does to the scan: go on with a new flag and the devices it adds, or end it. */
  datatype Step = Next(inSinks: bool, added: seq<AudioDevice>) | Stop

  /**
   * One line of the read loop: a header line sets the flag; inside the block
   * any other line naming a later section ends the scan, and a line the sink
   * pattern matches adds a device, unless `count` is 32 already, which ends
   * the scan too.
   */
  function LineStep(p: Probe, inSinks: bool, count: nat): (s: Step)
    ensures s.Next? ==> |s.added| <= 1 && (count >= MaxDevices ==> s.added == [])
  {
    if p.header then Next(true, [])
    else if !inSinks then Next(false, [])
    else if p.marker then Stop
    else match p.entry
      case None => Next(true, [])
      case Some(d) => if count >= MaxDevices then Stop else Next(true, [d])
  }

  /** The step of one line, in the terms of the loop's own tests on it. */
  lemma {:induction false} LineStepOf(line: string, inSinks: bool, count: nat)
    ensures LineStep(ProbeOf(line), inSinks, count)
            == if IsSinksHeader(line) then Next(true, [])
               else if !inSinks then Next(false, [])
               else if IsSectionMarker(line) then Stop
               else match Match(line)
                 case None => Next(true, [])
                 case Some(m) => if count >= MaxDevices then Stop else Next(true, [DeviceOf(m)])
  {
  }

  /** The devices the read loop stores from line `i` on, given the flag and the number stored so far. */
  function Scan(probes: seq<Probe>, i: nat, inSinks: bool, count: nat): (r: seq<AudioDevice>)
    requires i <= |probes| && count <= MaxDevices
    ensures |r| <= MaxDevices - count
    decreases |probes| - i
  {
    if i == |probes| then []
    else match LineStep(probes[i], inSinks, count)
      case Stop => []
      case Next(flag, added) => added + Scan(probes, i + 1, flag, count + |added|)
  }

  lemma {:induction false} Regroups(a: seq<AudioDevice>, d: seq<AudioDevice>, b: seq<AudioDevice>)
    ensures (a + d) + b == a + (d + b)
  {
  }

  /** What the read loop has stored when it ends, given what it has stored before line `i`: the scan with those devices in front. */
  function Acc(probes: seq<Probe>, i: nat, inSinks: bool, count: nat, stored: seq<AudioDevice>): seq<AudioDevice>
    requires i <= |probes| && count <= MaxDevices
    decreases |probes| - i
  {
    if i == |probes| then stored
    else match LineStep(probes[i], inSinks, count)
      case Stop => stored
      case Next(flag, added) => Acc(probes, i + 1, flag, count + |added|, stored + added)
  }

  /** Storing as the loop goes and scanning what is left agree: the loop ends with the devices of the scan after those already stored. */
  lemma {:induction false} AccIsScan(probes: seq<Probe>, i: nat, inSinks: bool, count: nat, stored: seq<AudioDevice>)
    requires i <= |probes| && count <= MaxDevices
    ensures Acc(probes, i, inSinks, count, stored) == stored + Scan(probes, i, inSinks, count)
    decreases |probes| - i
  {
    if i < |probes| {
      match LineStep(probes[i], inSinks, count)
      case Stop =>
        assert stored + [] == stored;
      case Next(flag, added) =>
        AccIsScan(probes, i + 1, flag, count + |added|, stored + added);
        Regroups(stored, added, Scan(probes, i + 1, flag, count + |added|));
    }
  }

  /** One read of the loop: a step that ends the scan keeps what is stored, any other step stores what it adds and goes on. */
  lemma {:induction false} AccStep(probes: seq<Probe>, i: nat, inSinks: bool, count: nat, s: Step, stored: seq<AudioDevice>)
    requires i < |probes| && count <= MaxDevices && s == LineStep(probes[i], inSinks, count)
    ensures s.Stop? ==> Acc(probes, i, inSinks, count, stored) == stored
    ensures s.Next? ==> (count + |s.added| <= MaxDevices
                         && Acc(probes, i, inSinks, count, stored) == Acc(probes, i + 1, s.inSinks, count + |s.added|, stored + s.added))
  {
  }

  /** One iteration of the read loop: the scan from line `i` is the step of line `i` followed by the scan from line `i + 1`. */
  lemma {:induction false} ScanStep(probes: seq<Probe>, i: nat, inSinks: bool, count: nat)
    requires i < |probes| && count <= MaxDevices
    ensures Scan(probes, i, inSinks, count) == match LineStep(probes[i], inSinks, count)
              case Stop => []
              case Next(flag, added) => added + Scan(probes, i + 1, flag, count + |added|)
  {
  }

  /** Writing slot `count` extends the first `count` slots by the value written. */
  lemma {:induction false} UpdateExtends(slots: seq<AudioDevice>, count: nat, d: AudioDevice)
    requires count < |slots|
    ensures slots[count := d][..count + 1] == slots[..count] + [d]
  {
  }

  /** A line without NUL yields a name capture without NUL. */
  lemma {:induction false} CaptureHasNoNul(line: string)
    requires forall i :: 0 <= i < |line| ==> line[i] != '\0'
    requires Match(line).Some?
    ensures forall i :: 0 <= i < |Match(line).value.name| ==> Match(line).value.name[i] != '\0'
  {
    var r := MatchSpans(line);
    forall i | 0 <= i < |Match(line).value.name| ensures Match(line).value.name[i] != '\0' {
      assert Match(line).value.name[i] == line[r.0 + i];
    }
  }

  /** Fills slot `count` from the captures of one match: the id, the name, the volume and the icon. */
  method StoreDevice(devices: array<AudioDevice>, count: nat, m: SinkMatch)
    requires count < devices.Length && Storable(m)
    modifies devices
    ensures devices[..] == old(devices[..])[count := DeviceOf(m)]
  {
    var idText := Prefix(m.idDigits, FieldCapacity);
    var name := Prefix(m.name, NameCapacity);
    var volumeText := Prefix(m.volumeDigits, FieldCapacity);
    CStringWhole(name);
    var iconName := GetIconName(name);
    devices[count] := AudioDevice(name, iconName, m.active, Atof(volumeText), Atoi(idText));
  }

  /** A match whose captures can be stored: digits for the id, volume characters, and a name without NUL. */
  predicate Storable(m: SinkMatch) {
    AllDigits(m.idDigits) && AllVolumeChars(m.volumeDigits) && forall k :: 0 <= k < |m.name| ==> m.name[k] != '\0'
  }

  /**
   * The tests of the read loop on read `i`, in the order it makes them: the
   * header test, then inside the block the end-of-section test, the match
   * and the cap. `m` is the match whose device the step adds.
   */
  method InspectLine(output: seq<string>, i: nat, inSinks: bool, count: nat) returns (step: Step, m: Option<SinkMatch>)
    requires i < |output|
    ensures step == LineStep(Probes(output)[i], inSinks, count)
    ensures step.Next? && step.added != [] ==> m.Some? && Storable(m.value) && step.added == [DeviceOf(m.value)]
  {
    var line := CString(output[i]);
    ProbesAt(output, i);
    LineStepOf(line, inSinks, count);
    m := None;
    if IsSinksHeader(line) {
      return Next(true, []), m;
    }
    if !inSinks {
      return Next(false, []), m;
    }
    if IsSectionMarker(line) {
      return Stop, m;
    }
    m := Match(line);
    if m.None? {
      return Next(true, []), m;
    }
    if count >= MaxDevices {
      return Stop, m;
    }
    CaptureHasNoNul(line);
    return Next(true, [DeviceOf(m.value)]), m;
  }

  /** Stores what a step of the loop adds in slot `count`: the first slots are those stored before and the step's device. */
  method StoreStep(devices: array<AudioDevice>, count: nat, step: Step, m: Option<SinkMatch>) returns (countAfter: nat)
    requires step.Next? && |step.added| <= 1 && count + |step.added| <= MaxDevices && devices.Length == MaxDevices + 1
    requires step.added != [] ==> m.Some? && Storable(m.value) && step.added == [DeviceOf(m.value)]
    modifies devices
    ensures countAfter == count + |step.added| <= MaxDevices
    ensures devices[..countAfter] == old(devices[..count]) + step.added
  {
    countAfter := count;
    if step.added != [] {
      ghost var previous := devices[..];
      StoreDevice(devices, count, m.value);
      UpdateExtends(previous, count, DeviceOf(m.value));
      countAfter := count + 1;
    }
  }

  /**
   * One pass of the read loop on read `i`: inspects the line and, unless the
   * step ends the scan, stores what it adds. `stored` is what the first
   * `count` slots hold before, `storedAfter` what they hold after.
   */
  method ReadLine(output: seq<string>, devices: array<AudioDevice>, i: nat, inSinks: bool, count: nat,
                  ghost stored: seq<AudioDevice>)
    returns (stop: bool, inSinksAfter: bool, countAfter: nat, ghost storedAfter: seq<AudioDevice>)
    requires i < |output| && count <= MaxDevices && devices.Length == MaxDevices + 1
    requires devices[..count] == stored
    modifies devices
    ensures countAfter <= MaxDevices && devices[..countAfter] == storedAfter
    ensures stop ==> Acc(Probes(output), i, inSinks, count, stored) == storedAfter
    ensures !stop ==> Acc(Probes(output), i, inSinks, count, stored)
                      == Acc(Probes(output), i + 1, inSinksAfter, countAfter, storedAfter)
  {
    var step, m := InspectLine(output, i, inSinks, count);
    AccStep(Probes(output), i, inSinks, count, step, stored);
    if step.Stop? {
      return true, inSinks, count, stored;
    }
    countAfter := StoreStep(devices, count, step, m);
    return false, step.inSinks, countAfter, stored + step.added;
  }

  /** The read loop of `get_audio_devices`: stores the devices the scan finds in the first `count` slots. */
  method ReadLines(output: seq<string>, devices: array<AudioDevice>) returns (count: nat)
    requires devices.Length == MaxDevices + 1
    modifies devices
    ensures count <= MaxDevices && devices[..count] == Scan(Probes(output), 0, false, 0)
  {
    count := 0;
    ghost var total := Acc(Probes(output), 0, false, 0, []);
    AccIsScan(Probes(output), 0, false, 0, []);
    ghost var stored: seq<AudioDevice> := [];
    var inSinks := false;
    var i := 0;
    while i < |output|
      invariant 0 <= i <= |output| == |Probes(output)| && count <= MaxDevices
      invariant devices[..count] == stored
      invariant Acc(Probes(output), i, inSinks, count, stored) == total
    {
      var stop;
      stop, inSinks, count, stored := ReadLine(output, devices, i, inSinks, count, stored);
      if stop {
        break;
      }
      i := i + 1;
    }
    assert [] + Scan(Probes(output), 0, false, 0) == Scan(Probes(output), 0, false, 0);
  }

  /** The devices a caller of `get_audio_devices` can read: none when it fails, otherwise those the scan finds. */
  function Found(output: Option<seq<string>>, memoryAvailable: bool, patternCompiles: bool): (r: seq<AudioDevice>)
    ensures |r| <= MaxDevices
  {
    if !memoryAvailable || output.None? || !patternCompiles then [] else Scan(Probes(output.value), 0, false, 0)
  }

  /**
   * `get_audio_devices`. `output` holds the successive `fgets` output of the
   * `wpctl status` pipe, None when `popen` fails; `memoryAvailable` and
   * `patternCompiles` are the outcomes of `malloc` and `regcomp`. On failure
   * the result is null and the count 0; otherwise a fresh array of 33 slots
   * whose first `count` entries are the devices found and whose next entry
   * has id -1.
   */
  method GetAudioDevices(output: Option<seq<string>>, memoryAvailable: bool, patternCompiles: bool)
    returns (devices: array?<AudioDevice>, count: nat)
    ensures devices == null <==> !memoryAvailable || output.None? || !patternCompiles
    ensures devices == null ==> count == 0
    ensures devices != null ==> fresh(devices) && devices.Length == MaxDevices + 1 && count <= MaxDevices
    ensures devices != null ==> devices[..count] == Scan(Probes(output.value), 0, false, 0) && devices[count].id == -1
  {
    count := 0;
    if !memoryAvailable || output.None? || !patternCompiles {
      return null, 0;
    }
    devices := new AudioDevice[MaxDevices + 1];
    count := ReadLines(output.value, devices);
    ghost var stored := devices[..count];
    devices[count] := devices[count].(id := -1);
    assert devices[..count] == stored;
  }

  // ----- the devices found, declaratively -----

  /** The device a line inside the block contributes: none for a header line or a line the pattern does not match. */
  function Entry(p: Probe): (r: seq<AudioDevice>)
    ensures |r| <= 1
  {
    if p.header || p.entry.None? then [] else [p.entry.value]
  }

  /** A line that ends the C block: not a header line, and naming a later section, with or without the bar. */
  predicate EndsBlock(p: Probe) {
    !p.header && p.marker
  }

  /** Index of the first header line from `i` on, or |probes|. */
  function HeaderFrom(probes: seq<Probe>, i: nat): (j: nat)
    requires i <= |probes|
    ensures i <= j <= |probes|
    decreases |probes| - i
  {
    if i == |probes| || probes[i].header then i else HeaderFrom(probes, i + 1)
  }

  /** Index of the first line from `i` on that ends the block, or |probes|. */
  function BlockEnd(probes: seq<Probe>, i: nat): (j: nat)
    requires i <= |probes|
    ensures i <= j <= |probes|
    decreases |probes| - i
  {
    if i == |probes| || EndsBlock(probes[i]) then i else BlockEnd(probes, i + 1)
  }

  /** The devices of lines `i` up to `j`, one per entry line, in order and without a cap. */
  function Collect(probes: seq<Probe>, i: nat, j: nat): (r: seq<AudioDevice>)
    requires i <= j <= |probes|
    ensures |r| <= j - i
    decreases j - i
  {
    if i == j then [] else Entry(probes[i]) + Collect(probes, i + 1, j)
  }

  /** Inside the block, a line that does not end it contributes its entry, unless the cap is reached. */
  lemma {:induction false} LineStepInBlock(p: Probe, count: nat)
    requires !EndsBlock(p)
    ensures count < MaxDevices ==> LineStep(p, true, count) == Next(true, Entry(p))
    ensures count >= MaxDevices ==> LineStep(p, true, count) == if Entry(p) == [] then Next(true, []) else Stop
  {
  }

  /** Inside the block, with room left, a line that does not end the block stores its entry and the scan goes on. */
  lemma {:induction false} ScanStepWithRoom(probes: seq<Probe>, i: nat, count: nat)
    requires i < |probes| && count < MaxDevices && !EndsBlock(probes[i])
    ensures Scan(probes, i, true, count) == Entry(probes[i]) + Scan(probes, i + 1, true, count + |Entry(probes[i])|)
  {
    LineStepInBlock(probes[i], count);
  }

  /** Inside the block, with no room left, an entry line ends the scan and any other line is passed over. */
  lemma {:induction false} ScanStepWhenFull(probes: seq<Probe>, i: nat)
    requires i < |probes| && !EndsBlock(probes[i])
    ensures Scan(probes, i, true, MaxDevices) == if Entry(probes[i]) == [] then Scan(probes, i + 1, true, MaxDevices) else []
  {
    LineStepInBlock(probes[i], MaxDevices);
  }

  /** A line before the end of the block adds its entry to the block's devices. */
  lemma {:induction false} CollectStep(probes: seq<Probe>, i: nat)
    requires i < |probes| && !EndsBlock(probes[i])
    ensures BlockEnd(probes, i) == BlockEnd(probes, i + 1)
    ensures Collect(probes, i, BlockEnd(probes, i)) == Entry(probes[i]) + Collect(probes, i + 1, BlockEnd(probes, i + 1))
  {
  }

  /** What the scan stores from line `i` on inside the block: the entries before its end, as many as the room left allows. */
  predicate StoresBlock(probes: seq<Probe>, i: nat, count: nat)
    requires i <= |probes| && count <= MaxDevices
  {
    Scan(probes, i, true, count) == Prefix(Collect(probes, i, BlockEnd(probes, i)), MaxDevices - count)
  }

  /** With room left, a line before the end of the block passes the property on from the next line. */
  lemma {:induction false} BlockStepWithRoom(probes: seq<Probe>, i: nat, count: nat)
    requires i < |probes| && count < MaxDevices && !EndsBlock(probes[i])
    requires StoresBlock(probes, i + 1, count + |Entry(probes[i])|)
    ensures StoresBlock(probes, i, count)
  {
    CollectStep(probes, i);
    ScanStepWithRoom(probes, i, count);
    PrefixAppend(Entry(probes[i]), Collect(probes, i + 1, BlockEnd(probes, i + 1)), MaxDevices - count);
  }

  /** With no room left, a line before the end of the block that is not an entry passes the property on from the next line. */
  lemma {:induction false} BlockStepWhenFull(probes: seq<Probe>, i: nat)
    requires i < |probes| && !EndsBlock(probes[i])
    requires Entry(probes[i]) == [] ==> StoresBlock(probes, i + 1, MaxDevices)
    ensures StoresBlock(probes, i, MaxDevices)
  {
    CollectStep(probes, i);
    ScanStepWhenFull(probes, i);
  }

  /** Inside the block the scan stores the entries before the end of the block, as many as the room left allows. */
  lemma {:induction false} ScanBlock(probes: seq<Probe>, i: nat, count: nat)
    requires i <= |probes| && count <= MaxDevices
    ensures Scan(probes, i, true, count) == Prefix(Collect(probes, i, BlockEnd(probes, i)), MaxDevices - count)
    decreases |probes| - i
  {
    if i < |probes| && !EndsBlock(probes[i]) {
      if count < MaxDevices {
        ScanBlock(probes, i + 1, count + |Entry(probes[i])|);
        BlockStepWithRoom(probes, i, count);
      } else {
        if Entry(probes[i]) == [] {
          ScanBlock(probes, i + 1, count);
        }
        BlockStepWhenFull(probes, i);
      }
    }
  }

  /** Before the first header line nothing is stored; the scan of the block starts after it. */
  lemma {:induction false} ScanBeforeHeader(probes: seq<Probe>, i: nat)
    requires i <= |probes|
    ensures var h := HeaderFrom(probes, i);
            Scan(probes, i, false, 0) == if h == |probes| then [] else Scan(probes, h + 1, true, 0)
    decreases |probes| - i
  {
    if i < |probes| && !probes[i].header {
      ScanBeforeHeader(probes, i + 1);
    }
  }

  /**
   * The whole parser: the entries of the block after the first header line,
   * up to the first non-header line naming a later section, capped at 32.
   */
  lemma {:induction false} ScanIsCappedCollect(probes: seq<Probe>)
    ensures var h := HeaderFrom(probes, 0);
            Scan(probes, 0, false, 0)
            == if h == |probes| then [] else Prefix(Collect(probes, h + 1, BlockEnd(probes, h + 1)), MaxDevices)
  {
    ScanBeforeHeader(probes, 0);
    var h := HeaderFrom(probes, 0);
    if h < |probes| {
      ScanBlock(probes, h + 1, 0);
    }
  }

  /** Inside the block, a line naming a later section ends the scan even when it carries the bar. */
  lemma {:induction false} MarkerEnds(line: string, count: nat)
    requires !IsSinksHeader(line) && IsSectionMarker(line)
    ensures LineStep(ProbeOf(line), true, count) == Stop
  {
  }

  /** Inside the block, a matching line that names no later section adds its device while there is room. */
  lemma {:induction false} EntryAdds(line: string, count: nat)
    requires !IsSinksHeader(line) && !IsSectionMarker(line) && Match(line).Some? && count < MaxDevices
    ensures LineStep(ProbeOf(line), true, count) == Next(true, [DeviceOf(Match(line).value)])
  {
  }

  /** With 32 devices stored, the next entry line ends the scan. */
  lemma {:induction false} CapEnds(probes: seq<Probe>, i: nat)
    requires i < |probes|
    requires !EndsBlock(probes[i]) && Entry(probes[i]) != []
    ensures Scan(probes, i, true, MaxDevices) == []
  {
    LineStepInBlock(probes[i], MaxDevices);
  }

  /** A line that does not start with the bar contributes nothing, blank lines included. */
  lemma {:induction false} NonBarLineSkipped(line: string)
    requires !BarLine(line)
    ensures Entry(ProbeOf(line)) == []
  {
    if Match(line).Some? {
      MatchOnlyBarLines(line);
    }
  }
}
