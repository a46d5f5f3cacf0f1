/**
 * The Python parser `AudioManager.get_audio_devices` and the `wpctl` command
 * lines of `set_volume` and `set_default_device`.
 */
module PyAudio {
  import opened Wrappers
  import opened Text
  import opened Decimal
  import opened IconPolicy
  import opened SinkLine
  import opened Status

  /** The tuple `(name, icon_name, is_active, volume, device_id)`; the id is None only for the placeholder row. */
  datatype PyDevice = PyDevice(name: string, iconName: string, isActive: bool, volume: real, id: Option<string>)

  /** The outcome of a call: the device list, or the ValueError `float()` raises on a malformed volume. */
  datatype PyResult = Ok(devices: seq<PyDevice>) | ValueError

  /** `done` followed by the outcome of the rest of the scan; an exception discards what was collected. */
  function Then(done: seq<PyDevice>, r: PyResult): PyResult {
    match r
    case Ok(ds) => Ok(done + ds)
    case ValueError => ValueError
  }

  /** The tuple built from one match; None when `float()` raises on the volume capture. */
  function DeviceOf(m: SinkMatch): (r: Option<PyDevice>)
    ensures r.Some? ==> r.value.volume >= 0.0 && r.value.isActive == m.active && r.value.id == Some(m.idDigits)
    ensures r.Some? ==> r.value.iconName == IconName(IconFor(r.value.name))
  {
    var name := Strip(m.name);
    var volume := if m.volumeDigits != "" then PyFloat(m.volumeDigits) else Some(0.0);
    match volume
    case None => None
    case Some(v) => Some(PyDevice(name, IconName(IconFor(name)), m.active, v, Some(m.idDigits)))
  }

  /** A captured volume yields a device exactly when it is a well-formed decimal. */
  lemma {:induction false} DeviceOfAccepts(m: SinkMatch)
    requires |m.volumeDigits| > 0 && AllVolumeChars(m.volumeDigits)
    ensures DeviceOf(m).Some? <==> WellFormed(m.volumeDigits)
  {
    PyFloatAcceptsWellFormed(m.volumeDigits);
  }

  /** What one line of the block contributes. */
  datatype Yield = NoEntry | Device(d: PyDevice) | Malformed

  lemma {:induction false} ThenAppend(a: seq<PyDevice>, b: seq<PyDevice>, r: PyResult)
    ensures Then(a, Then(b, r)) == Then(a + b, r)
  {
    if r.Ok? {
      assert a + (b + r.devices) == (a + b) + r.devices;
    }
  }

  /** What the sink pattern and `float()` make of one line: no match, the device of the match, or a ValueError. */
  function EntryYield(line: string): Yield {
    match Match(line)
    case None => NoEntry
    case Some(m) =>
      match DeviceOf(m)
      case None => Malformed
      case Some(d) => Device(d)
  }

  /**
   * The outcomes of the loop's tests on one line: "Sinks:" in it, its
   * stripped form starting with the bar, its stripped form empty, a later
   * section named in it, and what the sink pattern and `float()` make of it.
   */
  datatype Probe = Probe(header: bool, bar: bool, blank: bool, marker: bool, entry: Yield)

  function ProbeOf(line: string): Probe {
    Probe(IsSinksHeader(line), BarLine(line), Strip(line) == "", IsSectionMarker(line), EntryYield(line))
  }

  function Probes(lines: seq<string>): (probes: seq<Probe>)
    ensures |probes| == |lines|
    decreases |lines|
  {
    if lines == [] then [] else [ProbeOf(lines[0])] + Probes(lines[1..])
  }

  lemma {:induction false} ProbesAt(lines: seq<string>, i: nat)
    requires i < |lines|
    ensures Probes(lines)[i] == ProbeOf(lines[i])
    decreases i
  {
    if i > 0 {
      assert Probes(lines)[i] == Probes(lines[1..])[i - 1];
      ProbesAt(lines[1..], i - 1);
      assert lines[1..][i - 1] == lines[i];
    }
  }

  /** A line the pattern matches starts with the bar once stripped: the probe of a non-bar line has no entry. */
  predicate Coherent(p: Probe) {
    !p.bar ==> p.entry.NoEntry?
  }

  predicate AllCoherent(probes: seq<Probe>) {
    forall k :: 0 <= k < |probes| ==> Coherent(probes[k])
  }

  lemma {:induction false} NonBarLineNoMatch(line: string)
    requires !BarLine(line)
    ensures Match(line).None?
  {
    if Match(line).Some? {
      MatchOnlyBarLines(line);
    }
  }

  /** Every probe of real lines is coherent. */
  lemma {:induction false} ProbesCoherent(lines: seq<string>)
    ensures AllCoherent(Probes(lines))
  {
    forall k | 0 <= k < |lines| ensures Coherent(Probes(lines)[k]) {
      ProbesAt(lines, k);
      if !BarLine(lines[k]) {
        NonBarLineNoMatch(lines[k]);
      }
    }
  }

  /** What one line does to the scan: go on with a new flag and the devices it adds, end it, or raise. */
  datatype Step = Next(inSinks: bool, added: seq<PyDevice>) | Stop | Raise

  /**
   * One line of the loop: a header line sets the flag; inside the block a
   * blank non-bar line is skipped and a non-bar line naming a later section
   * ends the scan; every other line inside the block is matched against the
   * sink pattern.
   */
  function LineStep(p: Probe, inSinks: bool): (s: Step)
    ensures s.Next? ==> |s.added| <= 1
  {
    if p.header then Next(true, [])
    else if inSinks && !p.bar && p.blank then Next(true, [])
    else if inSinks && !p.bar && p.marker then Stop
    else if !inSinks then Next(false, [])
    else match p.entry
      case NoEntry => Next(true, [])
      case Malformed => Raise
      case Device(d) => Next(true, [d])
  }

  /** The outcome of the loop from line `i` on, given the flag. */
  function Scan(probes: seq<Probe>, i: nat, inSinks: bool): (r: PyResult)
    requires i <= |probes|
    decreases |probes| - i
  {
    if i == |probes| then Ok([])
    else match LineStep(probes[i], inSinks)
      case Stop => Ok([])
      case Raise => ValueError
      case Next(flag, added) => Then(added, Scan(probes, i + 1, flag))
  }

  /** One iteration of the loop: the scan from line `i` is the step of line `i` followed by the scan from line `i + 1`. */
  lemma {:induction false} ScanStep(probes: seq<Probe>, i: nat, inSinks: bool)
    requires i < |probes|
    ensures Scan(probes, i, inSinks) == match LineStep(probes[i], inSinks)
              case Stop => Ok([])
              case Raise => ValueError
              case Next(flag, added) => Then(added, Scan(probes, i + 1, flag))
  {
  }

  /** What `get_audio_devices` returns: `[]` when running `wpctl` raised, otherwise the outcome of the scan. */
  function Listing(output: Option<seq<string>>): (r: PyResult)
    ensures output.None? ==> r == Ok([])
    ensures output.Some? && r.Ok? ==> |r.devices| <= |output.value|
  {
    if output.None? then Ok([])
    else
      ScanBound(Probes(output.value), 0, false);
      Scan(Probes(output.value), 0, false)
  }

  /** The scan from line `i` on lists at most one device per remaining line. */
  lemma {:induction false} ScanBound(probes: seq<Probe>, i: nat, inSinks: bool)
    requires i <= |probes|
    ensures Scan(probes, i, inSinks).Ok? ==> |Scan(probes, i, inSinks).devices| <= |probes| - i
    decreases |probes| - i
  {
    if i < |probes| {
      match LineStep(probes[i], inSinks)
      case Stop =>
      case Raise =>
      case Next(flag, added) =>
        ScanBound(probes, i + 1, flag);
    }
  }

  /** The step of a line, in terms of the line's own tests. */
  lemma {:induction false} LineStepOf(line: string, inSinks: bool)
    ensures LineStep(ProbeOf(line), inSinks)
            == if IsSinksHeader(line) then Next(true, [])
               else if inSinks && !BarLine(line) && Strip(line) == "" then Next(true, [])
               else if inSinks && !BarLine(line) && IsSectionMarker(line) then Stop
               else if !inSinks then Next(false, [])
               else match EntryYield(line)
                 case NoEntry => Next(true, [])
                 case Malformed => Raise
                 case Device(d) => Next(true, [d])
  {
  }

  /**
   * The tests the loop body makes on one line, in the order it makes them:
   * the header test, the end-of-section tests on a non-bar line inside the
   * block, then the sink pattern and `float()` on a line inside the block.
   */
  method InspectLine(lines: seq<string>, i: nat, inSinks: bool) returns (step: Step)
    requires i < |lines|
    ensures step == LineStep(Probes(lines)[i], inSinks)
  {
    var line := lines[i];
    ProbesAt(lines, i);
    LineStepOf(line, inSinks);
    if IsSinksHeader(line) {
      return Next(true, []);
    }
    if inSinks && !BarLine(line) {
      if Strip(line) == "" {
        return Next(true, []);
      }
      if IsSectionMarker(line) {
        return Stop;
      }
    }
    if !inSinks {
      return Next(false, []);
    }
    var m := Match(line);
    if m.None? {
      return Next(true, []);
    }
    var d := DeviceOf(m.value);
    if d.None? {
      return Raise;
    }
    return Next(true, [d.value]);
  }

  /** `get_audio_devices`; `output` is the captured standard output split into lines, None when running `wpctl` raised. */
  method GetAudioDevices(output: Option<seq<string>>) returns (r: PyResult)
    ensures r == Listing(output)
  {
    if output.None? {
      return Ok([]);
    }
    var lines := output.value;
    ghost var probes := Probes(lines);
    var devices: seq<PyDevice> := [];
    var inSinks := false;
    var i := 0;
    while i < |lines|
      invariant 0 <= i <= |lines|
      invariant Scan(probes, 0, false) == Then(devices, Scan(probes, i, inSinks))
    {
      ScanStep(probes, i, inSinks);
      var step := InspectLine(lines, i, inSinks);
      if step.Stop? {
        break;
      }
      if step.Raise? {
        return ValueError;
      }
      ThenAppend(devices, step.added, Scan(probes, i + 1, step.inSinks));
      devices := devices + step.added;
      inSinks := step.inSinks;
      i := i + 1;
    }
    return Ok(devices);
  }

  // ----- the devices found, declaratively -----

  /** A line that ends the sink block: not a header, not a bar line, not blank, and naming a later section. */
  predicate EndsBlock(p: Probe) {
    !p.header && !p.bar && !p.blank && p.marker
  }

  /** Index of the first header line from `i` on, or |probes|. */
  function HeaderFrom(probes: seq<Probe>, i: nat): (j: nat)
    requires i <= |probes|
    ensures i <= j <= |probes|
    decreases |probes| - i
  {
    if i == |probes| || probes[i].header then i else HeaderFrom(probes, i + 1)
  }

  /** Index of the first line from `i` on that ends the block, or |probes|. */
  function BlockEnd(probes: seq<Probe>, i: nat): (j: nat)
    requires i <= |probes|
    ensures i <= j <= |probes|
    decreases |probes| - i
  {
    if i == |probes| || EndsBlock(probes[i]) then i else BlockEnd(probes, i + 1)
  }

  /** The devices of lines `i` up to `j`, one per matching line that is not a header, in order, or the first ValueError. */
  function Collect(probes: seq<Probe>, i: nat, j: nat): (r: PyResult)
    requires i <= j <= |probes|
    ensures r.Ok? ==> |r.devices| <= j - i
    decreases j - i
  {
    if i == j then Ok([])
    else
      var rest := Collect(probes, i + 1, j);
      if probes[i].header then rest
      else match probes[i].entry
        case NoEntry => rest
        case Malformed => ValueError
        case Device(d) => Then([d], rest)
  }

  /** The index found is the first header line: no line before it opens the sink list. */
  lemma {:induction false} HeaderFromIsFirst(probes: seq<Probe>, i: nat)
    requires i <= |probes|
    ensures var h := HeaderFrom(probes, i);
            (forall k :: i <= k < h ==> !probes[k].header) && (h < |probes| ==> probes[h].header)
    decreases |probes| - i
  {
    if i < |probes| && !probes[i].header {
      HeaderFromIsFirst(probes, i + 1);
    }
  }

  /** Inside the block, a coherent line that does not end it adds what it adds to the block's outcome. */
  lemma {:induction false} InBlockStep(p: Probe)
    requires Coherent(p) && !EndsBlock(p)
    ensures LineStep(p, true) == if p.header then Next(true, [])
                                 else match p.entry
                                   case NoEntry => Next(true, [])
                                   case Malformed => Raise
                                   case Device(d) => Next(true, [d])
  {
  }

  /** Inside the block the scan collects exactly the devices of the lines before the end of the block. */
  lemma {:induction false} ScanBlock(probes: seq<Probe>, i: nat)
    requires i <= |probes| && AllCoherent(probes)
    ensures Scan(probes, i, true) == Collect(probes, i, BlockEnd(probes, i))
    decreases |probes| - i
  {
    if i < |probes| && !EndsBlock(probes[i]) {
      assert Coherent(probes[i]);
      InBlockStep(probes[i]);
      ScanStep(probes, i, true);
      ScanBlock(probes, i + 1);
      assert BlockEnd(probes, i) == BlockEnd(probes, i + 1);
    }
  }

  /** Before the first header line nothing is collected; the scan of the block starts after it. */
  lemma {:induction false} ScanBeforeHeader(probes: seq<Probe>, i: nat)
    requires i <= |probes|
    ensures var h := HeaderFrom(probes, i);
            Scan(probes, i, false) == if h == |probes| then Ok([]) else Scan(probes, h + 1, true)
    decreases |probes| - i
  {
    if i < |probes| && !probes[i].header {
      ScanBeforeHeader(probes, i + 1);
    }
  }

  /**
   * The whole parser: the devices of the block after the first header line,
   * up to the first non-bar line naming a later section, in order, or the
   * ValueError of its first malformed volume.
   */
  lemma {:induction false} ScanIsCollect(lines: seq<string>)
    ensures var probes := Probes(lines);
            var h := HeaderFrom(probes, 0);
            Scan(probes, 0, false) == if h == |probes| then Ok([]) else Collect(probes, h + 1, BlockEnd(probes, h + 1))
  {
    var probes := Probes(lines);
    ProbesCoherent(lines);
    ScanIsCollectOf(probes);
  }

  /** The whole scan of coherent probes is the collection of the block after the first header. */
  lemma {:induction false} ScanIsCollectOf(probes: seq<Probe>)
    requires AllCoherent(probes)
    ensures var h := HeaderFrom(probes, 0);
            Scan(probes, 0, false) == if h == |probes| then Ok([]) else Collect(probes, h + 1, BlockEnd(probes, h + 1))
  {
    ScanBeforeHeader(probes, 0);
    var h := HeaderFrom(probes, 0);
    if h < |probes| {
      ScanBlock(probes, h + 1);
    }
  }

  /** Output without a header line yields no device. */
  lemma {:induction false} NoHeaderNoDevices(lines: seq<string>)
    requires forall i :: 0 <= i < |lines| ==> !IsSinksHeader(lines[i])
    ensures Listing(Some(lines)) == Ok([])
  {
    var probes := Probes(lines);
    ScanBeforeHeader(probes, 0);
    HeaderFromIsFirst(probes, 0);
    var h := HeaderFrom(probes, 0);
    if h < |probes| {
      ProbesAt(lines, h);
    }
  }

  /** Inside the block, a line ending it makes the rest of the output irrelevant. */
  lemma {:induction false} MarkerEnds(line: string)
    requires !IsSinksHeader(line) && !BarLine(line) && Strip(line) != "" && IsSectionMarker(line)
    ensures LineStep(ProbeOf(line), true) == Stop
  {
  }

  /** Inside the block, a blank line is skipped and the block goes on. */
  lemma {:induction false} BlankSkipped(line: string)
    requires AllSpace(line)
    ensures LineStep(ProbeOf(line), true) == Next(true, [])
  {
    StripSpec(line);
    if IsSinksHeader(line) {
      MissingCharBlocks(line, "Sinks:", 0);
    }
  }

  /** Inside the block, a line without the bar that names no later section neither ends the block nor yields a device. */
  lemma {:induction false} UnknownLineSkipped(line: string)
    requires !BarLine(line) && !IsSectionMarker(line)
    ensures LineStep(ProbeOf(line), true) == Next(true, [])
  {
    NonBarLineNoMatch(line);
  }

  /** Inside the block, a bar line naming a later section does not end the block: it is matched like any entry. */
  lemma {:induction false} BarMarkerKept(line: string)
    requires BarLine(line) && IsSectionMarker(line) && !IsSinksHeader(line)
    ensures LineStep(ProbeOf(line), true) == match EntryYield(line)
              case NoEntry => Next(true, [])
              case Malformed => Raise
              case Device(d) => Next(true, [d])
  {
  }

  /** A header line never yields a device, even when it also looks like an entry, and it always enters the block. */
  lemma {:induction false} HeaderYieldsNothing(line: string, inSinks: bool)
    requires IsSinksHeader(line)
    ensures LineStep(ProbeOf(line), inSinks) == Next(true, [])
  {
  }

  /** Every collected device comes from a matching line of the block that is not a header. */
  lemma {:induction false} CollectFromEntries(probes: seq<Probe>, i: nat, j: nat, d: PyDevice) returns (k: nat)
    requires i <= j <= |probes|
    requires Collect(probes, i, j).Ok? && d in Collect(probes, i, j).devices
    ensures i <= k < j && !probes[k].header && probes[k].entry == Device(d)
    decreases j - i
  {
    var p := probes[i];
    if !p.header && p.entry == Device(d) {
      k := i;
    } else {
      assert Collect(probes, i, j).devices == if p.header || p.entry.NoEntry? then Collect(probes, i + 1, j).devices
                                             else [p.entry.d] + Collect(probes, i + 1, j).devices;
      k := CollectFromEntries(probes, i + 1, j, d);
    }
  }

  /** An entry printed in the `wpctl` layout yields a device with its fields: the name, its icon, the marker, the volume, the id. */
  lemma {:induction false} RenderedDevice(active: bool, id: string, name: string, volume: string)
    requires |id| > 0 && AllDigits(id)
    requires PlainName(name)
    requires AllVolumeChars(volume) && WellFormed(volume)
    ensures PyFloat(volume).Some?
    ensures EntryYield(Render(active, id, name, volume))
            == Device(PyDevice(name, IconName(IconFor(name)), active, PyFloat(volume).value, Some(id)))
  {
    PyFloatAcceptsWellFormed(volume);
    MatchRender(active, id, name, volume);
    StripUnchanged(name);
  }

  /** Inside the block, an entry whose volume `float()` rejects makes the whole call raise, whatever follows. */
  lemma {:induction false} MalformedVolumeRaises(line: string)
    requires !IsSinksHeader(line) && Match(line).Some? && !WellFormed(Match(line).value.volumeDigits)
    ensures LineStep(ProbeOf(line), true) == Raise
  {
    MatchOnlyBarLines(line);
    DeviceOfAccepts(Match(line).value);
  }

  /** "1..2" and "." are digit-and-dot captures that `float()` rejects. */
  lemma {:induction false} MalformedExamples()
    ensures AllVolumeChars("1..2") && !WellFormed("1..2")
    ensures AllVolumeChars(".") && !WellFormed(".")
  {
    assert FirstDot("1..2") == 1 && "1..2"[2..] == ".2" && !IsDigit(".2"[0]);
    assert PyFloat("1..2") == None;
    PyFloatAcceptsWellFormed("1..2");
    assert FirstDot(".") == 0 && "."[..0] == [] && "."[1..] == [];
    assert PyFloat(".") == None;
    PyFloatAcceptsWellFormed(".");
  }

  // ----- the `wpctl` command lines -----

  /** One word of an argument vector: literal text, or a float that Python's `str()` formats. */
  datatype Arg = Word(text: string) | Number(value: real)

  /** A call to `wpctl`: set the volume of a node, or make a node the default. */
  datatype WpctlCall = SetVolumeCall(target: string, value: real) | SetDefaultCall(target: string)

  /** Python's `str()` of a device id: the id itself, or "None" for the placeholder row. */
  function PyStr(id: Option<string>): string {
    match id
    case None => "None"
    case Some(s) => s
  }

  function Argv(c: WpctlCall): seq<Arg> {
    match c
    case SetVolumeCall(t, v) => [Word("wpctl"), Word("set-volume"), Word(t), Number(v)]
    case SetDefaultCall(t) => [Word("wpctl"), Word("set-default"), Word(t)]
  }

  /** `set_volume(device_id, value)`. */
  function SetVolumeArgv(deviceId: string, value: real): (argv: seq<Arg>)
    ensures |argv| == 4 && argv[0] == Word("wpctl") && argv[1] == Word("set-volume")
    ensures ParseArgv(argv) == Some(SetVolumeCall(deviceId, value))
  {
    Argv(SetVolumeCall(deviceId, value))
  }

  /** `set_default_device(device_id)`. */
  function SetDefaultArgv(deviceId: Option<string>): (argv: seq<Arg>)
    ensures |argv| == 3 && argv[0] == Word("wpctl") && argv[1] == Word("set-default")
    ensures deviceId.None? ==> argv[2] == Word("None")
    ensures ParseArgv(argv) == Some(SetDefaultCall(PyStr(deviceId)))
  {
    Argv(SetDefaultCall(PyStr(deviceId)))
  }

  /** Reads an argument vector back as a call. */
  function ParseArgv(argv: seq<Arg>): Option<WpctlCall> {
    if |argv| == 4 && argv[0] == Word("wpctl") && argv[1] == Word("set-volume") && argv[2].Word? && argv[3].Number?
    then Some(SetVolumeCall(argv[2].text, argv[3].value))
    else if |argv| == 3 && argv[0] == Word("wpctl") && argv[1] == Word("set-default") && argv[2].Word?
    then Some(SetDefaultCall(argv[2].text))
    else None
  }

  /** An argument vector determines its call: the target and the value are passed through unchanged. */
  lemma {:induction false} ArgvRoundTrip(c: WpctlCall)
    ensures ParseArgv(Argv(c)) == Some(c)
  {
  }
}
