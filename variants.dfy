/**
 * Where the Python and the C parsers agree on a line of the sink block and
 * where they part: a bar line naming a later section, a volume `float()`
 * rejects, and the cap of 32 devices.
 */
module Variants {
  import opened Wrappers
  import opened Text
  import opened Decimal
  import opened IconPolicy
  import opened SinkLine
  import opened Status
  import P = PyAudio
  import C = CAudio

  predicate NoNul(line: string) {
    forall i :: 0 <= i < |line| ==> line[i] != '\0'
  }

  /** The C probe of the first read is that of the line itself when the line has no NUL. */
  lemma {:induction false} FirstProbe(line: string, rest: seq<string>)
    requires NoNul(line)
    ensures C.Probes([line] + rest)[0] == C.ProbeOf(line)
  {
    C.ProbesAt([line] + rest, 0);
    CStringWhole(line);
  }

  /** The Python probe of the first line is that of the line itself. */
  lemma {:induction false} PyFirstProbe(line: string, rest: seq<string>)
    ensures P.Probes([line] + rest)[0] == P.ProbeOf(line)
  {
    P.ProbesAt([line] + rest, 0);
  }

  /** Inside the block, Python lists a matching line that is not a header whose volume `float()` accepts, and goes on. */
  lemma {:induction false} PyListsEntry(line: string, rest: seq<string>)
    requires !IsSinksHeader(line)
    requires Match(line).Some? && WellFormed(Match(line).value.volumeDigits)
    ensures P.DeviceOf(Match(line).value).Some?
    ensures var probes := P.Probes([line] + rest);
            P.Scan(probes, 0, true) == P.Then([P.DeviceOf(Match(line).value).value], P.Scan(probes, 1, true))
  {
    var m := Match(line).value;
    MatchOnlyBarLines(line);
    P.DeviceOfAccepts(m);
    PyFirstProbe(line, rest);
    P.LineStepOf(line, true);
    P.ScanStep(P.Probes([line] + rest), 0, true);
  }

  /** Inside the block and with room left, C stores the device of a matching line that names no later section. */
  lemma {:induction false} CStoresEntry(line: string, rest: seq<string>, count: nat)
    requires NoNul(line) && !IsSinksHeader(line) && !IsSectionMarker(line)
    requires Match(line).Some? && count < C.MaxDevices
    ensures var probes := C.Probes([line] + rest);
            C.Scan(probes, 0, true, count) == [C.DeviceOf(Match(line).value)] + C.Scan(probes, 1, true, count + 1)
  {
    FirstProbe(line, rest);
    C.EntryAdds(line, count);
    C.ScanStep(C.Probes([line] + rest), 0, true, count);
  }

  /**
   * On an entry line of the block both accept, whose captures fit C's
   * buffers, each parser records one device and the two agree on activity
   * and volume; the id is the captured digits, as text in Python and as their
   * value in C; the C name is the capture itself, the Python name the capture
   * stripped, and each icon follows its own name.
   */
  lemma {:induction false} EntriesAgree(line: string, rest: seq<string>, count: nat)
    requires NoNul(line) && !IsSinksHeader(line) && !IsSectionMarker(line)
    requires Match(line).Some? && WellFormed(Match(line).value.volumeDigits)
    requires |Match(line).value.name| <= C.NameCapacity
    requires |Match(line).value.idDigits| <= C.FieldCapacity && |Match(line).value.volumeDigits| <= C.FieldCapacity
    requires count < C.MaxDevices
    ensures P.DeviceOf(Match(line).value).Some?
    ensures var m := Match(line).value;
            var d := P.DeviceOf(m).value;
            var c := C.DeviceOf(m);
            && P.Scan(P.Probes([line] + rest), 0, true) == P.Then([d], P.Scan(P.Probes([line] + rest), 1, true))
            && C.Scan(C.Probes([line] + rest), 0, true, count) == [c] + C.Scan(C.Probes([line] + rest), 1, true, count + 1)
            && c.isActive == d.isActive == m.active && c.volume == d.volume
            && c.id == NatValue(m.idDigits) && d.id == Some(m.idDigits)
            && c.name == m.name && d.name == Strip(m.name)
            && c.iconName == IconName(IconFor(c.name)) && d.iconName == IconName(IconFor(d.name))
  {
    var m := Match(line).value;
    PyListsEntry(line, rest);
    CStoresEntry(line, rest, count);
    AtofAgreesWithPyFloat(m.volumeDigits);
    C.DeviceOfShortFields(m);
  }

  /**
   * A bar line inside the block that names a later section and matches the
   * sink pattern: Python lists it as a device and goes on, C ends the scan.
   */
  lemma {:induction false} BarMarkerDiverges(line: string, rest: seq<string>, count: nat)
    requires NoNul(line) && !IsSinksHeader(line) && IsSectionMarker(line)
    requires Match(line).Some? && WellFormed(Match(line).value.volumeDigits)
    requires count <= C.MaxDevices
    ensures P.DeviceOf(Match(line).value).Some?
    ensures var probes := P.Probes([line] + rest);
            P.Scan(probes, 0, true) == P.Then([P.DeviceOf(Match(line).value).value], P.Scan(probes, 1, true))
    ensures C.Scan(C.Probes([line] + rest), 0, true, count) == []
  {
    PyListsEntry(line, rest);
    FirstProbe(line, rest);
    C.MarkerEnds(line, count);
    C.ScanStep(C.Probes([line] + rest), 0, true, count);
  }

  /**
   * An entry line inside the block whose volume `float()` rejects: Python
   * raises, C stores the device with the value `atof` reads from the capture.
   */
  lemma {:induction false} MalformedVolumeDiverges(line: string, rest: seq<string>, count: nat)
    requires NoNul(line) && !IsSinksHeader(line) && !IsSectionMarker(line)
    requires Match(line).Some? && !WellFormed(Match(line).value.volumeDigits)
    requires count < C.MaxDevices
    ensures P.Scan(P.Probes([line] + rest), 0, true) == P.ValueError
    ensures var probes := C.Probes([line] + rest);
            C.Scan(probes, 0, true, count) == [C.DeviceOf(Match(line).value)] + C.Scan(probes, 1, true, count + 1)
  {
    P.MalformedVolumeRaises(line);
    PyFirstProbe(line, rest);
    P.ScanStep(P.Probes([line] + rest), 0, true);
    CStoresEntry(line, rest, count);
  }

  /** The capture "1..2" makes `float()` raise, while C reads it as 1.0. */
  lemma {:induction false} DoubleDotVolume(m: SinkMatch)
    requires AllDigits(m.idDigits) && m.volumeDigits == "1..2"
    ensures !WellFormed(m.volumeDigits) && P.DeviceOf(m).None?
    ensures C.DeviceOf(m).volume == 1.0
  {
    P.MalformedExamples();
    P.DeviceOfAccepts(m);
    AtofExamples();
    assert Prefix(m.volumeDigits, C.FieldCapacity) == "1..2";
  }

  /**
   * With 32 devices stored, a further entry line inside the block ends the C
   * scan, while Python lists it whenever `float()` accepts its volume.
   */
  lemma {:induction false} CapDiverges(line: string, rest: seq<string>)
    requires NoNul(line) && !IsSinksHeader(line) && !IsSectionMarker(line)
    requires Match(line).Some? && WellFormed(Match(line).value.volumeDigits)
    ensures P.DeviceOf(Match(line).value).Some?
    ensures var probes := P.Probes([line] + rest);
            P.Scan(probes, 0, true) == P.Then([P.DeviceOf(Match(line).value).value], P.Scan(probes, 1, true))
    ensures C.Scan(C.Probes([line] + rest), 0, true, C.MaxDevices) == []
  {
    PyListsEntry(line, rest);
    FirstProbe(line, rest);
    C.ScanStep(C.Probes([line] + rest), 0, true, C.MaxDevices);
  }
}
