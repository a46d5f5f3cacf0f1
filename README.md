# hypr-audio-control, modelled in Dafny

hypr-audio-control is a small GTK 4 popup for Hyprland. It lists the audio sinks that `wpctl status` reports, lets the user pick the default sink, and sets the active sink's volume with a slider or the keyboard. It ships twice, once in Python (`audiocontrol/`) and once in C (`src/`). This project models the logic both variants share, and the places where they differ:

- **The two `wpctl status` parsers.** Each scan flips an `in_sinks` flag at the `Sinks:` line and leaves at the next section marker. Each matches entry lines against the sink pattern, converts the captures and attaches an icon.
  - The Python parser (py_audio.dfy) is a `while` loop proved equal to a recursive scan.
  - The C parser (c_audio.dfy) fills a 33-slot array in place. It keeps C's own end-of-section test, the 32-device cap, the fixed-size buffers and the `id = -1` terminator.
  - Both scans are then characterised declaratively: "the entries of the block after the first header".
- **The sink-line pattern** `^\s*│\s*(\*)?\s*(\d+)\.\s+(.+?)\s+\[vol:\s*([\d\.]+)` (sink_line.dfy).
  - It is written as a scanner with the same captures as a backtracking engine, including the lazy name. The `\d` classes accept the ASCII digits only (see "## Left out").
  - The proofs show three things:
    - only bar lines match;
    - the name capture has no white space at either end, unless it is all white space;
    - every entry printed in the `wpctl` layout is matched with exactly its fields. This holds for a name that is non-empty, has no white space at either end and does not contain `[vol:`.
- **The number conversions** (decimal.dfy):
  - Python's `float()` on the volume capture: among strings of ASCII digits and dots, the exact set it accepts;
  - C's `atof` and `atoi`, read with '.' as the decimal point (the C locale), and the proof that `atof` then agrees with `float()` wherever `float()` accepts.
- **The icon policy** (icon_policy.dfy): headphone, then hdmi/tv/display, then bluetooth, else speakers, tested on the lower-cased name.
- **The window state** that the GTK handlers update, kept as Dafny classes:
  - the Python `AudioControlApp` (py_ui.dfy);
  - the C globals of main.c (c_main.dfy);
  - the GTK volume scale both build (slider.dfy).

  What is modelled:
  - the rebuild after a listing, where the last active device picks the id and the slider value;
  - the key handlers;
  - row clicks;
  - slider changes and the `value-changed` handler;
  - in C, the theme flag.

  The backend effects (`wpctl set-volume`, `wpctl set-default`, quitting) are appended to a log in the order they are issued.
- **The two parsers compared line by line** (variants.dfy):
  - on an ordinary entry they record the same device;
  - they part on a bar line that names a later section, on a volume `float()` rejects, and at the 32-device cap.

The outside world enters as parameters:

- **Python:**
  - the captured output of `wpctl status`, already split into lines, or None when running it raised.
- **C:**
  - the successive `fgets` reads of the pipe, or None when `popen` fails;
  - whether `malloc` and `regcomp` succeed;
  - the key value and key name of a key press;
  - the colour-scheme string of the settings.

Where the code and its comments differ, the model follows the code:

- **The C end-of-section test.** A comment in audio.c speaks of lines that do not start with the bar. The test it runs is a `strstr` for the three markers on every line of the block, bar lines included.
- **Malformed volumes in Python.** `float()` raises `ValueError` on a volume such as `1..2`, and nothing inside `get_audio_devices` or `setup_ui` catches it. The model returns that error instead of treating well-formed volumes as a precondition. For a rebuild that raises, it keeps the previous id and slider, because the assignments after the call never run.

## Model

| member | source | states |
|---|---|---|
| PyAudio.GetAudioDevices | audiocontrol/audio.py:6-56 | The loop returns what the scan of all lines finds, starting outside the block: the devices in order, or the `ValueError` of a rejected volume. It returns `[]` when running `wpctl` raised. |
| PyAudio.InspectLine | audiocontrol/audio.py:23-54 | The loop body's tests on one line, made in the source's order, give that line's step: go on with a flag and at most one device, end the scan, or raise. |
| PyAudio.LineStep | audiocontrol/audio.py:23-54 | One line adds at most one device. |
| PyAudio.LineStepOf | audiocontrol/audio.py:24-54 | A line's step follows from the line itself: the header test, then the blank and end-of-section tests on a non-bar line inside the block, then the pattern and `float()`. |
| PyAudio.ProbesCoherent | audiocontrol/audio.py:27-37 | A line without the bar never yields a device, so skipping it or ending the block at it loses no entry. |
| PyAudio.HeaderFromIsFirst | audiocontrol/audio.py:23-26 | The block opens at the first `Sinks:` line: no earlier line is a header. |
| PyAudio.ScanBound | audiocontrol/audio.py:23-54 | When the loop returns a list, it holds at most one device per line read from the starting line on. |
| PyAudio.Listing | audiocontrol/audio.py:6-56 | When running `wpctl` raised, the result is `[]`. Otherwise it is the scan's outcome, and a list never holds more devices than the output has lines. |
| PyAudio.ScanIsCollect | audiocontrol/audio.py:23-54 | The whole scan keeps exactly the entries of the block after the first `Sinks:` line, up to the first non-blank line without the bar that names a later section, in source order, or the `ValueError` of the first rejected volume. |
| PyAudio.ScanBlock | audiocontrol/audio.py:27-54 | Inside the block, the scan collects the entries up to the first line that ends the block. |
| PyAudio.ScanBeforeHeader | audiocontrol/audio.py:23-26 | Lines up to and including the first header contribute nothing. The scan restarts inside the block after the header. |
| PyAudio.NoHeaderNoDevices | audiocontrol/audio.py:23-26 | Output without a `Sinks:` line yields `[]`. |
| PyAudio.HeaderYieldsNothing | audiocontrol/audio.py:24-26 | A header line enters the block and never yields a device, even when it also looks like an entry. |
| PyAudio.MarkerEnds | audiocontrol/audio.py:27-33 | Inside the block, a non-bar line naming Sources/Filters/Streams ends the scan. Nothing after it is returned. |
| PyAudio.BlankSkipped | audiocontrol/audio.py:29-30 | Inside the block, a blank line is skipped without leaving the block. |
| PyAudio.UnknownLineSkipped | audiocontrol/audio.py:27-36 | Inside the block, a non-bar line that names no later section neither ends the block nor yields a device. |
| PyAudio.BarMarkerKept | audiocontrol/audio.py:27-36 | A bar line naming a later section does not end the block. It is matched like any entry. |
| PyAudio.Collect | audiocontrol/audio.py:35-54 | At most one device is collected per line, so the list is never longer than the block. |
| PyAudio.CollectFromEntries | audiocontrol/audio.py:35-54 | Every collected device is the device of some entry line of the block. |
| PyAudio.DeviceOf | audiocontrol/audio.py:38-54 | The tuple of a match has a non-negative volume, the `*` flag, the id digits kept as text, and the icon of its name. That the name is the stripped capture is stated by `Variants.EntriesAgree` and `PyAudio.RenderedDevice`. |
| PyAudio.DeviceOfAccepts | audiocontrol/audio.py:41-42 | A match yields a device exactly when its volume capture is a well-formed decimal. |
| PyAudio.RenderedDevice | audiocontrol/audio.py:36-54 | An entry printed in the `wpctl` layout yields exactly its name, icon, active flag, volume value and id. |
| PyAudio.MalformedVolumeRaises | audiocontrol/audio.py:41-42 | Inside the block, an entry whose volume `float()` rejects makes the whole call raise, whatever follows. |
| PyAudio.MalformedExamples | audiocontrol/audio.py:42 | `1..2` and `.` are captures the pattern admits and `float()` rejects. |
| PyAudio.SetVolumeArgv | audiocontrol/audio.py:58-62 | `set_volume` runs `wpctl set-volume <id> <value>`, and that vector reads back as a set-volume call with the same id and value. |
| PyAudio.SetDefaultArgv | audiocontrol/audio.py:66-69 | `set_default_device` runs `wpctl set-default <id>`, with the text "None" when there is no id. The vector reads back as a set-default call with `str()` of the id. |
| PyAudio.ArgvRoundTrip | audiocontrol/audio.py:58-71 | The argument vectors of `set_volume` and `set_default_device` determine their call: the target and the value pass through unchanged. |
| SinkLine.Match | audiocontrol/audio.py:21 | A match has a non-empty id of ASCII digits, a non-empty name and a non-empty volume of ASCII digits and dots. |
| SinkLine.Lead | audiocontrol/audio.py:21 | The part before the name ends with digits followed by the dot. |
| SinkLine.Rest | audiocontrol/audio.py:21 | The name lies between the dot and the volume tag, and the volume capture consists of digits and dots. |
| SinkLine.MatchNeedsBar | audiocontrol/audio.py:21 | A match requires the bar as the first non-space character. The active flag is set exactly when `*` is the next non-space after the bar. |
| SinkLine.MatchOnlyBarLines | audiocontrol/audio.py:21 | Only lines whose stripped form starts with the bar match. |
| SinkLine.NameHasNoOuterSpace | audiocontrol/audio.py:21 | The lazy name capture has no white space at either end, unless it is all white space. |
| SinkLine.StrippedName | audiocontrol/audio.py:40 | `strip()` leaves the captured name as it is or empties it. |
| SinkLine.MatchRender | audiocontrol/audio.py:20-21 | Every entry printed as ` │  *   64. Name [vol: 0.40]` is matched with exactly its four fields. The id is non-empty digits and the volume non-empty digits and dots. The name is non-empty, has no white space at either end and does not contain `[vol:`. |
| SinkLine.MatchEntry | audiocontrol/audio.py:21 | Any line laid out as header, digits, dot, name and volume tag matches with those fields. |
| Text.TrimStartSpec | audiocontrol/audio.py:27 | Stripping leading white space leaves a suffix that does not start with a space, and removes only white space. |
| Text.TrimEndSpec | audiocontrol/audio.py:27 | Stripping trailing white space leaves a prefix that does not end with a space, and removes only white space. |
| Text.StripSpec | audiocontrol/audio.py:27-29 | `strip()` is empty exactly on all-space text. Otherwise it is the infix between leading and trailing white space, with no space at either end. |
| Text.StripUnchanged | audiocontrol/audio.py:40 | A text with no space at either end is its own stripped form. |
| Text.Strip | audiocontrol/audio.py:40 | `strip()` never lengthens a text. `Text.StripSpec` states exactly what it keeps. |
| Text.Contains | audiocontrol/audio.py:24 | `pat in s` can hold only when `pat` is no longer than `s`. `Text.ContainsIffOccurs` states exactly when it holds. |
| Status.IsSinksHeader | audiocontrol/audio.py:24 | A line that opens the sink list is at least as long as `Sinks:`. |
| Status.SinksHeaderSpec | src/audio.c:64 | A line opens the sink list exactly when `Sinks:` occurs in it at some index. |
| Status.IsSectionMarker | audiocontrol/audio.py:31 | A line that names a later section is at least eight characters long, the length of each title. |
| Status.SectionMarkerSpec | src/audio.c:74-75 | A line names a later section exactly when `Sources:`, `Filters:` or `Streams:` occurs in it at some index. |
| Text.ContainsIffOccurs | audiocontrol/audio.py:24 | `pat in s` holds exactly when `pat` occurs at some index of `s`. |
| Text.CString | src/audio.c:63 | What C sees of a read is its longest NUL-free prefix. |
| Text.CStringWhole | src/audio.c:63 | A read without NUL is seen whole. |
| Text.Prefix | src/audio.c:104-108 | The truncation keeps the first `n` characters, or the whole text when it is shorter. |
| Decimal.PyFloat | audiocontrol/audio.py:42 | `float()` of a digit-and-dot capture is non-negative whenever it is accepted. |
| Decimal.PyFloatAcceptsWellFormed | audiocontrol/audio.py:42 | Among strings of ASCII digits and dots, `float()` accepts exactly those that have a digit and at most one dot. |
| Decimal.PyFloatExamples | audiocontrol/audio.py:42 | `float()` reads `1.5` and `0.40` exactly, and rejects `1..2` and `.`. |
| Decimal.Atof | src/audio.c:117 | `atof` of the volume buffer, read with '.' as the decimal point, is never negative. |
| Decimal.AtofAgreesWithPyFloat | src/audio.c:117 | With '.' as the decimal point, `atof` gives the same value as `float()` on every string `float()` accepts. |
| Decimal.AtofExamples | src/audio.c:117 | `atof` stops at the second dot of `1..2` and reads `.` as zero. |
| Decimal.Atoi | src/audio.c:101 | `atoi` of `n` digits is below `10^n`. |
| IconPolicy.Classify | audiocontrol/audio.py:45-52 | On a lower-cased name, the headphone icon is chosen exactly when `headphone` occurs in it. The speakers icon is chosen exactly when none of headphone, hdmi, tv, display and bluetooth occurs. |
| IconPolicy.IconFor | audiocontrol/audio.py:45-52 | The same holds for any name, through its lower-cased form. |
| IconPolicy.ClassifyIsFirstMatch | audiocontrol/audio.py:45-52 | The if/elif chain is the first matching row of the rule table, read in order. |
| IconPolicy.IconIgnoresCase | audiocontrol/audio.py:46 | The icon does not depend on the case of ASCII letters. |
| IconPolicy.HeadphoneWins | audiocontrol/audio.py:47-48 | A name mentioning "headphone" gets the headphone icon, whatever else it mentions. |
| IconPolicy.BluetoothHeadphonesExample | audiocontrol/audio.py:45-52 | "Bluetooth Headphones" gets the headphone icon. |
| IconPolicy.HdmiExample | audiocontrol/audio.py:49-50 | "HDMI Audio" gets the display icon. |
| CAudio.GetIconName | src/audio.c:12-32 | The icon is the policy applied to the first 255 characters of the name, up to any NUL, lower-cased in place. |
| CAudio.DeviceOf | src/audio.c:88-119 | The stored name is at most 255 characters of the capture. It is the whole capture when that fits. The icon follows the stored name, the flag is the `*` group, and the id and volume are non-negative. |
| CAudio.DeviceOfShortFields | src/audio.c:94-117 | Captures that fit their buffers are stored whole. The id is the value of its digits and the volume is the `atof` of its capture. |
| CAudio.LongIdTruncated | src/audio.c:95-101 | An id longer than 15 digits is read from its first 15 digits only. |
| CAudio.GetAudioDevices | src/audio.c:34-131 | The result is null with count 0 exactly when `malloc`, `popen` or `regcomp` fails. Otherwise it is a fresh 33-slot array holding the scan's devices, at most 32, followed by a slot with id -1. |
| CAudio.ReadLines | src/audio.c:63-124 | The read loop leaves in the first `count` slots exactly the devices the scan of all reads finds, at most 32. |
| CAudio.ReadLine | src/audio.c:63-123 | One pass of the loop stores what its read adds after the slots stored so far. A step that ends the loop makes the stored devices final. Any other step leaves the loop's final result unchanged. |
| CAudio.InspectLine | src/audio.c:64-86 | The loop's tests on one read, made in the source's order, give that read's step. A step that adds a device comes with a match whose captures can be stored. |
| CAudio.StoreStep | src/audio.c:88-121 | After the step, the first slots are those stored before followed by the step's device, and the count grows by one exactly when a device is added. |
| CAudio.AccIsScan | src/audio.c:63-124 | Storing as the loop goes ends with the devices already stored followed by the scan of the reads still to come. |
| CAudio.LineStepOf | src/audio.c:64-86 | A read's step follows from the line itself: the header test, the flag, the end-of-section test, the match, then the cap. |
| CAudio.StoreDevice | src/audio.c:88-121 | Filling slot `count` writes the device of the match there and changes nothing else. |
| CAudio.LineStep | src/audio.c:64-86 | One line adds at most one device. With 32 stored it adds none. |
| CAudio.Scan | src/audio.c:63-124 | The loop stores at most 32 devices in all. |
| CAudio.Found | src/audio.c:9 | A caller never sees more than 32 devices. |
| CAudio.ScanIsCappedCollect | src/audio.c:63-124 | The whole scan is the entries of the block after the first header, up to the first non-header marker line, cut to 32. |
| CAudio.ScanBlock | src/audio.c:69-124 | Inside the block, the scan collects the entries up to the block's end, cut to the room left. |
| CAudio.ScanBeforeHeader | src/audio.c:64-67 | No device comes from lines before or at the first `Sinks:` line. |
| CAudio.MarkerEnds | src/audio.c:74-78 | Inside the block, any non-header line naming a later section ends the scan, even one that carries the bar. |
| CAudio.EntryAdds | src/audio.c:84-121 | Inside the block and with room left, a matching line that names no later section adds its device. |
| CAudio.CapEnds | src/audio.c:85-86 | With 32 devices stored, the next entry line ends the scan. |
| CAudio.NonBarLineSkipped | src/audio.c:84 | A line without the bar contributes nothing, blank lines included. |
| CAudio.Probes | src/audio.c:63-84 | Each read gives one probe. |
| Variants.EntriesAgree | src/audio.c:84-121 | On an entry both accept, with captures that fit C's buffers, both parsers record one device. They agree on the active flag and, with '.' as C's decimal point, on the volume; both take the id from the same digits. The C name is the capture itself; the Python name is the capture stripped. |
| Variants.PyListsEntry | audiocontrol/audio.py:35-54 | Python lists an entry whose volume `float()` accepts, and goes on. |
| Variants.CStoresEntry | src/audio.c:84-121 | C stores the device of a matching non-marker line while there is room. |
| Variants.FirstProbe | src/audio.c:63 | A read without NUL is probed as the line itself. |
| Variants.BarMarkerDiverges | src/audio.c:74-78 | A matching bar line that names a later section is listed by Python and ends the C scan. |
| Variants.MalformedVolumeDiverges | src/audio.c:111-117 | On an entry whose volume `float()` rejects, Python raises and C stores the device. |
| Variants.DoubleDotVolume | src/audio.c:117 | Python rejects the volume `1..2`; C reads it as 1.0. |
| Variants.CapDiverges | src/audio.c:85-86 | With 32 devices stored, a further entry ends the C scan, while Python lists it. |
| Slider.Clamp | src/main.c:239-240 | The stored value always lies in [0, 100]. A request inside the range is stored as is. |
| Slider.ClampSpec | src/main.c:239-240 | Clamping is the identity exactly on the range. It is idempotent, monotone, and saturates at either bound. |
| Slider.Scale.constructor | src/main.c:239-240 | A new scale sits at 0 with no handler. |
| Slider.Scale.SetValue | src/main.c:282 | `set_value` stores the clamped request. It reports `value-changed` exactly when the stored value changes, and keeps the handler. |
| Slider.Scale.Connect | src/main.c:283-287 | Connecting records the captured id and leaves the value. |
| PyUi.Rows | audiocontrol/ui.py:151-153 | An empty list is shown as the single placeholder row; any other list is shown as it is. |
| PyUi.LastActive | audiocontrol/ui.py:156-163 | The index found is that of an active row with no active row after it. It is None exactly when no row is active. |
| PyUi.ActiveId | audiocontrol/ui.py:155-163 | When the last row is active, its id is the one kept. With no active row, the id is None. |
| PyUi.CurrentVolume | audiocontrol/ui.py:155-163 | When the last row is active, its volume is the one shown. With no active row, the default 0.5 is shown. |
| PyUi.LastActiveWins | audiocontrol/ui.py:158-163 | An active row followed only by inactive rows gives the id and the volume, whatever precedes it. |
| PyUi.NoActiveRow | audiocontrol/ui.py:152-156 | With no active row, including the placeholder alone, the id is None and the volume is the default 0.5. |
| PyUi.RebuildStep | audiocontrol/ui.py:158-163 | One more row moves the choice to it exactly when it is active. |
| PyUi.VolumeMapSpec | audiocontrol/ui.py:64-67 | `volume_map` holds exactly the ten digit keys. Digit d gives 10·d and "0" gives 100. |
| PyUi.AudioControlApp.constructor | audiocontrol/ui.py:45-47 | Before the first rebuild there is no active id, no slider, and nothing logged. |
| PyUi.AudioControlApp.SetupUi | audiocontrol/ui.py:151-171 | A new slider is set to 100 × the last active row's volume clamped to [0, 100], or to 50. The id becomes that row's id. The handler is connected only for a truthy id. When the parser raises, the old id and slider stay. Nothing is logged. |
| PyUi.AudioControlApp.OnVolumeChanged | audiocontrol/ui.py:219-221 | The handler logs `wpctl set-volume id value/100`. |
| PyUi.AudioControlApp.MoveSlider | audiocontrol/ui.py:166-167 | The slider stores the clamped value. One set-volume is logged for the active id when the value changes and the id is truthy; nothing is logged otherwise. |
| PyUi.AudioControlApp.OnKeyPressed | audiocontrol/ui.py:49-74 | "q" quits and returns True, with or without Ctrl. A digit with a truthy id and a slider sets the slider to its percentage. Any other key returns False and changes nothing. The slider-handler invariant is kept. |
| PyUi.AudioControlApp.OnDeviceClicked | audiocontrol/ui.py:223-226 | The click logs `wpctl set-default` with the row's id, "None" for the placeholder, and then rebuilds from the fresh listing. |
| CMain.LastActive | src/main.c:271-278 | The index found is that of an active device with no active device after it. It is None exactly when no device is active. |
| CMain.ActiveId | src/main.c:264-278 | When the last device is active, its id is the one kept. With no active device, the id is -1. |
| CMain.CurrentVolume | src/main.c:264-278 | When the last device is active, its volume is the one shown. With no active device, the default 0.5 is shown. |
| CMain.LastActiveWins | src/main.c:271-278 | An active device followed only by inactive ones gives the id and the volume. |
| CMain.NoActiveDevice | src/main.c:264-269 | With no active device, or none at all, the id stays -1 and the volume 0.5. |
| CMain.RebuildStep | src/main.c:271-278 | One more device moves the choice to it exactly when it is active. |
| CMain.DigitVolume | src/main.c:93-98 | A digit key asks for between 10 and 100. It asks for 100 exactly for "0"; keys 1-9 ask for ten times their digit. |
| CMain.DigitVolumesDiffer | src/main.c:93-98 | Different digit keys ask for different volumes. |
| CMain.Popup.constructor | src/main.c:14-15 | The globals start with no active device, a light theme, no slider, and nothing logged. |
| CMain.Popup.SetupUi | src/main.c:262-287 | The active id is reset to -1, then taken from the last active device of the listing. A new slider is set to 100 × its volume clamped to [0, 100], or to 50. The handler is connected exactly when a device is active. The theme is unchanged and nothing is logged. |
| CMain.Popup.ListDevices | src/main.c:271-278 | The loop leaves the id and volume of the last active device among the first `count` devices. |
| CMain.Popup.OnVolumeChanged | src/main.c:55-60 | The handler logs `set_volume(captured id, value/100)`. |
| CMain.Popup.MoveSlider | src/main.c:283-287 | The slider stores the clamped value. One set-volume is logged for the active id when the value changes and a device is active. |
| CMain.Popup.OnKeyPressed | src/main.c:62-103 | "q" always quits with TRUE. With an active device and a slider, the keys set the slider and return TRUE: grave gives 0, minus and equal step by 5 (clamped), and the digits 1-9 and 0 give 10-90 and 100. Without an active device, every other key returns FALSE and changes nothing. |
| CMain.Popup.OnDeviceClicked | src/main.c:156-165 | The click logs `set_default_device(row id)` and then rebuilds from the fresh listing. |
| CMain.Popup.ToggleTheme | src/main.c:26-31 | The theme flag flips and nothing else changes. |
| CMain.Popup.UpdateThemeFromSystem | src/main.c:45-53 | The theme is dark exactly when the colour scheme is "prefer-dark". |

## Left out

- Process spawning and shell calls are not modelled. These are `subprocess.run`, `popen`/`pclose`, `system`, the `which` probes and `launch_program`. Their results are parameters and their effects are log entries, because they are I/O. The diagnostic `print` in each `except` branch of audio.py (lines 12, 64 and 71) is left out too: it writes to standard output and changes no state.
- Widget construction is not modelled. This covers GTK and layer-shell setup, CSS, the theme icon and CSS classes (`apply_theme`), `create_device_row`, the launcher rows, and `main`/`activate`. It is presentation only. `apply_theme` is called after a theme change, but it only restyles widgets.
- Quitting is logged as `Quit`. Events after it are not ruled out, because the GTK main loop is not modelled.
- `splitlines()` is not modelled: the Python output arrives as a sequence of lines.
- CAudio.StoreStep: only the stored prefix of the array is stated. The slots after it hold memory `malloc` leaves uninitialised, which the source never reads.
- CAudio.GetAudioDevices: each `fgets` read is taken to be a whole line. The splitting of lines longer than 1023 bytes is not modelled, and neither is UTF-8: "│" is one character, not three bytes.
- SinkLine.Match: the C variant is given the same backtracking semantics as Python's `re`. glibc's POSIX matcher treats the non-POSIX `.+?` differently, and its leftmost-longest choice of name boundaries is not modelled. Further C-specific differences are not modelled either:
  - `[0-9\.]` in C also admits a backslash;
  - C's `[[:space:]]` follows the locale: in the C locale it is ASCII only, and in a UTF-8 locale glibc classifies characters with `iswspace`. The model uses Python's `\s` for both.
- SinkLine.Match: Python's `\d` in a str pattern accepts every Unicode decimal digit (category Nd), such as `٦٤`. The model accepts only the ASCII digits 0-9, as C's `[0-9]` does. A Python line whose id or volume uses other decimal digits matches in the source, but not in the model.
- Decimal.PyFloat: `float()` also accepts non-ASCII decimal digits and surrounding white space. The model reads only strings of ASCII digits and dots, which is what the pattern's volume class admits under the ASCII reading of `\d` above.
- Decimal.Atof: the decimal point is fixed at '.', as in the C/POSIX locale. The C program is a GtkApplication, and GTK's startup calls `setlocale(LC_ALL, "")`, so `atof` reads under the user's LC_NUMERIC. Under a ',' locale such as de_DE.UTF-8, `atof` stops at the '.': `0.40` reads as 0 and `1.50` as 1. The model does not capture this.
- Decimal.AtofAgreesWithPyFloat: the agreement is proved for the '.' decimal point only. Python's `float()` ignores the locale, so under a ',' locale the two variants disagree on every volume with a fraction.
- Variants.EntriesAgree: the volumes agree only under the '.' decimal point assumed for `atof` above.
- Decimal.Atoi: the overflow of `atoi` past INT_MAX is not modelled. Ids are unbounded, but at most 15 digits.
- Decimal.PyFloat: the volume is an exact decimal. The rounding of `float()`, `atof` and GTK's doubles is not modelled, because Dafny's `real` is exact.
- PyAudio.ArgvRoundTrip: the value argument is carried as a number. `str(value)` and the C `%.2f` text formatting are not modelled.
- IconPolicy.IconFor: Python's `str.lower()` is modelled as ASCII lower-casing, as C's `tolower` does. Unicode case mappings of non-ASCII letters are not modelled.
- Slider.Scale.SetValue: GTK's rounding of dragged values to the scale's digits is not modelled. A drag is a request `v`, clamped like `set_value`.
- CMain.Popup.OnKeyPressed: the GDK table from key values to key names is not modelled. The handler receives both, as GDK provides them.
- Memory ownership (`free`, the caller-frees contract of audio.h) is not modelled, because Dafny manages memory.
