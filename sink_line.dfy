/**
 * The sink-line pattern `^\s*│\s*(\*)?\s*(\d+)\.\s+(.+?)\s+\[vol:\s*([\d\.]+)`,
 * written as a scanner with the same captures and the same choices as a
 * backtracking engine makes for it. Lines are whole lines without a line
 * break, so `.` may be read as "any character".
 */
module SinkLine {
  import opened Wrappers
  import opened Text
  import opened Decimal

  /** The tree-drawing bar U+2502 that prefixes every entry of `wpctl status`. */
  const Bar: char := '\U{2502}'
  const VolumeTag: string := "[vol:"

  /** The four capture groups: "*" present, the id digits, the name, the volume digits. */
  datatype SinkMatch = SinkMatch(active: bool, idDigits: string, name: string, volumeDigits: string)

  /** The three repeated character classes of the pattern: `\s`, `\d` and `[\d\.]`. */
  datatype CharClass = Spaces | Digits | VolumeChars

  predicate InClass(c: char, k: CharClass) {
    match k
    case Spaces => IsSpace(c)
    case Digits => IsDigit(c)
    case VolumeChars => IsVolumeChar(c)
  }

  /** Index of the first character at or after `i` that is not in class `k`: where a greedy run ends. */
  function Skip(s: string, i: nat, k: CharClass): (j: nat)
    requires i <= |s|
    ensures i <= j <= |s|
    ensures j < |s| ==> !InClass(s[j], k)
    decreases |s| - i
  {
    if i < |s| && InClass(s[i], k) then Skip(s, i + 1, k) else i
  }

  /** Every character Skip steps over is in the class. */
  lemma {:induction false} SkipRun(s: string, i: nat, k: CharClass)
    requires i <= |s|
    ensures forall m :: i <= m < Skip(s, i, k) ==> InClass(s[m], k)
    decreases |s| - i
  {
    if i < |s| && InClass(s[i], k) {
      SkipRun(s, i + 1, k);
    }
  }

  /** A run of class `k` from `i` to `j`, followed by a character outside it, is what Skip finds. */
  lemma {:induction false} SkipLands(s: string, i: nat, j: nat, k: CharClass)
    requires i <= j <= |s|
    requires forall m :: i <= m < j ==> InClass(s[m], k)
    requires j < |s| ==> !InClass(s[j], k)
    ensures Skip(s, i, k) == j
    decreases j - i
  {
    if i < j {
      SkipLands(s, i + 1, j, k);
    }
  }

  /** `\[vol:\s*[\d\.]+` matches at index `q`. */
  predicate VolumeTagAt(s: string, q: nat) {
    q + |VolumeTag| <= |s| && s[q..q + |VolumeTag|] == VolumeTag
    && var r := Skip(s, q + |VolumeTag|, Spaces); r < |s| && IsVolumeChar(s[r])
  }

  /** The span [start, end) of the greedy `([\d\.]+)` capture of a volume tag at `q`. */
  function VolumeSpan(s: string, q: nat): (v: (nat, nat))
    requires q + |VolumeTag| <= |s|
    ensures q + |VolumeTag| <= v.0 <= v.1 <= |s|
    ensures VolumeTagAt(s, q) ==> v.0 < v.1 && AllVolumeChars(s[v.0..v.1])
  {
    var r := Skip(s, q + |VolumeTag|, Spaces);
    SkipRun(s, r, VolumeChars);
    (r, Skip(s, r, VolumeChars))
  }

  /** The volume span from the ends of its two runs. */
  lemma {:induction false} VolumeSpanAt(s: string, q: nat, r: nat, v: nat)
    requires q + |VolumeTag| <= |s| && Skip(s, q + |VolumeTag|, Spaces) == r && Skip(s, r, VolumeChars) == v
    ensures VolumeSpan(s, q) == (r, v)
  {
  }

  /** The rest of the pattern after the name, `\s+\[vol:\s*[\d\.]+`, matches at index `e`. */
  predicate TailAt(s: string, e: nat) {
    e < |s| && IsSpace(s[e]) && VolumeTagAt(s, Skip(s, e, Spaces))
  }

  /** The smallest `e >= from` where the tail matches: where the lazy `(.+?)` stops. */
  function FirstTail(s: string, from: nat): (r: Option<nat>)
    ensures r.Some? ==> from <= r.value && TailAt(s, r.value)
    ensures r.Some? ==> forall e: nat :: from <= e < r.value ==> !TailAt(s, e)
    ensures r.None? ==> forall e: nat :: from <= e ==> !TailAt(s, e)
    decreases |s| - from
  {
    if from >= |s| then None
    else if TailAt(s, from) then Some(from)
    else FirstTail(s, from + 1)
  }

  /**
   * `^\s*│\s*(\*)?\s*` at the start of `line`: whether the "*" group
   * matched, and where the id digits may start.
   */
  function Opening(line: string): (r: Option<(bool, nat)>)
    ensures r.Some? ==> r.value.1 <= |line|
  {
    var i0 := Skip(line, 0, Spaces);
    if i0 == |line| || line[i0] != Bar then None
    else
      var i1 := Skip(line, i0 + 1, Spaces);
      var active := i1 < |line| && line[i1] == '*';
      Some((active, if active then Skip(line, i1 + 1, Spaces) else i1))
  }

  /**
   * `^\s*│\s*(\*)?\s*(\d+)\.` at the start of `line`: whether the "*" group
   * matched, and the span [start, end) of the id digits; the dot is at `end`.
   */
  function Lead(line: string): (r: Option<(bool, nat, nat)>)
    ensures r.Some? ==> r.value.1 < r.value.2 < |line| && line[r.value.2] == '.'
    ensures r.Some? ==> AllDigits(line[r.value.1..r.value.2])
  {
    match Opening(line)
    case None => None
    case Some((active, i2)) =>
      var i3 := Skip(line, i2, Digits);
      if i3 == i2 || i3 == |line| || line[i3] != '.' then None
      else SkipRun(line, i2, Digits); Some((active, i2, i3))
  }

  /**
   * `\s+(.+?)\s+\[vol:` after the dot, which sits just before `w`: the span
   * [start, end) of the name and the index of the volume tag. The name
   * normally starts at the first non-space and ends at the first place the
   * tag can follow. When there is no such place the engine backtracks into
   * the `\s+` after the dot, and the one way that succeeds is a name of a
   * single white-space character right before the tag's own white space,
   * which needs at least three spaces after the dot.
   */
  function Rest(line: string, w: nat): (r: Option<(nat, nat, nat, nat)>)
    requires w <= |line|
    ensures r.Some? ==> w < r.value.0 < r.value.1 <= r.value.2 < r.value.3 <= |line|
    ensures r.Some? ==> AllVolumeChars(line[r.value.2..r.value.3])
  {
    var p := Skip(line, w, Spaces);
    if p == w || p == |line| then None
    else match FirstTail(line, p + 1)
      case Some(e) => var v := VolumeSpan(line, Skip(line, e, Spaces)); Some((p, e, v.0, v.1))
      case None =>
        if p - w >= 3 && VolumeTagAt(line, p) then var v := VolumeSpan(line, p); Some((p - 2, p - 1, v.0, v.1))
        else None
  }

  /** The opening from the ends of its runs. */
  lemma {:induction false} OpeningAt(line: string, i0: nat, i1: nat, active: bool, i2: nat)
    requires i0 == Skip(line, 0, Spaces) && i0 < |line| && line[i0] == Bar
    requires i0 + 1 <= |line| && i1 == Skip(line, i0 + 1, Spaces)
    requires active == (i1 < |line| && line[i1] == '*')
    requires !active ==> i2 == i1
    requires active ==> i1 + 1 <= |line| && i2 == Skip(line, i1 + 1, Spaces)
    ensures Opening(line) == Some((active, i2))
  {
  }

  /** The lead from the opening and the end of the id digits. */
  lemma {:induction false} LeadAt(line: string, active: bool, i2: nat, i3: nat)
    requires Opening(line) == Some((active, i2))
    requires i3 == Skip(line, i2, Digits) && i3 != i2 && i3 < |line| && line[i3] == '.'
    ensures Lead(line) == Some((active, i2, i3))
  {
  }

  /** The rest from the end of the spaces after the dot and the first tail after the name's first character. */
  lemma {:induction false} RestAt(line: string, w: nat, p: nat, e: nat, q: nat, v: (nat, nat))
    requires w <= |line| && p == Skip(line, w, Spaces) && p != w && p < |line|
    requires FirstTail(line, p + 1) == Some(e)
    requires q == Skip(line, e, Spaces) && q + |VolumeTag| <= |line| && VolumeSpan(line, q) == v
    ensures Rest(line, w) == Some((p, e, v.0, v.1))
  {
  }

  /** The match of the sink pattern at the start of `line`, with its four captures. */
  function Match(line: string): (r: Option<SinkMatch>)
    ensures r.Some? ==> |r.value.idDigits| > 0 && AllDigits(r.value.idDigits)
    ensures r.Some? ==> |r.value.name| > 0
    ensures r.Some? ==> |r.value.volumeDigits| > 0 && AllVolumeChars(r.value.volumeDigits)
  {
    match Lead(line)
    case None => None
    case Some((active, i2, i3)) =>
      match Rest(line, i3 + 1)
      case None => None
      case Some((p, e, v0, v1)) => Some(SinkMatch(active, line[i2..i3], line[p..e], line[v0..v1]))
  }

  /**
   * Only a line whose first non-space character is the bar can match, and the
   * active flag is set exactly when a "*" is the next non-space after the bar.
   */
  lemma {:induction false} MatchNeedsBar(line: string)
    requires Lead(line).Some?
    ensures StartsWith(TrimStart(line), [Bar])
    ensures Lead(line).value.0 <==> StartsWith(TrimStart(TrimStart(line)[1..]), "*")
  {
    var i0 := Skip(line, 0, Spaces);
    var i1 := Skip(line, i0 + 1, Spaces);
    assert i0 < |line| && line[i0] == Bar;
    assert Lead(line).value.0 <==> i1 < |line| && line[i1] == '*';
    BarThenStar(line, i0, i1);
  }

  lemma {:induction false} BarThenStar(line: string, i0: nat, i1: nat)
    requires i0 == Skip(line, 0, Spaces) && i0 < |line| && line[i0] == Bar
    requires i1 == Skip(line, i0 + 1, Spaces)
    ensures StartsWith(TrimStart(line), [Bar])
    ensures StartsWith(TrimStart(TrimStart(line)[1..]), "*") <==> i1 < |line| && line[i1] == '*'
  {
    TrimStartAtFirst(line);
    var t := TrimStart(line);
    assert t[0] == Bar;
    assert t[..1] == [Bar];
    TrimTwice(line, i0, i1);
    StarAt(line, i1);
  }

  lemma {:induction false} TrimStartAtFirst(line: string)
    ensures TrimStart(line) == line[Skip(line, 0, Spaces)..]
  {
    TrimStartSkips(line, 0);
    assert line[0..] == line;
  }

  lemma {:induction false} TrimTwice(line: string, i0: nat, i1: nat)
    requires i0 == Skip(line, 0, Spaces) && i0 < |line|
    requires i1 == Skip(line, i0 + 1, Spaces)
    ensures TrimStart(line) == line[i0..] && TrimStart(TrimStart(line)[1..]) == line[i1..]
  {
    TrimStartAtFirst(line);
    assert TrimStart(line)[1..] == line[i0 + 1..];
    TrimStartSkips(line, i0 + 1);
  }

  lemma {:induction false} StarAt(line: string, i: nat)
    requires i <= |line|
    ensures StartsWith(line[i..], "*") <==> i < |line| && line[i] == '*'
  {
  }

  /** Trimming the front of a suffix lands on the first non-space. */
  lemma {:induction false} TrimStartSkips(s: string, i: nat)
    requires i <= |s|
    ensures TrimStart(s[i..]) == s[Skip(s, i, Spaces)..]
    decreases |s| - i
  {
    if i < |s| && IsSpace(s[i]) {
      assert s[i..][1..] == s[i + 1..];
      TrimStartSkips(s, i + 1);
    }
  }

  /** Python's `line.strip().startswith("│")`: the first non-space character is the bar. */
  predicate BarLine(line: string) {
    StartsWith(Strip(line), [Bar])
  }

  /** Only bar lines match: a header or any other line without the bar never yields a device. */
  lemma {:induction false} MatchOnlyBarLines(line: string)
    requires Match(line).Some?
    ensures BarLine(line)
  {
    assert Lead(line).Some?;
    MatchNeedsBar(line);
    StripKeepsFirst(line);
  }

  /** Stripping the end does not touch a first character that is not white space. */
  lemma {:induction false} StripKeepsFirst(line: string)
    requires StartsWith(TrimStart(line), [Bar])
    ensures BarLine(line)
  {
    var t := TrimStart(line);
    var r := TrimEnd(t);
    TrimEndSpec(t);
    assert t[0] == Bar;
    assert !AllSpace(t);
    assert r[0] == t[0];
    assert r[..1] == [Bar];
  }

  /** A white-space character right before a tail starts a tail too. */
  lemma {:induction false} TailExtendsBack(s: string, f: nat)
    requires TailAt(s, f + 1)
    ensures IsSpace(s[f]) ==> TailAt(s, f)
  {
    if IsSpace(s[f]) {
      assert Skip(s, f, Spaces) == Skip(s, f + 1, Spaces);
    }
  }

  /** The name span Rest picks has no white space at its ends, unless it is all white space. */
  lemma {:induction false} RestNameShape(line: string, w: nat)
    requires w <= |line| && Rest(line, w).Some?
    ensures var r := Rest(line, w).value;
            AllSpace(line[r.0..r.1]) || (!IsSpace(line[r.0]) && !IsSpace(line[r.1 - 1]))
  {
    var p := Skip(line, w, Spaces);
    var t := FirstTail(line, p + 1);
    if t.Some? {
      assert Rest(line, w).value.0 == p && Rest(line, w).value.1 == t.value;
      LazyNameEnd(line, p, t.value);
    } else {
      assert Rest(line, w).value.0 == p - 2 && Rest(line, w).value.1 == p - 1;
      assert line[p - 2..p - 1] == [line[p - 2]];
    }
  }

  /** The lazy name stopping at the first tail after a non-space start ends in a non-space. */
  lemma {:induction false} LazyNameEnd(line: string, p: nat, e: nat)
    requires p < e < |line| && !IsSpace(line[p])
    requires TailAt(line, e)
    requires forall f: nat :: p + 1 <= f < e ==> !TailAt(line, f)
    ensures !IsSpace(line[e - 1])
  {
    if e - 1 > p {
      assert !TailAt(line, e - 1);
      TailExtendsBack(line, e - 1);
    }
  }

  /**
   * The lazy name never ends in white space, and starts with white space only
   * in the backtracking case, where it is a single white-space character; so
   * `strip()` either leaves it as it is or empties it.
   */
  lemma {:induction false} NameHasNoOuterSpace(line: string)
    requires Match(line).Some?
    ensures var n := Match(line).value.name;
            AllSpace(n) || (!IsSpace(n[0]) && !IsSpace(n[|n| - 1]))
  {
    var r := MatchSpans(line);
    NameSpanShape(line, Lead(line).value.2 + 1, Match(line).value.name);
  }

  lemma {:induction false} NameSpanShape(line: string, w: nat, n: string)
    requires w <= |line| && Rest(line, w).Some?
    requires n == line[Rest(line, w).value.0..Rest(line, w).value.1]
    ensures AllSpace(n) || (!IsSpace(n[0]) && !IsSpace(n[|n| - 1]))
  {
    RestNameShape(line, w);
  }

  /** The spans Match takes its name from: the ones Rest finds after the dot. */
  lemma {:induction false} MatchSpans(line: string) returns (r: (nat, nat, nat, nat))
    requires Match(line).Some?
    ensures Lead(line).Some? && Lead(line).value.2 + 1 <= |line|
    ensures Rest(line, Lead(line).value.2 + 1) == Some(r)
    ensures Match(line).value.name == line[r.0..r.1]
  {
    r := Rest(line, Lead(line).value.2 + 1).value;
  }

  /** Python's `strip()` of the name capture is the capture itself, or empty in the backtracking case. */
  lemma {:induction false} StrippedName(line: string)
    requires Match(line).Some?
    ensures var n := Match(line).value.name; Strip(n) == n || Strip(n) == []
  {
    NameHasNoOuterSpace(line);
    StripSpec(Match(line).value.name);
  }

  /** The text before the id: a space, the bar, and the active marker or a space, padded as `wpctl` does. */
  function Header(active: bool): string {
    " " + [Bar] + "  " + (if active then "*" else " ") + "   "
  }

  /** A sink entry as `wpctl status` prints it: ` │  *   64. Name [vol: 0.40]`. */
  function Render(active: bool, id: string, name: string, volume: string): string {
    Header(active) + id + ". " + name + " [vol: " + volume + "]"
  }

  /** A name the lazy capture takes whole: no white space at either end and no volume tag inside. */
  predicate PlainName(name: string) {
    |name| > 0 && !IsSpace(name[0]) && !IsSpace(name[|name| - 1]) && !Contains(name, VolumeTag)
  }

  /**
   * The text from `w` on is a single space, `name`, the volume tag with one
   * space after its colon, `volume` and a closing bracket.
   */
  predicate EntryTail(line: string, w: nat, name: string, volume: string) {
    var e := w + 1 + |name|;
    && |line| == e + 8 + |volume|
    && line[w] == ' '
    && line[w + 1..e] == name
    && line[e..e + 7] == " [vol: "
    && line[e + 7..e + 7 + |volume|] == volume
    && line[e + 7 + |volume|] == ']'
  }

  /** The matcher recovers the four fields of every entry printed in the `wpctl` layout. */
  lemma {:induction false} MatchRender(active: bool, id: string, name: string, volume: string)
    requires |id| > 0 && AllDigits(id)
    requires PlainName(name)
    requires |volume| > 0 && AllVolumeChars(volume)
    ensures Match(Render(active, id, name, volume)) == Some(SinkMatch(active, id, name, volume))
  {
    RenderLayout(active, id, name, volume);
    MatchEntry(Render(active, id, name, volume), active, id, name, volume);
  }

  /** Any line laid out as an entry, with a header, digits, a dot and an entry tail, matches with those fields. */
  lemma {:induction false} MatchEntry(line: string, active: bool, id: string, name: string, volume: string)
    requires |id| > 0 && AllDigits(id)
    requires PlainName(name)
    requires |volume| > 0 && AllVolumeChars(volume)
    requires 9 + |id| <= |line|
    requires line[..8] == Header(active) && line[8..8 + |id|] == id && line[8 + |id|] == '.'
    requires EntryTail(line, 9 + |id|, name, volume)
    ensures Match(line) == Some(SinkMatch(active, id, name, volume))
  {
    var w := 9 + |id|;
    var e := w + 1 + |name|;
    EntrySpans(line, active, id, name, volume);
    MatchOf(line, active, id, name, volume, (active, 8, 8 + |id|), (w + 1, e, e + 7, e + 7 + |volume|));
  }


  /** The spans Lead and Rest find in an entry. */
  lemma {:induction false} EntrySpans(line: string, active: bool, id: string, name: string, volume: string)
    requires |id| > 0 && AllDigits(id)
    requires PlainName(name)
    requires |volume| > 0 && AllVolumeChars(volume)
    requires 9 + |id| <= |line|
    requires line[..8] == Header(active) && line[8..8 + |id|] == id && line[8 + |id|] == '.'
    requires EntryTail(line, 9 + |id|, name, volume)
    ensures var e := 10 + |id| + |name|;
            && Lead(line) == Some((active, 8, 8 + |id|))
            && Rest(line, 9 + |id|) == Some((10 + |id|, e, e + 7, e + 7 + |volume|))
  {
    EntryLead(line, active, id);
    RestOfEntry(line, 9 + |id|, name, volume);
  }

  /** Match assembles its captures from the spans Lead and Rest find. */
  lemma {:induction false} MatchOf(line: string, active: bool, id: string, name: string, volume: string,
                l: (bool, nat, nat), r: (nat, nat, nat, nat))
    requires Lead(line) == Some(l)
    requires l.2 + 1 <= |line| && Rest(line, l.2 + 1) == Some(r)
    requires l.0 == active && line[l.1..l.2] == id && line[r.0..r.1] == name && line[r.2..r.3] == volume
    ensures Match(line) == Some(SinkMatch(active, id, name, volume))
  {
    MatchSplit(line, l, r);
  }

  lemma {:induction false} MatchSplit(line: string, l: (bool, nat, nat), r: (nat, nat, nat, nat))
    requires Lead(line) == Some(l)
    requires l.2 + 1 <= |line| && Rest(line, l.2 + 1) == Some(r)
    ensures Match(line) == Some(SinkMatch(l.0, line[l.1..l.2], line[r.0..r.1], line[r.2..r.3]))
  {
  }

  /** Where each field of a rendered entry sits. */
  lemma {:induction false} RenderLayout(active: bool, id: string, name: string, volume: string)
    ensures var line := Render(active, id, name, volume);
            && line[..8] == Header(active)
            && line[8..8 + |id|] == id
            && line[8 + |id|] == '.'
            && EntryTail(line, 9 + |id|, name, volume)
  {
    var h := Header(active);
    var line := Render(active, id, name, volume);
    var w := 9 + |id|;
    var e := w + 1 + |name|;
    assert line == h + id + ". " + name + " [vol: " + volume + "]";
    assert line[..8] == h;
    assert line[8..8 + |id|] == id;
    assert line[8 + |id|..w + 1] == ". ";
    assert line[w] == line[8 + |id|..w + 1][1];
    assert line[8 + |id|] == line[8 + |id|..w + 1][0];
    assert line[w + 1..e] == name;
    assert line[e..e + 7] == " [vol: ";
    assert line[e + 7..e + 7 + |volume|] == volume;
  }

  /** The header, the id digits and the dot give the lead of the pattern. */
  lemma {:induction false} EntryLead(line: string, active: bool, id: string)
    requires |id| > 0 && AllDigits(id)
    requires 9 + |id| <= |line|
    requires line[..8] == Header(active) && line[8..8 + |id|] == id && line[8 + |id|] == '.'
    ensures Lead(line) == Some((active, 8, 8 + |id|))
  {
    var h := Header(active);
    assert forall m :: 0 <= m < 8 ==> line[m] == h[m] by {
      forall m | 0 <= m < 8 ensures line[m] == h[m] { assert line[..8][m] == line[m]; }
    }
    assert line[8] == id[0] by { assert line[8..8 + |id|][0] == line[8]; }
    assert line[0] == ' ' && line[1] == Bar;
    SkipLands(line, 0, 1, Spaces);
    if active {
      SkipLands(line, 2, 4, Spaces);
      SkipLands(line, 5, 8, Spaces);
    } else {
      SkipLands(line, 2, 8, Spaces);
    }
    forall m | 8 <= m < 8 + |id| ensures IsDigit(line[m]) {
      assert line[m] == line[8..8 + |id|][m - 8];
    }
    SkipLands(line, 8, 8 + |id|, Digits);
    OpeningAt(line, 1, if active then 4 else 8, active, 8);
    LeadAt(line, active, 8, 8 + |id|);
  }

  /** The volume tag follows the name of an entry, and its capture is the volume. */
  lemma {:induction false} TailOfEntry(line: string, w: nat, name: string, volume: string)
    requires EntryTail(line, w, name, volume)
    requires |volume| > 0 && AllVolumeChars(volume)
    ensures var e := w + 1 + |name|;
            && TailAt(line, e) && Skip(line, e, Spaces) == e + 1
            && Skip(line, e + 1 + |VolumeTag|, Spaces) == e + 7
            && VolumeSpan(line, e + 1) == (e + 7, e + 7 + |volume|)
  {
    var e := w + 1 + |name|;
    var v := e + 7;
    GapOfEntry(line, e);
    VolumeOfEntry(line, v, volume);
    SkipLands(line, e, e + 1, Spaces);
    SkipLands(line, e + 6, v, Spaces);
    VolumeSpanAt(line, e + 1, v, v + |volume|);
  }

  /** The text " [vol: " between the name and the volume: a space, the tag, a space. */
  lemma {:induction false} GapOfEntry(line: string, e: nat)
    requires e + 7 <= |line| && line[e..e + 7] == " [vol: "
    ensures IsSpace(line[e]) && !IsSpace(line[e + 1]) && line[e + 1..e + 6] == VolumeTag && IsSpace(line[e + 6])
  {
    var gap := line[e..e + 7];
    assert line[e] == gap[0] && line[e + 1] == gap[1] && line[e + 6] == gap[6];
    SliceOfSlice(line, e, e + 7, 1, 6);
    assert gap[1..6] == VolumeTag;
  }

  /** The volume of an entry, closed by "]", is a whole run of volume characters. */
  lemma {:induction false} VolumeOfEntry(line: string, v: nat, volume: string)
    requires v + |volume| < |line| && line[v..v + |volume|] == volume && line[v + |volume|] == ']'
    requires |volume| > 0 && AllVolumeChars(volume)
    ensures IsVolumeChar(line[v]) && !IsSpace(line[v]) && Skip(line, v, VolumeChars) == v + |volume|
  {
    forall m | v <= m < v + |volume| ensures IsVolumeChar(line[m]) {
      assert line[m] == line[v..v + |volume|][m - v];
    }
    SkipLands(line, v, v + |volume|, VolumeChars);
  }

  /** A slice of a slice is a slice. */
  lemma {:induction false} SliceOfSlice(s: string, a: nat, b: nat, c: nat, d: nat)
    requires a <= b <= |s| && c <= d <= b - a
    ensures s[a..b][c..d] == s[a + c..a + d]
  {
    forall k | 0 <= k < d - c ensures s[a..b][c..d][k] == s[a + c..a + d][k] {
      assert s[a..b][c..d][k] == s[a..b][c + k] == s[a + c + k];
    }
  }

  /** After the dot of an entry, the lazy name is the whole plain name. */
  lemma {:induction false} RestOfEntry(line: string, w: nat, name: string, volume: string)
    requires EntryTail(line, w, name, volume)
    requires PlainName(name)
    requires |volume| > 0 && AllVolumeChars(volume)
    ensures var e := w + 1 + |name|; Rest(line, w) == Some((w + 1, e, e + 7, e + 7 + |volume|))
  {
    var e := w + 1 + |name|;
    NameOfEntry(line, w, name, volume);
    TailOfEntry(line, w, name, volume);
    NoTailInName(line, w + 1, e);
    RestFromParts(line, w, e, (e + 7, e + 7 + |volume|));
  }

  /** The name of an entry sits between a space and a space and is plain. */
  lemma {:induction false} NameOfEntry(line: string, w: nat, name: string, volume: string)
    requires EntryTail(line, w, name, volume)
    requires PlainName(name)
    ensures var e := w + 1 + |name|;
            && e < |line| && line[w] == ' ' && line[e] == ' '
            && line[w + 1..e] == name && !IsSpace(line[w + 1])
  {
    var p := w + 1;
    var e := p + |name|;
    assert line[p] == name[0] by { assert line[p..e][0] == line[p]; }
    assert line[e] == ' ' by { assert line[e..e + 7][0] == line[e]; }
  }

  /** No tail starts inside a plain name followed by a space, after its first character. */
  lemma {:induction false} NoTailInName(line: string, p: nat, e: nat)
    requires p < e < |line| && PlainName(line[p..e]) && line[e] == ' '
    ensures forall f: nat :: p + 1 <= f < e ==> !TailAt(line, f)
  {
    forall f: nat | p + 1 <= f < e ensures !TailAt(line, f) {
      NoTailWithin(line, p, e, f);
    }
  }

  /** A space, a non-space, and the first tail at `e`: the lazy name runs from the non-space to `e`. */
  lemma {:induction false} RestFromParts(line: string, w: nat, e: nat, v: (nat, nat))
    requires w + 1 < e < |line| && line[w] == ' ' && !IsSpace(line[w + 1])
    requires TailAt(line, e) && forall f: nat :: w + 2 <= f < e ==> !TailAt(line, f)
    requires Skip(line, e, Spaces) == e + 1 && e + 1 + |VolumeTag| <= |line| && VolumeSpan(line, e + 1) == v
    ensures Rest(line, w) == Some((w + 1, e, v.0, v.1))
  {
    SkipLands(line, w, w + 1, Spaces);
    FirstTailLands(line, w + 2, e);
    RestAt(line, w, w + 1, e, e + 1, v);
  }

  /** Inside a plain name followed by a space the tail cannot start, so the lazy name does not stop early. */
  lemma {:induction false} NoTailWithin(line: string, p: nat, e: nat, f: nat)
    requires p < f < e < |line|
    requires PlainName(line[p..e]) && line[e] == ' '
    ensures !TailAt(line, f)
  {
    assert !IsSpace(line[e - 1]) by { assert line[p..e][e - 1 - p] == line[e - 1]; }
    var j := Skip(line, f, Spaces);
    SkipRun(line, f, Spaces);
    assert j < e;
    NoTagWithin(line, p, e, j);
  }

  /** The volume tag does not start inside a plain name followed by a space. */
  lemma {:induction false} NoTagWithin(line: string, p: nat, e: nat, j: nat)
    requires p <= j < e < |line|
    requires !Contains(line[p..e], VolumeTag) && line[e] == ' '
    ensures !VolumeTagAt(line, j)
  {
    var name := line[p..e];
    if j + 5 <= e {
      var a, b := name[j - p..j - p + 5], line[j..j + 5];
      assert a == b by {
        forall m | 0 <= m < 5 ensures a[m] == b[m] {
          assert name[j - p + m] == line[j + m];
        }
      }
      ContainsIffOccurs(name, VolumeTag);
      assert !OccursAt(name, VolumeTag, j - p);
    } else if j + 5 <= |line| {
      assert line[j..j + 5][e - j] == line[e];
    }
  }

  /** A first occurrence of the tail is what FirstTail finds. */
  lemma {:induction false} FirstTailLands(s: string, from: nat, e: nat)
    requires from <= e && TailAt(s, e)
    requires forall f: nat :: from <= f < e ==> !TailAt(s, f)
    ensures FirstTail(s, from) == Some(e)
    decreases e - from
  {
    if from < e {
      FirstTailLands(s, from + 1, e);
    }
  }
}
