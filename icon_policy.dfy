/**
 * The icon heuristic of both variants: a first-match-wins substring policy on
 * the lower-cased device name (headphone, then hdmi/tv/display, then
 * bluetooth, else speakers).
 */
module IconPolicy {
  import opened Text

  datatype Icon = Headphones | Display | Bluetooth | Speakers

  /** The symbolic icon name the row shows. */
  function IconName(icon: Icon): string {
    match icon
    case Headphones => "audio-headphones-symbolic"
    case Display => "video-display-symbolic"
    case Bluetooth => "bluetooth-active-symbolic"
    case Speakers => "audio-speakers-symbolic"
  }

  /** The if/elif chain, applied to a name that is already lower-cased. */
  function Classify(lower: string): (icon: Icon)
    ensures icon == Headphones <==> Contains(lower, "headphone")
    ensures icon == Speakers <==> !Mentions(lower)
  {
    if Contains(lower, "headphone") then Headphones
    else if Contains(lower, "hdmi") || Contains(lower, "tv") || Contains(lower, "display") then Display
    else if Contains(lower, "bluetooth") then Bluetooth
    else Speakers
  }

  /** One of the five keywords of the policy occurs in `lower`. */
  predicate Mentions(lower: string) {
    Contains(lower, "headphone") || Contains(lower, "hdmi") || Contains(lower, "tv")
    || Contains(lower, "display") || Contains(lower, "bluetooth")
  }

  /** The icon the parser attaches to a device name: the policy on its lower-cased form. */
  function IconFor(name: string): (icon: Icon)
    ensures icon == Headphones <==> Contains(AsciiLower(name), "headphone")
    ensures icon == Speakers <==> !Mentions(AsciiLower(name))
  {
    Classify(AsciiLower(name))
  }

  /** The policy as a rule table read top to bottom: keywords and the icon they select. */
  const Rules: seq<(seq<string>, Icon)> :=
    [(["headphone"], Headphones), (["hdmi", "tv", "display"], Display), (["bluetooth"], Bluetooth)]

  predicate MentionsAny(name: string, keywords: seq<string>) {
    keywords != [] && (Contains(name, keywords[0]) || MentionsAny(name, keywords[1..]))
  }

  /** Icon of the first row of `rules` one of whose keywords occurs in `name`; speakers if none. */
  function FirstMatch(rules: seq<(seq<string>, Icon)>, name: string): Icon {
    if rules == [] then Speakers
    else if MentionsAny(name, rules[0].0) then rules[0].1
    else FirstMatch(rules[1..], name)
  }

  /** The if/elif chain is exactly the first matching row of the table, in table order. */
  lemma {:induction false} ClassifyIsFirstMatch(lower: string)
    ensures Classify(lower) == FirstMatch(Rules, lower)
  {
    var r1, r2, r3 := Rules[1..], Rules[2..], Rules[3..];
    assert r1[1..] == r2 && r2[1..] == r3 && r3 == [];
    assert FirstMatch(r3, lower) == Speakers;
    assert FirstMatch(r2, lower) == if MentionsAny(lower, r2[0].0) then Bluetooth else Speakers;
    assert FirstMatch(r1, lower) == if MentionsAny(lower, r1[0].0) then Display else FirstMatch(r2, lower);
    assert MentionsAny(lower, Rules[0].0) <==> Contains(lower, "headphone") by {
      assert Rules[0].0 == ["headphone"];
    }
    assert MentionsAny(lower, r1[0].0) <==> Contains(lower, "hdmi") || Contains(lower, "tv") || Contains(lower, "display") by {
      var keys: seq<string> := ["hdmi", "tv", "display"];
      assert r1[0].0 == keys;
      assert keys[1..] == ["tv", "display"] && keys[1..][1..] == ["display"] && keys[1..][1..][1..] == [];
      assert MentionsAny(lower, keys) <==> Contains(lower, "hdmi") || MentionsAny(lower, ["tv", "display"]);
      assert MentionsAny(lower, ["tv", "display"]) <==> Contains(lower, "tv") || MentionsAny(lower, ["display"]);
      assert MentionsAny(lower, ["display"]) <==> Contains(lower, "display") || MentionsAny(lower, []);
    }
    assert MentionsAny(lower, r2[0].0) <==> Contains(lower, "bluetooth") by {
      assert r2[0].0 == ["bluetooth"];
    }
  }

  /** Lower-casing twice is lower-casing once, so the icon ignores the case of ASCII letters. */
  lemma {:induction false} IconIgnoresCase(name: string)
    ensures IconFor(AsciiLower(name)) == IconFor(name)
  {
    assert AsciiLower(AsciiLower(name)) == AsciiLower(name);
  }

  /** A name mentioning "headphone" is a headphone whatever else it mentions. */
  lemma {:induction false} HeadphoneWins(before: string, after: string)
    ensures Classify(before + "headphone" + after) == Headphones
  {
    assert Contains("headphone", "headphone");
    ContainsInContext(before, "headphone", after, "headphone");
  }

  lemma {:induction false} BluetoothHeadphonesExample()
    ensures IconFor("Bluetooth Headphones") == Headphones
  {
    assert AsciiLower("Bluetooth Headphones") == "bluetooth " + "headphone" + "s";
    HeadphoneWins("bluetooth ", "s");
  }

  lemma {:induction false} HdmiExample()
    ensures IconFor("HDMI Audio") == Display
  {
    var l := AsciiLower("HDMI Audio");
    assert l == "hdmi" + " audio" + "";
    assert Contains("hdmi", "hdmi");
    ContainsInContext("", "hdmi", " audio", "hdmi");
    assert "headphone"[4] == 'p';
    MissingCharBlocks(l, "headphone", 4);
  }
}
