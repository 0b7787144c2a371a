/** The pieces of `TaskPlanningAgent` (agent/task_agent.py) that are the
    repository's own logic: cleaning the weather tool's input, the guard in
    front of the weather provider, and the lenient extraction of a plan from
    the agent's final answer.

    The language-model agent is not modelled: its run is an `AgentRun` input
    (the final text, or the exception it raised), and `json.loads` is a parse
    oracle passed in as a function. */
module TaskAgent {
  import opened Basics
  import opened Text
  import opened JsonValue
  import opened Tools

  // ---------------------------------------------------------------------
  // Location extraction: lower-case the text, delete every filler word that is
  // followed by whitespace (together with that whitespace), then strip

  /** The alternatives of the pattern, in the order the regular expression
      engine tries them. */
  const Fillers: seq<string> := ["weather", "forecast", "temperature", "in", "for", "at"]

  /** Alternative `w` followed by at least one whitespace character starts `s`. */
  predicate FillerAt(s: string, w: string)
  {
    |w| < |s| && s[..|w|] == w && IsSpace(s[|w|])
  }

  /** Index of the first alternative, from the `k`-th on, that can start a
      match at the front of `s`. */
  function FirstFiller(s: string, k: nat): (r: Option<nat>)
    requires k <= |Fillers|
    decreases |Fillers| - k
    ensures r.None? <==> forall j :: k <= j < |Fillers| ==> !FillerAt(s, Fillers[j])
    ensures r.Some? ==> k <= r.value < |Fillers| && FillerAt(s, Fillers[r.value])
    ensures r.Some? ==> forall j :: k <= j < r.value ==> !FillerAt(s, Fillers[j])
  {
    if k == |Fillers| then None
    else if FillerAt(s, Fillers[k]) then Some(k)
    else FirstFiller(s, k + 1)
  }

  /** Length of the match of the pattern anchored at the front of `s`: the
      first alternative that is followed by whitespace, then the whole run of
      whitespace after it (`\s+` is greedy). */
  function MatchLength(s: string): (r: Option<nat>)
    ensures r.None? <==> forall j :: 0 <= j < |Fillers| ==> !FillerAt(s, Fillers[j])
    ensures r.Some? ==> 2 <= r.value <= |s|
    ensures r.Some? ==> exists k :: (0 <= k < |Fillers| && FillerAt(s, Fillers[k]) &&
      |Fillers[k]| < r.value && AllSpace(s[|Fillers[k]|..r.value]))
    ensures r.Some? && r.value < |s| ==> !IsSpace(s[r.value])
  {
    match FirstFiller(s, 0)
    case None => None
    case Some(k) =>
      var w := Fillers[k];
      var run := LeadingSpace(s[|w|..]);
      assert s[|w|..][..run] == s[|w|..|w| + run];
      Some(|w| + run)
  }

  /** One left-to-right pass of `re.sub` with an empty replacement: a match
      at the front is dropped and scanning resumes after it; otherwise the
      first character is kept and scanning resumes at the next one. */
  function RemoveFillers(s: string): (r: string)
    ensures |r| <= |s|
    ensures forall c :: c in r ==> c in s
    decreases |s|
  {
    if s == [] then []
    else
      match MatchLength(s)
      case Some(n) =>
        var rest := RemoveFillers(s[n..]);
        assert forall c :: c in s[n..] ==> c in s;
        rest
      case None =>
        var rest := RemoveFillers(s[1..]);
        assert forall c :: c in s[1..] ==> c in s;
        [s[0]] + rest
  }

  /** No position of `s` starts a match. */
  predicate NoFiller(s: string)
  {
    forall p :: 0 <= p < |s| ==> MatchLength(s[p..]).None?
  }

  /** `_extract_location`. */
  function ExtractLocation(text: string): (r: string)
    ensures r == [] || (!IsSpace(r[0]) && !IsSpace(r[|r| - 1]))
    ensures forall i :: 0 <= i < |r| ==> !IsUpper(r[i])
    ensures |r| <= |text|
  {
    var lowered := Lower(text);
    var removed := RemoveFillers(lowered);
    var r := Strip(removed);
    assert forall i :: 0 <= i < |r| ==> r[i] in lowered;
    r
  }

  /** The pass changes its input exactly when some position starts a match. */
  lemma {:induction false} RemoveFillersUnchanged(s: string)
    ensures RemoveFillers(s) == s <==> NoFiller(s)
  {
    if NoFiller(s) {
      NoFillerKeepsAll(s);
    } else {
      var p :| 0 <= p < |s| && MatchLength(s[p..]).Some?;
      MatchShrinks(s, p);
    }
  }

  lemma {:induction false} NoFillerKeepsAll(s: string)
    requires NoFiller(s)
    ensures RemoveFillers(s) == s
    decreases |s|
  {
    if s != [] {
      assert s[0..] == s;
      assert NoFiller(s[1..]) by {
        forall p | 0 <= p < |s[1..]| ensures MatchLength(s[1..][p..]).None? {
          assert s[1..][p..] == s[p + 1..];
        }
      }
      NoFillerKeepsAll(s[1..]);
    }
  }

  lemma {:induction false} MatchShrinks(s: string, p: nat)
    requires p < |s| && MatchLength(s[p..]).Some?
    ensures |RemoveFillers(s)| < |s|
    decreases |s|
  {
    if MatchLength(s).None? {
      assert p != 0 by { assert s[0..] == s; }
      assert s[1..][p - 1..] == s[p..];
      MatchShrinks(s[1..], p - 1);
    }
  }

  /** Input with no filler-plus-whitespace occurrence is only lower-cased and
      stripped. */
  lemma NoFillerOnlyLowersAndStrips(text: string)
    requires NoFiller(Lower(text))
    ensures ExtractLocation(text) == Strip(Lower(text))
  {
    RemoveFillersUnchanged(Lower(text));
  }

  /** The alternatives are never ambiguous: at most one of them can start a
      match at a given position, so trying "forecast" before "for" decides
      nothing on its own. */
  lemma AtMostOneFiller(s: string, i: nat, j: nat)
    requires i < |Fillers| && j < |Fillers|
    requires FillerAt(s, Fillers[i]) && FillerAt(s, Fillers[j])
    ensures i == j
  {
  }

  // ---------------------------------------------------------------------
  // Step lemmas for evaluating the pass on concrete inputs

  /** Alternative `k` matching at the front means the scan picks it. */
  lemma FillerIsFirst(k: nat, s: string)
    requires k < |Fillers| && FillerAt(s, Fillers[k])
    ensures FirstFiller(s, 0) == Some(k)
  {
    AtMostOneFiller(s, k, FirstFiller(s, 0).value);
  }

  lemma {:induction false} LeadingSpaceOf(sp: string, rest: string)
    requires AllSpace(sp) && (rest == [] || !IsSpace(rest[0]))
    ensures LeadingSpace(sp + rest) == |sp|
    decreases |sp|
  {
    if sp != [] {
      assert (sp + rest)[1..] == sp[1..] + rest;
      LeadingSpaceOf(sp[1..], rest);
    } else {
      assert sp + rest == rest;
    }
  }

  /** A filler word and the whole whitespace run after it form one match. */
  lemma MatchOfFiller(k: nat, sp: string, rest: string)
    requires k < |Fillers| && sp != [] && AllSpace(sp) && (rest == [] || !IsSpace(rest[0]))
    ensures MatchLength(Fillers[k] + sp + rest) == Some(|Fillers[k]| + |sp|)
  {
    var w := Fillers[k];
    var s := w + sp + rest;
    assert s[..|w|] == w;
    assert s[|w|] == sp[0];
    FillerIsFirst(k, s);
    assert s[|w|..] == sp + rest;
    LeadingSpaceOf(sp, rest);
  }

  /** The pass drops a filler word with the whitespace run after it. */
  lemma DropFiller(k: nat, sp: string, rest: string)
    requires k < |Fillers| && sp != [] && AllSpace(sp) && (rest == [] || !IsSpace(rest[0]))
    ensures RemoveFillers(Fillers[k] + sp + rest) == RemoveFillers(rest)
  {
    MatchOfFiller(k, sp, rest);
    assert (Fillers[k] + sp + rest)[|Fillers[k]| + |sp|..] == rest;
  }

  /** The pass keeps a first character that starts no match. */
  lemma KeepChar(s: string)
    requires s != [] && forall k :: 0 <= k < |Fillers| ==> !FillerAt(s, Fillers[k])
    ensures RemoveFillers(s) == [s[0]] + RemoveFillers(s[1..])
  {
  }

  /** A character different from the `i`-th letter of alternative `k` rules
      that alternative out. */
  lemma NotFillerAt(s: string, k: nat, i: nat)
    requires k < |Fillers| && i < |Fillers[k]| && i < |s| && s[i] != Fillers[k][i]
    ensures !FillerAt(s, Fillers[k])
  {
  }

  /** The pass keeps a character no alternative begins with. */
  lemma KeepNonInitial(s: string)
    requires s != [] && s[0] !in "wftia"
    ensures RemoveFillers(s) == [s[0]] + RemoveFillers(s[1..])
  {
    forall k | 0 <= k < |Fillers| ensures !FillerAt(s, Fillers[k]) {
      NotFillerAt(s, k, 0);
    }
    KeepChar(s);
  }

  /** Text without whitespace holds no match. */
  lemma NoSpaceKept(s: string)
    requires forall i :: 0 <= i < |s| ==> !IsSpace(s[i])
    ensures RemoveFillers(s) == s
  {
    forall p | 0 <= p < |s| ensures MatchLength(s[p..]).None? {
    }
    RemoveFillersUnchanged(s);
  }

  // ---------------------------------------------------------------------
  // A word at the end of the text

  /** Appending text that starts with a non-space leaves the whitespace run at
      the front as it was. */
  lemma {:induction false} LeadingSpaceAppend(a: string, w: string)
    requires w != [] && !IsSpace(w[0])
    ensures LeadingSpace(a + w) == LeadingSpace(a)
    decreases |a|
  {
    if a == [] {
      assert a + w == w;
    } else {
      assert (a + w)[1..] == a[1..] + w;
      LeadingSpaceAppend(a[1..], w);
    }
  }

  /** Whitespace-free text appended at the end does not change which
      alternative, followed by whitespace, starts the text. */
  lemma FillerAtAppend(t: string, w: string, f: string)
    requires forall i :: 0 <= i < |w| ==> !IsSpace(w[i])
    ensures FillerAt(t + w, f) <==> FillerAt(t, f)
  {
    var s := t + w;
    if |f| < |t| {
      assert s[..|f|] == t[..|f|];
    } else if |f| < |s| {
      assert s[|f|] == w[|f| - |t|];
    }
  }

  lemma {:induction false} FirstFillerAppend(t: string, w: string, k: nat)
    requires k <= |Fillers| && forall i :: 0 <= i < |w| ==> !IsSpace(w[i])
    ensures FirstFiller(t + w, k) == FirstFiller(t, k)
    decreases |Fillers| - k
  {
    if k < |Fillers| {
      FillerAtAppend(t, w, Fillers[k]);
      FirstFillerAppend(t, w, k + 1);
    }
  }

  /** A match at the front of `t + w`, with `w` free of whitespace, lies
      inside `t`: it is the match at the front of `t`. */
  lemma MatchLengthAppend(t: string, w: string)
    requires w != [] && forall i :: 0 <= i < |w| ==> !IsSpace(w[i])
    ensures MatchLength(t + w) == MatchLength(t)
  {
    FirstFillerAppend(t, w, 0);
    match FirstFiller(t, 0)
    case None =>
    case Some(k) =>
      var f := Fillers[k];
      SliceAppend(t, w, |f|);
      LeadingSpaceAppend(t[|f|..], w);
  }

  /** One step of the pass where a match starts the text. */
  lemma DropMatch(s: string, n: nat)
    requires MatchLength(s) == Some(n)
    ensures RemoveFillers(s) == RemoveFillers(s[n..])
  {
  }

  /** One step of the pass where no match starts the text. */
  lemma KeepUnmatched(s: string)
    requires s != [] && MatchLength(s).None?
    ensures RemoveFillers(s) == [s[0]] + RemoveFillers(s[1..])
  {
  }

  lemma AppendKeep(t: string, w: string)
    requires t != [] && MatchLength(t + w).None?
    ensures RemoveFillers(t + w) == [t[0]] + RemoveFillers(t[1..] + w)
  {
    SliceAppend(t, w, 1);
    KeepUnmatched(t + w);
  }

  lemma AppendDrop(t: string, w: string, n: nat)
    requires n <= |t| && MatchLength(t + w) == Some(n)
    ensures RemoveFillers(t + w) == RemoveFillers(t[n..] + w)
  {
    SliceAppend(t, w, n);
    DropMatch(t + w, n);
  }

  lemma SliceAppend(t: string, w: string, n: nat)
    requires n <= |t|
    ensures (t + w)[n..] == t[n..] + w
  {
  }

  lemma AppendAssoc(a: string, b: string, c: string)
    ensures a + (b + c) == a + b + c
  {
  }

  /** The first step of the pass over `t` and over `t + w` keeps the same
      characters and advances by the same amount. */
  lemma AppendStep(t: string, w: string) returns (m: nat, kept: string)
    requires t != [] && w != [] && forall i :: 0 <= i < |w| ==> !IsSpace(w[i])
    ensures 0 < m <= |t|
    ensures RemoveFillers(t) == kept + RemoveFillers(t[m..])
    ensures RemoveFillers(t + w) == kept + RemoveFillers(t[m..] + w)
  {
    MatchLengthAppend(t, w);
    match MatchLength(t)
    case Some(n) =>
      m, kept := n, [];
      AppendDrop(t, w, n);
      DropMatch(t, n);
    case None =>
      m, kept := 1, [t[0]];
      AppendKeep(t, w);
      KeepUnmatched(t);
  }

  /** A word with no whitespace at the end of the text is never part of a
      match, whether or not it is a filler word, and the pass works on the
      text before it as if the word were absent. */
  lemma {:induction false} TrailingWordKept(t: string, w: string)
    requires w != [] && forall i :: 0 <= i < |w| ==> !IsSpace(w[i])
    ensures RemoveFillers(t + w) == RemoveFillers(t) + w
    decreases |t|
  {
    if t == [] {
      assert t + w == w;
      NoSpaceKept(w);
    } else {
      var m, kept := AppendStep(t, w);
      TrailingWordKept(t[m..], w);
      AppendAssoc(kept, RemoveFillers(t[m..]), w);
    }
  }

  // ---------------------------------------------------------------------
  // Worked examples, each evaluated one step per lemma

  lemma LowerJaipur() ensures Lower("weather in Jaipur") == "weather in jaipur" { }

  lemma DropWeatherBeforeIn()
    ensures RemoveFillers("weather in jaipur") == RemoveFillers("in jaipur")
  {
    assert "weather in jaipur" == Fillers[0] + " " + "in jaipur";
    DropFiller(0, " ", "in jaipur");
  }

  lemma DropInBeforeJaipur()
    ensures RemoveFillers("in jaipur") == RemoveFillers("jaipur")
  {
    assert "in jaipur" == Fillers[3] + " " + "jaipur";
    DropFiller(3, " ", "jaipur");
  }

  lemma KeepJaipur() ensures RemoveFillers("jaipur") == "jaipur" { NoSpaceKept("jaipur"); }

  lemma StripJaipur() ensures Strip("jaipur") == "jaipur" { }

  /** "weather in Jaipur" cleans to "jaipur". */
  lemma ExtractJaipur()
    ensures ExtractLocation("weather in Jaipur") == "jaipur"
  {
    LowerJaipur();
    DropWeatherBeforeIn();
    DropInBeforeJaipur();
    KeepJaipur();
    StripJaipur();
  }

  lemma LowerWeatherIn() ensures Lower("weather in") == "weather in" { }

  lemma DropWeatherKeepIn() ensures RemoveFillers("weather in") == "in"
  {
    assert "weather in" == Fillers[0] + " " + "in";
    DropFiller(0, " ", "in");
    NoSpaceKept("in");
  }

  lemma StripIn() ensures Strip("in") == "in" { }

  /** A filler word at the very end has no whitespace after it and stays:
      "weather in" cleans to "in". */
  lemma ExtractTrailingFillerKept()
    ensures ExtractLocation("weather in") == "in"
  {
    LowerWeatherIn();
    DropWeatherKeepIn();
    StripIn();
  }

  lemma LowerGreedy() ensures Lower("x in  y") == "x in  y" { }

  lemma KeepX() ensures RemoveFillers("x in  y") == "x" + RemoveFillers(" in  y")
  {
    KeepNonInitial("x in  y");
    assert "x in  y"[1..] == " in  y";
  }

  lemma KeepSpace() ensures RemoveFillers(" in  y") == " " + RemoveFillers("in  y")
  {
    KeepNonInitial(" in  y");
    assert " in  y"[1..] == "in  y";
  }

  lemma DropInWithRun() ensures RemoveFillers("in  y") == "y"
  {
    assert "in  y" == Fillers[3] + "  " + "y";
    DropFiller(3, "  ", "y");
    NoSpaceKept("y");
  }

  lemma StripXY() ensures Strip("x y") == "x y" { }

  /** `\s+` is greedy: the whole whitespace run after a filler goes, so
      "x in  y" cleans to "x y", not "x  y". */
  lemma ExtractGreedyWhitespace()
    ensures ExtractLocation("x in  y") == "x y"
  {
    LowerGreedy();
    RemoveFromGreedy();
    StripXY();
  }

  lemma RemoveFromGreedy() ensures RemoveFillers("x in  y") == "x y"
  {
    calc {
      RemoveFillers("x in  y");
      { KeepX(); }
      "x" + RemoveFillers(" in  y");
      { KeepSpace(); }
      "x" + (" " + RemoveFillers("in  y"));
      { DropInWithRun(); }
      "x" + (" " + "y");
      "x y";
    }
  }

  lemma LowerBerlin() ensures Lower("Berlin at noon") == "berlin at noon" { }

  lemma KeepB() ensures RemoveFillers("berlin at noon") == "b" + RemoveFillers("erlin at noon")
  {
    KeepNonInitial("berlin at noon");
    assert "berlin at noon"[1..] == "erlin at noon";
  }

  lemma KeepE() ensures RemoveFillers("erlin at noon") == "e" + RemoveFillers("rlin at noon")
  {
    KeepNonInitial("erlin at noon");
    assert "erlin at noon"[1..] == "rlin at noon";
  }

  lemma KeepR() ensures RemoveFillers("rlin at noon") == "r" + RemoveFillers("lin at noon")
  {
    KeepNonInitial("rlin at noon");
    assert "rlin at noon"[1..] == "lin at noon";
  }

  lemma KeepL() ensures RemoveFillers("lin at noon") == "l" + RemoveFillers("in at noon")
  {
    KeepNonInitial("lin at noon");
    assert "lin at noon"[1..] == "in at noon";
  }

  lemma DropInBeforeAt() ensures RemoveFillers("in at noon") == RemoveFillers("at noon")
  {
    assert "in at noon" == Fillers[3] + " " + "at noon";
    DropFiller(3, " ", "at noon");
  }

  lemma DropAtBeforeNoon() ensures RemoveFillers("at noon") == RemoveFillers("noon")
  {
    assert "at noon" == Fillers[5] + " " + "noon";
    DropFiller(5, " ", "noon");
  }

  lemma KeepNoon() ensures RemoveFillers("noon") == "noon" { NoSpaceKept("noon"); }

  lemma StripBerlnoon() ensures Strip("berlnoon") == "berlnoon" { }

  /** There are no word boundaries: "in " inside "berlin " is a match too, so
      "Berlin at noon" cleans to "berlnoon". */
  lemma ExtractNoWordBoundaries()
    ensures ExtractLocation("Berlin at noon") == "berlnoon"
  {
    LowerBerlin();
    RemoveFromBerlin();
    StripBerlnoon();
  }

  lemma RemoveFromBerlin() ensures RemoveFillers("berlin at noon") == "berlnoon"
  {
    calc {
      RemoveFillers("berlin at noon");
      { KeepB(); }
      "b" + RemoveFillers("erlin at noon");
      { KeepE(); }
      "b" + ("e" + RemoveFillers("rlin at noon"));
      { KeepR(); }
      "b" + ("e" + ("r" + RemoveFillers("lin at noon")));
      { KeepL(); }
      "b" + ("e" + ("r" + ("l" + RemoveFillers("in at noon"))));
      { DropInBeforeAt(); }
      "b" + ("e" + ("r" + ("l" + RemoveFillers("at noon"))));
      { DropAtBeforeNoon(); }
      "b" + ("e" + ("r" + ("l" + RemoveFillers("noon"))));
      { KeepNoon(); }
      "b" + ("e" + ("r" + ("l" + "noon")));
      "berlnoon";
    }
  }

  lemma LowerAinty() ensures Lower("ain t y") == "ain t y" { }

  lemma KeepA() ensures RemoveFillers("ain t y") == "a" + RemoveFillers("in t y")
  {
    forall k | 0 <= k < |Fillers| ensures !FillerAt("ain t y", Fillers[k]) {
      NotFillerAt("ain t y", k, if k == 5 then 1 else 0);
    }
    KeepChar("ain t y");
    assert "ain t y"[1..] == "in t y";
  }

  lemma DropInBeforeT() ensures RemoveFillers("in t y") == RemoveFillers("t y")
  {
    assert "in t y" == Fillers[3] + " " + "t y";
    DropFiller(3, " ", "t y");
  }

  lemma KeepTY() ensures RemoveFillers("t y") == "t y"
  {
    forall k | 0 <= k < |Fillers| ensures !FillerAt("t y", Fillers[k]) {
      NotFillerAt("t y", k, if k == 2 then 1 else 0);
    }
    KeepChar("t y");
    assert "t y"[1..] == " y";
    KeepNonInitial(" y");
    assert " y"[1..] == "y";
    NoSpaceKept("y");
  }

  lemma StripAtY() ensures Strip("at y") == "at y" { }

  lemma LowerAtY() ensures Lower("at y") == "at y" { }

  lemma DropAtBeforeY() ensures RemoveFillers("at y") == "y"
  {
    assert "at y" == Fillers[5] + " " + "y";
    DropFiller(5, " ", "y");
    NoSpaceKept("y");
  }

  lemma StripY() ensures Strip("y") == "y" { }

  lemma RemoveFromAinty() ensures RemoveFillers("ain t y") == "at y"
  {
    calc {
      RemoveFillers("ain t y");
      { KeepA(); }
      "a" + RemoveFillers("in t y");
      { DropInBeforeT(); KeepTY(); }
      "a" + "t y";
      "at y";
    }
  }

  lemma ExtractAinty() ensures ExtractLocation("ain t y") == "at y"
  {
    LowerAinty();
    RemoveFromAinty();
    StripAtY();
  }

  lemma ExtractAtY() ensures ExtractLocation("at y") == "y"
  {
    LowerAtY();
    DropAtBeforeY();
    StripY();
  }

  /** The substitution is one pass, not a fixed point: removing "in " from
      "ain t y" joins "a" and "t " into a new "at " that stays, and only a
      second cleaning removes it. */
  lemma ExtractIsOnePass()
    ensures ExtractLocation("ain t y") == "at y"
    ensures ExtractLocation(ExtractLocation("ain t y")) == "y"
  {
    ExtractAinty();
    ExtractAtY();
  }

  // ---------------------------------------------------------------------
  // The weather tool

  const LocationPrompt := "Please provide a valid location name."

  /** What the Weather tool hands back to the agent: the fixed prompt, or the
      location it looked up with the provider's dictionary (which the source
      turns into text with `str()`). */
  datatype WeatherToolReply = AskForLocation(text: string) | Forwarded(location: string, reply: Dict)

  /** `weather_tool_func`: `fetched` is the outcome of the provider's request
      for the cleaned location; nothing is looked up when that location is
      empty. */
  function WeatherToolFunc(input: string, apiKey: Option<string>, fetched: HttpOutcome, render: Json -> string): (r: WeatherToolReply)
    ensures r.AskForLocation? <==> ExtractLocation(input) == []
    ensures r.AskForLocation? ==> r.text == LocationPrompt
    ensures r.Forwarded? ==> r.location == ExtractLocation(input) && r.location != []
    ensures r.Forwarded? ==> r.reply == GetWeather(apiKey, r.location, fetched, render)
  {
    var location := ExtractLocation(input);
    if location == [] then AskForLocation(LocationPrompt)
    else Forwarded(location, GetWeather(apiKey, location, fetched, render))
  }

  /** Filler words, each given by its index among the alternatives and
      followed by a non-empty run of whitespace. */
  predicate FillerParts(parts: seq<(nat, string)>)
  {
    forall i :: 0 <= i < |parts| ==> parts[i].0 < |Fillers| && parts[i].1 != [] && AllSpace(parts[i].1)
  }

  /** The text those filler words and whitespace runs spell, in order. */
  function FillerText(parts: seq<(nat, string)>): (s: string)
    requires FillerParts(parts)
    ensures parts != [] ==> s != [] && s[0] == Fillers[parts[0].0][0]
    ensures forall i :: 0 <= i < |s| ==> !IsUpper(s[i])
  {
    if parts == [] then []
    else Fillers[parts[0].0] + parts[0].1 + FillerText(parts[1..])
  }

  /** The pass deletes text made only of filler words each followed by
      whitespace. */
  lemma {:induction false} OnlyFillersRemoved(parts: seq<(nat, string)>)
    requires FillerParts(parts)
    ensures RemoveFillers(FillerText(parts)) == []
  {
    if parts != [] {
      var rest := FillerText(parts[1..]);
      DropFiller(parts[0].0, parts[0].1, rest);
      OnlyFillersRemoved(parts[1..]);
    }
  }

  /** Such text cleans to the empty location, so the tool answers with the
      prompt and asks the provider nothing: "weather in " is one such input. */
  lemma OnlyFillersAskForLocation(parts: seq<(nat, string)>, apiKey: Option<string>, fetched: HttpOutcome, render: Json -> string)
    requires FillerParts(parts)
    ensures ExtractLocation(FillerText(parts)) == []
    ensures WeatherToolFunc(FillerText(parts), apiKey, fetched, render) == AskForLocation(LocationPrompt)
  {
    var s := FillerText(parts);
    assert Lower(s) == s;
    OnlyFillersRemoved(parts);
  }

  /** "weather in " asks for a location. */
  lemma WeatherInAsksForLocation(apiKey: Option<string>, fetched: HttpOutcome, render: Json -> string)
    ensures WeatherToolFunc("weather in ", apiKey, fetched, render) == AskForLocation(LocationPrompt)
  {
    var parts: seq<(nat, string)> := [(0, " "), (3, " ")];
    assert FillerText(parts[1..]) == "in ";
    assert FillerText(parts) == "weather in ";
    OnlyFillersAskForLocation(parts, apiKey, fetched, render);
  }

  // ---------------------------------------------------------------------
  // Plan extraction: the span from the first `{` to the last `}` of the answer,
  // its decoding, and the two exception handlers

  /** Characters `i` and `j` of `s` are a `{` and a later `}`: the span from
      `i` to `j` is matched by `\{.*\}` when `.` matches newlines. */
  predicate BraceSpan(s: string, i: int, j: int)
  {
    0 <= i < j < |s| && s[i] == '{' && s[j] == '}'
  }

  /** The span `re.search` finds: the leftmost possible start, and from there
      the longest match the greedy `.*` allows. */
  function JsonSpan(s: string): (r: Option<(nat, nat)>)
    ensures r.None? <==> forall i, j :: !BraceSpan(s, i, j)
    ensures r.Some? ==> BraceSpan(s, r.value.0, r.value.1)
    ensures r.Some? ==> forall i, j :: BraceSpan(s, i, j) ==> r.value.0 <= i && j <= r.value.1
  {
    match (FirstIndex(s, '{'), LastIndex(s, '}'))
    case (Some(i), Some(j)) =>
      if i < j then
        assert BraceSpan(s, i, j);
        Some((i, j))
      else
        None
    case _ => None
  }

  /** `json_match.group()`: the text from the first `{` through the last `}`. */
  function JsonCandidate(s: string): (r: Option<string>)
    ensures r.None? <==> forall i, j :: !BraceSpan(s, i, j)
    ensures r.Some? ==> 2 <= |r.value| && r.value[0] == '{' && r.value[|r.value| - 1] == '}'
    ensures r.Some? ==> exists i, j :: BraceSpan(s, i, j) && '{' !in s[..i] && '}' !in s[j + 1..] && r.value == s[i..j + 1]
  {
    match JsonSpan(s)
    case None => None
    case Some((i, j)) =>
      assert '{' !in s[..i] && '}' !in s[j + 1..];
      Some(s[i..j + 1])
  }

  /** What `agent.run(prompt)` did. */
  datatype AgentRun = Answered(text: string) | RunFailed(message: string)

  /** What `json.loads` did with the candidate: a dict (a candidate starts
      with `{`, so a value it decodes to is an object), a JSONDecodeError, or
      any other exception, with its `str()`. */
  datatype ParseOutcome = Parsed(obj: Dict) | DecodeError | ParserRaised(message: string)

  /** The four outcomes of `generate_plan`. */
  datatype PlanOutcome =
    | Structured(obj: Dict)      // the decoded object, returned as it is
    | Raw(text: string)          // no candidate: {"plan": text}
    | RawWithError(text: string) // undecodable candidate: {"plan": text, "error": ...}
    | Failed(message: string)    // any other exception: {"error": "Failed to generate plan: ..."}

  /** The extraction and the two `except` clauses of `generate_plan`. */
  function ExtractPlan(run: AgentRun, parse: string -> ParseOutcome): (o: PlanOutcome)
    ensures run.RunFailed? ==> o == Failed(run.message)
    ensures run.Answered? && JsonCandidate(run.text).None? ==> o == Raw(run.text)
    ensures run.Answered? && JsonCandidate(run.text).Some? ==>
      match parse(JsonCandidate(run.text).value)
      case Parsed(obj) => o == Structured(obj)
      case DecodeError => o == RawWithError(run.text)
      case ParserRaised(m) => o == Failed(m)
  {
    match run
    case RunFailed(m) => Failed(m)
    case Answered(text) =>
      match JsonCandidate(text)
      case None => Raw(text)
      case Some(candidate) =>
        match parse(candidate)
        case Parsed(obj) => Structured(obj)
        case DecodeError => RawWithError(text)
        case ParserRaised(m) => Failed(m)
  }

  const ParseFailedMarker := "JSON parsing failed"
  const FailurePrefix := "Failed to generate plan: "

  /** The dictionary `generate_plan` returns for each outcome. */
  function PlanDict(o: PlanOutcome): (d: Dict)
    ensures o.Structured? ==> d == o.obj
    ensures o.Raw? ==> d.Keys == {"plan"} && d["plan"] == JStr(o.text)
    ensures o.RawWithError? ==> d.Keys == {"plan", "error"} && d["plan"] == JStr(o.text) && d["error"] == JStr(ParseFailedMarker)
    ensures o.Failed? ==> d == ErrorDict(FailurePrefix + o.message)
  {
    match o
    case Structured(obj) => obj
    case Raw(text) => map["plan" := JStr(text)]
    case RawWithError(text) => map["plan" := JStr(text), "error" := JStr(ParseFailedMarker)]
    case Failed(m) => ErrorDict(FailurePrefix + m)
  }

  /** `generate_plan`: a total function, so it never raises. */
  function GeneratePlan(run: AgentRun, parse: string -> ParseOutcome): (d: Dict)
    ensures run.RunFailed? ==> d == ErrorDict(FailurePrefix + run.message)
    ensures run.Answered? && JsonCandidate(run.text).None? ==> d == map["plan" := JStr(run.text)]
    ensures run.Answered? && JsonCandidate(run.text).Some? ==>
      match parse(JsonCandidate(run.text).value)
      case Parsed(obj) => d == obj
      case DecodeError => d == map["plan" := JStr(run.text), "error" := JStr(ParseFailedMarker)]
      case ParserRaised(m) => d == ErrorDict(FailurePrefix + m)
  {
    PlanDict(ExtractPlan(run, parse))
  }

  /** A result carries the key "error" exactly when the run or the decoder
      raised, when the candidate did not decode, or when the decoded object
      itself has that key. */
  lemma ErrorKeyIffFailure(run: AgentRun, parse: string -> ParseOutcome)
    ensures var o := ExtractPlan(run, parse);
      "error" in GeneratePlan(run, parse) <==> o.Failed? || o.RawWithError? || (o.Structured? && "error" in o.obj)
  {
  }

  /** When the answer holds exactly one brace-delimited object (no `{`
      before it, no `}` after it), that object is the candidate, and a
      decodable object is the plan. */
  lemma EmbeddedObjectIsExtracted(pre: string, obj: string, post: string, parse: string -> ParseOutcome)
    requires '{' !in pre && '}' !in post
    requires 2 <= |obj| && obj[0] == '{' && obj[|obj| - 1] == '}'
    ensures JsonCandidate(pre + obj + post) == Some(obj)
    ensures parse(obj).Parsed? ==> GeneratePlan(Answered(pre + obj + post), parse) == parse(obj).obj
  {
    var s := pre + obj + post;
    var i, j := |pre|, |pre| + |obj| - 1;
    assert BraceSpan(s, i, j);
    var span := JsonSpan(s).value;
    assert span.0 == i && span.1 == j;
    assert s[i..j + 1] == obj;
  }

  /** Text without a `{` followed later by a `}` is returned as the raw plan,
      with no "error" key. */
  lemma NoBracesGivesRawPlan(text: string, parse: string -> ParseOutcome)
    requires forall i, j :: 0 <= i < j < |text| ==> !(text[i] == '{' && text[j] == '}')
    ensures GeneratePlan(Answered(text), parse) == map["plan" := JStr(text)]
    ensures "error" !in GeneratePlan(Answered(text), parse)
  {
    assert forall i, j :: !BraceSpan(text, i, j);
  }

  /** An undecodable candidate keeps the whole answer, not the candidate,
      under "plan". */
  lemma UndecodableKeepsWholeAnswer(text: string, parse: string -> ParseOutcome)
    requires JsonCandidate(text).Some? && parse(JsonCandidate(text).value) == DecodeError
    ensures GeneratePlan(Answered(text), parse) == map["plan" := JStr(text), "error" := JStr(ParseFailedMarker)]
  {
  }
}
