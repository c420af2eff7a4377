/**
  The pure parts of `BooleanCard` in app/page.tsx: the tone flags that pick the
  card's colour, and the transform that turns a camelCase evidence key into the
  label shown above its quote (`key.replace(/([A-Z])/g, ' $1').trim()`).
 */
module Card {
  import opened Wrappers
  import opened Schema
  import opened Scoring

  /** `isHigh`, `isLow` and `isNeutral` of a card. */
  datatype Tone = Tone(isHigh: bool, isLow: bool, isNeutral: bool)

  /** The card's colour: the source's green (#5F9B63), red-600 and amber-600. */
  datatype Theme = Green | Red | Amber

  function ToneOf(score: int, status: Status): (t: Tone)
    ensures t.isNeutral <==> status == Unknown
    ensures t.isNeutral ==> !t.isLow
    ensures status == Exempt ==> t.isHigh
    ensures t.isHigh && t.isLow ==> status == Exempt
  {
    Tone(score >= 80 || status == Exempt, score <= 49 && status != Unknown, status == Unknown)
  }

  /** `theme` (and `ringColor`, which makes the same choice): high wins over low, amber otherwise. */
  function ThemeOf(score: int, status: Status): (th: Theme)
    ensures th == Green <==> score >= 80 || status == Exempt
    ensures th == Red <==> score <= 49 && status != Unknown && status != Exempt
    ensures th == Amber <==> (49 < score < 80 && status != Exempt) || (score <= 49 && status == Unknown)
  {
    var t := ToneOf(score, status);
    if t.isHigh then Green else if t.isLow then Red else Amber
  }

  /** On a threshold-derived result the colour follows the status, and the card is never neutral. */
  lemma ThemeTracksStatus(s: Scored)
    requires s.status == GetStatus(s.score)
    ensures !ToneOf(s.score, s.status).isNeutral
    ensures ThemeOf(s.score, s.status) == Green <==> s.status == Pass
    ensures ThemeOf(s.score, s.status) == Red <==> s.status == Fail
    ensures ThemeOf(s.score, s.status) == Amber <==> s.status == Review
  {
  }

  /**
    The CIPA card: neutral exactly for an unclassified tool, whose score-0 result is
    shown amber and never low; an exempt tool is shown green.
   */
  lemma CipaCardTone(t: Option<ToolType>, section: Option<CipaSection>)
    requires CipaFor(t, section).Ok?
    ensures var c := CipaFor(t, section).value;
      && (ToneOf(c.score, c.status).isNeutral <==> t != Some(TypeA) && t != Some(TypeB) && t != Some(TypeC))
      && (c.status == Unknown ==> !ToneOf(c.score, c.status).isLow && ThemeOf(c.score, c.status) == Amber)
      && (c.status == Exempt ==> ThemeOf(c.score, c.status) == Green)
      && (t == Some(TypeA) || t == Some(TypeB) ==>
            (ThemeOf(c.score, c.status) == Green <==> c.status == Pass)
            && (ThemeOf(c.score, c.status) == Red <==> c.status == Fail))
  {
  }

  // ---- Key labels ----

  /** `[A-Z]`: the regular expression's class is ASCII capitals only. */
  predicate IsUpper(c: char) {
    'A' <= c <= 'Z'
  }

  /** The characters `String.prototype.trim` strips: WhiteSpace and LineTerminator of ECMAScript. */
  predicate IsJsWhiteSpace(c: char) {
    c == '\t' || c == '\n' || c == '\U{000B}' || c == '\U{000C}' || c == '\r' || c == ' '
    || c == '\U{00A0}' || c == '\U{1680}' || ('\U{2000}' <= c <= '\U{200A}')
    || c == '\U{2028}' || c == '\U{2029}' || c == '\U{202F}' || c == '\U{205F}'
    || c == '\U{3000}' || c == '\U{FEFF}'
  }

  function CountUpper(s: string): nat {
    if s == [] then 0 else (if IsUpper(s[0]) then 1 else 0) + CountUpper(s[1..])
  }

  /** `s` with every space removed. */
  function DropSpaces(s: string): string {
    if s == [] then [] else (if s[0] == ' ' then [] else [s[0]]) + DropSpaces(s[1..])
  }

  /**
    `s.replace(/([A-Z])/g, ' $1')`: a space before every capital and nothing else
    changed, so the result grows by the number of capitals.
   */
  function SpaceCapitals(s: string): (r: string)
    ensures |r| == |s| + CountUpper(s)
  {
    if s == [] then []
    else (if IsUpper(s[0]) then [' ', s[0]] else [s[0]]) + SpaceCapitals(s[1..])
  }

  /** `trimStart`: the longest suffix that does not start with whitespace. */
  function TrimStart(s: string): (r: string)
    ensures |r| <= |s| && r == s[|s| - |r|..]
    ensures forall k :: 0 <= k < |s| - |r| ==> IsJsWhiteSpace(s[k])
    ensures r == [] || !IsJsWhiteSpace(r[0])
  {
    if s != [] && IsJsWhiteSpace(s[0]) then TrimStart(s[1..]) else s
  }

  /** `trimEnd`: the longest prefix that does not end with whitespace. */
  function TrimEnd(s: string): (r: string)
    ensures |r| <= |s| && r == s[..|r|]
    ensures forall k :: |r| <= k < |s| ==> IsJsWhiteSpace(s[k])
    ensures r == [] || !IsJsWhiteSpace(r[|r| - 1])
  {
    if s != [] && IsJsWhiteSpace(s[|s| - 1]) then TrimEnd(s[..|s| - 1]) else s
  }

  /** `r` is the slice of `s` at `i`, and everything of `s` outside that slice is whitespace. */
  ghost predicate TrimmedAt(s: string, r: string, i: nat) {
    && i + |r| <= |s|
    && r == s[i..i + |r|]
    && (forall k :: 0 <= k < i ==> IsJsWhiteSpace(s[k]))
    && (forall k :: i + |r| <= k < |s| ==> IsJsWhiteSpace(s[k]))
  }

  /** Trimming the start and then the end leaves the slice of `s` just after its leading whitespace. */
  lemma TrimBothEnds(s: string)
    ensures TrimmedAt(s, TrimEnd(TrimStart(s)), |s| - |TrimStart(s)|)
  {
    var a := TrimStart(s);
    SliceOfSuffix(s, a, TrimEnd(a), |s| - |a|);
  }

  /**
    A prefix `r` of the suffix `a` of `s` that starts at `i` is a slice of `s`; when only
    whitespace precedes `a` and follows `r`, that slice is `s` trimmed at `i`.
   */
  lemma SliceOfSuffix(s: string, a: string, r: string, i: nat)
    requires i <= |s| && a == s[i..]
    requires forall k :: 0 <= k < i ==> IsJsWhiteSpace(s[k])
    requires |r| <= |a| && r == a[..|r|]
    requires forall k :: |r| <= k < |a| ==> IsJsWhiteSpace(a[k])
    ensures TrimmedAt(s, r, i)
  {
    forall k | i + |r| <= k < |s|
      ensures IsJsWhiteSpace(s[k])
    {
      assert s[k] == a[k - i];
    }
  }

  /** `trim`: only whitespace at the two ends is removed, and none is left there. */
  function Trim(s: string): (r: string)
    ensures exists i :: TrimmedAt(s, r, i)
    ensures r == [] || (!IsJsWhiteSpace(r[0]) && !IsJsWhiteSpace(r[|r| - 1]))
  {
    TrimBothEnds(s);
    TrimEnd(TrimStart(s))
  }

  /**
    The label of an evidence key: `key.replace(/([A-Z])/g, ' $1').trim()`, that is the
    spaced key with only the whitespace at its two ends removed.
   */
  function KeyLabel(key: string): (caption: string)
    ensures exists i :: TrimmedAt(SpaceCapitals(key), caption, i)
    ensures caption == [] || (!IsJsWhiteSpace(caption[0]) && !IsJsWhiteSpace(caption[|caption| - 1]))
  {
    Trim(SpaceCapitals(key))
  }

  // ---- Properties of the key labels ----

  lemma {:induction false} SpaceCapitalsAppend(a: string, b: string)
    ensures SpaceCapitals(a + b) == SpaceCapitals(a) + SpaceCapitals(b)
  {
    if a != [] {
      var head := if IsUpper(a[0]) then [' ', a[0]] else [a[0]];
      assert (a + b)[0] == a[0];
      assert (a + b)[1..] == a[1..] + b;
      calc {
        SpaceCapitals(a + b);
        head + SpaceCapitals(a[1..] + b);
        { SpaceCapitalsAppend(a[1..], b); }
        head + (SpaceCapitals(a[1..]) + SpaceCapitals(b));
        (head + SpaceCapitals(a[1..])) + SpaceCapitals(b);
      }
    } else {
      assert a + b == b;
    }
  }

  /** A word without capitals is left as it is. */
  lemma {:induction false} SpaceCapitalsNoCapitals(s: string)
    requires forall i :: 0 <= i < |s| ==> !IsUpper(s[i])
    ensures SpaceCapitals(s) == s
  {
    if s != [] {
      SpaceCapitalsNoCapitals(s[1..]);
    }
  }

  /** The transform starts with a space exactly when `s` starts with a capital, and ends as `s` ends. */
  lemma {:induction false} SpaceCapitalsEnds(s: string)
    requires s != []
    ensures SpaceCapitals(s)[0] == if IsUpper(s[0]) then ' ' else s[0]
    ensures SpaceCapitals(s)[|SpaceCapitals(s)| - 1] == s[|s| - 1]
  {
    if |s| > 1 {
      SpaceCapitalsEnds(s[1..]);
    }
  }

  /** Every capital letter of `r` comes right after a space. */
  predicate CapitalsAfterSpaces(r: string) {
    forall i :: 0 <= i < |r| ==> (IsUpper(r[i]) ==> 0 < i && r[i - 1] == ' ')
  }

  /** Every capital of the transformed key comes right after a space. */
  lemma {:induction false} CapitalsFollowSpaces(s: string)
    ensures CapitalsAfterSpaces(SpaceCapitals(s))
  {
    if s != [] {
      CapitalsFollowSpaces(s[1..]);
      var head := if IsUpper(s[0]) then [' ', s[0]] else [s[0]];
      var rest := SpaceCapitals(s[1..]);
      var r := head + rest;
      assert SpaceCapitals(s) == r;
      forall i | 0 <= i < |r|
        ensures IsUpper(r[i]) ==> 0 < i && r[i - 1] == ' '
      {
        if i >= |head| {
          var j := i - |head|;
          assert r[i] == rest[j];
          if j == 0 {
            SpaceCapitalsEnds(s[1..]);
          } else {
            assert r[i - 1] == rest[j - 1];
          }
        }
      }
      assert CapitalsAfterSpaces(r);
    }
  }

  lemma {:induction false} DropSpacesAppend(a: string, b: string)
    ensures DropSpaces(a + b) == DropSpaces(a) + DropSpaces(b)
  {
    if a != [] {
      var head := if a[0] == ' ' then [] else [a[0]];
      assert (a + b)[0] == a[0];
      assert (a + b)[1..] == a[1..] + b;
      calc {
        DropSpaces(a + b);
        head + DropSpaces(a[1..] + b);
        { DropSpacesAppend(a[1..], b); }
        head + (DropSpaces(a[1..]) + DropSpaces(b));
        (head + DropSpaces(a[1..])) + DropSpaces(b);
      }
    } else {
      assert a + b == b;
    }
  }

  /** Removing the spaces undoes the transform. */
  lemma {:induction false} SpaceCapitalsDropSpaces(s: string)
    ensures DropSpaces(SpaceCapitals(s)) == DropSpaces(s)
  {
    if s != [] {
      var head := if IsUpper(s[0]) then [' ', s[0]] else [s[0]];
      DropSpacesAppend(head, SpaceCapitals(s[1..]));
      SpaceCapitalsDropSpaces(s[1..]);
      assert DropSpaces(head) == DropSpaces([s[0]]);
    }
  }

  lemma {:induction false} DropSpacesNoSpaces(s: string)
    requires forall i :: 0 <= i < |s| ==> s[i] != ' '
    ensures DropSpaces(s) == s
  {
    if s != [] {
      DropSpacesNoSpaces(s[1..]);
    }
  }

  lemma {:induction false} AllSpacesDrop(s: string)
    requires forall i :: 0 <= i < |s| ==> s[i] == ' '
    ensures DropSpaces(s) == []
  {
    if s != [] {
      AllSpacesDrop(s[1..]);
    }
  }

  /** The whitespace of `s` is plain spaces only. */
  predicate PlainSpacesOnly(s: string) {
    forall i :: 0 <= i < |s| ==> (IsJsWhiteSpace(s[i]) ==> s[i] == ' ')
  }

  /** The only whitespace the transform can add is a plain space. */
  lemma {:induction false} SpaceCapitalsWhiteSpace(s: string)
    requires PlainSpacesOnly(s)
    ensures PlainSpacesOnly(SpaceCapitals(s))
  {
    if s != [] {
      SpaceCapitalsWhiteSpace(s[1..]);
      var head := if IsUpper(s[0]) then [' ', s[0]] else [s[0]];
      var rest := SpaceCapitals(s[1..]);
      var r := head + rest;
      assert SpaceCapitals(s) == r;
      forall i | 0 <= i < |r|
        ensures IsJsWhiteSpace(r[i]) ==> r[i] == ' '
      {
        if i >= |head| {
          assert r[i] == rest[i - |head|];
        } else {
          assert r[i] == head[i];
        }
      }
    }
  }

  /** `trimStart` on a string whose whitespace is plain spaces removes spaces only. */
  lemma TrimStartDropSpaces(s: string)
    requires PlainSpacesOnly(s)
    ensures DropSpaces(TrimStart(s)) == DropSpaces(s)
  {
    var a := TrimStart(s);
    var cut := s[..|s| - |a|];
    assert s == cut + a;
    DropSpacesAppend(cut, a);
    assert forall i :: 0 <= i < |cut| ==> cut[i] == s[i];
    AllSpacesDrop(cut);
  }

  /** `trimEnd` on a string whose whitespace is plain spaces removes spaces only. */
  lemma TrimEndDropSpaces(s: string)
    requires PlainSpacesOnly(s)
    ensures DropSpaces(TrimEnd(s)) == DropSpaces(s)
  {
    var b := TrimEnd(s);
    var cut := s[|b|..];
    assert s == b + cut;
    DropSpacesAppend(b, cut);
    assert forall i :: 0 <= i < |cut| ==> cut[i] == s[|b| + i];
    AllSpacesDrop(cut);
  }

  /** Trimming a string whose whitespace is plain spaces removes spaces only. */
  lemma TrimDropSpaces(s: string)
    requires PlainSpacesOnly(s)
    ensures DropSpaces(Trim(s)) == DropSpaces(s)
  {
    var a := TrimStart(s);
    TrimStartDropSpaces(s);
    assert forall i :: 0 <= i < |a| ==> a[i] == s[|s| - |a| + i];
    TrimEndDropSpaces(a);
  }

  /**
    For a key without whitespace the label is the key with spaces inserted:
    removing them gives the key back.
   */
  lemma KeyLabelRoundTrip(key: string)
    requires forall i :: 0 <= i < |key| ==> !IsJsWhiteSpace(key[i])
    ensures DropSpaces(KeyLabel(key)) == key
  {
    SpaceCapitalsWhiteSpace(key);
    TrimDropSpaces(SpaceCapitals(key));
    SpaceCapitalsDropSpaces(key);
    DropSpacesNoSpaces(key);
  }

  /** `trim` leaves a string that neither starts nor ends with whitespace unchanged. */
  lemma TrimUnchanged(s: string)
    requires s == [] || (!IsJsWhiteSpace(s[0]) && !IsJsWhiteSpace(s[|s| - 1]))
    ensures Trim(s) == s
  {
  }

  /** A camelCase key (lower-case start) gets no trimming: its label is the spaced key. */
  lemma KeyLabelCamelCase(key: string)
    requires key != [] && !IsUpper(key[0]) && !IsJsWhiteSpace(key[0]) && !IsJsWhiteSpace(key[|key| - 1])
    ensures KeyLabel(key) == SpaceCapitals(key)
  {
    SpaceCapitalsEnds(key);
    TrimUnchanged(SpaceCapitals(key));
  }

  lemma SpaceCapitalsWord(w: string)
    requires w != [] && IsUpper(w[0]) && forall i :: 1 <= i < |w| ==> !IsUpper(w[i])
    ensures SpaceCapitals(w) == [' '] + w
  {
    var rest := w[1..];
    assert SpaceCapitals(rest) == rest by {
      SpaceCapitalsNoCapitals(rest);
    }
    assert SpaceCapitals(w) == [' ', w[0]] + rest;
    SpaceBeforeHead(w);
  }

  /** Putting a space before the first character is putting it before the whole string. */
  lemma SpaceBeforeHead(w: string)
    requires w != []
    ensures [' ', w[0]] + w[1..] == [' '] + w
  {
    assert w == [w[0]] + w[1..];
  }

  /** A lower-case word, as the evidence keys start. */
  predicate IsLowerWord(w: string) {
    w != [] && forall i :: 0 <= i < |w| ==> 'a' <= w[i] <= 'z'
  }

  /** A capitalised word, as the later parts of a camelCase key are. */
  predicate IsCapitalWord(w: string) {
    w != [] && IsUpper(w[0]) && forall i :: 1 <= i < |w| ==> 'a' <= w[i] <= 'z'
  }

  /** Appending a capitalised word appends a space and the word. */
  lemma AppendCapitalWord(p: string, w: string)
    requires IsCapitalWord(w)
    ensures SpaceCapitals(p + w) == SpaceCapitals(p) + " " + w
  {
    SpaceCapitalsWord(w);
    SpaceCapitalsAppend(p, w);
  }

  /** The label of a key whose spaced form neither starts nor ends with whitespace is that form. */
  lemma LabelOfSpaced(key: string, spaced: string)
    requires SpaceCapitals(key) == spaced
    requires spaced != [] && !IsJsWhiteSpace(spaced[0]) && !IsJsWhiteSpace(spaced[|spaced| - 1])
    ensures KeyLabel(key) == spaced
  {
    TrimUnchanged(spaced);
  }

  lemma TwoWordLabel(a: string, b: string)
    requires IsLowerWord(a) && IsCapitalWord(b)
    ensures KeyLabel(a + b) == a + " " + b
  {
    SpaceCapitalsNoCapitals(a);
    AppendCapitalWord(a, b);
    LabelOfSpaced(a + b, a + " " + b);
  }

  lemma ThreeWordLabel(a: string, b: string, c: string)
    requires IsLowerWord(a) && IsCapitalWord(b) && IsCapitalWord(c)
    ensures KeyLabel(a + b + c) == a + " " + b + " " + c
  {
    SpaceCapitalsNoCapitals(a);
    AppendCapitalWord(a, b);
    AppendCapitalWord(a + b, c);
    LabelOfSpaced(a + b + c, a + " " + b + " " + c);
  }

  lemma FourWordLabel(a: string, b: string, c: string, d: string)
    requires IsLowerWord(a) && IsCapitalWord(b) && IsCapitalWord(c) && IsCapitalWord(d)
    ensures KeyLabel(a + b + c + d) == a + " " + b + " " + c + " " + d
  {
    SpaceCapitalsNoCapitals(a);
    AppendCapitalWord(a, b);
    AppendCapitalWord(a + b, c);
    AppendCapitalWord(a + b + c, d);
    LabelOfSpaced(a + b + c + d, a + " " + b + " " + c + " " + d);
  }

  /** The words the CIPA keys are made of. */
  lemma CipaKeyWords()
    ensures IsLowerWord("has") && IsLowerWord("no")
    ensures IsCapitalWord("Moderation") && IsCapitalWord("Ai") && IsCapitalWord("Training")
    ensures IsCapitalWord("Third") && IsCapitalWord("Party") && IsCapitalWord("Ads")
  {
  }

  /** How the CIPA keys and their labels are put together from words. */
  lemma CipaKeySpelling()
    ensures "has" + "Moderation" == "hasModeration"
    ensures "has" + " " + "Moderation" == "has Moderation"
    ensures "no" + "Ai" + "Training" == "noAiTraining"
    ensures "no" + " " + "Ai" + " " + "Training" == "no Ai Training"
    ensures "no" + "Third" + "Party" + "Ads" == "noThirdPartyAds"
    ensures "no" + " " + "Third" + " " + "Party" + " " + "Ads" == "no Third Party Ads"
  {
  }

  lemma HasModerationLabel()
    ensures KeyLabel("hasModeration") == "has Moderation"
  {
    CipaKeyWords();
    CipaKeySpelling();
    TwoWordLabel("has", "Moderation");
  }

  lemma NoAiTrainingLabel()
    ensures KeyLabel("noAiTraining") == "no Ai Training"
  {
    CipaKeyWords();
    CipaKeySpelling();
    ThreeWordLabel("no", "Ai", "Training");
  }

  lemma NoThirdPartyAdsLabel()
    ensures KeyLabel("noThirdPartyAds") == "no Third Party Ads"
  {
    CipaKeyWords();
    CipaKeySpelling();
    FourWordLabel("no", "Third", "Party", "Ads");
  }

}
