/** The keyword rules of the audio lambda's example script: which keywords a transcript mentions,
  * the priority a transcript earns, and how many speakers a labelled transcript has. */
module AudioKeywords {
  import opened Text
  import opened ActionHandler

  // ---------------------------------------------------------------- found keywords and risk

  const FallWords: seq<string> := ["fall", "fell", "help", "emergency", "down"]

  /** `[w for w in keywords if w.lower() in transcription.lower()]`; the keyword lists are already
    * lower case, so `w.lower()` is `w`. */
  function FoundKeywords(keywords: seq<string>, transcription: string): (r: seq<string>)
    ensures forall w :: w in r <==> w in keywords && Contains(Lower(transcription), w)
    ensures IsSubsequence(r, keywords)
  {
    Found(keywords, Lower(transcription))
  }

  /** Filtering a split list is filtering each part: the found keywords keep list order. */
  lemma {:induction false} FoundSplits(ks1: seq<string>, ks2: seq<string>, text: string)
    ensures Found(ks1 + ks2, text) == Found(ks1, text) + Found(ks2, text)
    decreases |ks1|
  {
    if ks1 != [] {
      assert (ks1 + ks2)[0] == ks1[0] && (ks1 + ks2)[1..] == ks1[1..] + ks2;
      FoundSplits(ks1[1..], ks2, text);
    } else {
      assert ks1 + ks2 == ks2;
    }
  }

  datatype Risk = HighRisk | LowRisk

  /** `'HIGH' if found_keywords else 'LOW'` */
  function FallRisk(transcription: string): (r: Risk)
    ensures r == HighRisk <==> exists w :: w in FallWords && Contains(Lower(transcription), w)
  {
    var found := FoundKeywords(FallWords, transcription);
    if found != [] then
      assert found[0] in found;
      HighRisk
    else LowRisk
  }

  // ---------------------------------------------------------------- priority

  datatype Priority = High | Medium | Low

  function Rank(p: Priority): nat {
    match p
    case High => 2
    case Medium => 1
    case Low => 0
  }

  const EmergencyWords: seq<string> := ["fall", "fell", "help", "emergency"]
  const ConcernWords: seq<string> := ["unusual", "strange", "concerning"]

  /** The keyword analysis of `test_bedrock_analysis`: an emergency word makes it HIGH, else a
    * concern word MEDIUM, else LOW. */
  function DetectedPriority(transcription: string): (r: Priority)
  {
    var lower := Lower(transcription);
    if AnyFound(EmergencyWords, lower) then High
    else if AnyFound(ConcernWords, lower) then Medium
    else Low
  }

  /** The emergency test comes first: a transcript with words from both lists is HIGH. */
  lemma EmergencyWins(transcription: string, e: string, c: string)
    requires e in EmergencyWords && c in ConcernWords
    requires Contains(Lower(transcription), e) && Contains(Lower(transcription), c)
    ensures DetectedPriority(transcription) == High
  {
  }

  /** Each priority, in the words of the lists. */
  lemma PriorityMeaning(transcription: string)
    ensures var lower, r := Lower(transcription), DetectedPriority(transcription);
      && (r == High <==> exists w :: w in EmergencyWords && Contains(lower, w))
      && (r == Medium <==> (forall w :: w in EmergencyWords ==> !Contains(lower, w))
                           && exists w :: w in ConcernWords && Contains(lower, w))
      && (r == Low <==> forall w :: w in EmergencyWords + ConcernWords ==> !Contains(lower, w))
  {
  }

  /** More speech never lowers the priority: a transcript extended on either side ranks at least
    * as high. */
  lemma PriorityMonotone(a: string, b: string)
    ensures Rank(DetectedPriority(a)) <= Rank(DetectedPriority(a + b))
    ensures Rank(DetectedPriority(b)) <= Rank(DetectedPriority(a + b))
  {
    LowerConcat(a, b);
    forall w ensures (Contains(Lower(a), w) || Contains(Lower(b), w)) ==> Contains(Lower(a + b), w) {
      ContainsInConcat(Lower(a), Lower(b), w);
    }
  }

  /** Case does not matter. */
  lemma PriorityIgnoresCase(transcription: string)
    ensures DetectedPriority(Lower(transcription)) == DetectedPriority(transcription)
  {
    LowerIdempotent(transcription);
  }

  // ---------------------------------------------------------------- speakers

  /** The speaker prefixes as the script computes them: the text before the first ':' of each line
    * that has one. */
  function PrefixesAsWritten(lines: seq<string>): set<string> {
    set line | line in lines && ':' in line :: Before(line, ":")
  }

  /** `len(set(...))` over the lines of the stripped transcript, as written. */
  function SpeakerCountAsWritten(transcript: string): nat {
    |PrefixesAsWritten(Split(Strip(transcript), '\n'))|
  }

  /** The name before a line's first colon, without its surrounding whitespace. */
  function Speaker(line: string): string {
    Strip(Before(line, ":"))
  }

  /** The speaker prefixes, each line's own indentation stripped. */
  function Prefixes(lines: seq<string>): set<string> {
    set line | line in lines && ':' in line :: Speaker(line)
  }

  function SpeakerCount(transcript: string): nat {
    |Prefixes(Split(Strip(transcript), '\n'))|
  }

  /** Two lines by one speaker, the second indented as in a triple-quoted literal. */
  function TwoLines(name: string, first: string, ws: string, second: string): string {
    name + ":" + first + "\n" + ws + name + ":" + second
  }

  /** What the two-line transcript needs to keep its shape under `strip()` and `split`. */
  predicate WellFormed(name: string, first: string, ws: string, second: string) {
    && name != [] && !IsSpace(name[0]) && !IsSpace(name[|name| - 1])
    && second != [] && !IsSpace(second[|second| - 1])
    && ws != [] && AllSpace(ws)
    && ':' !in name && '\n' !in name && '\n' !in first && '\n' !in second && '\n' !in ws && ':' !in ws
  }

  /** The transcript's lines. */
  lemma TwoLinesSplit(name: string, first: string, ws: string, second: string)
    requires WellFormed(name, first, ws, second)
    ensures Split(Strip(TwoLines(name, first, ws, second)), '\n')
            == [name + ":" + first, ws + name + ":" + second]
  {
    var text := TwoLines(name, first, ws, second);
    var l1, l2 := name + ":" + first, ws + name + ":" + second;
    assert text == l1 + ['\n'] + l2;
    assert text[0] == name[0] && text[|text| - 1] == second[|second| - 1];
    StripPlain(text);
    SplitFirst(l1, '\n', l2);
    SplitPlain(l2, '\n');
  }

  /** The two lines both name a speaker. */
  lemma TwoLinesNamed(name: string, first: string, ws: string, second: string)
    requires WellFormed(name, first, ws, second)
    ensures var l1, l2 := name + ":" + first, ws + name + ":" + second;
      ':' in l1 && ':' in l2 && Before(l1, ":") == name && Before(l2, ":") == ws + name
  {
    var l1, l2 := name + ":" + first, ws + name + ":" + second;
    BeforeSeparator(name, ':', first);
    BeforeSeparator(ws + name, ':', second);
    assert l2 == (ws + name) + [':'] + second;
    assert l1[|name|] == ':' && l2[|ws + name|] == ':';
  }

  lemma PrefixPairAsWritten(l1: string, l2: string)
    requires ':' in l1 && ':' in l2
    ensures PrefixesAsWritten([l1, l2]) == {Before(l1, ":"), Before(l2, ":")}
  {
    var found := PrefixesAsWritten([l1, l2]);
    assert l1 in [l1, l2] && l2 in [l1, l2];
    forall x | x in found ensures x == Before(l1, ":") || x == Before(l2, ":") {
      var line :| line in [l1, l2] && ':' in line && x == Before(line, ":");
    }
  }

  lemma PrefixPair(l1: string, l2: string)
    requires ':' in l1 && ':' in l2
    ensures Prefixes([l1, l2]) == {Speaker(l1), Speaker(l2)}
  {
    var found := Prefixes([l1, l2]);
    var want := {Speaker(l1), Speaker(l2)};
    forall x | x in found ensures x in want {
      var line :| line in [l1, l2] && ':' in line && x == Speaker(line);
    }
    assert Speaker(l1) in found by { assert l1 in [l1, l2]; }
    assert Speaker(l2) in found by { assert l2 in [l1, l2]; }
  }

  /** As written, the indented line is a second speaker. */
  lemma IndentedSpeakerCountedTwice(name: string, first: string, ws: string, second: string)
    requires WellFormed(name, first, ws, second)
    ensures SpeakerCountAsWritten(TwoLines(name, first, ws, second)) == 2
  {
    var l1, l2 := name + ":" + first, ws + name + ":" + second;
    TwoLinesSplit(name, first, ws, second);
    TwoLinesNamed(name, first, ws, second);
    PrefixPairAsWritten(l1, l2);
    TwoNames(name, ws + name);
  }

  lemma TwoNames(a: string, b: string)
    requires |a| < |b|
    ensures |{a, b}| == 2
  {
  }

  /** With the indentation stripped, one speaker is one speaker. */
  lemma IndentedSpeakerCountedOnce(name: string, first: string, ws: string, second: string)
    requires WellFormed(name, first, ws, second)
    ensures SpeakerCount(TwoLines(name, first, ws, second)) == 1
  {
    var l1, l2 := name + ":" + first, ws + name + ":" + second;
    TwoLinesSplit(name, first, ws, second);
    TwoLinesNamed(name, first, ws, second);
    IndentedPrefixes(l1, l2, ws, name);
  }

  lemma IndentedPrefixes(l1: string, l2: string, ws: string, name: string)
    requires ':' in l1 && ':' in l2 && Before(l1, ":") == name && Before(l2, ":") == ws + name
    requires AllSpace(ws) && name != [] && !IsSpace(name[0]) && !IsSpace(name[|name| - 1])
    ensures Prefixes([l1, l2]) == {name}
  {
    PrefixPair(l1, l2);
    StripPlain(name);
    IndentStrip(ws, name);
  }

  /** Indenting a line never changes the speakers found. */
  lemma IndentKeepsSpeaker(ws: string, line: string)
    requires AllSpace(ws) && ':' !in ws
    ensures ':' in ws + line <==> ':' in line
    ensures ':' in line ==> Speaker(ws + line) == Speaker(line)
  {
    assert ':' in ws + line <==> ':' in ws || ':' in line;
    if ':' in line {
      IndentedName(ws, line);
    }
  }

  lemma IndentedName(ws: string, line: string)
    requires AllSpace(ws) && ':' !in ws && ':' in line
    ensures Strip(Before(ws + line, ":")) == Strip(Before(line, ":"))
  {
    var name, rest := FirstSeparator(line, ':');
    assert ws + line == (ws + name) + [':'] + rest;
    assert ':' !in ws + name by { assert ':' in ws + name <==> ':' in ws || ':' in name; }
    BeforeSeparator(name, ':', rest);
    BeforeSeparator(ws + name, ':', rest);
    IndentStrip(ws, name);
  }

  lemma IndentStrip(ws: string, name: string)
    requires AllSpace(ws)
    ensures Strip(ws + name) == Strip(name)
  {
    StripSurrounded(ws, name, []);
    assert ws + name + [] == ws + name && name + [] == name;
  }

  /** Every line indented by the same whitespace. */
  function Indent(ws: string, lines: seq<string>): (r: seq<string>)
    ensures |r| == |lines| && forall i :: 0 <= i < |lines| ==> r[i] == ws + lines[i]
  {
    seq(|lines|, i requires 0 <= i < |lines| => ws + lines[i])
  }

  /** The corrected count does not depend on indentation. */
  lemma IndentKeepsSpeakers(ws: string, lines: seq<string>)
    requires AllSpace(ws) && ':' !in ws
    ensures Prefixes(Indent(ws, lines)) == Prefixes(lines)
  {
    var indented := Indent(ws, lines);
    forall x ensures x in Prefixes(indented) <==> x in Prefixes(lines) {
      if x in Prefixes(indented) {
        var line :| line in indented && ':' in line && x == Speaker(line);
        var i :| 0 <= i < |indented| && indented[i] == line;
        IndentKeepsSpeaker(ws, lines[i]);
      }
      if x in Prefixes(lines) {
        var line :| line in lines && ':' in line && x == Speaker(line);
        var i :| 0 <= i < |lines| && lines[i] == line;
        IndentKeepsSpeaker(ws, line);
        assert indented[i] in indented;
      }
    }
  }

  // ---------------------------------------------------------------- the script's fixtures

  /** A pattern holding a letter that the text lacks in either case does not occur in the text's
    * lower-case form. */
  lemma AbsentLetter(s: string, p: string, k: nat)
    requires k < |p| && 'a' <= p[k] <= 'z' && p[k] !in s && UpperChar(p[k]) !in s
    ensures !Contains(Lower(s), p)
  {
    AbsentChar(Lower(s), p, k);
  }

  /** A pattern holding two adjacent letters that never follow each other in the text's lower-case
    * form does not occur in it. */
  lemma AbsentPair(s: string, p: string, k: nat)
    requires k + 1 < |p|
    requires forall j :: 0 <= j < |s| - 1 && LowerChar(s[j]) == p[k] ==> LowerChar(s[j + 1]) != p[k + 1]
    ensures !Contains(Lower(s), p)
  {
    var l := Lower(s);
    forall j | 0 <= j && j + |p| <= |l| ensures !OccursAt(l, p, j) {
      assert l[j..j + |p|][k] == l[j + k] && l[j..j + |p|][k + 1] == l[j + k + 1];
    }
  }

  /** The three transcripts of `test_bedrock_analysis`, expected HIGH, MEDIUM and LOW. */
  const HighText := "I fell down and need help!"
  const MediumText := "Something unusual is happening here."
  const LowText := "I'm walking around normally today."

  lemma HighFixture()
    ensures DetectedPriority(HighText) == High
  {
    var s := HighText;
    assert s[2] == 'f' && s[3] == 'e' && s[4] == 'l' && s[5] == 'l';
    var l := Lower(s);
    assert l[2] == 'f' && l[3] == 'e' && l[4] == 'l' && l[5] == 'l';
    assert l[2..6] == "fell";
    ContainsAt(Lower(s), "fell", 2);
    assert "fell" in EmergencyWords;
  }

  lemma NoEmergencyWord(l: string)
    requires !Contains(l, "fall") && !Contains(l, "fell") && !Contains(l, "help") && !Contains(l, "emergency")
    ensures !AnyFound(EmergencyWords, l)
  {
  }

  lemma NoConcernWord(l: string)
    requires !Contains(l, "unusual") && !Contains(l, "strange") && !Contains(l, "concerning")
    ensures !AnyFound(ConcernWords, l)
  {
  }

  lemma LowFixture()
    ensures DetectedPriority(LowText) == Low
  {
    LowNoEmergency();
    LowNoConcern();
  }

  lemma LowNoEmergency()
    ensures !AnyFound(EmergencyWords, Lower(LowText))
  {
    LowLacksF();
    LowLacksH();
    LowLacksE();
    NoEmergencyWord(Lower(LowText));
  }

  lemma LowNoConcern()
    ensures !AnyFound(ConcernWords, Lower(LowText))
  {
    LowLacksS();
    LowLacksC();
    NoConcernWord(Lower(LowText));
  }

  lemma LowLacksF()
    ensures !Contains(Lower(LowText), "fall") && !Contains(Lower(LowText), "fell")
  {
    AbsentLetter(LowText, "fall", 0);
    AbsentLetter(LowText, "fell", 0);
  }

  lemma LowLacksH()
    ensures !Contains(Lower(LowText), "help")
  {
    AbsentLetter(LowText, "help", 0);
  }

  lemma LowLacksE()
    ensures !Contains(Lower(LowText), "emergency")
  {
    AbsentLetter(LowText, "emergency", 0);
  }

  lemma LowLacksS()
    ensures !Contains(Lower(LowText), "unusual") && !Contains(Lower(LowText), "strange")
  {
    AbsentLetter(LowText, "unusual", 3);
    AbsentLetter(LowText, "strange", 0);
  }

  lemma LowLacksC()
    ensures !Contains(Lower(LowText), "concerning")
  {
    AbsentLetter(LowText, "concerning", 0);
  }

  lemma MediumFixture()
    ensures DetectedPriority(MediumText) == Medium
  {
    MediumNoEmergency();
    MediumConcern();
  }

  lemma MediumNoEmergency()
    ensures !AnyFound(EmergencyWords, Lower(MediumText))
  {
    MediumLacksF();
    MediumLacksHelp();
    MediumLacksY();
    NoEmergencyWord(Lower(MediumText));
  }

  lemma MediumLacksF()
    ensures !Contains(Lower(MediumText), "fall") && !Contains(Lower(MediumText), "fell")
  {
    AbsentLetter(MediumText, "fall", 0);
    AbsentLetter(MediumText, "fell", 0);
  }

  lemma MediumLacksHelp()
    ensures !Contains(Lower(MediumText), "help")
  {
    AbsentPair(MediumText, "help", 1);
  }

  lemma MediumLacksY()
    ensures !Contains(Lower(MediumText), "emergency")
  {
    AbsentLetter(MediumText, "emergency", 8);
  }

  lemma MediumConcern()
    ensures AnyFound(ConcernWords, Lower(MediumText))
  {
    var a, w, b := "Something ", "unusual", " is happening here.";
    assert MediumText == a + w + b;
    LowerConcat(a + w, b);
    LowerConcat(a, w);
    assert Lower(w) == w by {
      forall k | 0 <= k < |w| ensures Lower(w)[k] == w[k] {
        assert 'a' <= w[k] <= 'z';
      }
    }
    ContainsAt(w, w, 0);
    ContainsRight(Lower(a), w, w);
    ContainsLeft(Lower(a) + w, Lower(b), w);
    assert "unusual" in ConcernWords;
  }
}
