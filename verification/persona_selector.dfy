/**
 * Choosing which persona answers a message. A direct `@name` / `u/name`
 * mention wins outright. Otherwise the free-text answer of a language model
 * is decoded: whether the message continues a conversation, who spoke
 * before, and a 1-based persona number found by three strategies in turn.
 * A continued conversation with a known previous speaker overrides the
 * number. A missing or unusable answer falls back to a random persona.
 *
 * The model's answer is an input (`None` when the completion call fails),
 * and so is the `Math.random()` draw, a real in [0, 1).
 */
module PersonaSelector {
  import opened Wrappers
  import opened Seqs
  import opened JsText

  datatype Persona = Persona(username: string, karma: int, personality: string, interests: string, writingStyle: string)

  datatype Analysis = Analysis(isConversationContinuation: bool, previousSpeaker: Option<string>, directMention: bool)

  datatype Selection = Selection(persona: Persona, analysis: Analysis)

  // ---------------------------------------------------------------- mentions

  /** The characters of `\w`. */
  predicate IsWordChar(c: char)
  {
    'a' <= c <= 'z' || 'A' <= c <= 'Z' || '0' <= c <= '9' || c == '_'
  }

  /** `\b` at position `j`: a word character on exactly one side. */
  predicate BoundaryAt(s: string, j: nat)
    requires j <= |s|
  {
    (j > 0 && IsWordChar(s[j - 1])) != (j < |s| && IsWordChar(s[j]))
  }

  /** `token` occurs at `i`, compared case-insensitively, and is followed by a word boundary. */
  predicate TokenAt(s: string, token: string, i: int)
  {
    0 <= i && i + |token| <= |s| && ToLower(s[i..i + |token|]) == ToLower(token) && BoundaryAt(s, i + |token|)
  }

  /**
   * The test `/@?u/NAME\b|@NAME\b/i`. The optional `@` before `u/` changes
   * nothing about whether the pattern occurs, since `u/NAME` then occurs one
   * character later.
   */
  predicate Mentions(text: string, username: string)
    ensures Mentions(text, username) ==> |username| < |text|
  {
    exists i :: 0 <= i <= |text| && (TokenAt(text, "u/" + username, i) || TokenAt(text, "@" + username, i))
  }

  /**
   * `@NAME` anywhere in a message is a mention when the name ends in a word
   * character and is followed by the end of the text or a non-word character.
   */
  lemma MentionDetected(prefix: string, username: string, suffix: string)
    requires username != [] && IsWordChar(username[|username| - 1])
    requires suffix == [] || !IsWordChar(suffix[0])
    ensures Mentions(prefix + "@" + username + suffix, username)
  {
    var text := prefix + "@" + username + suffix;
    var token := "@" + username;
    var i := |prefix|;
    assert text == prefix + token + suffix;
    assert text[i..i + |token|] == token;
    assert text[i + |token| - 1] == username[|username| - 1];
    assert TokenAt(text, token, i);
  }

  /** The roster index of the first persona the message mentions, or -1. */
  function FirstMention(text: string, roster: seq<Persona>): (k: int)
    ensures -1 <= k < |roster|
    ensures k >= 0 ==> Mentions(text, roster[k].username)
    ensures k >= 0 ==> forall j :: 0 <= j < k ==> !Mentions(text, roster[j].username)
    ensures k == -1 <==> forall j :: 0 <= j < |roster| ==> !Mentions(text, roster[j].username)
  {
    FindIndex(roster, (p: Persona) => Mentions(text, p.username))
  }

  // ---------------------------------------------------------- answer lines

  function NotBlank(line: string): bool { !IsBlank(line) }

  /** `answer.split('\n').filter(line => line.trim())`. */
  function AnswerLines(answer: string): (lines: seq<string>)
    ensures forall i :: 0 <= i < |lines| ==> !IsBlank(lines[i])
  {
    Filter(Split(answer, IsNewline), NotBlank)
  }

  const AnalysisPrefix: string := "Conversation Analysis:"
  const SpeakerPrefix: string := "Previous Speaker:"
  const SelectedPrefix: string := "Selected Persona:"

  /** Some line starts with the analysis prefix and contains "yes" in any letter case. */
  predicate IsContinuation(lines: seq<string>)
  {
    exists i :: 0 <= i < |lines| && StartsWith(lines[i], AnalysisPrefix) && Contains(ToLower(lines[i]), "yes")
  }

  function FirstWithPrefix(lines: seq<string>, prefix: string): (k: int)
    ensures -1 <= k < |lines|
    ensures k >= 0 ==> StartsWith(lines[k], prefix) && forall j :: 0 <= j < k ==> !StartsWith(lines[j], prefix)
    ensures k == -1 <==> forall j :: 0 <= j < |lines| ==> !StartsWith(lines[j], prefix)
  {
    FindIndex(lines, (l: string) => StartsWith(l, prefix))
  }

  /**
   * The value of a "Previous Speaker:" line: the text between the first and
   * second colon, trimmed, with its first "u/" removed.
   */
  function SpeakerValue(line: string): (v: string)
    requires StartsWith(line, SpeakerPrefix)
    ensures var field := Split(line, IsColon);
      |field| >= 2 && v == ReplaceFirst(Trim(field[1]), "u/", "")
  {
    assert line == "Previous Speaker" + [':'] + line[17..];
    SplitAtFirstSeparator("Previous Speaker", ':', line[17..], IsColon);
    ReplaceFirst(Trim(Split(line, IsColon)[1]), "u/", "")
  }

  /** The previous speaker named by the first "Previous Speaker:" line, if there is one. */
  function PreviousSpeaker(lines: seq<string>): (p: Option<string>)
    ensures p.None? <==> forall j :: 0 <= j < |lines| ==> !StartsWith(lines[j], SpeakerPrefix)
  {
    var k := FirstWithPrefix(lines, SpeakerPrefix);
    if k == -1 then None else Some(SpeakerValue(lines[k]))
  }

  /** A JavaScript string is truthy when it is present and not empty. */
  predicate Truthy(s: Option<string>) { s.Some? && s.value != "" }

  // ------------------------------------------------------- index decoding

  function SkipSpaces(s: string, i: nat): (j: nat)
    requires i <= |s|
    ensures i <= j <= |s| && (j == |s| || !IsSpace(s[j]))
    ensures forall k :: i <= k < j ==> IsSpace(s[k])
    decreases |s| - i
  {
    if i < |s| && IsSpace(s[i]) then SkipSpaces(s, i + 1) else i
  }

  function DigitsEnd(s: string, i: nat): (j: nat)
    requires i <= |s|
    ensures i <= j <= |s| && (j == |s| || !IsDigit(s[j]))
    ensures forall k :: i <= k < j ==> IsDigit(s[k])
    decreases |s| - i
  {
    if i < |s| && IsDigit(s[i]) then DigitsEnd(s, i + 1) else i
  }

  /** `/Selected Persona:\s*(\d+)/` holds at position `p`: the prefix, optional white space, then a digit. */
  predicate SelectedMatchAt(line: string, p: nat)
  {
    MatchAt(line, SelectedPrefix, p) &&
    var q := SkipSpaces(line, p + |SelectedPrefix|);
    q < |line| && IsDigit(line[q])
  }

  /** The number captured at a match: the longest digit run after the white space. */
  function CapturedNumber(line: string, p: nat): (n: nat)
    requires SelectedMatchAt(line, p)
  {
    var q := SkipSpaces(line, p + |SelectedPrefix|);
    var e := DigitsEnd(line, q);
    assert AllDigits(line[q..e]);
    DigitsValue(line[q..e])
  }

  /** The number captured by the leftmost match at or after `p`, if the pattern occurs. */
  function SelectedNumberFrom(line: string, p: nat): (n: Option<nat>)
    requires p <= |line|
    ensures n.None? <==> forall j :: p <= j <= |line| ==> !SelectedMatchAt(line, j)
    ensures n.Some? ==> exists j :: p <= j <= |line| && SelectedMatchAt(line, j) && n.value == CapturedNumber(line, j)
    decreases |line| - p
  {
    if SelectedMatchAt(line, p) then Some(CapturedNumber(line, p))
    else if p == |line| then None
    else SelectedNumberFrom(line, p + 1)
  }

  /** Strategy one: the number on the first "Selected Persona:" line, minus one; -1 when there is none. */
  function SelectedLineIndex(lines: seq<string>): (idx: int)
    ensures idx >= -1
  {
    var k := FirstWithPrefix(lines, SelectedPrefix);
    if k == -1 then -1
    else match SelectedNumberFrom(lines[k], 0)
      case None => -1
      case Some(n) => n - 1
  }

  /** The last line below `n` that is a bare number once trimmed, or -1. */
  function LastNumberLineBelow(lines: seq<string>, n: nat): (k: int)
    requires n <= |lines|
    ensures -1 <= k < n
    ensures k >= 0 ==> IsDigits(Trim(lines[k]))
    ensures forall j :: k < j < n ==> !IsDigits(Trim(lines[j]))
  {
    if n == 0 then -1
    else if IsDigits(Trim(lines[n - 1])) then n - 1
    else LastNumberLineBelow(lines, n - 1)
  }

  /** The last line that is a bare number once trimmed, or -1. */
  function LastNumberLine(lines: seq<string>): (k: int)
    ensures -1 <= k < |lines|
    ensures k >= 0 ==> IsDigits(Trim(lines[k]))
    ensures forall j :: k < j < |lines| ==> !IsDigits(Trim(lines[j]))
  {
    LastNumberLineBelow(lines, |lines|)
  }

  /** Strategy two: the last line, if it is a bare number once trimmed, minus one; otherwise -1. */
  function LastLineIndex(lines: seq<string>): (idx: int)
    requires lines != []
    ensures idx >= -1
  {
    var last := Trim(lines[|lines| - 1]);
    if IsDigits(last) then DigitsValue(last) - 1 else -1
  }

  /** Strategy three: the last bare-number line, minus one; -1 when there is none. */
  function LastNumberIndex(lines: seq<string>): (idx: int)
    ensures idx >= -1
  {
    var k := LastNumberLine(lines);
    if k == -1 then -1 else DigitsValue(Trim(lines[k])) - 1
  }

  /**
   * The three strategies in order. A strategy that yields -1 (nothing found,
   * or the number 0) hands over to the next. `None` when there are no lines:
   * reading the last line then fails.
   */
  function DecodeIndex(lines: seq<string>): (r: Option<int>)
    ensures r.None? <==> lines == []
    ensures r.Some? ==> r.value >= -1
  {
    var first := SelectedLineIndex(lines);
    if first != -1 then Some(first)
    else if lines == [] then None
    else
      var second := LastLineIndex(lines);
      if second != -1 then Some(second)
      else Some(LastNumberIndex(lines))
  }

  /**
   * With no "Selected Persona:" line, a last line that is the bare number N
   * decodes to N - 1, whatever the lines above it say.
   */
  lemma LastLineDecodes(lines: seq<string>, k: nat)
    requires lines != [] && forall j :: 0 <= j < |lines| ==> !StartsWith(lines[j], SelectedPrefix)
    requires IsDigits(Trim(lines[|lines| - 1])) && DigitsValue(Trim(lines[|lines| - 1])) == k + 1
    ensures DecodeIndex(lines) == Some(k)
  {
  }

  /**
   * With no "Selected Persona:" line and a last line that is not a bare
   * number, the last bare-number line N above it decodes to N - 1.
   */
  lemma BackwardScanDecodes(lines: seq<string>, m: nat, k: nat)
    requires lines != [] && forall j :: 0 <= j < |lines| ==> !StartsWith(lines[j], SelectedPrefix)
    requires !IsDigits(Trim(lines[|lines| - 1]))
    requires m < |lines| && IsDigits(Trim(lines[m])) && DigitsValue(Trim(lines[m])) == k + 1
    requires forall j :: m < j < |lines| ==> !IsDigits(Trim(lines[j]))
    ensures DecodeIndex(lines) == Some(k)
  {
    assert LastNumberLine(lines) == m;
  }

  // ---------------------------------------------------------- the decision

  /** `Math.floor(Math.random() * n)`. */
  function RandomIndex(rnd: real, n: nat): (k: nat)
    requires 0.0 <= rnd < 1.0 && n > 0
    ensures k < n
  {
    assert 0.0 <= rnd * n as real < n as real by {
      assert n as real - rnd * n as real == (1.0 - rnd) * n as real;
    }
    (rnd * n as real).Floor
  }

  /** The last resort: a random persona, with no continuation and no previous speaker. */
  function RandomPick(roster: seq<Persona>, rnd: real): (s: Selection)
    requires 0.0 <= rnd < 1.0 && |roster| > 0
    ensures s.persona in roster && s.analysis == Analysis(false, None, false)
  {
    Selection(roster[RandomIndex(rnd, |roster|)], Analysis(false, None, false))
  }

  /** `availablePersonas.findIndex(p => p.username === name)`. */
  function IndexOfUsername(roster: seq<Persona>, name: string): (k: int)
    ensures -1 <= k < |roster|
    ensures k >= 0 ==> roster[k].username == name && forall j :: 0 <= j < k ==> roster[j].username != name
    ensures k == -1 <==> forall j :: 0 <= j < |roster| ==> roster[j].username != name
  {
    FindIndex(roster, (p: Persona) => p.username == name)
  }

  /** The decoded index after the continuity override. */
  function ChosenIndex(roster: seq<Persona>, lines: seq<string>, parsed: int): int
  {
    var prev := PreviousSpeaker(lines);
    if IsContinuation(lines) && Truthy(prev) && IndexOfUsername(roster, prev.value) != -1
    then IndexOfUsername(roster, prev.value)
    else parsed
  }

  /** The outcome once the model answered and no persona was mentioned. */
  function Decide(roster: seq<Persona>, lines: seq<string>, rnd: real): (s: Selection)
    requires 0.0 <= rnd < 1.0 && |roster| > 0
    ensures s.persona in roster && !s.analysis.directMention
  {
    var cont := IsContinuation(lines);
    var prev := PreviousSpeaker(lines);
    match DecodeIndex(lines)
    case None => RandomPick(roster, rnd)
    case Some(parsed) =>
      var idx := ChosenIndex(roster, lines, parsed);
      if 0 <= idx < |roster| then Selection(roster[idx], Analysis(cont, prev, false))
      else
        var fallback := if cont && Truthy(prev) then Find(roster, (p: Persona) => p.username == prev.value) else None;
        match fallback
        case Some(p) => Selection(p, Analysis(true, prev, false))
        case None => RandomPick(roster, rnd)
  }

  /**
   * `selectBestPersona`: nothing exactly when the roster is empty, and
   * otherwise always a member of the roster. The result is flagged as a
   * direct mention exactly when the message mentions some persona.
   */
  function Select(message: string, roster: seq<Persona>, answer: Option<string>, rnd: real): (r: Option<Selection>)
    requires 0.0 <= rnd < 1.0
    ensures r.None? <==> |roster| == 0
    ensures r.Some? ==> r.value.persona in roster
  {
    if |roster| == 0 then None
    else
      var k := FirstMention(message, roster);
      if k != -1 then Some(Selection(roster[k], Analysis(true, Some(roster[k].username), true)))
      else match answer
        case None => Some(RandomPick(roster, rnd))
        case Some(text) => Some(Decide(roster, AnswerLines(text), rnd))
  }

  /** The roster scan for a direct mention, in roster order. */
  method FindMention(message: string, roster: seq<Persona>) returns (k: int)
    ensures k == FirstMention(message, roster)
  {
    k := 0;
    while k < |roster|
      invariant 0 <= k <= |roster|
      invariant forall j :: 0 <= j < k ==> !Mentions(message, roster[j].username)
    {
      if Mentions(message, roster[k].username) {
        return;
      }
      k := k + 1;
    }
    k := -1;
  }

  /** The backward scan for a bare-number line. */
  method ScanForNumber(lines: seq<string>) returns (idx: int)
    ensures idx == LastNumberIndex(lines)
  {
    var j := |lines| - 1;
    while j >= 0
      invariant -1 <= j < |lines|
      invariant forall m :: j < m < |lines| ==> !IsDigits(Trim(lines[m]))
    {
      var line := Trim(lines[j]);
      if IsDigits(line) {
        assert LastNumberLine(lines) == j;
        return DigitsValue(line) - 1;
      }
      j := j - 1;
    }
    assert LastNumberLine(lines) == -1;
    return -1;
  }

  /** The three decoding strategies as the component runs them. */
  method DecodeSelectedIndex(lines: seq<string>) returns (r: Option<int>)
    ensures r == DecodeIndex(lines)
  {
    var selectedIndex := SelectedLineIndex(lines);
    if selectedIndex == -1 {
      if lines == [] {
        return None;
      }
      var lastLine := Trim(lines[|lines| - 1]);
      if IsDigits(lastLine) {
        selectedIndex := DigitsValue(lastLine) - 1;
      }
    }
    if selectedIndex == -1 {
      selectedIndex := ScanForNumber(lines);
    }
    return Some(selectedIndex);
  }

  /** The decoded answer, the continuity override and the fallback ladder, as the component runs them. */
  method DecideFromAnswer(roster: seq<Persona>, lines: seq<string>, rnd: real) returns (s: Selection)
    requires 0.0 <= rnd < 1.0 && |roster| > 0
    ensures s == Decide(roster, lines, rnd)
  {
    var cont := IsContinuation(lines);
    var prev := PreviousSpeaker(lines);
    var decoded := DecodeSelectedIndex(lines);
    if decoded.None? {
      return RandomPick(roster, rnd);
    }
    var selectedIndex := decoded.value;
    if cont && Truthy(prev) {
      var previousIndex := IndexOfUsername(roster, prev.value);
      if previousIndex != -1 {
        selectedIndex := previousIndex;
      }
    }
    assert selectedIndex == ChosenIndex(roster, lines, decoded.value);
    if 0 <= selectedIndex < |roster| {
      return Selection(roster[selectedIndex], Analysis(cont, prev, false));
    }
    if cont && Truthy(prev) {
      var previousPersona := Find(roster, (p: Persona) => p.username == prev.value);
      match previousPersona {
        case Some(p) => return Selection(p, Analysis(true, prev, false));
        case None =>
      }
    }
    return RandomPick(roster, rnd);
  }

  /** The selector as the component runs it: the mention scan, then the decoded answer. */
  method SelectBestPersona(message: string, roster: seq<Persona>, answer: Option<string>, rnd: real)
    returns (r: Option<Selection>)
    requires 0.0 <= rnd < 1.0
    ensures r == Select(message, roster, answer, rnd)
  {
    if |roster| == 0 {
      return None;
    }
    var k := FindMention(message, roster);
    if k != -1 {
      return Some(Selection(roster[k], Analysis(true, Some(roster[k].username), true)));
    }
    if answer.None? {
      return Some(RandomPick(roster, rnd));
    }
    var s := DecideFromAnswer(roster, AnswerLines(answer.value), rnd);
    return Some(s);
  }

  // ------------------------------------------------------------ properties

  /**
   * A result is flagged as a direct mention exactly when the message mentions
   * some persona; the first persona mentioned, in roster order, is chosen,
   * whatever the model answers and whatever the random draw.
   */
  lemma {:induction false} DirectMentionShortCircuits(message: string, roster: seq<Persona>, answer: Option<string>, rnd: real,
                                                      otherAnswer: Option<string>, otherRnd: real)
    requires 0.0 <= rnd < 1.0 && 0.0 <= otherRnd < 1.0 && |roster| > 0
    ensures Select(message, roster, answer, rnd).value.analysis.directMention
        <==> exists j :: 0 <= j < |roster| && Mentions(message, roster[j].username)
    ensures var k := FirstMention(message, roster);
      k != -1 ==>
        Select(message, roster, answer, rnd) == Select(message, roster, otherAnswer, otherRnd) ==
        Some(Selection(roster[k], Analysis(true, Some(roster[k].username), true)))
  {
    var k := FirstMention(message, roster);
    if k == -1 {
      match answer
      case None =>
      case Some(text) => assert !Decide(roster, AnswerLines(text), rnd).analysis.directMention;
    }
  }

  /**
   * A continued conversation whose previous speaker is on the roster selects
   * that speaker, whatever number the answer gives (as long as it can be
   * read at all).
   */
  lemma ContinuityOverridesIndex(roster: seq<Persona>, lines: seq<string>, rnd: real, k: nat)
    requires 0.0 <= rnd < 1.0 && k < |roster| && lines != []
    requires IsContinuation(lines) && PreviousSpeaker(lines) == Some(roster[k].username) && roster[k].username != ""
    requires forall j :: 0 <= j < k ==> roster[j].username != roster[k].username
    ensures Decide(roster, lines, rnd) == Selection(roster[k], Analysis(true, Some(roster[k].username), false))
  {
    assert IndexOfUsername(roster, roster[k].username) == k;
  }

  /**
   * When the final index is out of range the persona is random and the
   * analysis is cleared: the later attempt to fall back on the previous
   * speaker can never succeed, because a previous speaker on the roster would
   * already have overridden the index.
   */
  lemma {:induction false} OutOfRangeFallsBackToRandom(roster: seq<Persona>, lines: seq<string>, rnd: real)
    requires 0.0 <= rnd < 1.0 && |roster| > 0
    requires DecodeIndex(lines).Some?
    requires var idx := ChosenIndex(roster, lines, DecodeIndex(lines).value); !(0 <= idx < |roster|)
    ensures Decide(roster, lines, rnd) == RandomPick(roster, rnd)
  {
    var prev := PreviousSpeaker(lines);
    if IsContinuation(lines) && Truthy(prev) {
      assert IndexOfUsername(roster, prev.value) == -1;
      assert forall j :: 0 <= j < |roster| ==> roster[j].username != prev.value;
      assert Find(roster, (p: Persona) => p.username == prev.value) == None;
    }
  }

  /** A text without line breaks is one answer line, unless it is blank. */
  lemma OneLineAnswer(text: string)
    requires forall i :: 0 <= i < |text| ==> text[i] != '\n'
    requires text != [] && !IsSpace(text[0])
    ensures AnswerLines(text) == [text]
  {
    SplitWithoutSeparator(text, IsNewline);
    TrimSpec(text);
    assert Filter([text], NotBlank) == [text];
  }

  /** An answer made only of white space leaves no lines, so the persona is random. */
  lemma {:induction false} BlankAnswerFallsBack(message: string, roster: seq<Persona>, text: string, rnd: real)
    requires 0.0 <= rnd < 1.0 && |roster| > 0 && FirstMention(message, roster) == -1
    requires forall i :: 0 <= i < |text| ==> IsSpace(text[i])
    ensures AnswerLines(text) == []
    ensures Select(message, roster, Some(text), rnd) == Some(RandomPick(roster, rnd))
  {
    var pieces := Split(text, IsNewline);
    forall j | 0 <= j < |pieces| ensures !NotBlank(pieces[j]) {
      BlankPieces(text, j);
      TrimSpec(pieces[j]);
    }
    NothingKept(pieces, NotBlank);
  }

  /** Every piece of a white-space text is white space. */
  lemma {:induction false} BlankPieces(text: string, j: nat)
    requires forall i :: 0 <= i < |text| ==> IsSpace(text[i])
    requires j < |Split(text, IsNewline)|
    ensures forall i :: 0 <= i < |Split(text, IsNewline)[j]| ==> IsSpace(Split(text, IsNewline)[j][i])
  {
    if text != [] {
      var rest := Split(text[1..], IsNewline);
      if IsNewline(text[0]) {
        if j > 0 {
          BlankPieces(text[1..], j - 1);
        }
      } else if j == 0 {
        BlankPieces(text[1..], 0);
        var piece := [text[0]] + rest[0];
        assert forall i :: 1 <= i < |piece| ==> piece[i] == rest[0][i - 1];
      } else {
        BlankPieces(text[1..], j);
      }
    }
  }

  lemma {:induction false} NothingKept<T>(s: seq<T>, keep: T -> bool)
    requires forall j :: 0 <= j < |s| ==> !keep(s[j])
    ensures Filter(s, keep) == []
  {
    if s != [] {
      NothingKept(s[1..], keep);
    }
  }

  /** The one-line answer "Selected Persona: N" decodes to index N - 1. */
  lemma SelectedLineIndexOf(digits: string, k: nat)
    requires IsDigits(digits) && DigitsValue(digits) == k + 1
    ensures var answer := "Selected Persona: " + digits;
      SelectedLineIndex([answer]) == k
  {
    var answer := "Selected Persona: " + digits;
    assert answer[..17] == SelectedPrefix;
    assert FirstWithPrefix([answer], SelectedPrefix) == 0;
    assert answer[17] == ' ' && answer[18] == digits[0];
    assert SkipSpaces(answer, 18) == 18;
    assert SkipSpaces(answer, 17) == 18;
    assert SelectedMatchAt(answer, 0);
    assert forall i :: 18 <= i < |answer| ==> answer[i] == digits[i - 18];
    assert DigitsEnd(answer, 18) == |answer|;
    assert answer[18..|answer|] == digits;
    assert CapturedNumber(answer, 0) == DigitsValue(digits);
  }

  /** A single line starting with neither prefix carries no analysis and no previous speaker. */
  lemma PlainLine(line: string)
    requires line != [] && line[0] != 'C' && line[0] != 'P'
    ensures !IsContinuation([line]) && PreviousSpeaker([line]) == None
  {
    assert !StartsWith(line, AnalysisPrefix) && !StartsWith(line, SpeakerPrefix);
  }

  /** With no mention and a single plain line decoding to `k`, persona `k` is chosen with an empty analysis. */
  lemma PlainAnswerPicks(message: string, roster: seq<Persona>, text: string, k: nat, rnd: real)
    requires 0.0 <= rnd < 1.0 && k < |roster| && FirstMention(message, roster) == -1
    requires AnswerLines(text) == [text] && text[0] != 'C' && text[0] != 'P'
    requires DecodeIndex([text]) == Some(k)
    ensures Select(message, roster, Some(text), rnd) == Some(Selection(roster[k], Analysis(false, None, false)))
  {
    PlainLine(text);
    assert ChosenIndex(roster, [text], k) == k;
  }

  /** An answer line "Selected Persona: N" picks the N-th persona (counting from one). */
  lemma SelectedLineDecodes(message: string, roster: seq<Persona>, k: nat, rnd: real)
    requires 0.0 <= rnd < 1.0 && k < |roster| && FirstMention(message, roster) == -1
    ensures var answer := "Selected Persona: " + NatToString(k + 1);
      Select(message, roster, Some(answer), rnd) == Some(Selection(roster[k], Analysis(false, None, false)))
  {
    NatToStringRoundTrip(k + 1);
    SelectedLine(NatToString(k + 1), k);
    PlainAnswerPicks(message, roster, "Selected Persona: " + NatToString(k + 1), k, rnd);
  }

  lemma SelectedLine(digits: string, k: nat)
    requires IsDigits(digits) && DigitsValue(digits) == k + 1
    ensures var answer := "Selected Persona: " + digits;
      AnswerLines(answer) == [answer] && answer[0] != 'C' && answer[0] != 'P' &&
      DecodeIndex([answer]) == Some(k)
  {
    var answer := "Selected Persona: " + digits;
    SelectedLineUnbroken(digits);
    OneLineAnswer(answer);
    SelectedLineIndexOf(digits, k);
  }

  lemma SelectedLineUnbroken(digits: string)
    requires IsDigits(digits)
    ensures var answer := "Selected Persona: " + digits;
      answer[0] == 'S' && !IsSpace(answer[0]) && forall i :: 0 <= i < |answer| ==> answer[i] != '\n'
  {
    var answer := "Selected Persona: " + digits;
    assert forall i :: 18 <= i < |answer| ==> answer[i] == digits[i - 18];
  }

  /** The one-line answer "N" decodes to index N - 1. */
  lemma BareNumberIndexOf(digits: string, k: nat)
    requires IsDigits(digits) && DigitsValue(digits) == k + 1
    ensures DecodeIndex([digits]) == Some(k)
  {
    NoSelectedLine(digits);
    TrimDigits(digits);
    assert LastLineIndex([digits]) == k;
  }

  lemma NoSelectedLine(line: string)
    requires line != [] && line[0] != 'S'
    ensures SelectedLineIndex([line]) == -1
  {
    assert !StartsWith(line, SelectedPrefix) by {
      assert line[0] != SelectedPrefix[0];
    }
    assert FirstWithPrefix([line], SelectedPrefix) == -1;
  }

  lemma TrimDigits(digits: string)
    requires IsDigits(digits)
    ensures Trim(digits) == digits
  {
    assert TrimStart(digits) == digits;
    assert TrimEnd(digits) == digits;
  }

  /** An answer that is just the number N, the format's last line, also picks the N-th persona. */
  lemma BareNumberDecodes(message: string, roster: seq<Persona>, k: nat, rnd: real)
    requires 0.0 <= rnd < 1.0 && k < |roster| && FirstMention(message, roster) == -1
    ensures Select(message, roster, Some(NatToString(k + 1)), rnd) == Some(Selection(roster[k], Analysis(false, None, false)))
  {
    NatToStringRoundTrip(k + 1);
    BareNumberLine(NatToString(k + 1), k);
    PlainAnswerPicks(message, roster, NatToString(k + 1), k, rnd);
  }

  lemma BareNumberLine(digits: string, k: nat)
    requires IsDigits(digits) && DigitsValue(digits) == k + 1
    ensures AnswerLines(digits) == [digits] && digits[0] != 'C' && digits[0] != 'P'
    ensures DecodeIndex([digits]) == Some(k)
  {
    assert IsDigit(digits[0]);
    OneLineAnswer(digits);
    BareNumberIndexOf(digits, k);
  }
}
