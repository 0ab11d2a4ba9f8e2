/** The wake-word and voice-command layer: recognising "manga" in a
    transcript, parsing the spoken command, finding the member it names,
    running the moderation action behind its permission checks, and the
    handler state (voice rotation, listening policy, auto-kick set and the
    per-guild connection registries). */
module VoiceHandler {
  import opened Wrappers
  import opened Text
  import VoiceSink

  const TRIGGER_WORD: string := "manga"
  /** The Arabic spelling of the wake word. */
  const ARABIC_TRIGGER: string := "منجا"
  /** The voices the bot cycles through, in order. */
  const MANGA_VOICES: seq<string> := ["english_female", "english", "arabic", "arabic_male"]
  /** The user whose arrival in a voice channel makes the bot join and play. */
  const AUTO_JOIN_USER_ID: int := 1143546576124530729
  const DEFAULT_TIMEOUT_MINUTES: nat := 5
  const MAX_TIMEOUT_MINUTES: nat := 60

  // ---------------------------------------------------------------------
  // Wake word
  // ---------------------------------------------------------------------

  /** `w` occurs in `s` at `i` framed by word boundaries (`\bw\b`), for a word
      `w` that begins and ends with word characters. */
  predicate IsWordAt(s: string, w: string, i: int) {
    OccursAt(s, w, i)
    && (i == 0 || !IsWordChar(s[i - 1]))
    && (i + |w| == |s| || !IsWordChar(s[i + |w|]))
  }

  /** `re.search(r'^manga\b', s, re.IGNORECASE)` */
  predicate StartsWithManga(s: string) {
    IsWordAt(Lower(s), TRIGGER_WORD, 0)
  }

  /** `re.search(r'\bmanga\b', s, re.IGNORECASE)` */
  predicate HasMangaWord(s: string) {
    exists i :: 0 <= i <= |s| && IsWordAt(Lower(s), TRIGGER_WORD, i)
  }

  /** `re.search(r'^منجا\b', s)` */
  predicate StartsWithArabic(s: string) {
    IsWordAt(s, ARABIC_TRIGGER, 0)
  }

  /** `_has_trigger`: the three patterns tried in turn. The first one is
      subsumed by the second: the wake word counts anywhere as a whole word,
      the Arabic form only at the start. */
  function HasTrigger(s: string): (r: bool)
    ensures r <==> HasMangaWord(s) || StartsWithArabic(s)
  {
    StartsWithManga(s) || HasMangaWord(s) || StartsWithArabic(s)
  }

  /** The wake word counts wherever it stands as a whole word. */
  lemma {:induction false} WakeWordAnywhere(a: string, b: string)
    requires a == [] || !IsWordChar(a[|a| - 1])
    requires b == [] || !IsWordChar(b[0])
    ensures HasTrigger(a + TRIGGER_WORD + b)
  {
    var s := a + TRIGGER_WORD + b;
    var l := Lower(s);
    forall k | 0 <= k < |TRIGGER_WORD|
      ensures l[|a| + k] == TRIGGER_WORD[k]
    {
      assert s[|a| + k] == TRIGGER_WORD[k];
    }
    assert l[|a|..|a| + |TRIGGER_WORD|] == TRIGGER_WORD;
    if a != [] {
      assert s[|a| - 1] == a[|a| - 1];
    }
    if b != [] {
      assert s[|a| + |TRIGGER_WORD|] == b[0];
    }
    assert IsWordAt(l, TRIGGER_WORD, |a|);
  }

  /** A punctuation mark or space outside ASCII ends the wake word as `\b`
      does: `manga’s` and `manga` before a no-break space trigger. */
  lemma WakeWordBeforeSymbol(b: string)
    requires b != [] && IsNonWordSymbol(b[0])
    ensures HasTrigger(TRIGGER_WORD + b)
  {
    assert [] + TRIGGER_WORD + b == TRIGGER_WORD + b;
    WakeWordAnywhere([], b);
  }

  /** The Arabic wake word followed by a punctuation mark, such as the Arabic
      comma, triggers. */
  lemma ArabicWakeWordBeforeSymbol(b: string)
    requires b != [] && IsNonWordSymbol(b[0])
    ensures HasTrigger(ARABIC_TRIGGER + b)
  {
    var s := ARABIC_TRIGGER + b;
    assert s[..|ARABIC_TRIGGER|] == ARABIC_TRIGGER;
    assert s[|ARABIC_TRIGGER|] == b[0];
    assert IsWordAt(s, ARABIC_TRIGGER, 0);
  }

  /** A near miss of the wake word does not trigger. */
  lemma ManagaDoesNotTrigger()
    ensures !HasTrigger("managa")
  {
    var u := "managa";
    assert IsLowerCase(u) by {
      forall i | 0 <= i < |u| ensures !IsAsciiUpper(u[i]) {
        assert 'a' <= u[i] <= 'n';
      }
    }
    LowerOfLowerCase(u);
    forall i | 0 <= i <= |u| - |TRIGGER_WORD|
      ensures !OccursAt(u, TRIGGER_WORD, i)
    {
      assert u[i + 2] != TRIGGER_WORD[2] || u[i + 3] != TRIGGER_WORD[3];
    }
    assert !StartsWithArabic(u) by {
      assert u[0] != ARABIC_TRIGGER[0];
    }
  }

  /** Characters matched by `[,\s]`. */
  predicate IsSeparator(c: char) {
    c == ',' || IsSpace(c)
  }

  /** `[,\s]*` consumed at the start of `s`. */
  function SkipSeparators(s: string): (r: string)
    ensures |r| <= |s| && r == s[|s| - |r|..]
    ensures r == [] || !IsSeparator(r[0])
    ensures forall i :: 0 <= i < |s| - |r| ==> IsSeparator(s[i])
  {
    if s != [] && IsSeparator(s[0]) then
      var r := SkipSeparators(s[1..]);
      assert forall i :: 1 <= i < |s| - |r| ==> s[i] == s[1..][i - 1];
      r
    else s
  }

  /** `s` starts with the lower-case word `w`, ignoring case. */
  predicate StartsWithCI(s: string, w: string) {
    |w| <= |s| && Lower(s[..|w|]) == w
  }

  /** `re.sub('^' + w + r'[,\s]*', '', s, flags=re.IGNORECASE)` */
  function DropLeading(s: string, w: string): (r: string)
    ensures StartsWithCI(s, w) ==> r == SkipSeparators(s[|w|..])
    ensures !StartsWithCI(s, w) ==> r == s
  {
    if StartsWithCI(s, w) then SkipSeparators(s[|w|..]) else s
  }

  /** `_remove_trigger`: the two anchored substitutions in order, then strip. */
  function RemoveTrigger(s: string): (r: string)
    ensures |r| <= |s|
  {
    Strip(DropLeading(DropLeading(s, TRIGGER_WORD), ARABIC_TRIGGER))
  }

  /** A text that does not begin with either form of the wake word is only
      trimmed: a wake word later in the sentence stays in place. */
  lemma RemoveTriggerKeepsUnprefixed(s: string)
    requires !StartsWithCI(s, TRIGGER_WORD) && !StartsWithCI(s, ARABIC_TRIGGER)
    ensures RemoveTrigger(s) == Strip(s)
  {
  }

  lemma {:induction false} SkipSeparatorsOfPrefix(seps: string, rest: string)
    requires forall i :: 0 <= i < |seps| ==> IsSeparator(seps[i])
    requires rest == [] || !IsSeparator(rest[0])
    ensures SkipSeparators(seps + rest) == rest
    decreases |seps|
  {
    if seps != [] {
      assert (seps + rest)[1..] == seps[1..] + rest;
      SkipSeparatorsOfPrefix(seps[1..], rest);
    } else {
      assert seps + rest == rest;
    }
  }

  /** A leading wake word is removed together with the commas and blanks
      after it. */
  lemma RemoveTriggerDropsLeading(seps: string, rest: string)
    requires forall i :: 0 <= i < |seps| ==> IsSeparator(seps[i])
    requires rest == [] || !IsSeparator(rest[0])
    requires !StartsWithCI(rest, ARABIC_TRIGGER)
    ensures RemoveTrigger(TRIGGER_WORD + seps + rest) == Strip(rest)
  {
    var s := TRIGGER_WORD + seps + rest;
    assert s[..|TRIGGER_WORD|] == TRIGGER_WORD;
    assert Lower(TRIGGER_WORD) == TRIGGER_WORD;
    assert s[|TRIGGER_WORD|..] == seps + rest;
    SkipSeparatorsOfPrefix(seps, rest);
  }

  /** Comparing the first letter is enough to rule out a case-insensitive
      prefix. */
  lemma NotStartsWithCIByFirstChar(s: string, w: string)
    requires s != [] && w != [] && LowerChar(s[0]) != w[0]
    ensures !StartsWithCI(s, w)
  {
    if |w| <= |s| {
      assert Lower(s[..|w|])[0] == LowerChar(s[0]);
    }
  }

  /** "manga, <words>" leaves the words: the comma and the blank after the
      wake word go with it. */
  lemma RemoveTriggerComma(x: string)
    requires x != [] && IsAsciiLower(x[0]) && !IsSpace(x[|x| - 1])
    ensures RemoveTrigger(TRIGGER_WORD + ", " + x) == x
  {
    NotStartsWithCIByFirstChar(x, ARABIC_TRIGGER);
    RemoveTriggerDropsLeading(", ", x);
    StripOfTrimmed(x);
  }

  /** The wake word in the middle of a sentence wakes the bot ... */
  lemma MidSentenceWakes()
    ensures HasTrigger("hey manga mute bob")
  {
    assert "hey manga mute bob" == "hey " + TRIGGER_WORD + " mute bob";
    WakeWordAnywhere("hey ", " mute bob");
  }

  /** ... but a wake word that does not open the sentence is not removed
      from the command text. */
  lemma MidSentenceWakeWordStays(a: string, b: string)
    requires a != [] && !IsSpace(a[0])
    requires LowerChar(a[0]) != TRIGGER_WORD[0] && LowerChar(a[0]) != ARABIC_TRIGGER[0]
    requires b != [] && !IsSpace(b[|b| - 1])
    ensures RemoveTrigger(a + TRIGGER_WORD + b) == a + TRIGGER_WORD + b
  {
    var s := a + TRIGGER_WORD + b;
    assert s[0] == a[0];
    assert s[|s| - 1] == b[|b| - 1];
    NotStartsWithCIByFirstChar(s, TRIGGER_WORD);
    NotStartsWithCIByFirstChar(s, ARABIC_TRIGGER);
    RemoveTriggerKeepsUnprefixed(s);
    StripOfTrimmed(s);
  }

  /** What `_parse_and_execute_command` recognises. */
  datatype Command =
    | Leave
    | ChangeVoice
    | Mute(target: string)
    | Unmute(target: string)
    | Kick(target: string)
    | Timeout(target: string, minutes: nat)
    | NotACommand

  /** `re.match(r'^(leave|disconnect|dc|exit|bye)', t)`: a bare prefix, so
      "exiting" and "dcx" count. */
  predicate IsLeave(t: string) {
    StartsWith(t, "leave") || StartsWith(t, "disconnect") || StartsWith(t, "dc")
    || StartsWith(t, "exit") || StartsWith(t, "bye")
  }

  /** `re.match(r'^change\s*voice', t)` or `re.match(r'^voice$', t)` */
  predicate IsChangeVoice(t: string) {
    (StartsWith(t, "change") && StartsWith(StripLeft(t[6..]), "voice")) || t == "voice"
  }

  /** The prefix of `s` up to its first newline (what `.+` can reach). */
  function LineOf(s: string): (r: string)
    ensures |r| <= |s| && r == s[..|r|]
    ensures forall i :: 0 <= i < |r| ==> r[i] != '\n'
    ensures |r| == |s| || s[|r|] == '\n'
  {
    if s == [] || s[0] == '\n' then [] else [s[0]] + LineOf(s[1..])
  }

  /** The longest prefix of `s` without whitespace (what `\S+` takes). */
  function NonSpaceRun(s: string): (r: string)
    ensures |r| <= |s| && r == s[..|r|]
    ensures forall i :: 0 <= i < |r| ==> !IsSpace(r[i])
    ensures |r| == |s| || IsSpace(s[|r|])
  {
    if s == [] || IsSpace(s[0]) then [] else [s[0]] + NonSpaceRun(s[1..])
  }

  /** A text with no trailing whitespace, as every text is after `strip()`. */
  predicate Trimmed(t: string) {
    t == [] || !IsSpace(t[|t| - 1])
  }

  /** `re.match('^' + kw + r'\s+(.+)', t).group(1).strip()` on a trimmed text. */
  function ArgumentAfter(t: string, kw: string): (r: Option<string>)
    requires Trimmed(t)
    ensures r.Some? <==> StartsWith(t, kw) && |t| > |kw| && IsSpace(t[|kw|])
  {
    if StartsWith(t, kw) && |t| > |kw| && IsSpace(t[|kw|]) then
      Some(Strip(LineOf(StripLeft(t[|kw|..]))))
    else None
  }

  /** `(?:\s+(\d+))?` after the target: the number that follows, or 5. */
  function MinutesAfter(s: string): (m: nat)
    ensures StripLeft(s) == [] || !IsDigit(StripLeft(s)[0]) ==> m == DEFAULT_TIMEOUT_MINUTES
  {
    var after := StripLeft(s);
    var d := DigitRun(after);
    if d > 0 then DigitsValue(after[..d]) else DEFAULT_TIMEOUT_MINUTES
  }

  /** `re.match(r'^timeout\s+(\S+)(?:\s+(\d+))?', t)` on a trimmed text:
      the target and the minutes, 5 when no number follows the target. */
  function TimeoutArguments(t: string): (r: Option<(string, nat)>)
    requires Trimmed(t)
    ensures r.Some? <==> StartsWith(t, "timeout") && |t| > 7 && IsSpace(t[7])
  {
    if StartsWith(t, "timeout") && |t| > 7 && IsSpace(t[7]) then
      var rest := StripLeft(t[7..]);
      var name := NonSpaceRun(rest);
      Some((name, MinutesAfter(rest[|name|..])))
    else None
  }

  /** `_parse_and_execute_command`'s recognition, in its order: leave, change
      voice, mute, unmute, kick, timeout. */
  function Parse(text: string): (c: Command)
  {
    var t := Strip(Lower(text));
    if IsLeave(t) then Leave
    else if IsChangeVoice(t) then ChangeVoice
    else if ArgumentAfter(t, "mute").Some? then Mute(ArgumentAfter(t, "mute").value)
    else if ArgumentAfter(t, "unmute").Some? then Unmute(ArgumentAfter(t, "unmute").value)
    else if ArgumentAfter(t, "kick").Some? then Kick(ArgumentAfter(t, "kick").value)
    else if TimeoutArguments(t).Some? then
      Timeout(TimeoutArguments(t).value.0, TimeoutArguments(t).value.1)
    else NotACommand
  }

  lemma StripOfTrimmed(s: string)
    requires s == [] || (!IsSpace(s[0]) && !IsSpace(s[|s| - 1]))
    ensures Strip(s) == s
  {
  }

  /** A target as it can be spoken: non-empty, lower case, on one line,
      without blanks at either end. */
  predicate IsSpokenName(n: string) {
    && n != [] && IsLowerCase(n) && !IsSpace(n[0]) && !IsSpace(n[|n| - 1])
    && forall i :: 0 <= i < |n| ==> n[i] != '\n'
  }

  /** A keyword, one blank, and what follows it. */
  function Phrase(kw: string, rest: string): string {
    kw + " " + rest
  }

  /** The words that say a command after the wake word. */
  function Spoken(c: Command): string {
    match c
    case Leave => "leave"
    case ChangeVoice => Phrase("change", "voice")
    case Mute(n) => Phrase("mute", n)
    case Unmute(n) => Phrase("unmute", n)
    case Kick(n) => Phrase("kick", n)
    case Timeout(n, m) => Phrase("timeout", Phrase(n, NatToString(m)))
    case NotACommand => ""
  }

  /** The commands that can be spoken: names as above, and a timeout target
      of a single word. Chat (`NotACommand`) has no words of its own. */
  predicate IsSpeakable(c: Command) {
    match c
    case Mute(n) => IsSpokenName(n)
    case Unmute(n) => IsSpokenName(n)
    case Kick(n) => IsSpokenName(n)
    case Timeout(n, _) => IsSpokenName(n) && forall i :: 0 <= i < |n| ==> !IsSpace(n[i])
    case NotACommand => false
    case _ => true
  }

  lemma NotPrefixByFirstChar(t: string, w: string)
    requires t != [] && w != [] && t[0] != w[0]
    ensures !StartsWith(t, w)
  {
    if |w| <= |t| {
      assert t[..|w|][0] == t[0];
    }
  }

  lemma LineOfWhole(s: string)
    requires forall i :: 0 <= i < |s| ==> s[i] != '\n'
    ensures LineOf(s) == s
  {
  }

  lemma {:induction false} NonSpaceRunWhole(n: string, rest: string)
    requires forall i :: 0 <= i < |n| ==> !IsSpace(n[i])
    requires rest == [] || IsSpace(rest[0])
    ensures NonSpaceRun(n + rest) == n
    decreases |n|
  {
    if n == [] {
      assert n + rest == rest;
    } else {
      assert (n + rest)[1..] == n[1..] + rest;
      NonSpaceRunWhole(n[1..], rest);
    }
  }

  lemma {:induction false} DigitRunAll(s: string)
    requires forall i :: 0 <= i < |s| ==> IsDigit(s[i])
    ensures DigitRun(s) == |s|
    decreases |s|
  {
    if s != [] {
      DigitRunAll(s[1..]);
    }
  }

  /** One blank and then a word: the blank goes, the word stays. */
  lemma StripLeftOneBlank(x: string)
    requires x == [] || !IsSpace(x[0])
    ensures StripLeft(" " + x) == x
  {
    assert (" " + x)[1..] == x;
  }

  lemma BlankIsLowerCase()
    ensures IsLowerCase(" ")
  {
    assert forall i :: 0 <= i < 1 ==> " "[i] == ' ';
  }

  /** A phrase of lower-case words is lower case and, without blanks at
      its ends, its own stripped form. */
  lemma {:induction false} PhraseShape(kw: string, n: string)
    requires kw != [] && IsLowerCase(kw) && !IsSpace(kw[0])
    requires n != [] && IsLowerCase(n) && !IsSpace(n[|n| - 1])
    ensures IsLowerCase(Phrase(kw, n)) && Phrase(kw, n)[0] == kw[0]
    ensures Phrase(kw, n)[|Phrase(kw, n)| - 1] == n[|n| - 1]
    ensures Strip(Lower(Phrase(kw, n))) == Phrase(kw, n)
  {
    var s := kw + " " + n;
    BlankIsLowerCase();
    LowerCaseAppend(kw, " ");
    LowerCaseAppend(kw + " ", n);
    LowerOfLowerCase(s);
    assert s[|s| - 1] == n[|n| - 1];
    StripOfTrimmed(s);
  }

  /** The argument of a keyword followed by a blank and a spoken name. */
  lemma {:induction false} ArgumentOfPhrase(kw: string, n: string)
    requires IsSpokenName(n)
    ensures Trimmed(Phrase(kw, n))
    ensures ArgumentAfter(Phrase(kw, n), kw) == Some(n)
  {
    var t := kw + " " + n;
    assert t[|t| - 1] == n[|n| - 1];
    assert t[..|kw|] == kw;
    assert t[|kw|..] == " " + n;
    StripLeftOneBlank(n);
    LineOfWhole(n);
    StripOfTrimmed(n);
  }

  /** A text starting with `t`, `m`, `u` or `k` is neither a leave nor a
      change of voice. */
  lemma NotLeaveNorVoice(s: string)
    requires s != [] && (s[0] == 't' || s[0] == 'm' || s[0] == 'u' || s[0] == 'k')
    ensures !IsLeave(s) && !IsChangeVoice(s)
  {
    NotPrefixByFirstChar(s, "leave");
    NotPrefixByFirstChar(s, "disconnect");
    NotPrefixByFirstChar(s, "dc");
    NotPrefixByFirstChar(s, "exit");
    NotPrefixByFirstChar(s, "bye");
    NotPrefixByFirstChar(s, "change");
    assert s != "voice" by {
      assert "voice"[0] == 'v';
    }
  }

  /** The keywords of the grammar are lower-case words. */
  lemma KeywordLowerCase(kw: string)
    requires kw == "mute" || kw == "unmute" || kw == "kick" || kw == "timeout"
      || kw == "change" || kw == "voice"
    ensures kw != [] && IsLowerCase(kw) && IsAsciiLower(kw[0])
  {
    assert forall i :: 0 <= i < |kw| ==> IsAsciiLower(kw[i]);
  }

  /** "<kw> <name>" is its own lower-cased, stripped form. */
  lemma KeywordPhraseNormal(kw: string, n: string)
    requires kw == "mute" || kw == "unmute" || kw == "kick"
    requires IsSpokenName(n)
    ensures Strip(Lower(Phrase(kw, n))) == Phrase(kw, n)
  {
    KeywordLowerCase(kw);
    PhraseShape(kw, n);
  }

  /** "<kw> <name>" is neither a leave nor a change of voice. */
  lemma KeywordPhraseNotLeave(kw: string, n: string)
    requires kw == "mute" || kw == "unmute" || kw == "kick" || kw == "timeout"
    ensures !IsLeave(Phrase(kw, n)) && !IsChangeVoice(Phrase(kw, n))
  {
    assert Phrase(kw, n)[0] == kw[0];
    NotLeaveNorVoice(Phrase(kw, n));
  }

  /** "<kw> <name>" does not start with a keyword tried before `kw`. */
  lemma KeywordPhraseNotEarlier(kw: string, n: string)
    requires kw == "mute" || kw == "unmute" || kw == "kick" || kw == "timeout"
    ensures kw != "mute" ==> !StartsWith(Phrase(kw, n), "mute")
    ensures kw != "mute" && kw != "unmute" ==> !StartsWith(Phrase(kw, n), "unmute")
    ensures kw == "timeout" ==> !StartsWith(Phrase(kw, n), "kick")
  {
    assert Phrase(kw, n)[0] == kw[0];
    if kw != "mute" {
      NotPrefixByFirstChar(Phrase(kw, n), "mute");
    }
    if kw != "mute" && kw != "unmute" {
      NotPrefixByFirstChar(Phrase(kw, n), "unmute");
    }
    if kw == "timeout" {
      NotPrefixByFirstChar(Phrase(kw, n), "kick");
    }
  }

  /** "mute <name>" parses as that mute. */
  lemma ParseSpokenMute(n: string)
    requires IsSpokenName(n)
    ensures Parse(Phrase("mute", n)) == Mute(n)
  {
    KeywordPhraseNotEarlier("mute", n);
    KeywordPhraseNormal("mute", n);
    KeywordPhraseNotLeave("mute", n);
    ArgumentOfPhrase("mute", n);
  }

  /** "unmute <name>" parses as that unmute ("unmute" does not start with
      "mute"). */
  lemma ParseSpokenUnmute(n: string)
    requires IsSpokenName(n)
    ensures Parse(Phrase("unmute", n)) == Unmute(n)
  {
    KeywordPhraseNotEarlier("unmute", n);
    KeywordPhraseNormal("unmute", n);
    KeywordPhraseNotLeave("unmute", n);
    ArgumentOfPhrase("unmute", n);
  }

  /** "kick <name>" parses as that kick. */
  lemma ParseSpokenKick(n: string)
    requires IsSpokenName(n)
    ensures Parse(Phrase("kick", n)) == Kick(n)
  {
    KeywordPhraseNotEarlier("kick", n);
    KeywordPhraseNormal("kick", n);
    KeywordPhraseNotLeave("kick", n);
    ArgumentOfPhrase("kick", n);
  }

  /** The digits after the target give the minutes. */
  lemma {:induction false} MinutesOfNumber(m: nat)
    ensures MinutesAfter(" " + NatToString(m)) == m
  {
    var digits := NatToString(m);
    StripLeftOneBlank(digits);
    DigitRunAll(digits);
    assert digits[..|digits|] == digits;
    DigitsValueOfNatToString(m);
  }

  lemma PhraseAsAppend(kw: string, rest: string)
    ensures Phrase(kw, rest) == kw + (" " + rest)
  {
  }

  /** A phrase ends where what follows its keyword ends. */
  lemma PhraseTrimmed(kw: string, rest: string)
    requires rest != [] && Trimmed(rest)
    ensures Trimmed(Phrase(kw, rest))
  {
    assert Phrase(kw, rest)[|Phrase(kw, rest)| - 1] == rest[|rest| - 1];
  }

  /** "timeout " and a text: the target is the text's first word, the
      minutes come from what follows it. */
  lemma TimeoutArgumentsOfBody(body: string)
    requires body != [] && !IsSpace(body[0]) && Trimmed(body)
    ensures Trimmed(Phrase("timeout", body))
    ensures TimeoutArguments(Phrase("timeout", body))
      == Some((NonSpaceRun(body), MinutesAfter(body[|NonSpaceRun(body)|..])))
  {
    PhraseTrimmed("timeout", body);
    var t := "timeout" + " " + body;
    assert t[..7] == "timeout";
    assert t[7..] == " " + body;
    StripLeftOneBlank(body);
  }

  /** The arguments of "timeout <name> <rest>" for a one-word name. */
  lemma {:induction false} TimeoutArgumentsOfPhrase(n: string, rest: string)
    requires IsSpokenName(n) && forall i :: 0 <= i < |n| ==> !IsSpace(n[i])
    requires rest == [] || IsSpace(rest[0])
    requires Trimmed(n + rest)
    ensures TimeoutArguments(Phrase("timeout", n + rest)) == Some((n, MinutesAfter(rest)))
  {
    assert (n + rest)[0] == n[0];
    TimeoutArgumentsOfBody(n + rest);
    NonSpaceRunWhole(n, rest);
    assert (n + rest)[|n|..] == rest;
  }

  /** "timeout <name> <number>" is its own lower-cased, stripped form,
      starting with `t` and not ending in a blank. */
  lemma {:induction false} TimeoutPhraseShape(n: string, d: string)
    requires IsSpokenName(n)
    requires d != [] && forall i :: 0 <= i < |d| ==> IsDigit(d[i])
    ensures var x := Phrase("timeout", Phrase(n, d));
      && Strip(Lower(x)) == x && IsLowerCase(x) && x[0] == 't' && !IsSpace(x[|x| - 1])
  {
    NameNumberShape(n, d);
    KeywordLowerCase("timeout");
    PhraseShape("timeout", Phrase(n, d));
  }

  /** "<name> <number>" is lower case and ends in the number's last digit. */
  lemma NameNumberShape(n: string, d: string)
    requires IsSpokenName(n)
    requires d != [] && forall i :: 0 <= i < |d| ==> IsDigit(d[i])
    ensures IsLowerCase(Phrase(n, d)) && Phrase(n, d)[|Phrase(n, d)| - 1] == d[|d| - 1]
    ensures !IsSpace(Phrase(n, d)[|Phrase(n, d)| - 1])
  {
    DigitsLowerCase(d);
    assert IsDigit(d[|d| - 1]);
    PhraseShape(n, d);
  }

  lemma DigitsLowerCase(d: string)
    requires forall i :: 0 <= i < |d| ==> IsDigit(d[i])
    ensures IsLowerCase(d)
  {
    assert forall i :: 0 <= i < |d| ==> IsDigit(d[i]) && !IsAsciiUpper(d[i]);
  }

  /** The target and the minutes of "timeout <name> <number>". */
  lemma {:induction false} TimeoutArgumentsOfNumber(n: string, m: nat)
    requires IsSpokenName(n) && forall i :: 0 <= i < |n| ==> !IsSpace(n[i])
    ensures TimeoutArguments(Phrase("timeout", Phrase(n, NatToString(m)))) == Some((n, m))
  {
    var d := NatToString(m);
    PhraseAsAppend(n, d);
    assert IsDigit(d[|d| - 1]);
    assert (n + (" " + d))[|n| + |d|] == d[|d| - 1];
    TimeoutArgumentsOfPhrase(n, " " + d);
    MinutesOfNumber(m);
  }

  /** "timeout <name> <minutes>" parses as that timeout. */
  lemma {:induction false} ParseSpokenTimeout(n: string, m: nat)
    requires IsSpokenName(n) && forall i :: 0 <= i < |n| ==> !IsSpace(n[i])
    ensures Parse(Phrase("timeout", Phrase(n, NatToString(m)))) == Timeout(n, m)
  {
    var rest := Phrase(n, NatToString(m));
    KeywordPhraseNotEarlier("timeout", rest);
    TimeoutPhraseShape(n, NatToString(m));
    KeywordPhraseNotLeave("timeout", rest);
    TimeoutArgumentsOfNumber(n, m);
  }

  /** "timeout <name>" is its own lower-cased, stripped form. */
  lemma TimeoutNameNormal(n: string)
    requires IsSpokenName(n)
    ensures Strip(Lower(Phrase("timeout", n))) == Phrase("timeout", n)
  {
    KeywordLowerCase("timeout");
    PhraseShape("timeout", n);
  }

  /** The target of "timeout <name>", with the minutes left at five. */
  lemma TimeoutArgumentsOfName(n: string)
    requires IsSpokenName(n) && forall i :: 0 <= i < |n| ==> !IsSpace(n[i])
    ensures TimeoutArguments(Phrase("timeout", n)) == Some((n, DEFAULT_TIMEOUT_MINUTES))
  {
    assert n + [] == n;
    TimeoutArgumentsOfPhrase(n, []);
  }

  /** "timeout <name>" with no number is a five-minute timeout. */
  lemma {:induction false} ParseTimeoutDefault(n: string)
    requires IsSpokenName(n) && forall i :: 0 <= i < |n| ==> !IsSpace(n[i])
    ensures Parse(Phrase("timeout", n)) == Timeout(n, DEFAULT_TIMEOUT_MINUTES)
  {
    TimeoutArgumentsOfName(n);
    KeywordPhraseNotEarlier("timeout", n);
    KeywordPhraseNotLeave("timeout", n);
    TimeoutNameNormal(n);
  }

  /** "change voice" is its own lower-cased, stripped form. */
  lemma ChangeVoiceNormal()
    ensures Strip(Lower(Phrase("change", "voice"))) == Phrase("change", "voice")
  {
    KeywordLowerCase("change");
    KeywordLowerCase("voice");
    PhraseShape("change", "voice");
  }

  /** "change voice" is a change of voice and not a leave. */
  lemma ChangeVoiceRecognised()
    ensures IsChangeVoice(Phrase("change", "voice")) && !IsLeave(Phrase("change", "voice"))
  {
    var s := Phrase("change", "voice");
    assert s[..6] == "change";
    assert s[6..] == " voice";
    StripLeftOneBlank("voice");
    NotPrefixByFirstChar(s, "leave");
    NotPrefixByFirstChar(s, "disconnect");
    NotPrefixByFirstChar(s, "exit");
    NotPrefixByFirstChar(s, "bye");
    assert s[..2] != "dc";
  }

  /** "change voice" parses as a change of voice. */
  lemma ParseSpokenChangeVoice()
    ensures Parse(Phrase("change", "voice")) == ChangeVoice
  {
    ChangeVoiceNormal();
    ChangeVoiceRecognised();
  }

  /** "leave" parses as leave. */
  lemma ParseSpokenLeave()
    ensures Parse("leave") == Leave
  {
    var s := "leave";
    assert IsLowerCase(s) by {
      assert forall i :: 0 <= i < 5 ==> 'a' <= s[i] <= 'z';
    }
    LowerOfLowerCase(s);
    StripOfTrimmed(s);
    assert s[..5] == "leave";
  }

  /** Every speakable command is recognised from its own words. */
  lemma ParseSpoken(c: Command)
    requires IsSpeakable(c)
    ensures Parse(Spoken(c)) == c
  {
    match c
    case Leave => ParseSpokenLeave();
    case ChangeVoice => ParseSpokenChangeVoice();
    case Mute(n) => ParseSpokenMute(n);
    case Unmute(n) => ParseSpokenUnmute(n);
    case Kick(n) => ParseSpokenKick(n);
    case Timeout(n, m) => ParseSpokenTimeout(n, m);
  }

  /** The leave words are bare prefixes: any text that begins with one
      leaves, so "exiting" and "dcx" do too. */
  lemma LeaveWordsArePrefixes(s: string)
    requires s != [] && IsLowerCase(s) && !IsSpace(s[0]) && !IsSpace(s[|s| - 1])
    requires StartsWith(s, "leave") || StartsWith(s, "disconnect") || StartsWith(s, "dc")
      || StartsWith(s, "exit") || StartsWith(s, "bye")
    ensures Parse(s) == Leave
  {
    LowerOfLowerCase(s);
    StripOfTrimmed(s);
  }

  /** A keyword without an argument is not a command. */
  lemma BareMuteIsChat()
    ensures Parse("mute") == NotACommand
  {
    BareKeywordIsChat("mute");
  }

  lemma BareKeywordIsChat(m: string)
    requires m == "mute"
    ensures Parse(m) == NotACommand
  {
    KeywordLowerCase(m);
    LowerOfLowerCase(m);
    StripOfTrimmed(m);
    NotLeaveNorVoice(m);
    NotPrefixByFirstChar(m, "unmute");
    NotPrefixByFirstChar(m, "kick");
    NotPrefixByFirstChar(m, "timeout");
  }

  // ---------------------------------------------------------------------
  // Member lookup
  // ---------------------------------------------------------------------

  /** A guild member as the voice commands see it. */
  datatype Member = Member(id: int, displayName: string, name: string, inVoice: bool,
                           muteMembers: bool, moveMembers: bool, moderateMembers: bool)

  /** Length of the filler word (`\b(the|user|member)\b`) at `i`, or 0. */
  function FillerAt(s: string, i: int): (n: nat)
    ensures n == 0 || n == 3 || n == 4 || n == 6
    ensures n > 0 ==> i + n <= |s|
  {
    if IsWordAt(s, "the", i) then 3
    else if IsWordAt(s, "user", i) then 4
    else if IsWordAt(s, "member", i) then 6
    else 0
  }

  /** `re.sub(r'\b(the|user|member)\b', '', s)`, scanning from `i`; the word
      boundaries are read in the original text. */
  function RemoveFillersFrom(s: string, i: nat): (r: string)
    requires i <= |s|
    ensures |r| <= |s| - i
    decreases |s| - i
  {
    if i == |s| then []
    else if FillerAt(s, i) > 0 then RemoveFillersFrom(s, i + FillerAt(s, i))
    else [s[i]] + RemoveFillersFrom(s, i + 1)
  }

  /** The query `_find_member` searches for. */
  function Query(name: string): string {
    var n := Strip(Lower(name));
    Strip(RemoveFillersFrom(n, 0))
  }

  /** A text without filler words keeps every character. */
  lemma {:induction false} NoFillersKept(s: string, i: nat)
    requires i <= |s|
    requires forall j :: i <= j < |s| ==> FillerAt(s, j) == 0
    ensures RemoveFillersFrom(s, i) == s[i..]
    decreases |s| - i
  {
    if i < |s| {
      NoFillersKept(s, i + 1);
      assert s[i..] == [s[i]] + s[i + 1..];
    }
  }

  /** A name that is only a filler word leaves an empty query. */
  lemma FillerAloneIsEmptyQuery()
    ensures Query("user") == []
  {
    var u := "user";
    assert IsLowerCase(u) by { assert forall i :: 0 <= i < 4 ==> 'a' <= u[i] <= 'z'; }
    LowerOfLowerCase(u);
    StripOfTrimmed(u);
    assert !IsWordAt(u, "the", 0) by {
      assert u[0..3] != "the" by { assert u[0] != 't'; }
    }
    assert IsWordAt(u, "user", 0) by {
      assert u[0..4] == "user";
    }
    assert FillerAt(u, 0) == 4;
  }

  /** The match test of `_find_member`'s loop: display name, then user name. */
  predicate Matches(m: Member, q: string) {
    Contains(Lower(m.displayName), q) || Contains(Lower(m.name), q)
  }

  /** Index of the first member from `i` on that matches `q`. */
  function FirstMatchFrom(members: seq<Member>, q: string, i: nat): (r: Option<nat>)
    requires i <= |members|
    ensures r.Some? ==> (i <= r.value < |members| && Matches(members[r.value], q)
      && forall j :: i <= j < r.value ==> !Matches(members[j], q))
    ensures r.None? ==> forall j :: i <= j < |members| ==> !Matches(members[j], q)
    decreases |members| - i
  {
    if i == |members| then None
    else if Matches(members[i], q) then Some(i)
    else FirstMatchFrom(members, q, i + 1)
  }

  /** `_find_member(guild, name)`: the first member whose lower-cased display
      name or user name contains the cleaned query. */
  function LookupMember(members: seq<Member>, name: string): (r: Option<Member>)
    ensures r.Some? ==> r.value in members && Matches(r.value, Query(name))
    ensures r.None? ==> forall j :: 0 <= j < |members| ==> !Matches(members[j], Query(name))
  {
    var q := Query(name);
    match FirstMatchFrom(members, q, 0)
    case None => None
    case Some(k) => Some(members[k])
  }

  /** `_find_member(guild, name)` as the source writes it: clean the name,
      then scan the members. */
  method FindMember(members: seq<Member>, name: string) returns (r: Option<Member>)
    ensures r == LookupMember(members, name)
  {
    var k := ScanMembers(members, Query(name));
    r := if k.Some? then Some(members[k.value]) else None;
  }

  /** The scan loop of `_find_member`: the index of the first member that
      matches the query. */
  method ScanMembers(members: seq<Member>, q: string) returns (r: Option<nat>)
    ensures r == FirstMatchFrom(members, q, 0)
  {
    var i := 0;
    while i < |members|
      invariant 0 <= i <= |members|
      invariant FirstMatchFrom(members, q, 0) == FirstMatchFrom(members, q, i)
    {
      if Matches(members[i], q) {
        return Some(i);
      }
      i := i + 1;
    }
    return None;
  }

  /** A name made only of filler words matches the first member of the guild. */
  lemma FillerOnlyNameMatchesFirstMember(members: seq<Member>, name: string)
    requires members != [] && Query(name) == []
    ensures LookupMember(members, name) == Some(members[0])
  {
    EmptyQueryMatchesFirst(members);
  }

  /** The empty query is contained in every name. */
  lemma EmptyQueryMatchesFirst(members: seq<Member>)
    requires members != []
    ensures FirstMatchFrom(members, [], 0) == Some(0)
  {
    assert OccursAt(Lower(members[0].displayName), [], 0);
  }

  // ---------------------------------------------------------------------
  // Moderation executors
  // ---------------------------------------------------------------------

  /** The action behind a command: mute or unmute, kick from voice, timeout. */
  datatype Action = MuteAction(mute: bool) | KickAction | TimeoutAction(minutes: nat)

  /** What the Discord call reports once every check has passed. */
  datatype ApiResult = ApiOk | ApiForbidden | ApiError(message: string)

  /** The path an executor takes. */
  datatype Outcome =
    | NoInvoker
    | NoPermission
    | NotFound(name: string)
    | NotInVoice(target: Member)
    | Acted(target: Member, minutes: nat)
    | BotForbidden
    | ApiFailed(message: string)

  /** The guild permission each action demands of the invoker. */
  predicate Permitted(a: Action, invoker: Member) {
    match a
    case MuteAction(_) => invoker.muteMembers
    case KickAction => invoker.moveMembers
    case TimeoutAction(_) => invoker.moderateMembers
  }

  /** Mute and kick act on a member in voice; a timeout does not. */
  predicate NeedsVoice(a: Action) {
    !a.TimeoutAction?
  }

  /** Minutes passed to the timeout call: at most one hour. */
  function AppliedMinutes(a: Action): (m: nat)
    ensures m <= MAX_TIMEOUT_MINUTES
    ensures a.TimeoutAction? ==> m == Min(a.minutes, MAX_TIMEOUT_MINUTES)
  {
    if a.TimeoutAction? then (if a.minutes < MAX_TIMEOUT_MINUTES then a.minutes else MAX_TIMEOUT_MINUTES)
    else 0
  }

  /** Every check that has to pass before the Discord call is made. */
  predicate Authorised(a: Action, members: seq<Member>, invoker: Option<Member>, targetName: string) {
    && invoker.Some? && Permitted(a, invoker.value)
    && LookupMember(members, targetName).Some?
    && (NeedsVoice(a) ==> LookupMember(members, targetName).value.inVoice)
  }

  /** `_execute_mute`, `_execute_kick` and `_execute_timeout`: invoker,
      permission, target, voice presence, then the call. */
  function Execute(a: Action, members: seq<Member>, invoker: Option<Member>, targetName: string,
                   api: ApiResult): (o: Outcome)
    ensures invoker.None? <==> o == NoInvoker
    ensures o == NoPermission <==> invoker.Some? && !Permitted(a, invoker.value)
    ensures o.NotFound? <==>
      invoker.Some? && Permitted(a, invoker.value) && LookupMember(members, targetName).None?
    ensures o.NotFound? ==> o.name == targetName
    ensures (o.Acted? || o.BotForbidden? || o.ApiFailed?) <==> Authorised(a, members, invoker, targetName)
    ensures o.Acted? ==> (api == ApiOk && Some(o.target) == LookupMember(members, targetName)
      && o.minutes == AppliedMinutes(a))
  {
    if invoker.None? then NoInvoker
    else if !Permitted(a, invoker.value) then NoPermission
    else match LookupMember(members, targetName)
      case None => NotFound(targetName)
      case Some(target) =>
        if NeedsVoice(a) && !target.inVoice then NotInVoice(target)
        else match api
          case ApiOk => Acted(target, AppliedMinutes(a))
          case ApiForbidden => BotForbidden
          case ApiError(e) => ApiFailed(e)
  }

  /** No check that fails depends on what Discord would have answered: the
      call is only made once all of them pass. */
  lemma RefusalMakesNoCall(a: Action, members: seq<Member>, invoker: Option<Member>, targetName: string,
                           api1: ApiResult, api2: ApiResult)
    requires !Authorised(a, members, invoker, targetName)
    ensures Execute(a, members, invoker, targetName, api1) == Execute(a, members, invoker, targetName, api2)
  {
  }

  /** The reply for an executor's outcome. */
  function Message(a: Action, o: Outcome): (r: string)
    ensures r != []
  {
    match o
    case NoInvoker => "I couldn't identify who gave the command."
    case NoPermission =>
      (match a
       case MuteAction(_) => "You don't have permission to mute members."
       case KickAction => "You don't have permission to kick from voice."
       case TimeoutAction(_) => "You don't have permission to timeout members.")
    case NotFound(n) => "I couldn't find anyone named " + n + "."
    case NotInVoice(t) => t.displayName + " is not in a voice channel."
    case Acted(t, m) =>
      (match a
       case MuteAction(true) => t.displayName + " has been muted!"
       case MuteAction(false) => t.displayName + " has been unmuted!"
       case KickAction => t.displayName + " has been kicked from voice!"
       case TimeoutAction(_) => t.displayName + " has been timed out for " + NatToString(m) + " minutes!")
    case BotForbidden => "I don't have permission to do that."
    case ApiFailed(e) => "Failed: " + e
  }

  /** The action a parsed moderation command asks for. */
  function ActionOf(c: Command): (a: Action)
    requires c.Mute? || c.Unmute? || c.Kick? || c.Timeout?
    ensures c.Timeout? <==> a.TimeoutAction?
    ensures c.Timeout? ==> a.minutes == c.minutes
  {
    match c
    case Mute(_) => MuteAction(true)
    case Unmute(_) => MuteAction(false)
    case Kick(_) => KickAction
    case Timeout(_, m) => TimeoutAction(m)
  }

  /** A spoken timeout of any length is applied for at most an hour: the
      minutes said, capped at sixty. */
  lemma SpokenTimeoutIsCapped(n: string, m: nat)
    requires IsSpeakable(Timeout(n, m))
    ensures Parse(Spoken(Timeout(n, m))).Timeout?
    ensures AppliedMinutes(ActionOf(Parse(Spoken(Timeout(n, m))))) == Min(m, MAX_TIMEOUT_MINUTES)
  {
    ParseSpoken(Timeout(n, m));
  }

  // ---------------------------------------------------------------------
  // Segment gating
  // ---------------------------------------------------------------------

  /** How `_process_segment` treats one segment. */
  datatype Gate =
    | TooQuiet
    | NoSpeech
    | NoTrigger
    | Greet
    | Run(command: Command, commandText: string)

  /** The checks of `_process_segment` before anything is said: loudness,
      transcript, wake word, then the text after the wake word. */
  function SegmentGate(audio: seq<byte>, transcript: string): (g: Gate)
    ensures g == TooQuiet <==> !VoiceSink.IsLoudEnough(audio, None)
    ensures g == NoSpeech <==> VoiceSink.IsLoudEnough(audio, None) && transcript == []
    ensures (g.Greet? || g.Run?) ==> HasTrigger(Strip(Lower(transcript)))
    ensures g.Run? ==> (g.commandText == RemoveTrigger(Strip(Lower(transcript))) != []
      && g.command == Parse(g.commandText))
  {
    if !VoiceSink.IsLoudEnough(audio, None) then TooQuiet
    else if transcript == [] then NoSpeech
    else
      var t := Strip(Lower(transcript));
      if !HasTrigger(t) then NoTrigger
      else
        var c := RemoveTrigger(t);
        if c == [] then Greet else Run(Parse(c), c)
  }

  lemma TriggerWordIsLowerCase()
    ensures IsLowerCase(TRIGGER_WORD)
  {
    assert forall i :: 0 <= i < 5 ==> 'a' <= TRIGGER_WORD[i] <= 'z';
  }

  /** The wake word followed by a blank holds the wake word. */
  lemma {:induction false} WakeWordLeads(x: string)
    ensures HasTrigger(Phrase(TRIGGER_WORD, x))
  {
    assert Phrase(TRIGGER_WORD, x) == [] + TRIGGER_WORD + (" " + x);
    WakeWordAnywhere([], " " + x);
  }

  /** Removing the leading wake word and its blank leaves the phrase. */
  lemma {:induction false} WakeWordRemoved(x: string)
    requires x != [] && IsAsciiLower(x[0]) && !IsSpace(x[|x| - 1])
    ensures RemoveTrigger(Phrase(TRIGGER_WORD, x)) == x
  {
    assert Phrase(TRIGGER_WORD, x) == TRIGGER_WORD + [' '] + x;
    NotStartsWithCIByFirstChar(x, ARABIC_TRIGGER);
    RemoveTriggerDropsLeading([' '], x);
    StripOfTrimmed(x);
  }

  /** The wake word, one blank and a lower-case phrase starting with a
      letter run that phrase as a command. */
  lemma {:induction false} WakeWordThenPhrase(audio: seq<byte>, x: string)
    requires VoiceSink.IsLoudEnough(audio, None)
    requires x != [] && IsLowerCase(x) && IsAsciiLower(x[0]) && !IsSpace(x[|x| - 1])
    ensures SegmentGate(audio, Phrase(TRIGGER_WORD, x)) == Run(Parse(x), x)
  {
    TriggerWordIsLowerCase();
    PhraseShape(TRIGGER_WORD, x);
    WakeWordLeads(x);
    WakeWordRemoved(x);
  }

  /** Saying the wake word and then a command runs exactly that command. */
  lemma SpokenCommandRuns(audio: seq<byte>, c: Command)
    requires VoiceSink.IsLoudEnough(audio, None)
    requires IsSpeakable(c)
    ensures SegmentGate(audio, Phrase(TRIGGER_WORD, Spoken(c))) == Run(c, Spoken(c))
  {
    SpokenShape(c);
    ParseSpoken(c);
    WakeWordThenPhrase(audio, Spoken(c));
  }

  /** A spoken command is lower case, starts with a letter and does not end
      in a blank. */
  lemma SpokenShape(c: Command)
    requires IsSpeakable(c)
    ensures var x := Spoken(c);
      x != [] && IsLowerCase(x) && IsAsciiLower(x[0]) && !IsSpace(x[|x| - 1])
  {
    match c
    case Leave =>
      assert forall i :: 0 <= i < 5 ==> 'a' <= "leave"[i] <= 'z';
    case ChangeVoice => KeywordPhraseShape("change", "voice");
    case Mute(n) => KeywordPhraseShape("mute", n);
    case Unmute(n) => KeywordPhraseShape("unmute", n);
    case Kick(n) => KeywordPhraseShape("kick", n);
    case Timeout(n, m) => TimeoutPhraseShape(n, NatToString(m));
  }

  lemma KeywordPhraseShape(kw: string, n: string)
    requires kw == "mute" || kw == "unmute" || kw == "kick" || kw == "change"
    requires IsSpokenName(n)
    ensures var x := Phrase(kw, n);
      x != [] && IsLowerCase(x) && IsAsciiLower(x[0]) && !IsSpace(x[|x| - 1])
  {
    KeywordLowerCase(kw);
    PhraseShape(kw, n);
  }

  // ---------------------------------------------------------------------
  // Voice-state updates
  // ---------------------------------------------------------------------

  /** What `handle_voice_state_update` does for one state change. */
  datatype Reaction = Rejoin | AutoKicked | JoinAndPlay | NoReaction

  /** The voice-state rules: the bot's own unexpected disconnect triggers a
      rejoin; a user entering a channel is kicked when listed, and the
      configured user makes the bot join (also when the kick failed). Channels
      are given by id, `None` for no channel. */
  function VoiceStateReaction(manualDisconnect: bool, autoKick: set<int>, botId: int, memberId: int,
                              before: Option<int>, after: Option<int>, kickSucceeds: bool): (r: Reaction)
    ensures memberId == botId ==> (r == Rejoin <==> after.None? && !manualDisconnect) && r != AutoKicked
    ensures r == AutoKicked <==>
      memberId != botId && after.Some? && before != after && memberId in autoKick && kickSucceeds
    ensures r == JoinAndPlay <==>
      && memberId != botId && after.Some? && before != after
      && !(memberId in autoKick && kickSucceeds) && memberId == AUTO_JOIN_USER_ID
  {
    if memberId == botId then
      (if after.None? && !manualDisconnect then Rejoin else NoReaction)
    else if after.Some? && before != after then
      (if memberId in autoKick && kickSucceeds then AutoKicked
       else if memberId == AUTO_JOIN_USER_ID then JoinAndPlay
       else NoReaction)
    else NoReaction
  }

  /** How far `join_channel` gets before something raises. */
  datatype JoinFailure = JoinCompletes | ConnectRaises | ListenRaises | SendRaises

  /** Renders a voice name for speech: `name.replace('_', ' ')`. */
  function Spaced(s: string): (r: string)
    ensures |r| == |s|
    ensures forall i :: 0 <= i < |s| ==> r[i] == (if s[i] == '_' then ' ' else s[i])
  {
    if s == [] then [] else [if s[0] == '_' then ' ' else s[0]] + Spaced(s[1..])
  }

  /** Position of `x` in `xs`, as `list.index`. */
  function IndexOf(xs: seq<string>, x: string): (i: nat)
    requires x in xs
    ensures i < |xs| && xs[i] == x && forall j :: 0 <= j < i ==> xs[j] != x
  {
    if xs[0] == x then 0 else 1 + IndexOf(xs[1..], x)
  }

  /** The voice handler's state: listening policy, voice, auto-kick list and
      the per-guild registries of sinks, processing tasks and keep-alive
      tasks (each a set of guild ids here). */
  class Handler {
    var listening: bool
    var ownerOnly: bool
    var ownerId: Option<int>
    var blockedUsers: set<int>
    /** The allow-list that the sink consults; empty means everyone. */
    var allowedUsers: set<int>
    var autoKickUsers: set<int>
    var voiceIndex: nat
    var mangaVoice: string
    var sinks: set<int>
    var tasks: set<int>
    var keepAlive: set<int>
    var manualDisconnect: bool

    /** The current voice is the one the index points at. */
    ghost predicate Valid()
      reads this
    {
      voiceIndex < |MANGA_VOICES| && mangaVoice == MANGA_VOICES[voiceIndex]
    }

    constructor()
      ensures Valid()
      ensures listening && !ownerOnly && ownerId == None && blockedUsers == {} && allowedUsers == {}
      ensures autoKickUsers == {} && voiceIndex == 0 && mangaVoice == "english_female"
      ensures sinks == {} && tasks == {} && keepAlive == {} && !manualDisconnect
    {
      listening := true;
      ownerOnly := false;
      ownerId := None;
      blockedUsers := {};
      allowedUsers := {};
      autoKickUsers := {};
      voiceIndex := 0;
      mangaVoice := MANGA_VOICES[0];
      sinks := {};
      tasks := {};
      keepAlive := {};
      manualDisconnect := false;
    }

    /** The settings the sink's filters read. */
    function SinkPolicy(): (p: VoiceSink.Policy)
      reads this
      ensures p.listening == listening && p.ownerOnly == ownerOnly && p.ownerId == ownerId
      ensures p.allowedUsers == allowedUsers && p.blockedUsers == blockedUsers
    {
      VoiceSink.Policy(listening, ownerOnly, ownerId, allowedUsers, blockedUsers)
    }

    method SetListening(enabled: bool)
      modifies this`listening
      ensures listening == enabled
    {
      listening := enabled;
    }

    /** `set_owner_only`: a missing or zero id turns owner-only mode off. */
    method SetOwnerOnly(id: Option<int>)
      modifies this`ownerOnly, this`ownerId
      ensures ownerOnly <==> id.Some? && id.value != 0
      ensures ownerId == (if ownerOnly then id else None)
    {
      if id.Some? && id.value != 0 {
        ownerOnly := true;
        ownerId := id;
      } else {
        ownerOnly := false;
        ownerId := None;
      }
    }

    method BlockUser(uid: int)
      modifies this`blockedUsers
      ensures blockedUsers == old(blockedUsers) + {uid}
    {
      blockedUsers := blockedUsers + {uid};
    }

    method UnblockUser(uid: int)
      modifies this`blockedUsers
      ensures blockedUsers == old(blockedUsers) - {uid}
    {
      blockedUsers := blockedUsers - {uid};
    }

    /** `_change_voice`: the next voice, wrapping after the last one. */
    method NextVoice() returns (msg: string)
      requires Valid()
      modifies this`voiceIndex, this`mangaVoice
      ensures Valid()
      ensures voiceIndex == (old(voiceIndex) + 1) % |MANGA_VOICES|
      ensures msg == "Voice changed to " + Spaced(mangaVoice) + "!"
    {
      voiceIndex := (voiceIndex + 1) % |MANGA_VOICES|;
      mangaVoice := MANGA_VOICES[voiceIndex];
      msg := "Voice changed to " + Spaced(mangaVoice) + "!";
    }

    /** `set_voice`: only a known voice is taken, with its index. */
    method SetVoice(name: string) returns (ok: bool)
      requires Valid()
      modifies this`voiceIndex, this`mangaVoice
      ensures Valid()
      ensures ok <==> name in MANGA_VOICES
      ensures ok ==> mangaVoice == name
      ensures !ok ==> voiceIndex == old(voiceIndex) && mangaVoice == old(mangaVoice)
    {
      if name in MANGA_VOICES {
        mangaVoice := name;
        voiceIndex := IndexOf(MANGA_VOICES, name);
        return true;
      }
      return false;
    }

    method AddAutoKick(uid: int)
      modifies this`autoKickUsers
      ensures autoKickUsers == old(autoKickUsers) + {uid}
    {
      autoKickUsers := autoKickUsers + {uid};
    }

    method RemoveAutoKick(uid: int)
      modifies this`autoKickUsers
      ensures autoKickUsers == old(autoKickUsers) - {uid}
    {
      autoKickUsers := autoKickUsers - {uid};
    }

    predicate IsAutoKick(uid: int)
      reads this
    {
      uid in autoKickUsers
    }

    /** `join_channel` for guild `g`; `authorInVoice` is whether the caller
        is in a voice channel, `failure` how far the join gets. */
    method JoinChannel(g: int, authorInVoice: bool, failure: JoinFailure) returns (ok: bool)
      modifies this`sinks, this`tasks, this`keepAlive, this`manualDisconnect
      ensures ok <==> authorInVoice && failure == JoinCompletes
      ensures !authorInVoice || failure == ConnectRaises ==>
        sinks == old(sinks) && tasks == old(tasks) && keepAlive == old(keepAlive)
      ensures authorInVoice && failure != ConnectRaises ==> sinks == old(sinks) + {g}
      ensures authorInVoice && failure == ListenRaises ==>
        tasks == old(tasks) && keepAlive == old(keepAlive)
      ensures authorInVoice && (failure == JoinCompletes || failure == SendRaises) ==>
        tasks == old(tasks) + {g} && keepAlive == old(keepAlive) + {g}
      ensures manualDisconnect == (if ok then false else old(manualDisconnect))
    {
      if !authorInVoice {
        return false;
      }
      if failure == ConnectRaises {
        return false;
      }
      sinks := sinks + {g};
      if failure == ListenRaises {
        return false;
      }
      tasks := tasks + {g};
      keepAlive := keepAlive + {g};
      if failure == SendRaises {
        return false;
      }
      manualDisconnect := false;
      return true;
    }

    /** `leave_channel` for guild `g`: without a voice client nothing
        changes; otherwise the guild leaves every registry and later
        disconnects are known to be intended. */
    method LeaveChannel(g: int, hasVoiceClient: bool) returns (ok: bool)
      modifies this`sinks, this`tasks, this`keepAlive, this`manualDisconnect
      ensures ok == hasVoiceClient
      ensures !ok ==> (sinks == old(sinks) && tasks == old(tasks) && keepAlive == old(keepAlive)
        && manualDisconnect == old(manualDisconnect))
      ensures ok ==> (sinks == old(sinks) - {g} && tasks == old(tasks) - {g}
        && keepAlive == old(keepAlive) - {g} && manualDisconnect)
    {
      if !hasVoiceClient {
        return false;
      }
      tasks := tasks - {g};
      keepAlive := keepAlive - {g};
      sinks := sinks - {g};
      manualDisconnect := true;
      return true;
    }

    /** `_attempt_rejoin` for guild `g`: `channelFound` is whether a channel
        named "Manga_bot" exists, `connects` whether connecting succeeds, and
        `hasTextChannel` whether the guild has a text channel to report to
        (the fallback `text_channels[0]` raises otherwise). */
    method AttemptRejoin(g: int, channelFound: bool, connects: bool, hasTextChannel: bool)
      modifies this`sinks, this`tasks, this`keepAlive, this`manualDisconnect
      ensures !channelFound || !connects ==>
        sinks == old(sinks) && tasks == old(tasks) && keepAlive == old(keepAlive)
        && manualDisconnect == old(manualDisconnect)
      ensures channelFound && connects ==> sinks == old(sinks) + {g}
      ensures channelFound && connects && !hasTextChannel ==>
        tasks == old(tasks) && keepAlive == old(keepAlive) && manualDisconnect == old(manualDisconnect)
      ensures channelFound && connects && hasTextChannel ==>
        tasks == old(tasks) + {g} && keepAlive == old(keepAlive) + {g} && !manualDisconnect
    {
      if !channelFound || !connects {
        return;
      }
      sinks := sinks + {g};
      if !hasTextChannel {
        return;
      }
      tasks := tasks + {g};
      keepAlive := keepAlive + {g};
      manualDisconnect := false;
    }

    /** `_auto_join_and_play` for guild `g`: already in that channel it only
        plays; otherwise, once connected or moved, keep-alive starts and the
        disconnect flag is reset. */
    method AutoJoinAndPlay(g: int, alreadyThere: bool, connects: bool)
      modifies this`keepAlive, this`manualDisconnect
      ensures alreadyThere || !connects ==>
        keepAlive == old(keepAlive) && manualDisconnect == old(manualDisconnect)
      ensures !alreadyThere && connects ==> keepAlive == old(keepAlive) + {g} && !manualDisconnect
    {
      if alreadyThere || !connects {
        return;
      }
      keepAlive := keepAlive + {g};
      manualDisconnect := false;
    }

    /** The reaction to a voice-state change under the current state. */
    function Reaction(botId: int, memberId: int, before: Option<int>, after: Option<int>,
                      kickSucceeds: bool): (r: Reaction)
      reads this
      ensures r == VoiceStateReaction(manualDisconnect, autoKickUsers, botId, memberId, before, after,
                                      kickSucceeds)
    {
      VoiceStateReaction(manualDisconnect, autoKickUsers, botId, memberId, before, after, kickSucceeds)
    }

    /** `_process_segment` after the segment has been transcribed, for guild
        `g`. A moderation command is run by `Execute` against `api`; any
        other text is handed to the AI (`AskAi`). Only "leave" (with a voice
        client) and "change voice" change the handler's state. */
    method ProcessSegment(g: int, audio: seq<byte>, transcript: string, members: seq<Member>,
                          invoker: Option<Member>, api: ApiResult, hasVoiceClient: bool)
      returns (reply: Reply)
      requires Valid()
      modifies this`sinks, this`tasks, this`keepAlive, this`manualDisconnect, this`voiceIndex,
        this`mangaVoice
      ensures Valid()
      ensures reply == SegmentReply(SegmentGate(audio, transcript), members, invoker, api, mangaVoice)
      ensures GateRuns(SegmentGate(audio, transcript), Leave) && hasVoiceClient ==>
        sinks == old(sinks) - {g} && tasks == old(tasks) - {g} && keepAlive == old(keepAlive) - {g}
        && manualDisconnect
      ensures !(GateRuns(SegmentGate(audio, transcript), Leave) && hasVoiceClient) ==>
        sinks == old(sinks) && tasks == old(tasks) && keepAlive == old(keepAlive)
        && manualDisconnect == old(manualDisconnect)
      ensures GateRuns(SegmentGate(audio, transcript), Command.ChangeVoice) ==>
        voiceIndex == (old(voiceIndex) + 1) % |MANGA_VOICES|
      ensures !GateRuns(SegmentGate(audio, transcript), Command.ChangeVoice) ==>
        voiceIndex == old(voiceIndex) && mangaVoice == old(mangaVoice)
    {
      reply := HandleGate(g, SegmentGate(audio, transcript), members, invoker, api, hasVoiceClient);
    }

    /** The part of `_process_segment` that follows the gate. */
    method HandleGate(g: int, gate: Gate, members: seq<Member>, invoker: Option<Member>,
                      api: ApiResult, hasVoiceClient: bool)
      returns (reply: Reply)
      requires Valid()
      modifies this`sinks, this`tasks, this`keepAlive, this`manualDisconnect, this`voiceIndex,
        this`mangaVoice
      ensures Valid()
      ensures reply == SegmentReply(gate, members, invoker, api, mangaVoice)
      ensures GateRuns(gate, Leave) && hasVoiceClient ==>
        sinks == old(sinks) - {g} && tasks == old(tasks) - {g} && keepAlive == old(keepAlive) - {g}
        && manualDisconnect
      ensures !(GateRuns(gate, Leave) && hasVoiceClient) ==>
        sinks == old(sinks) && tasks == old(tasks) && keepAlive == old(keepAlive)
        && manualDisconnect == old(manualDisconnect)
      ensures GateRuns(gate, Command.ChangeVoice) ==>
        voiceIndex == (old(voiceIndex) + 1) % |MANGA_VOICES|
      ensures !GateRuns(gate, Command.ChangeVoice) ==>
        voiceIndex == old(voiceIndex) && mangaVoice == old(mangaVoice)
    {
      if GateRuns(gate, Leave) {
        var _ := LeaveChannel(g, hasVoiceClient);
      } else if GateRuns(gate, Command.ChangeVoice) {
        var _ := NextVoice();
      }
      reply := SegmentReply(gate, members, invoker, api, mangaVoice);
    }
  }

  /** What the bot does with a processed segment: nothing, say a reply, or
      ask the AI for one. */
  datatype Reply = Silent | Say(text: string) | AskAi(prompt: string)

  /** A command's reply is never empty, so `_process_segment` never mistakes
      a command for chat. */
  /** The gate runs command `c`. */
  predicate GateRuns(gate: Gate, c: Command) {
    gate.Run? && gate.command == c
  }

  /** What `_process_segment` answers for a segment that passed `gate`,
      with `voice` the voice in use afterwards. */
  function SegmentReply(gate: Gate, members: seq<Member>, invoker: Option<Member>, api: ApiResult,
                        voice: string): (r: Reply)
  {
    match gate
    case Greet => Say("Yes? What do you need?")
    case Run(c, text) =>
      (match c
       case Leave => Say("Goodbye!")
       case ChangeVoice => Say("Voice changed to " + Spaced(voice) + "!")
       case NotACommand => AskAi(text)
       case _ => Say(Message(ActionOf(c), Execute(ActionOf(c), members, invoker, c.target, api))))
    case _ => Silent
  }

  lemma CommandRepliesAreNonEmpty(a: Action, o: Outcome)
    ensures Message(a, o) != []
  {
  }

  /** After a successful `leave_channel` the bot's own disconnect never
      triggers a rejoin; without it, it does. */
  lemma ManualLeaveStopsRejoin(autoKick: set<int>, botId: int, before: Option<int>, kick: bool)
    ensures VoiceStateReaction(true, autoKick, botId, botId, before, None, kick) == NoReaction
    ensures VoiceStateReaction(false, autoKick, botId, botId, before, None, kick) == Rejoin
  {
  }
}
