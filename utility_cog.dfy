/** The utility cog: the owner-or-admin check on all its commands, the
    character filter in front of the calculator, the reminder duration
    parser, the text converters (`emojify`, `flip`, `morse`), `uptime`, and
    its own `onlyme`/`openall` pair, which sets the authorization cog's lock. */
module UtilityCog {
  import opened Wrappers
  import opened Text
  import Morse
  import opened AuthData
  import opened AuthCog

  // ---------------------------------------------------------------------
  // Access
  // ---------------------------------------------------------------------

  /** `cog_check`: the authorization cog must be loaded and the author must
      be the bot owner or a bot admin. */
  predicate CogCheck(auth: Cog?, author: int)
    reads auth
  {
    auth != null && (IsOwner(auth.owner, author) || IsAdmin(auth.data, auth.owner, author))
  }

  /** The check is exactly "a bot admin": the owner counts as one, a
      moderator does not, and without the authorization cog nobody passes. */
  lemma CogCheckIsAdmin(auth: Cog?, author: int)
    ensures CogCheck(auth, author) <==> auth != null && IsAdmin(auth.data, auth.owner, author)
    ensures auth == null ==> !CogCheck(auth, author)
  {
  }

  datatype LockOutcome = NoAuth | NotActive | Refused | Done

  /** `onlyme`: the author takes the lock; nothing else is checked here
      (the cog check has already required a bot admin). */
  method OnlyMe(auth: Cog?, author: int) returns (outcome: LockOutcome)
    modifies auth
    ensures auth == null ==> outcome == NoAuth
    ensures auth != null ==> outcome == Done && auth.onlyMe == Some(author)
    ensures auth != null ==> auth.data == old(auth.data) && auth.owner == old(auth.owner)
                             && auth.queue == old(auth.queue) && auth.pending == old(auth.pending)
  {
    if auth == null {
      return NoAuth;
    }
    auth.onlyMe := Some(author);
    outcome := Done;
  }

  /** Who `open_all` lets lift the lock: its holder or a bot admin. */
  predicate MayOpen(auth: Cog, lockOwner: int, author: int)
    reads auth
  {
    author == lockOwner || IsAdmin(auth.data, auth.owner, author)
  }

  /** `open_all`: with no lock nothing changes; otherwise the lock holder
      or a bot admin clears it. */
  method OpenAll(auth: Cog?, author: int) returns (outcome: LockOutcome)
    modifies auth
    ensures auth == null ==> outcome == NoAuth
    ensures auth != null && old(auth.onlyMe).None? ==> outcome == NotActive && auth.onlyMe == None
    ensures auth != null && old(auth.onlyMe).Some? ==>
              (outcome == Done <==> MayOpen(auth, old(auth.onlyMe).value, author))
              && (outcome == Done ==> auth.onlyMe == None)
              && (outcome != Done ==> outcome == Refused && auth.onlyMe == old(auth.onlyMe))
    ensures auth != null ==> auth.data == old(auth.data) && auth.owner == old(auth.owner)
                             && auth.queue == old(auth.queue) && auth.pending == old(auth.pending)
  {
    if auth == null {
      return NoAuth;
    }
    if auth.onlyMe.None? {
      return NotActive;
    }
    if author != auth.onlyMe.value && !IsAdmin(auth.data, auth.owner, author) {
      return Refused;
    }
    auth.onlyMe := None;
    outcome := Done;
  }

  /** Every caller that passes the cog check may lift the lock: inside this
      cog, `open_all` refuses nobody who can reach it. */
  lemma CogCheckedCallerMayOpen(auth: Cog, lockOwner: int, author: int)
    requires CogCheck(auth, author)
    ensures MayOpen(auth, lockOwner, author)
  {
  }

  // ---------------------------------------------------------------------
  // Calculator filter
  // ---------------------------------------------------------------------

  const CALC_CHARS := "0123456789+-*/().% "

  /** `set(expression).issubset(allowed)` */
  predicate CalcAllowed(expression: string) {
    forall i :: 0 <= i < |expression| ==> expression[i] in CALC_CHARS
  }

  /** An expression that passes the filter can name nothing: it holds no
      letter, underscore, quote, bracket or comma, so no variable,
      attribute, builtin or string reaches `eval`. */
  lemma CalcAllowedHasNoNames(expression: string, i: int)
    requires CalcAllowed(expression) && 0 <= i < |expression|
    ensures !IsAsciiLetter(expression[i]) && expression[i] != '_'
    ensures expression[i] != '\'' && expression[i] != '"' && expression[i] != '[' && expression[i] != ','
  {
    assert expression[i] in CALC_CHARS;
  }

  /** The filter accepts a text exactly when each of its parts does. */
  lemma CalcAllowedAppend(a: string, b: string)
    ensures CalcAllowed(a + b) <==> CalcAllowed(a) && CalcAllowed(b)
  {
    if CalcAllowed(a + b) {
      assert forall i :: 0 <= i < |a| ==> a[i] == (a + b)[i];
      assert forall i :: 0 <= i < |b| ==> b[i] == (a + b)[|a| + i];
    }
  }

  // ---------------------------------------------------------------------
  // Reminders
  // ---------------------------------------------------------------------

  /** What `remindme` makes of its duration argument. */
  datatype Reminder = BadFormat | TooLong | Wait(seconds: nat)

  const MAX_REMINDER := 86400

  function Multiplier(unit: char): (m: nat)
    ensures unit == 's' ==> m == 1
    ensures unit == 'm' ==> m == 60
    ensures unit == 'h' ==> m == 3600
    ensures unit == 'd' ==> m == 86400
  {
    if unit == 's' then 1 else if unit == 'm' then 60 else if unit == 'h' then 3600 else 86400
  }

  predicate IsUnit(c: char) {
    c == 's' || c == 'm' || c == 'h' || c == 'd'
  }

  /** `re.match(r"(\d+)([smhd])", time_str.lower())`: digits then a unit
      at the start of the argument; whatever follows is ignored. */
  function Remind(timeStr: string): (r: Reminder)
    ensures r.Wait? ==> r.seconds <= MAX_REMINDER
  {
    ReadReminder(Lower(timeStr))
  }

  /** The match on the lower-cased argument. */
  function ReadReminder(t: string): (r: Reminder)
    ensures r.Wait? ==> r.seconds <= MAX_REMINDER
  {
    var n := DigitRun(t);
    if n == 0 || n == |t| || !IsUnit(t[n]) then BadFormat
    else
      var seconds := DigitsValue(t[..n]) * Multiplier(t[n]);
      if seconds > MAX_REMINDER then TooLong else Wait(seconds)
  }

  /** Round trip: a written-out value and unit, followed by anything, is
      read back as that value times the unit, capped at a day. */
  lemma RemindReadsValue(value: nat, unit: char, rest: string)
    requires IsUnit(unit) && IsLowerCase(rest)
    ensures var secs := value * Multiplier(unit);
            Remind(NatToString(value) + [unit] + rest) == if secs > MAX_REMINDER then TooLong else Wait(secs)
  {
    var digits := NatToString(value);
    var s := digits + [unit] + rest;
    assert IsLowerCase(digits) && IsLowerCase([unit]);
    LowerCaseAppend(digits, [unit]);
    LowerCaseAppend(digits + [unit], rest);
    LowerOfLowerCase(s);
    DigitRunOfDigits(digits, [unit] + rest);
    assert s == digits + ([unit] + rest);
    assert s[..|digits|] == digits;
    assert s[|digits|] == unit;
    DigitsValueOfNatToString(value);
  }

  lemma {:induction false} DigitRunOfDigits(digits: string, rest: string)
    requires forall i :: 0 <= i < |digits| ==> IsDigit(digits[i])
    requires rest == [] || !IsDigit(rest[0])
    ensures DigitRun(digits + rest) == |digits|
    decreases |digits|
  {
    if digits != [] {
      assert (digits + rest)[1..] == digits[1..] + rest;
      DigitRunOfDigits(digits[1..], rest);
    } else {
      assert digits + rest == rest;
    }
  }

  /** A unit letter written in upper case is accepted too. */
  lemma RemindIgnoresCase(timeStr: string)
    ensures Remind(timeStr) == Remind(Lower(timeStr))
  {
    var t := Lower(timeStr);
    assert IsLowerCase(t);
    LowerOfLowerCase(t);
  }

  // ---------------------------------------------------------------------
  // emojify
  // ---------------------------------------------------------------------

  /** The emoji table: the regional indicator symbols for a-z, the keycap
      sequences for the digits, the two punctuation emoji, and two spaces
      for a space. */
  function EmojiOf(c: char): (r: Option<string>)
    ensures r.Some? <==> IsAsciiLower(c) || IsDigit(c) || c == '!' || c == '?' || c == ' '
    ensures r.Some? ==> r.value != []
  {
    if IsAsciiLower(c) then Some([(0x1F1E6 + (c as int - 'a' as int)) as char])
    else if IsDigit(c) then Some([c, '\U{FE0F}', '\U{20E3}'])
    else if c == '!' then Some("\U{2757}")
    else if c == '?' then Some("\U{2753}")
    else if c == ' ' then Some("  ")
    else None
  }

  /** One character of the reply: `mapping.get(c.lower(), c) + " "`. */
  function EmojiPiece(c: char): (r: string)
    ensures |r| >= 2 && r[|r| - 1] == ' '
  {
    match EmojiOf(LowerChar(c))
    case Some(e) => e + " "
    case None => [c] + " "
  }

  function EmojiPieces(text: string): (r: string)
    ensures |r| >= 2 * |text|
  {
    if text == [] then [] else EmojiPiece(text[0]) + EmojiPieces(text[1..])
  }

  const MESSAGE_LIMIT := 2000

  /** `emojify`: the pieces joined, cut to Discord's 2000-character limit. */
  function Emojify(text: string): (r: string)
    ensures |r| <= MESSAGE_LIMIT
    ensures r == EmojiPieces(text)[..Min(MESSAGE_LIMIT, |EmojiPieces(text)|)]
  {
    var full := EmojiPieces(text);
    if |full| <= MESSAGE_LIMIT then full else full[..MESSAGE_LIMIT]
  }

  /** Case does not matter to `emojify`. */
  lemma {:induction false} EmojifyIgnoresCase(text: string)
    ensures EmojiPieces(Lower(text)) == EmojiPieces(text)
    decreases |text|
  {
    if text != [] {
      assert Lower(text)[0] == LowerChar(text[0]);
      assert Lower(text)[1..] == Lower(text[1..]);
      assert LowerChar(LowerChar(text[0])) == LowerChar(text[0]);
      assert !IsAsciiUpper(text[0]) ==> LowerChar(text[0]) == text[0];
      EmojifyIgnoresCase(text[1..]);
    }
  }

  /** A letter becomes its regional indicator and a space. */
  lemma LetterPiece(c: char)
    requires IsAsciiLetter(c)
    ensures EmojiPiece(c) == [(0x1F1E6 + (LowerChar(c) as int - 'a' as int)) as char, ' ']
  {
    assert IsAsciiLower(LowerChar(c));
  }

  /** A text of n letters gives exactly one regional indicator and one
      space per letter, so 2n characters. */
  lemma {:induction false} EmojifyLetters(text: string)
    requires forall i :: 0 <= i < |text| ==> IsAsciiLetter(text[i])
    ensures |EmojiPieces(text)| == 2 * |text|
    ensures forall i :: 0 <= i < |text| ==>
              EmojiPieces(text)[2 * i] as int == 0x1F1E6 + (LowerChar(text[i]) as int - 'a' as int)
              && EmojiPieces(text)[2 * i + 1] == ' '
    decreases |text|
  {
    if text != [] {
      EmojifyLetters(text[1..]);
      LetterPiece(text[0]);
      var p := EmojiPiece(text[0]);
      var rest := EmojiPieces(text[1..]);
      assert EmojiPieces(text) == p + rest;
      forall i | 1 <= i < |text|
        ensures EmojiPieces(text)[2 * i] == rest[2 * (i - 1)] && EmojiPieces(text)[2 * i + 1] == rest[2 * (i - 1) + 1]
      {
      }
    }
  }

  // ---------------------------------------------------------------------
  // flip
  // ---------------------------------------------------------------------

  const NORMAL := "abcdefghijklmnopqrstuvwxyzABCDEFGHIJKLMNOPQRSTUVWXYZ0123456789"
  const FLIPPED := "ɐqɔpǝɟƃɥᴉɾʞlɯuodbɹsʇnʌʍxʎz∀qƆpƎℲפHIſʞ˥WNOԀQᴚS┴∩ΛMX⅄Z0ƖᄅƐㄣϛ9ㄥ86"

  /** Both rows of the `str.maketrans` table have 62 characters, so the
      table is well-formed. */
  lemma TableRowsMatch()
    ensures |NORMAL| == 62 && |FLIPPED| == 62
  {
  }

  /** The position of `c` in `s`, if any. */
  function IndexOf(s: string, c: char): (r: Option<nat>)
    ensures r.Some? ==> r.value < |s| && s[r.value] == c && forall j :: 0 <= j < r.value ==> s[j] != c
    ensures r.None? ==> c !in s
  {
    if s == [] then None
    else if s[0] == c then Some(0)
    else match IndexOf(s[1..], c)
      case Some(k) => Some(k + 1)
      case None => None
  }

  /** `c.translate(table)` for one character. */
  function FlipChar(c: char): char {
    match IndexOf(NORMAL, c)
    case Some(k) => if k < |FLIPPED| then FLIPPED[k] else c
    case None => c
  }

  function Translate(text: string): (r: string)
    ensures |r| == |text|
    ensures forall i :: 0 <= i < |text| ==> r[i] == FlipChar(text[i])
  {
    if text == [] then [] else [FlipChar(text[0])] + Translate(text[1..])
  }

  function Reverse(s: string): (r: string)
    ensures |r| == |s|
    ensures forall i :: 0 <= i < |s| ==> r[i] == s[|s| - 1 - i]
  {
    if s == [] then [] else Reverse(s[1..]) + [s[0]]
  }

  /** `flip`: translate, then `[::-1]`. */
  function Flip(text: string): string {
    Reverse(Translate(text))
  }

  /** The flipped text has the same length and reads the translated
      characters back to front. */
  lemma FlipIsMirroredTranslation(text: string)
    ensures |Flip(text)| == |text|
    ensures forall i :: 0 <= i < |text| ==> Flip(text)[i] == FlipChar(text[|text| - 1 - i])
  {
  }

  lemma TranslateAppend(a: string, b: string)
    ensures Translate(a + b) == Translate(a) + Translate(b)
  {
    var l, r := Translate(a + b), Translate(a) + Translate(b);
    forall i | 0 <= i < |l|
      ensures l[i] == r[i]
    {
      if i < |a| {
        assert (a + b)[i] == a[i];
      } else {
        assert (a + b)[i] == b[i - |a|];
      }
    }
  }

  lemma ReverseAppend(x: string, y: string)
    ensures Reverse(x + y) == Reverse(y) + Reverse(x)
  {
    var l, r := Reverse(x + y), Reverse(y) + Reverse(x);
    forall i | 0 <= i < |l|
      ensures l[i] == r[i]
    {
      if i < |y| {
        assert (x + y)[|x + y| - 1 - i] == y[|y| - 1 - i];
      } else {
        assert (x + y)[|x + y| - 1 - i] == x[|x| - 1 - (i - |y|)];
      }
    }
  }

  /** Flipping a joined text flips the parts and swaps them. */
  lemma FlipAppend(a: string, b: string)
    ensures Flip(a + b) == Flip(b) + Flip(a)
  {
    TranslateAppend(a, b);
    ReverseAppend(Translate(a), Translate(b));
  }

  /** Characters outside the table (punctuation, other scripts) are kept. */
  lemma FlipKeepsOthers(c: char)
    requires c !in NORMAL
    ensures FlipChar(c) == c
  {
  }

  // ---------------------------------------------------------------------
  // morse and uptime
  // ---------------------------------------------------------------------

  /** `morse`: the encoding inside the reply's code span. */
  function MorseReply(text: string): string {
    "📡 **Morse:** `" + Morse.Encode(text) + "`"
  }

  datatype Clock = Clock(hours: int, minutes: int, seconds: int)

  /** `uptime`: hours, minutes and seconds of the elapsed whole seconds. */
  function Uptime(elapsed: int): (c: Clock)
    ensures c.hours * 3600 + c.minutes * 60 + c.seconds == elapsed
    ensures 0 <= c.minutes < 60 && 0 <= c.seconds < 60
  {
    var hours := elapsed / 3600;
    var rem := elapsed % 3600;
    Clock(hours, rem / 60, rem % 60)
  }

  /** The clock reading is the only one with minutes and seconds under 60. */
  lemma UptimeIsUnique(elapsed: int, c: Clock)
    requires c.hours * 3600 + c.minutes * 60 + c.seconds == elapsed
    requires 0 <= c.minutes < 60 && 0 <= c.seconds < 60
    ensures c == Uptime(elapsed)
  {
    var u := Uptime(elapsed);
    var x := c.minutes * 60 + c.seconds;
    assert 0 <= x < 3600;
    assert elapsed == c.hours * 3600 + x;
    DivModUnique(elapsed, 3600, c.hours, x);
    DivModUnique(x, 60, c.minutes, c.seconds);
  }

  lemma DivModUnique(n: int, d: int, q: int, r: int)
    requires d > 0 && 0 <= r < d && n == q * d + r
    ensures n / d == q && n % d == r
  {
    var q2, r2 := n / d, n % d;
    assert (q - q2) * d == r2 - r;
    MulBound(q - q2, d);
  }

  lemma MulBound(k: int, d: int)
    requires d > 0
    ensures k >= 1 ==> k * d >= d
    ensures k <= -1 ==> k * d <= -d
  {
  }
}
