/** The Morse table shared by the `morse` command of the legacy entrypoint
    and of the utility cog: letters and figures of ITU-R M.1677-1, with the
    word space written as `/`. `Encode` writes each character's code, or the
    character itself when the table has none, separated by single spaces;
    `Decode` reads such a string back. */
module Morse {
  import opened Wrappers
  import opened Text

  /** A character the table has a code for. */
  predicate InTable(c: char) {
    IsAsciiUpper(c) || IsDigit(c) || c == ' '
  }

  /** The code of a table character. */
  function Code(c: char): (r: Option<string>)
    ensures r.Some? <==> InTable(c)
    ensures r.Some? ==> r.value != [] && ' ' !in r.value
  {
    match c
    case 'A' => Some(".-") case 'B' => Some("-...") case 'C' => Some("-.-.") case 'D' => Some("-..")
    case 'E' => Some(".") case 'F' => Some("..-.") case 'G' => Some("--.") case 'H' => Some("....")
    case 'I' => Some("..") case 'J' => Some(".---") case 'K' => Some("-.-") case 'L' => Some(".-..")
    case 'M' => Some("--") case 'N' => Some("-.") case 'O' => Some("---") case 'P' => Some(".--.")
    case 'Q' => Some("--.-") case 'R' => Some(".-.") case 'S' => Some("...") case 'T' => Some("-")
    case 'U' => Some("..-") case 'V' => Some("...-") case 'W' => Some(".--") case 'X' => Some("-..-")
    case 'Y' => Some("-.--") case 'Z' => Some("--..") case '0' => Some("-----") case '1' => Some(".----")
    case '2' => Some("..---") case '3' => Some("...--") case '4' => Some("....-") case '5' => Some(".....")
    case '6' => Some("-....") case '7' => Some("--...") case '8' => Some("---..") case '9' => Some("----.")
    case ' ' => Some("/")
    case _ => None
  }

  /** The inverse table. */
  function Letter(t: string): Option<char> {
    match t
    case ".-" => Some('A') case "-..." => Some('B') case "-.-." => Some('C') case "-.." => Some('D')
    case "." => Some('E') case "..-." => Some('F') case "--." => Some('G') case "...." => Some('H')
    case ".." => Some('I') case ".---" => Some('J') case "-.-" => Some('K') case ".-.." => Some('L')
    case "--" => Some('M') case "-." => Some('N') case "---" => Some('O') case ".--." => Some('P')
    case "--.-" => Some('Q') case ".-." => Some('R') case "..." => Some('S') case "-" => Some('T')
    case "..-" => Some('U') case "...-" => Some('V') case ".--" => Some('W') case "-..-" => Some('X')
    case "-.--" => Some('Y') case "--.." => Some('Z') case "-----" => Some('0') case ".----" => Some('1')
    case "..---" => Some('2') case "...--" => Some('3') case "....-" => Some('4') case "....." => Some('5')
    case "-...." => Some('6') case "--..." => Some('7') case "---.." => Some('8') case "----." => Some('9')
    case "/" => Some(' ')
    case _ => None
  }

  /** No two table characters share a code. */
  lemma LetterOfCode(c: char)
    requires InTable(c)
    ensures Letter(Code(c).value) == Some(c)
  {
    if 'A' <= c <= 'M' {
      LetterOfCodeAToM(c);
    } else if 'N' <= c <= 'Z' {
      LetterOfCodeNToZ(c);
    } else {
      LetterOfCodeFigure(c);
    }
  }

  lemma LetterOfCodeAToM(c: char)
    requires 'A' <= c <= 'M'
    ensures Letter(Code(c).value) == Some(c)
  {
  }

  lemma LetterOfCodeNToZ(c: char)
    requires 'N' <= c <= 'Z'
    ensures Letter(Code(c).value) == Some(c)
  {
  }

  lemma LetterOfCodeFigure(c: char)
    requires IsDigit(c) || c == ' '
    ensures Letter(Code(c).value) == Some(c)
  {
  }

  /** `table.get(c.upper(), c)`: the code of the upper-cased character, or
      the character itself (not upper-cased) when the table has none. */
  function Token(c: char): (r: string)
    ensures r != [] && ' ' !in r
    ensures InTable(UpperChar(c)) ==> r == Code(UpperChar(c)).value
    ensures !InTable(UpperChar(c)) ==> r == [c]
  {
    match Code(UpperChar(c))
    case Some(s) => s
    case None => [c]
  }

  /** One token per character of the text, in order. */
  function Tokens(text: string): (r: seq<string>)
    ensures |r| == |text|
    ensures forall i :: 0 <= i < |text| ==> r[i] == Token(text[i])
  {
    if text == [] then [] else [Token(text[0])] + Tokens(text[1..])
  }

  /** The reply text of both `morse` commands. */
  function Encode(text: string): string {
    Join(" ", Tokens(text))
  }

  /** Reading a Morse string back: each piece through the inverse table. */
  function Decode(s: string): Option<string> {
    if s == [] then Some([]) else DecodeTokens(SplitOn(s, ' '))
  }

  function DecodeTokens(ts: seq<string>): Option<string> {
    if ts == [] then Some([])
    else match (Letter(ts[0]), DecodeTokens(ts[1..]))
      case (Some(c), Some(rest)) => Some([c] + rest)
      case _ => None
  }

  lemma {:induction false} DecodeEveryToken(text: string)
    requires forall i :: 0 <= i < |text| ==> InTable(UpperChar(text[i]))
    ensures DecodeTokens(Tokens(text)) == Some(Upper(text))
    decreases |text|
  {
    if text != [] {
      LetterOfCode(UpperChar(text[0]));
      DecodeEveryToken(text[1..]);
      assert Tokens(text)[1..] == Tokens(text[1..]);
      assert Upper(text) == [UpperChar(text[0])] + Upper(text[1..]);
    }
  }

  /** Round trip: a text made of letters (of either case), figures and
      spaces reads back as its upper-case form. */
  lemma EncodeRoundTrip(text: string)
    requires forall i :: 0 <= i < |text| ==> InTable(UpperChar(text[i]))
    ensures Decode(Encode(text)) == Some(Upper(text))
  {
    DecodeEveryToken(text);
    if text != [] {
      SplitJoin(Tokens(text), ' ');
      assert Encode(text) != [] by {
        assert |Tokens(text)[0]| > 0;
        JoinKeepsFirst(Tokens(text));
      }
    }
  }

  /** The reply has one space-separated piece per character: the characters
      outside the table come back unchanged at their own position. */
  lemma EncodeKeepsPositions(text: string)
    requires text != []
    ensures |SplitOn(Encode(text), ' ')| == |text|
    ensures forall i :: 0 <= i < |text| ==> SplitOn(Encode(text), ' ')[i] == Token(text[i])
  {
    SplitJoin(Tokens(text), ' ');
  }
}
