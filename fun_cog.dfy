/** The fun cog's decisions over a random draw: the rating bands of `rizz`
    and `iq`, the `rate` and heart emoji, the `ship` bar, `pp`, `choice`,
    `roll`, rock-paper-scissors and the slot machine. Each draw of
    `random` is an input. */
module FunCog {
  import opened Text

  // ---------------------------------------------------------------------
  // Rating bands

  datatype RizzBand = NoRizz | LowRizz | MidRizz | PrettyRizzy | RizzGod

  /** `rizz`: above 90, above 70, above 40, above 20, else the lowest. */
  function Rizz(score: int): (b: RizzBand)
    ensures b == RizzGod <==> score > 90
    ensures b == PrettyRizzy <==> 70 < score <= 90
    ensures b == MidRizz <==> 40 < score <= 70
    ensures b == LowRizz <==> 20 < score <= 40
    ensures b == NoRizz <==> score <= 20
  {
    if score > 90 then RizzGod
    else if score > 70 then PrettyRizzy
    else if score > 40 then MidRizz
    else if score > 20 then LowRizz
    else NoRizz
  }

  function RizzRank(b: RizzBand): nat {
    match b
    case NoRizz => 0
    case LowRizz => 1
    case MidRizz => 2
    case PrettyRizzy => 3
    case RizzGod => 4
  }

  /** A higher score never gets a lower band. */
  lemma RizzIsMonotone(s: int, t: int)
    requires s <= t
    ensures RizzRank(Rizz(s)) <= RizzRank(Rizz(t))
  {
  }

  datatype IqBand = SmoothBrain | Average | Smart | Genius

  /** `iq`: above 140, above 100, above 70, else. */
  function Iq(iq: int): (b: IqBand)
    ensures b == Genius <==> iq > 140
    ensures b == Smart <==> 100 < iq <= 140
    ensures b == Average <==> 70 < iq <= 100
    ensures b == SmoothBrain <==> iq <= 70
  {
    if iq > 140 then Genius
    else if iq > 100 then Smart
    else if iq > 70 then Average
    else SmoothBrain
  }

  function IqRank(b: IqBand): nat {
    match b
    case SmoothBrain => 0
    case Average => 1
    case Smart => 2
    case Genius => 3
  }

  lemma IqIsMonotone(s: int, t: int)
    requires s <= t
    ensures IqRank(Iq(s)) <= IqRank(Iq(t))
  {
  }

  const FIRE := "🔥"
  const POOP := "💩"
  const THINKING := "🤔"

  /** `rate`: fire above 8, poop below 3, else thinking. */
  function RateEmoji(rating: int): (e: string)
    ensures e == FIRE <==> rating > 8
    ensures e == POOP <==> rating < 3
  {
    if rating > 8 then FIRE else if rating < 3 then POOP else THINKING
  }

  const BROKEN_HEART := "💔"
  const SPARKLING_HEART := "💖"
  const RED_HEART := "\U{2764}\U{FE0F}"

  /** The heart of `ship` and `love`: broken below 30, sparkling above 70,
      else red. */
  function Heart(score: int): (e: string)
    ensures e == BROKEN_HEART <==> score < 30
    ensures e == SPARKLING_HEART <==> score > 70
    ensures e == RED_HEART <==> 30 <= score <= 70
  {
    if score < 30 then BROKEN_HEART else if score > 70 then SPARKLING_HEART else RED_HEART
  }

  // ---------------------------------------------------------------------
  // Bars

  /** Python's `c * n`: empty for `n <= 0`. */
  function Times(c: char, n: int): (r: string)
    ensures |r| == if n <= 0 then 0 else n
    ensures forall i :: 0 <= i < |r| ==> r[i] == c
    decreases n
  {
    if n <= 0 then [] else [c] + Times(c, n - 1)
  }

  const FULL := '█'
  const EMPTY := '░'

  /** The `ship` bar. */
  function ShipBar(score: int): string {
    Times(FULL, score / 10) + Times(EMPTY, 10 - score / 10)
  }

  /** For a drawn score (0 to 100) the bar has ten cells, the first
      `score / 10` full and the rest empty. */
  lemma ShipBarShape(score: int)
    requires 0 <= score <= 100
    ensures |ShipBar(score)| == 10
    ensures forall i :: 0 <= i < 10 ==> ShipBar(score)[i] == if i < score / 10 then FULL else EMPTY
  {
  }

  /** `pp`: `8`, `size` signs `=`, `D`. */
  function PpShaft(size: int): (r: string)
    ensures size >= 0 ==> |r| == size + 2
    ensures |r| >= 2 && r[0] == '8' && r[|r| - 1] == 'D'
  {
    "8" + Times('=', size) + "D"
  }

  // ---------------------------------------------------------------------
  // choice and roll

  datatype ChoiceReply = NeedOptions | Chose(option: string)

  /** `choice`: at least two options, then one of them (`draw` picks it). */
  function Choice(options: seq<string>, draw: nat): (r: ChoiceReply)
    ensures r.NeedOptions? <==> |options| < 2
    ensures r.Chose? ==> r.option in options
  {
    if |options| < 2 then NeedOptions else Chose(options[draw % |options|])
  }

  datatype RollReply = EmptyRange | Rolled(value: int)

  const ROLL_DEFAULT := 100

  /** `roll`: `random.randint(1, maximum)`, which raises for a maximum below
      one (`draw` picks the value). */
  function Roll(maximum: int, draw: nat): (r: RollReply)
    ensures r.EmptyRange? <==> maximum < 1
    ensures r.Rolled? ==> 1 <= r.value <= maximum
  {
    if maximum < 1 then EmptyRange else Rolled(1 + draw % maximum)
  }

  // ---------------------------------------------------------------------
  // Rock, paper, scissors

  const RPS_OPTIONS: seq<string> := ["rock", "paper", "scissors"]

  /** The three winning pairs. */
  predicate Beats(a: string, b: string) {
    (a == "rock" && b == "scissors") || (a == "paper" && b == "rock") || (a == "scissors" && b == "paper")
  }

  datatype RpsResult = Tie | UserWins | BotWins

  datatype RpsReply = InvalidChoice | Played(user: string, bot: string, result: RpsResult)

  /** `rps`: the user's choice, lower-cased, must be an option; then a tie
      on equal choices, a user win exactly on the three winning pairs, and
      otherwise a bot win. */
  function Rps(choice: string, botChoice: string): (r: RpsReply)
    ensures r.InvalidChoice? <==> Lower(choice) !in RPS_OPTIONS
    ensures r.Played? ==> r.user == Lower(choice) && r.bot == botChoice
    ensures r.Played? ==> (r.result == Tie <==> r.user == botChoice)
    ensures r.Played? ==> (r.result == UserWins <==> r.user != botChoice && Beats(r.user, botChoice))
  {
    var c := Lower(choice);
    if c !in RPS_OPTIONS then InvalidChoice
    else if c == botChoice then Played(c, botChoice, Tie)
    else if Beats(c, botChoice) then Played(c, botChoice, UserWins)
    else Played(c, botChoice, BotWins)
  }

  /** Between two different options exactly one beats the other, so the
      game is symmetric: swapping the hands swaps the winner. */
  lemma RpsIsFair(a: string, b: string)
    requires a in RPS_OPTIONS && b in RPS_OPTIONS && a != b
    ensures Beats(a, b) != Beats(b, a)
    ensures Rps(a, b).Played? && Rps(b, a).Played?
    ensures Rps(a, b).result == UserWins <==> Rps(b, a).result == BotWins
  {
    BeatsIsAsymmetric(a, b);
    RpsOfOptions(a, b);
    RpsOfOptions(b, a);
  }

  lemma BeatsIsAsymmetric(a: string, b: string)
    requires a in RPS_OPTIONS && b in RPS_OPTIONS && a != b
    ensures Beats(a, b) != Beats(b, a)
  {
  }

  /** Two different options are played as they stand. */
  lemma RpsOfOptions(a: string, b: string)
    requires a in RPS_OPTIONS && a != b
    ensures Rps(a, b) == Played(a, b, if Beats(a, b) then UserWins else BotWins)
  {
    OptionIsLower(a);
  }

  lemma OptionIsLower(o: string)
    requires o in RPS_OPTIONS
    ensures Lower(o) == o
  {
    if o == "rock" {
      LowerOfLowerCase("rock");
    } else if o == "paper" {
      LowerOfLowerCase("paper");
    } else {
      LowerOfLowerCase("scissors");
    }
  }

  // ---------------------------------------------------------------------
  // Slot machine

  datatype SlotResult = Jackpot | TwoMatches | NoMatch

  /** `slot`: a jackpot when all three reels match; "two matches" only
      when a reel matches its neighbour. */
  function Slot(r0: string, r1: string, r2: string): (res: SlotResult)
    ensures res == Jackpot <==> r0 == r1 && r1 == r2
    ensures res == TwoMatches <==> !(r0 == r1 && r1 == r2) && (r0 == r1 || r1 == r2)
  {
    if r0 == r1 && r1 == r2 then Jackpot
    else if r0 == r1 || r1 == r2 then TwoMatches
    else NoMatch
  }

  /** Matching outer reels around a different middle one count as no
      match at all. */
  lemma OuterPairIsNoMatch(a: string, b: string)
    requires a != b
    ensures Slot(a, b, a) == NoMatch
  {
  }
}
