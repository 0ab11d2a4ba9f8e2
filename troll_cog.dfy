/** The troll cog: where its limits come from, the clamped `spam` and
    `spamping` counts, the `troll` round trips and the `scramble` cap. The
    moves and messages themselves are Discord calls; the model records
    which ones are attempted, with the outcome of each move and the random
    draws as inputs. `mock` is `App.Mock`, the same transform as the legacy
    entrypoint's. */
module TrollCog {
  import opened Wrappers
  import opened AdminCog
  import App

  /** `limits`: the admin cog's table when that cog is loaded, else the
      same four defaults. */
  function CurrentLimits(admin: Limits?): map<string, int>
    reads admin
  {
    if admin != null then admin.limits else DEFAULT_LIMITS
  }

  /** Every limit a troll command reads is present and positive, whether
      the admin cog is loaded or not. */
  lemma LimitsAlwaysUsable(admin: Limits?, k: string)
    requires admin != null ==> admin.Valid()
    requires k in LIMIT_KEYS
    ensures k in CurrentLimits(admin) && CurrentLimits(admin)[k] >= 1
    ensures admin == null ==> CurrentLimits(admin) == DEFAULT_LIMITS
  {
  }

  /** `range(min(amount, limit))`: how many messages go out. */
  function Clamped(amount: int, limit: int): (n: nat)
    ensures n <= Max(limit, 0)
    ensures 0 <= amount <= limit ==> n == amount
    ensures amount > limit >= 0 ==> n == limit
    ensures amount <= 0 ==> n == 0
  {
    var a := Min(amount, limit);
    if a < 0 then 0 else a
  }

  /** `spam`: the text, as many times as the clamped amount. */
  function Spam(amount: int, text: string, limits: map<string, int>): (r: seq<string>)
    requires "spam_max" in limits
    ensures |r| == Clamped(amount, limits["spam_max"])
    ensures forall i :: 0 <= i < |r| ==> r[i] == text
  {
    Repeat(text, Clamped(amount, limits["spam_max"]))
  }

  function Repeat(text: string, n: nat): (r: seq<string>)
    ensures |r| == n
    ensures forall i :: 0 <= i < n ==> r[i] == text
  {
    if n == 0 then [] else [text] + Repeat(text, n - 1)
  }

  const SPAMPING_DEFAULT := 5

  /** `spamping`: how many pings are sent. */
  function Spamping(amount: int, limits: map<string, int>): (n: nat)
    requires "spamping_max" in limits
    ensures n <= Max(limits["spamping_max"], 0)
    ensures n == Clamped(amount, limits["spamping_max"])
  {
    Clamped(amount, limits["spamping_max"])
  }

  /** With the admin cog's table valid (or absent), `spam` never sends more
      than its limit, and the defaults cap it at 6 and `spamping` at 200. */
  lemma SpamIsCapped(admin: Limits?, amount: int, text: string)
    requires admin != null ==> admin.Valid()
    ensures "spam_max" in CurrentLimits(admin) && "spamping_max" in CurrentLimits(admin)
    ensures |Spam(amount, text, CurrentLimits(admin))| <= CurrentLimits(admin)["spam_max"]
    ensures admin == null ==> Spamping(amount, CurrentLimits(admin)) <= 200
    ensures admin == null ==> |Spam(amount, text, CurrentLimits(admin))| <= 6
  {
    LimitsAlwaysUsable(admin, "spam_max");
    LimitsAlwaysUsable(admin, "spamping_max");
  }

  datatype TrollReply = TargetNotInVoice | NoSecondChannel | Trolled(moves: seq<int>)

  /** `troll`: refused when the target is not in voice or there is no
      other voice channel; otherwise up to `troll_moves` round trips to the
      first other channel and back, cut at the first move that fails
      (`movesOk` is how many moves succeed before one fails). */
  function Troll(voice: Option<int>, channels: seq<int>, trips: int, movesOk: nat): (r: TrollReply)
    ensures r.TargetNotInVoice? <==> voice.None?
    ensures r.NoSecondChannel? <==> voice.Some? && App.OtherChannel(channels, voice.value).None?
    ensures r.Trolled? ==> |r.moves| <= 2 * Max(trips, 0) && |r.moves| <= movesOk
    ensures r.Trolled? ==> forall i :: 0 <= i < |r.moves| ==>
      r.moves[i] == if i % 2 == 0 then App.OtherChannel(channels, voice.value).value else voice.value
  {
    if voice.None? then TargetNotInVoice
    else match App.OtherChannel(channels, voice.value)
      case None => NoSecondChannel
      case Some(other) =>
        var path := App.TrollPath(other, voice.value, if trips < 0 then 0 else trips);
        Trolled(path[..Min(movesOk, |path|)])
  }

  /** Without a failure the target ends where they started; a failure on
      the way back strands them in the other channel. */
  lemma TrollEnding(voice: int, channels: seq<int>, trips: int, movesOk: nat)
    requires App.OtherChannel(channels, voice).Some? && trips >= 1
    ensures var r := Troll(Some(voice), channels, trips, movesOk);
      movesOk >= 2 * trips ==> |r.moves| == 2 * trips && r.moves[|r.moves| - 1] == voice
    ensures var r := Troll(Some(voice), channels, trips, movesOk);
      movesOk < 2 * trips && movesOk % 2 == 1 ==> r.moves[|r.moves| - 1] != voice
  {
  }

  /** The non-bot members of the author's channel. */
  function Humans(ms: seq<App.Member>): (r: seq<App.Member>)
    ensures |r| <= |ms|
    ensures forall m :: m in r <==> m in ms && !m.bot
  {
    if ms == [] then []
    else if ms[0].bot then Humans(ms[1..])
    else [ms[0]] + Humans(ms[1..])
  }

  /** The humans keep the channel's order and multiplicity: the humans of
      two parts are the first part's humans followed by the second's. */
  lemma {:induction false} HumansAppend(a: seq<App.Member>, b: seq<App.Member>)
    ensures Humans(a + b) == Humans(a) + Humans(b)
    decreases |a|
  {
    if a == [] {
      assert a + b == b;
    } else {
      assert (a + b)[0] == a[0];
      assert (a + b)[1..] == a[1..] + b;
      HumansAppend(a[1..], b);
      if !a[0].bot {
        assert [a[0]] + (Humans(a[1..]) + Humans(b)) == ([a[0]] + Humans(a[1..])) + Humans(b);
      }
    }
  }

  /** One member is counted exactly when it is not a bot. */
  lemma HumansOfOne(m: App.Member)
    ensures Humans([m]) == if m.bot then [] else [m]
  {
  }

  /** The number of humans is the number of members that are not bots,
      which is what `scramble` compares with its limit. */
  lemma {:induction false} HumansCount(ms: seq<App.Member>)
    ensures |Humans(ms)| == |ms| - |BotsOf(ms)|
    decreases |ms|
  {
    if ms != [] {
      HumansCount(ms[1..]);
    }
  }

  /** The bots of a member list, in order. */
  function BotsOf(ms: seq<App.Member>): (r: seq<App.Member>)
    ensures |r| <= |ms|
    ensures forall m :: m in r ==> m in ms && m.bot
  {
    if ms == [] then []
    else if ms[0].bot then [ms[0]] + BotsOf(ms[1..])
    else BotsOf(ms[1..])
  }

  /** A draw of `random.sample(xs, k)`: `k` entries at distinct positions. */
  ghost predicate IsSample(sample: seq<App.Member>, xs: seq<App.Member>, k: nat) {
    |sample| == k && exists pick: seq<nat> :: IsPick(pick, xs, sample)
  }

  ghost predicate IsPick(pick: seq<nat>, xs: seq<App.Member>, sample: seq<App.Member>) {
    && |pick| == |sample|
    && (forall i :: 0 <= i < |pick| ==> pick[i] < |xs| && sample[i] == xs[pick[i]])
    && (forall i, j :: 0 <= i < j < |pick| ==> pick[i] != pick[j])
  }

  datatype ScrambleReply = NoVoiceChannel | Scrambled(moved: seq<App.Member>)

  /** `scramble`: refused when the author is not in voice; otherwise the
      humans of the author's channel, or a random sample of `scramble_max`
      of them when there are more, are each moved. */
  function Scramble(channel: Option<seq<App.Member>>, limit: int, sample: seq<App.Member>): (r: ScrambleReply)
    ensures r.NoVoiceChannel? <==> channel.None?
    ensures r.Scrambled? && |Humans(channel.value)| <= limit ==> r.moved == Humans(channel.value)
    ensures r.Scrambled? && |Humans(channel.value)| > limit ==> r.moved == sample
  {
    if channel.None? then NoVoiceChannel
    else
      var humans := Humans(channel.value);
      if |humans| > limit then Scrambled(sample) else Scrambled(humans)
  }

  /** With a genuine sample, `scramble` moves at most `scramble_max` members,
      never a bot, and only members of the author's channel. */
  lemma ScrambleIsCapped(channel: seq<App.Member>, limit: nat, sample: seq<App.Member>)
    requires |Humans(channel)| > limit ==> IsSample(sample, Humans(channel), limit)
    ensures |Scramble(Some(channel), limit, sample).moved| <= limit
    ensures forall m :: m in Scramble(Some(channel), limit, sample).moved ==> m in channel && !m.bot
  {
    var humans := Humans(channel);
    if |humans| > limit {
      var pick :| IsPick(pick, humans, sample);
      forall m | m in sample
        ensures m in humans
      {
        var i :| 0 <= i < |sample| && sample[i] == m;
        assert humans[pick[i]] == m;
      }
    }
  }

  datatype JumpscareReply = BotNotInVoice | Boo(target: int)

  /** `jumpscare`: needs the bot in voice; the target is the named member
      or else the author. */
  function Jumpscare(botInVoice: bool, member: Option<int>, author: int): (r: JumpscareReply)
    ensures r.BotNotInVoice? <==> !botInVoice
    ensures r.Boo? ==> r.target == member.GetOr(author)
  {
    if !botInVoice then BotNotInVoice else Boo(member.GetOr(author))
  }
}
