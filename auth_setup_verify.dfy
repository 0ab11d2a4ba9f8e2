/** The `setupverify` argument parser of the authorization cog:
    `_role_id_from_mention`, `_normalize_emoji_token` and
    `_parse_multi_verify_pairs`, which turns tokens such as
    `✅ @Verified 🔥 @Gamer` into (emoji, role) pairs. */
module AuthSetupVerify {
  import opened Wrappers
  import opened Text

  /** A guild role as the parser sees it. Discord orders roles by
      `position`, and between equal positions the role with the smaller
      id ranks higher. */
  datatype Role = Role(id: int, name: string, managed: bool, position: int)

  /** The guild the command runs in: its roles, in the guild's order, and
      the bot's top role (`None` when the bot's member cannot be
      resolved). */
  datatype GuildView = GuildView(roles: seq<Role>, botTop: Option<Role>)

  datatype Pair = Pair(emoji: string, role: Role)

  /** The error replies of the parser, one per message it can send. */
  datatype VerifyError =
    | Usage
    | NoBotMember
    | RoleNotFound(token: string)
    | RoleTooHigh(role: Role)
    | MissingEmoji(role: Role)
    | InvalidEmoji(token: string)
    | DanglingEmoji(emoji: string)
    | NoPairs
    | DuplicateEmoji(emoji: string)

  datatype Outcome<T> = Ok(value: T) | Fail(error: VerifyError)

  /** The check mark U+2705 that the first bare role is meant to get. */
  const CHECK_MARK := "\U{2705}"
  /** The default-emoji literal as the source file spells it: the UTF-8
      bytes of U+2705 read back as Windows-1252, giving the three
      characters U+00E2 U+0153 U+2026. */
  const SOURCE_CHECK_MARK := "\U{E2}\U{153}\U{2026}"
  const EVERYONE := "@everyone"

  /** `role < other` on Discord roles. */
  predicate Below(role: Role, other: Role)
  {
    role.position < other.position || (role.position == other.position && role.id > other.id)
  }

  predicate AllDigitsText(s: string)
  {
    forall i :: 0 <= i < |s| ==> IsDigit(s[i])
  }

  /** The token, once stripped, is `<@&digits>`. */
  predicate IsRoleMention(t: string)
  {
    |t| >= 5 && t[..3] == "<@&" && t[|t| - 1] == '>' && AllDigitsText(t[3..|t| - 1])
  }

  /** `_role_id_from_mention`: the id of a `<@&id>` token, else `None`. */
  function RoleIdFromMention(token: string): (r: Option<nat>)
    ensures r.Some? <==> IsRoleMention(Strip(token))
  {
    var t := Strip(token);
    if IsRoleMention(t) then Some(DigitsValue(t[3..|t| - 1])) else None
  }

  /** A role mention written by Discord is read back as that role's id. */
  lemma MentionRoundTrip(id: nat)
    ensures RoleIdFromMention("<@&" + NatToString(id) + ">") == Some(id)
  {
    var t := "<@&" + NatToString(id) + ">";
    assert t[3..|t| - 1] == NatToString(id);
    assert t[..3] == "<@&";
    assert Strip(t) == t by {
      assert StripLeft(t) == t;
    }
    DigitsValueOfNatToString(id);
  }

  /** `_normalize_emoji_token`: both branches return the stripped token,
      so every non-blank token is accepted as an emoji. */
  function NormalizeEmoji(token: string): (r: string)
    ensures r == [] <==> forall i :: 0 <= i < |token| ==> IsSpace(token[i])
  {
    StripBlankLemma(token);
    Strip(token)
  }

  lemma StripBlankLemma(s: string)
    ensures Strip(s) == [] <==> forall i :: 0 <= i < |s| ==> IsSpace(s[i])
  {
    var l := StripLeft(s);
    assert forall i :: 0 <= i < |l| ==> (Strip(s) == [] ==> IsSpace(l[i]));
  }

  /** `ctx.guild.get_role(id)`. */
  function RoleById(roles: seq<Role>, id: int): (r: Option<Role>)
    ensures r.Some? ==> r.value in roles && r.value.id == id
    ensures r.None? ==> forall x :: x in roles ==> x.id != id
  {
    if roles == [] then None
    else if roles[0].id == id then Some(roles[0])
    else RoleById(roles[1..], id)
  }

  /** `discord.utils.get(ctx.guild.roles, name=...)`: the first role of
      that name. */
  function RoleByName(roles: seq<Role>, name: string): (r: Option<Role>)
    ensures r.Some? ==> r.value in roles && r.value.name == name
    ensures r.None? ==> forall x :: x in roles ==> x.name != name
  {
    if roles == [] then None
    else if roles[0].name == name then Some(roles[0])
    else RoleByName(roles[1..], name)
  }

  /** The loop state: the pairs built so far and the emoji waiting for its
      role. */
  datatype ScanState = ScanState(pairs: seq<Pair>, pending: Option<string>)

  /** One pass of the token loop, with `mark` the default emoji of the
      first bare role. */
  function Step(mark: string, roles: seq<Role>, top: Role, st: ScanState, token: string): Outcome<ScanState>
  {
    var rid := RoleIdFromMention(token);
    if rid.Some? then MentionStep(mark, roles, top, st, token, rid.value)
    else NameOrEmojiStep(roles, top, st, token)
  }

  /** A role mention: the role must exist and be below the bot's top role,
      and it takes the waiting emoji, or `mark` for the first pair. */
  function MentionStep(mark: string, roles: seq<Role>, top: Role, st: ScanState, token: string, id: nat): Outcome<ScanState>
  {
    var role := RoleById(roles, id);
    if role.None? then Fail(RoleNotFound(token))
    else if !Below(role.value, top) then Fail(RoleTooHigh(role.value))
    else if st.pending.Some? then Ok(ScanState(st.pairs + [Pair(st.pending.value, role.value)], None))
    else if st.pairs == [] then Ok(ScanState(st.pairs + [Pair(mark, role.value)], None))
    else Fail(MissingEmoji(role.value))
  }

  /** Any other token: a role name right after an emoji, else a new emoji
      (replacing any emoji still waiting). */
  function NameOrEmojiStep(roles: seq<Role>, top: Role, st: ScanState, token: string): Outcome<ScanState>
  {
    var byName := RoleByName(roles, Strip(token));
    if st.pending.Some? && byName.Some? && !byName.value.managed && byName.value.name != EVERYONE then
      if !Below(byName.value, top) then Fail(RoleTooHigh(byName.value))
      else Ok(ScanState(st.pairs + [Pair(st.pending.value, byName.value)], None))
    else
      var normalized := NormalizeEmoji(token);
      if normalized == [] then Fail(InvalidEmoji(token))
      else Ok(ScanState(st.pairs, Some(normalized)))
  }

  /** The token loop from state `st` over the remaining tokens. */
  function Scan(mark: string, roles: seq<Role>, top: Role, st: ScanState, tokens: seq<string>): Outcome<ScanState>
    decreases |tokens|
  {
    if tokens == [] then Ok(st)
    else
      match Step(mark, roles, top, st, tokens[0])
      case Fail(e) => Fail(e)
      case Ok(next) => Scan(mark, roles, top, next, tokens[1..])
  }

  /** The de-duplication loop from the given seen sets, with the pairs kept
      so far in `kept`. */
  function DedupFrom(rest: seq<Pair>, seenEmoji: set<string>, seenRoles: set<int>, kept: seq<Pair>): Outcome<seq<Pair>>
    decreases |rest|
  {
    if rest == [] then Ok(kept)
    else if rest[0].emoji in seenEmoji then Fail(DuplicateEmoji(rest[0].emoji))
    else if rest[0].role.id in seenRoles then DedupFrom(rest[1..], seenEmoji, seenRoles, kept)
    else DedupFrom(rest[1..], seenEmoji + {rest[0].emoji}, seenRoles + {rest[0].role.id}, kept + [rest[0]])
  }

  function Dedup(pairs: seq<Pair>): Outcome<seq<Pair>>
  {
    DedupFrom(pairs, {}, {}, [])
  }

  /** What `_parse_multi_verify_pairs` returns when the first bare role
      gets `mark`. */
  function ParsePairsWith(mark: string, g: GuildView, tokens: seq<string>): Outcome<seq<Pair>>
  {
    if tokens == [] then Fail(Usage)
    else if g.botTop.None? then Fail(NoBotMember)
    else
      match Scan(mark, g.roles, g.botTop.value, ScanState([], None), tokens)
      case Fail(e) => Fail(e)
      case Ok(st) =>
        if st.pending.Some? then Fail(DanglingEmoji(st.pending.value))
        else if st.pairs == [] then Fail(NoPairs)
        else Dedup(st.pairs)
  }

  /** The parser as the source file spells it, defaulting to
      `SOURCE_CHECK_MARK`. */
  function ParsePairsAsWritten(g: GuildView, tokens: seq<string>): Outcome<seq<Pair>>
  {
    ParsePairsWith(SOURCE_CHECK_MARK, g, tokens)
  }

  /** The parser as intended, defaulting to the check mark U+2705; the rest
      of the model uses this one. */
  function ParsePairs(g: GuildView, tokens: seq<string>): Outcome<seq<Pair>>
  {
    ParsePairsWith(CHECK_MARK, g, tokens)
  }

  // ----- properties of one step -----

  /** What one step may do to the loop state: either the token becomes
      the waiting emoji, or exactly one pair is appended, whose role is
      below the bot's top role and whose emoji is the waiting one, or the
      default `mark` when no emoji waits and no pair exists yet. */
  predicate StepShape(mark: string, top: Role, st: ScanState, token: string, next: ScanState)
  {
    || (next.pairs == st.pairs && next.pending == Some(Strip(token)) && Strip(token) != [])
    || (&& |next.pairs| == |st.pairs| + 1
        && next.pairs == st.pairs + [next.pairs[|st.pairs|]]
        && next.pending.None?
        && Below(next.pairs[|st.pairs|].role, top)
        && (if st.pending.Some? then next.pairs[|st.pairs|].emoji == st.pending.value
            else st.pairs == [] && next.pairs[|st.pairs|].emoji == mark))
  }

  lemma MentionStepShape(mark: string, roles: seq<Role>, top: Role, st: ScanState, token: string, id: nat)
    requires MentionStep(mark, roles, top, st, token, id).Ok?
    ensures StepShape(mark, top, st, token, MentionStep(mark, roles, top, st, token, id).value)
  {
    var role := RoleById(roles, id).value;
    var p := if st.pending.Some? then Pair(st.pending.value, role) else Pair(mark, role);
    assert MentionStep(mark, roles, top, st, token, id).value.pairs == st.pairs + [p];
  }

  lemma NameOrEmojiStepShape(mark: string, roles: seq<Role>, top: Role, st: ScanState, token: string)
    requires NameOrEmojiStep(roles, top, st, token).Ok?
    ensures StepShape(mark, top, st, token, NameOrEmojiStep(roles, top, st, token).value)
  {
    var next := NameOrEmojiStep(roles, top, st, token).value;
    if next.pending.None? {
      var byName := RoleByName(roles, Strip(token));
      assert next.pairs == st.pairs + [Pair(st.pending.value, byName.value)];
    }
  }

  lemma StepHasShape(mark: string, roles: seq<Role>, top: Role, st: ScanState, token: string)
    requires Step(mark, roles, top, st, token).Ok?
    ensures StepShape(mark, top, st, token, Step(mark, roles, top, st, token).value)
  {
    var rid := RoleIdFromMention(token);
    if rid.Some? {
      MentionStepShape(mark, roles, top, st, token, rid.value);
    } else {
      NameOrEmojiStepShape(mark, roles, top, st, token);
    }
  }

  /** A mention of a role the bot can assign, with no emoji before it, is
      refused unless it is the first pair. */
  lemma SecondBareMentionIsRefused(mark: string, roles: seq<Role>, top: Role, st: ScanState, id: nat)
    requires RoleById(roles, id).Some? && Below(RoleById(roles, id).value, top)
    requires st.pending.None? && st.pairs != []
    ensures Step(mark, roles, top, st, "<@&" + NatToString(id) + ">") == Fail(MissingEmoji(RoleById(roles, id).value))
  {
    MentionRoundTrip(id);
  }

  // ----- properties of the whole scan -----

  /** Every pair the scan builds has a non-blank emoji and a role below the
      bot's top role, and the emoji waiting at the end is non-blank. */
  predicate WellFormed(top: Role, st: ScanState)
  {
    && (forall p :: p in st.pairs ==> p.emoji != [] && Below(p.role, top))
    && (st.pending.Some? ==> st.pending.value != [])
  }

  lemma StepKeepsWellFormed(mark: string, roles: seq<Role>, top: Role, st: ScanState, token: string)
    requires mark != [] && WellFormed(top, st)
    requires Step(mark, roles, top, st, token).Ok?
    ensures WellFormed(top, Step(mark, roles, top, st, token).value)
    ensures st.pairs <= Step(mark, roles, top, st, token).value.pairs
  {
    StepHasShape(mark, roles, top, st, token);
    var next := Step(mark, roles, top, st, token).value;
    if next.pairs != st.pairs {
      var p := next.pairs[|st.pairs|];
      assert forall q :: q in next.pairs ==> q in st.pairs || q == p;
    }
  }

  lemma {:induction false} ScanKeepsWellFormed(mark: string, roles: seq<Role>, top: Role, st: ScanState, tokens: seq<string>)
    requires mark != [] && WellFormed(top, st)
    requires Scan(mark, roles, top, st, tokens).Ok?
    ensures WellFormed(top, Scan(mark, roles, top, st, tokens).value)
    ensures st.pairs <= Scan(mark, roles, top, st, tokens).value.pairs
    decreases |tokens|
  {
    if tokens != [] {
      StepKeepsWellFormed(mark, roles, top, st, tokens[0]);
      var next := Step(mark, roles, top, st, tokens[0]).value;
      ScanKeepsWellFormed(mark, roles, top, next, tokens[1..]);
    }
  }

  /** The scan stops at the first failing token: the tokens after it are
      never looked at. */
  lemma {:induction false} ScanStopsAtFirstError(mark: string, roles: seq<Role>, top: Role, st: ScanState, tokens: seq<string>, more: seq<string>)
    requires Scan(mark, roles, top, st, tokens).Fail?
    ensures Scan(mark, roles, top, st, tokens + more) == Scan(mark, roles, top, st, tokens)
    decreases |tokens|
  {
    assert tokens != [];
    assert (tokens + more)[0] == tokens[0];
    assert (tokens + more)[1..] == tokens[1..] + more;
    var s := Step(mark, roles, top, st, tokens[0]);
    if s.Ok? {
      ScanStopsAtFirstError(mark, roles, top, s.value, tokens[1..], more);
    }
  }

  // ----- properties of de-duplication -----

  predicate DistinctEmoji(ps: seq<Pair>)
  {
    forall i, j :: 0 <= i < j < |ps| ==> ps[i].emoji != ps[j].emoji
  }

  predicate DistinctRoles(ps: seq<Pair>)
  {
    forall i, j :: 0 <= i < j < |ps| ==> ps[i].role.id != ps[j].role.id
  }

  /** The seen sets are exactly the emoji and role ids of the kept pairs. */
  ghost predicate DedupInv(seenEmoji: set<string>, seenRoles: set<int>, kept: seq<Pair>)
  {
    && DistinctEmoji(kept) && DistinctRoles(kept)
    && (forall e :: e in seenEmoji <==> exists x :: x in kept && x.emoji == e)
    && (forall id :: id in seenRoles <==> exists x :: x in kept && x.role.id == id)
  }

  lemma KeepOneMore(seenEmoji: set<string>, seenRoles: set<int>, kept: seq<Pair>, p: Pair)
    requires DedupInv(seenEmoji, seenRoles, kept)
    requires p.emoji !in seenEmoji && p.role.id !in seenRoles
    ensures DedupInv(seenEmoji + {p.emoji}, seenRoles + {p.role.id}, kept + [p])
  {
    var kept' := kept + [p];
    assert p in kept';
    assert forall x :: x in kept' <==> x in kept || x == p;
    forall i, j | 0 <= i < j < |kept'|
      ensures kept'[i].emoji != kept'[j].emoji && kept'[i].role.id != kept'[j].role.id
    {
      if j == |kept| {
        assert kept'[i] == kept[i] && kept[i] in kept;
      } else {
        assert kept'[i] == kept[i] && kept'[j] == kept[j];
      }
    }
  }

  /** A successful de-duplication keeps the pairs kept so far and adds
      only pairs of the input, with no emoji and no role twice. */
  lemma {:induction false} DedupFromDistinct(rest: seq<Pair>, seenEmoji: set<string>, seenRoles: set<int>, kept: seq<Pair>)
    requires DedupInv(seenEmoji, seenRoles, kept)
    requires DedupFrom(rest, seenEmoji, seenRoles, kept).Ok?
    ensures var out := DedupFrom(rest, seenEmoji, seenRoles, kept).value;
      kept <= out && DistinctEmoji(out) && DistinctRoles(out)
    decreases |rest|
  {
    if rest != [] {
      var p := rest[0];
      if p.role.id in seenRoles {
        DedupFromDistinct(rest[1..], seenEmoji, seenRoles, kept);
      } else {
        KeepOneMore(seenEmoji, seenRoles, kept, p);
        DedupFromDistinct(rest[1..], seenEmoji + {p.emoji}, seenRoles + {p.role.id}, kept + [p]);
      }
    }
  }

  /** Every pair de-duplication returns was kept before or comes from the
      input. */
  lemma {:induction false} DedupFromSubset(rest: seq<Pair>, seenEmoji: set<string>, seenRoles: set<int>, kept: seq<Pair>)
    requires DedupFrom(rest, seenEmoji, seenRoles, kept).Ok?
    ensures forall x :: x in DedupFrom(rest, seenEmoji, seenRoles, kept).value ==> x in kept || x in rest
    decreases |rest|
  {
    if rest != [] {
      var p := rest[0];
      assert forall x :: x in rest[1..] ==> x in rest;
      if p.role.id in seenRoles {
        DedupFromSubset(rest[1..], seenEmoji, seenRoles, kept);
      } else {
        DedupFromSubset(rest[1..], seenEmoji + {p.emoji}, seenRoles + {p.role.id}, kept + [p]);
      }
    }
  }

  /** Every role of the input keeps a pair: dropping a repeated role loses
      no role. */
  lemma {:induction false} DedupFromCoversRoles(rest: seq<Pair>, seenEmoji: set<string>, seenRoles: set<int>, kept: seq<Pair>)
    requires forall id :: id in seenRoles ==> exists x :: x in kept && x.role.id == id
    requires DedupFrom(rest, seenEmoji, seenRoles, kept).Ok?
    ensures var out := DedupFrom(rest, seenEmoji, seenRoles, kept).value;
      kept <= out && forall y :: y in rest ==> exists x :: x in out && x.role.id == y.role.id
    decreases |rest|
  {
    if rest != [] {
      var p := rest[0];
      var out := DedupFrom(rest, seenEmoji, seenRoles, kept).value;
      assert forall y :: y in rest ==> y == p || y in rest[1..];
      if p.role.id in seenRoles {
        DedupFromCoversRoles(rest[1..], seenEmoji, seenRoles, kept);
        var x :| x in kept && x.role.id == p.role.id;
        assert x in out by {
          var k :| 0 <= k < |kept| && kept[k] == x;
          assert out[k] == x;
        }
      } else {
        var kept' := kept + [p];
        assert p in kept';
        assert forall x :: x in kept ==> x in kept';
        DedupFromCoversRoles(rest[1..], seenEmoji + {p.emoji}, seenRoles + {p.role.id}, kept');
        assert out[|kept|] == p;
      }
    }
  }

  /** With no emoji written twice, de-duplication cannot fail. */
  lemma {:induction false} DedupFromSucceeds(rest: seq<Pair>, seenEmoji: set<string>, seenRoles: set<int>, kept: seq<Pair>)
    requires DistinctEmoji(rest)
    requires forall x :: x in rest ==> x.emoji !in seenEmoji
    ensures DedupFrom(rest, seenEmoji, seenRoles, kept).Ok?
    decreases |rest|
  {
    if rest != [] {
      var p := rest[0];
      forall x | x in rest[1..]
        ensures x.emoji !in seenEmoji + {p.emoji}
      {
        var k :| 0 <= k < |rest[1..]| && rest[1..][k] == x;
        assert rest[k + 1] == x;
      }
      assert DistinctEmoji(rest[1..]) by {
        forall i, j | 0 <= i < j < |rest[1..]|
          ensures rest[1..][i].emoji != rest[1..][j].emoji
        {
          assert rest[1..][i] == rest[i + 1] && rest[1..][j] == rest[j + 1];
        }
      }
      if p.role.id in seenRoles {
        DedupFromSucceeds(rest[1..], seenEmoji, seenRoles, kept);
      } else {
        DedupFromSucceeds(rest[1..], seenEmoji + {p.emoji}, seenRoles + {p.role.id}, kept + [p]);
      }
    }
  }

  /** A duplicate-emoji failure names an emoji already seen or written
      earlier in the input, and at the position that fails. */
  lemma {:induction false} DedupFromFailure(rest: seq<Pair>, seenEmoji: set<string>, seenRoles: set<int>, kept: seq<Pair>)
    requires DedupFrom(rest, seenEmoji, seenRoles, kept).Fail?
    ensures var e := DedupFrom(rest, seenEmoji, seenRoles, kept).error;
      e.DuplicateEmoji? && exists k :: 0 <= k < |rest| && rest[k].emoji == e.emoji && e.emoji in seenEmoji + EmojiOf(rest[..k])
    decreases |rest|
  {
    assert rest != [];
    var p := rest[0];
    if p.emoji in seenEmoji {
      assert rest[0].emoji == p.emoji;
    } else if p.role.id in seenRoles {
      DedupFromFailure(rest[1..], seenEmoji, seenRoles, kept);
      ShiftWitness(rest, seenEmoji, DedupFrom(rest, seenEmoji, seenRoles, kept).error.emoji);
    } else {
      DedupFromFailure(rest[1..], seenEmoji + {p.emoji}, seenRoles + {p.role.id}, kept + [p]);
      ShiftWitness(rest, seenEmoji, DedupFrom(rest, seenEmoji, seenRoles, kept).error.emoji);
    }
  }

  function EmojiOf(ps: seq<Pair>): set<string>
  {
    set k | 0 <= k < |ps| :: ps[k].emoji
  }

  lemma ShiftWitness(rest: seq<Pair>, seen: set<string>, e: string)
    requires rest != []
    requires exists k :: 0 <= k < |rest[1..]| && rest[1..][k].emoji == e
                         && e in seen + {rest[0].emoji} + EmojiOf(rest[1..][..k])
    ensures exists k :: 0 <= k < |rest| && rest[k].emoji == e && e in seen + EmojiOf(rest[..k])
  {
    var k :| 0 <= k < |rest[1..]| && rest[1..][k].emoji == e
             && e in seen + {rest[0].emoji} + EmojiOf(rest[1..][..k]);
    assert rest[k + 1] == rest[1..][k];
    assert rest[..k + 1][0] == rest[0];
    assert forall m :: 0 <= m < k ==> rest[..k + 1][m + 1] == rest[1..][..k][m];
  }

  /** The result of a successful parse, for either default emoji: at least
      one pair, each emoji and each role once, every role one the bot can
      assign. */
  lemma ParsedPairsAreDistinct(mark: string, g: GuildView, tokens: seq<string>)
    requires mark != []
    requires ParsePairsWith(mark, g, tokens).Ok?
    ensures var ps := ParsePairsWith(mark, g, tokens).value;
      && ps != [] && DistinctEmoji(ps) && DistinctRoles(ps)
      && (forall p :: p in ps ==> Below(p.role, g.botTop.value) && p.emoji != [])
  {
    var st := Scan(mark, g.roles, g.botTop.value, ScanState([], None), tokens).value;
    assert ParsePairsWith(mark, g, tokens) == DedupFrom(st.pairs, {}, {}, []);
    ScanKeepsWellFormed(mark, g.roles, g.botTop.value, ScanState([], None), tokens);
    DedupFromDistinct(st.pairs, {}, {}, []);
    DedupFromSubset(st.pairs, {}, {}, []);
    DedupFromCoversRoles(st.pairs, {}, {}, []);
    assert st.pairs[0] in st.pairs;
  }

  /** A role named twice is kept once, with the first emoji written for
      it; the second mention is dropped without an error. */
  lemma RepeatedRoleIsDropped(e1: string, e2: string, r: Role)
    requires e1 != e2
    ensures Dedup([Pair(e1, r), Pair(e2, r)]) == Ok([Pair(e1, r)])
  {
    var ps := [Pair(e1, r), Pair(e2, r)];
    assert ps[1..] == [Pair(e2, r)];
    assert [Pair(e2, r)][1..] == [];
    var seenE: set<string> := {};
    var seenR: set<int> := {};
    var kept: seq<Pair> := [];
    assert seenE + {e1} == {e1} && seenR + {r.id} == {r.id} && kept + [Pair(e1, r)] == [Pair(e1, r)];
    assert DedupFrom(ps, {}, {}, []) == DedupFrom([Pair(e2, r)], seenE + {e1}, seenR + {r.id}, kept + [Pair(e1, r)]);
    assert DedupFrom([Pair(e2, r)], {e1}, {r.id}, [Pair(e1, r)]) == DedupFrom([], {e1}, {r.id}, [Pair(e1, r)]);
    assert DedupFrom([], {e1}, {r.id}, [Pair(e1, r)]) == Ok([Pair(e1, r)]);
  }

  /** The same emoji for two roles is refused. */
  lemma RepeatedEmojiIsRefused(e: string, r1: Role, r2: Role)
    ensures Dedup([Pair(e, r1), Pair(e, r2)]) == Fail(DuplicateEmoji(e))
  {
    var ps := [Pair(e, r1), Pair(e, r2)];
    assert ps[1..] == [Pair(e, r2)];
    assert DedupFrom(ps, {}, {}, []) == DedupFrom([Pair(e, r2)], {e}, {r1.id}, [Pair(e, r1)]);
  }

  // ----- the default emoji -----

  /** A role mention `<@&1>` names the role with id 1. */
  lemma MentionOfOne()
    ensures RoleIdFromMention("<@&1>") == Some(1)
  {
    MentionRoundTrip(1);
    assert NatToString(1) == "1";
    assert "<@&" + "1" + ">" == "<@&1>";
  }

  lemma MentionOfTwo()
    ensures RoleIdFromMention("<@&2>") == Some(2)
  {
    MentionRoundTrip(2);
    assert NatToString(2) == "2";
    assert "<@&" + "2" + ">" == "<@&2>";
  }

  /** The scan over a token list that starts with a succeeding step. */
  lemma ScanCons(mark: string, roles: seq<Role>, top: Role, st: ScanState, t: string, rest: seq<string>, next: ScanState)
    requires Step(mark, roles, top, st, t) == Ok(next)
    ensures Scan(mark, roles, top, st, [t] + rest) == Scan(mark, roles, top, next, rest)
  {
    assert ([t] + rest)[0] == t && ([t] + rest)[1..] == rest;
  }

  /** De-duplication keeps a pair whose emoji and role are both new. */
  lemma DedupKeeps(rest: seq<Pair>, seenEmoji: set<string>, seenRoles: set<int>, kept: seq<Pair>)
    requires rest != [] && rest[0].emoji !in seenEmoji && rest[0].role.id !in seenRoles
    ensures DedupFrom(rest, seenEmoji, seenRoles, kept)
         == DedupFrom(rest[1..], seenEmoji + {rest[0].emoji}, seenRoles + {rest[0].role.id}, kept + [rest[0]])
  {
  }

  /** A typed check mark is an emoji token, not a role. */
  lemma CheckMarkToken(roles: seq<Role>, top: Role, st: ScanState)
    requires st.pending.None?
    ensures NameOrEmojiStep(roles, top, st, CHECK_MARK) == Ok(ScanState(st.pairs, Some(CHECK_MARK)))
    ensures RoleIdFromMention(CHECK_MARK).None?
  {
    assert Strip(CHECK_MARK) == CHECK_MARK by {
      assert !IsSpace(CHECK_MARK[0]);
      assert StripLeft(CHECK_MARK) == CHECK_MARK;
    }
  }

  /** A token that reads as a role mention is handled as one. */
  lemma StepOfMention(mark: string, roles: seq<Role>, top: Role, st: ScanState, token: string, id: nat)
    requires RoleIdFromMention(token) == Some(id)
    ensures Step(mark, roles, top, st, token) == MentionStep(mark, roles, top, st, token, id)
  {
  }

  /** The first token of the example: the bare role 1 takes `mark`. */
  lemma ExampleFirstStep(mark: string, a: Role, b: Role, top: Role)
    requires a.id == 1 && Below(a, top)
    ensures MentionStep(mark, [a, b], top, ScanState([], None), "<@&1>", 1) == Ok(ScanState([Pair(mark, a)], None))
  {
    assert RoleById([a, b], 1) == Some(a);
    assert [] + [Pair(mark, a)] == [Pair(mark, a)];
  }

  /** The last token of the example: role 2 takes the waiting emoji. */
  lemma ExampleLastStep(mark: string, a: Role, b: Role, top: Role)
    requires a.id == 1 && b.id == 2 && Below(b, top)
    ensures MentionStep(mark, [a, b], top, ScanState([Pair(mark, a)], Some(CHECK_MARK)), "<@&2>", 2)
         == Ok(ScanState([Pair(mark, a), Pair(CHECK_MARK, b)], None))
  {
    assert [a, b][1..] == [b];
    assert RoleById([a, b], 2) == Some(b);
    assert [Pair(mark, a)] + [Pair(CHECK_MARK, b)] == [Pair(mark, a), Pair(CHECK_MARK, b)];
  }

  /** The scan of `<@&1>`, for either default. */
  lemma ExampleScanOne(mark: string, a: Role, b: Role, top: Role)
    requires a.id == 1 && Below(a, top)
    ensures Scan(mark, [a, b], top, ScanState([], None), ["<@&1>"]) == Ok(ScanState([Pair(mark, a)], None))
  {
    var s1 := ScanState([Pair(mark, a)], None);
    MentionOfOne();
    StepOfMention(mark, [a, b], top, ScanState([], None), "<@&1>", 1);
    ExampleFirstStep(mark, a, b, top);
    ScanCons(mark, [a, b], top, ScanState([], None), "<@&1>", [], s1);
    assert ["<@&1>"] + [] == ["<@&1>"];
  }

  /** The scan after the first token of `<@&1> ✅ <@&2>`. */
  lemma ExampleScanRest(mark: string, a: Role, b: Role, top: Role)
    requires a.id == 1 && b.id == 2 && Below(b, top)
    ensures Scan(mark, [a, b], top, ScanState([Pair(mark, a)], None), [CHECK_MARK, "<@&2>"])
         == Ok(ScanState([Pair(mark, a), Pair(CHECK_MARK, b)], None))
  {
    var roles := [a, b];
    var s1 := ScanState([Pair(mark, a)], None);
    var s2 := ScanState(s1.pairs, Some(CHECK_MARK));
    var s3 := ScanState([Pair(mark, a), Pair(CHECK_MARK, b)], None);
    CheckMarkToken(roles, top, s1);
    assert Step(mark, roles, top, s1, CHECK_MARK) == Ok(s2);
    MentionOfTwo();
    StepOfMention(mark, roles, top, s2, "<@&2>", 2);
    ExampleLastStep(mark, a, b, top);
    ScanCons(mark, roles, top, s2, "<@&2>", [], s3);
    ScanCons(mark, roles, top, s1, CHECK_MARK, ["<@&2>"], s2);
    assert [CHECK_MARK] + ["<@&2>"] == [CHECK_MARK, "<@&2>"];
    assert ["<@&2>"] + [] == ["<@&2>"];
  }

  /** The scans of `<@&1>` and of `<@&1> ✅ <@&2>`, for either default. */
  lemma ExampleScans(mark: string, a: Role, b: Role, top: Role)
    requires a.id == 1 && b.id == 2 && Below(a, top) && Below(b, top)
    ensures Scan(mark, [a, b], top, ScanState([], None), ["<@&1>"]) == Ok(ScanState([Pair(mark, a)], None))
    ensures Scan(mark, [a, b], top, ScanState([], None), ["<@&1>", CHECK_MARK, "<@&2>"])
         == Ok(ScanState([Pair(mark, a), Pair(CHECK_MARK, b)], None))
  {
    var s1 := ScanState([Pair(mark, a)], None);
    ExampleScanOne(mark, a, b, top);
    ExampleScanRest(mark, a, b, top);
    MentionOfOne();
    StepOfMention(mark, [a, b], top, ScanState([], None), "<@&1>", 1);
    ExampleFirstStep(mark, a, b, top);
    ScanCons(mark, [a, b], top, ScanState([], None), "<@&1>", [CHECK_MARK, "<@&2>"], s1);
    assert ["<@&1>"] + [CHECK_MARK, "<@&2>"] == ["<@&1>", CHECK_MARK, "<@&2>"];
  }

  /** A single pair is kept as it is. */
  lemma DedupOne(p: Pair)
    ensures Dedup([p]) == Ok([p])
  {
    DedupKeeps([p], {}, {}, []);
    assert [p][1..] == [] && [] + [p] == [p];
  }

  /** Two pairs with different emoji and roles are kept as they are. */
  lemma DedupTwo(p: Pair, q: Pair)
    requires p.emoji != q.emoji && p.role.id != q.role.id
    ensures Dedup([p, q]) == Ok([p, q])
  {
    DedupKeeps([p, q], {}, {}, []);
    assert [p, q][1..] == [q] && [] + [p] == [p];
    DedupKeeps([q], {p.emoji}, {p.role.id}, [p]);
    assert [q][1..] == [] && [p] + [q] == [p, q];
  }

  /** As the source file spells it, a bare first role is paired with the
      three characters `SOURCE_CHECK_MARK`, which is not the check mark a
      member can react with, and a check mark typed for the second role
      does not collide with it. */
  lemma DefaultEmojiAsWritten(a: Role, b: Role, top: Role)
    requires a.id == 1 && b.id == 2 && Below(a, top) && Below(b, top)
    ensures SOURCE_CHECK_MARK != CHECK_MARK
    ensures ParsePairsAsWritten(GuildView([a, b], Some(top)), ["<@&1>"]) == Ok([Pair(SOURCE_CHECK_MARK, a)])
    ensures ParsePairsAsWritten(GuildView([a, b], Some(top)), ["<@&1>", CHECK_MARK, "<@&2>"])
         == Ok([Pair(SOURCE_CHECK_MARK, a), Pair(CHECK_MARK, b)])
  {
    assert SOURCE_CHECK_MARK[0] != CHECK_MARK[0];
    ExampleScans(SOURCE_CHECK_MARK, a, b, top);
    DedupOne(Pair(SOURCE_CHECK_MARK, a));
    DedupTwo(Pair(SOURCE_CHECK_MARK, a), Pair(CHECK_MARK, b));
  }

  /** As intended, a bare first role is paired with the check mark, so a
      check mark typed again for the second role is a duplicate. */
  lemma DefaultEmojiIsCheckMark(a: Role, b: Role, top: Role)
    requires a.id == 1 && b.id == 2 && Below(a, top) && Below(b, top)
    ensures ParsePairs(GuildView([a, b], Some(top)), ["<@&1>"]) == Ok([Pair(CHECK_MARK, a)])
    ensures ParsePairs(GuildView([a, b], Some(top)), ["<@&1>", CHECK_MARK, "<@&2>"])
         == Fail(DuplicateEmoji(CHECK_MARK))
  {
    ExampleScans(CHECK_MARK, a, b, top);
    DedupOne(Pair(CHECK_MARK, a));
    RepeatedEmojiIsRefused(CHECK_MARK, a, b);
  }

  // ----- the loops of the source -----

  /** The token loop of `_parse_multi_verify_pairs` followed by its
      de-duplication loop, with the intended default emoji. */
  method ParseMultiVerifyPairs(g: GuildView, tokens: seq<string>) returns (r: Outcome<seq<Pair>>)
    ensures r == ParsePairs(g, tokens)
  {
    if tokens == [] {
      return Fail(Usage);
    }
    if g.botTop.None? {
      return Fail(NoBotMember);
    }
    var top := g.botTop.value;
    var pairs: seq<Pair> := [];
    var pending: Option<string> := None;
    var i := 0;
    while i < |tokens|
      invariant 0 <= i <= |tokens|
      invariant Scan(CHECK_MARK, g.roles, top, ScanState([], None), tokens) == Scan(CHECK_MARK, g.roles, top, ScanState(pairs, pending), tokens[i..])
    {
      var step := Step(CHECK_MARK, g.roles, top, ScanState(pairs, pending), tokens[i]);
      assert tokens[i..][1..] == tokens[i + 1..];
      if step.Fail? {
        return Fail(step.error);
      }
      pairs, pending := step.value.pairs, step.value.pending;
      i := i + 1;
    }
    if pending.Some? {
      return Fail(DanglingEmoji(pending.value));
    }
    if pairs == [] {
      return Fail(NoPairs);
    }
    r := DedupPairs(pairs);
  }

  /** The de-duplication loop over the parsed pairs. */
  method DedupPairs(pairs: seq<Pair>) returns (r: Outcome<seq<Pair>>)
    ensures r == Dedup(pairs)
  {
    var seenEmoji: set<string> := {};
    var seenRoles: set<int> := {};
    var kept: seq<Pair> := [];
    var i := 0;
    while i < |pairs|
      invariant 0 <= i <= |pairs|
      invariant Dedup(pairs) == DedupFrom(pairs[i..], seenEmoji, seenRoles, kept)
    {
      assert pairs[i..][1..] == pairs[i + 1..];
      var p := pairs[i];
      if p.emoji in seenEmoji {
        return Fail(DuplicateEmoji(p.emoji));
      }
      if p.role.id !in seenRoles {
        seenEmoji := seenEmoji + {p.emoji};
        seenRoles := seenRoles + {p.role.id};
        kept := kept + [p];
      }
      i := i + 1;
    }
    r := Ok(kept);
  }
}
