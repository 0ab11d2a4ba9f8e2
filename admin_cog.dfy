/** The moderation cog: the in-voice guard of the voice moderation
    commands, the bulk mute and unmute counters, `unban` by id or name,
    the `clear` cap, the role-hierarchy guard of `addrole`/`removerole` and
    the adjustable command limits behind `setlimit`. Discord's calls are
    modelled by their effect on member records; whether each call succeeds
    is an input. */
module AdminCog {
  import opened Wrappers
  import opened Text
  import opened AuthData
  import opened AuthSetupVerify

  // ---------------------------------------------------------------------
  // Voice moderation

  /** A member's voice state: the channel and the server mute and deafen
      flags; `None` when the member is not in voice. */
  datatype VoiceState = VoiceState(channel: int, mute: bool, deaf: bool)

  datatype VoiceAction =
    | KickVoice
    | MoveTo(channel: int)
    | Mute
    | Unmute
    | Deafen
    | Undeafen

  datatype VoiceReply = NotInVoice | Applied(after: Option<VoiceState>)

  /** `kick_voice`, `move`, `mute`, `unmute`, `deafen`, `undeafen`: each
      refuses a member who is not in voice; otherwise kicking disconnects
      the member and the others change one field of the voice state. */
  function ApplyVoice(action: VoiceAction, voice: Option<VoiceState>): (r: VoiceReply)
    ensures r.NotInVoice? <==> voice.None?
    ensures r.Applied? ==> (r.after.None? <==> action.KickVoice?)
    ensures r.Applied? && r.after.Some? ==>
      (r.after.value.channel == if action.MoveTo? then action.channel else voice.value.channel)
    ensures r.Applied? && r.after.Some? ==>
      (r.after.value.mute == if action.Mute? then true else if action.Unmute? then false else voice.value.mute)
    ensures r.Applied? && r.after.Some? ==>
      (r.after.value.deaf == if action.Deafen? then true else if action.Undeafen? then false else voice.value.deaf)
  {
    if voice.None? then NotInVoice
    else
      var v := voice.value;
      match action
      case KickVoice => Applied(None)
      case MoveTo(c) => Applied(Some(v.(channel := c)))
      case Mute => Applied(Some(v.(mute := true)))
      case Unmute => Applied(Some(v.(mute := false)))
      case Deafen => Applied(Some(v.(deaf := true)))
      case Undeafen => Applied(Some(v.(deaf := false)))
  }

  /** Unmuting a member just muted, or undeafening one just deafened,
      restores the state the member had when the flag was clear. */
  lemma MuteThenUnmute(v: VoiceState)
    ensures ApplyVoice(Unmute, ApplyVoice(Mute, Some(v)).after) == Applied(Some(v.(mute := false)))
    ensures ApplyVoice(Undeafen, ApplyVoice(Deafen, Some(v)).after) == Applied(Some(v.(deaf := false)))
  {
  }

  /** A member kicked from voice is no longer a target of any voice
      command. */
  lemma KickedMemberIsRefused(v: VoiceState, next: VoiceAction)
    ensures ApplyVoice(next, ApplyVoice(KickVoice, Some(v)).after) == NotInVoice
  {
  }

  // ---------------------------------------------------------------------
  // muteall / unmuteall

  /** A member of the author's voice channel, with the outcome the
      `member.edit` call would have for it. */
  datatype ChannelMember = ChannelMember(id: int, bot: bool, mute: bool, editSucceeds: bool)

  /** The members `muteall` mutes: humans whose edit succeeds. */
  predicate MutedByMuteAll(m: ChannelMember) {
    !m.bot && m.editSucceeds
  }

  /** The members `muteall` reports. */
  function MuteAllCount(ms: seq<ChannelMember>): nat {
    if ms == [] then 0 else (if MutedByMuteAll(ms[0]) then 1 else 0) + MuteAllCount(ms[1..])
  }

  /** The members `unmuteall` reports: every member whose edit succeeds,
      bots included. */
  function UnmuteAllCount(ms: seq<ChannelMember>): nat {
    if ms == [] then 0 else (if ms[0].editSucceeds then 1 else 0) + UnmuteAllCount(ms[1..])
  }

  function HumanCount(ms: seq<ChannelMember>): nat {
    if ms == [] then 0 else (if ms[0].bot then 0 else 1) + HumanCount(ms[1..])
  }

  datatype BulkReply = AuthorNotInVoice | Counted(count: nat)

  /** `muteall`: refused when the author is not in voice; otherwise every
      human of the author's channel whose edit succeeds is muted and
      counted, and the others are left as they were. */
  method MuteAll(channel: Option<seq<ChannelMember>>) returns (r: BulkReply, after: seq<ChannelMember>)
    ensures channel.None? ==> r == AuthorNotInVoice && after == []
    ensures channel.Some? ==> r == Counted(MuteAllCount(channel.value))
    ensures channel.Some? ==> |after| == |channel.value|
    ensures channel.Some? ==> forall i :: 0 <= i < |after| ==>
      after[i] == if MutedByMuteAll(channel.value[i]) then channel.value[i].(mute := true) else channel.value[i]
  {
    if channel.None? {
      return AuthorNotInVoice, [];
    }
    var ms := channel.value;
    var count := 0;
    after := [];
    var i := 0;
    while i < |ms|
      invariant 0 <= i <= |ms|
      invariant count + MuteAllCount(ms[i..]) == MuteAllCount(ms)
      invariant |after| == i
      invariant forall k :: 0 <= k < i ==>
        after[k] == if MutedByMuteAll(ms[k]) then ms[k].(mute := true) else ms[k]
    {
      assert ms[i..][1..] == ms[i + 1..];
      var m := ms[i];
      if !m.bot {
        if m.editSucceeds {
          m := m.(mute := true);
          count := count + 1;
        }
      }
      after := after + [m];
      i := i + 1;
    }
    r := Counted(count);
  }

  /** `unmuteall`: refused when the author is not in voice; otherwise every
      member whose edit succeeds, bots included, is unmuted and counted. */
  method UnmuteAll(channel: Option<seq<ChannelMember>>) returns (r: BulkReply, after: seq<ChannelMember>)
    ensures channel.None? ==> r == AuthorNotInVoice && after == []
    ensures channel.Some? ==> r == Counted(UnmuteAllCount(channel.value))
    ensures channel.Some? ==> |after| == |channel.value|
    ensures channel.Some? ==> forall i :: 0 <= i < |after| ==>
      after[i] == if channel.value[i].editSucceeds then channel.value[i].(mute := false) else channel.value[i]
  {
    if channel.None? {
      return AuthorNotInVoice, [];
    }
    var ms := channel.value;
    var count := 0;
    after := [];
    var i := 0;
    while i < |ms|
      invariant 0 <= i <= |ms|
      invariant count + UnmuteAllCount(ms[i..]) == UnmuteAllCount(ms)
      invariant |after| == i
      invariant forall k :: 0 <= k < i ==>
        after[k] == if ms[k].editSucceeds then ms[k].(mute := false) else ms[k]
    {
      assert ms[i..][1..] == ms[i + 1..];
      var m := ms[i];
      if m.editSucceeds {
        m := m.(mute := false);
        count := count + 1;
      }
      after := after + [m];
      i := i + 1;
    }
    r := Counted(count);
  }

  /** `muteall` never reports more members than the channel has humans,
      and `unmuteall` on the same outcomes reports at least as many as
      `muteall`, bots being counted too. */
  lemma {:induction false} BulkCountsCompare(ms: seq<ChannelMember>)
    ensures MuteAllCount(ms) <= HumanCount(ms)
    ensures MuteAllCount(ms) <= UnmuteAllCount(ms)
    decreases |ms|
  {
    if ms != [] {
      BulkCountsCompare(ms[1..]);
    }
  }

  /** When every edit succeeds, `muteall` reports exactly the humans. */
  lemma {:induction false} MuteAllCountsEveryHuman(ms: seq<ChannelMember>)
    requires forall i :: 0 <= i < |ms| ==> ms[i].editSucceeds
    ensures MuteAllCount(ms) == HumanCount(ms)
    ensures UnmuteAllCount(ms) == |ms|
    decreases |ms|
  {
    if ms != [] {
      MuteAllCountsEveryHuman(ms[1..]);
    }
  }

  // ---------------------------------------------------------------------
  // unban

  datatype BannedUser = BannedUser(id: nat, name: string)

  /** Whether a ban entry answers to the argument: its id in decimal, or
      its name ignoring case. */
  predicate AnswersTo(u: BannedUser, arg: string) {
    NatToString(u.id) == arg || Lower(u.name) == Lower(arg)
  }

  /** `unban`: the first ban entry that answers to the argument, or none
      ("not found"). */
  function FindBanned(bans: seq<BannedUser>, arg: string): (r: Option<nat>)
    ensures r.Some? ==> r.value < |bans| && AnswersTo(bans[r.value], arg)
    ensures r.Some? ==> forall k :: 0 <= k < r.value ==> !AnswersTo(bans[k], arg)
    ensures r.None? ==> forall k :: 0 <= k < |bans| ==> !AnswersTo(bans[k], arg)
  {
    if bans == [] then None
    else if AnswersTo(bans[0], arg) then Some(0)
    else match FindBanned(bans[1..], arg)
      case None => None
      case Some(k) => Some(k + 1)
  }

  /** Given a banned user's id, `unban` lifts that user's ban unless an
      earlier entry's name is, ignoring case, the same digits. */
  lemma UnbanById(bans: seq<BannedUser>, k: nat)
    requires k < |bans|
    requires forall j :: 0 <= j < k ==> Lower(bans[j].name) != Lower(NatToString(bans[k].id))
    requires forall j :: 0 <= j < |bans| && j != k ==> bans[j].id != bans[k].id
    ensures FindBanned(bans, NatToString(bans[k].id)) == Some(k)
  {
    var arg := NatToString(bans[k].id);
    forall j | 0 <= j < k
      ensures !AnswersTo(bans[j], arg)
    {
      NatToStringInjective(bans[j].id, bans[k].id);
    }
    var r := FindBanned(bans, arg);
    assert !(r.Some? && r.value < k);
    assert !(r.Some? && r.value > k);
  }

  // ---------------------------------------------------------------------
  // clear

  const CLEAR_CAP := 100
  const CLEAR_DEFAULT := 5

  datatype Cleared = Cleared(limit: int, deleted: nat, reported: int)

  /** `clear`: the amount is capped at 100 and one more message (the
      command itself, the newest of the `available` messages) is purged;
      the reply counts the purged messages less that one. A limit below one
      purges nothing. */
  function Clear(amount: int, available: nat): (r: Cleared)
    ensures r.limit == Min(amount, CLEAR_CAP) + 1
    ensures r.deleted <= available
    ensures r.limit >= 1 ==> r.deleted == Min(r.limit, available)
    ensures r.limit < 1 ==> r.deleted == 0
    ensures r.reported == r.deleted - 1
  {
    var a := Min(amount, CLEAR_CAP);
    var limit := a + 1;
    var deleted := if limit < 1 then 0 else Min(limit, available);
    Cleared(limit, deleted, deleted - 1)
  }

  /** The reply never claims more than 100 messages; with the command
      message present and enough history, it reports exactly the capped
      amount. */
  lemma ClearReportsCappedAmount(amount: int, available: nat)
    requires available >= 1
    ensures Clear(amount, available).reported <= CLEAR_CAP
    ensures 0 <= amount && Min(amount, CLEAR_CAP) < available ==>
      Clear(amount, available).reported == Min(amount, CLEAR_CAP)
    ensures Clear(amount, available).reported >= -1
  {
  }

  /** A negative amount purges nothing and the reply says -1 messages. */
  lemma NegativeClearReportsMinusOne(amount: int, available: nat)
    requires amount < 0
    ensures Clear(amount, available).deleted == 0 && Clear(amount, available).reported == -1
  {
  }

  // ---------------------------------------------------------------------
  // addrole / removerole

  /** `top_role <= role` on Discord roles: the role is not below the
      author's top role. */
  predicate AtMost(top: Role, role: Role) {
    !Below(role, top)
  }

  /** The guard of both commands: refused when the role is not below the
      author's top role, unless the author owns the guild. */
  predicate RoleChangeRefused(authorTop: Role, authorId: int, guildOwnerId: int, role: Role) {
    AtMost(authorTop, role) && authorId != guildOwnerId
  }

  datatype RoleReply = Refused | Changed(roles: set<int>)

  /** `addrole` (`add` true) and `removerole` (`add` false) on the target
      member's role ids. */
  function ChangeRole(add: bool, authorTop: Role, authorId: int, guildOwnerId: int,
                      role: Role, memberRoles: set<int>): (r: RoleReply)
    ensures r.Refused? <==> RoleChangeRefused(authorTop, authorId, guildOwnerId, role)
    ensures r.Changed? && add ==> r.roles == memberRoles + {role.id}
    ensures r.Changed? && !add ==> r.roles == memberRoles - {role.id}
  {
    if RoleChangeRefused(authorTop, authorId, guildOwnerId, role) then Refused
    else if add then Changed(memberRoles + {role.id})
    else Changed(memberRoles - {role.id})
  }

  /** The guard lets through exactly the guild owner and authors whose top
      role is strictly above the role; in particular nobody but the owner
      may hand out or take away their own top role. */
  lemma RoleGuardIsStrict(authorTop: Role, authorId: int, guildOwnerId: int, role: Role)
    ensures !RoleChangeRefused(authorTop, authorId, guildOwnerId, role) <==>
      authorId == guildOwnerId || Below(role, authorTop)
    ensures authorId != guildOwnerId ==> RoleChangeRefused(authorTop, authorId, guildOwnerId, authorTop)
  {
  }

  /** Adding a role and then removing it leaves the member without it and
      with every other role as before. */
  lemma AddThenRemove(authorTop: Role, authorId: int, guildOwnerId: int, role: Role, memberRoles: set<int>)
    requires !RoleChangeRefused(authorTop, authorId, guildOwnerId, role)
    ensures var added := ChangeRole(true, authorTop, authorId, guildOwnerId, role, memberRoles).roles;
      ChangeRole(false, authorTop, authorId, guildOwnerId, role, added).roles == memberRoles - {role.id}
  {
  }

  // ---------------------------------------------------------------------
  // setlimit

  const LIMIT_KEYS: set<string> := {"spam_max", "spamping_max", "troll_moves", "scramble_max"}

  /** The limits the cog starts with. */
  const DEFAULT_LIMITS: map<string, int> :=
    map["spam_max" := 6, "spamping_max" := 200, "troll_moves" := 4, "scramble_max" := 15]

  datatype LimitReply = Listed(limits: map<string, int>) | UnknownKey | NotPositive | SetTo(key: string, value: int)

  /** The limits `setlimit` keeps and the troll commands read. */
  class Limits {
    var limits: map<string, int>

    /** The four known keys, each with a positive limit. */
    ghost predicate Valid()
      reads this
    {
      (forall k :: k in limits <==> k in LIMIT_KEYS)
      && (forall k :: k in limits ==> limits[k] >= 1)
    }

    constructor()
      ensures Valid() && limits == DEFAULT_LIMITS
    {
      limits := DEFAULT_LIMITS;
    }

    /** `setlimit`: with no key the limits are listed; the key is
        lower-cased and must be known; the value must be given and at least
        one; then that one limit is set and no other changes. */
    method SetLimit(key: Option<string>, value: Option<int>) returns (r: LimitReply)
      requires Valid()
      modifies this
      ensures Valid()
      ensures (key.None? || key.value == []) ==> r == Listed(old(limits)) && limits == old(limits)
      ensures key.Some? && key.value != [] && Lower(key.value) !in old(limits) ==>
        r == UnknownKey && limits == old(limits)
      ensures (key.Some? && key.value != [] && Lower(key.value) in old(limits)
               && (value.None? || value.value < 1)) ==> r == NotPositive && limits == old(limits)
      ensures (key.Some? && key.value != [] && Lower(key.value) in old(limits)
               && value.Some? && value.value >= 1) ==>
        r == SetTo(Lower(key.value), value.value) && limits == old(limits)[Lower(key.value) := value.value]
    {
      if key.None? || key.value == [] {
        return Listed(limits);
      }
      var k := Lower(key.value);
      if k !in limits {
        return UnknownKey;
      }
      if value.None? || value.value < 1 {
        return NotPositive;
      }
      limits := limits[k := value.value];
      r := SetTo(k, value.value);
    }
  }

  /** `setlimit` is one of the commands only bot admins may run when no
      override exists: the global check refuses it to everyone else. */
  lemma SetLimitIsAdminOnly(d: Data, owner: int, onlyMe: Option<int>, ctx: Context)
    requires ctx.command == Some(Command("setlimit", "setlimit")) && ctx.guild.Some?
    requires GetCommandOverride(d, ctx.guild.value.key, "setlimit").NoOverride?
    requires !IsAdmin(d, owner, ctx.author)
    ensures !GlobalCheck(d, owner, onlyMe, ctx)
  {
    assert "setlimit" in ADMIN_COMMANDS;
  }
}
