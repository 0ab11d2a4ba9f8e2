/** The legacy single-file entrypoint `app.py`: module globals for the voice
    owner, the ignore list and the text lock; a speech sink that buffers PCM
    per speaker; an audio loop that cuts a segment after 0.6 s of silence,
    gates it on length and loudness, requires a wake phrase in the
    transcript and runs the first matching voice command; the AI fallback
    chain; the text-lock gate on commands; and the pure text commands. */
module App {
  import opened Wrappers
  import opened Text
  import VoiceSink

  // ---------------------------------------------------------------------
  // Speakers, owner and the frame filter of `SpeechSink.write`
  // ---------------------------------------------------------------------

  /** `user.id if user else "unknown"`. */
  datatype Uid = User(id: int) | Unknown

  /** `OWNER_ID` is tested by truthiness: `None` and `0` both mean "no owner". */
  predicate HasOwner(owner: Option<int>) {
    owner.Some? && owner.value != 0
  }

  /** The guards at the top of `write`, in source order. */
  predicate KeepsFrame(listening: bool, ignored: set<int>, owner: Option<int>, user: Uid, pcm: seq<byte>) {
    listening && pcm != []
    && !(user.User? && user.id in ignored)
    && !(HasOwner(owner) && user != User(owner.value))
  }

  /** With an owner set, only the owner's frames are kept; a frame without a
      user is never kept then. */
  lemma OwnerHearsOnlyOwner(listening: bool, ignored: set<int>, owner: Option<int>, user: Uid, pcm: seq<byte>)
    requires HasOwner(owner)
    ensures KeepsFrame(listening, ignored, owner, user, pcm) ==> user == User(owner.value)
    ensures !KeepsFrame(listening, ignored, owner, Unknown, pcm)
  {
  }

  /** After `reset` (no owner, nobody ignored) every non-empty frame is kept
      while listening; an ignored user is never kept. */
  lemma FrameFilterCases(listening: bool, ignored: set<int>, owner: Option<int>, user: Uid, pcm: seq<byte>)
    ensures (listening && pcm != [] && ignored == {} && owner == None) ==> KeepsFrame(listening, ignored, owner, user, pcm)
    ensures (user.User? && user.id in ignored) ==> !KeepsFrame(listening, ignored, owner, user, pcm)
  {
  }

  // ---------------------------------------------------------------------
  // Module globals and the commands that change them
  // ---------------------------------------------------------------------

  /** The command author: an id and, inside a guild, whether they have the
      administrator permission and the id of the guild's owner. In a direct
      message there are no guild permissions. */
  datatype Perms = Perms(admin: bool, guildOwner: int)
  datatype Author = Author(id: int, perms: Option<Perms>)

  /** `is_admin or is_server_owner` as `onlyme_command_gate` computes them:
      both are false outside a guild. */
  predicate GuildAdminOrOwner(a: Author) {
    a.perms.Some? && (a.perms.value.admin || a.id == a.perms.value.guildOwner)
  }

  datatype Outcome = Done | Refused | Raised

  /** Who may lift the text lock in `openall`. */
  predicate CanUnlock(lock: Option<int>, a: Author) {
    lock.None? || a.id == lock.value || GuildAdminOrOwner(a)
  }

  /** The `bot.check` run before every command: everything passes with no
      lock; with a lock only the lock owner passes, except that `openall` by
      an administrator or the server owner passes too. */
  function CommandGate(lock: Option<int>, a: Author, command: string): (allowed: bool)
    ensures lock.None? ==> allowed
    ensures lock.Some? && a.id == lock.value ==> allowed
    ensures lock.Some? && a.id != lock.value ==> (allowed <==> command == "openall" && GuildAdminOrOwner(a))
  {
    if lock.None? then true
    else if a.id == lock.value then true
    else command == "openall" && GuildAdminOrOwner(a)
  }

  /** Under a lock, the gate lets `openall` through exactly for the callers
      that `openall` then accepts, so a permitted unlock is never blocked by
      the gate and the gate admits nobody `openall` refuses. */
  lemma GateAgreesWithOpenAll(lock: Option<int>, a: Author)
    requires lock.Some?
    ensures CommandGate(lock, a, "openall") <==> CanUnlock(lock, a)
  {
  }

  /** A locked bot refuses every other command of every other user. */
  lemma LockRefusesOthers(lock: Option<int>, a: Author, command: string)
    requires lock.Some? && a.id != lock.value && command != "openall"
    ensures !CommandGate(lock, a, command)
  {
  }

  class Globals {
    /** `OWNER_ID`: the speaker the sink listens to exclusively. */
    var ownerId: Option<int>
    /** `LISTENING_MODE`: set at start-up and never reassigned. */
    var listening: bool
    /** `IGNORED_USERS`. */
    var ignored: set<int>
    /** `TEXT_ONLY_ME_USER_ID`: the text lock. */
    var textLock: Option<int>

    constructor()
      ensures ownerId == None && listening && ignored == {} && textLock == None
    {
      ownerId := None;
      listening := true;
      ignored := {};
      textLock := None;
    }

    /** `claim`: the author becomes the voice owner. */
    method Claim(author: int)
      modifies this
      ensures ownerId == Some(author)
      ensures listening == old(listening) && ignored == old(ignored) && textLock == old(textLock)
    {
      ownerId := Some(author);
    }

    /** `ignore` */
    method Ignore(member: int)
      modifies this
      ensures ignored == old(ignored) + {member}
      ensures ownerId == old(ownerId) && listening == old(listening) && textLock == old(textLock)
    {
      ignored := ignored + {member};
    }

    /** `unignore`: `discard`, so an id that is not ignored is no error. */
    method Unignore(member: int)
      modifies this
      ensures ignored == old(ignored) - {member}
      ensures ownerId == old(ownerId) && listening == old(listening) && textLock == old(textLock)
    {
      ignored := ignored - {member};
    }

    /** `reset`: no owner and nobody ignored. */
    method Reset()
      modifies this
      ensures ownerId == None && ignored == {}
      ensures listening == old(listening) && textLock == old(textLock)
    {
      ownerId := None;
      ignored := {};
    }

    /** `onlyme`: an administrator or the server owner takes the text lock.
        Outside a guild the permission lookup raises and nothing changes. */
    method OnlyMe(a: Author) returns (outcome: Outcome)
      modifies this
      ensures a.perms.None? ==> outcome == Raised
      ensures a.perms.Some? ==> (outcome == Done <==> GuildAdminOrOwner(a))
      ensures outcome == Done ==> textLock == Some(a.id)
      ensures outcome != Done ==> textLock == old(textLock)
      ensures ownerId == old(ownerId) && listening == old(listening) && ignored == old(ignored)
    {
      if a.perms.None? {
        return Raised;
      }
      if !GuildAdminOrOwner(a) {
        return Refused;
      }
      textLock := Some(a.id);
      outcome := Done;
    }

    /** `openall`: with no lock it simply clears the (absent) lock; with a
        lock, the lock owner, an administrator or the server owner clears
        it. The permission lookup raises outside a guild once the caller is
        not the lock owner. */
    method OpenAll(a: Author) returns (outcome: Outcome)
      modifies this
      ensures outcome == Done <==> CanUnlock(old(textLock), a)
      ensures outcome == Raised <==> old(textLock).Some? && a.id != old(textLock).value && a.perms.None?
      ensures outcome == Done ==> textLock == None
      ensures outcome != Done ==> textLock == old(textLock)
      ensures ownerId == old(ownerId) && listening == old(listening) && ignored == old(ignored)
    {
      if textLock.Some? && a.id != textLock.value {
        if a.perms.None? {
          return Raised;
        }
        if !GuildAdminOrOwner(a) {
          return Refused;
        }
      }
      textLock := None;
      outcome := Done;
    }
  }

  // ---------------------------------------------------------------------
  // Text messages
  // ---------------------------------------------------------------------

  /** `re.sub(rf"<@!?{user_id}>", "", text)`: every mention of the bot, in
      either form, is removed in one left-to-right pass. */
  function RemoveMentions(s: string, id: string): (r: string)
    ensures |r| <= |s|
    decreases |s|
  {
    if StartsWith(s, "<@" + id + ">") then RemoveMentions(s[|id| + 3..], id)
    else if StartsWith(s, "<@!" + id + ">") then RemoveMentions(s[|id| + 4..], id)
    else if s == [] then []
    else [s[0]] + RemoveMentions(s[1..], id)
  }

  /** `_strip_bot_mentions` */
  function StripBotMentions(text: string, botId: nat): string {
    Strip(RemoveMentions(text, NatToString(botId)))
  }

  /** Text without a `<` carries no mention and is kept as it is. */
  lemma {:induction false} NoMentionKept(s: string, id: string)
    requires '<' !in s
    ensures RemoveMentions(s, id) == s
    decreases |s|
  {
    if s != [] {
      assert !StartsWith(s, "<@" + id + ">") && !StartsWith(s, "<@!" + id + ">") by {
        assert s[0] != '<';
      }
      NoMentionKept(s[1..], id);
    }
  }

  /** A leading mention of the bot, in either form, is dropped and the rest
      is cleaned as if it stood alone. */
  lemma LeadingMentionDropped(id: string, rest: string, bang: bool)
    requires id != [] && forall i :: 0 <= i < |id| ==> IsDigit(id[i])
    ensures RemoveMentions((if bang then "<@!" else "<@") + id + ">" + rest, id) == RemoveMentions(rest, id)
  {
    var m := (if bang then "<@!" else "<@") + id + ">";
    var s := m + rest;
    assert s[..|m|] == m && s[|m|..] == rest;
    if !bang {
      assert StartsWith(s, "<@" + id + ">");
    } else {
      assert s[2] == '!';
      assert !StartsWith(s, "<@" + id + ">") by {
        assert ("<@" + id + ">")[2] == id[0];
        assert IsDigit(id[0]);
      }
      assert StartsWith(s, "<@!" + id + ">");
    }
  }

  /** A message that is just a mention of the bot leaves no text, so
      `on_message` answers nothing. */
  lemma BareMentionIsEmpty(botId: nat, bang: bool)
    ensures StripBotMentions((if bang then "<@!" else "<@") + NatToString(botId) + ">", botId) == []
  {
    var m := (if bang then "<@!" else "<@") + NatToString(botId) + ">";
    LeadingMentionDropped(NatToString(botId), [], bang);
    assert m + [] == m;
  }

  /** A message as `on_message` sees it. */
  datatype Message = Message(authorId: int, content: string, mentionsBot: bool)

  /** What `on_message` does with a message. */
  datatype Route = OwnMessage | Forward(content: string) | Command | Ignored | Chat(text: string)

  const SEND_PREFIX := "!send "
  const COMMAND_PREFIX := "!"

  /** `on_message` */
  function RouteMessage(m: Message, botId: nat, lock: Option<int>): (r: Route)
    ensures r.Chat? ==> m.mentionsBot && (lock.None? || m.authorId == lock.value)
    ensures r.Chat? ==> r.text == StripBotMentions(m.content, botId) && r.text != []
    ensures r.Forward? ==> |m.content| >= 6 && r.content == Strip(m.content[6..])
    ensures m.authorId != botId && StartsWith(m.content, COMMAND_PREFIX) ==> r.Forward? || r.Command?
  {
    if m.authorId == botId then OwnMessage
    else if StartsWith(m.content, SEND_PREFIX) then Forward(Strip(m.content[6..]))
    else if StartsWith(m.content, COMMAND_PREFIX) then Command
    else if !m.mentionsBot then Ignored
    else if lock.Some? && m.authorId != lock.value then Ignored
    else
      var clean := StripBotMentions(m.content, botId);
      if clean == [] then Ignored else Chat(clean)
  }

  /** Under the text lock, a mention from anyone but the lock owner gets no
      reply; commands still reach the command gate. */
  lemma LockSilencesMentions(m: Message, botId: nat, lock: Option<int>)
    requires lock.Some? && m.authorId != lock.value
    ensures !RouteMessage(m, botId, lock).Chat?
  {
  }

  // ---------------------------------------------------------------------
  // Segments: the silence cut and the loudness gate
  // ---------------------------------------------------------------------

  /** 0.6 s of silence, in milliseconds. */
  const SILENCE_MS := 600
  /** Shortest segment kept, in bytes. */
  const MIN_SEGMENT := 20000
  /** Loudness threshold of the RMS test. */
  const MIN_RMS := 100

  /** What happens to a cut segment before recognition: too short, a length
      `struct.unpack` refuses (the error is raised outside the `try` and ends
      the audio loop), too quiet, or passed on. */
  datatype Gate = TooShort | Unpackable | Quiet | Accepted

  function SegmentGate(seg: seq<byte>): (g: Gate)
    ensures g == Accepted ==> |seg| >= MIN_SEGMENT && |seg| % 2 == 0
    ensures |seg| < MIN_SEGMENT <==> g == TooShort
  {
    if |seg| < MIN_SEGMENT then TooShort
    else if |seg| % 2 != 0 then Unpackable
    else if VoiceSink.SumSquares(seg) < MIN_RMS * MIN_RMS * VoiceSink.SampleCount(seg) then Quiet
    else Accepted
  }

  /** The squared comparison is `sqrt(sum / count) >= 100` for the real root
      of the mean square. */
  lemma AcceptedIffLoud(seg: seq<byte>, rms: real)
    requires |seg| >= MIN_SEGMENT && |seg| % 2 == 0
    requires rms >= 0.0
    requires rms * rms * (VoiceSink.SampleCount(seg) as real) == VoiceSink.SumSquares(seg) as real
    ensures SegmentGate(seg) == Accepted <==> rms >= MIN_RMS as real
  {
    VoiceSink.SquaredCompare(VoiceSink.SumSquares(seg), VoiceSink.SampleCount(seg), MIN_RMS, rms);
  }

  /** One speaker's entry of `user_data`: the buffer and the time of the
      last kept frame. */
  datatype Entry = Entry(buf: seq<byte>, last: int)

  /** A speaker whose buffer is due: non-empty and silent for more than
      0.6 s. */
  predicate Ready(e: Entry, now: int) {
    |e.buf| > 0 && now - e.last > SILENCE_MS
  }

  function BufferOf(data: map<Uid, Entry>, u: Uid): seq<byte> {
    if u in data then data[u].buf else []
  }

  predicate DistinctUids(us: seq<Uid>) {
    forall i, j :: 0 <= i < j < |us| ==> us[i] != us[j]
  }

  predicate EvenBuffers(data: map<Uid, Entry>) {
    forall u :: u in data ==> |data[u].buf| % 2 == 0
  }

  // ---------------------------------------------------------------------
  // Wake phrase and voice commands
  // ---------------------------------------------------------------------

  const WAKE_WORDS: seq<string> := ["manga", "mango", "hey manga", "ok manga", "okay manga"]

  /** The first phrase of `ws` that `t` starts with. */
  function FirstPrefix(t: string, ws: seq<string>): (r: Option<nat>)
    ensures r.Some? ==> r.value < |ws| && StartsWith(t, ws[r.value])
    ensures r.Some? ==> forall j :: 0 <= j < r.value ==> !StartsWith(t, ws[j])
    ensures r.None? ==> forall j :: 0 <= j < |ws| ==> !StartsWith(t, ws[j])
  {
    if ws == [] then None
    else if StartsWith(t, ws[0]) then Some(0)
    else match FirstPrefix(t, ws[1..])
      case Some(k) => Some(k + 1)
      case None => None
  }

  /** The transcript after the wake phrase, both as heard and lower-cased. */
  datatype Heard = Heard(text: string, lower: string)

  /** The wake-word check: the lower-cased, stripped transcript must start
      with a wake phrase; the first one in list order is cut from both forms
      (by its length, from the front), and both are stripped again. */
  function StripWake(text: string): (r: Option<Heard>)
    ensures r.Some? <==> FirstPrefix(Strip(Lower(text)), WAKE_WORDS).Some?
  {
    var lower := Strip(Lower(text));
    match FirstPrefix(lower, WAKE_WORDS)
    case None => None
    case Some(k) =>
      var n := |WAKE_WORDS[k]|;
      Some(Heard(Strip(text[n..]), Strip(lower[n..])))
  }

  /** A transcript that starts with "manga" loses exactly that word, even
      with no space after it ("mangamute bob" is the command "mute bob"). */
  lemma MangaIsCut(rest: string)
    ensures StripWake("manga" + rest).Some?
    ensures StripWake("manga" + rest).value.text == Strip(rest)
  {
    var text := "manga" + rest;
    LowerAppend("manga", rest);
    assert Lower("manga") == "manga";
    var lower := Lower(text);
    assert StartsWith(lower, "manga") by { assert lower[..5] == "manga"; }
    StripKeepsLeadingWord(lower, "manga");
    assert StartsWith(Strip(lower), WAKE_WORDS[0]);
    assert text[5..] == rest;
  }

  /** Who a name target is looked up against. */
  datatype Member = Member(id: int, name: string, bot: bool)

  datatype Target = Everyone | Named(name: string)

  datatype VoiceCommand =
    | Mute(target: Target)
    | Unmute(target: Target)
    | Kick(name: string)
    | Deafen(name: string)
    | Troll(name: string)
    | StopListening
    | Leave
    | Reply(said: string)

  const EVERYONE_WORDS: seq<string> := ["everyone", "all", "everybody"]
  const STOP_PHRASES: seq<string> := ["stop listening", "be quiet", "shut up", "stop"]
  const LEAVE_PHRASES: seq<string> := ["leave", "disconnect", "go away", "bye"]

  /** One of the five command prefixes. */
  predicate HasCommandPrefix(lower: string) {
    StartsWith(lower, "mute ") || StartsWith(lower, "unmute ") || StartsWith(lower, "kick ")
    || StartsWith(lower, "deafen ") || StartsWith(lower, "troll ")
  }

  function TargetOf(name: string): (t: Target)
    ensures t == Everyone <==> name in EVERYONE_WORDS
    ensures t.Named? ==> t.name == name
  {
    if name in EVERYONE_WORDS then Everyone else Named(name)
  }

  /** The first phrase of `subs` occurring in `s`, as `any(x in s ...)`. */
  function FirstContained(s: string, subs: seq<string>): (r: bool)
    ensures r <==> ContainsAny(s, subs)
  {
    if subs == [] then false
    else if Contains(s, subs[0]) then
      assert Contains(s, subs[0]);
      true
    else
      var r := FirstContained(s, subs[1..]);
      assert ContainsAny(s, subs) ==> ContainsAny(s, subs[1..]) by {
        if ContainsAny(s, subs) {
          var k :| 0 <= k < |subs| && Contains(s, subs[k]);
          assert k != 0;
          assert subs[1..][k - 1] == subs[k];
        }
      }
      assert ContainsAny(s, subs[1..]) ==> ContainsAny(s, subs) by {
        if ContainsAny(s, subs[1..]) {
          var k :| 0 <= k < |subs[1..]| && Contains(s, subs[1..][k]);
          assert subs[k + 1] == subs[1..][k];
        }
      }
      r
  }

  /** The command chain on the lower-cased transcript: the five command
      prefixes in order, then any stop phrase, then any leave phrase, else
      a reply to what was said. */
  function ParseCommand(lower: string, text: string): (c: VoiceCommand)
    ensures c.Reply? <==> !HasCommandPrefix(lower) && !ContainsAny(lower, STOP_PHRASES) && !ContainsAny(lower, LEAVE_PHRASES)
    ensures c.StopListening? <==> !HasCommandPrefix(lower) && ContainsAny(lower, STOP_PHRASES)
    ensures c.Reply? ==> c.said == text
  {
    if StartsWith(lower, "mute ") then Mute(TargetOf(Strip(lower[5..])))
    else if StartsWith(lower, "unmute ") then Unmute(TargetOf(Strip(lower[7..])))
    else if StartsWith(lower, "kick ") then Kick(Strip(lower[5..]))
    else if StartsWith(lower, "deafen ") then Deafen(Strip(lower[7..]))
    else if StartsWith(lower, "troll ") then Troll(Strip(lower[6..]))
    else if FirstContained(lower, STOP_PHRASES) then StopListening
    else if FirstContained(lower, LEAVE_PHRASES) then Leave
    else Reply(text)
  }

  /** A stop phrase wins over a leave phrase: "stop and leave" only stops. */
  lemma StopBeforeLeave(lower: string, text: string)
    requires !HasCommandPrefix(lower)
    requires ContainsAny(lower, STOP_PHRASES) && ContainsAny(lower, LEAVE_PHRASES)
    ensures ParseCommand(lower, text) == StopListening
  {
  }

  /** On a stripped transcript a "mute" target is never empty. */
  lemma MuteTargetNonEmpty(lower: string, text: string)
    requires lower == [] || !IsSpace(lower[|lower| - 1])
    requires StartsWith(lower, "mute ")
    ensures ParseCommand(lower, text).Mute?
    ensures ParseCommand(lower, text).target.Named? ==> ParseCommand(lower, text).target.name != []
  {
    var t := lower[5..];
    assert t != [] by { assert lower[4] == ' '; }
    assert !IsSpace(t[|t| - 1]);
    StripNonBlank(t);
  }

  lemma StripNonBlank(t: string)
    requires t != [] && !IsSpace(t[|t| - 1])
    ensures Strip(t) != []
  {
    var l := StripLeft(t);
    assert l[|l| - 1] == t[|t| - 1];
  }

  /** `discord.utils.find`: the first member whose lower-cased display name
      contains the target. */
  function FindMember(members: seq<Member>, target: string): (r: Option<nat>)
    ensures r.Some? ==> r.value < |members| && Contains(Lower(members[r.value].name), target)
    ensures r.Some? ==> forall j :: 0 <= j < r.value ==> !Contains(Lower(members[j].name), target)
    ensures r.None? ==> forall j :: 0 <= j < |members| ==> !Contains(Lower(members[j].name), target)
  {
    if members == [] then None
    else if Contains(Lower(members[0].name), target) then Some(0)
    else match FindMember(members[1..], target)
      case Some(k) => Some(k + 1)
      case None => None
  }

  /** The ids an "everyone" mute or unmute edits, in channel order; bots
      are skipped when `includeBots` is false. */
  function EveryoneIds(members: seq<Member>, includeBots: bool): (r: seq<int>)
    ensures forall id :: id in r <==> exists k :: 0 <= k < |members| && members[k].id == id && (includeBots || !members[k].bot)
  {
    if members == [] then []
    else
      var rest := EveryoneIds(members[1..], includeBots);
      assert forall k :: 1 <= k < |members| ==> members[k] == members[1..][k - 1];
      if includeBots || !members[0].bot then [members[0].id] + rest else rest
  }

  /** The non-bot display names the AI prompt lists. */
  function HumanNames(members: seq<Member>): (r: seq<string>)
    ensures |r| <= |members|
    ensures forall m :: m in members && !m.bot ==> m.name in r
    ensures forall n :: n in r ==> exists m :: m in members && !m.bot && m.name == n
  {
    if members == [] then []
    else if members[0].bot then HumanNames(members[1..])
    else [members[0].name] + HumanNames(members[1..])
  }

  /** The names keep the members' order: the list of two parts is the
      first part's names followed by the second's. */
  lemma {:induction false} HumanNamesAppend(a: seq<Member>, b: seq<Member>)
    ensures HumanNames(a + b) == HumanNames(a) + HumanNames(b)
    decreases |a|
  {
    if a == [] {
      assert a + b == b;
    } else {
      assert (a + b)[0] == a[0];
      assert (a + b)[1..] == a[1..] + b;
      HumanNamesAppend(a[1..], b);
      if !a[0].bot {
        assert [a[0].name] + (HumanNames(a[1..]) + HumanNames(b)) == ([a[0].name] + HumanNames(a[1..])) + HumanNames(b);
      }
    }
  }

  /** One member contributes its name exactly when it is not a bot. */
  lemma HumanNamesOfOne(m: Member)
    ensures HumanNames([m]) == if m.bot then [] else [m.name]
  {
  }

  /** The voice channel and the other channels of the guild. */
  datatype Env = Env(members: seq<Member>, voiceChannels: seq<int>, home: int, hasGroq: bool)

  /** What a command does. */
  datatype Reaction =
    | SetMute(ids: seq<int>, on: bool)
    | MoveOut(id: int)
    | SetDeaf(id: int)
    | Moves(member: int, path: seq<int>)
    | CantFind(name: string)
    | Silent
    | StopListen
    | Disconnect
    | AskAi(said: string, names: seq<string>)
    | Echo(text: string)

  /** `next((c for c in guild.voice_channels if c.id != home), None)` */
  function OtherChannel(channels: seq<int>, home: int): (r: Option<int>)
    ensures r.Some? ==> r.value in channels && r.value != home
    ensures r.None? ==> forall c :: c in channels ==> c == home
  {
    if channels == [] then None
    else if channels[0] != home then Some(channels[0])
    else
      assert forall c :: c in channels ==> c == channels[0] || c in channels[1..];
      OtherChannel(channels[1..], home)
  }

  /** The troll route: four round trips to the other channel and back. */
  function TrollPath(other: int, home: int, trips: nat): (r: seq<int>)
    ensures |r| == 2 * trips
    ensures forall i :: 0 <= i < |r| ==> r[i] == if i % 2 == 0 then other else home
  {
    if trips == 0 then [] else [other, home] + TrollPath(other, home, trips - 1)
  }

  const ECHO_PREFIX := "I heard you say: "

  /** A single member found by name, or the "can't find" reply. */
  function OnFound(members: seq<Member>, name: string, act: Member -> Reaction, missing: Reaction): Reaction {
    match FindMember(members, name)
    case Some(k) => act(members[k])
    case None => missing
  }

  /** The effect of a command on the channel. */
  function Respond(cmd: VoiceCommand, env: Env): (r: Reaction)
    ensures cmd == Mute(Everyone) ==> r == SetMute(EveryoneIds(env.members, false), true)
    ensures cmd == Unmute(Everyone) ==> r == SetMute(EveryoneIds(env.members, true), false)
    ensures cmd.Reply? && env.hasGroq ==> r == AskAi(cmd.said, HumanNames(env.members))
    ensures cmd.Reply? && !env.hasGroq ==> r == Echo(ECHO_PREFIX + cmd.said[..Min(30, |cmd.said|)])
  {
    match cmd
    case Mute(Everyone) => SetMute(EveryoneIds(env.members, false), true)
    case Mute(Named(n)) => OnFound(env.members, n, (m: Member) => SetMute([m.id], true), CantFind(n))
    case Unmute(Everyone) => SetMute(EveryoneIds(env.members, true), false)
    case Unmute(Named(n)) => OnFound(env.members, n, (m: Member) => SetMute([m.id], false), CantFind(n))
    case Kick(n) => OnFound(env.members, n, (m: Member) => MoveOut(m.id), CantFind(n))
    case Deafen(n) => OnFound(env.members, n, (m: Member) => SetDeaf(m.id), Silent)
    case Troll(n) =>
      OnFound(env.members, n, (m: Member) =>
        Moves(m.id, match OtherChannel(env.voiceChannels, env.home)
                    case Some(o) => TrollPath(o, env.home, 4)
                    case None => []), Silent)
    case StopListening => StopListen
    case Leave => Disconnect
    case Reply(said) =>
      if env.hasGroq then AskAi(said, HumanNames(env.members))
      else Echo(ECHO_PREFIX + said[..Min(30, |said|)])
  }

  /** Muting everyone never touches a bot and reaches every other member;
      unmuting everyone reaches bots too. */
  lemma EveryoneMuteSparesBots(env: Env, k: nat)
    requires k < |env.members|
    ensures !env.members[k].bot ==> env.members[k].id in Respond(Mute(Everyone), env).ids
    ensures env.members[k].id in Respond(Unmute(Everyone), env).ids
    ensures forall id :: id in Respond(Mute(Everyone), env).ids ==>
              exists j :: 0 <= j < |env.members| && env.members[j].id == id && !env.members[j].bot
  {
  }

  /** A named mute edits exactly one member: the first whose name matches. */
  lemma NamedMuteHitsFirstMatch(env: Env, n: string)
    ensures var r := Respond(Mute(Named(n)), env);
            (r.SetMute? && r.on && |r.ids| == 1 &&
             exists k :: 0 <= k < |env.members| && r.ids[0] == env.members[k].id && Contains(Lower(env.members[k].name), n)
               && forall j :: 0 <= j < k ==> !Contains(Lower(env.members[j].name), n))
            || (r == CantFind(n) && forall j :: 0 <= j < |env.members| ==> !Contains(Lower(env.members[j].name), n))
  {
    match FindMember(env.members, n)
    case Some(k) =>
      assert Respond(Mute(Named(n)), env) == SetMute([env.members[k].id], true);
    case None =>
  }

  /** A troll ends back in the voice channel it started from. */
  lemma TrollEndsAtHome(env: Env, n: string)
    ensures var r := Respond(Troll(n), env);
            r.Moves? ==> r.path == [] || (|r.path| == 8 && r.path[7] == env.home && r.path[0] != env.home)
  {
    var o := OtherChannel(env.voiceChannels, env.home);
    if FindMember(env.members, n).Some? && o.Some? {
      var p := TrollPath(o.value, env.home, 4);
      assert p[7] == env.home && p[0] == o.value;
    }
  }

  // ---------------------------------------------------------------------
  // One segment through the pipeline, and one pass of the audio loop
  // ---------------------------------------------------------------------

  /** What handling one segment amounts to: nothing, a reaction, or an
      error that ends the loop. */
  datatype Step = Skip | Act(reaction: Reaction) | Crash

  /** Gate, recognition (`heard`: `None` when the recognizer fails), wake
      phrase, command chain. */
  function HandleSegment(seg: seq<byte>, heard: Option<string>, env: Env): (s: Step)
    ensures s.Crash? <==> SegmentGate(seg) == Unpackable
    ensures s.Act? ==> SegmentGate(seg) == Accepted && heard.Some? && StripWake(heard.value).Some?
  {
    match SegmentGate(seg)
    case TooShort => Skip
    case Quiet => Skip
    case Unpackable => Crash
    case Accepted =>
      match heard
      case None => Skip
      case Some(text) =>
        match StripWake(text)
        case None => Skip
        case Some(h) => Act(Respond(ParseCommand(h.lower, h.text), env))
  }

  /** The handler the audio loop applies to each cut segment, given what the
      recognizer hears in it and the state of the channel. */
  function Handler(hear: seq<byte> -> Option<string>, env: Env): (handle: seq<byte> -> Step)
    ensures forall seg :: handle(seg) == HandleSegment(seg, hear(seg), env)
  {
    (seg: seq<byte>) => HandleSegment(seg, hear(seg), env)
  }

  /** Only a segment with an odd byte count makes the handler raise. */
  lemma HandlerCrashesOnlyOnOddLength(hear: seq<byte> -> Option<string>, env: Env, seg: seq<byte>)
    requires Handler(hear, env)(seg).Crash?
    ensures |seg| % 2 == 1 && |seg| >= MIN_SEGMENT
  {
  }

  /** The outcome of one pass over the speakers. */
  datatype PassResult = PassResult(data: map<Uid, Entry>, acts: seq<Reaction>, ended: bool)

  function Prepend(acts: seq<Reaction>, r: PassResult): PassResult {
    PassResult(r.data, acts + r.acts, r.ended)
  }

  lemma PrependNothing(acts: seq<Reaction>, data: map<Uid, Entry>)
    ensures Prepend(acts, PassResult(data, [], true)) == PassResult(data, acts, true)
  {
    assert acts + [] == acts;
  }

  lemma PrependOneMore(acts: seq<Reaction>, x: Reaction, r: PassResult)
    ensures Prepend(acts, Prepend([x], r)) == Prepend(acts + [x], r)
  {
    assert acts + ([x] + r.acts) == (acts + [x]) + r.acts;
  }

  /** One pass of `process_audio_loop` over the speakers in `order`: a due
      buffer is cut (its time stamp kept) and handled; the loop ends when
      handling raises or after the leave command. */
  function PassFrom(order: seq<Uid>, data: map<Uid, Entry>, now: int, handle: seq<byte> -> Step): (r: PassResult)
    decreases |order|
  {
    if order == [] then PassResult(data, [], false)
    else
      var u := order[0];
      if u in data && Ready(data[u], now) then
        var cut := data[u := Entry([], data[u].last)];
        var step := handle(data[u].buf);
        if step.Crash? then PassResult(cut, [], true)
        else if step.Skip? then PassFrom(order[1..], cut, now, handle)
        else if step.reaction == Disconnect then PassResult(cut, [Disconnect], true)
        else Prepend([step.reaction], PassFrom(order[1..], cut, now, handle))
      else PassFrom(order[1..], data, now, handle)
  }

  /** What a pass may do to one speaker's entry: keep it, or empty a due
      buffer; the time stamp is kept either way. */
  predicate CutOrKept(before: Entry, after: Entry, now: int) {
    after.last == before.last && (after.buf == before.buf || (Ready(before, now) && after.buf == []))
  }

  /** A pass keeps the speakers, and changes an entry only by emptying a
      due buffer. */
  lemma {:induction false} PassOnlyCuts(order: seq<Uid>, data: map<Uid, Entry>, now: int, handle: seq<byte> -> Step)
    ensures forall u :: u in PassFrom(order, data, now, handle).data <==> u in data
    ensures forall u :: u in data ==> CutOrKept(data[u], PassFrom(order, data, now, handle).data[u], now)
    decreases |order|
  {
    if order != [] {
      var u := order[0];
      if u in data && Ready(data[u], now) {
        var cut := data[u := Entry([], data[u].last)];
        PassOnlyCuts(order[1..], cut, now, handle);
        assert forall v :: v in data ==> CutOrKept(data[v], cut[v], now);
      } else {
        PassOnlyCuts(order[1..], data, now, handle);
      }
    }
  }

  /** A pass that runs to the end leaves no due buffer behind among the
      listed speakers. */
  lemma {:induction false} FullPassCutsAll(order: seq<Uid>, data: map<Uid, Entry>, now: int, handle: seq<byte> -> Step, v: Uid)
    requires !PassFrom(order, data, now, handle).ended
    requires v in order && v in data
    ensures v in PassFrom(order, data, now, handle).data
    ensures !Ready(PassFrom(order, data, now, handle).data[v], now)
    decreases |order|
  {
    var u := order[0];
    var r := PassFrom(order, data, now, handle);
    var next := if u in data && Ready(data[u], now) then data[u := Entry([], data[u].last)] else data;
    assert r.data == PassFrom(order[1..], next, now, handle).data;
    assert !PassFrom(order[1..], next, now, handle).ended;
    PassOnlyCuts(order[1..], next, now, handle);
    if v != u {
      assert v in order[1..];
      FullPassCutsAll(order[1..], next, now, handle, v);
    } else {
      assert !Ready(next[v], now);
    }
  }

  /** When every buffer holds whole samples and only odd segments make the
      handler raise, a pass ends only through the leave command. */
  lemma {:induction false} EvenBuffersNeverCrash(order: seq<Uid>, data: map<Uid, Entry>, now: int, handle: seq<byte> -> Step)
    requires EvenBuffers(data)
    requires forall seg :: handle(seg).Crash? ==> |seg| % 2 == 1
    ensures PassFrom(order, data, now, handle).ended ==> Disconnect in PassFrom(order, data, now, handle).acts
    decreases |order|
  {
    if order != [] {
      var u := order[0];
      if u in data && Ready(data[u], now) {
        var cut := data[u := Entry([], data[u].last)];
        assert EvenBuffers(cut);
        EvenBuffersNeverCrash(order[1..], cut, now, handle);
      } else {
        EvenBuffersNeverCrash(order[1..], data, now, handle);
      }
    }
  }

  /** `SpeechSink`: the per-speaker buffers, keyed in insertion order. */
  class SpeechSink {
    var data: map<Uid, Entry>
    /** The keys of `data` in the order they were inserted. */
    var order: seq<Uid>

    ghost predicate Valid()
      reads this
    {
      (forall u :: u in data <==> u in order) && DistinctUids(order)
    }

    constructor()
      ensures Valid() && data == map[] && order == []
    {
      data := map[];
      order := [];
    }

    /** `write`: a kept frame is appended to the speaker's buffer (created
        empty on first use) and stamps it with the current time. */
    method Write(g: Globals, user: Uid, pcm: seq<byte>, now: int)
      requires Valid()
      modifies this
      ensures Valid()
      ensures !KeepsFrame(g.listening, g.ignored, g.ownerId, user, pcm) ==> data == old(data) && order == old(order)
      ensures KeepsFrame(g.listening, g.ignored, g.ownerId, user, pcm) ==>
                data == old(data)[user := Entry(BufferOf(old(data), user) + pcm, now)]
                && order == old(order) + (if user in old(data) then [] else [user])
      ensures old(EvenBuffers(data)) && |pcm| % 2 == 0 ==> EvenBuffers(data)
    {
      if !KeepsFrame(g.listening, g.ignored, g.ownerId, user, pcm) {
        return;
      }
      if user !in data {
        data := data[user := Entry([], now)];
        order := order + [user];
      }
      data := data[user := Entry(data[user].buf + pcm, now)];
    }

    /** `cleanup` */
    method Cleanup()
      modifies this
      ensures Valid() && data == map[] && order == []
    {
      data := map[];
      order := [];
    }

    /** One pass of the audio loop over `list(user_data.keys())`. */
    method Pass(now: int, handle: seq<byte> -> Step) returns (acts: seq<Reaction>, ended: bool)
      requires Valid()
      modifies this
      ensures Valid() && order == old(order)
      ensures PassResult(data, acts, ended) == PassFrom(old(order), old(data), now, handle)
    {
      var d;
      d, acts, ended := RunPass(order, data, now, handle);
      data := d;
    }
  }

  /** The loop of one pass, on the buffers as a value. */
  method RunPass(order: seq<Uid>, data: map<Uid, Entry>, now: int, handle: seq<byte> -> Step)
    returns (d: map<Uid, Entry>, acts: seq<Reaction>, ended: bool)
    ensures forall u :: u in d <==> u in data
    ensures PassResult(d, acts, ended) == PassFrom(order, data, now, handle)
  {
    d := data;
    acts := [];
    ended := false;
    var i := 0;
    while i < |order|
      invariant 0 <= i <= |order|
      invariant forall u :: u in d <==> u in data
      invariant PassFrom(order, data, now, handle) == Prepend(acts, PassFrom(order[i..], d, now, handle))
    {
      var u := order[i];
      assert order[i..][0] == u && order[i..][1..] == order[i + 1..];
      if u in d && Ready(d[u], now) {
        var step := handle(d[u].buf);
        d := d[u := Entry([], d[u].last)];
        if step.Crash? {
          PrependNothing(acts, d);
          ended := true;
          return;
        }
        if step.Act? {
          PrependOneMore(acts, step.reaction, PassFrom(order[i + 1..], d, now, handle));
          PrependOneMore(acts, step.reaction, PassResult(d, [], true));
          acts := acts + [step.reaction];
          if step.reaction == Disconnect {
            ended := true;
            return;
          }
        }
      }
      i := i + 1;
    }
    assert order[i..] == [];
    assert acts + [] == acts;
  }

  // ---------------------------------------------------------------------
  // The AI chain
  // ---------------------------------------------------------------------

  /** One provider of the chain: not configured, or a call that takes
      `duration` milliseconds and returns a reply or raises. */
  datatype Attempt = NotConfigured | Call(duration: nat, reply: Option<string>)

  const NO_AI_BRAIN := "I need my AI brain (Gemini, Groq, or OpenRouter) to do that."
  const TOO_SLOW := "⏱️ I'm taking too long right now. Please try again."

  /** `AI_PROVIDER_TIMEOUT` and `AI_TOTAL_TIMEOUT` from their environment
      values, in milliseconds. */
  function ProviderTimeout(env: Option<int>): (p: int)
    ensures p >= 5000
  {
    1000 * Max(5, env.GetOr(12))
  }

  function TotalTimeout(provider: int, env: Option<int>): (t: int)
    ensures t >= provider
  {
    Max(provider, 1000 * env.GetOr(20))
  }

  /** A call answers within the provider timeout. */
  predicate Answers(a: Attempt, p: int) {
    a.Call? && a.reply.Some? && a.duration <= p
  }

  /** Time a tried provider takes: cut off at the provider timeout. */
  function Spent(a: Attempt, p: int): (t: nat)
    ensures t <= Max(p, 0)
  {
    if a.Call? then (if a.duration <= p then a.duration else Max(p, 0)) else 0
  }

  /** The chain's answer and the time it took. */
  datatype Chain = Chain(answer: string, elapsed: nat)

  /** `_run_chain` over the providers in order (Gemini, OpenRouter, Groq). */
  function RunChain(attempts: seq<Attempt>, p: int): (c: Chain)
    ensures c.elapsed <= |attempts| * Max(p, 0)
  {
    var m := Max(p, 0);
    if attempts == [] then Chain(NO_AI_BRAIN, 0)
    else
      assert |attempts| * m == (|attempts| - 1) * m + m;
      assert (|attempts| - 1) * m >= 0;
      if Answers(attempts[0], p) then Chain(attempts[0].reply.value, attempts[0].duration)
      else
        var rest := RunChain(attempts[1..], p);
        Chain(rest.answer, Spent(attempts[0], p) + rest.elapsed)
  }

  /** `ai_generate`: the chain's answer unless the whole chain overruns the
      total timeout. */
  function AiGenerate(gemini: Attempt, openrouter: Attempt, groq: Attempt, p: int, t: int): string {
    var c := RunChain([gemini, openrouter, groq], p);
    if c.elapsed > t then TOO_SLOW else c.answer
  }

  /** The first provider that answers gives the reply: when its time fits
      the total timeout (always the case for the first provider), its
      answer is returned; with no provider answering the fixed message
      is returned. */
  lemma {:induction false} FirstAnswerWins(attempts: seq<Attempt>, p: int, k: nat)
    requires k < |attempts| && Answers(attempts[k], p)
    requires forall j :: 0 <= j < k ==> !Answers(attempts[j], p)
    ensures RunChain(attempts, p).answer == attempts[k].reply.value
    decreases k
  {
    if k > 0 {
      FirstAnswerWins(attempts[1..], p, k - 1);
    }
  }

  lemma {:induction false} NoAnswerNoBrain(attempts: seq<Attempt>, p: int)
    requires forall j :: 0 <= j < |attempts| ==> !Answers(attempts[j], p)
    ensures RunChain(attempts, p).answer == NO_AI_BRAIN
    decreases |attempts|
  {
    if attempts != [] {
      NoAnswerNoBrain(attempts[1..], p);
    }
  }

  /** A Gemini answer within the provider timeout is always returned, since
      the total timeout is never shorter than the provider timeout. */
  lemma GeminiAnswerIsReturned(gemini: Attempt, openrouter: Attempt, groq: Attempt, envP: Option<int>, envT: Option<int>)
    requires Answers(gemini, ProviderTimeout(envP))
    ensures AiGenerate(gemini, openrouter, groq, ProviderTimeout(envP), TotalTimeout(ProviderTimeout(envP), envT)) == gemini.reply.value
  {
  }

  /** When the total timeout covers three provider timeouts, the chain never
      overruns and the reply is the first answer or the fixed message. */
  lemma LongTotalNeverTimesOut(gemini: Attempt, openrouter: Attempt, groq: Attempt, p: int, t: int)
    requires p >= 0 && t >= 3 * p
    ensures AiGenerate(gemini, openrouter, groq, p, t) == RunChain([gemini, openrouter, groq], p).answer
  {
  }

  // ---------------------------------------------------------------------
  // Text commands
  // ---------------------------------------------------------------------

  /** `mock`: upper case at odd positions, lower case at even ones. */
  function Mock(text: string): (r: string)
    ensures |r| == |text|
    ensures forall i :: 0 <= i < |text| ==> r[i] == if i % 2 == 1 then UpperChar(text[i]) else LowerChar(text[i])
  {
    MockFrom(text, 0)
  }

  function MockFrom(text: string, start: nat): (r: string)
    ensures |r| == |text|
    ensures forall i :: 0 <= i < |text| ==> r[i] == if (start + i) % 2 == 1 then UpperChar(text[i]) else LowerChar(text[i])
  {
    if text == [] then []
    else [if start % 2 == 1 then UpperChar(text[0]) else LowerChar(text[0])] + MockFrom(text[1..], start + 1)
  }

  /** Mocking changes only case, and it is idempotent. */
  lemma MockKeepsLetters(text: string)
    ensures Lower(Mock(text)) == Lower(text)
    ensures Mock(Mock(text)) == Mock(text)
  {
    var m := Mock(text);
    assert forall i :: 0 <= i < |text| ==> Lower(m)[i] == Lower(text)[i];
    assert forall i :: 0 <= i < |text| ==> Mock(m)[i] == m[i];
  }
}
