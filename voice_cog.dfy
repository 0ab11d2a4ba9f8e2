/** The voice settings commands of the Voice cog: what `listen`,
    `voiceopen`, `voicekeyword`, `voice`, `vckick`, `stopvckick` and `stop`
    change in the voice handler, and which guilds one pass of the voice
    enforcement loop acts on. */
module VoiceCog {
  import opened Wrappers
  import opened Text
  import VoiceHandler

  /** The words `listen` reads as "on" (after lower-casing). */
  const LISTEN_ON_WORDS: seq<string> := ["on", "yes", "true", "1", "enable"]
  /** The scopes `voiceopen` reads as "only me". */
  const OWNER_SCOPES: seq<string> := ["me", "onlyme", "owner"]
  /** The voice channel the bot keeps itself in. */
  const BOT_CHANNEL: string := "Manga_bot"

  // ---------------------------------------------------------------------
  // Argument classification
  // ---------------------------------------------------------------------

  /** Python's truthiness of an optional string argument. */
  predicate Given(s: Option<string>) {
    s.Some? && s.value != []
  }

  /** `listen`: an explicit state sets listening iff it is an "on" word; a
      missing or empty one toggles. */
  function ListeningAfter(current: bool, state: Option<string>): bool {
    if Given(state) then Lower(state.value) in LISTEN_ON_WORDS else !current
  }

  /** An explicit state does not depend on the current one, and is read
      without regard to case. */
  lemma ListenExplicitState(b1: bool, b2: bool, w: string)
    requires w != []
    ensures ListeningAfter(b1, Some(w)) == ListeningAfter(b2, Some(w))
    ensures ListeningAfter(b1, Some(w)) <==> Lower(w) in LISTEN_ON_WORDS
  {
  }

  /** Any upper/lower-case spelling of an "on" word turns listening on. */
  lemma {:induction false} ListenIgnoresCase(b: bool, w: string)
    requires w != [] && Lower(w) in LISTEN_ON_WORDS
    ensures ListeningAfter(b, Some(Upper(w)))
  {
    LowerOfUpper(w);
  }

  /** Toggling twice restores the state; a state that is not an "on" word,
      such as "off", turns listening off. */
  lemma ListenToggleTwice(b: bool)
    ensures ListeningAfter(ListeningAfter(b, None), None) == b
    ensures ListeningAfter(b, Some([])) == !b
  {
  }

  lemma ListenOff(b: bool)
    ensures !ListeningAfter(b, Some("off"))
  {
    var o := "off";
    assert Lower(o) == o by {
      assert forall i :: 0 <= i < 3 ==> !IsAsciiUpper(o[i]);
    }
    assert o != "on" && o != "yes" && o != "true" && o != "1" && o != "enable" by {
      assert |o| == 3 && o[1] == 'f';
    }
  }

  /** `voiceopen`'s scope test, on the lower-cased scope. */
  predicate IsOwnerScope(scope: string) {
    Lower(scope) in OWNER_SCOPES
  }

  /** `!voice <name>`: lower-cased, blanks turned into underscores. */
  function VoiceArgument(name: string): (r: string)
    ensures |r| == |name|
    ensures forall i :: 0 <= i < |r| ==> r[i] == (if name[i] == ' ' then '_' else LowerChar(name[i]))
  {
    Underscored(Lower(name))
  }

  /** Every blank replaced by an underscore. */
  function Underscored(s: string): (r: string)
    ensures |r| == |s|
    ensures forall i :: 0 <= i < |r| ==> r[i] == (if s[i] == ' ' then '_' else s[i])
  {
    if s == [] then [] else [if s[0] == ' ' then '_' else s[0]] + Underscored(s[1..])
  }

  /** A voice name as the handler says it ("english female") is turned back
      into the name itself by `!voice`: the two spellings are inverse on
      lower-case names without blanks. */
  lemma VoiceArgumentOfSpaced(v: string)
    requires IsLowerCase(v) && forall i :: 0 <= i < |v| ==> v[i] != ' '
    ensures VoiceArgument(VoiceHandler.Spaced(v)) == v
  {
    var s := VoiceHandler.Spaced(v);
    assert forall i :: 0 <= i < |s| ==> !IsAsciiUpper(s[i]);
    LowerOfLowerCase(s);
    assert forall i :: 0 <= i < |v| ==> VoiceArgument(s)[i] == v[i];
  }

  /** Every voice of the rotation can be chosen by its spoken name. */
  lemma EveryVoiceCanBeChosen(k: nat)
    requires k < |VoiceHandler.MANGA_VOICES|
    ensures VoiceArgument(VoiceHandler.Spaced(VoiceHandler.MANGA_VOICES[k])) == VoiceHandler.MANGA_VOICES[k]
  {
    var v := VoiceHandler.MANGA_VOICES[k];
    assert IsLowerCase(v) && forall i :: 0 <= i < |v| ==> v[i] != ' ' by {
      assert forall i :: 0 <= i < |v| ==> IsAsciiLower(v[i]) || v[i] == '_';
    }
    VoiceArgumentOfSpaced(v);
  }

  // ---------------------------------------------------------------------
  // The voice enforcement loop
  // ---------------------------------------------------------------------

  /** What one pass of the loop sees of a guild. */
  datatype GuildVoice = GuildVoice(connected: bool, channelName: string, botChannelExists: bool)

  /** What one pass of the loop does for a guild. */
  datatype LoopAction =
    | Skip           // the manual-disconnect flag is set
    | Stay           // connected to the bot's channel
    | MoveToChannel  // connected elsewhere and the bot's channel exists
    | StayElsewhere  // connected elsewhere and there is no channel to move to
    | EnsureChannel  // not connected: create or join the bot's channel

  function EnforceAction(manualDisconnect: bool, gv: GuildVoice): LoopAction {
    if manualDisconnect then Skip
    else if gv.connected then
      (if gv.channelName == BOT_CHANNEL then Stay
       else if gv.botChannelExists then MoveToChannel
       else StayElsewhere)
    else EnsureChannel
  }

  /** One pass of `_enforce_voice_connection_loop`, guild by guild. */
  function EnforcePass(manualDisconnect: bool, guilds: seq<GuildVoice>): (r: seq<LoopAction>)
    ensures |r| == |guilds|
    ensures forall i :: 0 <= i < |guilds| ==> r[i] == EnforceAction(manualDisconnect, guilds[i])
  {
    if guilds == [] then []
    else [EnforceAction(manualDisconnect, guilds[0])] + EnforcePass(manualDisconnect, guilds[1..])
  }

  /** While a commanded leave is in force the loop touches no guild; once it
      is cleared, no guild is skipped and every disconnected guild is
      rejoined. */
  lemma ManualDisconnectSkipsEveryGuild(guilds: seq<GuildVoice>)
    ensures forall a :: a in EnforcePass(true, guilds) ==> a == Skip
    ensures Skip !in EnforcePass(false, guilds)
    ensures forall i :: 0 <= i < |guilds| && !guilds[i].connected ==> EnforcePass(false, guilds)[i] == EnsureChannel
  {
  }

  // ---------------------------------------------------------------------
  // The cog
  // ---------------------------------------------------------------------

  /** The reply of `voicekeyword`. */
  datatype KeywordReply = ShowKeyword | RequiredOn | RequiredOff | KeywordSet | KeywordUsage

  /** The Voice cog. `keyword` and `requireKeyword` are shown and set but
      never consulted by the handler. */
  class Cog {
    var keyword: string
    var requireKeyword: bool
    const voice: VoiceHandler.Handler

    constructor(handler: VoiceHandler.Handler)
      ensures voice == handler && keyword == "manga" && !requireKeyword
    {
      voice := handler;
      keyword := "manga";
      requireKeyword := false;
    }

    /** `listen [state]` */
    method Listen(state: Option<string>)
      modifies voice`listening
      ensures voice.listening == ListeningAfter(old(voice.listening), state)
    {
      if Given(state) {
        voice.SetListening(Lower(state.value) in LISTEN_ON_WORDS);
      } else {
        voice.SetListening(!voice.listening);
      }
    }

    /** `stop`: stops listening only when connected. */
    method Stop(hasVoiceClient: bool)
      modifies voice`listening
      ensures voice.listening == (if hasVoiceClient then false else old(voice.listening))
    {
      if hasVoiceClient {
        voice.SetListening(false);
      }
    }

    /** `voiceopen [scope]` by `authorId` in guild `g`: owner-only for the
        author or for everyone, listening on, then a join when the author is
        in voice and the bot is not. */
    method VoiceOpen(scope: string, authorId: int, g: int, authorInVoice: bool, hasVoiceClient: bool,
                     failure: VoiceHandler.JoinFailure)
      modifies voice`ownerOnly, voice`ownerId, voice`listening
      modifies voice`sinks, voice`tasks, voice`keepAlive, voice`manualDisconnect
      ensures voice.listening
      ensures voice.ownerOnly <==> IsOwnerScope(scope) && authorId != 0
      ensures voice.ownerId == (if voice.ownerOnly then Some(authorId) else None)
      ensures !(authorInVoice && !hasVoiceClient) ==>
        voice.sinks == old(voice.sinks) && voice.tasks == old(voice.tasks)
        && voice.keepAlive == old(voice.keepAlive) && voice.manualDisconnect == old(voice.manualDisconnect)
      ensures authorInVoice && !hasVoiceClient && failure != VoiceHandler.ConnectRaises ==>
        voice.sinks == old(voice.sinks) + {g}
      ensures authorInVoice && !hasVoiceClient && failure == VoiceHandler.JoinCompletes ==>
        !voice.manualDisconnect && voice.tasks == old(voice.tasks) + {g}
    {
      if IsOwnerScope(scope) {
        voice.SetOwnerOnly(Some(authorId));
      } else {
        voice.SetOwnerOnly(None);
      }
      voice.SetListening(true);
      if authorInVoice && !hasVoiceClient {
        var _ := voice.JoinChannel(g, authorInVoice, failure);
      }
    }

    /** `claim`: listen only to the author. */
    method Claim(authorId: int)
      modifies voice`ownerOnly, voice`ownerId
      ensures voice.ownerOnly <==> authorId != 0
      ensures voice.ownerId == (if authorId != 0 then Some(authorId) else None)
    {
      voice.SetOwnerOnly(Some(authorId));
    }

    /** `reset`: listen to everyone. */
    method Reset()
      modifies voice`ownerOnly, voice`ownerId
      ensures !voice.ownerOnly && voice.ownerId == None
    {
      voice.SetOwnerOnly(None);
    }

    /** `voicekeyword [action] [word]` */
    method VoiceKeyword(action: Option<string>, word: Option<string>) returns (reply: KeywordReply)
      modifies this`keyword, this`requireKeyword
      ensures action.None? ==> reply == ShowKeyword
      ensures action.Some? && Lower(action.value) == "on" ==> reply == RequiredOn && requireKeyword
      ensures action.Some? && Lower(action.value) == "off" ==> reply == RequiredOff && !requireKeyword
      ensures reply == KeywordSet <==> action.Some? && Lower(action.value) == "set" && Given(word)
      ensures reply == KeywordSet ==> keyword == Lower(word.value)
      ensures reply != RequiredOn && reply != RequiredOff ==> requireKeyword == old(requireKeyword)
      ensures reply != KeywordSet ==> keyword == old(keyword)
    {
      if action.None? {
        return ShowKeyword;
      }
      var a := Lower(action.value);
      if a == "on" {
        requireKeyword := true;
        reply := RequiredOn;
      } else if a == "off" {
        requireKeyword := false;
        reply := RequiredOff;
      } else if a == "set" && Given(word) {
        keyword := Lower(word.value);
        reply := KeywordSet;
      } else {
        reply := KeywordUsage;
      }
    }

    /** `voice [name]`: without a name the current voice is shown; otherwise
        the normalised name is handed to `set_voice`. */
    method ChooseVoice(name: Option<string>) returns (changed: bool)
      requires voice.Valid()
      modifies voice`voiceIndex, voice`mangaVoice
      ensures voice.Valid()
      ensures changed <==> Given(name) && VoiceArgument(name.value) in VoiceHandler.MANGA_VOICES
      ensures changed ==> voice.mangaVoice == VoiceArgument(name.value)
      ensures !changed ==> voice.voiceIndex == old(voice.voiceIndex) && voice.mangaVoice == old(voice.mangaVoice)
    {
      if !Given(name) {
        return false;
      }
      changed := voice.SetVoice(VoiceArgument(name.value));
    }

    /** `vckick [member]`: with a member, that member is added to the
        auto-kick set; without one the set is only listed. */
    method VcKick(member: Option<int>)
      modifies voice`autoKickUsers
      ensures voice.autoKickUsers == (if member.Some? then old(voice.autoKickUsers) + {member.value}
                                      else old(voice.autoKickUsers))
    {
      if member.Some? {
        voice.AddAutoKick(member.value);
      }
    }

    /** `stopvckick <member>`: a member who is not auto-kicked is reported and
        nothing changes. */
    method StopVcKick(member: int) returns (removed: bool)
      modifies voice`autoKickUsers
      ensures removed <==> member in old(voice.autoKickUsers)
      ensures voice.autoKickUsers == old(voice.autoKickUsers) - {member}
    {
      if member !in voice.autoKickUsers {
        return false;
      }
      voice.RemoveAutoKick(member);
      return true;
    }

    /** `ignore` / `unignore` */
    method Ignore(member: int)
      modifies voice`blockedUsers
      ensures voice.blockedUsers == old(voice.blockedUsers) + {member}
    {
      voice.BlockUser(member);
    }

    method Unignore(member: int)
      modifies voice`blockedUsers
      ensures voice.blockedUsers == old(voice.blockedUsers) - {member}
    {
      voice.UnblockUser(member);
    }
  }
}
