/** The bot's own event handlers: the log auto-delete settings read from
    the environment, `on_message` and `on_command_error`. Environment
    variables arrive as inputs (`None` when unset); sending, replying and
    deleting are recorded as the action chosen. */
module Bot {
  import opened Wrappers
  import opened Text

  const DEFAULT_DELETE_SECONDS := 10800
  const DEFAULT_LOG_CHANNELS := "manga-logs,logs"

  /** `log_auto_delete_seconds`: the configured number, three hours when
      unset, and zero (no deleting) for a negative one. */
  function LogSeconds(env: Option<int>): (r: nat)
    ensures env.None? ==> r == DEFAULT_DELETE_SECONDS
    ensures env.Some? && env.value >= 0 ==> r == env.value
    ensures env.Some? && env.value < 0 ==> r == 0
  {
    Max(0, env.GetOr(DEFAULT_DELETE_SECONDS))
  }

  /** The set comprehension over comma-separated pieces: each non-blank
      piece, stripped and lower-cased. */
  function NamesOf(pieces: seq<string>): (r: set<string>)
    ensures forall k :: 0 <= k < |pieces| && Strip(pieces[k]) != [] ==> Lower(Strip(pieces[k])) in r
    ensures forall n :: n in r ==> n != [] && IsLowerCase(n)
    ensures forall n :: n in r ==> exists k :: 0 <= k < |pieces| && Strip(pieces[k]) != [] && Lower(Strip(pieces[k])) == n
  {
    LowerIsLowerCase();
    set k | 0 <= k < |pieces| && Strip(pieces[k]) != [] :: Lower(Strip(pieces[k]))
  }

  /** `log_auto_delete_channels` */
  function LogChannels(env: Option<string>): set<string> {
    NamesOf(SplitOn(env.GetOr(DEFAULT_LOG_CHANNELS), ','))
  }

  /** Unset, the log channels are `manga-logs` and `logs`. */
  lemma DefaultLogChannels()
    ensures LogChannels(None) == {"manga-logs", "logs"}
  {
    assert DEFAULT_LOG_CHANNELS == "manga-logs" + [','] + "logs";
    ChannelsOfTwo("manga-logs", "logs");
  }

  /** Two clean names separated by a comma are exactly the two channels. */
  lemma ChannelsOfTwo(a: string, b: string)
    requires a != [] && !IsSpace(a[0]) && !IsSpace(a[|a| - 1]) && IsLowerCase(a) && ',' !in a
    requires b != [] && !IsSpace(b[0]) && !IsSpace(b[|b| - 1]) && IsLowerCase(b) && ',' !in b
    ensures LogChannels(Some(a + [','] + b)) == {a, b}
  {
    PiecesOfTwo(a, b);
    CleanName(a);
    CleanName(b);
    NamesOfTwo(a, b);
  }

  lemma PiecesOfTwo(a: string, b: string)
    requires ',' !in a && ',' !in b
    ensures SplitOn(a + [','] + b, ',') == [a, b]
  {
    var parts := [a, b];
    assert Join([','], parts) == a + [','] + b;
    SplitJoin(parts, ',');
  }

  /** A lower-case word with no blank at either end is its own channel
      name. */
  lemma CleanName(s: string)
    requires s != [] && !IsSpace(s[0]) && !IsSpace(s[|s| - 1]) && IsLowerCase(s)
    ensures Strip(s) == s && Lower(s) == s
  {
    StripVisibleEnds(s);
    LowerOfLowerCase(s);
  }

  lemma NamesOfTwo(a: string, b: string)
    requires a != [] && Strip(a) == a && Lower(a) == a
    requires b != [] && Strip(b) == b && Lower(b) == b
    ensures NamesOf([a, b]) == {a, b}
  {
    var parts := [a, b];
    var r := NamesOf(parts);
    assert a in r && b in r by {
      assert parts[0] == a && parts[1] == b;
    }
    forall n | n in r
      ensures n == a || n == b
    {
      var k :| 0 <= k < |parts| && Strip(parts[k]) != [] && n == Lower(Strip(parts[k]));
      assert k == 0 || k == 1;
    }
  }

  /** A word with no blank at either end is kept whole by `strip()`. */
  lemma StripVisibleEnds(s: string)
    requires s != [] && !IsSpace(s[0]) && !IsSpace(s[|s| - 1])
    ensures Strip(s) == s
  {
    assert StripLeft(s) == s;
  }

  /** `s.replace(pat, "")`: every occurrence of `pat`, left to right,
      removed. */
  function RemoveAll(s: string, pat: string): (r: string)
    requires pat != []
    ensures |r| <= |s|
    decreases |s|
  {
    if StartsWith(s, pat) then RemoveAll(s[|pat|..], pat)
    else if s == [] then []
    else [s[0]] + RemoveAll(s[1..], pat)
  }

  /** Text with no `<` holds no mention and is kept as it is. */
  lemma {:induction false} NoOpeningKept(s: string, pat: string)
    requires pat != [] && pat[0] == '<' && '<' !in s
    ensures RemoveAll(s, pat) == s
    decreases |s|
  {
    if s != [] {
      assert !StartsWith(s, pat) by {
        assert s[0] != '<';
      }
      NoOpeningKept(s[1..], pat);
    }
  }

  /** The form `<@id>` of a mention of the bot. */
  function Mention(botId: nat): string {
    "<@" + NatToString(botId) + ">"
  }

  /** A leading `<@id>` is removed. */
  lemma MentionRemoved(botId: nat, rest: string)
    ensures RemoveAll(Mention(botId) + rest, Mention(botId)) == RemoveAll(rest, Mention(botId))
  {
    var m := Mention(botId);
    assert (m + rest)[..|m|] == m && (m + rest)[|m|..] == rest;
  }

  /** The nickname form `<@!id>` of the same mention is not removed. */
  lemma BangMentionKept(botId: nat)
    ensures var bang := "<@!" + NatToString(botId) + ">";
      RemoveAll(bang, Mention(botId)) == bang
  {
    var id := NatToString(botId);
    var bang := "<@!" + id + ">";
    var m := Mention(botId);
    assert !StartsWith(bang, m) by {
      assert bang[2] == '!' && m[2] == id[0] && IsDigit(id[0]);
    }
    assert '<' !in bang[1..] by {
      forall i | 0 <= i < |bang[1..]|
        ensures bang[1..][i] != '<'
      {
        if 2 <= i < |id| + 2 {
          assert bang[1..][i] == id[i - 2] && IsDigit(id[i - 2]);
        }
      }
    }
    NoOpeningKept(bang[1..], m);
    assert bang == [bang[0]] + bang[1..];
  }

  /** A message as `on_message` sees it. */
  datatype Incoming = Incoming(fromSelf: bool, channelName: Option<string>, content: string, mentionsBot: bool)

  /** What `on_message` does: the bot's own messages are only ever
      scheduled for deletion (or left), everything else goes to the command
      processor, and a mention is also answered by the AI with the cleaned
      text. */
  datatype Handling = OwnMessage(deleteAfter: Option<nat>) | Processed(askAi: Option<string>)

  /** The text a mention passes on to the AI: the content with `<@id>`
      removed, stripped. */
  function CleanMention(content: string, botId: nat): (r: string)
    ensures r == [] || (!IsSpace(r[0]) && !IsSpace(r[|r| - 1]))
  {
    Strip(RemoveAll(content, Mention(botId)))
  }

  function OnMessage(m: Incoming, botId: nat, seconds: nat, channels: set<string>, aiEnabled: bool): (r: Handling)
    ensures r.OwnMessage? <==> m.fromSelf
    ensures r.OwnMessage? ==>
      (r.deleteAfter.Some? <==> seconds > 0 && m.channelName.Some? && Lower(m.channelName.value) in channels)
    ensures r.OwnMessage? && r.deleteAfter.Some? ==> r.deleteAfter.value == seconds
    ensures r.Processed? ==>
      (r.askAi.Some? <==> m.mentionsBot && !StartsWith(m.content, "!") && CleanMention(m.content, botId) != [] && aiEnabled)
    ensures r.Processed? && r.askAi.Some? ==> r.askAi.value == CleanMention(m.content, botId) && r.askAi.value != []
  {
    if m.fromSelf then
      if seconds > 0 && m.channelName.Some? && Lower(m.channelName.value) in channels
      then OwnMessage(Some(seconds)) else OwnMessage(None)
    else if m.mentionsBot && !StartsWith(m.content, "!") then
      var clean := CleanMention(m.content, botId);
      if clean != [] && aiEnabled then Processed(Some(clean)) else Processed(None)
    else Processed(None)
  }

  /** A message that is just `<@id>` gets no AI reply. */
  lemma BareMentionUnanswered(botId: nat, seconds: nat, channels: set<string>, aiEnabled: bool)
    ensures OnMessage(Incoming(false, None, Mention(botId), true), botId, seconds, channels, aiEnabled) == Processed(None)
  {
    MentionRemoved(botId, []);
    assert Mention(botId) + [] == Mention(botId);
  }

  /** A message that is just `<@!id>` is passed to the AI as it stands,
      mention and all. */
  lemma BangMentionAnswered(botId: nat, seconds: nat, channels: set<string>)
    ensures var bang := "<@!" + NatToString(botId) + ">";
      OnMessage(Incoming(false, None, bang, true), botId, seconds, channels, true) == Processed(Some(bang))
  {
    var bang := "<@!" + NatToString(botId) + ">";
    BangMentionKept(botId);
    StripVisibleEnds(bang);
  }

  /** With a configured number below one nothing is ever auto-deleted. */
  lemma NonPositiveNeverDeletes(env: int, m: Incoming, botId: nat, channels: set<string>, aiEnabled: bool)
    requires env <= 0
    ensures OnMessage(m, botId, LogSeconds(Some(env)), channels, aiEnabled) != OwnMessage(Some(LogSeconds(Some(env))))
    ensures m.fromSelf ==> OnMessage(m, botId, LogSeconds(Some(env)), channels, aiEnabled) == OwnMessage(None)
  {
  }

  datatype CommandError = CommandNotFound | MissingRequiredArgument(param: string) | MemberNotFound(argument: string) | OtherError(text: string)

  const MISSING_ARGUMENT := "❌ Missing argument: `"
  const MEMBER_NOT_FOUND := "❌ Member not found: `"
  const ERROR_OCCURRED := "❌ An error occurred: "

  /** `on_command_error`: an unknown command is ignored silently; the
      other errors are reported, naming what went wrong. */
  function ErrorReply(e: CommandError): (r: Option<string>)
    ensures r.None? <==> e.CommandNotFound?
    ensures e.MissingRequiredArgument? ==> r == Some(MISSING_ARGUMENT + e.param + "`")
    ensures e.MemberNotFound? ==> r == Some(MEMBER_NOT_FOUND + e.argument + "`")
    ensures e.OtherError? ==> r == Some(ERROR_OCCURRED + e.text)
  {
    match e
    case CommandNotFound => None
    case MissingRequiredArgument(p) => Some(MISSING_ARGUMENT + p + "`")
    case MemberNotFound(a) => Some(MEMBER_NOT_FOUND + a + "`")
    case OtherError(t) => Some(ERROR_OCCURRED + t)
  }
}
