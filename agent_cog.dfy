/** The agent cog (the `agent` command group): where the prompt of a bare
    `agent` message comes from, how replies are split to fit a message, the
    per-channel conversation id of `agent chat` and the task embed. The
    agent's replies are inputs. */
module AgentCog {
  import opened Wrappers
  import opened Text
  import opened Chunking

  const MESSAGE_LIMIT := 2000
  const EMBED_LIMIT := 4096

  /** `content.split(" ", 1)[1]` when there is a second part: everything
      after the first space. */
  function PromptOf(content: string): (r: Option<string>)
    ensures r.None? <==> ' ' !in content
    ensures r.Some? ==> var i := FirstIndex(content, ' ');
      content == content[..i] + [' '] + r.value
  {
    var i := FirstIndex(content, ' ');
    if i == |content| then None
    else
      assert content == content[..i] + [' '] + content[i + 1..];
      Some(content[i + 1..])
  }

  /** A command word and the text after its first space: the text is the
      prompt, spaces and all. */
  lemma PromptRoundTrip(command: string, rest: string)
    requires ' ' !in command
    ensures PromptOf(command + [' '] + rest) == Some(rest)
  {
    var content := command + [' '] + rest;
    var i := FirstIndex(content, ' ');
    assert content[|command|] == ' ';
    assert i == |command|;
    assert content[i + 1..] == rest;
  }

  /** What a reply turns into: one message, or 2000-character slices when
      it is longer. */
  function Messages(response: string): (r: seq<string>)
    ensures r != []
    ensures forall k :: 0 <= k < |r| ==> |r[k]| <= MESSAGE_LIMIT
    ensures Concat(r) == response
    ensures |response| <= MESSAGE_LIMIT ==> r == [response]
  {
    ChunksConcat(response, MESSAGE_LIMIT);
    assert Concat([response]) == response by {
      assert [response][1..] == [];
      assert response + [] == response;
    }
    if |response| > MESSAGE_LIMIT then Chunks(response, MESSAGE_LIMIT) else [response]
  }

  datatype GroupReply = SendHelp | Sent(messages: seq<string>)

  /** `agent` with no subcommand: help without a prompt, otherwise the
      agent's `response` to the prompt as `Messages`. */
  function AgentGroup(content: string, response: string): (r: GroupReply)
    ensures r.SendHelp? <==> PromptOf(content).None?
    ensures r.Sent? ==> Concat(r.messages) == response
  {
    if PromptOf(content).None? then SendHelp else Sent(Messages(response))
  }

  /** `agent chat` keeps one conversation per channel. */
  function ConversationId(channelId: nat): (r: string)
    ensures |r| > 8 && r[..8] == "discord-"
  {
    "discord-" + NatToString(channelId)
  }

  lemma {:induction false} ChannelsHaveTheirOwnConversation(a: nat, b: nat)
    requires a != b
    ensures ConversationId(a) != ConversationId(b)
  {
    var ca := ConversationId(a);
    var cb := ConversationId(b);
    if ca == cb {
      assert ca[8..] == NatToString(a) && cb[8..] == NatToString(b);
      NatToStringInjective(a, b);
    }
  }

  datatype TaskEmbed = TaskEmbed(description: string, truncatedFooter: bool)

  /** `agent task`: the reply cut to the embed's 4096 characters, with the
      truncation footer exactly when something was cut. */
  function AgentTask(response: string): (r: TaskEmbed)
    ensures |r.description| == Min(|response|, EMBED_LIMIT)
    ensures r.description == response[..|r.description|]
    ensures r.truncatedFooter <==> r.description != response
  {
    TaskEmbed(Truncate(response, EMBED_LIMIT), |response| > EMBED_LIMIT)
  }
}
