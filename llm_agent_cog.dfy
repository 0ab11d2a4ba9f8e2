/** The LLM agent cog: how `agent` and `agentchat` deliver a reply, the
    per-user conversation table behind `agentchat` and `agentclear`, and the
    `models` embed. The agent's replies are inputs. */
module LlmAgentCog {
  import opened Wrappers
  import opened Text
  import opened Chunking

  const REPLY_CHUNK := 1900
  const MESSAGE_LIMIT := 2000
  const EMBED_CUT := 4000
  const EMBED_LIMIT := 4096

  /** One message: a reply to the command or a plain send, holding `body`
      either as is or inside a code fence. */
  datatype Outgoing = Outgoing(isReply: bool, fenced: bool, body: string)

  function Fence(body: string): string {
    "```\n" + body + "\n```"
  }

  function MessageText(o: Outgoing): string {
    if o.fenced then Fence(o.body) else o.body
  }

  function Bodies(os: seq<Outgoing>): (r: seq<string>)
    ensures |r| == |os|
    ensures forall k :: 0 <= k < |os| ==> r[k] == os[k].body
  {
    seq(|os|, k requires 0 <= k < |os| => os[k].body)
  }

  /** A reply of at most 1900 characters is sent as one plain reply; a
      longer one as 1900-character slices in code fences, the first as a
      reply and the rest as sends. */
  function AgentReplies(response: string): (r: seq<Outgoing>)
    ensures r != []
    ensures forall k :: 0 <= k < |r| ==> (r[k].isReply <==> k == 0)
    ensures forall k :: 0 <= k < |r| ==> (r[k].fenced <==> |response| > REPLY_CHUNK)
    ensures forall k :: 0 <= k < |r| ==> |MessageText(r[k])| <= MESSAGE_LIMIT
    ensures Concat(Bodies(r)) == response
  {
    var long := |response| > REPLY_CHUNK;
    var pieces := if long then Chunks(response, REPLY_CHUNK) else [response];
    ChunksConcat(response, REPLY_CHUNK);
    assert Concat([response]) == response by {
      assert [response][1..] == [];
      assert response + [] == response;
    }
    var r := seq(|pieces|, k requires 0 <= k < |pieces| => Outgoing(k == 0, long, pieces[k]));
    assert Bodies(r) == pieces;
    r
  }

  /** The conversation table keeps, for a user id, that same id as the
      conversation id. */
  ghost predicate IdsAreOwn(m: map<string, string>) {
    forall u :: u in m ==> m[u] == u
  }

  /** `agentchat`'s update: a first chat records the user, a later one
      leaves the entry as it is. */
  function Recorded(m: map<string, string>, user: string): (r: map<string, string>)
    ensures user in r && (user in m ==> r[user] == m[user])
    ensures forall u :: u != user ==> (u in r <==> u in m)
    ensures forall u :: u in m ==> u in r && r[u] == m[u]
    ensures IdsAreOwn(m) ==> IdsAreOwn(r)
  {
    if user in m then m else m[user := user]
  }

  class LlmAgentCog {
    /** `user_conversations`: user id text to conversation id. */
    var userConversations: map<string, string>

    ghost predicate Valid()
      reads this
    {
      IdsAreOwn(userConversations)
    }

    constructor()
      ensures userConversations == map[] && Valid()
    {
      userConversations := map[];
    }

    /** `agentchat`: the conversation id sent with the message is the one
        already recorded, if any; the user is recorded afterwards; the
        agent's `response` is delivered as `AgentReplies`. */
    method AgentChat(authorId: nat, response: string) returns (convId: Option<string>, replies: seq<Outgoing>)
      modifies this
      ensures var user := NatToString(authorId);
        convId == (if user in old(userConversations) then Some(old(userConversations)[user]) else None)
      ensures userConversations == Recorded(old(userConversations), NatToString(authorId))
      ensures old(Valid()) ==> Valid()
      ensures replies == AgentReplies(response)
    {
      var user := NatToString(authorId);
      convId := if user in userConversations then Some(userConversations[user]) else None;
      if user !in userConversations {
        userConversations := userConversations[user := user];
      }
      replies := AgentReplies(response);
    }

    /** `agentclear`: removes the user's entry when there is one and says
        whether it did. */
    method ClearConversation(authorId: nat) returns (cleared: bool)
      modifies this
      ensures cleared <==> NatToString(authorId) in old(userConversations)
      ensures userConversations == old(userConversations) - {NatToString(authorId)}
      ensures old(Valid()) ==> Valid()
    {
      var user := NatToString(authorId);
      cleared := user in userConversations;
      if cleared {
        userConversations := userConversations - {user};
      }
    }
  }

  /** Once recorded, a user's chats carry the user's own id, so two users
      never continue each other's conversation. */
  lemma ConversationsAreNotShared(m: map<string, string>, a: nat, b: nat)
    requires IdsAreOwn(m) && a != b
    requires NatToString(a) in m && NatToString(b) in m
    ensures m[NatToString(a)] == NatToString(a)
    ensures m[NatToString(a)] != m[NatToString(b)]
  {
    NatToStringInjective(a, b);
  }

  const NO_MODELS := "No models found"

  /** The `models` embed: the list, cut to 4000 characters, in a code
      fence, or a notice when the list is empty. */
  function ModelsDescription(models: string): (r: string)
    ensures models == [] ==> r == NO_MODELS
    ensures models != [] ==> |r| == Min(|models|, EMBED_CUT) + 8 && r[4..|r| - 4] == models[..|r| - 8]
    ensures models != [] && |models| <= EMBED_CUT ==> r == Fence(models)
    ensures |r| <= EMBED_LIMIT
  {
    if models == [] then NO_MODELS else Fence(Truncate(models, EMBED_CUT))
  }
}
