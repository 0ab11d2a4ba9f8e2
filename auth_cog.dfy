/** The Auth cog's mutable state: the authorization data, the coalescing
    save queue with its pending set and deleted-guild set, and the store it
    writes to, with the commands and listeners that change them. The save
    worker runs here one operation at a time. */
module AuthCog {
  import opened Wrappers
  import opened AuthJson
  import opened AuthData

  /** A queued save: the global role lists, or one guild's payload. */
  datatype SaveOp = GlobalSave | GuildSave(key: string)

  /** What the store holds for the global role lists. */
  datatype GlobalRecord = GlobalRecord(admins: seq<int>, moderators: seq<int>)

  /** `_enqueue_save` drops a guild save for a deleted guild that no map
      mentions any more. */
  predicate DropsSave(deleted: set<string>, d: Data, op: SaveOp)
  {
    op.GuildSave? && op.key in deleted && !KnowsGuild(d, op.key)
  }

  /** After a guild is removed, saving it again is dropped until some map
      mentions it anew. */
  lemma RemovedGuildSavesAreDropped(deleted: set<string>, d: Data, guild: string)
    ensures DropsSave(deleted + {guild}, Purge(d, guild), GuildSave(guild))
  {
    PurgeForgetsOnlyThatGuild(d, guild, guild);
  }

  /** The saves `_save_auth_data()` queues: the global one and one per
      guild in `keys`. */
  predicate Queued(op: SaveOp, keys: set<string>)
  {
    op == GlobalSave || (op.GuildSave? && op.key in keys)
  }

  /** `on_guild_remove` / the orphan loop of the bootstrap, over a set of
      guilds at once. */
  function PurgeAll(d: Data, guilds: set<string>): Data
  {
    d.(verified := d.verified - guilds,
       blacklisted := d.blacklisted - guilds,
       whitelisted := d.whitelisted - guilds,
       reactionRoles := d.reactionRoles - guilds,
       overrides := d.overrides - guilds,
       autokick := d.autokick - guilds)
  }

  lemma PurgeOneMore(d: Data, guilds: set<string>, guild: string)
    ensures Purge(PurgeAll(d, guilds), guild) == PurgeAll(d, guilds + {guild})
  {
  }

  /** No purged guild is mentioned any more; every other guild keeps its
      payload. */
  lemma PurgeAllForgetsOnlyThoseGuilds(d: Data, guilds: set<string>, other: string)
    ensures forall k :: KnowsGuild(PurgeAll(d, guilds), k) <==> KnowsGuild(d, k) && k !in guilds
    ensures other !in guilds ==> Payload(PurgeAll(d, guilds), other) == Payload(d, other)
  {
  }

  /** The outcome of the `blacklist` command. */
  datatype BlacklistOutcome = NotAnAdmin | TargetIsAdmin | Blacklisted | AlreadyBlacklisted

  /** The outcome of `unblacklist` with a member given. */
  datatype UnblacklistOutcome = UnblacklistDenied | Unblacklisted | NotBlacklisted

  /** `list.remove(x)`: the first occurrence goes. */
  function RemoveFirst(s: seq<int>, x: int): (r: seq<int>)
    ensures x !in s ==> r == s
    ensures x in s ==> |r| == |s| - 1
    ensures forall y :: y in r ==> y in s
    ensures forall y :: y in s && y != x ==> y in r
  {
    if s == [] then []
    else if s[0] == x then s[1..]
    else [s[0]] + RemoveFirst(s[1..], x)
  }

  /** On a duplicate-free list the removed user is gone completely. */
  lemma {:induction false} RemoveFirstFromDistinct(s: seq<int>, x: int)
    requires forall i, j :: 0 <= i < j < |s| ==> s[i] != s[j]
    ensures x !in RemoveFirst(s, x)
  {
    if s != [] && s[0] != x {
      RemoveFirstFromDistinct(s[1..], x);
    }
    if s != [] && s[0] == x {
      assert forall k :: 0 <= k < |s[1..]| ==> s[1..][k] == s[k + 1] && s[k + 1] != s[0];
    }
  }

  /** A guild member as the listeners see them. */
  datatype Member = Member(id: int, bot: bool, roles: set<int>)

  /** A reaction added or removed on some message, with what Discord
      resolves for it. */
  datatype ReactionEvent = ReactionEvent(
    guild: string,
    messageId: int,
    emoji: string,
    payloadMember: Option<Member>,   // the member the add event carries
    guildFound: bool,                // the bot still sees the guild
    cachedMember: Option<Member>,    // `guild.get_member(user_id)`
    guildRoles: set<int>,            // the role ids the guild has
    roleCallSucceeds: bool)          // adding or removing the role succeeds

  /** The role the first option with this emoji maps to. */
  function MappedRole(options: seq<RoleOption>, emoji: string): (r: Option<int>)
    ensures r.Some? ==> exists i :: 0 <= i < |options| && options[i].emoji == emoji && options[i].roleId == r.value
    ensures r.None? ==> forall i :: 0 <= i < |options| ==> options[i].emoji != emoji
  {
    if options == [] then None
    else if options[0].emoji == emoji then Some(options[0].roleId)
    else
      var r := MappedRole(options[1..], emoji);
      assert r.Some? ==> exists i :: 1 <= i < |options| && options[i].emoji == emoji && options[i].roleId == r.value by {
        if r.Some? {
          var i :| 0 <= i < |options[1..]| && options[1..][i].emoji == emoji && options[1..][i].roleId == r.value;
          assert options[i + 1] == options[1..][i];
        }
      }
      r
  }

  /** The member and role an event concerns once every guard of the
      listener has passed; a role id of 0 counts as no role. */
  function ReactionTarget(d: Data, ev: ReactionEvent, member: Option<Member>): Option<(Member, int)>
  {
    if ev.guild !in d.reactionRoles then None
    else
      var cfg := d.reactionRoles[ev.guild];
      var role := MappedRole(cfg.options, ev.emoji);
      if ev.messageId != cfg.messageId || role.None? || role.value == 0 then None
      else if !ev.guildFound || member.None? || member.value.bot then None
      else if role.value !in ev.guildRoles then None
      else Some((member.value, role.value))
  }

  /** `on_raw_reaction_add`: whom the listener records as verified. The
      member holds the role afterwards either way: they had it or the grant
      succeeded. */
  function VerifiedByReaction(d: Data, ev: ReactionEvent): Option<int>
  {
    if ev.payloadMember.Some? && ev.payloadMember.value.bot then None
    else
      var member := if ev.payloadMember.Some? then ev.payloadMember else ev.cachedMember;
      match ReactionTarget(d, ev, member)
      case None => None
      case Some((m, role)) =>
        if role in m.roles || ev.roleCallSucceeds then Some(m.id) else None
  }

  /** A reaction on another message, an emoji no option maps, or a role the
      guild lacks verifies no one. */
  lemma ReactionElsewhereVerifiesNoOne(d: Data, ev: ReactionEvent)
    requires ev.guild in d.reactionRoles
    requires var cfg := d.reactionRoles[ev.guild];
      || ev.messageId != cfg.messageId
      || (forall i :: 0 <= i < |cfg.options| ==> cfg.options[i].emoji != ev.emoji)
      || (exists r :: MappedRole(cfg.options, ev.emoji) == Some(r) && r !in ev.guildRoles)
    ensures VerifiedByReaction(d, ev).None?
  {
  }

  /** The verification roles of a guild's message. */
  function MappedRoles(options: seq<RoleOption>): set<int>
  {
    set i | 0 <= i < |options| :: options[i].roleId
  }

  /** As written, the removal listener asks whether the member still holds
      a mapped role by reading the roles the member shows right after the
      removal call. */
  predicate StillVerifiedAsWritten(cfg: ReactionConfig, rolesSeen: set<int>)
  {
    exists r :: r in rolesSeen && r in MappedRoles(cfg.options)
  }

  /** If the member's roles have not yet been refreshed when they are read,
      the role just removed is still among them and is itself a mapped
      role, so the as-written check always finds the member still verified
      and verification is never cleared. */
  lemma StaleRolesNeverClearVerification(cfg: ReactionConfig, emoji: string, roles: set<int>)
    requires MappedRole(cfg.options, emoji).Some?
    requires MappedRole(cfg.options, emoji).value in roles
    ensures StillVerifiedAsWritten(cfg, roles)
  {
    var i :| 0 <= i < |cfg.options| && cfg.options[i].emoji == emoji
             && cfg.options[i].roleId == MappedRole(cfg.options, emoji).value;
    assert cfg.options[i].roleId in MappedRoles(cfg.options);
  }

  /** The intended check: the member's roles without the one just removed. */
  predicate StillVerified(cfg: ReactionConfig, roles: set<int>, removed: int)
  {
    exists r :: r in roles - {removed} && r in MappedRoles(cfg.options)
  }

  /** The intended check clears verification exactly when the removed role
      was the only mapped role the member held. */
  lemma StillVerifiedMeaning(cfg: ReactionConfig, roles: set<int>, removed: int)
    requires removed in roles && removed in MappedRoles(cfg.options)
    ensures !StillVerified(cfg, roles, removed) <==> roles * MappedRoles(cfg.options) == {removed}
  {
    if StillVerified(cfg, roles, removed) {
      var r :| r in roles - {removed} && r in MappedRoles(cfg.options);
      assert r in roles * MappedRoles(cfg.options);
    }
  }

  /** `on_raw_reaction_remove`, with the intended check: whose verification
      the listener clears. */
  function UnverifiedByReaction(d: Data, ev: ReactionEvent): Option<int>
  {
    match ReactionTarget(d, ev, ev.cachedMember)
    case None => None
    case Some((m, role)) =>
      if role in m.roles && ev.roleCallSucceeds && !StillVerified(d.reactionRoles[ev.guild], m.roles, role)
      then Some(m.id) else None
  }

  class Cog {
    var data: Data
    var owner: int
    var onlyMe: Option<int>
    var queue: seq<SaveOp>
    var pending: set<SaveOp>
    var deletedGuilds: set<string>
    var storeGlobal: GlobalRecord
    var storeGuilds: map<string, GuildPayload>

    /** Every pending save is still in the queue. */
    ghost predicate Valid()
      reads this
    {
      forall op :: op in pending ==> op in queue
    }

    /** The cog just built from `loaded` data and a store holding `stored`. */
    constructor (loaded: Data, ownerId: int, stored: map<string, GuildPayload>, storedGlobal: GlobalRecord)
      ensures Valid()
      ensures data == loaded && owner == ownerId && onlyMe == None
      ensures queue == [] && pending == {} && deletedGuilds == {}
      ensures storeGuilds == stored && storeGlobal == storedGlobal
    {
      data := loaded;
      owner := ownerId;
      onlyMe := None;
      queue := [];
      pending := {};
      deletedGuilds := {};
      storeGuilds := stored;
      storeGlobal := storedGlobal;
    }

    /** `_enqueue_save`: a dropped save or one already pending changes
        nothing in the queue; any other joins the queue and the pending set.
        A guild save un-deletes a deleted guild that some map mentions. */
    method EnqueueSave(op: SaveOp)
      requires Valid()
      modifies this
      ensures Valid()
      ensures data == old(data) && owner == old(owner) && onlyMe == old(onlyMe)
      ensures storeGuilds == old(storeGuilds) && storeGlobal == old(storeGlobal)
      ensures deletedGuilds ==
        if op.GuildSave? && !DropsSave(old(deletedGuilds), data, op) then old(deletedGuilds) - {op.key}
        else old(deletedGuilds)
      ensures DropsSave(old(deletedGuilds), data, op) || op in old(pending) ==>
        queue == old(queue) && pending == old(pending)
      ensures !DropsSave(old(deletedGuilds), data, op) && op !in old(pending) ==>
        queue == old(queue) + [op] && pending == old(pending) + {op}
    {
      if op.GuildSave? && op.key in deletedGuilds {
        if KnowsGuild(data, op.key) {
          deletedGuilds := deletedGuilds - {op.key};
        } else {
          return;
        }
      }
      if op in pending {
        return;
      }
      pending := pending + {op};
      queue := queue + [op];
    }

    /** One turn of `_save_worker_loop`: the first queued save is written
        (unless it is for a deleted guild or an empty key) and leaves the
        pending set. `writeOk` is whether the store's write succeeds; a
        write that raises is only logged, so the store keeps its old record
        and the save still leaves the queue and the pending set. */
    method WorkerStep(writeOk: bool)
      requires Valid() && queue != []
      modifies this
      ensures Valid()
      ensures data == old(data) && owner == old(owner) && onlyMe == old(onlyMe)
      ensures deletedGuilds == old(deletedGuilds)
      ensures queue == old(queue)[1..]
      ensures pending == old(pending) - {old(queue)[0]}
      ensures !writeOk ==> storeGlobal == old(storeGlobal) && storeGuilds == old(storeGuilds)
      ensures writeOk && old(queue)[0] == GlobalSave ==>
        storeGlobal == GlobalRecord(SortedUnique(data.admins), SortedUnique(data.moderators))
        && storeGuilds == old(storeGuilds)
      ensures old(queue)[0].GuildSave? ==> storeGlobal == old(storeGlobal)
      ensures writeOk && old(queue)[0].GuildSave? && old(queue)[0].key != "" && old(queue)[0].key !in deletedGuilds ==>
        storeGuilds == old(storeGuilds)[old(queue)[0].key := Payload(data, old(queue)[0].key)]
      ensures old(queue)[0].GuildSave? && (old(queue)[0].key == "" || old(queue)[0].key in deletedGuilds) ==>
        storeGuilds == old(storeGuilds)
    {
      var op := queue[0];
      queue := queue[1..];
      if !writeOk {
        // the store raised: the error is printed and the save is lost
      } else if op == GlobalSave {
        storeGlobal := GlobalRecord(SortedUnique(data.admins), SortedUnique(data.moderators));
      } else if op.key != "" && op.key !in deletedGuilds {
        storeGuilds := storeGuilds[op.key := Payload(data, op.key)];
      }
      pending := pending - {op};
    }

    /** The worker runs until the queue is empty, with the saves in
        `failing` being those whose write raises: nothing is left pending;
        every live guild queued with a succeeding save holds its current
        payload; every other guild's stored record, deleted guilds' among
        them, is untouched; and the global record is rewritten exactly when
        a succeeding global save was queued. */
    method Drain(failing: set<SaveOp>)
      requires Valid()
      modifies this
      ensures Valid()
      ensures data == old(data) && deletedGuilds == old(deletedGuilds)
      ensures owner == old(owner) && onlyMe == old(onlyMe)
      ensures queue == [] && pending == {}
      ensures forall k :: GuildSave(k) in old(queue) && GuildSave(k) !in failing && k != "" && k !in deletedGuilds ==>
        k in storeGuilds && storeGuilds[k] == Payload(data, k)
      ensures forall k :: k in deletedGuilds || k == "" || GuildSave(k) !in old(queue) || GuildSave(k) in failing ==>
        (k in storeGuilds <==> k in old(storeGuilds))
        && (k in storeGuilds ==> storeGuilds[k] == old(storeGuilds)[k])
      ensures GlobalSave in old(queue) && GlobalSave !in failing ==>
        storeGlobal == GlobalRecord(SortedUnique(data.admins), SortedUnique(data.moderators))
      ensures GlobalSave !in old(queue) || GlobalSave in failing ==> storeGlobal == old(storeGlobal)
    {
      ghost var all := queue;
      while queue != []
        invariant Valid()
        invariant data == old(data) && deletedGuilds == old(deletedGuilds)
        invariant owner == old(owner) && onlyMe == old(onlyMe)
        invariant |queue| <= |all| && queue == all[|all| - |queue|..]
        invariant forall k :: GuildSave(k) in all[..|all| - |queue|] && GuildSave(k) !in failing && k != "" && k !in deletedGuilds ==>
          k in storeGuilds && storeGuilds[k] == Payload(data, k)
        invariant forall k :: k in deletedGuilds || k == "" || GuildSave(k) !in all[..|all| - |queue|] || GuildSave(k) in failing ==>
          (k in storeGuilds <==> k in old(storeGuilds))
          && (k in storeGuilds ==> storeGuilds[k] == old(storeGuilds)[k])
        invariant GlobalSave in all[..|all| - |queue|] && GlobalSave !in failing ==>
          storeGlobal == GlobalRecord(SortedUnique(data.admins), SortedUnique(data.moderators))
        invariant GlobalSave !in all[..|all| - |queue|] || GlobalSave in failing ==> storeGlobal == old(storeGlobal)
        decreases |queue|
      {
        ghost var done := |all| - |queue|;
        assert all[done] == queue[0];
        assert all[..done + 1] == all[..done] + [queue[0]];
        WorkerStep(queue[0] !in failing);
        assert queue == all[done + 1..];
      }
      assert all[..|all|] == all;
    }

    /** `_save_auth_data`: with a guild, that guild's save; without one, the
        global save and a save for every guild some map mentions. Every such
        save ends up pending, and those guilds are no longer deleted. */
    method SaveAuthData(guild: Option<string>)
      requires Valid()
      modifies this
      ensures Valid()
      ensures data == old(data) && owner == old(owner) && onlyMe == old(onlyMe)
      ensures storeGuilds == old(storeGuilds) && storeGlobal == old(storeGlobal)
      ensures old(queue) <= queue
      ensures guild.Some? && DropsSave(old(deletedGuilds), data, GuildSave(guild.value)) ==>
        queue == old(queue) && pending == old(pending) && deletedGuilds == old(deletedGuilds)
      ensures guild.Some? && !DropsSave(old(deletedGuilds), data, GuildSave(guild.value)) ==>
        && pending == old(pending) + {GuildSave(guild.value)}
        && queue == (if GuildSave(guild.value) in old(pending) then old(queue) else old(queue) + [GuildSave(guild.value)])
        && deletedGuilds == old(deletedGuilds) - {guild.value}
      ensures guild.None? ==>
        && (forall op :: op in pending <==> op in old(pending) || Queued(op, AllGuildKeys(data)))
        && (forall k :: k in deletedGuilds <==> k in old(deletedGuilds) && k !in AllGuildKeys(data))
        && (forall i :: |old(queue)| <= i < |queue| ==> Queued(queue[i], AllGuildKeys(data)))
    {
      if guild.Some? {
        EnqueueSave(GuildSave(guild.value));
        return;
      }
      EnqueueSave(GlobalSave);
      var keys := AllGuildKeys(data);
      var left := keys;
      ghost var done: set<string> := {};
      ghost var q0 := old(queue);
      while left != {}
        invariant Valid()
        invariant left <= keys && done <= keys
        invariant forall x :: x in keys ==> (x in done <==> x !in left)
        invariant data == old(data) && owner == old(owner) && onlyMe == old(onlyMe)
        invariant storeGuilds == old(storeGuilds) && storeGlobal == old(storeGlobal)
        invariant q0 <= queue
        invariant forall op :: op in pending <==> op in old(pending) || Queued(op, done)
        invariant forall x :: x in deletedGuilds <==> x in old(deletedGuilds) && x !in done
        invariant forall i :: |q0| <= i < |queue| ==> Queued(queue[i], done)
        decreases left
      {
        var k :| k in left;
        EnqueueSave(GuildSave(k));
        left := left - {k};
        done := done + {k};
      }
    }

    /** `on_guild_remove`: the guild becomes deleted, leaves all six maps,
        loses its pending save and its stored record. */
    method OnGuildRemove(guild: string)
      requires Valid()
      modifies this
      ensures Valid()
      ensures deletedGuilds == old(deletedGuilds) + {guild}
      ensures data == Purge(old(data), guild)
      ensures pending == old(pending) - {GuildSave(guild)} && queue == old(queue)
      ensures storeGuilds == old(storeGuilds) - {guild} && storeGlobal == old(storeGlobal)
      ensures owner == old(owner) && onlyMe == old(onlyMe)
    {
      deletedGuilds := deletedGuilds + {guild};
      data := Purge(data, guild);
      pending := pending - {GuildSave(guild)};
      storeGuilds := storeGuilds - {guild};
    }

    /** `ensure_guild_db`: a missing record is created empty. */
    method EnsureGuildRecord(guild: string)
      modifies this
      ensures storeGuilds == if guild in old(storeGuilds) then old(storeGuilds)
                             else old(storeGuilds)[guild := EMPTY_PAYLOAD]
      ensures data == old(data) && queue == old(queue) && pending == old(pending)
      ensures deletedGuilds == old(deletedGuilds) && storeGlobal == old(storeGlobal)
      ensures owner == old(owner) && onlyMe == old(onlyMe)
    {
      if guild !in storeGuilds {
        storeGuilds := storeGuilds[guild := EMPTY_PAYLOAD];
      }
    }

    /** `on_guild_join`: the guild is no longer deleted, has a record (an
        empty one when it had none), and its save is pending, queued anew
        unless it already was; nothing else changes. */
    method OnGuildJoin(guild: string)
      requires Valid()
      modifies this
      ensures Valid()
      ensures deletedGuilds == old(deletedGuilds) - {guild}
      ensures storeGuilds == if guild in old(storeGuilds) then old(storeGuilds)
                             else old(storeGuilds)[guild := EMPTY_PAYLOAD]
      ensures pending == old(pending) + {GuildSave(guild)}
      ensures queue == if GuildSave(guild) in old(pending) then old(queue) else old(queue) + [GuildSave(guild)]
      ensures data == old(data) && storeGlobal == old(storeGlobal)
      ensures owner == old(owner) && onlyMe == old(onlyMe)
    {
      deletedGuilds := deletedGuilds - {guild};
      EnsureGuildRecord(guild);
      SaveAuthData(Some(guild));
    }

    /** The first loop of the bootstrap: every active guild gets a record;
        existing records are kept. */
    method EnsureRecords(active: set<string>)
      requires Valid()
      modifies this
      ensures Valid()
      ensures forall k :: k in storeGuilds <==> k in old(storeGuilds) || k in active
      ensures forall k :: k in old(storeGuilds) ==> storeGuilds[k] == old(storeGuilds)[k]
      ensures data == old(data) && deletedGuilds == old(deletedGuilds) && pending == old(pending)
      ensures queue == old(queue)
    {
      var store := storeGuilds;
      var toEnsure := active;
      while toEnsure != {}
        invariant toEnsure <= active
        invariant forall k :: k in store <==> k in storeGuilds || k in active - toEnsure
        invariant forall k :: k in storeGuilds ==> k in store && store[k] == storeGuilds[k]
        decreases toEnsure
      {
        var k :| k in toEnsure;
        if k !in store {
          store := store[k := EMPTY_PAYLOAD];
        }
        toEnsure := toEnsure - {k};
      }
      storeGuilds := store;
    }

    /** The orphan loop of the bootstrap: each orphan is removed as
        `on_guild_remove` removes a guild. */
    method RemoveOrphans(orphans: set<string>)
      requires Valid()
      modifies this
      ensures Valid()
      ensures data == PurgeAll(old(data), orphans)
      ensures forall k :: k in storeGuilds <==> k in old(storeGuilds) && k !in orphans
      ensures forall k :: k in storeGuilds ==> storeGuilds[k] == old(storeGuilds)[k]
      ensures forall k :: k in deletedGuilds <==> k in old(deletedGuilds) || k in orphans
      ensures forall op :: op in pending <==> op in old(pending) && !(op.GuildSave? && op.key in orphans)
      ensures queue == old(queue)
    {
      var d, store, deleted, waiting := data, storeGuilds, deletedGuilds, pending;
      var left := orphans;
      ghost var done: set<string> := {};
      while left != {}
        invariant unchanged(this)
        invariant left <= orphans && done <= orphans
        invariant forall x :: x in orphans ==> (x in done <==> x !in left)
        invariant d == PurgeAll(data, done)
        invariant forall k :: k in store <==> k in storeGuilds && k !in done
        invariant forall k :: k in store ==> store[k] == storeGuilds[k]
        invariant forall k :: k in deleted <==> k in deletedGuilds || k in done
        invariant forall op :: op in waiting <==> op in pending && !(op.GuildSave? && op.key in done)
        decreases left
      {
        var k :| k in left;
        PurgeOneMore(data, done, k);
        deleted := deleted + {k};
        d := Purge(d, k);
        waiting := waiting - {GuildSave(k)};
        store := store - {k};
        left := left - {k};
        done := done + {k};
      }
      assert done == orphans;
      data, storeGuilds, deletedGuilds, pending := d, store, deleted, waiting;
    }

    /** `_bootstrap_databases` given the guilds the bot is in: every active
        guild gets a record, exactly the stored guilds that are not active
        are deleted (from memory, the pending set and the store), and then
        everything is queued for saving. */
    method Bootstrap(active: set<string>)
      requires Valid()
      modifies this
      ensures Valid()
      ensures forall k :: k in storeGuilds <==> k in active
      ensures forall k :: k in active && k in old(storeGuilds) ==> storeGuilds[k] == old(storeGuilds)[k]
      ensures data == PurgeAll(old(data), old(storeGuilds).Keys - active)
      ensures forall k :: k in old(storeGuilds).Keys - active ==>
        k in deletedGuilds && GuildSave(k) !in pending
      ensures GlobalSave in pending && forall k :: KnowsGuild(data, k) ==> GuildSave(k) in pending
    {
      var orphans := storeGuilds.Keys - active;
      EnsureRecords(active);
      RemoveOrphans(orphans);
      PurgeAllForgetsOnlyThoseGuilds(old(data), orphans, "");
      SaveAuthData(None);
    }

    /** `ensure_command_override`: the guild's own record for the command,
        created blank when the guild has none. */
    method EnsureCommandOverride(guild: string, command: string) returns (o: Override)
      requires Valid()
      modifies this
      ensures Valid()
      ensures o == GetCommandOverride(data, guild, command)
      ensures guild in old(data).overrides && command in old(data).overrides[guild] ==>
        data == old(data) && o == old(data).overrides[guild][command]
      ensures !(guild in old(data).overrides && command in old(data).overrides[guild]) ==>
        o == Override(false, [], [])
        && data == old(data).(overrides := old(data).overrides[guild :=
             (if guild in old(data).overrides then old(data).overrides[guild] else map[])[command := o]])
      ensures queue == old(queue) && pending == old(pending) && deletedGuilds == old(deletedGuilds)
      ensures storeGuilds == old(storeGuilds) && storeGlobal == old(storeGlobal)
    {
      var commands := if guild in data.overrides then data.overrides[guild] else map[];
      if command !in commands {
        commands := commands[command := Override(false, [], [])];
        data := data.(overrides := data.overrides[guild := commands]);
      }
      o := commands[command];
    }

    /** The `blacklist` command: only bot admins may use it, and no bot
        admin can be blacklisted. A new entry is appended and saved. */
    method Blacklist(author: int, target: int, guild: string) returns (outcome: BlacklistOutcome)
      requires Valid()
      modifies this
      ensures Valid()
      ensures outcome == NotAnAdmin <==> !IsAdmin(old(data), owner, author)
      ensures outcome == TargetIsAdmin <==> IsAdmin(old(data), owner, author) && IsAdmin(old(data), owner, target)
      ensures outcome == Blacklisted ==>
        && !IsAdmin(old(data), owner, target)
        && target !in ListAt(old(data).blacklisted, guild)
        && data == old(data).(blacklisted := old(data).blacklisted[guild :=
             ListAt(old(data).blacklisted, guild) + [target]])
        && GuildSave(guild) in pending
      ensures outcome == AlreadyBlacklisted ==> target in ListAt(data.blacklisted, guild)
      ensures outcome != Blacklisted ==> data.admins == old(data).admins && data == old(data)
      ensures outcome == Blacklisted || outcome == AlreadyBlacklisted ==> IsBlacklisted(data, target, Some(guild))
    {
      if !IsAdmin(data, owner, author) {
        return NotAnAdmin;
      }
      if IsAdmin(data, owner, target) {
        return TargetIsAdmin;
      }
      var list := ListAt(data.blacklisted, guild);
      if target !in list {
        data := data.(blacklisted := data.blacklisted[guild := list + [target]]);
        SaveAuthData(Some(guild));
        outcome := Blacklisted;
      } else {
        outcome := AlreadyBlacklisted;
      }
    }

    /** The first entry for the user in the guild's list goes and the guild
        is saved; a user not on the list changes nothing. The legacy global
        list is not touched. */
    method DropFromBlacklist(target: int, guild: string) returns (removed: bool)
      requires Valid()
      modifies this
      ensures Valid()
      ensures removed <==> target in ListAt(old(data).blacklisted, guild)
      ensures removed ==>
        && data == old(data).(blacklisted := old(data).blacklisted[guild :=
             RemoveFirst(old(data).blacklisted[guild], target)])
        && GuildSave(guild) in pending
      ensures !removed ==> data == old(data) && queue == old(queue) && pending == old(pending)
      ensures owner == old(owner) && onlyMe == old(onlyMe)
    {
      var list := ListAt(data.blacklisted, guild);
      removed := target in list;
      if removed {
        data := data.(blacklisted := data.blacklisted[guild := RemoveFirst(list, target)]);
        SaveAuthData(Some(guild));
      }
    }

    /** `unblacklist` with a member given: only an admin may remove a user
        from the guild's blacklist. */
    method Unblacklist(author: int, target: int, guild: string) returns (outcome: UnblacklistOutcome)
      requires Valid()
      modifies this
      ensures Valid()
      ensures outcome == UnblacklistDenied <==> !IsAdmin(old(data), owner, author)
      ensures outcome == Unblacklisted ==>
        && target in ListAt(old(data).blacklisted, guild)
        && data == old(data).(blacklisted := old(data).blacklisted[guild :=
             RemoveFirst(old(data).blacklisted[guild], target)])
        && GuildSave(guild) in pending
      ensures outcome == NotBlacklisted ==>
        target !in ListAt(old(data).blacklisted, guild) && data == old(data)
      ensures outcome == UnblacklistDenied ==> data == old(data)
    {
      if !IsAdmin(data, owner, author) {
        return UnblacklistDenied;
      }
      var removed := DropFromBlacklist(target, guild);
      outcome := if removed then Unblacklisted else NotBlacklisted;
    }

    /** `on_raw_reaction_add`: a verified member is added to the guild's
        verified list at most once, and the guild is saved when the list
        changes. */
    method OnReactionAdd(ev: ReactionEvent)
      requires Valid()
      modifies this
      ensures Valid()
      ensures VerifiedByReaction(old(data), ev).None? ==> data == old(data) && queue == old(queue)
      ensures VerifiedByReaction(old(data), ev).Some? ==>
        var u := VerifiedByReaction(old(data), ev).value;
        && IsVerified(data, ev.guild, u)
        && (u in ListAt(old(data).verified, ev.guild) ==> data == old(data))
        && (u !in ListAt(old(data).verified, ev.guild) ==>
              data == old(data).(verified := old(data).verified[ev.guild :=
                ListAt(old(data).verified, ev.guild) + [u]])
              && GuildSave(ev.guild) in pending)
      ensures storeGuilds == old(storeGuilds)
    {
      var who := VerifiedByReaction(data, ev);
      if who.None? {
        return;
      }
      var list := ListAt(data.verified, ev.guild);
      if who.value !in list {
        data := data.(verified := data.verified[ev.guild := list + [who.value]]);
        SaveAuthData(Some(ev.guild));
      }
    }

    /** `on_raw_reaction_remove` with the intended check: the member's first
        verified entry goes once no mapped role remains. */
    method OnReactionRemove(ev: ReactionEvent)
      requires Valid()
      modifies this
      ensures Valid()
      ensures UnverifiedByReaction(old(data), ev).None? ==> data == old(data) && queue == old(queue)
      ensures UnverifiedByReaction(old(data), ev).Some? ==>
        var u := UnverifiedByReaction(old(data), ev).value;
        && (u !in ListAt(old(data).verified, ev.guild) ==> data == old(data))
        && (u in ListAt(old(data).verified, ev.guild) ==>
              data == old(data).(verified := old(data).verified[ev.guild :=
                RemoveFirst(old(data).verified[ev.guild], u)])
              && GuildSave(ev.guild) in pending)
      ensures storeGuilds == old(storeGuilds)
    {
      var who := UnverifiedByReaction(data, ev);
      if who.None? {
        return;
      }
      var list := ListAt(data.verified, ev.guild);
      if who.value in list {
        data := data.(verified := data.verified[ev.guild := RemoveFirst(list, who.value)]);
        SaveAuthData(Some(ev.guild));
      }
    }
  }
}
