/** The in-memory authorization data of the Auth cog, the role and list
    predicates over it, the per-command permission decision and the global
    command check. Guilds are named by their decimal key strings, as the
    data stores them. */
module AuthData {
  import opened Wrappers

  /** A command's override record; `NoOverride` is the empty record `{}`. */
  datatype Override =
    | NoOverride
    | Override(disabled: bool, allowedRoles: seq<int>, allowedUsers: seq<int>)

  /** One emoji-to-role mapping of a verification message. */
  datatype RoleOption = RoleOption(roleId: int, emoji: string)

  /** A guild's verification message and its options. */
  datatype ReactionConfig = ReactionConfig(messageId: int, channelId: int, options: seq<RoleOption>)

  datatype Autokick = Autokick(enabled: bool, minAgeDays: int)

  /** `auth_data`: the global role lists and the six per-guild maps. */
  datatype Data = Data(
    admins: seq<int>,
    moderators: seq<int>,
    verified: map<string, seq<int>>,
    blacklisted: map<string, seq<int>>,
    whitelisted: map<string, seq<int>>,
    reactionRoles: map<string, ReactionConfig>,
    overrides: map<string, map<string, Override>>,
    autokick: map<string, Autokick>)

  /** The key under which migrated legacy values apply to every guild. */
  const GLOBAL_KEY: string := "_global"

  /** `_default_auth_data`. */
  const DEFAULT_DATA: Data := Data([], [], map[], map[], map[], map[], map[], map[])

  /** `_is_data_empty`: no role list and no per-guild map holds anything. */
  predicate IsDataEmpty(d: Data)
  {
    && d.admins == [] && d.moderators == []
    && d.verified == map[] && d.blacklisted == map[] && d.whitelisted == map[]
    && d.reactionRoles == map[] && d.overrides == map[] && d.autokick == map[]
  }

  /** `users.get(key, [])`. */
  function ListAt(users: map<string, seq<int>>, key: string): (r: seq<int>)
    ensures key in users ==> r == users[key]
    ensures key !in users ==> r == []
  {
    if key in users then users[key] else []
  }

  predicate IsOwner(owner: int, user: int)
  {
    user == owner
  }

  predicate IsAdmin(d: Data, owner: int, user: int)
  {
    user in d.admins || IsOwner(owner, user)
  }

  predicate IsModerator(d: Data, owner: int, user: int)
  {
    user in d.moderators || IsAdmin(d, owner, user)
  }

  /** The ranks nest: the owner is an admin and every admin a moderator,
      whatever the lists hold. */
  lemma RolesNest(d: Data, owner: int, user: int)
    ensures IsAdmin(d, owner, owner) && IsModerator(d, owner, owner)
    ensures IsAdmin(d, owner, user) ==> IsModerator(d, owner, user)
    ensures IsModerator(d, owner, user) <==>
      user in d.moderators || user in d.admins || user == owner
  {
  }

  /** `is_blacklisted(user, guild)`. */
  predicate IsBlacklisted(d: Data, user: int, guild: Option<string>)
  {
    if guild.Some? && user in ListAt(d.blacklisted, guild.value) then true
    else if user in ListAt(d.blacklisted, GLOBAL_KEY) then true
    else if guild.None? then exists key :: key in d.blacklisted && user in d.blacklisted[key]
    else false
  }

  /** In a guild, a user is blacklisted exactly when that guild's list or the
      legacy global list holds them; without a guild, when any list does.
      So the check without a guild is the widest. */
  lemma BlacklistScope(d: Data, user: int, guild: string)
    ensures IsBlacklisted(d, user, Some(guild)) <==>
      user in ListAt(d.blacklisted, guild) || user in ListAt(d.blacklisted, GLOBAL_KEY)
    ensures IsBlacklisted(d, user, None) <==>
      exists key :: key in d.blacklisted && user in d.blacklisted[key]
    ensures IsBlacklisted(d, user, Some(guild)) ==> IsBlacklisted(d, user, None)
  {
    if user in ListAt(d.blacklisted, guild) {
      assert guild in d.blacklisted;
    }
    if user in ListAt(d.blacklisted, GLOBAL_KEY) {
      assert GLOBAL_KEY in d.blacklisted;
    }
  }

  predicate IsVerified(d: Data, guild: string, user: int)
  {
    guild in d.verified && user in d.verified[guild]
  }

  predicate IsWhitelisted(d: Data, guild: string, user: int)
  {
    guild in d.whitelisted && user in d.whitelisted[guild]
  }

  /** `get_command_override`: the guild's own record, else the legacy
      global one, else the empty record. */
  function GetCommandOverride(d: Data, guild: string, command: string): Override
  {
    if guild in d.overrides && command in d.overrides[guild] then d.overrides[guild][command]
    else if GLOBAL_KEY in d.overrides && command in d.overrides[GLOBAL_KEY] then
      d.overrides[GLOBAL_KEY][command]
    else NoOverride
  }

  /** A guild's own record shadows the global one; the empty record comes
      back only when neither level has a real record for the command. */
  lemma OverrideLookup(d: Data, guild: string, command: string)
    ensures guild in d.overrides && command in d.overrides[guild] ==>
      GetCommandOverride(d, guild, command) == d.overrides[guild][command]
    ensures GetCommandOverride(d, guild, command).Override? ==>
      (guild in d.overrides && command in d.overrides[guild]
        && d.overrides[guild][command] == GetCommandOverride(d, guild, command))
      || (GLOBAL_KEY in d.overrides && command in d.overrides[GLOBAL_KEY]
        && d.overrides[GLOBAL_KEY][command] == GetCommandOverride(d, guild, command))
  {
  }

  /** The commands that only bot admins may run unless an override says
      otherwise. */
  const ADMIN_COMMANDS: set<string> := {
    "kick", "ban", "unban", "softban",
    "mute", "unmute", "muteall", "unmuteall",
    "deafen", "undeafen", "timeout", "untimeout",
    "move", "kick_voice", "clear", "purge",
    "addrole", "removerole", "addadmin", "removeadmin",
    "addmod", "removemod", "blacklist", "unblacklist",
    "whitelist", "unwhitelist", "setlimit", "voicediag"
  }

  datatype Command = Command(name: string, qualifiedName: string)

  datatype Guild = Guild(key: string, ownerId: int)

  /** What a command invocation carries into the checks. */
  datatype Context = Context(
    command: Option<Command>,
    guild: Option<Guild>,
    author: int,
    authorRoles: set<int>)

  predicate HoldsAllowedRole(roles: set<int>, allowed: seq<int>)
  {
    exists r :: r in roles && r in allowed
  }

  /** `check_command_permission`. */
  predicate CheckCommandPermission(d: Data, owner: int, ctx: Context)
  {
    if ctx.command.None? || ctx.guild.None? then true
    else
      var name := ctx.command.value.qualifiedName;
      var o := GetCommandOverride(d, ctx.guild.value.key, name);
      if o.NoOverride? then name !in ADMIN_COMMANDS || IsAdmin(d, owner, ctx.author)
      else if IsOwner(owner, ctx.author) then true
      else if o.disabled then false
      else if o.allowedUsers != [] && ctx.author !in o.allowedUsers then false
      else if o.allowedRoles != [] && !HoldsAllowedRole(ctx.authorRoles, o.allowedRoles) then false
      else true
  }

  /** Without a command or outside a guild nothing is refused. */
  lemma PermissionOutsideGuild(d: Data, owner: int, ctx: Context)
    requires ctx.command.None? || ctx.guild.None?
    ensures CheckCommandPermission(d, owner, ctx)
  {
  }

  /** With no override, exactly the fixed sensitive commands are refused,
      and only to users who are not bot admins. */
  lemma DefaultPolicy(d: Data, owner: int, ctx: Context)
    requires ctx.command.Some? && ctx.guild.Some?
    requires GetCommandOverride(d, ctx.guild.value.key, ctx.command.value.qualifiedName).NoOverride?
    ensures CheckCommandPermission(d, owner, ctx) <==>
      ctx.command.value.qualifiedName !in ADMIN_COMMANDS || IsAdmin(d, owner, ctx.author)
  {
  }

  /** With an override, the owner passes; anyone else passes exactly when
      the command is not disabled, they are on a non-empty user list or
      there is none, and they hold a listed role or no role is listed. */
  lemma OverridePolicy(d: Data, owner: int, ctx: Context)
    requires ctx.command.Some? && ctx.guild.Some?
    requires GetCommandOverride(d, ctx.guild.value.key, ctx.command.value.qualifiedName).Override?
    ensures var o := GetCommandOverride(d, ctx.guild.value.key, ctx.command.value.qualifiedName);
      CheckCommandPermission(d, owner, ctx) <==>
        IsOwner(owner, ctx.author)
        || (&& !o.disabled
            && (o.allowedUsers == [] || ctx.author in o.allowedUsers)
            && (o.allowedRoles == [] || HoldsAllowedRole(ctx.authorRoles, o.allowedRoles)))
  {
  }

  /** The owner is never refused a command, with or without an override. */
  lemma OwnerAlwaysPermitted(d: Data, owner: int, ctx: Context)
    requires IsOwner(owner, ctx.author)
    ensures CheckCommandPermission(d, owner, ctx)
  {
  }

  /** A blank override record (not disabled, no lists) lets every user run
      the command, the sensitive ones included. */
  lemma BlankOverrideOpensCommand(d: Data, owner: int, ctx: Context)
    requires ctx.command.Some? && ctx.guild.Some?
    requires GetCommandOverride(d, ctx.guild.value.key, ctx.command.value.qualifiedName)
      == Override(false, [], [])
    ensures CheckCommandPermission(d, owner, ctx)
  {
  }

  /** The global check every command passes through: the only-me lock
      (which `openall` by a privileged user may pass), then the blacklist,
      then the command's permission. */
  predicate GlobalCheck(d: Data, owner: int, onlyMe: Option<int>, ctx: Context)
  {
    var name := if ctx.command.Some? then ctx.command.value.name else "";
    var guildKey := if ctx.guild.Some? then Some(ctx.guild.value.key) else None;
    if onlyMe.Some? && name == "openall" && PrivilegedUnderLock(d, owner, onlyMe.value, ctx) then true
    else if onlyMe.Some? && ctx.author != onlyMe.value then false
    else if IsBlacklisted(d, ctx.author, guildKey) then false
    else CheckCommandPermission(d, owner, ctx)
  }

  /** The lock owner, a bot admin, or the guild's owner. */
  predicate PrivilegedUnderLock(d: Data, owner: int, lockOwner: int, ctx: Context)
  {
    ctx.author == lockOwner || IsAdmin(d, owner, ctx.author)
    || (ctx.guild.Some? && ctx.author == ctx.guild.value.ownerId)
  }

  /** While the lock is set, only its owner gets through, except that a
      privileged user may always run `openall`. */
  lemma LockAdmitsOnlyItsOwner(d: Data, owner: int, lockOwner: int, ctx: Context)
    ensures ctx.author != lockOwner && !(ctx.command.Some? && ctx.command.value.name == "openall") ==>
      !GlobalCheck(d, owner, Some(lockOwner), ctx)
    ensures (ctx.command.Some? && ctx.command.value.name == "openall"
             && PrivilegedUnderLock(d, owner, lockOwner, ctx)) ==>
      GlobalCheck(d, owner, Some(lockOwner), ctx)
  {
  }

  /** A blacklisted user gets nothing through the global check but
      `openall` while the lock is set; with no lock and no blacklist entry
      the global check is the command's permission. */
  lemma BlacklistOverridesPermission(d: Data, owner: int, onlyMe: Option<int>, ctx: Context)
    ensures var guildKey := if ctx.guild.Some? then Some(ctx.guild.value.key) else None;
      IsBlacklisted(d, ctx.author, guildKey) && GlobalCheck(d, owner, onlyMe, ctx) ==>
        onlyMe.Some? && ctx.command.Some? && ctx.command.value.name == "openall"
    ensures var guildKey := if ctx.guild.Some? then Some(ctx.guild.value.key) else None;
      onlyMe.None? && !IsBlacklisted(d, ctx.author, guildKey) ==>
        (GlobalCheck(d, owner, onlyMe, ctx) <==> CheckCommandPermission(d, owner, ctx))
  {
  }

  /** The six per-guild values `_guild_payload` hands to the store;
      `None` stands for the empty record `{}`. */
  datatype GuildPayload = GuildPayload(
    verified: seq<int>,
    blacklisted: seq<int>,
    whitelisted: seq<int>,
    reactionRoles: Option<ReactionConfig>,
    overrides: map<string, Override>,
    autokick: Option<Autokick>)

  const EMPTY_PAYLOAD: GuildPayload := GuildPayload([], [], [], None, map[], None)

  /** `_guild_payload`. */
  function Payload(d: Data, guild: string): GuildPayload
  {
    GuildPayload(
      ListAt(d.verified, guild),
      ListAt(d.blacklisted, guild),
      ListAt(d.whitelisted, guild),
      if guild in d.reactionRoles then Some(d.reactionRoles[guild]) else None,
      if guild in d.overrides then d.overrides[guild] else map[],
      if guild in d.autokick then Some(d.autokick[guild]) else None)
  }

  /** `_all_guild_keys`: every guild some per-guild map mentions. */
  /** Whether the store holds any per-guild record for `guild`. */
  predicate KnowsGuild(d: Data, guild: string)
  {
    || guild in d.verified || guild in d.blacklisted || guild in d.whitelisted
    || guild in d.reactionRoles || guild in d.overrides || guild in d.autokick
  }

  function AllGuildKeys(d: Data): (r: set<string>)
    ensures forall k :: k in r <==> KnowsGuild(d, k)
  {
    d.verified.Keys + d.blacklisted.Keys + d.whitelisted.Keys
    + d.reactionRoles.Keys + d.overrides.Keys + d.autokick.Keys
  }

  /** A guild no map mentions has the empty payload. */
  lemma UnknownGuildHasEmptyPayload(d: Data, guild: string)
    requires !KnowsGuild(d, guild)
    ensures Payload(d, guild) == EMPTY_PAYLOAD
  {
  }

  /** `_purge_guild_from_memory`: the guild's entry leaves all six maps. */
  function Purge(d: Data, guild: string): Data
  {
    d.(verified := d.verified - {guild},
       blacklisted := d.blacklisted - {guild},
       whitelisted := d.whitelisted - {guild},
       reactionRoles := d.reactionRoles - {guild},
       overrides := d.overrides - {guild},
       autokick := d.autokick - {guild})
  }

  /** Purging forgets exactly that guild: it leaves the key set, its payload
      becomes empty, and every other guild and both role lists stay as they
      were. */
  lemma PurgeForgetsOnlyThatGuild(d: Data, guild: string, other: string)
    ensures forall k :: KnowsGuild(Purge(d, guild), k) <==> KnowsGuild(d, k) && k != guild
    ensures Payload(Purge(d, guild), guild) == EMPTY_PAYLOAD
    ensures other != guild ==> Payload(Purge(d, guild), other) == Payload(d, other)
    ensures Purge(d, guild).admins == d.admins && Purge(d, guild).moderators == d.moderators
  {
  }
}
