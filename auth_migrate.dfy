/** The normalisers that turn stored or legacy documents into the typed
    authorization data: the per-guild payload sanitiser of the Firestore
    store and the Auth cog's one-time migration of the legacy JSON file. */
module AuthMigrate {
  import opened Wrappers
  import opened Text
  import opened AuthJson
  import opened AuthData
  import AuthSetupVerify

  /** `_normalize_override` / the loop body of `_normalize_overrides`: an
      object becomes a full record, anything else the empty record. */
  function NormalizeOverride(v: Json): Override
  {
    if v.JObj? then
      Override(
        Truthy(Get(v.fields, "disabled", JBool(false))),
        IntList(Get(v.fields, "allowed_roles", JList([]))),
        IntList(Get(v.fields, "allowed_users", JList([]))))
    else NoOverride
  }

  /** Every record a normaliser builds has sorted, duplicate-free lists. */
  predicate NormalOverride(o: Override)
  {
    o.Override? ==> StrictlyIncreasing(o.allowedRoles) && StrictlyIncreasing(o.allowedUsers)
  }

  lemma NormalizeOverrideIsNormal(v: Json)
    ensures NormalOverride(NormalizeOverride(v))
    ensures NormalizeOverride(v).Override? <==> v.JObj?
  {
    if v.JObj? {
      IntListMeaning(Get(v.fields, "allowed_roles", JList([])), 0);
      IntListMeaning(Get(v.fields, "allowed_users", JList([])), 0);
    }
  }

  // ---------------------------------------------------------------------
  // The Firestore store's `_sanitize_guild_payload`.

  /** The options the store keeps: objects with a non-blank emoji and an
      integer role id, in order. */
  function StoreOptions(items: seq<Json>): (r: seq<RoleOption>)
    ensures forall i :: 0 <= i < |r| ==> r[i].emoji != []
    decreases |items|
  {
    if items == [] then []
    else
      var rest := StoreOptions(items[..|items| - 1]);
      var o := items[|items| - 1];
      if !o.JObj? then rest
      else
        var emoji := Strip(StrOf(Get(o.fields, "emoji", JStr(""))));
        var role := ToInt(Get(o.fields, "role_id", JNull));
        if emoji == [] || role.None? then rest
        else rest + [RoleOption(role.value, emoji)]
  }

  /** The store's `_normalize_reaction_roles`: `Value(None)` is the empty
      record. Iterating an `options` value that is a number, a boolean or
      `null` raises. */
  function StoreReactionRoles(v: Json): Attempt<Option<ReactionConfig>>
  {
    if !v.JObj? then Value(None)
    else
      var message := ToInt(Get(v.fields, "message_id", JNull));
      var channel := ToInt(Get(v.fields, "channel_id", JNull));
      if message.None? || channel.None? then Value(None)
      else
        var source := Get(v.fields, "options", JList([]));
        if source.JNull? || source.JBool? || source.JInt? then Raises
        else
          var options := if source.JList? then StoreOptions(source.items) else [];
          if options == [] then Value(None)
          else Value(Some(ReactionConfig(message.value, channel.value, options)))
  }

  /** The store's `_normalize_overrides`: string-keyed object records only. */
  function StoreOverrides(v: Json): map<string, Override>
  {
    if v.JObj? then
      map c | c in v.fields && v.fields[c].JObj? :: NormalizeOverride(v.fields[c])
    else map[]
  }

  /** `_normalize_autokick`; an age that `int()` refuses raises. */
  function StoreAutokick(v: Json): Attempt<Option<Autokick>>
  {
    if !v.JObj? then Value(None)
    else
      var age := ToInt(Get(v.fields, "min_age_days", JInt(0)));
      if age.None? then Raises
      else Value(Some(Autokick(Truthy(Get(v.fields, "enabled", JBool(false))), age.value)))
  }

  /** `_sanitize_guild_payload`. */
  function SanitizeGuildPayload(payload: map<string, Json>): Attempt<GuildPayload>
  {
    var rr := StoreReactionRoles(Get(payload, "reaction_roles", JObj(map[])));
    var ak := StoreAutokick(Get(payload, "autokick", JObj(map[])));
    if rr.Raises? || ak.Raises? then Raises
    else Value(GuildPayload(
      IntList(Get(payload, "verified_users", JList([]))),
      IntList(Get(payload, "blacklisted", JList([]))),
      IntList(Get(payload, "whitelisted", JList([]))),
      rr.v,
      StoreOverrides(Get(payload, "command_overrides", JObj(map[]))),
      ak.v))
  }

  /** A payload the store keeps is normal: sorted, duplicate-free lists,
      only full override records, and options with non-blank emoji. */
  predicate NormalPayload(p: GuildPayload)
  {
    && StrictlyIncreasing(p.verified)
    && StrictlyIncreasing(p.blacklisted)
    && StrictlyIncreasing(p.whitelisted)
    && (forall c :: c in p.overrides ==> p.overrides[c].Override? && NormalOverride(p.overrides[c]))
    && (p.reactionRoles.Some? ==>
          p.reactionRoles.value.options != []
          && forall i :: 0 <= i < |p.reactionRoles.value.options| ==>
               p.reactionRoles.value.options[i].emoji != [])
  }

  lemma SanitizedPayloadIsNormal(payload: map<string, Json>)
    requires SanitizeGuildPayload(payload).Value?
    ensures NormalPayload(SanitizeGuildPayload(payload).v)
  {
    IntListMeaning(Get(payload, "verified_users", JList([])), 0);
    IntListMeaning(Get(payload, "blacklisted", JList([])), 0);
    IntListMeaning(Get(payload, "whitelisted", JList([])), 0);
    var ov := StoreOverrides(Get(payload, "command_overrides", JObj(map[])));
    forall c | c in ov
      ensures ov[c].Override? && NormalOverride(ov[c])
    {
      var src := Get(payload, "command_overrides", JObj(map[]));
      NormalizeOverrideIsNormal(src.fields[c]);
    }
  }

  /** Sanitising fails only on a non-numeric autokick age or an `options`
      value that cannot be iterated. */
  lemma SanitizeRaisesOnlyOn(payload: map<string, Json>)
    ensures SanitizeGuildPayload(payload).Raises? <==>
      StoreReactionRoles(Get(payload, "reaction_roles", JObj(map[]))).Raises?
      || StoreAutokick(Get(payload, "autokick", JObj(map[]))).Raises?
  {
  }

  // ---------------------------------------------------------------------
  // The Auth cog's `_migrate_legacy_json`.

  /** `_normalize_guild_list_map`: guilds whose normalised list is not
      empty. */
  function GuildListMap(v: Json): map<string, seq<int>>
  {
    if v.JObj? then
      map g | g in v.fields && IntList(v.fields[g]) != [] :: IntList(v.fields[g])
    else map[]
  }

  lemma GuildListMapIsNormal(v: Json, g: string)
    requires g in GuildListMap(v)
    ensures GuildListMap(v)[g] != [] && StrictlyIncreasing(GuildListMap(v)[g])
  {
    IntListMeaning(v.fields[g], 0);
  }

  /** The cog's option loop: objects with an integer role id; a missing
      emoji becomes `mark`. */
  function CogOptions(mark: string, items: seq<Json>): seq<RoleOption>
    decreases |items|
  {
    if items == [] then []
    else
      var rest := CogOptions(mark, items[..|items| - 1]);
      var o := items[|items| - 1];
      if !o.JObj? then rest
      else
        var role := ToInt(Get(o.fields, "role_id", JNull));
        if role.None? then rest
        else rest + [RoleOption(role.value, Strip(StrOf(Get(o.fields, "emoji", JStr(mark)))))]
  }

  /** One guild's entry of the cog's `_normalize_reaction_roles`: the option
      list, else the legacy single-role form; no option or an unreadable
      message or channel id drops the guild; a missing emoji becomes
      `mark`. */
  function CogReactionConfig(mark: string, cfg: Json): Option<ReactionConfig>
  {
    if !cfg.JObj? then None
    else
      var f := cfg.fields;
      var options :=
        if "options" in f && f["options"].JList? then CogOptions(mark, f["options"].items)
        else if "verify_role_id" in f then
          match ToInt(f["verify_role_id"])
          case Some(r) => [RoleOption(r, Strip(StrOf(Get(f, "emoji", JStr(mark)))))]
          case None => []
        else [];
      var message := ToInt(Get(f, "message_id", JNull));
      var channel := ToInt(Get(f, "channel_id", JNull));
      if options == [] || message.None? || channel.None? then None
      else Some(ReactionConfig(message.value, channel.value, options))
  }

  /** The cog's `_normalize_reaction_roles`, with the check mark U+2705 as
      the default emoji. */
  function CogReactionRoles(v: Json): map<string, ReactionConfig>
  {
    var mark := AuthSetupVerify.CHECK_MARK;
    if v.JObj? then
      map g | g in v.fields && CogReactionConfig(mark, v.fields[g]).Some? :: CogReactionConfig(mark, v.fields[g]).value
    else map[]
  }

  /** A stored option with a role id and no emoji gets the default `mark`. */
  lemma OptionWithoutEmoji(mark: string, r: int)
    requires mark != [] && !IsSpace(mark[0]) && !IsSpace(mark[|mark| - 1])
    ensures CogOptions(mark, [JObj(map["role_id" := JInt(r)])]) == [RoleOption(r, mark)]
  {
    var o := JObj(map["role_id" := JInt(r)]);
    assert [o][..0] == [];
    assert Get(o.fields, "emoji", JStr(mark)) == JStr(mark);
    StripOfTrimmedString(mark);
  }

  /** As the source file spells the default, an option stored without an
      emoji gets `SOURCE_CHECK_MARK`, so a check-mark reaction matches no
      option. */
  lemma DefaultOptionAsWritten(r: int)
    ensures var options := CogOptions(AuthSetupVerify.SOURCE_CHECK_MARK, [JObj(map["role_id" := JInt(r)])]);
      && options == [RoleOption(r, AuthSetupVerify.SOURCE_CHECK_MARK)]
      && forall i :: 0 <= i < |options| ==> options[i].emoji != AuthSetupVerify.CHECK_MARK
  {
    assert AuthSetupVerify.SOURCE_CHECK_MARK[0] != AuthSetupVerify.CHECK_MARK[0];
    OptionWithoutEmoji(AuthSetupVerify.SOURCE_CHECK_MARK, r);
  }

  /** As intended, an option stored without an emoji answers the
      check-mark reaction. */
  lemma DefaultOptionIsCheckMark(r: int)
    ensures CogOptions(AuthSetupVerify.CHECK_MARK, [JObj(map["role_id" := JInt(r)])])
         == [RoleOption(r, AuthSetupVerify.CHECK_MARK)]
  {
    OptionWithoutEmoji(AuthSetupVerify.CHECK_MARK, r);
  }

  /** The migration's autokick loop: object entries only; an age `int()`
      refuses makes the whole migration raise. */
  function MigrateAutokick(v: Json): Attempt<map<string, Autokick>>
  {
    if !v.JObj? then Value(map[])
    else if exists g :: g in v.fields && v.fields[g].JObj?
                        && ToInt(Get(v.fields[g].fields, "min_age_days", JInt(0))).None? then Raises
    else Value(map g | g in v.fields && v.fields[g].JObj? ::
      Autokick(Truthy(Get(v.fields[g].fields, "enabled", JBool(false))),
               ToInt(Get(v.fields[g].fields, "min_age_days", JInt(0))).value))
  }

  /** `_is_override_record`. */
  predicate IsOverrideRecord(v: Json)
  {
    v.JObj? && ("disabled" in v.fields || "allowed_roles" in v.fields || "allowed_users" in v.fields)
  }

  /** The legacy global shape: a non-empty object whose every value is an
      override record. */
  predicate IsLegacyGlobalShape(v: Json)
  {
    v.JObj? && v.fields != map[] && forall c :: c in v.fields ==> IsOverrideRecord(v.fields[c])
  }

  /** `_normalize_command_overrides`. The legacy global shape is copied to
      every known guild, or kept under the global key when no guild is
      known; the per-guild shape keeps the guilds with a non-empty command
      map. */
  function NormalizeCommandOverrides(v: Json, known: set<string>): map<string, map<string, Override>>
  {
    if !v.JObj? then map[]
    else if IsLegacyGlobalShape(v) then
      var global := map c | c in v.fields :: NormalizeOverride(v.fields[c]);
      if known != {} then map g | g in known :: global
      else map[GLOBAL_KEY := global]
    else
      map g | g in v.fields && v.fields[g].JObj? && v.fields[g].fields != map[] ::
        map c | c in v.fields[g].fields :: NormalizeOverride(v.fields[g].fields[c])
  }

  /** The legacy global overrides apply, through the override lookup, to
      every known guild, or to every guild at all when none is known. */
  lemma LegacyOverridesReachEveryGuild(v: Json, known: set<string>, d: Data, guild: string, command: string)
    requires IsLegacyGlobalShape(v) && command in v.fields
    requires d.overrides == NormalizeCommandOverrides(v, known)
    requires guild in known || known == {}
    ensures GetCommandOverride(d, guild, command) == NormalizeOverride(v.fields[command])
  {
  }

  /** The guilds the migrated maps mention before the blacklist and the
      overrides are filled in. */
  function KnownGuilds(verified: map<string, seq<int>>, whitelisted: map<string, seq<int>>,
                       reactionRoles: map<string, ReactionConfig>, autokick: map<string, Autokick>): set<string>
  {
    verified.Keys + whitelisted.Keys + reactionRoles.Keys + autokick.Keys
  }

  /** The migration of the legacy blacklist: a list is copied to every
      known guild, or kept under the global key when no guild is known; an
      object is normalised per guild. */
  function MigrateBlacklist(v: Json, known: set<string>): map<string, seq<int>>
  {
    if v.JList? then
      var users := IntList(v);
      if users == [] then map[]
      else if known != {} then map g | g in known :: users
      else map[GLOBAL_KEY := users]
    else if v.JObj? then GuildListMap(v)
    else map[]
  }

  /** `_migrate_legacy_json` on the object read from the legacy file. */
  function MigrateLegacy(raw: map<string, Json>): Attempt<Data>
  {
    var verified := GuildListMap(Get(raw, "verified_users", JObj(map[])));
    var whitelisted := GuildListMap(Get(raw, "whitelisted", JObj(map[])));
    var reactionRoles := CogReactionRoles(Get(raw, "reaction_roles", JObj(map[])));
    var autokickSource := if "autokick" in raw && raw["autokick"].JObj? then raw["autokick"] else JObj(map[]);
    match MigrateAutokick(autokickSource)
    case Raises => Raises
    case Value(autokick) =>
      var known := KnownGuilds(verified, whitelisted, reactionRoles, autokick);
      Value(Data(
        IntList(Get(raw, "admins", JList([]))),
        IntList(Get(raw, "moderators", JList([]))),
        verified,
        MigrateBlacklist(Get(raw, "blacklisted", JObj(map[])), known),
        whitelisted,
        reactionRoles,
        NormalizeCommandOverrides(Get(raw, "command_overrides", JObj(map[])), known),
        autokick))
  }

  /** A user on the legacy flat blacklist stays blacklisted after the
      migration in every guild the migrated data knows, and in every guild
      at all when it knows none. */
  lemma LegacyBlacklistIsKept(raw: map<string, Json>, user: int, guild: string)
    requires MigrateLegacy(raw).Value?
    requires "blacklisted" in raw && raw["blacklisted"].JList?
    requires exists j :: 0 <= j < |raw["blacklisted"].items| && ToInt(raw["blacklisted"].items[j]) == Some(user)
    requires var d := MigrateLegacy(raw).v;
      guild in KnownGuilds(d.verified, d.whitelisted, d.reactionRoles, d.autokick)
      || KnownGuilds(d.verified, d.whitelisted, d.reactionRoles, d.autokick) == {}
    ensures IsBlacklisted(MigrateLegacy(raw).v, user, Some(guild))
  {
    var d := MigrateLegacy(raw).v;
    var known := KnownGuilds(d.verified, d.whitelisted, d.reactionRoles, d.autokick);
    IntListMeaning(raw["blacklisted"], user);
    assert d.blacklisted == MigrateBlacklist(raw["blacklisted"], known);
    BlacklistScope(d, user, guild);
  }

  /** The migrated role lists and per-guild user lists are sorted and
      duplicate-free, and no guild keeps an empty user list. */
  lemma MigratedListsAreNormal(raw: map<string, Json>, guild: string)
    requires MigrateLegacy(raw).Value?
    ensures var d := MigrateLegacy(raw).v;
      && StrictlyIncreasing(d.admins) && StrictlyIncreasing(d.moderators)
      && (guild in d.verified ==> d.verified[guild] != [] && StrictlyIncreasing(d.verified[guild]))
      && (guild in d.whitelisted ==> d.whitelisted[guild] != [] && StrictlyIncreasing(d.whitelisted[guild]))
      && (guild in d.blacklisted ==> d.blacklisted[guild] != [] && StrictlyIncreasing(d.blacklisted[guild]))
  {
    var d := MigrateLegacy(raw).v;
    if guild in d.verified {
      GuildListMapIsNormal(Get(raw, "verified_users", JObj(map[])), guild);
    }
    if guild in d.whitelisted {
      GuildListMapIsNormal(Get(raw, "whitelisted", JObj(map[])), guild);
    }
    if guild in d.blacklisted {
      var known := KnownGuilds(d.verified, d.whitelisted, d.reactionRoles, d.autokick);
      MigrateBlacklistIsNormal(Get(raw, "blacklisted", JObj(map[])), known, guild);
    }
  }

  /** Each guild the migrated blacklist names has a non-empty, sorted,
      duplicate-free list. */
  lemma MigrateBlacklistIsNormal(v: Json, known: set<string>, g: string)
    requires g in MigrateBlacklist(v, known)
    ensures MigrateBlacklist(v, known)[g] != [] && StrictlyIncreasing(MigrateBlacklist(v, known)[g])
  {
    if v.JList? {
      IntListMeaning(v, 0);
    } else {
      GuildListMapIsNormal(v, g);
    }
  }
}
