/** The interactive help cog: which commands a cog lists, which
    categories a user is offered, which commands a category shows to whom,
    the paged command browser, the usage line of a command and the replies
    of `hh`. Whether a command's own checks pass for the caller is an input
    (`can_run` is awaited against Discord state). */
module HelpCog {
  import opened Wrappers
  import opened Text
  import opened AuthData
  import opened AuthBackup
  import opened Paging

  /** The outcome of `await cmd.can_run(ctx)` for the caller. */
  datatype RunCheck = CanRun | CannotRun | Raises

  /** One parameter of a command's signature. */
  datatype Param = Param(name: string, hasDefault: bool)

  datatype HelpCommand = HelpCommand(
    name: string,
    qualifiedName: string,
    hidden: bool,
    check: RunCheck,
    params: seq<Param>)

  // ---------------------------------------------------------------------
  // First command per qualified name

  /** The qualified names of a list of commands. */
  function QNames(cs: seq<HelpCommand>): set<string> {
    set i | 0 <= i < |cs| :: cs[i].qualifiedName
  }

  /** The scan shared by `_cog_all_commands` and the category listing:
      walk the commands in order, skip those already seen by qualified
      name and those the filter drops, and keep the rest, marking them
      seen. */
  function FirstPer(cands: seq<HelpCommand>, seen: set<string>, keep: HelpCommand -> bool): (r: seq<HelpCommand>)
    ensures forall i :: 0 <= i < |r| ==> r[i] in cands && keep(r[i]) && r[i].qualifiedName !in seen
    ensures forall i, j :: 0 <= i < j < |r| ==> r[i].qualifiedName != r[j].qualifiedName
    decreases |cands|
  {
    if cands == [] then []
    else
      var c := cands[0];
      if c.qualifiedName in seen || !keep(c) then FirstPer(cands[1..], seen, keep)
      else [c] + FirstPer(cands[1..], seen + {c.qualifiedName}, keep)
  }

  /** Every command the filter keeps is represented: its qualified name
      was seen before or is listed. */
  lemma {:induction false} FirstPerCovers(cands: seq<HelpCommand>, seen: set<string>, keep: HelpCommand -> bool)
    ensures forall k :: 0 <= k < |cands| && keep(cands[k]) ==>
      cands[k].qualifiedName in seen || cands[k].qualifiedName in QNames(FirstPer(cands, seen, keep))
    decreases |cands|
  {
    if cands != [] {
      var c := cands[0];
      var skip := c.qualifiedName in seen || !keep(c);
      var seen' := if skip then seen else seen + {c.qualifiedName};
      FirstPerCovers(cands[1..], seen', keep);
      if !skip {
        QNamesCons(c, FirstPer(cands[1..], seen', keep));
      }
      forall k | 1 <= k < |cands|
        ensures cands[k] == cands[1..][k - 1]
      {
      }
    }
  }

  lemma QNamesCons(c: HelpCommand, rest: seq<HelpCommand>)
    ensures QNames([c] + rest) == {c.qualifiedName} + QNames(rest)
  {
    var r := [c] + rest;
    assert r[0] == c;
    forall q | q in QNames(rest)
      ensures q in QNames(r)
    {
      var i :| 0 <= i < |rest| && rest[i].qualifiedName == q;
      assert r[i + 1] == rest[i];
    }
    forall q | q in QNames(r)
      ensures q == c.qualifiedName || q in QNames(rest)
    {
      var i :| 0 <= i < |r| && r[i].qualifiedName == q;
      if i > 0 {
        assert rest[i - 1] == r[i];
      }
    }
  }

  /** The command kept for a name is the first one the filter keeps. */
  lemma {:induction false} FirstPerKeepsFirst(cands: seq<HelpCommand>, seen: set<string>, keep: HelpCommand -> bool, k: nat)
    requires k < |cands| && keep(cands[k]) && cands[k].qualifiedName !in seen
    requires forall j :: 0 <= j < k && keep(cands[j]) ==> cands[j].qualifiedName != cands[k].qualifiedName
    ensures cands[k] in FirstPer(cands, seen, keep)
    decreases |cands|
  {
    var c := cands[0];
    if k > 0 {
      assert cands[k] == cands[1..][k - 1];
      var seen' := if c.qualifiedName in seen || !keep(c) then seen else seen + {c.qualifiedName};
      FirstPerKeepsFirst(cands[1..], seen', keep, k - 1);
    }
  }

  /** `_cog_all_commands` and the category listing, as the loop they run
      with a local `seen` set. */
  method KeepFirstPerName(cands: seq<HelpCommand>, keep: HelpCommand -> bool) returns (out: seq<HelpCommand>)
    ensures out == FirstPer(cands, {}, keep)
  {
    out := [];
    var seen: set<string> := {};
    var i := 0;
    while i < |cands|
      invariant 0 <= i <= |cands|
      invariant out + FirstPer(cands[i..], seen, keep) == FirstPer(cands, {}, keep)
    {
      var c := cands[i];
      assert cands[i..][1..] == cands[i + 1..];
      if c.qualifiedName !in seen && keep(c) {
        assert out + ([c] + FirstPer(cands[i + 1..], seen + {c.qualifiedName}, keep))
          == (out + [c]) + FirstPer(cands[i + 1..], seen + {c.qualifiedName}, keep);
        seen := seen + {c.qualifiedName};
        out := out + [c];
      }
      i := i + 1;
    }
  }

  predicate NotHidden(c: HelpCommand) {
    !c.hidden
  }

  /** `_cog_all_commands` on the commands a cog walks. */
  function Visible(walk: seq<HelpCommand>): seq<HelpCommand> {
    FirstPer(walk, {}, NotHidden)
  }

  /** A cog lists no hidden command, no qualified name twice, the first
      visible command of each name, and a command under every visible
      name. */
  lemma VisibleCommands(walk: seq<HelpCommand>, k: nat)
    ensures forall c :: c in Visible(walk) ==> c in walk && !c.hidden
    ensures forall i, j :: 0 <= i < j < |Visible(walk)| ==>
      Visible(walk)[i].qualifiedName != Visible(walk)[j].qualifiedName
    ensures k < |walk| && !walk[k].hidden ==> walk[k].qualifiedName in QNames(Visible(walk))
    ensures (k < |walk| && !walk[k].hidden
             && forall j :: 0 <= j < k && !walk[j].hidden ==> walk[j].qualifiedName != walk[k].qualifiedName)
      ==> walk[k] in Visible(walk)
  {
    FirstPerCovers(walk, {}, NotHidden);
    if k < |walk| && !walk[k].hidden
       && forall j :: 0 <= j < k && !walk[j].hidden ==> walk[j].qualifiedName != walk[k].qualifiedName {
      FirstPerKeepsFirst(walk, {}, NotHidden, k);
    }
  }

  method CogAllCommands(walk: seq<HelpCommand>) returns (out: seq<HelpCommand>)
    ensures out == Visible(walk)
  {
    out := KeepFirstPerName(walk, NotHidden);
  }

  // ---------------------------------------------------------------------
  // Who counts as privileged

  /** `_help_access_flags`: bot owner or bot admin (only when the Auth cog
      is loaded), or owner of the guild the command runs in. */
  predicate Privileged(authLoaded: bool, d: Data, owner: int, user: int, guildOwner: Option<int>) {
    (authLoaded && (IsOwner(owner, user) || IsAdmin(d, owner, user)))
    || (guildOwner.Some? && guildOwner.value == user)
  }

  /** Without the Auth cog, and outside a guild, nobody is privileged. */
  lemma NoAuthNoGuildNoPrivilege(d: Data, owner: int, user: int)
    ensures !Privileged(false, d, owner, user, None)
  {
  }

  // ---------------------------------------------------------------------
  // Categories

  const CATEGORY_VALUES: seq<string> := ["home", "admin", "auth", "agent", "fun", "voice", "troll", "utility"]
  const PUBLIC_CATEGORIES: seq<string> := ["home", "fun", "voice", "agent", "troll"]
  const RESTRICTED_CATEGORIES: seq<string> := ["admin", "auth", "utility"]

  /** The option filter of `CategorySelect`. */
  function OfferedFrom(opts: seq<string>, privileged: bool): (r: seq<string>)
    ensures forall x :: x in r <==>
      x in opts && (if x in RESTRICTED_CATEGORIES then privileged else x in PUBLIC_CATEGORIES)
  {
    if opts == [] then []
    else
      var rest := OfferedFrom(opts[1..], privileged);
      var o := opts[0];
      if o in RESTRICTED_CATEGORIES then (if privileged then [o] + rest else rest)
      else if o in PUBLIC_CATEGORIES then [o] + rest
      else rest
  }

  /** The categories offered in the menu. */
  function Offered(privileged: bool): seq<string> {
    OfferedFrom(CATEGORY_VALUES, privileged)
  }

  /** The public categories are always offered; admin, auth and utility
      exactly to privileged users. */
  lemma OfferedCategories(privileged: bool, x: string)
    ensures x in PUBLIC_CATEGORIES ==> x in Offered(privileged)
    ensures x in RESTRICTED_CATEGORIES ==> (x in Offered(privileged) <==> privileged)
    ensures x in Offered(privileged) ==> x in PUBLIC_CATEGORIES || x in RESTRICTED_CATEGORIES
  {
  }

  /** The cogs behind each category. */
  const CATEGORY_COGS: map<string, seq<string>> := map[
    "admin" := ["Admin", "Auth", "Utility"], "auth" := ["Auth"], "utility" := ["Utility"],
    "fun" := ["Fun"], "agent" := ["Agent"], "voice" := ["Voice"], "troll" := ["Troll"]]

  const CATEGORY_TITLES: map<string, string> := map[
    "admin" := "Admin Panel", "auth" := "Auth", "utility" := "Utility",
    "fun" := "Fun", "agent" := "Agent", "voice" := "Voice", "troll" := "Troll"]

  /** The walks of the loaded cogs among the named ones, in order. */
  function LoadedWalks(names: seq<string>, cogs: map<string, seq<HelpCommand>>): (r: seq<seq<HelpCommand>>)
    ensures |r| <= |names|
    ensures forall i :: 0 <= i < |r| ==> r[i] in cogs.Values
  {
    if names == [] then []
    else if names[0] in cogs then [cogs[names[0]]] + LoadedWalks(names[1..], cogs)
    else LoadedWalks(names[1..], cogs)
  }

  /** The visible commands of each cog, one cog after the other. */
  function Candidates(walks: seq<seq<HelpCommand>>): seq<HelpCommand> {
    if walks == [] then [] else Visible(walks[0]) + Candidates(walks[1..])
  }

  /** Whether the listing keeps a command: everything for a privileged
      user in a restricted category, else only what the caller can run (a
      check that raises hides the command). */
  function ShownTo(unrestricted: bool): HelpCommand -> bool {
    (c: HelpCommand) => unrestricted || c.check == CanRun
  }

  datatype CategoryReply =
    | BackHome
    | CategoryNotFound
    | NothingAvailable
    | Browse(title: string, commands: seq<HelpCommand>)

  /** The category callback, up to building the page view. */
  function CategoryListing(val: string, cogs: map<string, seq<HelpCommand>>, privileged: bool): (r: CategoryReply)
  {
    if val == "home" then BackHome
    else
      var walks := LoadedWalks(if val in CATEGORY_COGS then CATEGORY_COGS[val] else [], cogs);
      if walks == [] then CategoryNotFound
      else
        var unrestricted := val in RESTRICTED_CATEGORIES && privileged;
        var listed := FirstPer(Candidates(walks), {}, ShownTo(unrestricted));
        if listed == [] then NothingAvailable
        else Browse(if val in CATEGORY_TITLES then CATEGORY_TITLES[val] else val, listed)
  }

  /** Every command a cog walks that is listed is one of its visible
      commands. */
  lemma {:induction false} CandidatesAreVisible(walks: seq<seq<HelpCommand>>, c: HelpCommand)
    requires c in Candidates(walks)
    ensures !c.hidden && exists i :: 0 <= i < |walks| && c in walks[i]
    decreases |walks|
  {
    if c in Visible(walks[0]) {
      VisibleCommands(walks[0], 0);
    } else {
      CandidatesAreVisible(walks[1..], c);
      var i :| 0 <= i < |walks[1..]| && c in walks[1..][i];
      assert c in walks[i + 1];
    }
  }

  /** A user who is not privileged is shown only commands whose checks
      pass for them, none hidden, and no name twice. */
  lemma UnprivilegedSeeOnlyRunnable(val: string, cogs: map<string, seq<HelpCommand>>, c: HelpCommand)
    requires CategoryListing(val, cogs, false).Browse?
    requires c in CategoryListing(val, cogs, false).commands
    ensures c.check == CanRun && !c.hidden
  {
    var walks := LoadedWalks(if val in CATEGORY_COGS then CATEGORY_COGS[val] else [], cogs);
    CandidatesAreVisible(walks, c);
  }

  /** A privileged user browsing a restricted category sees a command
      under every visible name of every cog behind it. */
  lemma {:induction false} PrivilegedSeeEveryName(walks: seq<seq<HelpCommand>>, i: nat, k: nat)
    requires i < |walks| && k < |walks[i]| && !walks[i][k].hidden
    ensures walks[i][k].qualifiedName in QNames(FirstPer(Candidates(walks), {}, ShownTo(true)))
  {
    var q := walks[i][k].qualifiedName;
    VisibleCommands(walks[i], k);
    var v :| v in Visible(walks[i]) && v.qualifiedName == q;
    CandidateHasCommandsOf(walks, i, v);
    var m :| 0 <= m < |Candidates(walks)| && Candidates(walks)[m] == v;
    FirstPerCovers(Candidates(walks), {}, ShownTo(true));
  }

  lemma {:induction false} CandidateHasCommandsOf(walks: seq<seq<HelpCommand>>, i: nat, v: HelpCommand)
    requires i < |walks| && v in Visible(walks[i])
    ensures v in Candidates(walks)
    decreases i
  {
    if i > 0 {
      CandidateHasCommandsOf(walks[1..], i - 1, v);
    }
  }

  /** The outer loop of the category callback: each cog's visible
      commands, cog after cog. */
  method CollectCandidates(walks: seq<seq<HelpCommand>>) returns (cands: seq<HelpCommand>)
    ensures cands == Candidates(walks)
  {
    cands := [];
    var i := 0;
    while i < |walks|
      invariant 0 <= i <= |walks|
      invariant cands + Candidates(walks[i..]) == Candidates(walks)
    {
      assert walks[i..][1..] == walks[i + 1..];
      var visible := CogAllCommands(walks[i]);
      assert cands + (visible + Candidates(walks[i + 1..])) == (cands + visible) + Candidates(walks[i + 1..]);
      cands := cands + visible;
      i := i + 1;
    }
    assert walks[i..] == [];
  }

  /** The category callback as the nested loops it runs. */
  method SelectCategory(val: string, cogs: map<string, seq<HelpCommand>>, privileged: bool) returns (r: CategoryReply)
    ensures r == CategoryListing(val, cogs, privileged)
  {
    if val == "home" {
      return BackHome;
    }
    var walks := LoadedWalks(if val in CATEGORY_COGS then CATEGORY_COGS[val] else [], cogs);
    if walks == [] {
      return CategoryNotFound;
    }
    var cands := CollectCandidates(walks);
    var unrestricted := val in RESTRICTED_CATEGORIES && privileged;
    var listed := KeepFirstPerName(cands, ShownTo(unrestricted));
    if listed == [] {
      return NothingAvailable;
    }
    r := Browse(if val in CATEGORY_TITLES then CATEGORY_TITLES[val] else val, listed);
  }

  // ---------------------------------------------------------------------
  // Sorting by a key

  /** Ascending by key: no later entry's key comes before an earlier
      one's. */
  ghost predicate SortedBy<T>(s: seq<T>, key: T -> string) {
    forall i, j :: 0 <= i < j < |s| ==> !StrLess(key(s[j]), key(s[i]))
  }

  lemma PrependKeepsSorted<T>(h: T, rest: seq<T>, key: T -> string)
    requires SortedBy(rest, key)
    requires forall y :: y in rest ==> !StrLess(key(y), key(h))
    ensures SortedBy([h] + rest, key)
  {
    forall i, j | 0 <= i < j < |[h] + rest|
      ensures !StrLess(key(([h] + rest)[j]), key(([h] + rest)[i]))
    {
      assert ([h] + rest)[j] == rest[j - 1];
      if i > 0 {
        assert ([h] + rest)[i] == rest[i - 1];
      }
    }
  }

  /** One step of a stable insertion sort: after every entry whose key
      does not exceed the new one. */
  function InsertBy<T(!new)>(x: T, s: seq<T>, key: T -> string): (r: seq<T>)
    requires SortedBy(s, key)
    ensures SortedBy(r, key)
    ensures multiset(r) == multiset(s) + multiset{x}
    ensures forall y :: y in r <==> y in s || y == x
    decreases |s|
  {
    if s == [] then [x]
    else if StrLess(key(x), key(s[0])) then
      forall y | y in s
        ensures !StrLess(key(y), key(x))
      {
        var k :| 0 <= k < |s| && s[k] == y;
        if k == 0 {
          StrLessAsymmetric(key(x), key(s[0]));
        } else {
          StrLessTransitive(key(y), key(x), key(s[0]));
        }
      }
      PrependKeepsSorted(x, s, key);
      [x] + s
    else
      assert s == [s[0]] + s[1..];
      var rest := InsertBy(x, s[1..], key);
      PrependKeepsSorted(s[0], rest, key);
      [s[0]] + rest
  }

  /** `sorted(xs, key=key)`. */
  function SortBy<T(!new)>(xs: seq<T>, key: T -> string): (r: seq<T>)
    ensures SortedBy(r, key)
    ensures multiset(r) == multiset(xs)
    decreases |xs|
  {
    if xs == [] then []
    else
      assert xs == xs[..|xs| - 1] + [xs[|xs| - 1]];
      InsertBy(xs[|xs| - 1], SortBy(xs[..|xs| - 1], key), key)
  }

  function NameOf(c: HelpCommand): string {
    c.name
  }

  // ---------------------------------------------------------------------
  // The paged command browser

  class CommandPageView {
    var page: int
    var commands: seq<HelpCommand>
    const title: string

    /** The page is one of the pages and the commands are in name
        order. */
    ghost predicate Valid()
      reads this
    {
      0 <= page < TotalPages(|commands|) && SortedBy(commands, NameOf)
    }

    /** The view opens on the first page of the listing sorted by name,
        every listed command present once per listing. */
    constructor(title: string, listed: seq<HelpCommand>)
      ensures Valid() && page == 0 && this.title == title
      ensures multiset(commands) == multiset(listed)
    {
      this.title := title;
      commands := SortBy(listed, NameOf);
      page := 0;
    }

    /** `_current_page_commands`. */
    function CurrentPage(): (r: seq<HelpCommand>)
      reads this
      requires Valid()
      ensures |r| <= PAGE_SIZE
      ensures (r == []) <==> (commands == [])
      ensures forall i :: 0 <= i < |r| ==> page * PAGE_SIZE + i < |commands| && r[i] == commands[page * PAGE_SIZE + i]
    {
      PageEmptyOnlyWhenListIs(commands, page);
      PageItems(commands, page)
    }

    /** `_rebuild`; the Back button is always added. */
    function Rebuilt(): Controls
      reads this
      requires Valid()
    {
      PageControls(commands, page)
    }

    method Prev()
      requires Valid()
      modifies this
      ensures Valid() && commands == old(commands)
      ensures page == PrevPage(old(page))
    {
      page := PrevPage(page);
    }

    method Next()
      requires Valid()
      modifies this
      ensures Valid() && commands == old(commands)
      ensures page == NextPage(old(page), TotalPages(|commands|))
    {
      page := NextPage(page, TotalPages(|commands|));
    }
  }

  // ---------------------------------------------------------------------
  // The main menu

  /** A block of the main menu: its title and the cogs it gathers. */
  datatype Block = Block(display: string, cogNames: seq<string>)

  const MENU_BLOCKS: seq<Block> := [
    Block("Voice", ["voice"]), Block("Troll", ["troll"]), Block("Fun", ["fun", "agent"]),
    Block("Utility", ["utility"]), Block("Admin", ["admin", "auth"])]

  /** `str.capitalize()` on ASCII text. */
  function Capitalize(s: string): (r: string)
    ensures |r| == |s|
  {
    if s == [] then [] else [UpperChar(s[0])] + Lower(s[1..])
  }

  /** A block is restricted when one of its cogs is admin, auth or
      utility. */
  predicate RestrictedBlock(b: Block) {
    exists i :: 0 <= i < |b.cogNames| && Lower(b.cogNames[i]) in RESTRICTED_CATEGORIES
  }

  /** `bot.get_cog(name.capitalize()) or bot.get_cog(name)`. */
  function CogFor(name: string, cogs: map<string, seq<HelpCommand>>): Option<seq<HelpCommand>> {
    if Capitalize(name) in cogs then Some(cogs[Capitalize(name)])
    else if name in cogs then Some(cogs[name])
    else None
  }

  /** The ``!name`` entries of a block, cog after cog. */
  function BlockEntries(names: seq<string>, cogs: map<string, seq<HelpCommand>>): seq<string> {
    if names == [] then []
    else
      var here := match CogFor(names[0], cogs)
        case None => []
        case Some(walk) => Mentions(Visible(walk));
      here + BlockEntries(names[1..], cogs)
  }

  function Mentions(cs: seq<HelpCommand>): (r: seq<string>)
    ensures |r| == |cs|
    ensures forall i :: 0 <= i < |cs| ==> r[i] == "`!" + cs[i].qualifiedName + "`"
  {
    if cs == [] then [] else ["`!" + cs[0].qualifiedName + "`"] + Mentions(cs[1..])
  }

  function Itself(s: string): string {
    s
  }

  /** A field of the main menu: its block and the block's entries. */
  datatype MenuField = MenuField(block: Block, entries: seq<string>)

  /** The fields of the main menu: restricted blocks only for privileged
      users, each block's entries sorted, and no field for an empty
      block. */
  function MenuFields(blocks: seq<Block>, cogs: map<string, seq<HelpCommand>>, privileged: bool): (r: seq<MenuField>)
    ensures forall f :: f in r ==> f.entries != [] && SortedBy(f.entries, Itself)
    ensures forall f :: f in r ==> f.block in blocks && (RestrictedBlock(f.block) ==> privileged)
    ensures forall f :: f in r ==> multiset(f.entries) == multiset(BlockEntries(f.block.cogNames, cogs))
  {
    if blocks == [] then []
    else
      var rest := MenuFields(blocks[1..], cogs, privileged);
      match FieldFor(blocks[0], cogs, privileged)
      case None => rest
      case Some(f) => [f] + rest
  }

  /** The field one block contributes, if any. */
  function FieldFor(b: Block, cogs: map<string, seq<HelpCommand>>, privileged: bool): (r: Option<MenuField>)
    ensures r.Some? ==> r.value.block == b && (RestrictedBlock(b) ==> privileged)
    ensures r.Some? ==> r.value.entries != [] && SortedBy(r.value.entries, Itself)
    ensures r.Some? ==> multiset(r.value.entries) == multiset(BlockEntries(b.cogNames, cogs))
  {
    if RestrictedBlock(b) && !privileged then None
    else
      var entries := SortBy(BlockEntries(b.cogNames, cogs), Itself);
      if entries == [] then None else Some(MenuField(b, entries))
  }

  /** An unprivileged user's menu shows at most the Voice, Troll and Fun
      blocks. */
  lemma UnprivilegedMenu(cogs: map<string, seq<HelpCommand>>, f: MenuField)
    requires f in MenuFields(MENU_BLOCKS, cogs, false)
    ensures f.block.display == "Voice" || f.block.display == "Troll" || f.block.display == "Fun"
  {
    UtilityIsRestricted();
    AdminIsRestricted();
    PublicMenuBlocks(f.block);
  }

  /** A menu block other than Utility and Admin is Voice, Troll or Fun. */
  lemma PublicMenuBlocks(b: Block)
    requires b in MENU_BLOCKS && b != MENU_BLOCKS[3] && b != MENU_BLOCKS[4]
    ensures b.display == "Voice" || b.display == "Troll" || b.display == "Fun"
  {
    var i :| 0 <= i < |MENU_BLOCKS| && MENU_BLOCKS[i] == b;
    assert i < 3;
  }

  /** The Utility block is restricted. */
  lemma UtilityIsRestricted()
    ensures RestrictedBlock(MENU_BLOCKS[3])
  {
    LowerOfLowerCase("utility");
    assert MENU_BLOCKS[3].cogNames[0] == "utility";
  }

  /** The Admin block is restricted. */
  lemma AdminIsRestricted()
    ensures RestrictedBlock(MENU_BLOCKS[4])
  {
    LowerOfLowerCase("admin");
    assert MENU_BLOCKS[4].cogNames[0] == "admin";
  }

  // ---------------------------------------------------------------------
  // Usage line

  /** A parameter with a default renders as `[name]`, one without as
      `<name>`. */
  function ParamToken(p: Param): (t: string)
    ensures |t| == |p.name| + 2
  {
    if p.hasDefault then "[" + p.name + "]" else "<" + p.name + ">"
  }

  /** Reading a rendered parameter back. */
  function ReadParamToken(t: string): Option<Param> {
    if |t| >= 2 && t[0] == '[' && t[|t| - 1] == ']' then Some(Param(t[1..|t| - 1], true))
    else if |t| >= 2 && t[0] == '<' && t[|t| - 1] == '>' then Some(Param(t[1..|t| - 1], false))
    else None
  }

  /** The rendering says whether the parameter has a default and keeps its
      name. */
  lemma ParamTokenRoundTrip(p: Param)
    ensures ReadParamToken(ParamToken(p)) == Some(p)
  {
    var t := ParamToken(p);
    assert t[1..|t| - 1] == p.name;
  }

  function ParamTokens(ps: seq<Param>): (r: seq<string>)
    ensures |r| == |ps|
    ensures forall i :: 0 <= i < |ps| ==> r[i] == ParamToken(ps[i])
  {
    if ps == [] then [] else [ParamToken(ps[0])] + ParamTokens(ps[1..])
  }

  /** The usage field: prefix, qualified name, a space and the rendered
      parameters separated by spaces, in backticks. */
  function Usage(prefix: string, c: HelpCommand): string {
    "`" + prefix + c.qualifiedName + " " + Join(" ", ParamTokens(c.params)) + "`"
  }

  /** With parameter names free of spaces, the parameter part of the usage
      line splits back into one token per parameter, each of which reads
      back as that parameter. */
  lemma UsageListsEveryParam(ps: seq<Param>)
    requires ps != []
    requires forall i :: 0 <= i < |ps| ==> ' ' !in ps[i].name
    ensures |SplitOn(Join(" ", ParamTokens(ps)), ' ')| == |ps|
    ensures forall i :: 0 <= i < |ps| ==> ReadParamToken(SplitOn(Join(" ", ParamTokens(ps)), ' ')[i]) == Some(ps[i])
  {
    var ts := ParamTokens(ps);
    forall k | 0 <= k < |ts|
      ensures ' ' !in ts[k]
    {
      assert ts[k] == ParamToken(ps[k]);
      if ps[k].hasDefault {
        assert ts[k] == ("[" + ps[k].name) + "]";
      } else {
        assert ts[k] == ("<" + ps[k].name) + ">";
      }
    }
    SplitJoin(ts, ' ');
    forall i | 0 <= i < |ps|
      ensures ReadParamToken(ts[i]) == Some(ps[i])
    {
      ParamTokenRoundTrip(ps[i]);
    }
  }

  // ---------------------------------------------------------------------
  // hh

  datatype HhReply = MainMenu | CommandNotFound | NoPermission | CommandDetails(c: HelpCommand)

  /** `hh`: without a name, the menu; with one, not found, refused unless
      privileged or the command's checks pass (a raising check refuses),
      else the command's details. */
  function Hh(commandName: Option<string>, lookup: Option<HelpCommand>, privileged: bool): (r: HhReply)
    ensures (commandName.None? || commandName.value == []) <==> r.MainMenu?
    ensures r.CommandDetails? ==> lookup == Some(r.c) && (privileged || r.c.check == CanRun)
    ensures r.NoPermission? ==> lookup.Some? && !privileged && lookup.value.check != CanRun
  {
    if commandName.None? || commandName.value == [] then MainMenu
    else if lookup.None? then CommandNotFound
    else if !privileged && lookup.value.check != CanRun then NoPermission
    else CommandDetails(lookup.value)
  }

  /** A command whose check raises is treated like one whose check fails. */
  lemma RaisingCheckRefuses(name: string, c: HelpCommand)
    requires name != [] && c.check != CanRun
    ensures Hh(Some(name), Some(c), false) == Hh(Some(name), Some(c.(check := CannotRun)), false)
    ensures Hh(Some(name), Some(c), true) == CommandDetails(c)
  {
  }
}
