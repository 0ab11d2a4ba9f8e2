/** `BlacklistPickerView` and `BlacklistPickerSelect` of the authorization
    cog: a paged menu of a guild's blacklisted users, 25 to a page, from
    which the command author removes users one at a time. */
module AuthBlacklistPicker {
  import opened AuthJson
  import opened AuthData
  import opened AuthCog
  import opened Paging

  /** On a list with no repeats, two different pages share no user. */
  lemma PagesAreDisjoint(ids: seq<int>, p: nat, q: nat, x: int)
    requires StrictlyIncreasing(ids)
    requires p != q && x in PageItems(ids, p)
    ensures x !in PageItems(ids, q)
  {
    var a :| 0 <= a < |PageItems(ids, p)| && PageItems(ids, p)[a] == x;
    forall b | 0 <= b < |PageItems(ids, q)|
      ensures PageItems(ids, q)[b] != x
    {
      var i, j := p * PAGE_SIZE + a, q * PAGE_SIZE + b;
      assert i / PAGE_SIZE == p && j / PAGE_SIZE == q;
      assert ids[i] != ids[j];
    }
  }

  class BlacklistPicker {
    var page: int
    var ids: seq<int>
    const guild: string

    /** The page is one of the pages, and the list is sorted without
        repeats. */
    ghost predicate Valid()
      reads this
    {
      0 <= page < TotalPages(|ids|) && StrictlyIncreasing(ids)
    }

    /** `refresh_ids` then `rebuild`: the menu opens on the first page. */
    constructor(d: Data, guild: string)
      ensures Valid()
      ensures this.guild == guild && page == 0
      ensures ids == SortedUnique(ListAt(d.blacklisted, guild))
    {
      this.guild := guild;
      page := 0;
      ids := SortedUnique(ListAt(d.blacklisted, guild));
    }

    /** `current_page_ids`. */
    function CurrentPageIds(): (r: seq<int>)
      reads this
      requires Valid()
      ensures |r| <= PAGE_SIZE
      ensures (r == []) <==> (ids == [])
      ensures forall x :: x in r ==> x in ids
    {
      PageEmptyOnlyWhenListIs(ids, page);
      PageItems(ids, page)
    }

    /** `rebuild`. */
    function Rebuilt(): Controls
      reads this
      requires Valid()
    {
      PageControls(ids, page)
    }

    /** `refresh_ids`: the guild's blacklist, each user once, in order of
        id. The page is left as it was. The typed data already holds the
        ids as integers, so the `int()` cleaning loop of the source keeps
        every entry and is not written out. */
    method RefreshIds(d: Data)
      modifies this
      ensures page == old(page)
      ensures ids == SortedUnique(ListAt(d.blacklisted, guild))
      ensures StrictlyIncreasing(ids)
    {
      ids := SortedUnique(ListAt(d.blacklisted, guild));
    }

    /** The Prev button. */
    method Prev()
      requires Valid()
      modifies this
      ensures Valid() && ids == old(ids)
      ensures page == PrevPage(old(page))
    {
      page := PrevPage(page);
    }

    /** The Next button. */
    method Next()
      requires Valid()
      modifies this
      ensures Valid() && ids == old(ids)
      ensures page == NextPage(old(page), TotalPages(|ids|))
    {
      page := NextPage(page, TotalPages(|ids|));
    }

    /** The select callback: the chosen user is dropped from the guild's
        blacklist (and the guild saved), the list is refreshed, and the menu
        closes when it is empty; otherwise a page past the end is pulled
        back to the last page. */
    method Select(cog: Cog, selected: int) returns (closed: bool)
      requires Valid() && cog.Valid()
      modifies this, cog
      ensures cog.Valid()
      ensures selected in ListAt(old(cog.data).blacklisted, guild) ==> GuildSave(guild) in cog.pending
      ensures ListAt(cog.data.blacklisted, guild) == RemoveFirst(ListAt(old(cog.data).blacklisted, guild), selected)
      ensures ids == SortedUnique(ListAt(cog.data.blacklisted, guild))
      ensures closed <==> ids == []
      ensures !closed ==> Valid()
      ensures !closed ==> page == if old(page) < TotalPages(|ids|) then old(page) else TotalPages(|ids|) - 1
    {
      var removed := cog.DropFromBlacklist(selected, guild);
      RefreshIds(cog.data);
      if ids == [] {
        return true;
      }
      var total := TotalPages(|ids|);
      if page >= total {
        page := total - 1;
      }
      closed := false;
    }
  }

  /** On a list without repeats, the chosen user is gone from the menu
      afterwards. */
  lemma SelectedUserIsGone(raw: seq<int>, selected: int)
    requires forall i, j :: 0 <= i < j < |raw| ==> raw[i] != raw[j]
    ensures selected !in SortedUnique(RemoveFirst(raw, selected))
  {
    RemoveFirstFromDistinct(raw, selected);
  }
}
