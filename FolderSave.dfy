/**
 * Saving the edited folder into the folder list, the sharing precondition,
 * and the editor's local list of share links as links are created, edited
 * and revoked.
 */
module FolderSave {
  import opened Common
  import opened FolderModel

  // ---------------------------------------------------------------------------
  // The folder list update on save (`applyImpl`).

  /**
   * The folder the editor saves: the current preset's id (or `newId`, the id
   * the engine generates for a new folder), the edited name, the preset's
   * emoticon and the edited data.
   */
  function SavedFilter(state: EditorState, currentPreset: Option<ChatListFilter>, newId: int): ChatListFilter {
    Filter(if currentPreset.Some? then currentPreset.value.Id() else newId,
           state.name,
           if currentPreset.Some? then currentPreset.value.Emoticon() else None,
           EditedData(state, currentPreset))
  }

  /** A list entry the save overwrites: a folder (not the all-chats entry) with the saved id. */
  predicate Overwritten(f: ChatListFilter, id: int) {
    f.Filter? && f.Id() == id
  }

  /** A list entry the save drops before appending: same title and same data as the saved folder. */
  predicate SameAs(f: ChatListFilter, saved: ChatListFilter) {
    f.Title() == saved.Title() && f.Data() == saved.Data()
  }

  /** Every overwritten entry replaced by `saved`, in place. */
  function ReplaceOverwritten(filters: seq<ChatListFilter>, saved: ChatListFilter): (r: seq<ChatListFilter>)
    ensures |r| == |filters|
    ensures forall i :: 0 <= i < |r| ==> r[i] == (if Overwritten(filters[i], saved.Id()) then saved else filters[i])
  {
    if filters == [] then []
    else
      var last := filters[|filters| - 1];
      ReplaceOverwritten(filters[..|filters| - 1], saved) + [if Overwritten(last, saved.Id()) then saved else last]
  }

  /** The entries that are not the same as `saved`, in order. */
  function DropSame(filters: seq<ChatListFilter>, saved: ChatListFilter): (r: seq<ChatListFilter>)
    ensures |r| <= |filters|
  {
    if filters == [] then []
    else (if SameAs(filters[0], saved) then [] else [filters[0]]) + DropSame(filters[1..], saved)
  }

  /** An entry is kept exactly when it is in the list and not the same as `saved`. */
  lemma {:induction false} DropSameMembers(filters: seq<ChatListFilter>, saved: ChatListFilter)
    ensures forall f :: f in DropSame(filters, saved) <==> f in filters && !SameAs(f, saved)
    decreases |filters|
  {
    if filters != [] {
      DropSameMembers(filters[1..], saved);
      assert forall f :: f in filters ==> f == filters[0] || f in filters[1..];
    }
  }

  /**
   * Dropping works entry by entry and keeps the order of the entries it
   * keeps: dropping from a concatenation concatenates what is kept of each
   * part, and a single entry stays exactly when it differs from `saved`.
   */
  lemma {:induction false} DropSameAppend(a: seq<ChatListFilter>, b: seq<ChatListFilter>, saved: ChatListFilter)
    ensures DropSame(a + b, saved) == DropSame(a, saved) + DropSame(b, saved)
    decreases |a|
  {
    if a == [] {
      assert a + b == b;
    } else {
      var kept := if SameAs(a[0], saved) then [] else [a[0]];
      assert DropSame(a + b, saved) == kept + DropSame(a[1..] + b, saved) by {
        assert (a + b)[0] == a[0];
        assert (a + b)[1..] == a[1..] + b;
      }
      DropSameAppend(a[1..], b, saved);
      SeqAssoc(kept, DropSame(a[1..], saved), DropSame(b, saved));
    }
  }

  lemma DropSameOne(f: ChatListFilter, saved: ChatListFilter)
    ensures DropSame([f], saved) == (if SameAs(f, saved) then [] else [f])
  {
    assert [f][1..] == [];
  }

  /** The folder list after saving `saved`; `isExisting` says whether the editor opened an existing folder. */
  function SavedList(filters: seq<ChatListFilter>, saved: ChatListFilter, isExisting: bool): seq<ChatListFilter> {
    if !isExisting then filters + [saved]
    else if exists i :: 0 <= i < |filters| && Overwritten(filters[i], saved.Id()) then ReplaceOverwritten(filters, saved)
    else DropSame(filters, saved) + [saved]
  }

  /**
   * `applyImpl`'s list update: the saved folder replaces every folder with
   * its id, or, when there is none, is appended after folders with the same
   * title and data are dropped; a new folder is appended. The editor's
   * current preset becomes the saved folder when it was an existing one.
   */
  method SaveFilters(filters: seq<ChatListFilter>, state: EditorState, currentPreset: Option<ChatListFilter>, newId: int)
    returns (updated: seq<ChatListFilter>, newPreset: Option<ChatListFilter>)
    ensures updated == SavedList(filters, SavedFilter(state, currentPreset, newId), currentPreset.Some?)
    ensures newPreset == (if currentPreset.Some? then Some(SavedFilter(state, currentPreset, newId)) else None)
  {
    var updatedFilter := SavedFilter(state, currentPreset, newId);
    updated := filters;
    newPreset := currentPreset;
    if currentPreset.Some? {
      var found := false;
      var i := 0;
      while i < |filters|
        invariant 0 <= i <= |filters|
        invariant |updated| == |filters|
        invariant forall k :: 0 <= k < i ==>
          updated[k] == (if Overwritten(filters[k], updatedFilter.Id()) then updatedFilter else filters[k])
        invariant forall k :: i <= k < |filters| ==> updated[k] == filters[k]
        invariant found <==> exists k :: 0 <= k < i && Overwritten(filters[k], updatedFilter.Id())
      {
        if updated[i].Id() == updatedFilter.Id() && updated[i].Filter? {
          updated := updated[i := updatedFilter];
          found := true;
        }
        i := i + 1;
      }
      if found {
        assert updated == ReplaceOverwritten(filters, updatedFilter);
      } else {
        assert updated == filters;
        updated := DropSame(updated, updatedFilter);
        updated := updated + [updatedFilter];
      }
      newPreset := Some(updatedFilter);
    } else {
      updated := updated + [updatedFilter];
    }
  }

  /** After a save the saved folder is in the list, and nothing but overwritten or identical entries is lost. */
  lemma SavedListContainsSaved(filters: seq<ChatListFilter>, saved: ChatListFilter, isExisting: bool)
    requires saved.Filter?
    ensures saved in SavedList(filters, saved, isExisting)
    ensures forall f ::
      (f in filters && !(isExisting && (Overwritten(f, saved.Id()) || SameAs(f, saved)))
       ==> f in SavedList(filters, saved, isExisting))
  {
    var r := SavedList(filters, saved, isExisting);
    DropSameMembers(filters, saved);
    if isExisting && exists i :: 0 <= i < |filters| && Overwritten(filters[i], saved.Id()) {
      var i :| 0 <= i < |filters| && Overwritten(filters[i], saved.Id());
      assert r[i] == saved;
      forall f | f in filters && !Overwritten(f, saved.Id())
        ensures f in r
      {
        var k :| 0 <= k < |filters| && filters[k] == f;
        assert r[k] == f;
      }
    }
  }

  /** When an existing folder is saved and no entry carries its id, the saved folder ends up alone among its look-alikes, last. */
  lemma SavedListNoLookAlike(filters: seq<ChatListFilter>, saved: ChatListFilter)
    requires forall i :: 0 <= i < |filters| ==> !Overwritten(filters[i], saved.Id())
    ensures var r := SavedList(filters, saved, true);
      && |r| > 0 && r[|r| - 1] == saved
      && forall i :: 0 <= i < |r| - 1 ==> !SameAs(r[i], saved)
  {
    var r := SavedList(filters, saved, true);
    var kept := DropSame(filters, saved);
    DropSameMembers(filters, saved);
    assert r == kept + [saved];
    forall i | 0 <= i < |r| - 1
      ensures !SameAs(r[i], saved)
    {
      assert r[i] == kept[i];
      assert kept[i] in kept;
    }
  }

  /** Saving an existing folder twice leaves the list as saving it once. */
  lemma {:induction false} SavedListIdempotent(filters: seq<ChatListFilter>, saved: ChatListFilter)
    requires saved.Filter?
    ensures SavedList(SavedList(filters, saved, true), saved, true) == SavedList(filters, saved, true)
  {
    var once := SavedList(filters, saved, true);
    var id := saved.Id();
    assert Overwritten(saved, id);
    if exists i :: 0 <= i < |filters| && Overwritten(filters[i], id) {
      var i :| 0 <= i < |filters| && Overwritten(filters[i], id);
      assert once[i] == saved;
      var twice := ReplaceOverwritten(once, saved);
      assert |twice| == |once|;
      forall k | 0 <= k < |once|
        ensures twice[k] == once[k]
      {
      }
    } else {
      var kept := DropSame(filters, saved);
      assert once == kept + [saved];
      DropSameMembers(filters, saved);
      var twice := ReplaceOverwritten(once, saved);
      assert |twice| == |once|;
      forall k | 0 <= k < |once|
        ensures twice[k] == once[k]
      {
        if k < |once| - 1 {
          assert once[k] == kept[k] && kept[k] in kept;
          var i :| 0 <= i < |filters| && filters[i] == kept[k];
        }
      }
    }
  }

  /** A new folder is appended and nothing else changes. */
  lemma SavedListNew(filters: seq<ChatListFilter>, saved: ChatListFilter)
    ensures SavedList(filters, saved, false)[..|filters|] == filters
    ensures |SavedList(filters, saved, false)| == |filters| + 1
  {
  }

  // ---------------------------------------------------------------------------
  // Sharing.

  /**
   * The refusal `createLink` gives before sharing an existing folder: a folder
   * with chat types or with any exclusion cannot be shared.
   */
  predicate ShareUnavailable(data: FilterData) {
    if data.categories != {} then true
    else if data.excludeArchived || data.excludeRead || data.excludeMuted then true
    else data.excludePeers != []
  }

  /** A shareable folder is made of explicitly included chats only, so it is classified generic. */
  lemma ShareableIsGeneric(data: FilterData)
    ensures !ShareUnavailable(data) <==>
      data.categories == {} && !data.excludeArchived && !data.excludeRead && !data.excludeMuted && data.excludePeers == []
    ensures !ShareUnavailable(data) ==> ChatListFilterType(data) == Generic
  {
    if !ShareUnavailable(data) {
      assert Contacts !in data.categories;
      FilterTypeByCount(data);
    }
  }

  // ---------------------------------------------------------------------------
  // The editor's list of share links, keyed by URL.

  /** The index of the first link with URL `key` (`firstIndex(where: { $0.link == key })`). */
  function FirstLinkIndex(links: seq<FolderLink>, key: string): (r: Option<nat>)
    ensures r.None? <==> forall i :: 0 <= i < |links| ==> links[i].link != key
    ensures r.Some? ==>
      (r.value < |links| && links[r.value].link == key && forall i :: 0 <= i < r.value ==> links[i].link != key)
  {
    if links == [] then None
    else if links[0].link == key then Some(0)
    else
      match FirstLinkIndex(links[1..], key)
      case None => None
      case Some(i) => Some(i + 1)
  }

  /** The links' URLs are pairwise distinct. */
  predicate UniqueKeys(links: seq<FolderLink>) {
    forall i, j :: 0 <= i < j < |links| ==> links[i].link != links[j].link
  }

  /** Whether some link has URL `key`. */
  predicate HasKey(links: seq<FolderLink>, key: string) {
    exists i :: 0 <= i < |links| && links[i].link == key
  }

  /** Removes the first link with URL `key`, if any; the others keep their order. */
  function RemoveLink(links: seq<FolderLink>, key: string): (r: seq<FolderLink>)
    ensures HasKey(links, key) ==> |r| == |links| - 1
    ensures HasKey(links, key) ==>
      var i := FirstLinkIndex(links, key).value;
      r[..i] == links[..i] && r[i..] == links[i + 1..]
    ensures !HasKey(links, key) ==> r == links
    ensures UniqueKeys(links) ==> UniqueKeys(r) && !HasKey(r, key)
    ensures forall l :: l in r ==> l in links
    ensures forall l :: l in links && l.link != key ==> l in r
  {
    match FirstLinkIndex(links, key)
    case None => links
    case Some(i) =>
      RemoveAtFacts(links, key, i);
      links[..i] + links[i + 1..]
  }

  /** Dropping the first link with URL `key`, at position `i`. */
  lemma RemoveAtFacts(links: seq<FolderLink>, key: string, i: nat)
    requires i < |links| && links[i].link == key
    ensures var r := links[..i] + links[i + 1..];
      && |r| == |links| - 1
      && (UniqueKeys(links) ==> UniqueKeys(r) && !HasKey(r, key))
      && (forall l :: l in r ==> l in links)
      && (forall l :: l in links && l.link != key ==> l in r)
  {
    var r := links[..i] + links[i + 1..];
    assert forall k :: 0 <= k < |r| ==> r[k] == (if k < i then links[k] else links[k + 1]);
    if UniqueKeys(links) {
      forall k | 0 <= k < |r|
        ensures r[k].link != key
      {
        if k < i {
          assert r[k] == links[k];
        } else {
          assert r[k] == links[k + 1];
        }
      }
    }
    forall l | l in links && l.link != key
      ensures l in r
    {
      var k :| 0 <= k < |links| && links[k] == l;
      if k < i {
        assert r[k] == l;
      } else {
        assert r[k - 1] == l;
      }
    }
  }

  /** `createLink`'s update: a changed link replaces the one with its URL, a new one goes first; a revoked draft leaves. */
  function CreatedLinkUpdate(links: Option<seq<FolderLink>>, updatedLink: Option<FolderLink>,
                             previousLink: Option<FolderLink>): (r: seq<FolderLink>)
    ensures updatedLink.Some? ==> updatedLink.value in r
    ensures updatedLink.Some? && HasKey(links.GetOr([]), updatedLink.value.link) ==>
      var current := links.GetOr([]);
      var i := FirstLinkIndex(current, updatedLink.value.link).value;
      && |r| == |current| && r[i] == updatedLink.value
      && (forall k :: 0 <= k < |r| && k != i ==> r[k] == current[k])
    ensures updatedLink.Some? && !HasKey(links.GetOr([]), updatedLink.value.link) ==>
      r == [updatedLink.value] + links.GetOr([])
    ensures updatedLink.None? && previousLink.Some? ==> r == RemoveLink(links.GetOr([]), previousLink.value.link)
    ensures updatedLink.None? && previousLink.None? ==> r == links.GetOr([])
    ensures updatedLink.None? && previousLink.Some? && UniqueKeys(links.GetOr([])) ==> !HasKey(r, previousLink.value.link)
  {
    var current := links.GetOr([]);
    if updatedLink.Some? then
      match FirstLinkIndex(current, updatedLink.value.link)
      case Some(i) =>
        assert current[i := updatedLink.value][i] == updatedLink.value;
        current[i := updatedLink.value]
      case None => [updatedLink.value] + current
    else if previousLink.Some? then RemoveLink(current, previousLink.value.link)
    else current
  }

  /** Creating or updating a link keeps the URLs distinct and changes the count by at most one. */
  lemma CreatedLinkUpdateKeepsKeysUnique(links: Option<seq<FolderLink>>, updatedLink: Option<FolderLink>,
                                         previousLink: Option<FolderLink>)
    requires UniqueKeys(links.GetOr([]))
    ensures UniqueKeys(CreatedLinkUpdate(links, updatedLink, previousLink))
    ensures updatedLink.Some? ==>
      |CreatedLinkUpdate(links, updatedLink, previousLink)|
        == |links.GetOr([])| + (if HasKey(links.GetOr([]), updatedLink.value.link) then 0 else 1)
  {
    var current := links.GetOr([]);
    if updatedLink.Some? {
      var r := CreatedLinkUpdate(links, updatedLink, previousLink);
      match FirstLinkIndex(current, updatedLink.value.link)
      case Some(i) =>
      case None =>
        assert forall k :: 0 < k < |r| ==> r[k] == current[k - 1];
    }
  }

  /**
   * `openLink`'s update after the link editor returns: an unchanged link
   * leaves the list alone; a changed link moves to the front in place of the
   * first link with the edited URL; a revoked link leaves.
   */
  function EditedLinkUpdate(links: Option<seq<FolderLink>>, link: FolderLink, updatedLink: Option<FolderLink>): (r: seq<FolderLink>)
    ensures updatedLink == Some(link) ==> r == links.GetOr([])
    ensures updatedLink.Some? && updatedLink != Some(link) ==>
      |r| > 0 && r[0] == updatedLink.value && r[1..] == RemoveLink(links.GetOr([]), link.link)
    ensures updatedLink.None? ==> r == RemoveLink(links.GetOr([]), link.link)
    ensures updatedLink.None? && UniqueKeys(links.GetOr([])) ==> !HasKey(r, link.link)
  {
    var current := links.GetOr([]);
    if updatedLink == Some(link) then current
    else if updatedLink.Some? then [updatedLink.value] + RemoveLink(current, link.link)
    else RemoveLink(current, link.link)
  }

  /** The edit whose result the link editor returns unchanged does not reorder the list. */
  lemma UnchangedEditKeepsOrder(a: FolderLink, b: FolderLink)
    ensures EditedLinkUpdate(Some([a, b]), b, Some(b)) == [a, b]
  {
  }

  /**
   * Editing a link keeps every link with another URL. The source does not
   * check the URL the link editor returns, so the URLs stay distinct only when
   * a changed link's URL is not carried by another link left in the list.
   */
  lemma EditedLinkUpdateFacts(links: Option<seq<FolderLink>>, link: FolderLink, updatedLink: Option<FolderLink>)
    ensures forall l :: l in links.GetOr([]) && l.link != link.link ==> l in EditedLinkUpdate(links, link, updatedLink)
    ensures UniqueKeys(links.GetOr([]))
      && (updatedLink.Some? && updatedLink != Some(link) ==>
            !HasKey(RemoveLink(links.GetOr([]), link.link), updatedLink.value.link))
      ==> UniqueKeys(EditedLinkUpdate(links, link, updatedLink))
  {
    var current := links.GetOr([]);
    var rest := RemoveLink(current, link.link);
    if updatedLink.Some? && updatedLink != Some(link) {
      var r := EditedLinkUpdate(links, link, updatedLink);
      assert r == [updatedLink.value] + rest;
      forall l | l in current && l.link != link.link
        ensures l in r
      {
        assert l in rest;
      }
      if UniqueKeys(current) && !HasKey(rest, updatedLink.value.link) {
        PrependUnique(updatedLink.value, rest);
      }
    }
  }

  /** An edited link that comes back with another link's URL repeats that URL. */
  lemma EditedLinkCanRepeatUrl(a: FolderLink, b: FolderLink, c: FolderLink)
    requires a.link != b.link && c.link == a.link
    ensures UniqueKeys([a, b])
    ensures EditedLinkUpdate(Some([a, b]), b, Some(c)) == [c, a]
    ensures !UniqueKeys(EditedLinkUpdate(Some([a, b]), b, Some(c)))
  {
    var r := EditedLinkUpdate(Some([a, b]), b, Some(c));
    assert FirstLinkIndex([a, b], b.link) == Some(1);
    assert RemoveLink([a, b], b.link) == [a];
    assert r[0].link == r[1].link;
  }

  /** A link whose URL the list lacks can go in front without repeating a URL. */
  lemma PrependUnique(x: FolderLink, rest: seq<FolderLink>)
    requires UniqueKeys(rest) && !HasKey(rest, x.link)
    ensures UniqueKeys([x] + rest)
  {
    var r := [x] + rest;
    forall i, j | 0 <= i < j < |r|
      ensures r[i].link != r[j].link
    {
      assert r[j] == rest[j - 1];
      if i > 0 {
        assert r[i] == rest[i - 1];
      }
    }
  }

  /** `removeLink`: the link with the removed link's URL leaves the list. */
  function RemovedLinkUpdate(links: Option<seq<FolderLink>>, link: FolderLink): (r: seq<FolderLink>)
    ensures UniqueKeys(links.GetOr([])) ==> !HasKey(r, link.link) && UniqueKeys(r)
    ensures forall l :: l in links.GetOr([]) && l.link != link.link ==> l in r
  {
    RemoveLink(links.GetOr([]), link.link)
  }
}
