/**
 * The two chat pickers the folder editor opens: "include chats" (chats plus
 * chat types) and "exclude chats" (chats plus the muted/read/archived flags).
 * Each turns the picker's result into an updated folder that keeps the
 * include and exclude lists apart; the editor then adopts that folder into
 * its state, or, for the stand-alone "add chats" entry point, writes it
 * straight into the folder list.
 */
module FolderPicker {
  import opened Common
  import opened FolderModel

  /** `ContactListPeerId`: a chat, or something else the picker can return (a device contact). */
  datatype PickedId = PickedPeer(peer: PeerId) | PickedOther

  /** The picker's `result`: cancelled, or the chosen ids and the chosen additional-category ids. */
  datatype PickerResult =
    | PickerCancelled
    | PickerDone(peerIds: seq<PickedId>, additionalCategoryIds: seq<int>)

  /** `AdditionalCategoryId`'s raw values. */
  function IncludeCategoryId(c: IncludeCategory): int {
    match c
    case Contacts => 0
    case NonContacts => 1
    case Groups => 2
    case Channels => 3
    case Bots => 4
  }

  /** `AdditionalExcludeCategoryId`'s raw values. */
  function ExcludeCategoryId(c: ExcludeCategory): int {
    match c
    case Muted => 0
    case Read => 1
    case Archived => 2
  }

  /** The include-category ids are distinct. */
  lemma IncludeCategoryIdInjective(a: IncludeCategory, b: IncludeCategory)
    ensures IncludeCategoryId(a) == IncludeCategoryId(b) <==> a == b
  {
  }

  // ---------------------------------------------------------------------------
  // Sorting chat ids (`sort()` on `[PeerId]`).

  predicate Ascending(s: seq<PeerId>) {
    forall i, j :: 0 <= i < j < |s| ==> s[i] <= s[j]
  }

  /** Inserts `x` into an ascending list. */
  function Insert(x: PeerId, s: seq<PeerId>): seq<PeerId> {
    if s == [] || x <= s[0] then [x] + s else [s[0]] + Insert(x, s[1..])
  }

  lemma {:induction false} InsertFacts(x: PeerId, s: seq<PeerId>)
    ensures multiset(Insert(x, s)) == multiset(s) + multiset{x}
    ensures Ascending(s) ==> Ascending(Insert(x, s))
  {
    if s != [] && x > s[0] {
      var rest := Insert(x, s[1..]);
      InsertFacts(x, s[1..]);
      assert s == [s[0]] + s[1..];
      assert multiset(Insert(x, s)) == multiset{s[0]} + multiset(rest);
      if Ascending(s) {
        InsertAboveHead(x, s, rest);
      }
    }
  }

  /** The head of an ascending list stays below everything inserted after it. */
  lemma InsertAboveHead(x: PeerId, s: seq<PeerId>, rest: seq<PeerId>)
    requires s != [] && x > s[0] && Ascending(s)
    requires multiset(rest) == multiset(s[1..]) + multiset{x} && Ascending(rest)
    ensures Ascending([s[0]] + rest)
  {
    var r := [s[0]] + rest;
    forall k | 0 < k < |r|
      ensures s[0] <= r[k]
    {
      assert r[k] == rest[k - 1];
      assert rest[k - 1] in multiset(rest);
      if rest[k - 1] != x {
        assert rest[k - 1] in multiset(s[1..]);
        var j :| 0 <= j < |s[1..]| && s[1..][j] == rest[k - 1];
        assert s[j + 1] == rest[k - 1];
      }
    }
    forall i, j | 0 <= i < j < |r|
      ensures r[i] <= r[j]
    {
      if i > 0 {
        assert r[i] == rest[i - 1] && r[j] == rest[j - 1];
      }
    }
  }

  /** The ids in ascending order. */
  function Sort(s: seq<PeerId>): seq<PeerId> {
    if s == [] then [] else Insert(s[0], Sort(s[1..]))
  }

  /** `Sort` gives an ascending arrangement of the same ids. */
  lemma {:induction false} SortFacts(s: seq<PeerId>)
    ensures multiset(Sort(s)) == multiset(s)
    ensures Ascending(Sort(s))
  {
    if s != [] {
      SortFacts(s[1..]);
      InsertFacts(s[0], Sort(s[1..]));
      assert s == [s[0]] + s[1..];
    }
  }

  /** The sorted list is the only ascending arrangement of the ids. */
  lemma {:induction false} SortUnique(s: seq<PeerId>, t: seq<PeerId>)
    requires Ascending(t) && multiset(t) == multiset(s)
    ensures t == Sort(s)
  {
    SortFacts(s);
    AscendingUnique(t, Sort(s));
  }

  lemma {:induction false} AscendingUnique(a: seq<PeerId>, b: seq<PeerId>)
    requires Ascending(a) && Ascending(b) && multiset(a) == multiset(b)
    ensures a == b
    decreases |a|
  {
    if a != [] {
      AscendingSameHead(a, b);
      MultisetOfTail(a);
      MultisetOfTail(b);
      assert Ascending(a[1..]) && Ascending(b[1..]);
      AscendingUnique(a[1..], b[1..]);
      assert a == [a[0]] + a[1..];
      assert b == [b[0]] + b[1..];
    }
  }

  /** Two ascending arrangements of the same ids start with the same id. */
  lemma AscendingSameHead(a: seq<PeerId>, b: seq<PeerId>)
    requires Ascending(a) && Ascending(b) && multiset(a) == multiset(b) && a != []
    ensures b != [] && a[0] == b[0]
  {
    assert a[0] in multiset(b);
    assert b != [];
    assert b[0] in multiset(a);
    var i :| 0 <= i < |b| && b[i] == a[0];
    var j :| 0 <= j < |a| && a[j] == b[0];
    assert b[0] <= b[i] && a[0] <= a[j];
  }

  /** Dropping the head drops one copy of it from the multiset. */
  lemma MultisetOfTail(a: seq<PeerId>)
    requires a != []
    ensures multiset(a[1..]) == multiset(a) - multiset{a[0]}
  {
    assert a == [a[0]] + a[1..];
  }

  // ---------------------------------------------------------------------------
  // Reading the picker's result.

  /** The chats among the picked ids, in order. */
  function PickedPeers(ids: seq<PickedId>): (r: seq<PeerId>)
    ensures forall p :: p in r <==> PickedPeer(p) in ids
    ensures |r| <= |ids|
  {
    if ids == [] then []
    else
      var last := ids[|ids| - 1];
      PickedPeers(ids[..|ids| - 1]) + (if last.PickedPeer? then [last.peer] else [])
  }

  /** Collects the chats among the picked ids, skipping the rest. */
  method CollectPickedPeers(ids: seq<PickedId>) returns (peers: seq<PeerId>)
    ensures peers == PickedPeers(ids)
  {
    peers := [];
    var i := 0;
    while i < |ids|
      invariant 0 <= i <= |ids|
      invariant peers == PickedPeers(ids[..i])
    {
      assert ids[..i + 1][..i] == ids[..i];
      if ids[i].PickedPeer? {
        peers := peers + [ids[i].peer];
      }
      i := i + 1;
    }
    assert ids[..i] == ids;
  }

  /** The chat types whose ids were picked; unknown ids are ignored. */
  function PickedCategories(ids: seq<int>): (r: set<IncludeCategory>)
    ensures forall c :: c in r <==> IncludeCategoryId(c) in ids
  {
    set c: IncludeCategory | IncludeCategoryId(c) in ids
  }

  /** Turns the picked category ids into chat types, one id at a time. */
  method CollectPickedCategories(ids: seq<int>) returns (categories: set<IncludeCategory>)
    ensures categories == PickedCategories(ids)
  {
    categories := {};
    var i := 0;
    while i < |ids|
      invariant 0 <= i <= |ids|
      invariant forall c :: c in categories <==> IncludeCategoryId(c) in ids[..i]
    {
      var k := 0;
      while k < |AllIncludeCategories|
        invariant 0 <= k <= 5
        invariant forall j :: 0 <= j < k ==> IncludeCategoryId(AllIncludeCategories[j]) != ids[i]
      {
        if IncludeCategoryId(AllIncludeCategories[k]) == ids[i] {
          break;
        }
        k := k + 1;
      }
      assert ids[..i + 1] == ids[..i] + [ids[i]];
      if k < |AllIncludeCategories| {
        categories := categories + {AllIncludeCategories[k]};
        forall c | IncludeCategoryId(c) == ids[i]
          ensures c == AllIncludeCategories[k]
        {
          IncludeCategoryIdInjective(c, AllIncludeCategories[k]);
        }
      } else {
        forall c
          ensures IncludeCategoryId(c) != ids[i]
        {
          var j := match c
            case Contacts => 0
            case NonContacts => 1
            case Groups => 2
            case Channels => 3
            case Bots => 4;
          assert AllIncludeCategories[j] == c;
        }
      }
      i := i + 1;
    }
    assert ids[..i] == ids;
  }

  /** The category ids the include picker opens with: those of the folder's chat types, none for a shared folder. */
  function InitialIncludeSelection(data: FilterData): set<int> {
    if data.isShared then {} else set c | c in data.categories :: IncludeCategoryId(c)
  }

  /** Confirming the include picker's initial category selection gives back the folder's chat types. */
  lemma IncludeSelectionRoundTrip(data: FilterData, ids: seq<int>)
    requires !data.isShared
    requires forall id :: id in ids <==> id in InitialIncludeSelection(data)
    ensures PickedCategories(ids) == data.categories
  {
    forall c
      ensures c in PickedCategories(ids) <==> c in data.categories
    {
      if IncludeCategoryId(c) in InitialIncludeSelection(data) {
        var d :| d in data.categories && IncludeCategoryId(d) == IncludeCategoryId(c);
        IncludeCategoryIdInjective(c, d);
      }
    }
  }

  /** The ids the exclude picker opens with: one per exclusion flag that is on. */
  function InitialExcludeSelection(data: FilterData): set<int> {
    (if data.excludeMuted then {ExcludeCategoryId(Muted)} else {})
      + (if data.excludeRead then {ExcludeCategoryId(Read)} else {})
      + (if data.excludeArchived then {ExcludeCategoryId(Archived)} else {})
  }

  // ---------------------------------------------------------------------------
  // The updated folder.

  /** `excludePeers.filter { !includePeers.contains($0) }`. */
  function Without(s: seq<PeerId>, removed: seq<PeerId>): (r: seq<PeerId>)
    ensures forall p :: p in r <==> p in s && p !in removed
    ensures |r| <= |s|
  {
    if s == [] then []
    else
      var rest := Without(s[1..], removed);
      assert forall p :: p in s ==> p == s[0] || p in s[1..];
      (if s[0] in removed then [] else [s[0]]) + rest
  }

  /**
   * The filter works chat by chat and keeps the order and the repetitions
   * of the chats it keeps: filtering a concatenation is concatenating the
   * filtered parts, and a single chat stays exactly when it is not removed.
   */
  lemma {:induction false} WithoutAppend(a: seq<PeerId>, b: seq<PeerId>, removed: seq<PeerId>)
    ensures Without(a + b, removed) == Without(a, removed) + Without(b, removed)
    decreases |a|
  {
    if a == [] {
      assert a + b == b;
    } else {
      var kept := if a[0] in removed then [] else [a[0]];
      assert Without(a + b, removed) == kept + Without(a[1..] + b, removed) by {
        assert (a + b)[0] == a[0];
        assert (a + b)[1..] == a[1..] + b;
      }
      WithoutAppend(a[1..], b, removed);
      SeqAssoc(kept, Without(a[1..], removed), Without(b, removed));
    }
  }

  lemma WithoutOne(x: PeerId, removed: seq<PeerId>)
    ensures Without([x], removed) == (if x in removed then [] else [x])
  {
    assert [x][1..] == [];
  }

  /** The folder after the include picker returns; None when it was cancelled or no folder was given. */
  function AddChatsUpdate(filter: ChatListFilter, result: PickerResult): Option<ChatListFilter> {
    match filter
    case AllChats => None
    case Filter(id, title, emoticon, data) =>
      match result
      case PickerCancelled => None
      case PickerDone(peerIds, categoryIds) =>
        var includePeers := Sort(PickedPeers(peerIds));
        Some(Filter(id, title, emoticon, data.(categories := PickedCategories(categoryIds),
                                               includePeers := includePeers,
                                               excludePeers := Without(data.excludePeers, includePeers))))
  }

  /** The folder after the exclude picker returns; None when it was cancelled or no folder was given. */
  function ExcludeChatsUpdate(filter: ChatListFilter, result: PickerResult): Option<ChatListFilter> {
    match filter
    case AllChats => None
    case Filter(id, title, emoticon, data) =>
      match result
      case PickerCancelled => None
      case PickerDone(peerIds, categoryIds) =>
        var excludePeers := Sort(PickedPeers(peerIds));
        Some(Filter(id, title, emoticon, data.(excludeMuted := ExcludeCategoryId(Muted) in categoryIds,
                                               excludeRead := ExcludeCategoryId(Read) in categoryIds,
                                               excludeArchived := ExcludeCategoryId(Archived) in categoryIds,
                                               excludePeers := excludePeers,
                                               includePeers := Without(data.includePeers, excludePeers))))
  }

  /** The include picker's result handler. */
  method AddChatsOutcome(filter: ChatListFilter, result: PickerResult) returns (r: Option<ChatListFilter>)
    ensures r == AddChatsUpdate(filter, result)
  {
    if filter.AllChats? || result.PickerCancelled? {
      return None;
    }
    var includePeers := CollectPickedPeers(result.peerIds);
    includePeers := Sort(includePeers);
    var categories := CollectPickedCategories(result.additionalCategoryIds);
    var data := filter.filterData;
    var updatedData := data.(categories := categories, includePeers := includePeers);
    updatedData := updatedData.(excludePeers := Without(updatedData.excludePeers, updatedData.includePeers));
    r := Some(Filter(filter.filterId, filter.filterTitle, filter.filterEmoticon, updatedData));
  }

  /** The exclude picker's result handler. */
  method ExcludeChatsOutcome(filter: ChatListFilter, result: PickerResult) returns (r: Option<ChatListFilter>)
    ensures r == ExcludeChatsUpdate(filter, result)
  {
    if filter.AllChats? || result.PickerCancelled? {
      return None;
    }
    var excludePeers := CollectPickedPeers(result.peerIds);
    excludePeers := Sort(excludePeers);
    var data := filter.filterData;
    var ids := result.additionalCategoryIds;
    var updatedData := data.(excludeMuted := ExcludeCategoryId(Muted) in ids,
                             excludeRead := ExcludeCategoryId(Read) in ids,
                             excludeArchived := ExcludeCategoryId(Archived) in ids);
    updatedData := updatedData.(excludePeers := excludePeers);
    updatedData := updatedData.(includePeers := Without(updatedData.includePeers, updatedData.excludePeers));
    r := Some(Filter(filter.filterId, filter.filterTitle, filter.filterEmoticon, updatedData));
  }

  /** No chat is both included and excluded. */
  predicate Disjoint(included: seq<PeerId>, excluded: seq<PeerId>) {
    forall p :: p in included ==> p !in excluded
  }

  /**
   * After the include picker the folder includes exactly the picked chats,
   * sorted, and exactly the picked chat types; excluded chats lose every
   * picked chat and keep the rest; name, id and flags stay.
   */
  lemma AddChatsUpdateFacts(filter: ChatListFilter, peerIds: seq<PickedId>, categoryIds: seq<int>)
    requires filter.Filter?
    ensures var r := AddChatsUpdate(filter, PickerDone(peerIds, categoryIds));
      && r.Some? && r.value.Filter?
      && r.value.Id() == filter.Id() && r.value.Title() == filter.Title() && r.value.Emoticon() == filter.Emoticon()
      && var d := r.value.filterData;
      && Ascending(d.includePeers)
      && multiset(d.includePeers) == multiset(PickedPeers(peerIds))
      && (forall c :: c in d.categories <==> IncludeCategoryId(c) in categoryIds)
      && Disjoint(d.includePeers, d.excludePeers)
      && (forall p :: p in d.excludePeers <==> p in filter.filterData.excludePeers && PickedPeer(p) !in peerIds)
      && d.excludePeers == Without(filter.filterData.excludePeers, d.includePeers)
      && d == filter.filterData.(categories := d.categories, includePeers := d.includePeers, excludePeers := d.excludePeers)
  {
    var includePeers := Sort(PickedPeers(peerIds));
    SortFacts(PickedPeers(peerIds));
    forall p
      ensures p in includePeers <==> PickedPeer(p) in peerIds
    {
      assert p in includePeers <==> p in multiset(includePeers);
    }
  }

  /**
   * After the exclude picker each exclusion flag is on exactly when its id was
   * picked, the folder excludes exactly the picked chats, sorted, and included
   * chats lose every picked chat and keep the rest.
   */
  lemma ExcludeChatsUpdateFacts(filter: ChatListFilter, peerIds: seq<PickedId>, categoryIds: seq<int>)
    requires filter.Filter?
    ensures var r := ExcludeChatsUpdate(filter, PickerDone(peerIds, categoryIds));
      && r.Some? && r.value.Filter?
      && r.value.Id() == filter.Id() && r.value.Title() == filter.Title() && r.value.Emoticon() == filter.Emoticon()
      && var d := r.value.filterData;
      && (forall c :: ExcludeFlagOf(d, c) <==> ExcludeCategoryId(c) in categoryIds)
      && Ascending(d.excludePeers)
      && multiset(d.excludePeers) == multiset(PickedPeers(peerIds))
      && Disjoint(d.includePeers, d.excludePeers)
      && (forall p :: p in d.includePeers <==> p in filter.filterData.includePeers && PickedPeer(p) !in peerIds)
      && d.includePeers == Without(filter.filterData.includePeers, d.excludePeers)
      && d.categories == filter.filterData.categories
  {
    var excludePeers := Sort(PickedPeers(peerIds));
    SortFacts(PickedPeers(peerIds));
    forall p
      ensures p in excludePeers <==> PickedPeer(p) in peerIds
    {
      assert p in excludePeers <==> p in multiset(excludePeers);
    }
  }

  /** The exclusion flag a folder's data holds for `c`. */
  function ExcludeFlagOf(d: FilterData, c: ExcludeCategory): bool {
    match c
    case Muted => d.excludeMuted
    case Read => d.excludeRead
    case Archived => d.excludeArchived
  }

  /** Confirming the exclude picker's initial selection keeps the folder's exclusion flags. */
  lemma ExcludeSelectionRoundTrip(filter: ChatListFilter, peerIds: seq<PickedId>, ids: seq<int>)
    requires filter.Filter?
    requires forall id :: id in ids <==> id in InitialExcludeSelection(filter.filterData)
    ensures var r := ExcludeChatsUpdate(filter, PickerDone(peerIds, ids));
      forall c :: ExcludeFlagOf(r.value.filterData, c) == ExcludeFlagOf(filter.filterData, c)
  {
  }

  // ---------------------------------------------------------------------------
  // Where the updated folder goes.

  /** The editor adopts the include picker's folder (`openAddIncludePeer`'s `updated`). */
  function AdoptIncludeResult(s: EditorState, f: ChatListFilter): (r: EditorState)
    ensures r == s.(additionallyIncludePeers := r.additionallyIncludePeers,
                    additionallyExcludePeers := r.additionallyExcludePeers,
                    includeCategories := r.includeCategories)
  {
    var data := f.Data();
    s.(additionallyIncludePeers := if data.Some? then data.value.includePeers else [],
       additionallyExcludePeers := if data.Some? then data.value.excludePeers else [],
       includeCategories := if data.Some? then data.value.categories else {})
  }

  /** The editor adopts the exclude picker's folder (`openAddExcludePeer`'s `updated`). */
  function AdoptExcludeResult(s: EditorState, f: ChatListFilter): (r: EditorState)
    ensures r == s.(additionallyIncludePeers := r.additionallyIncludePeers,
                    additionallyExcludePeers := r.additionallyExcludePeers,
                    includeCategories := r.includeCategories,
                    excludeRead := r.excludeRead, excludeMuted := r.excludeMuted, excludeArchived := r.excludeArchived)
  {
    var data := f.Data();
    s.(additionallyIncludePeers := if data.Some? then data.value.includePeers else [],
       additionallyExcludePeers := if data.Some? then data.value.excludePeers else [],
       includeCategories := if data.Some? then data.value.categories else {},
       excludeRead := data.Some? && data.value.excludeRead,
       excludeMuted := data.Some? && data.value.excludeMuted,
       excludeArchived := data.Some? && data.value.excludeArchived)
  }

  /**
   * Editor round trip through the include picker: the editor's lists stay
   * apart, it shows the picked chats and types, and confirming the
   * picker's initial selection of a folder that is not shared changes
   * neither chat types nor flags.
   */
  lemma IncludePickerRoundTrip(s: EditorState, currentPreset: Option<ChatListFilter>, id: int, title: string,
                               emoticon: Option<string>, peerIds: seq<PickedId>, categoryIds: seq<int>)
    requires forall c :: c in categoryIds <==> c in InitialIncludeSelection(EditedData(s, currentPreset))
    requires !EditedData(s, currentPreset).isShared
    ensures var f := Filter(id, title, emoticon, EditedData(s, currentPreset));
      var r := AdoptIncludeResult(s, AddChatsUpdate(f, PickerDone(peerIds, categoryIds)).value);
      && Disjoint(r.additionallyIncludePeers, r.additionallyExcludePeers)
      && multiset(r.additionallyIncludePeers) == multiset(PickedPeers(peerIds))
      && r.includeCategories == s.includeCategories
      && r.excludeMuted == s.excludeMuted && r.excludeRead == s.excludeRead && r.excludeArchived == s.excludeArchived
  {
    var f := Filter(id, title, emoticon, EditedData(s, currentPreset));
    AddChatsUpdateFacts(f, peerIds, categoryIds);
    IncludeSelectionRoundTrip(EditedData(s, currentPreset), categoryIds);
  }

  /** Editor round trip through the exclude picker: the lists stay apart and the flags are the picked ones. */
  lemma ExcludePickerRoundTrip(s: EditorState, currentPreset: Option<ChatListFilter>, id: int, title: string,
                               emoticon: Option<string>, peerIds: seq<PickedId>, categoryIds: seq<int>)
    ensures var f := Filter(id, title, emoticon, EditedData(s, currentPreset));
      var r := AdoptExcludeResult(s, ExcludeChatsUpdate(f, PickerDone(peerIds, categoryIds)).value);
      && Disjoint(r.additionallyIncludePeers, r.additionallyExcludePeers)
      && multiset(r.additionallyExcludePeers) == multiset(PickedPeers(peerIds))
      && (forall c :: ExcludeFlag(r, c) <==> ExcludeCategoryId(c) in categoryIds)
      && r.includeCategories == s.includeCategories
  {
    var f := Filter(id, title, emoticon, EditedData(s, currentPreset));
    ExcludeChatsUpdateFacts(f, peerIds, categoryIds);
  }

  /**
   * Adopting a picker's folder through the `updateState` wrapper: the lists,
   * chat types (and, for the exclude picker, flags) are the folder's; a name
   * typed by the user stays, and a settled editor whose chat types and flags
   * the picker left as they were keeps its name.
   */
  lemma UpdatedAdoptIncludeResult(s: EditorState, f: ChatListFilter,
                                  p: Option<ChatListFilter>, initialName: string, localized: FilterType -> string)
    ensures var r := UpdateState(AdoptIncludeResult(s, f), p, initialName, localized);
      && r == AdoptIncludeResult(s, f).(name := r.name)
      && (s.changedName ==> r.name == s.name)
      && (NameSettled(s, p, initialName, localized) && r.includeCategories == s.includeCategories ==> r == AdoptIncludeResult(s, f))
  {
    var a := AdoptIncludeResult(s, f);
    if a.includeCategories == s.includeCategories {
      AutoNameDependsOnType(a, s, p, p);
    }
  }

  lemma UpdatedAdoptExcludeResult(s: EditorState, f: ChatListFilter,
                                  p: Option<ChatListFilter>, initialName: string, localized: FilterType -> string)
    ensures var r := UpdateState(AdoptExcludeResult(s, f), p, initialName, localized);
      && r == AdoptExcludeResult(s, f).(name := r.name)
      && (s.changedName ==> r.name == s.name)
      && ((NameSettled(s, p, initialName, localized) && r.includeCategories == s.includeCategories
           && r.excludeMuted == s.excludeMuted && r.excludeRead == s.excludeRead)
          ==> r == AdoptExcludeResult(s, f))
  {
    var a := AdoptExcludeResult(s, f);
    if a.includeCategories == s.includeCategories && a.excludeMuted == s.excludeMuted && a.excludeRead == s.excludeRead {
      AutoNameDependsOnType(a, s, p, p);
    }
  }

  /**
   * The stand-alone "add chats" entry point writes the updated folder over
   * every list entry with the folder's id. `updated` is the folder the
   * include picker returned for `filter`, that is the value of
   * `AddChatsUpdate(filter, result)` when it is present.
   */
  method ApplyToFolderList(filters: seq<ChatListFilter>, filter: ChatListFilter, updated: ChatListFilter)
    returns (r: seq<ChatListFilter>)
    ensures |r| == |filters|
    ensures forall i :: 0 <= i < |r| ==>
      r[i] == (if filters[i].Id() == filter.Id() && filter.Filter? then updated else filters[i])
  {
    r := filters;
    var i := 0;
    while i < |r|
      invariant 0 <= i <= |r| && |r| == |filters|
      invariant forall k :: 0 <= k < i ==>
        r[k] == (if filters[k].Id() == filter.Id() && filter.Filter? then updated else filters[k])
      invariant forall k :: i <= k < |r| ==> r[k] == filters[k]
    {
      if r[i].Id() == filter.Id() {
        if filter.Filter? {
          r := r[i := updated];
        }
      }
      i := i + 1;
    }
  }
}
