/**
 * The rows of the folder editor screen: their sort keys and the hand-written
 * strict order on them, their stable identities and sections, and the builder
 * that emits the rows for a given editor state, truncating long peer lists
 * behind an "expand" row.
 */
module FolderEntries {
  import opened Common
  import opened FolderModel

  /** `ChatListFilterPresetEntrySortId`. */
  datatype SortId =
    | ScreenHeaderKey
    | TopIndex(topIndex: int)
    | IncludeIndex(includeIndex: int)
    | ExcludeIndex(excludeIndex: int)
    | BottomIndex(bottomIndex: int)
    | InviteLinkKey(linkIndex: int)
    | InviteLinkFooterKey

  /** The hand-written `<` on sort keys. */
  predicate Less(lhs: SortId, rhs: SortId) {
    match lhs
    case ScreenHeaderKey =>
      !rhs.ScreenHeaderKey?
    case TopIndex(l) =>
      (match rhs
       case ScreenHeaderKey => false
       case TopIndex(r) => l < r
       case _ => true)
    case IncludeIndex(l) =>
      (match rhs
       case ScreenHeaderKey => false
       case TopIndex(_) => false
       case IncludeIndex(r) => l < r
       case _ => true)
    case ExcludeIndex(l) =>
      (match rhs
       case ExcludeIndex(r) => l < r
       case BottomIndex(_) => true
       case InviteLinkKey(_) => true
       case InviteLinkFooterKey => true
       case _ => false)
    case BottomIndex(l) =>
      (match rhs
       case BottomIndex(r) => l < r
       case InviteLinkKey(_) => true
       case InviteLinkFooterKey => true
       case _ => false)
    case InviteLinkKey(l) =>
      (match rhs
       case InviteLinkKey(r) => l < r
       case InviteLinkFooterKey => true
       case _ => false)
    case InviteLinkFooterKey =>
      false
  }

  /** Rank of a key's case: screenHeader < top < include < exclude < bottom < inviteLink < footer. */
  function Tag(k: SortId): nat {
    match k
    case ScreenHeaderKey => 0
    case TopIndex(_) => 1
    case IncludeIndex(_) => 2
    case ExcludeIndex(_) => 3
    case BottomIndex(_) => 4
    case InviteLinkKey(_) => 5
    case InviteLinkFooterKey => 6
  }

  /** The integer a key carries (0 for the two cases without one). */
  function Idx(k: SortId): int {
    match k
    case ScreenHeaderKey => 0
    case TopIndex(i) => i
    case IncludeIndex(i) => i
    case ExcludeIndex(i) => i
    case BottomIndex(i) => i
    case InviteLinkKey(i) => i
    case InviteLinkFooterKey => 0
  }

  /** The lexicographic reading of the order: first by case rank, then by index. */
  predicate LexLess(a: SortId, b: SortId) {
    Tag(a) < Tag(b) || (Tag(a) == Tag(b) && Idx(a) < Idx(b))
  }

  /** The switch-by-switch definition is the lexicographic order on (rank, index). */
  lemma LessIsLex(a: SortId, b: SortId)
    ensures Less(a, b) <==> LexLess(a, b)
  {
  }

  lemma LessIsLexAll()
    ensures forall a, b :: Less(a, b) <==> LexLess(a, b)
  {
    forall a, b ensures Less(a, b) <==> LexLess(a, b) {
      LessIsLex(a, b);
    }
  }

  /** Rank and index together identify a key. */
  lemma TagIdxInjective(a: SortId, b: SortId)
    requires Tag(a) == Tag(b) && Idx(a) == Idx(b)
    ensures a == b
  {
  }

  /** The entry order is irreflexive. */
  lemma LessIrreflexive(a: SortId)
    ensures !Less(a, a)
  {
    LessIsLex(a, a);
  }

  /** The entry order is transitive. */
  lemma LessTransitive(a: SortId, b: SortId, c: SortId)
    requires Less(a, b) && Less(b, c)
    ensures Less(a, c)
  {
    LessIsLex(a, b);
    LessIsLex(b, c);
    LessIsLex(a, c);
  }

  /** Any two keys compare in exactly one way. */
  lemma LessTrichotomous(a: SortId, b: SortId)
    ensures Less(a, b) || a == b || Less(b, a)
    ensures !(Less(a, b) && Less(b, a))
    ensures a == b ==> !Less(a, b)
  {
    LessIsLex(a, b);
    LessIsLex(b, a);
    if Tag(a) == Tag(b) && Idx(a) == Idx(b) {
      TagIdxInjective(a, b);
    }
  }

  /** `ChatListFilterPresetEntry`; localized titles are left out, state-dependent contents kept. */
  datatype Entry =
    | ScreenHeader
    | NameHeader
    | Name(value: string)
    | IncludePeersHeader
    | AddIncludePeer
    | IncludeCategoryRow(incIndex: int, includeCategory: IncludeCategory, incCategoryRevealed: bool)
    | IncludePeer(incPeerIndex: int, incPeer: PeerId, incPeerRevealed: bool)
    | IncludePeerInfo
    | ExcludePeersHeader
    | AddExcludePeer
    | ExcludeCategoryRow(excIndex: int, excludeCategory: ExcludeCategory, excCategoryRevealed: bool)
    | ExcludePeer(excPeerIndex: int, excPeer: PeerId, excPeerRevealed: bool)
    | ExcludePeerInfo
    | IncludeExpand(incHidden: int)
    | ExcludeExpand(excHidden: int)
    | InviteLinkHeader(headerHasLinks: bool)
    | InviteLinkCreate(createHasLinks: bool)
    | InviteLinkRow(linkRowIndex: int, folderLink: FolderLink)
    | InviteLinkInfo(infoHasLinks: bool)

  /** `ChatListFilterPresetControllerSection`. */
  datatype ListSection = ScreenHeaderSection | NameSection | IncludePeersSection | ExcludePeersSection | InviteLinksSection

  /** `ChatListFilterPresetEntry.section`. */
  function Section(e: Entry): ListSection {
    match e
    case ScreenHeader => ScreenHeaderSection
    case NameHeader => NameSection
    case Name(_) => NameSection
    case IncludePeersHeader => IncludePeersSection
    case AddIncludePeer => IncludePeersSection
    case IncludeCategoryRow(_, _, _) => IncludePeersSection
    case IncludePeer(_, _, _) => IncludePeersSection
    case IncludePeerInfo => IncludePeersSection
    case IncludeExpand(_) => IncludePeersSection
    case ExcludePeersHeader => ExcludePeersSection
    case AddExcludePeer => ExcludePeersSection
    case ExcludeCategoryRow(_, _, _) => ExcludePeersSection
    case ExcludePeer(_, _, _) => ExcludePeersSection
    case ExcludePeerInfo => ExcludePeersSection
    case ExcludeExpand(_) => ExcludePeersSection
    case InviteLinkHeader(_) => InviteLinksSection
    case InviteLinkCreate(_) => InviteLinksSection
    case InviteLinkRow(_, _) => InviteLinksSection
    case InviteLinkInfo(_) => InviteLinksSection
  }

  /** `ChatListFilterPresetEntryStableId`. */
  datatype StableId =
    | StableIndex(index: int)
    | StablePeer(peer: PeerId)
    | StableIncludePeerInfo
    | StableExcludePeerInfo
    | StableIncludeCategory(includeCategory: IncludeCategory)
    | StableExcludeCategory(excludeCategory: ExcludeCategory)
    | StableIncludeExpand
    | StableExcludeExpand
    | StableInviteLink(link: string)

  /** `ChatListFilterPresetEntry.stableId`. */
  function StableIdOf(e: Entry): StableId {
    match e
    case ScreenHeader => StableIndex(0)
    case NameHeader => StableIndex(1)
    case Name(_) => StableIndex(2)
    case IncludePeersHeader => StableIndex(3)
    case AddIncludePeer => StableIndex(4)
    case IncludeCategoryRow(_, c, _) => StableIncludeCategory(c)
    case IncludeExpand(_) => StableIndex(5)
    case IncludePeerInfo => StableIndex(6)
    case ExcludePeersHeader => StableIndex(7)
    case AddExcludePeer => StableIndex(8)
    case ExcludeCategoryRow(_, c, _) => StableExcludeCategory(c)
    case ExcludeExpand(_) => StableIndex(9)
    case ExcludePeerInfo => StableIndex(10)
    case IncludePeer(_, p, _) => StablePeer(p)
    case ExcludePeer(_, p, _) => StablePeer(p)
    case InviteLinkHeader(_) => StableIndex(11)
    case InviteLinkCreate(_) => StableIndex(12)
    case InviteLinkRow(_, link) => StableInviteLink(link.link)
    case InviteLinkInfo(_) => StableIndex(13)
  }

  /** `ChatListFilterPresetEntry.sortIndex`. */
  function SortIndex(e: Entry): SortId {
    match e
    case ScreenHeader => ScreenHeaderKey
    case NameHeader => TopIndex(0)
    case Name(_) => TopIndex(1)
    case IncludePeersHeader => IncludeIndex(0)
    case AddIncludePeer => IncludeIndex(1)
    case IncludeCategoryRow(index, _, _) => IncludeIndex(2 + index)
    case IncludePeer(index, _, _) => IncludeIndex(200 + index)
    case IncludeExpand(_) => IncludeIndex(999)
    case IncludePeerInfo => IncludeIndex(1000)
    case ExcludePeersHeader => ExcludeIndex(0)
    case AddExcludePeer => ExcludeIndex(1)
    case ExcludeCategoryRow(index, _, _) => ExcludeIndex(2 + index)
    case ExcludePeer(index, _, _) => ExcludeIndex(200 + index)
    case ExcludeExpand(_) => ExcludeIndex(999)
    case ExcludePeerInfo => ExcludeIndex(1000)
    case InviteLinkHeader(_) => BottomIndex(0)
    case InviteLinkCreate(_) => BottomIndex(1)
    case InviteLinkRow(index, _) => InviteLinkKey(index)
    case InviteLinkInfo(_) => InviteLinkFooterKey
  }

  /** Each section's rows sort after the previous section's rows. */
  lemma SectionsInOrder(a: Entry, b: Entry)
    requires Section(a) != Section(b)
    ensures Less(SortIndex(a), SortIndex(b)) <==> SectionRank(Section(a)) < SectionRank(Section(b))
  {
    LessIsLex(SortIndex(a), SortIndex(b));
  }

  function SectionRank(s: ListSection): nat {
    match s
    case ScreenHeaderSection => 0
    case NameSection => 1
    case IncludePeersSection => 2
    case ExcludePeersSection => 3
    case InviteLinksSection => 4
  }

  // ---------------------------------------------------------------------------
  // The rows the builder emits, section by section.

  /** The row for a peer of the include or the exclude section. */
  function PeerEntry(side: FilterSection, index: int, peer: PeerId, revealed: Option<RevealedItemId>): Entry {
    var isRevealed := revealed == Some(RevealedPeer(peer));
    if side == IncludeSection then IncludePeer(index, peer, isRevealed) else ExcludePeer(index, peer, isRevealed)
  }

  /** The "show N more chats" row of a section. */
  function ExpandEntry(side: FilterSection, hidden: int): Entry {
    if side == IncludeSection then IncludeExpand(hidden) else ExcludeExpand(hidden)
  }

  /** How many peer rows a section with `n` peers shows. */
  function ShownCount(n: nat, expanded: bool): nat {
    if n >= 7 && !expanded then 5 else n
  }

  /** The first `count` peer rows; each row's index is the list length at its append. */
  function PeerRowsUpTo(side: FilterSection, peers: seq<PeerId>, base: nat, revealed: Option<RevealedItemId>, count: nat): (rows: seq<Entry>)
    requires count <= |peers|
    ensures |rows| == count
  {
    if count == 0 then []
    else PeerRowsUpTo(side, peers, base, revealed, count - 1) + [PeerEntry(side, base + count - 1, peers[count - 1], revealed)]
  }

  /** A section's peer rows, followed by an expand row when some peers are hidden. */
  function PeerRows(side: FilterSection, peers: seq<PeerId>, base: nat, expanded: bool, revealed: Option<RevealedItemId>): seq<Entry> {
    var shown := ShownCount(|peers|, expanded);
    PeerRowsUpTo(side, peers, base, revealed, shown)
      + (if shown < |peers| then [ExpandEntry(side, |peers| - shown)] else [])
  }

  /** The number of include categories (`allCases.count`). */
  const IncludeCategoryCount: nat := 5

  /** The number of exclusion flags (`allCases.count`). */
  const ExcludeCategoryCount: nat := 3

  /** Rows for the first `n` include categories of `allCases` that are selected. */
  function IncludeCategoryRows(cats: set<IncludeCategory>, revealed: Option<RevealedItemId>, n: nat): seq<Entry>
    requires n <= 5
  {
    if n == 0 then []
    else
      var c := AllIncludeCategories[n - 1];
      IncludeCategoryRows(cats, revealed, n - 1)
        + (if c in cats then [IncludeCategoryRow(n - 1, c, revealed == Some(RevealedIncludeCategory(c)))] else [])
  }

  /** Rows for the first `n` exclude categories of `allCases` that are switched on. */
  function ExcludeCategoryRows(s: EditorState, n: nat): seq<Entry>
    requires n <= 3
  {
    if n == 0 then []
    else
      var c := AllExcludeCategories[n - 1];
      ExcludeCategoryRows(s, n - 1)
        + (if ExcludeFlag(s, c) then [ExcludeCategoryRow(n - 1, c, s.revealedItemId == Some(RevealedExcludeCategory(c)))] else [])
  }

  /** The folder being edited is shared, so its exclusions cannot be edited. */
  predicate IsSharedPreset(currentPreset: Option<ChatListFilter>) {
    currentPreset.Some? && currentPreset.value.Data().Some? && currentPreset.value.Data().value.isShared
  }

  /** The folder has share links (loaded or recorded in its data). */
  predicate HasLinks(currentPreset: Option<ChatListFilter>, inviteLinks: Option<seq<FolderLink>>) {
    (inviteLinks.Some? && inviteLinks.value != [])
    || (currentPreset.Some? && currentPreset.value.Data().Some? && currentPreset.value.Data().value.hasSharedLinks)
  }

  /** Everything up to the include section's peer rows. */
  function HeadRows(isNewFilter: bool, state: EditorState, includeCount: nat, limit: int): seq<Entry> {
    (if isNewFilter then [ScreenHeader] else [])
      + [NameHeader, Name(state.name), IncludePeersHeader]
      + (if includeCount < limit then [AddIncludePeer] else [])
      + IncludeCategoryRows(state.includeCategories, state.revealedItemId, IncludeCategoryCount)
  }

  /** The exclude section's first rows: header, add button, categories. */
  function ExcludeHeadRows(state: EditorState): seq<Entry> {
    [ExcludePeersHeader, AddExcludePeer] + ExcludeCategoryRows(state, ExcludeCategoryCount)
  }

  /** The whole exclude section, starting at list position `base`; absent for a shared folder. */
  function ExcludeRows(currentPreset: Option<ChatListFilter>, state: EditorState, excludePeers: seq<PeerId>, base: nat): seq<Entry> {
    if IsSharedPreset(currentPreset) then []
    else
      var head := ExcludeHeadRows(state);
      head
        + PeerRows(ExcludeSection, excludePeers, base + |head|, ExcludeSection in state.expandedSections, state.revealedItemId)
        + [ExcludePeerInfo]
  }

  /** The first `n` share-link rows. */
  function LinkRowsUpTo(links: seq<FolderLink>, n: nat): (rows: seq<Entry>)
    requires n <= |links|
    ensures |rows| == n
  {
    if n == 0 then [] else LinkRowsUpTo(links, n - 1) + [InviteLinkRow(n - 1, links[n - 1])]
  }

  /** The share-link section. */
  function LinkRows(currentPreset: Option<ChatListFilter>, inviteLinks: Option<seq<FolderLink>>, hadLinks: bool): seq<Entry> {
    var hasLinks := HasLinks(currentPreset, inviteLinks);
    [InviteLinkHeader(hasLinks || hadLinks), InviteLinkCreate(hasLinks)]
      + (if inviteLinks.Some? then LinkRowsUpTo(inviteLinks.value, |inviteLinks.value|) else [])
      + [InviteLinkInfo(hasLinks)]
  }

  /** The rows `chatListFilterPresetControllerEntries` emits. */
  function EditorEntries(isNewFilter: bool, currentPreset: Option<ChatListFilter>, state: EditorState,
                         includePeers: seq<PeerId>, excludePeers: seq<PeerId>, limit: int,
                         inviteLinks: Option<seq<FolderLink>>, hadLinks: bool): seq<Entry>
  {
    var head := HeadRows(isNewFilter, state, |includePeers|, limit);
    var included := head
      + PeerRows(IncludeSection, includePeers, |head|, IncludeSection in state.expandedSections, state.revealedItemId)
      + [IncludePeerInfo];
    var excluded := included + ExcludeRows(currentPreset, state, excludePeers, |included|);
    excluded + LinkRows(currentPreset, inviteLinks, hadLinks)
  }

  // ---------------------------------------------------------------------------
  // The builder, step by step.

  /** Appends a section's peer rows, stopping after five of seven or more unless expanded. */
  method AppendPeerRows(entries: seq<Entry>, side: FilterSection, peers: seq<PeerId>, expanded: bool,
                        revealed: Option<RevealedItemId>) returns (result: seq<Entry>)
    ensures result == entries + PeerRows(side, peers, |entries|, expanded, revealed)
  {
    result := entries;
    if peers != [] {
      var count := 0;
      while count < |peers|
        invariant 0 <= count <= ShownCount(|peers|, expanded)
        invariant ShownCount(|peers|, expanded) < |peers| ==> count < ShownCount(|peers|, expanded)
        invariant result == entries + PeerRowsUpTo(side, peers, |entries|, revealed, count)
      {
        result := result + [PeerEntry(side, |result|, peers[count], revealed)];
        count := count + 1;
        if |peers| >= 7 && count == 5 && !expanded {
          break;
        }
      }
      if count < |peers| {
        result := result + [ExpandEntry(side, |peers| - count)];
      }
    }
  }

  /** Appends a row for each selected include category, indexed by its position in `allCases`. */
  method AppendIncludeCategories(entries: seq<Entry>, state: EditorState) returns (result: seq<Entry>)
    ensures result == entries + IncludeCategoryRows(state.includeCategories, state.revealedItemId, IncludeCategoryCount)
  {
    result := entries;
    var includeCategoryIndex := 0;
    while includeCategoryIndex < |AllIncludeCategories|
      invariant 0 <= includeCategoryIndex <= 5
      invariant result == entries + IncludeCategoryRows(state.includeCategories, state.revealedItemId, includeCategoryIndex)
    {
      var category := AllIncludeCategories[includeCategoryIndex];
      if category in state.includeCategories {
        result := result + [IncludeCategoryRow(includeCategoryIndex, category, state.revealedItemId == Some(RevealedIncludeCategory(category)))];
      }
      includeCategoryIndex := includeCategoryIndex + 1;
    }
  }

  /** Appends a row for each exclusion flag that is on, indexed by its position in `allCases`. */
  method AppendExcludeCategories(entries: seq<Entry>, state: EditorState) returns (result: seq<Entry>)
    ensures result == entries + ExcludeCategoryRows(state, ExcludeCategoryCount)
  {
    result := entries;
    var excludeCategoryIndex := 0;
    while excludeCategoryIndex < |AllExcludeCategories|
      invariant 0 <= excludeCategoryIndex <= 3
      invariant result == entries + ExcludeCategoryRows(state, excludeCategoryIndex)
    {
      var category := AllExcludeCategories[excludeCategoryIndex];
      var isExcluded := match category
        case Read => state.excludeRead
        case Muted => state.excludeMuted
        case Archived => state.excludeArchived;
      if isExcluded {
        result := result + [ExcludeCategoryRow(excludeCategoryIndex, category, state.revealedItemId == Some(RevealedExcludeCategory(category)))];
      }
      excludeCategoryIndex := excludeCategoryIndex + 1;
    }
  }

  /** Appends the exclude section unless the folder is shared. */
  method AppendExcludeSection(entries: seq<Entry>, currentPreset: Option<ChatListFilter>, state: EditorState,
                              excludePeers: seq<PeerId>) returns (result: seq<Entry>)
    ensures result == entries + ExcludeRows(currentPreset, state, excludePeers, |entries|)
  {
    result := entries;
    if !IsSharedPreset(currentPreset) {
      result := result + [ExcludePeersHeader, AddExcludePeer];
      result := AppendExcludeCategories(result, state);
      assert result == entries + ExcludeHeadRows(state);
      result := AppendPeerRows(result, ExcludeSection, excludePeers, ExcludeSection in state.expandedSections, state.revealedItemId);
      result := result + [ExcludePeerInfo];
    }
  }

  /** Appends the share-link section. */
  method AppendLinkSection(entries: seq<Entry>, currentPreset: Option<ChatListFilter>,
                           inviteLinks: Option<seq<FolderLink>>, hadLinks: bool) returns (result: seq<Entry>)
    ensures result == entries + LinkRows(currentPreset, inviteLinks, hadLinks)
  {
    var hasLinks := false;
    if inviteLinks.Some? && inviteLinks.value != [] {
      hasLinks := true;
    }
    if currentPreset.Some? && currentPreset.value.Data().Some? && currentPreset.value.Data().value.hasSharedLinks {
      hasLinks := true;
    }
    result := entries + [InviteLinkHeader(hasLinks || hadLinks), InviteLinkCreate(hasLinks)];
    ghost var beforeLinks := result;
    if inviteLinks.Some? {
      var links := inviteLinks.value;
      var index := 0;
      while index < |links|
        invariant 0 <= index <= |links|
        invariant result == beforeLinks + LinkRowsUpTo(links, index)
      {
        result := result + [InviteLinkRow(index, links[index])];
        index := index + 1;
      }
    }
    result := result + [InviteLinkInfo(hasLinks)];
  }

  /** `chatListFilterPresetControllerEntries`. */
  method PresetControllerEntries(isNewFilter: bool, currentPreset: Option<ChatListFilter>, state: EditorState,
                                 includePeers: seq<PeerId>, excludePeers: seq<PeerId>, limit: int,
                                 inviteLinks: Option<seq<FolderLink>>, hadLinks: bool) returns (entries: seq<Entry>)
    ensures entries == EditorEntries(isNewFilter, currentPreset, state, includePeers, excludePeers, limit, inviteLinks, hadLinks)
  {
    entries := [];
    if isNewFilter {
      entries := entries + [ScreenHeader];
    }
    entries := entries + [NameHeader, Name(state.name), IncludePeersHeader];
    if |includePeers| < limit {
      entries := entries + [AddIncludePeer];
    }
    entries := AppendIncludeCategories(entries, state);
    assert entries == HeadRows(isNewFilter, state, |includePeers|, limit);
    entries := AppendPeerRows(entries, IncludeSection, includePeers, IncludeSection in state.expandedSections, state.revealedItemId);
    entries := entries + [IncludePeerInfo];
    entries := AppendExcludeSection(entries, currentPreset, state, excludePeers);
    entries := AppendLinkSection(entries, currentPreset, inviteLinks, hadLinks);
  }
}
