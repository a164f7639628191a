/**
 * The chat-folder (filter) editor's data: the folder categories, the editor
 * state record, the folder value kept in the folder list, the validator that
 * enables the Done button, the folder-type classifier used for automatic
 * naming, and the small `updateState` transitions the list rows trigger.
 */
module FolderModel {
  import opened Common

  /** A chat's identifier (`PeerId`); rendered peers are represented by their id. */
  type PeerId = int

  /** `ChatListFilterIncludeCategory`, in `allCases` order. */
  datatype IncludeCategory = Contacts | NonContacts | Groups | Channels | Bots

  const AllIncludeCategories: seq<IncludeCategory> := [Contacts, NonContacts, Groups, Channels, Bots]

  /** `ChatListFilterPeerCategories.all`. */
  const AllCategories: set<IncludeCategory> := {Contacts, NonContacts, Groups, Channels, Bots}

  /** `ChatListFilterExcludeCategory`, in `allCases` order. */
  datatype ExcludeCategory = Muted | Read | Archived

  const AllExcludeCategories: seq<ExcludeCategory> := [Muted, Read, Archived]

  /** `FilterSection`: the two expandable peer sections. */
  datatype FilterSection = IncludeSection | ExcludeSection

  /** `ChatListFilterRevealedItemId`: the row whose swipe options are shown. */
  datatype RevealedItemId =
    | RevealedPeer(peer: PeerId)
    | RevealedIncludeCategory(includeCategory: IncludeCategory)
    | RevealedExcludeCategory(excludeCategory: ExcludeCategory)

  /** `ChatListFilterPresetControllerState`. */
  datatype EditorState = EditorState(
    name: string,
    changedName: bool,
    includeCategories: set<IncludeCategory>,
    excludeMuted: bool,
    excludeRead: bool,
    excludeArchived: bool,
    additionallyIncludePeers: seq<PeerId>,
    additionallyExcludePeers: seq<PeerId>,
    revealedItemId: Option<RevealedItemId>,
    expandedSections: set<FilterSection>)

  /** `ChatListFilterData`; the include-peer list is a plain list of ids. */
  datatype FilterData = FilterData(
    isShared: bool,
    hasSharedLinks: bool,
    categories: set<IncludeCategory>,
    excludeMuted: bool,
    excludeRead: bool,
    excludeArchived: bool,
    includePeers: seq<PeerId>,
    excludePeers: seq<PeerId>)

  /**
   * The identifier the all-chats entry of the folder list carries. The value
   * comes from the engine's own declaration of the entry, which this model
   * does not include; 0 only needs to differ from the ids of user folders
   * (they are positive) for the save and apply rules to behave as stated.
   */
  const AllChatsId: int := 0

  /** `ChatListFilter`: the all-chats entry or a user folder. */
  datatype ChatListFilter =
    | AllChats
    | Filter(filterId: int, filterTitle: string, filterEmoticon: Option<string>, filterData: FilterData)
  {
    function Id(): int {
      match this
      case AllChats => AllChatsId
      case Filter(id, _, _, _) => id
    }

    /** The `title` extension: empty for the all-chats entry. */
    function Title(): string {
      match this
      case AllChats => ""
      case Filter(_, title, _, _) => title
    }

    /** The `emoticon` extension. */
    function Emoticon(): Option<string> {
      match this
      case AllChats => None
      case Filter(_, _, emoticon, _) => emoticon
    }

    /** The `data` extension. */
    function Data(): Option<FilterData> {
      match this
      case AllChats => None
      case Filter(_, _, _, data) => Some(data)
    }
  }

  /** `ExportedChatFolderLink`: a share link of a folder, keyed by its URL `link`. */
  datatype FolderLink = FolderLink(title: string, link: string, peerIds: seq<PeerId>, isRevoked: bool)

  /** `ChatListFilterType`. */
  datatype FilterType = Generic | Unmuted | Unread | ChannelsType | GroupsType | BotsType | ContactsType | NonContactsType

  /** The folder type a one-category folder gets. */
  function CategoryType(c: IncludeCategory): FilterType {
    match c
    case Contacts => ContactsType
    case NonContacts => NonContactsType
    case Groups => GroupsType
    case Channels => ChannelsType
    case Bots => BotsType
  }

  /**
   * `chatListFilterType`: all categories give unread / unmuted / generic by the
   * exclusion flags; a single category gives that category's type; anything
   * else is generic.
   */
  function ChatListFilterType(data: FilterData): (r: FilterType)
    ensures data.categories == AllCategories ==>
      r == (if data.excludeRead then Unread else if data.excludeMuted then Unmuted else Generic)
    ensures forall c :: data.categories == {c} ==> r == CategoryType(c)
    ensures r in {Unread, Unmuted} ==> data.categories == AllCategories
  {
    if data.categories == AllCategories then
      if data.excludeRead then Unread
      else if data.excludeMuted then Unmuted
      else Generic
    else if data.categories == {Channels} then ChannelsType
    else if data.categories == {Groups} then GroupsType
    else if data.categories == {Bots} then BotsType
    else if data.categories == {Contacts} then ContactsType
    else if data.categories == {NonContacts} then NonContactsType
    else Generic
  }

  /** A set of categories with exactly one element is that singleton. */
  lemma SingletonCategories(s: set<IncludeCategory>)
    requires |s| == 1
    ensures exists c :: s == {c}
  {
    var c :| c in s;
    assert s - {c} == {} by {
      assert |s - {c}| == |s| - 1;
    }
    assert s == {c};
  }

  /**
   * The classification counts categories: with a number of categories other
   * than one or five the folder is generic, with exactly one it names it.
   */
  lemma {:induction false} FilterTypeByCount(data: FilterData)
    ensures |data.categories| == 1 ==> exists c :: data.categories == {c} && ChatListFilterType(data) == CategoryType(c)
    ensures |data.categories| != 1 && data.categories != AllCategories ==> ChatListFilterType(data) == Generic
  {
    if |data.categories| == 1 {
      SingletonCategories(data.categories);
    }
  }

  /** The default all-chats setup the validator refuses. */
  predicate IsDefaultSetup(s: EditorState) {
    s.includeCategories == AllCategories && s.excludeArchived && !s.excludeMuted && !s.excludeRead
  }

  /** `ChatListFilterPresetControllerState.isComplete`. */
  predicate IsComplete(s: EditorState) {
    if s.name == [] then false
    else if s.includeCategories == AllCategories && s.excludeArchived == true
         && s.excludeMuted == false && s.excludeRead == false then false
    else if s.includeCategories == {} && s.additionallyIncludePeers == [] then false
    else true
  }

  /**
   * The validator refuses exactly the three cases: no name, the default
   * all-chats setup, and an empty selection; excluded peers play no part.
   */
  lemma IsCompleteExactly(s: EditorState, otherExcluded: seq<PeerId>)
    ensures !IsComplete(s) <==>
      s.name == [] || IsDefaultSetup(s) || (s.includeCategories == {} && s.additionallyIncludePeers == [])
    ensures IsComplete(s.(additionallyExcludePeers := otherExcluded)) == IsComplete(s)
  {
  }

  /**
   * The editor's initial state: the current preset's title and data, marked
   * as named by the user when an existing folder is edited; a new folder
   * starts empty with an empty name. No row is revealed or expanded.
   */
  function InitialState(currentPreset: Option<ChatListFilter>): (s: EditorState)
    ensures s.changedName <==> currentPreset.Some?
    ensures s.revealedItemId.None? && s.expandedSections == {}
    ensures currentPreset.None? ==>
      s.name == [] && s.includeCategories == {} && s.additionallyIncludePeers == [] && s.additionallyExcludePeers == []
  {
    var data := if currentPreset.Some? then currentPreset.value.Data() else None;
    EditorState(
      name := if currentPreset.Some? then currentPreset.value.Title() else "",
      changedName := currentPreset.Some?,
      includeCategories := if data.Some? then data.value.categories else {},
      excludeMuted := data.Some? && data.value.excludeMuted,
      excludeRead := data.Some? && data.value.excludeRead,
      excludeArchived := data.Some? && data.value.excludeArchived,
      additionallyIncludePeers := if data.Some? then data.value.includePeers else [],
      additionallyExcludePeers := if data.Some? then data.value.excludePeers else [],
      revealedItemId := None,
      expandedSections := {})
  }

  /** The name a new folder starts with, and falls back to when it turns generic. */
  function InitialName(currentPreset: Option<ChatListFilter>): string {
    if currentPreset.Some? then currentPreset.value.Title() else ""
  }

  /** The folder data the editor state describes (built before every save and picker). */
  function EditedData(s: EditorState, currentPreset: Option<ChatListFilter>): FilterData {
    var data := if currentPreset.Some? then currentPreset.value.Data() else None;
    FilterData(
      isShared := data.Some? && data.value.isShared,
      hasSharedLinks := data.Some? && data.value.hasSharedLinks,
      categories := s.includeCategories,
      excludeMuted := s.excludeMuted,
      excludeRead := s.excludeRead,
      excludeArchived := s.excludeArchived,
      includePeers := s.additionallyIncludePeers,
      excludePeers := s.additionallyExcludePeers)
  }

  /**
   * The wrapper every `updateState` call goes through: unless the user has
   * typed a name, the name follows the folder type (`localized` stands for the
   * localized folder names; a generic folder gets back its initial name).
   */
  function UpdateState(next: EditorState, currentPreset: Option<ChatListFilter>, initialName: string,
                       localized: FilterType -> string): (r: EditorState)
    ensures next.changedName ==> r == next
    ensures r == next.(name := r.name)
    ensures !next.changedName ==>
      r.name == AutoName(ChatListFilterType(EditedData(next, currentPreset)), initialName, localized)
  {
    if next.changedName then next
    else next.(name := AutoName(ChatListFilterType(EditedData(next, currentPreset)), initialName, localized))
  }

  /** The automatic name of a folder of type `t`: its localized name, or the initial name when generic. */
  function AutoName(t: FilterType, initialName: string, localized: FilterType -> string): string {
    if t == Generic then initialName else localized(t)
  }

  /** The wrapper has nothing left to change in `s`. */
  predicate NameSettled(s: EditorState, currentPreset: Option<ChatListFilter>, initialName: string,
                        localized: FilterType -> string) {
    UpdateState(s, currentPreset, initialName, localized) == s
  }

  /**
   * Editing an existing folder starts settled, and so does a new folder,
   * whose empty data is generic and keeps the empty initial name; the data
   * the initial state describes is the preset's own.
   */
  lemma InitialStateFacts(currentPreset: Option<ChatListFilter>, localized: FilterType -> string)
    ensures NameSettled(InitialState(currentPreset), currentPreset, InitialName(currentPreset), localized)
    ensures currentPreset.Some? && currentPreset.value.Filter? ==>
      EditedData(InitialState(currentPreset), currentPreset) == currentPreset.value.filterData
    ensures currentPreset.None? ==>
      EditedData(InitialState(currentPreset), currentPreset) == FilterData(false, false, {}, false, false, false, [], [])
  {
    if currentPreset.None? {
      var d := EditedData(InitialState(currentPreset), currentPreset);
      FilterTypeByCount(d);
    }
  }

  /** The automatic name depends on the chat types and exclusion flags only. */
  lemma AutoNameDependsOnType(a: EditorState, b: EditorState, p: Option<ChatListFilter>, q: Option<ChatListFilter>)
    requires a.includeCategories == b.includeCategories
    requires a.excludeMuted == b.excludeMuted && a.excludeRead == b.excludeRead
    ensures ChatListFilterType(EditedData(a, p)) == ChatListFilterType(EditedData(b, q))
  {
  }

  /** Applying the wrapper twice is applying it once. */
  lemma UpdateStateSettles(next: EditorState, currentPreset: Option<ChatListFilter>, initialName: string,
                           localized: FilterType -> string)
    ensures NameSettled(UpdateState(next, currentPreset, initialName, localized), currentPreset, initialName, localized)
  {
    AutoNameDependsOnType(next, UpdateState(next, currentPreset, initialName, localized), currentPreset, currentPreset);
  }

  /** The index of the first occurrence of `x` in `s` (`firstIndex(of:)`). */
  function FirstIndexOf(s: seq<PeerId>, x: PeerId): (r: Option<nat>)
    ensures r.None? <==> x !in s
    ensures r.Some? ==> r.value < |s| && s[r.value] == x && x !in s[..r.value]
  {
    if s == [] then None
    else if s[0] == x then Some(0)
    else
      match FirstIndexOf(s[1..], x)
      case None => None
      case Some(i) =>
        assert s[..i + 1] == [s[0]] + s[1..][..i];
        Some(i + 1)
  }

  /** Removes the first occurrence of `x` if there is one; the others keep their order. */
  function RemoveFirst(s: seq<PeerId>, x: PeerId): (r: seq<PeerId>)
    ensures x !in s ==> r == s
    ensures x in s ==> |r| == |s| - 1
    ensures x in s ==>
      var i := FirstIndexOf(s, x).value;
      r[..i] == s[..i] && r[i..] == s[i + 1..]
    ensures multiset(r) == multiset(s) - multiset{x}
  {
    match FirstIndexOf(s, x)
    case None => s
    case Some(i) =>
      assert s == s[..i] + [s[i]] + s[i + 1..];
      s[..i] + s[i + 1..]
  }

  /** `deleteIncludePeer`: the first occurrence of the peer leaves the include list. */
  function DeleteIncludePeer(s: EditorState, peer: PeerId): (r: EditorState)
    ensures r == s.(additionallyIncludePeers := r.additionallyIncludePeers)
    ensures peer !in s.additionallyIncludePeers ==> r == s
    ensures r.additionallyIncludePeers == RemoveFirst(s.additionallyIncludePeers, peer)
    ensures multiset(r.additionallyIncludePeers) == multiset(s.additionallyIncludePeers) - multiset{peer}
  {
    s.(additionallyIncludePeers := RemoveFirst(s.additionallyIncludePeers, peer))
  }

  /** `deleteExcludePeer`: the first occurrence of the peer leaves the exclude list. */
  function DeleteExcludePeer(s: EditorState, peer: PeerId): (r: EditorState)
    ensures r == s.(additionallyExcludePeers := r.additionallyExcludePeers)
    ensures peer !in s.additionallyExcludePeers ==> r == s
    ensures r.additionallyExcludePeers == RemoveFirst(s.additionallyExcludePeers, peer)
    ensures multiset(r.additionallyExcludePeers) == multiset(s.additionallyExcludePeers) - multiset{peer}
  {
    s.(additionallyExcludePeers := RemoveFirst(s.additionallyExcludePeers, peer))
  }

  /** Removing an excluded peer never changes whether the folder can be saved. */
  lemma DeleteExcludePeerKeepsCompleteness(s: EditorState, peer: PeerId)
    ensures IsComplete(DeleteExcludePeer(s, peer)) == IsComplete(s)
  {
    IsCompleteExactly(s, DeleteExcludePeer(s, peer).additionallyExcludePeers);
  }

  /**
   * `setItemIdWithRevealedOptions(itemId, fromItemId)`: revealing a row needs
   * no current row to be named as the origin; hiding one must name the row
   * that is currently revealed.
   */
  function SetRevealedItem(s: EditorState, itemId: Option<RevealedItemId>, fromItemId: Option<RevealedItemId>): (r: EditorState)
    ensures r == s.(revealedItemId := r.revealedItemId)
  {
    if (itemId.None? && fromItemId == s.revealedItemId) || (itemId.Some? && fromItemId.None?) then
      s.(revealedItemId := itemId)
    else
      s
  }

  /** The revealed-row rule, case by case. */
  lemma SetRevealedItemRule(s: EditorState, itemId: Option<RevealedItemId>, fromItemId: Option<RevealedItemId>)
    ensures SetRevealedItem(s, itemId, fromItemId).revealedItemId == itemId <==>
      (itemId.None? && fromItemId == s.revealedItemId) || (itemId.Some? && fromItemId.None?) || s.revealedItemId == itemId
    ensures itemId.Some? && fromItemId.Some? && s.revealedItemId != itemId ==> SetRevealedItem(s, itemId, fromItemId) == s
    ensures itemId.None? && fromItemId != s.revealedItemId ==> SetRevealedItem(s, itemId, fromItemId) == s
  {
  }

  /** `deleteIncludeCategory`. */
  function DeleteIncludeCategory(s: EditorState, c: IncludeCategory): (r: EditorState)
    ensures c !in r.includeCategories && r.includeCategories + {c} >= s.includeCategories
    ensures r.includeCategories <= s.includeCategories
    ensures r == s.(includeCategories := r.includeCategories)
  {
    s.(includeCategories := s.includeCategories - {c})
  }

  /** Whether an exclusion category is switched on in the state. */
  function ExcludeFlag(s: EditorState, c: ExcludeCategory): bool {
    match c
    case Muted => s.excludeMuted
    case Read => s.excludeRead
    case Archived => s.excludeArchived
  }

  /** `deleteExcludeCategory`: switches that one exclusion off and nothing else. */
  function DeleteExcludeCategory(s: EditorState, c: ExcludeCategory): (r: EditorState)
    ensures !ExcludeFlag(r, c)
    ensures forall d :: d != c ==> ExcludeFlag(r, d) == ExcludeFlag(s, d)
    ensures r == s.(excludeMuted := r.excludeMuted, excludeRead := r.excludeRead, excludeArchived := r.excludeArchived)
  {
    match c
    case Muted => s.(excludeMuted := false)
    case Read => s.(excludeRead := false)
    case Archived => s.(excludeArchived := false)
  }

  /** `expandSection`. */
  function ExpandSection(s: EditorState, section: FilterSection): (r: EditorState)
    ensures r.expandedSections == s.expandedSections + {section}
    ensures r == s.(expandedSections := r.expandedSections)
  {
    s.(expandedSections := s.expandedSections + {section})
  }

  // ---------------------------------------------------------------------------
  // Each row action as the editor runs it: through the `updateState` wrapper.

  /**
   * The peer, reveal and expand actions commute with the wrapper: they touch
   * neither chat types nor flags, so a settled state stays settled and only
   * the action's own field changes.
   */
  lemma UpdatedDeleteIncludePeer(s: EditorState, peer: PeerId,
                                 p: Option<ChatListFilter>, initialName: string, localized: FilterType -> string)
    ensures UpdateState(DeleteIncludePeer(s, peer), p, initialName, localized)
      == DeleteIncludePeer(UpdateState(s, p, initialName, localized), peer)
    ensures NameSettled(s, p, initialName, localized) ==> NameSettled(DeleteIncludePeer(s, peer), p, initialName, localized)
  {
    AutoNameDependsOnType(DeleteIncludePeer(s, peer), s, p, p);
  }

  lemma UpdatedDeleteExcludePeer(s: EditorState, peer: PeerId,
                                 p: Option<ChatListFilter>, initialName: string, localized: FilterType -> string)
    ensures UpdateState(DeleteExcludePeer(s, peer), p, initialName, localized)
      == DeleteExcludePeer(UpdateState(s, p, initialName, localized), peer)
    ensures NameSettled(s, p, initialName, localized) ==> NameSettled(DeleteExcludePeer(s, peer), p, initialName, localized)
  {
    AutoNameDependsOnType(DeleteExcludePeer(s, peer), s, p, p);
  }

  lemma UpdatedSetRevealedItem(s: EditorState, itemId: Option<RevealedItemId>, fromItemId: Option<RevealedItemId>,
                               p: Option<ChatListFilter>, initialName: string, localized: FilterType -> string)
    ensures UpdateState(SetRevealedItem(s, itemId, fromItemId), p, initialName, localized)
      == SetRevealedItem(UpdateState(s, p, initialName, localized), itemId, fromItemId)
    ensures NameSettled(s, p, initialName, localized) ==>
      NameSettled(SetRevealedItem(s, itemId, fromItemId), p, initialName, localized)
  {
    AutoNameDependsOnType(SetRevealedItem(s, itemId, fromItemId), s, p, p);
  }

  lemma UpdatedExpandSection(s: EditorState, section: FilterSection,
                             p: Option<ChatListFilter>, initialName: string, localized: FilterType -> string)
    ensures UpdateState(ExpandSection(s, section), p, initialName, localized)
      == ExpandSection(UpdateState(s, p, initialName, localized), section)
    ensures NameSettled(s, p, initialName, localized) ==> NameSettled(ExpandSection(s, section), p, initialName, localized)
  {
    AutoNameDependsOnType(ExpandSection(s, section), s, p, p);
  }

  /**
   * Deleting a chat type or an exclusion through the wrapper changes that
   * field and, for a folder the user has not named, renames it after its new
   * type; a folder named by the user keeps its name.
   */
  lemma UpdatedCategoryActions(s: EditorState, c: IncludeCategory, e: ExcludeCategory,
                               p: Option<ChatListFilter>, initialName: string, localized: FilterType -> string)
    ensures var r := UpdateState(DeleteIncludeCategory(s, c), p, initialName, localized);
      && r == s.(includeCategories := s.includeCategories - {c}, name := r.name)
      && (s.changedName ==> r.name == s.name)
      && (!s.changedName ==> r.name == AutoName(ChatListFilterType(EditedData(s, p).(categories := s.includeCategories - {c})),
                                                initialName, localized))
    ensures var r := UpdateState(DeleteExcludeCategory(s, e), p, initialName, localized);
      && r == DeleteExcludeCategory(s, e).(name := r.name)
      && (s.changedName ==> r.name == s.name)
      && (!s.changedName ==> r.name == AutoName(ChatListFilterType(EditedData(DeleteExcludeCategory(s, e), p)),
                                                initialName, localized))
  {
  }

  /**
   * The rename is visible: a new folder of groups and channels whose groups
   * are deleted becomes the channels folder and takes its name.
   */
  lemma DeletingGroupsRenamesFolder(s: EditorState, p: Option<ChatListFilter>, initialName: string,
                                    localized: FilterType -> string)
    requires !s.changedName && s.includeCategories == {Groups, Channels}
    ensures UpdateState(DeleteIncludeCategory(s, Groups), p, initialName, localized).name == localized(ChannelsType)
  {
    assert {Groups, Channels} - {Groups} == {Channels};
  }
}
