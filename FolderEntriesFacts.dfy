/**
 * What the folder editor's rows promise: they come out already in ascending
 * sort order, each section's rows appear exactly when the editor state calls
 * for them, and long peer lists show their first five peers behind an expand
 * row that counts the rest.
 */
module FolderEntriesFacts {
  import opened Common
  import opened FolderModel
  import opened FolderEntries

  // ---------------------------------------------------------------------------
  // Ascending order, built up segment by segment.

  /** `s` ascends strictly in sort order, and all of it lies above `lo` (None: no lower bound). */
  predicate Chain(lo: Option<SortId>, s: seq<Entry>) {
    (|s| > 0 && lo.Some? ==> Less(lo.value, SortIndex(s[0])))
    && forall i :: 0 < i < |s| ==> Less(SortIndex(s[i - 1]), SortIndex(s[i]))
  }

  /** The largest key seen after `s`, starting from `lo`. */
  function Top(lo: Option<SortId>, s: seq<Entry>): Option<SortId> {
    if s == [] then lo else Some(SortIndex(s[|s| - 1]))
  }

  /** `lo` lies strictly below `k`. */
  predicate Below(lo: Option<SortId>, k: SortId) {
    lo.None? || Less(lo.value, k)
  }

  lemma BelowMono(lo: Option<SortId>, k: SortId, k': SortId)
    requires Below(lo, k) && (LexLess(k, k') || k == k')
    ensures Below(lo, k')
  {
    if lo.Some? {
      LessIsLex(lo.value, k);
      LessIsLex(k, k');
      LessIsLex(lo.value, k');
    }
  }

  /** Two ascending runs join into one when the second starts above the first. */
  lemma ChainJoin(lo: Option<SortId>, a: seq<Entry>, b: seq<Entry>)
    requires Chain(lo, a) && Chain(Top(lo, a), b)
    ensures Chain(lo, a + b) && Top(lo, a + b) == Top(Top(lo, a), b)
  {
  }

  /** A single row extends a run when it lies above it. */
  lemma ChainOne(lo: Option<SortId>, e: Entry)
    requires Below(lo, SortIndex(e))
    ensures Chain(lo, [e]) && Top(lo, [e]) == Some(SortIndex(e))
  {
  }

  /** An ascending run with no lower bound is ascending between any two positions. */
  lemma {:induction false} ChainAscends(lo: Option<SortId>, s: seq<Entry>)
    requires Chain(lo, s)
    ensures forall i, j :: 0 <= i < j < |s| ==> Less(SortIndex(s[i]), SortIndex(s[j]))
  {
    if |s| > 1 {
      var init := s[..|s| - 1];
      assert Chain(lo, init);
      ChainAscends(lo, init);
      forall i, j | 0 <= i < j < |s|
        ensures Less(SortIndex(s[i]), SortIndex(s[j]))
      {
        if j == |s| - 1 && i < j - 1 {
          assert Less(SortIndex(init[i]), SortIndex(init[j - 1]));
          LessTransitive(SortIndex(s[i]), SortIndex(s[j - 1]), SortIndex(s[j]));
        } else if j < |s| - 1 {
          assert Less(SortIndex(init[i]), SortIndex(init[j]));
        }
      }
    }
  }

  /** The key of the peer row at position `index` of a section. */
  function PeerKey(side: FilterSection, index: int): SortId {
    if side == IncludeSection then IncludeIndex(index) else ExcludeIndex(index)
  }

  lemma PeerKeyOfEntry(side: FilterSection, index: int, peer: PeerId, revealed: Option<RevealedItemId>)
    ensures SortIndex(PeerEntry(side, index, peer, revealed)) == PeerKey(side, 200 + index)
    ensures SortIndex(ExpandEntry(side, index)) == PeerKey(side, 999)
  {
  }

  /** Peer rows at list positions `base`, `base + 1`, … ascend. */
  lemma {:induction false} PeerRowsUpToChain(lo: Option<SortId>, side: FilterSection, peers: seq<PeerId>, base: nat,
                                             revealed: Option<RevealedItemId>, count: nat)
    requires count <= |peers|
    requires Below(lo, PeerKey(side, 200 + base))
    ensures Chain(lo, PeerRowsUpTo(side, peers, base, revealed, count))
    ensures Below(Top(lo, PeerRowsUpTo(side, peers, base, revealed, count)), PeerKey(side, 200 + base + count))
  {
    if count == 0 {
      BelowMono(lo, PeerKey(side, 200 + base), PeerKey(side, 200 + base));
    } else {
      var init := PeerRowsUpTo(side, peers, base, revealed, count - 1);
      var last := PeerEntry(side, base + count - 1, peers[count - 1], revealed);
      PeerRowsUpToChain(lo, side, peers, base, revealed, count - 1);
      PeerKeyOfEntry(side, base + count - 1, peers[count - 1], revealed);
      ChainOne(Top(lo, init), last);
      ChainJoin(lo, init, [last]);
      LessIsLex(PeerKey(side, 200 + base + count - 1), PeerKey(side, 200 + base + count));
    }
  }

  /** A section's peer rows and its expand row ascend, as long as the last peer index stays below 999 - 200. */
  lemma PeerRowsChain(lo: Option<SortId>, side: FilterSection, peers: seq<PeerId>, base: nat, expanded: bool,
                      revealed: Option<RevealedItemId>)
    requires Below(lo, PeerKey(side, 200 + base))
    requires 200 + base + |peers| <= 999
    ensures Chain(lo, PeerRows(side, peers, base, expanded, revealed))
    ensures Below(Top(lo, PeerRows(side, peers, base, expanded, revealed)), PeerKey(side, 1000))
  {
    var shown := ShownCount(|peers|, expanded);
    var rows := PeerRowsUpTo(side, peers, base, revealed, shown);
    PeerRowsUpToChain(lo, side, peers, base, revealed, shown);
    var t := Top(lo, rows);
    if shown < |peers| {
      var e := ExpandEntry(side, |peers| - shown);
      PeerKeyOfEntry(side, |peers| - shown, 0, revealed);
      BelowMono(t, PeerKey(side, 200 + base + shown), PeerKey(side, 999));
      ChainOne(t, e);
      ChainJoin(lo, rows, [e]);
      LessIsLex(PeerKey(side, 999), PeerKey(side, 1000));
    } else {
      assert rows + [] == rows;
      BelowMono(t, PeerKey(side, 200 + base + shown), PeerKey(side, 1000));
    }
  }

  /** The include-category rows ascend and stay below the include peers. */
  lemma {:induction false} IncludeCategoryRowsChain(lo: Option<SortId>, cats: set<IncludeCategory>,
                                                    revealed: Option<RevealedItemId>, n: nat)
    requires n <= 5
    requires Below(lo, IncludeIndex(2))
    ensures Chain(lo, IncludeCategoryRows(cats, revealed, n))
    ensures Below(Top(lo, IncludeCategoryRows(cats, revealed, n)), IncludeIndex(2 + n))
  {
    if n == 0 {
    } else {
      var init := IncludeCategoryRows(cats, revealed, n - 1);
      IncludeCategoryRowsChain(lo, cats, revealed, n - 1);
      var c := AllIncludeCategories[n - 1];
      var t := Top(lo, init);
      if c in cats {
        var e := IncludeCategoryRow(n - 1, c, revealed == Some(RevealedIncludeCategory(c)));
        assert IncludeCategoryRows(cats, revealed, n) == init + [e];
        assert SortIndex(e) == IncludeIndex(2 + n - 1);
        ChainOne(t, e);
        ChainJoin(lo, init, [e]);
        assert Top(lo, init + [e]) == Some(IncludeIndex(2 + n - 1));
      } else {
        assert IncludeCategoryRows(cats, revealed, n) == init;
        BelowMono(t, IncludeIndex(2 + n - 1), IncludeIndex(2 + n));
      }
    }
  }

  /** The exclude-category rows ascend and stay below the exclude peers. */
  lemma {:induction false} ExcludeCategoryRowsChain(lo: Option<SortId>, s: EditorState, n: nat)
    requires n <= 3
    requires Below(lo, ExcludeIndex(2))
    ensures Chain(lo, ExcludeCategoryRows(s, n))
    ensures Below(Top(lo, ExcludeCategoryRows(s, n)), ExcludeIndex(2 + n))
  {
    if n == 0 {
    } else {
      var init := ExcludeCategoryRows(s, n - 1);
      ExcludeCategoryRowsChain(lo, s, n - 1);
      var c := AllExcludeCategories[n - 1];
      var t := Top(lo, init);
      if ExcludeFlag(s, c) {
        var e := ExcludeCategoryRow(n - 1, c, s.revealedItemId == Some(RevealedExcludeCategory(c)));
        assert ExcludeCategoryRows(s, n) == init + [e];
        assert SortIndex(e) == ExcludeIndex(2 + n - 1);
        ChainOne(t, e);
        ChainJoin(lo, init, [e]);
        assert Top(lo, init + [e]) == Some(ExcludeIndex(2 + n - 1));
      } else {
        assert ExcludeCategoryRows(s, n) == init;
        BelowMono(t, ExcludeIndex(2 + n - 1), ExcludeIndex(2 + n));
      }
    }
  }

  /** The link rows ascend by their index. */
  lemma {:induction false} LinkRowsUpToChain(lo: Option<SortId>, links: seq<FolderLink>, n: nat)
    requires n <= |links|
    requires Below(lo, InviteLinkKey(0))
    ensures Chain(lo, LinkRowsUpTo(links, n))
    ensures Below(Top(lo, LinkRowsUpTo(links, n)), InviteLinkKey(n))
    ensures n > 0 ==> Top(lo, LinkRowsUpTo(links, n)) == Some(InviteLinkKey(n - 1))
  {
    if n == 0 {
    } else {
      var init := LinkRowsUpTo(links, n - 1);
      LinkRowsUpToChain(lo, links, n - 1);
      var e := InviteLinkRow(n - 1, links[n - 1]);
      ChainOne(Top(lo, init), e);
      ChainJoin(lo, init, [e]);
    }
  }

  /** The head rows: screen header, name, include header, add button, categories. */
  lemma HeadRowsChain(isNewFilter: bool, state: EditorState, includeCount: nat, limit: int)
    ensures Chain(None, HeadRows(isNewFilter, state, includeCount, limit))
    ensures Below(Top(None, HeadRows(isNewFilter, state, includeCount, limit)), IncludeIndex(7))
    ensures |HeadRows(isNewFilter, state, includeCount, limit)| <= 10
  {
    var a := (if isNewFilter then [ScreenHeader] else []) + [NameHeader, Name(state.name), IncludePeersHeader]
      + (if includeCount < limit then [AddIncludePeer] else []);
    assert Chain(None, a);
    assert Below(Top(None, a), IncludeIndex(2));
    var cats := IncludeCategoryRows(state.includeCategories, state.revealedItemId, IncludeCategoryCount);
    IncludeCategoryRowsChain(Top(None, a), state.includeCategories, state.revealedItemId, IncludeCategoryCount);
    ChainJoin(None, a, cats);
    IncludeCategoryRowsLength(state.includeCategories, state.revealedItemId, IncludeCategoryCount);
  }

  lemma {:induction false} IncludeCategoryRowsLength(cats: set<IncludeCategory>, revealed: Option<RevealedItemId>, n: nat)
    requires n <= 5
    ensures |IncludeCategoryRows(cats, revealed, n)| <= n
  {
    if n > 0 {
      IncludeCategoryRowsLength(cats, revealed, n - 1);
    }
  }

  lemma {:induction false} ExcludeCategoryRowsLength(s: EditorState, n: nat)
    requires n <= 3
    ensures |ExcludeCategoryRows(s, n)| <= n
  {
    if n > 0 {
      ExcludeCategoryRowsLength(s, n - 1);
    }
  }

  lemma PeerRowsLength(side: FilterSection, peers: seq<PeerId>, base: nat, expanded: bool, revealed: Option<RevealedItemId>)
    ensures |PeerRows(side, peers, base, expanded, revealed)| <= |peers|
  {
  }

  /** The exclude section's header, add button and categories ascend. */
  lemma ExcludeHeadRowsChain(lo: Option<SortId>, state: EditorState)
    requires Below(lo, ExcludeIndex(0))
    ensures Chain(lo, ExcludeHeadRows(state))
    ensures Below(Top(lo, ExcludeHeadRows(state)), ExcludeIndex(5))
    ensures |ExcludeHeadRows(state)| <= 5
  {
    var headers := [ExcludePeersHeader, AddExcludePeer];
    assert Chain(lo, headers);
    var cats := ExcludeCategoryRows(state, ExcludeCategoryCount);
    ExcludeCategoryRowsChain(Top(lo, headers), state, ExcludeCategoryCount);
    ChainJoin(lo, headers, cats);
    ExcludeCategoryRowsLength(state, ExcludeCategoryCount);
  }

  /** The exclude section ascends and stays within the exclude keys. */
  lemma ExcludeRowsChain(lo: Option<SortId>, currentPreset: Option<ChatListFilter>, state: EditorState,
                         excludePeers: seq<PeerId>, base: nat)
    requires Below(lo, ExcludeIndex(0))
    requires 200 + base + 5 + |excludePeers| <= 999
    ensures Chain(lo, ExcludeRows(currentPreset, state, excludePeers, base))
    ensures Below(Top(lo, ExcludeRows(currentPreset, state, excludePeers, base)), BottomIndex(0))
  {
    if IsSharedPreset(currentPreset) {
      BelowMono(lo, ExcludeIndex(0), BottomIndex(0));
    } else {
      var head := ExcludeHeadRows(state);
      ExcludeHeadRowsChain(lo, state);
      var t := Top(lo, head);
      BelowMono(t, ExcludeIndex(5), PeerKey(ExcludeSection, 200 + base + |head|));
      var expanded := ExcludeSection in state.expandedSections;
      var peerRows := PeerRows(ExcludeSection, excludePeers, base + |head|, expanded, state.revealedItemId);
      PeerRowsChain(t, ExcludeSection, excludePeers, base + |head|, expanded, state.revealedItemId);
      ChainJoin(lo, head, peerRows);
      var t' := Top(lo, head + peerRows);
      assert PeerKey(ExcludeSection, 1000) == ExcludeIndex(1000);
      assert Below(t', SortIndex(ExcludePeerInfo));
      ChainOne(t', ExcludePeerInfo);
      ChainJoin(lo, head + peerRows, [ExcludePeerInfo]);
      assert Top(lo, head + peerRows + [ExcludePeerInfo]) == Some(ExcludeIndex(1000));
      assert ExcludeRows(currentPreset, state, excludePeers, base) == head + peerRows + [ExcludePeerInfo];
    }
  }

  /** The share-link section ascends. */
  lemma LinkRowsChain(lo: Option<SortId>, currentPreset: Option<ChatListFilter>, inviteLinks: Option<seq<FolderLink>>, hadLinks: bool)
    requires Below(lo, BottomIndex(0))
    ensures Chain(lo, LinkRows(currentPreset, inviteLinks, hadLinks))
  {
    var hasLinks := HasLinks(currentPreset, inviteLinks);
    var headers := [InviteLinkHeader(hasLinks || hadLinks), InviteLinkCreate(hasLinks)];
    assert Chain(lo, headers);
    var h := Top(lo, headers);
    assert h == Some(BottomIndex(1));
    var rows := if inviteLinks.Some? then LinkRowsUpTo(inviteLinks.value, |inviteLinks.value|) else [];
    if inviteLinks.Some? {
      LinkRowsUpToChain(h, inviteLinks.value, |inviteLinks.value|);
    }
    ChainJoin(lo, headers, rows);
    var t := Top(h, rows);
    assert t == h || (t.Some? && t.value.InviteLinkKey?);
    ChainOne(t, InviteLinkInfo(hasLinks));
    ChainJoin(lo, headers + rows, [InviteLinkInfo(hasLinks)]);
    assert LinkRows(currentPreset, inviteLinks, hadLinks) == headers + rows + [InviteLinkInfo(hasLinks)];
  }


  /**
   * The builder emits its rows already in ascending sort order, so the list
   * needs no sorting, for any folder whose peer lists together hold fewer
   * than 780 chats (beyond that a peer row's key `200 + position` would reach
   * the expand row's 999).
   */
  lemma EditorEntriesAscending(isNewFilter: bool, currentPreset: Option<ChatListFilter>, state: EditorState,
                               includePeers: seq<PeerId>, excludePeers: seq<PeerId>, limit: int,
                               inviteLinks: Option<seq<FolderLink>>, hadLinks: bool)
    requires |includePeers| + |excludePeers| < 780
    ensures var es := EditorEntries(isNewFilter, currentPreset, state, includePeers, excludePeers, limit, inviteLinks, hadLinks);
      forall i, j :: 0 <= i < j < |es| ==> Less(SortIndex(es[i]), SortIndex(es[j]))
  {
    var head := HeadRows(isNewFilter, state, |includePeers|, limit);
    HeadRowsChain(isNewFilter, state, |includePeers|, limit);
    var t := Top(None, head);
    BelowMono(t, IncludeIndex(7), PeerKey(IncludeSection, 200 + |head|));
    var expanded := IncludeSection in state.expandedSections;
    var peerRows := PeerRows(IncludeSection, includePeers, |head|, expanded, state.revealedItemId);
    PeerRowsChain(t, IncludeSection, includePeers, |head|, expanded, state.revealedItemId);
    PeerRowsLength(IncludeSection, includePeers, |head|, expanded, state.revealedItemId);
    ChainJoin(None, head, peerRows);
    ChainOne(Top(None, head + peerRows), IncludePeerInfo);
    ChainJoin(None, head + peerRows, [IncludePeerInfo]);
    var included := head + peerRows + [IncludePeerInfo];
    var excludeRows := ExcludeRows(currentPreset, state, excludePeers, |included|);
    ExcludeRowsChain(Top(None, included), currentPreset, state, excludePeers, |included|);
    ChainJoin(None, included, excludeRows);
    var links := LinkRows(currentPreset, inviteLinks, hadLinks);
    LinkRowsChain(Top(None, included + excludeRows), currentPreset, inviteLinks, hadLinks);
    ChainJoin(None, included + excludeRows, links);
    ChainAscends(None, included + excludeRows + links);
  }

  // ---------------------------------------------------------------------------
  // Which rows appear.

  /** Position of an include category in `allCases`. */
  function IncludePosition(c: IncludeCategory): (i: nat)
    ensures i < 5 && AllIncludeCategories[i] == c
  {
    match c
    case Contacts => 0
    case NonContacts => 1
    case Groups => 2
    case Channels => 3
    case Bots => 4
  }

  /** Position of an exclude category in `allCases`. */
  function ExcludePosition(c: ExcludeCategory): (i: nat)
    ensures i < 3 && AllExcludeCategories[i] == c
  {
    match c
    case Muted => 0
    case Read => 1
    case Archived => 2
  }

  /** The row a selected include category gets. */
  function IncludeCategoryRowFor(c: IncludeCategory, revealed: Option<RevealedItemId>): Entry {
    IncludeCategoryRow(IncludePosition(c), c, revealed == Some(RevealedIncludeCategory(c)))
  }

  /** The row a switched-on exclusion flag gets. */
  function ExcludeCategoryRowFor(c: ExcludeCategory, revealed: Option<RevealedItemId>): Entry {
    ExcludeCategoryRow(ExcludePosition(c), c, revealed == Some(RevealedExcludeCategory(c)))
  }

  /** A category gets a row exactly when it is selected, and there are no other rows. */
  lemma {:induction false} IncludeCategoryRowsExact(cats: set<IncludeCategory>, revealed: Option<RevealedItemId>, n: nat)
    requires n <= 5
    ensures forall e :: e in IncludeCategoryRows(cats, revealed, n) ==> e.IncludeCategoryRow?
    ensures forall c ::
      (IncludeCategoryRowFor(c, revealed) in IncludeCategoryRows(cats, revealed, n) <==> c in cats && IncludePosition(c) < n)
  {
    if n > 0 {
      IncludeCategoryRowsExact(cats, revealed, n - 1);
    }
  }

  /** An exclusion flag gets a row exactly when it is on, and there are no other rows. */
  lemma {:induction false} ExcludeCategoryRowsExact(s: EditorState, n: nat)
    requires n <= 3
    ensures forall e :: e in ExcludeCategoryRows(s, n) ==> e.ExcludeCategoryRow?
    ensures forall c ::
      (ExcludeCategoryRowFor(c, s.revealedItemId) in ExcludeCategoryRows(s, n) <==> ExcludeFlag(s, c) && ExcludePosition(c) < n)
  {
    if n > 0 {
      ExcludeCategoryRowsExact(s, n - 1);
    }
  }

  /** A peer or expand row of the given section. */
  predicate IsPeerRowOf(side: FilterSection, e: Entry) {
    if side == IncludeSection then e.IncludePeer? || e.IncludeExpand? else e.ExcludePeer? || e.ExcludeExpand?
  }

  lemma {:induction false} PeerRowsUpToKind(side: FilterSection, peers: seq<PeerId>, base: nat, revealed: Option<RevealedItemId>, count: nat)
    requires count <= |peers|
    ensures forall e :: e in PeerRowsUpTo(side, peers, base, revealed, count) ==>
      IsPeerRowOf(side, e) && (e.IncludePeer? || e.ExcludePeer?)
  {
    if count > 0 {
      PeerRowsUpToKind(side, peers, base, revealed, count - 1);
    }
  }

  lemma PeerRowsKind(side: FilterSection, peers: seq<PeerId>, base: nat, expanded: bool, revealed: Option<RevealedItemId>)
    ensures forall e :: e in PeerRows(side, peers, base, expanded, revealed) ==> IsPeerRowOf(side, e)
  {
    PeerRowsUpToKind(side, peers, base, revealed, ShownCount(|peers|, expanded));
  }

  lemma {:induction false} LinkRowsUpToKind(links: seq<FolderLink>, n: nat)
    requires n <= |links|
    ensures forall e :: e in LinkRowsUpTo(links, n) ==> e.InviteLinkRow?
  {
    if n > 0 {
      LinkRowsUpToKind(links, n - 1);
    }
  }

  lemma LinkRowsKind(currentPreset: Option<ChatListFilter>, inviteLinks: Option<seq<FolderLink>>, hadLinks: bool)
    ensures forall e :: e in LinkRows(currentPreset, inviteLinks, hadLinks) ==> Section(e) == InviteLinksSection
  {
    if inviteLinks.Some? {
      LinkRowsUpToKind(inviteLinks.value, |inviteLinks.value|);
    }
  }

  /** The rows of the exclude section all belong to it; it is empty exactly for a shared folder. */
  lemma ExcludeRowsKind(currentPreset: Option<ChatListFilter>, state: EditorState, excludePeers: seq<PeerId>, base: nat)
    ensures forall e :: e in ExcludeRows(currentPreset, state, excludePeers, base) ==> Section(e) == ExcludePeersSection
    ensures ExcludeRows(currentPreset, state, excludePeers, base) == [] <==> IsSharedPreset(currentPreset)
    ensures ExcludePeersHeader in ExcludeRows(currentPreset, state, excludePeers, base) <==> !IsSharedPreset(currentPreset)
    ensures forall c ::
      (ExcludeCategoryRowFor(c, state.revealedItemId) in ExcludeRows(currentPreset, state, excludePeers, base)
       <==> !IsSharedPreset(currentPreset) && ExcludeFlag(state, c))
  {
    if !IsSharedPreset(currentPreset) {
      ExcludeCategoryRowsExact(state, ExcludeCategoryCount);
      var head := ExcludeHeadRows(state);
      PeerRowsKind(ExcludeSection, excludePeers, base + |head|, ExcludeSection in state.expandedSections, state.revealedItemId);
    }
  }

  /** The fixed rows at the top of the list. */
  function FixedHeadRows(isNewFilter: bool, state: EditorState, includeCount: nat, limit: int): seq<Entry> {
    (if isNewFilter then [ScreenHeader] else []) + [NameHeader, Name(state.name), IncludePeersHeader]
      + (if includeCount < limit then [AddIncludePeer] else [])
  }

  /** Everything the builder emits before the exclude section. */
  function IncludedRows(isNewFilter: bool, state: EditorState, includePeers: seq<PeerId>, limit: int): seq<Entry> {
    var head := HeadRows(isNewFilter, state, |includePeers|, limit);
    head + PeerRows(IncludeSection, includePeers, |head|, IncludeSection in state.expandedSections, state.revealedItemId)
      + [IncludePeerInfo]
  }

  /** The editor's rows are the include part, the exclude section and the link section, in that order. */
  lemma EditorEntriesSplit(isNewFilter: bool, currentPreset: Option<ChatListFilter>, state: EditorState,
                           includePeers: seq<PeerId>, excludePeers: seq<PeerId>, limit: int,
                           inviteLinks: Option<seq<FolderLink>>, hadLinks: bool)
    returns (included: seq<Entry>, excludeRows: seq<Entry>, links: seq<Entry>)
    ensures included == IncludedRows(isNewFilter, state, includePeers, limit)
    ensures excludeRows == ExcludeRows(currentPreset, state, excludePeers, |included|)
    ensures links == LinkRows(currentPreset, inviteLinks, hadLinks)
    ensures EditorEntries(isNewFilter, currentPreset, state, includePeers, excludePeers, limit, inviteLinks, hadLinks)
      == included + excludeRows + links
  {
    included := IncludedRows(isNewFilter, state, includePeers, limit);
    excludeRows := ExcludeRows(currentPreset, state, excludePeers, |included|);
    links := LinkRows(currentPreset, inviteLinks, hadLinks);
  }

  /** The include part, cut into fixed rows, category rows and peer rows. */
  lemma IncludedRowsLayout(isNewFilter: bool, state: EditorState, includePeers: seq<PeerId>, limit: int)
    returns (fixed: seq<Entry>, cats: seq<Entry>, peerRows: seq<Entry>)
    ensures fixed == FixedHeadRows(isNewFilter, state, |includePeers|, limit)
    ensures cats == IncludeCategoryRows(state.includeCategories, state.revealedItemId, IncludeCategoryCount)
    ensures peerRows == PeerRows(IncludeSection, includePeers, |fixed| + |cats|,
                                 IncludeSection in state.expandedSections, state.revealedItemId)
    ensures IncludedRows(isNewFilter, state, includePeers, limit) == fixed + cats + peerRows + [IncludePeerInfo]
  {
    fixed := FixedHeadRows(isNewFilter, state, |includePeers|, limit);
    cats := IncludeCategoryRows(state.includeCategories, state.revealedItemId, IncludeCategoryCount);
    assert HeadRows(isNewFilter, state, |includePeers|, limit) == fixed + cats;
    peerRows := PeerRows(IncludeSection, includePeers, |fixed| + |cats|,
                         IncludeSection in state.expandedSections, state.revealedItemId);
  }

  /** The fixed rows: which of them appear, and that none is a category, peer or footer row. */
  lemma FixedHeadRowsMembers(isNewFilter: bool, state: EditorState, includeCount: nat, limit: int)
    ensures ScreenHeader in FixedHeadRows(isNewFilter, state, includeCount, limit) <==> isNewFilter
    ensures AddIncludePeer in FixedHeadRows(isNewFilter, state, includeCount, limit) <==> includeCount < limit
    ensures forall e :: e in FixedHeadRows(isNewFilter, state, includeCount, limit) ==>
      && SectionRank(Section(e)) <= 2 && !e.IncludeCategoryRow? && !IsPeerRowOf(IncludeSection, e) && e != IncludePeerInfo
  {
    var f := FixedHeadRows(isNewFilter, state, includeCount, limit);
    var middle := [NameHeader, Name(state.name), IncludePeersHeader];
    if isNewFilter {
      if includeCount < limit {
        assert f == [ScreenHeader] + middle + [AddIncludePeer];
      } else {
        assert f == [ScreenHeader] + middle + [];
      }
    } else {
      if includeCount < limit {
        assert f == [] + middle + [AddIncludePeer];
      } else {
        assert f == [] + middle + [];
      }
    }
  }

  /** The include part is the fixed rows followed by category, peer and footer rows only. */
  lemma IncludedRowsParts(isNewFilter: bool, state: EditorState, includePeers: seq<PeerId>, limit: int)
    returns (fixed: seq<Entry>, rest: seq<Entry>)
    ensures fixed == FixedHeadRows(isNewFilter, state, |includePeers|, limit)
    ensures IncludedRows(isNewFilter, state, includePeers, limit) == fixed + rest
    ensures forall e :: e in rest ==> e.IncludeCategoryRow? || IsPeerRowOf(IncludeSection, e) || e == IncludePeerInfo
  {
    var cats, peerRows;
    fixed, cats, peerRows := IncludedRowsLayout(isNewFilter, state, includePeers, limit);
    rest := cats + peerRows + [IncludePeerInfo];
    assert fixed + cats + peerRows + [IncludePeerInfo] == fixed + rest;
    IncludeCategoryRowsExact(state.includeCategories, state.revealedItemId, IncludeCategoryCount);
    PeerRowsKind(IncludeSection, includePeers, |fixed| + |cats|, IncludeSection in state.expandedSections, state.revealedItemId);
  }

  /** Every row of the include part belongs to one of the first three sections. */
  lemma IncludedRowsSections(isNewFilter: bool, state: EditorState, includePeers: seq<PeerId>, limit: int)
    ensures forall e :: e in IncludedRows(isNewFilter, state, includePeers, limit) ==> SectionRank(Section(e)) <= 2
  {
    var fixed, rest := IncludedRowsParts(isNewFilter, state, includePeers, limit);
    FixedHeadRowsMembers(isNewFilter, state, |includePeers|, limit);
  }

  /** The include part's header and add button rows. */
  lemma IncludedRowsHeader(isNewFilter: bool, state: EditorState, includePeers: seq<PeerId>, limit: int)
    ensures ScreenHeader in IncludedRows(isNewFilter, state, includePeers, limit) <==> isNewFilter
    ensures AddIncludePeer in IncludedRows(isNewFilter, state, includePeers, limit) <==> |includePeers| < limit
  {
    var fixed, rest := IncludedRowsParts(isNewFilter, state, includePeers, limit);
    FixedHeadRowsMembers(isNewFilter, state, |includePeers|, limit);
    assert ScreenHeader !in rest && AddIncludePeer !in rest;
  }

  /** The include part's category rows. */
  lemma IncludedRowsCategories(isNewFilter: bool, state: EditorState, includePeers: seq<PeerId>, limit: int)
    ensures forall c ::
      (IncludeCategoryRowFor(c, state.revealedItemId) in IncludedRows(isNewFilter, state, includePeers, limit)
       <==> c in state.includeCategories)
  {
    var fixed, cats, peerRows := IncludedRowsLayout(isNewFilter, state, includePeers, limit);
    FixedHeadRowsMembers(isNewFilter, state, |includePeers|, limit);
    IncludeCategoryRowsExact(state.includeCategories, state.revealedItemId, IncludeCategoryCount);
    var tail := peerRows + [IncludePeerInfo];
    PeerTailKind(includePeers, |fixed| + |cats|, IncludeSection in state.expandedSections, state.revealedItemId);
    assert fixed + cats + peerRows + [IncludePeerInfo] == fixed + cats + tail;
    CategoryRowsAmong(fixed, cats, tail, state.revealedItemId, state.includeCategories);
  }

  /** The include peer rows and the footer hold no category row. */
  lemma PeerTailKind(includePeers: seq<PeerId>, base: nat, expanded: bool, revealed: Option<RevealedItemId>)
    ensures forall e :: (e in PeerRows(IncludeSection, includePeers, base, expanded, revealed) + [IncludePeerInfo]
                         ==> !e.IncludeCategoryRow?)
  {
    PeerRowsKind(IncludeSection, includePeers, base, expanded, revealed);
  }

  /** Category rows are found only among the category rows. */
  lemma CategoryRowsAmong(before: seq<Entry>, cats: seq<Entry>, after: seq<Entry>,
                          revealed: Option<RevealedItemId>, selected: set<IncludeCategory>)
    requires forall e :: e in before ==> !e.IncludeCategoryRow?
    requires forall e :: e in after ==> !e.IncludeCategoryRow?
    requires forall c :: (IncludeCategoryRowFor(c, revealed) in cats <==> c in selected && IncludePosition(c) < IncludeCategoryCount)
    ensures forall c :: (IncludeCategoryRowFor(c, revealed) in before + cats + after <==> c in selected)
  {
  }

  /** A row outside the include and exclude sections and the header. */
  lemma LaterRowsSections(currentPreset: Option<ChatListFilter>, state: EditorState, excludePeers: seq<PeerId>, base: nat,
                          inviteLinks: Option<seq<FolderLink>>, hadLinks: bool)
    ensures forall e :: (e in ExcludeRows(currentPreset, state, excludePeers, base) + LinkRows(currentPreset, inviteLinks, hadLinks)
      ==> SectionRank(Section(e)) >= 3)
  {
    ExcludeRowsKind(currentPreset, state, excludePeers, base);
    LinkRowsKind(currentPreset, inviteLinks, hadLinks);
  }

  /** The new-folder header is shown exactly for a new folder, the include "add chats" button exactly below the limit. */
  lemma EditorEntriesHeaderRows(isNewFilter: bool, currentPreset: Option<ChatListFilter>, state: EditorState,
                                includePeers: seq<PeerId>, excludePeers: seq<PeerId>, limit: int,
                                inviteLinks: Option<seq<FolderLink>>, hadLinks: bool)
    ensures var es := EditorEntries(isNewFilter, currentPreset, state, includePeers, excludePeers, limit, inviteLinks, hadLinks);
      && (ScreenHeader in es <==> isNewFilter)
      && (AddIncludePeer in es <==> |includePeers| < limit)
  {
    var included, excludeRows, links :=
      EditorEntriesSplit(isNewFilter, currentPreset, state, includePeers, excludePeers, limit, inviteLinks, hadLinks);
    IncludedRowsHeader(isNewFilter, state, includePeers, limit);
    LaterRowsSections(currentPreset, state, excludePeers, |included|, inviteLinks, hadLinks);
    var later := excludeRows + links;
    assert included + excludeRows + links == included + later;
    InIncludedPart(ScreenHeader, included, later);
    InIncludedPart(AddIncludePeer, included, later);
  }

  /** A row of the first three sections is in the list exactly when it is in the include part. */
  lemma InIncludedPart(x: Entry, included: seq<Entry>, later: seq<Entry>)
    requires SectionRank(Section(x)) <= 2
    requires forall e :: e in later ==> SectionRank(Section(e)) >= 3
    ensures x in included + later <==> x in included
  {
  }

  /** An include category gets a row exactly when it is selected. */
  lemma EditorEntriesIncludeCategories(isNewFilter: bool, currentPreset: Option<ChatListFilter>, state: EditorState,
                                       includePeers: seq<PeerId>, excludePeers: seq<PeerId>, limit: int,
                                       inviteLinks: Option<seq<FolderLink>>, hadLinks: bool)
    ensures var es := EditorEntries(isNewFilter, currentPreset, state, includePeers, excludePeers, limit, inviteLinks, hadLinks);
      forall c :: (IncludeCategoryRowFor(c, state.revealedItemId) in es <==> c in state.includeCategories)
  {
    var included, excludeRows, links :=
      EditorEntriesSplit(isNewFilter, currentPreset, state, includePeers, excludePeers, limit, inviteLinks, hadLinks);
    IncludedRowsCategories(isNewFilter, state, includePeers, limit);
    LaterRowsSections(currentPreset, state, excludePeers, |included|, inviteLinks, hadLinks);
    var later := excludeRows + links;
    assert included + excludeRows + links == included + later;
    forall c: IncludeCategory
      ensures IncludeCategoryRowFor(c, state.revealedItemId) in included + later
          <==> IncludeCategoryRowFor(c, state.revealedItemId) in included
    {
      InIncludedPart(IncludeCategoryRowFor(c, state.revealedItemId), included, later);
    }
  }

  /**
   * The exclude section is shown exactly for a folder that is not shared,
   * and then holds a row for exactly the exclusion flags that are on.
   */
  lemma EditorEntriesExcludeSection(isNewFilter: bool, currentPreset: Option<ChatListFilter>, state: EditorState,
                                    includePeers: seq<PeerId>, excludePeers: seq<PeerId>, limit: int,
                                    inviteLinks: Option<seq<FolderLink>>, hadLinks: bool)
    ensures var es := EditorEntries(isNewFilter, currentPreset, state, includePeers, excludePeers, limit, inviteLinks, hadLinks);
      && (ExcludePeersHeader in es <==> !IsSharedPreset(currentPreset))
      && (IsSharedPreset(currentPreset) ==> forall e :: e in es ==> Section(e) != ExcludePeersSection)
      && (forall c ::
            (ExcludeCategoryRowFor(c, state.revealedItemId) in es <==> !IsSharedPreset(currentPreset) && ExcludeFlag(state, c)))
  {
    var included, excludeRows, links :=
      EditorEntriesSplit(isNewFilter, currentPreset, state, includePeers, excludePeers, limit, inviteLinks, hadLinks);
    IncludedRowsSections(isNewFilter, state, includePeers, limit);
    ExcludeRowsKind(currentPreset, state, excludePeers, |included|);
    LinkRowsKind(currentPreset, inviteLinks, hadLinks);
    ExcludeSectionAmong(included, excludeRows, links, IsSharedPreset(currentPreset), state);
  }

  /** The exclude section's facts carry over to the whole list around it. */
  lemma ExcludeSectionAmong(before: seq<Entry>, rows: seq<Entry>, after: seq<Entry>, shared: bool, state: EditorState)
    requires forall e :: e in before ==> SectionRank(Section(e)) <= 2
    requires forall e :: e in after ==> Section(e) == InviteLinksSection
    requires forall e :: e in rows ==> Section(e) == ExcludePeersSection
    requires rows == [] <==> shared
    requires ExcludePeersHeader in rows <==> !shared
    requires forall c :: (ExcludeCategoryRowFor(c, state.revealedItemId) in rows <==> !shared && ExcludeFlag(state, c))
    ensures var es := before + rows + after;
      && (ExcludePeersHeader in es <==> !shared)
      && (shared ==> forall e :: e in es ==> Section(e) != ExcludePeersSection)
      && (forall c :: (ExcludeCategoryRowFor(c, state.revealedItemId) in es <==> !shared && ExcludeFlag(state, c)))
  {
  }

  // ---------------------------------------------------------------------------
  // Truncation of long peer lists.

  /** What to read off a row: the peer of a section's peer row, or the hidden count of its expand row. */
  datatype Probe = ShownPeer(peerSide: FilterSection) | HiddenCount(expandSide: FilterSection)

  function ProbeRow(p: Probe, e: Entry): Option<int> {
    match p
    case ShownPeer(side) =>
      if side == IncludeSection && e.IncludePeer? then Some(e.incPeer)
      else if side == ExcludeSection && e.ExcludePeer? then Some(e.excPeer)
      else None
    case HiddenCount(side) =>
      if side == IncludeSection && e.IncludeExpand? then Some(e.incHidden)
      else if side == ExcludeSection && e.ExcludeExpand? then Some(e.excHidden)
      else None
  }

  /** The values `p` reads off the rows of `s`, in order. */
  function Collect(p: Probe, s: seq<Entry>): seq<int> {
    if s == [] then []
    else
      var last := ProbeRow(p, s[|s| - 1]);
      Collect(p, s[..|s| - 1]) + (if last.Some? then [last.value] else [])
  }

  lemma {:induction false} CollectAppend(p: Probe, a: seq<Entry>, b: seq<Entry>)
    ensures Collect(p, a + b) == Collect(p, a) + Collect(p, b)
  {
    if b == [] {
      assert a + b == a;
    } else {
      var b' := b[..|b| - 1];
      assert (a + b)[..|a + b| - 1] == a + b';
      assert (a + b)[|a + b| - 1] == b[|b| - 1];
      CollectAppend(p, a, b');
    }
  }

  lemma {:induction false} CollectNone(p: Probe, s: seq<Entry>)
    requires forall e :: e in s ==> ProbeRow(p, e).None?
    ensures Collect(p, s) == []
  {
    if s != [] {
      CollectNone(p, s[..|s| - 1]);
    }
  }

  /** The first `count` peer rows show exactly the first `count` peers. */
  lemma {:induction false} CollectPeerRowsUpTo(side: FilterSection, peers: seq<PeerId>, base: nat, revealed: Option<RevealedItemId>, count: nat)
    requires count <= |peers|
    ensures Collect(ShownPeer(side), PeerRowsUpTo(side, peers, base, revealed, count)) == peers[..count]
  {
    if count > 0 {
      CollectPeerRowsUpTo(side, peers, base, revealed, count - 1);
      assert peers[..count] == peers[..count - 1] + [peers[count - 1]];
    }
  }

  /** Peer rows hold no expand row. */
  lemma {:induction false} CollectHiddenPeerRowsUpTo(side: FilterSection, peers: seq<PeerId>, base: nat, revealed: Option<RevealedItemId>, count: nat)
    requires count <= |peers|
    ensures Collect(HiddenCount(side), PeerRowsUpTo(side, peers, base, revealed, count)) == []
  {
    if count > 0 {
      CollectHiddenPeerRowsUpTo(side, peers, base, revealed, count - 1);
    }
  }

  lemma CollectOne(p: Probe, e: Entry)
    ensures Collect(p, [e]) == (if ProbeRow(p, e).Some? then [ProbeRow(p, e).value] else [])
  {
    assert [e][..0] == [];
  }

  /** An expand row shows no peer and counts its hidden peers. */
  lemma CollectExpand(side: FilterSection, hidden: int)
    ensures Collect(ShownPeer(side), [ExpandEntry(side, hidden)]) == []
    ensures Collect(HiddenCount(side), [ExpandEntry(side, hidden)]) == [hidden]
  {
    CollectOne(ShownPeer(side), ExpandEntry(side, hidden));
    CollectOne(HiddenCount(side), ExpandEntry(side, hidden));
  }

  /** A section shows its first `ShownCount` peers and, when that leaves some out, one expand row counting them. */
  lemma CollectPeerRows(side: FilterSection, peers: seq<PeerId>, base: nat, expanded: bool, revealed: Option<RevealedItemId>)
    ensures Collect(ShownPeer(side), PeerRows(side, peers, base, expanded, revealed)) == peers[..ShownCount(|peers|, expanded)]
    ensures Collect(HiddenCount(side), PeerRows(side, peers, base, expanded, revealed))
      == (if |peers| >= 7 && !expanded then [|peers| - 5] else [])
  {
    var shown := ShownCount(|peers|, expanded);
    var rows := PeerRowsUpTo(side, peers, base, revealed, shown);
    CollectPeerRowsUpTo(side, peers, base, revealed, shown);
    CollectHiddenPeerRowsUpTo(side, peers, base, revealed, shown);
    if shown < |peers| {
      var x := ExpandEntry(side, |peers| - shown);
      assert PeerRows(side, peers, base, expanded, revealed) == rows + [x];
      CollectExpand(side, |peers| - shown);
      CollectAppend(ShownPeer(side), rows, [x]);
      CollectAppend(HiddenCount(side), rows, [x]);
    } else {
      assert PeerRows(side, peers, base, expanded, revealed) == rows;
    }
  }

  /** Neither kind of probe finds anything in the other section's peer rows. */
  lemma CollectOtherSide(p: Probe, side: FilterSection, peers: seq<PeerId>, base: nat, expanded: bool, revealed: Option<RevealedItemId>)
    requires (p.ShownPeer? && p.peerSide != side) || (p.HiddenCount? && p.expandSide != side)
    ensures Collect(p, PeerRows(side, peers, base, expanded, revealed)) == []
  {
    PeerRowsKind(side, peers, base, expanded, revealed);
    CollectNone(p, PeerRows(side, peers, base, expanded, revealed));
  }

  /** Rows outside a section's peer rows contribute nothing to what the section shows. */
  lemma CollectOutside(side: FilterSection, s: seq<Entry>)
    requires forall e :: e in s ==> !IsPeerRowOf(side, e)
    ensures Collect(ShownPeer(side), s) == [] && Collect(HiddenCount(side), s) == []
  {
    CollectNone(ShownPeer(side), s);
    CollectNone(HiddenCount(side), s);
  }

  /** Reading off a list that is cut around a section's peer rows. */
  lemma CollectAround(side: FilterSection, before: seq<Entry>, rows: seq<Entry>, after: seq<Entry>)
    requires forall e :: e in before ==> !IsPeerRowOf(side, e)
    requires forall e :: e in after ==> !IsPeerRowOf(side, e)
    ensures Collect(ShownPeer(side), before + rows + after) == Collect(ShownPeer(side), rows)
    ensures Collect(HiddenCount(side), before + rows + after) == Collect(HiddenCount(side), rows)
  {
    CollectOutside(side, before);
    CollectOutside(side, after);
    CollectAppend(ShownPeer(side), before, rows);
    CollectAppend(ShownPeer(side), before + rows, after);
    CollectAppend(HiddenCount(side), before, rows);
    CollectAppend(HiddenCount(side), before + rows, after);
  }

  /**
   * The include section lists its first five chats and an expand row counting
   * the rest when it has seven or more and is collapsed, and all of them
   * otherwise.
   */
  lemma EditorEntriesIncludeTruncation(isNewFilter: bool, currentPreset: Option<ChatListFilter>, state: EditorState,
                                       includePeers: seq<PeerId>, excludePeers: seq<PeerId>, limit: int,
                                       inviteLinks: Option<seq<FolderLink>>, hadLinks: bool)
    ensures var es := EditorEntries(isNewFilter, currentPreset, state, includePeers, excludePeers, limit, inviteLinks, hadLinks);
      var expanded := IncludeSection in state.expandedSections;
      && Collect(ShownPeer(IncludeSection), es) == includePeers[..ShownCount(|includePeers|, expanded)]
      && Collect(HiddenCount(IncludeSection), es) == (if |includePeers| >= 7 && !expanded then [|includePeers| - 5] else [])
  {
    var included, excludeRows, links :=
      EditorEntriesSplit(isNewFilter, currentPreset, state, includePeers, excludePeers, limit, inviteLinks, hadLinks);
    var later := excludeRows + links;
    assert included + excludeRows + links == included + later;
    CollectIncludedRows(isNewFilter, state, includePeers, limit);
    LaterRowsSections(currentPreset, state, excludePeers, |included|, inviteLinks, hadLinks);
    CollectBeforeLater(included, later);
  }

  /** Rows after the include part contribute nothing to what the include section shows. */
  lemma CollectBeforeLater(included: seq<Entry>, later: seq<Entry>)
    requires forall e :: e in later ==> SectionRank(Section(e)) >= 3
    ensures Collect(ShownPeer(IncludeSection), included + later) == Collect(ShownPeer(IncludeSection), included)
    ensures Collect(HiddenCount(IncludeSection), included + later) == Collect(HiddenCount(IncludeSection), included)
  {
    forall e | e in later
      ensures !IsPeerRowOf(IncludeSection, e)
    {
      IncludePeerRowRank(e);
    }
    CollectOutside(IncludeSection, later);
    CollectAppend(ShownPeer(IncludeSection), included, later);
    CollectAppend(HiddenCount(IncludeSection), included, later);
  }

  /** The include section's peer rows sit in the include section. */
  lemma IncludePeerRowRank(e: Entry)
    ensures IsPeerRowOf(IncludeSection, e) ==> SectionRank(Section(e)) == 2
  {
  }

  /** What the include part shows, read off its own rows. */
  lemma CollectIncludedRows(isNewFilter: bool, state: EditorState, includePeers: seq<PeerId>, limit: int)
    ensures var rows := IncludedRows(isNewFilter, state, includePeers, limit);
      var expanded := IncludeSection in state.expandedSections;
      && Collect(ShownPeer(IncludeSection), rows) == includePeers[..ShownCount(|includePeers|, expanded)]
      && Collect(HiddenCount(IncludeSection), rows) == (if |includePeers| >= 7 && !expanded then [|includePeers| - 5] else [])
  {
    var fixed, cats, peerRows := IncludedRowsLayout(isNewFilter, state, includePeers, limit);
    HeadRowsNotPeers(isNewFilter, state, |includePeers|, limit);
    CollectPeerRows(IncludeSection, includePeers, |fixed| + |cats|, IncludeSection in state.expandedSections, state.revealedItemId);
    var head := fixed + cats;
    assert fixed + cats + peerRows + [IncludePeerInfo] == head + peerRows + [IncludePeerInfo];
    CollectAround(IncludeSection, head, peerRows, [IncludePeerInfo]);
  }

  /** The rows above the include section's peers are not peer rows. */
  lemma HeadRowsNotPeers(isNewFilter: bool, state: EditorState, includeCount: nat, limit: int)
    ensures forall e :: (e in FixedHeadRows(isNewFilter, state, includeCount, limit)
                                + IncludeCategoryRows(state.includeCategories, state.revealedItemId, IncludeCategoryCount)
                         ==> !IsPeerRowOf(IncludeSection, e))
  {
    IncludeCategoryRowsExact(state.includeCategories, state.revealedItemId, IncludeCategoryCount);
  }

  /** The exclude section's head rows are not peer rows. */
  lemma ExcludeHeadRowsNotPeers(state: EditorState)
    ensures forall e :: e in ExcludeHeadRows(state) ==> !IsPeerRowOf(ExcludeSection, e)
  {
    ExcludeCategoryRowsExact(state, ExcludeCategoryCount);
  }

  /** What the exclude section shows, read off its own rows. */
  lemma CollectExcludeRows(currentPreset: Option<ChatListFilter>, state: EditorState, excludePeers: seq<PeerId>, base: nat)
    ensures var rows := ExcludeRows(currentPreset, state, excludePeers, base);
      var expanded := ExcludeSection in state.expandedSections;
      && Collect(ShownPeer(ExcludeSection), rows)
         == (if IsSharedPreset(currentPreset) then [] else excludePeers[..ShownCount(|excludePeers|, expanded)])
      && Collect(HiddenCount(ExcludeSection), rows)
         == (if !IsSharedPreset(currentPreset) && |excludePeers| >= 7 && !expanded then [|excludePeers| - 5] else [])
  {
    if !IsSharedPreset(currentPreset) {
      var head := ExcludeHeadRows(state);
      ExcludeHeadRowsNotPeers(state);
      var expanded := ExcludeSection in state.expandedSections;
      var peerRows := PeerRows(ExcludeSection, excludePeers, base + |head|, expanded, state.revealedItemId);
      CollectPeerRows(ExcludeSection, excludePeers, base + |head|, expanded, state.revealedItemId);
      assert ExcludeRows(currentPreset, state, excludePeers, base) == head + peerRows + [ExcludePeerInfo];
      CollectAround(ExcludeSection, head, peerRows, [ExcludePeerInfo]);
    } else {
      assert ExcludeRows(currentPreset, state, excludePeers, base) == [];
    }
  }

  /**
   * The exclude section of a folder that is not shared lists its first five
   * chats and an expand row counting the rest when it has seven or more and is
   * collapsed, and all of them otherwise; a shared folder lists none.
   */
  lemma EditorEntriesExcludeTruncation(isNewFilter: bool, currentPreset: Option<ChatListFilter>, state: EditorState,
                                       includePeers: seq<PeerId>, excludePeers: seq<PeerId>, limit: int,
                                       inviteLinks: Option<seq<FolderLink>>, hadLinks: bool)
    ensures var es := EditorEntries(isNewFilter, currentPreset, state, includePeers, excludePeers, limit, inviteLinks, hadLinks);
      var expanded := ExcludeSection in state.expandedSections;
      && Collect(ShownPeer(ExcludeSection), es)
         == (if IsSharedPreset(currentPreset) then [] else excludePeers[..ShownCount(|excludePeers|, expanded)])
      && Collect(HiddenCount(ExcludeSection), es)
         == (if !IsSharedPreset(currentPreset) && |excludePeers| >= 7 && !expanded then [|excludePeers| - 5] else [])
  {
    var included, excludeRows, links :=
      EditorEntriesSplit(isNewFilter, currentPreset, state, includePeers, excludePeers, limit, inviteLinks, hadLinks);
    CollectExcludeRows(currentPreset, state, excludePeers, |included|);
    IncludedRowsSections(isNewFilter, state, includePeers, limit);
    LinkRowsKind(currentPreset, inviteLinks, hadLinks);
    CollectBetweenSections(included, excludeRows, links);
  }

  /** Rows above and below the exclude section contribute nothing to what it shows. */
  lemma CollectBetweenSections(before: seq<Entry>, rows: seq<Entry>, after: seq<Entry>)
    requires forall e :: e in before ==> SectionRank(Section(e)) <= 2
    requires forall e :: e in after ==> Section(e) == InviteLinksSection
    ensures Collect(ShownPeer(ExcludeSection), before + rows + after) == Collect(ShownPeer(ExcludeSection), rows)
    ensures Collect(HiddenCount(ExcludeSection), before + rows + after) == Collect(HiddenCount(ExcludeSection), rows)
  {
    CollectAround(ExcludeSection, before, rows, after);
  }
}
