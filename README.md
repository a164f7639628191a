# Chat folders, photo corners and date suggestions

This project models three pieces of the messaging client's UI logic in Dafny
and proves properties of them.

- **The chat-folder editor.** The modelled parts are:
  - the editor state and the validator that enables the Done button;
  - the folder-type classifier behind automatic folder names;
  - the small state transitions the list rows trigger;
  - the list of rows the editor shows and the order they are sorted in;
  - the include and exclude chat pickers and how their results are merged
    back;
  - the save that writes the edited folder into the folder list;
  - the bookkeeping of the folder's share links.
- **Photo corners and sources.** The modelled parts are:
  - the keys of the corner and tail masks, with their equality and their
    hand-written hash;
  - the two mask caches;
  - the corner finishing step that stamps those masks onto an image;
  - which bytes a photo is decoded from;
  - the de-duplication and the filter applied to the photo data streams;
  - the snapping of a fitted size to its bounding size.
- **Date suggestions for search.** The model is the search query's mapping
  to suggested dates: "today" and "yesterday", weekday names, month names, a
  four-digit year, and dates a date detector finds.

The folder editor is mostly pure: the editor state is a value that each
action maps to a new value. It is modelled by datatypes and functions.
The row builder and the two picker result handlers work by loops and
appends. They are methods proved equal to specification functions, and
lemmas state the properties of those functions.

The mask caches are mutable dictionaries, modelled as a `MaskCache` class
with two `map` fields. The image being finished is a `DrawingContext`
class that records the drawing operations applied to it. `AddCorners`
changes both classes and is proved against a step plan computed by a
function.

`suggestDates` builds its result with loops and appends. It is the method
`SuggestDates`, proved equal to the function `Suggestions`. The locale
strings, the calendar and the date detector are parameters given as
functions.

Module layout:
- `Common`: `Option`.
- Chat-folder editor:
  - `FolderModel`: state, folder value, classifier, validator, row actions.
  - `FolderEntries`: sort keys, rows, row builder.
  - `FolderEntriesFacts`: what the rows contain and their order.
  - `FolderPicker`: chat pickers.
  - `FolderSave`: saving and share links.
- Photo resources:
  - `CornerMasks`: corner and tail keys, masks, caches, `addCorners`.
  - `PhotoSources`: source selection, stream rules, fit snapping.
- `DateSuggestion`.

## Model

| member | source | states |
|---|---|---|
| FolderModel.ChatListFilterType | submodules/ChatListUI/Sources/ChatListFilterPresetController.swift:975-1003 | With all five chat types selected, the folder is "unread" if read chats are excluded, otherwise "unmuted" if muted chats are excluded, otherwise generic. Exactly one chat type gives that type's folder type. "Unread" and "unmuted" only arise with all five types selected. |
| FolderModel.FilterTypeByCount | submodules/ChatListUI/Sources/ChatListFilterPresetController.swift:975-1003 | A folder with exactly one chat type is classified by that type. A folder with any other number of types, short of all five, is generic. |
| FolderModel.IsCompleteExactly | submodules/ChatListUI/Sources/ChatListFilterPresetController.swift:560-583 | The validator refuses exactly three cases: an empty name, the default all-chats setup (all types, archived excluded, nothing else excluded), and no chat type with no included chat. Excluded chats never affect it. |
| FolderModel.InitialState | submodules/ChatListUI/Sources/ChatListFilterPresetController.swift:1033-1040 | An existing folder starts as named by the user; a new folder does not, and starts with an empty name, no chat type and no chats. No row starts revealed or expanded. |
| FolderModel.InitialStateFacts | submodules/ChatListUI/Sources/ChatListFilterPresetController.swift:1033-1050 | The initial state is settled: the name wrapper changes nothing in it. The folder data built from an existing folder's initial state is that folder's own data. A new folder's data is empty. |
| FolderModel.AutoNameDependsOnType | submodules/ChatListUI/Sources/ChatListFilterPresetController.swift:1048-1050 | The folder type behind the automatic name depends only on the chat types and the muted and read exclusions. Chats, the archived flag and the current preset play no part. |
| FolderModel.UpdateState | submodules/ChatListUI/Sources/ChatListFilterPresetController.swift:1043-1073 | Every state update changes at most the name. Once the user has changed the name, the update is left alone. Before that, the name follows the folder type of the new state: a generic folder gets its initial name back, any other type gets its localized name. |
| FolderModel.UpdateStateSettles | submodules/ChatListUI/Sources/ChatListFilterPresetController.swift:1043-1073 | Applying the name wrapper to its own result changes nothing. |
| FolderModel.FirstIndexOf | submodules/ChatListUI/Sources/ChatListFilterPresetController.swift:1240 | Finds nothing exactly when the chat is absent. Otherwise it finds the first position holding the chat. |
| FolderModel.RemoveFirst | submodules/ChatListUI/Sources/ChatListFilterPresetController.swift:1240-1242 | When the chat is present, exactly its first occurrence is removed. The chats before it stay in place and the chats after it move up one place. Otherwise the list is unchanged. |
| FolderModel.DeleteIncludePeer | submodules/ChatListUI/Sources/ChatListFilterPresetController.swift:1237-1245 | The first occurrence of the chat leaves the included chats, in the way `RemoveFirst` states, and nothing else in the state changes. A chat that is not included changes nothing. |
| FolderModel.DeleteExcludePeer | submodules/ChatListUI/Sources/ChatListFilterPresetController.swift:1246-1254 | The first occurrence of the chat leaves the excluded chats, in the way `RemoveFirst` states, and nothing else in the state changes. A chat that is not excluded changes nothing. |
| FolderModel.DeleteExcludePeerKeepsCompleteness | submodules/ChatListUI/Sources/ChatListFilterPresetController.swift:1246-1254 | Deleting an excluded chat never changes whether the folder can be saved. |
| FolderModel.SetRevealedItem | submodules/ChatListUI/Sources/ChatListFilterPresetController.swift:1255-1263 | Only the revealed row can change. |
| FolderModel.SetRevealedItemRule | submodules/ChatListUI/Sources/ChatListFilterPresetController.swift:1255-1263 | A row ends up revealed exactly when: it is hidden from the row currently revealed, or it is revealed with no origin row, or it was already revealed. A request that names a different origin row is ignored. |
| FolderModel.DeleteIncludeCategory | submodules/ChatListUI/Sources/ChatListFilterPresetController.swift:1264-1270 | The chat type leaves the selection, no other type is added or removed, and nothing else in the state changes. |
| FolderModel.DeleteExcludeCategory | submodules/ChatListUI/Sources/ChatListFilterPresetController.swift:1271-1284 | Exactly that exclusion is switched off. The other exclusion flags and the rest of the state are unchanged. |
| FolderModel.ExpandSection | submodules/ChatListUI/Sources/ChatListFilterPresetController.swift:1291-1297 | The section joins the expanded sections and nothing else changes. |
| FolderModel.UpdatedDeleteIncludePeer | submodules/ChatListUI/Sources/ChatListFilterPresetController.swift:1237-1245 | As the editor runs it, through the name wrapper: deleting an included chat commutes with the wrapper. From a settled state it changes only the included chats. |
| FolderModel.UpdatedDeleteExcludePeer | submodules/ChatListUI/Sources/ChatListFilterPresetController.swift:1246-1254 | As the editor runs it, through the name wrapper: deleting an excluded chat commutes with the wrapper. From a settled state it changes only the excluded chats. |
| FolderModel.UpdatedSetRevealedItem | submodules/ChatListUI/Sources/ChatListFilterPresetController.swift:1255-1263 | As the editor runs it, through the name wrapper: revealing or hiding a row commutes with the wrapper. From a settled state it changes only the revealed row. |
| FolderModel.UpdatedExpandSection | submodules/ChatListUI/Sources/ChatListFilterPresetController.swift:1291-1297 | As the editor runs it, through the name wrapper: expanding a section commutes with the wrapper. From a settled state it changes only the expanded sections. |
| FolderModel.UpdatedCategoryActions | submodules/ChatListUI/Sources/ChatListFilterPresetController.swift:1264-1284 | As the editor runs them, through the name wrapper, deleting a chat type or an exclusion changes that field and possibly the name. A folder the user named keeps its name. Any other folder is renamed after its new type. |
| FolderModel.DeletingGroupsRenamesFolder | submodules/ChatListUI/Sources/ChatListFilterPresetController.swift:1264-1270 | In a folder the user has not named, deleting groups from groups and channels renames the folder to the channels folder's name. |
| FolderEntries.LessIsLex | submodules/ChatListUI/Sources/ChatListFilterPresetController.swift:105-216 | The case-by-case row order is the lexicographic order on (section rank, index within the section). |
| FolderEntries.LessIrreflexive | submodules/ChatListUI/Sources/ChatListFilterPresetController.swift:105-216 | No sort key is below itself. |
| FolderEntries.LessTransitive | submodules/ChatListUI/Sources/ChatListFilterPresetController.swift:105-216 | The row order is transitive. |
| FolderEntries.LessTrichotomous | submodules/ChatListUI/Sources/ChatListFilterPresetController.swift:105-216 | Any two sort keys compare in exactly one way, so the order is total and strict. |
| FolderEntries.SectionsInOrder | submodules/ChatListUI/Sources/ChatListFilterPresetController.swift:330-344 | For rows of different sections, the row order follows the section order: screen header, name, included chats, excluded chats, links. |
| FolderEntries.AppendPeerRows | submodules/ChatListUI/Sources/ChatListFilterPresetController.swift:608-620 | Each chat row is indexed by the list length when it is appended. With seven or more chats and the section collapsed, the builder stops after five rows and adds a "show more" row counting the rest. |
| FolderEntries.AppendIncludeCategories | submodules/ChatListUI/Sources/ChatListFilterPresetController.swift:600-606 | Appends one row per selected chat type, in the fixed type order, each indexed by its position in that order. |
| FolderEntries.AppendExcludeCategories | submodules/ChatListUI/Sources/ChatListFilterPresetController.swift:629-645 | Appends one row per exclusion flag that is on (muted, read, archived), each indexed by its position. |
| FolderEntries.AppendExcludeSection | submodules/ChatListUI/Sources/ChatListFilterPresetController.swift:624-662 | A shared folder gets no exclude section. Any other folder gets the header, the add row, the exclusion rows, the excluded chats and the footer. |
| FolderEntries.AppendLinkSection | submodules/ChatListUI/Sources/ChatListFilterPresetController.swift:664-684 | Appends the link header, the create row, one row per link in order, and the footer. The "has links" flag is set by a non-empty link list or by the folder's shared-links flag. |
| FolderEntries.PresetControllerEntries | submodules/ChatListUI/Sources/ChatListFilterPresetController.swift:585-687 | The builder's rows equal the section-by-section row specification. |
| FolderEntriesFacts.EditorEntriesAscending | submodules/ChatListUI/Sources/ChatListFilterPresetController.swift:388-432 | The rows come out strictly ascending in the row order, so the list needs no re-sorting. |
| FolderEntriesFacts.EditorEntriesHeaderRows | submodules/ChatListUI/Sources/ChatListFilterPresetController.swift:588-598 | The screen header is shown exactly for a new folder. The add-chats row is shown exactly while there are fewer included chats than the limit. |
| FolderEntriesFacts.EditorEntriesIncludeCategories | submodules/ChatListUI/Sources/ChatListFilterPresetController.swift:600-606 | A chat-type row is shown exactly for each selected chat type. |
| FolderEntriesFacts.EditorEntriesExcludeSection | submodules/ChatListUI/Sources/ChatListFilterPresetController.swift:624-662 | The exclude section appears exactly when the folder is not shared, and a shared folder shows no excluded-chats row at all. An exclusion row is shown exactly for a non-shared folder with that flag on. |
| FolderEntriesFacts.EditorEntriesIncludeTruncation | submodules/ChatListUI/Sources/ChatListFilterPresetController.swift:608-620 | The included-chat rows show exactly the included chats in order: the first five when seven or more are collapsed, otherwise all of them. A single "show more" row counts the hidden chats, and it appears only in that collapsed case. |
| FolderEntriesFacts.EditorEntriesExcludeTruncation | submodules/ChatListUI/Sources/ChatListFilterPresetController.swift:647-659 | The same truncation holds for excluded chats. A shared folder shows no excluded chats and no "show more" row. |
| FolderSave.SaveFilters | submodules/ChatListUI/Sources/ChatListFilterPresetController.swift:1411-1450 | A new folder is appended. An existing folder replaces every folder with its id. When no folder has that id, folders with the same title and data are dropped and it is appended. When an existing folder was saved, the editor's preset becomes the saved folder; a new folder leaves it absent. |
| FolderSave.DropSameMembers | submodules/ChatListUI/Sources/ChatListFilterPresetController.swift:1437-1445 | A folder is kept exactly when it is in the list and differs in title or data from the saved folder. |
| FolderSave.DropSameAppend | submodules/ChatListUI/Sources/ChatListFilterPresetController.swift:1437-1445 | Dropping works folder by folder and keeps the order and repetitions of the folders it keeps: dropping from a concatenation concatenates what is kept of each part. |
| FolderSave.DropSameOne | submodules/ChatListUI/Sources/ChatListFilterPresetController.swift:1437-1445 | A single folder is kept exactly when it differs in title or data from the saved folder. |
| FolderSave.SavedListContainsSaved | submodules/ChatListUI/Sources/ChatListFilterPresetController.swift:1426-1448 | After saving, the saved folder is in the list. Every other folder is kept unless it was overwritten or was a look-alike of the saved folder. |
| FolderSave.SavedListNoLookAlike | submodules/ChatListUI/Sources/ChatListFilterPresetController.swift:1437-1445 | When no folder has the saved id, the saved folder ends the list and no other folder has its title and data. |
| FolderSave.SavedListIdempotent | submodules/ChatListUI/Sources/ChatListFilterPresetController.swift:1426-1448 | Saving the same folder twice gives the same list as saving it once. |
| FolderSave.SavedListNew | submodules/ChatListUI/Sources/ChatListFilterPresetController.swift:1446-1447 | Saving a new folder keeps the old list as a prefix and adds exactly one folder. |
| FolderSave.ShareableIsGeneric | submodules/ChatListUI/Sources/ChatListFilterPresetController.swift:1312-1329 | Sharing is refused unless the folder has no chat type, no exclusion flag and no excluded chat. A folder that may be shared is always classified generic. |
| FolderSave.FirstLinkIndex | submodules/ChatListUI/Sources/ChatListFilterPresetController.swift:1349 | Finds nothing exactly when no link has the URL. Otherwise it finds the first link with it. |
| FolderSave.RemoveLink | submodules/ChatListUI/Sources/ChatListFilterPresetController.swift:1397-1401 | When a link has the URL, exactly the first such link is removed. The links before it stay in place and the links after it move up one place. Otherwise the list is unchanged. It keeps URLs unique and then leaves none with that URL. It keeps every other link and adds none. |
| FolderSave.CreatedLinkUpdate | submodules/ChatListUI/Sources/ChatListFilterPresetController.swift:1346-1359 | A created or updated link whose URL is listed replaces the first link with that URL in place, and every other link stays where it was. One whose URL is not listed goes in front of the unchanged list. A withdrawn draft is removed as `RemoveLink` states, so no link with its URL remains when URLs were unique. With neither, the list is unchanged. |
| FolderSave.CreatedLinkUpdateKeepsKeysUnique | submodules/ChatListUI/Sources/ChatListFilterPresetController.swift:1346-1359 | URLs stay unique. The list grows by one only for a URL it did not hold before. |
| FolderSave.EditedLinkUpdate | submodules/ChatListUI/Sources/ChatListFilterPresetController.swift:1372-1387 | A link the editor returns unchanged leaves the list as it was. A changed link goes to the front, followed by the list with the first link of the edited URL removed. A revoked or deleted link is removed the same way, so no link with its URL remains when URLs were unique. |
| FolderSave.UnchangedEditKeepsOrder | submodules/ChatListUI/Sources/ChatListFilterPresetController.swift:1372 | Returning a link unchanged does not move it to the front: `[a, b]` stays `[a, b]`. |
| FolderSave.EditedLinkUpdateFacts | submodules/ChatListUI/Sources/ChatListFilterPresetController.swift:1372-1387 | Every link with another URL is kept, whatever the editor returns. URLs stay unique when a changed link's URL is not carried by another remaining link; the source does not check this. |
| FolderSave.EditedLinkCanRepeatUrl | submodules/ChatListUI/Sources/ChatListFilterPresetController.swift:1372-1387 | Editing `b` in `[a, b]` when the editor returns a link `c` with `a`'s URL gives `[c, a]`, which repeats a URL. |
| FolderSave.RemovedLinkUpdate | submodules/ChatListUI/Sources/ChatListFilterPresetController.swift:1394-1402 | After removal no link has that URL, URLs stay unique, and every link with another URL is kept. |
| FolderPicker.IncludeCategoryIdInjective | submodules/ChatListUI/Sources/ChatListFilterPresetController.swift:689-695 | The picker ids of the five chat types are distinct. |
| FolderPicker.InsertFacts | submodules/ChatListUI/Sources/ChatListFilterPresetController.swift:816 | Inserting into an ascending list adds exactly that chat and keeps the list ascending. |
| FolderPicker.SortFacts | submodules/ChatListUI/Sources/ChatListFilterPresetController.swift:816 | Sorting the picked chats gives an ascending permutation of them. |
| FolderPicker.SortUnique | submodules/ChatListUI/Sources/ChatListFilterPresetController.swift:816 | Every ascending permutation of the chats is the sorted list. |
| FolderPicker.AscendingUnique | submodules/ChatListUI/Sources/ChatListFilterPresetController.swift:816 | Two ascending lists holding the same chats are equal. |
| FolderPicker.CollectPickedPeers | submodules/ChatListUI/Sources/ChatListFilterPresetController.swift:807-815 | Collects exactly the chats among the picked ids, in order, and ignores other ids. |
| FolderPicker.CollectPickedCategories | submodules/ChatListUI/Sources/ChatListFilterPresetController.swift:818-825 | A chat type is selected exactly when its id was picked. |
| FolderPicker.PickedPeers | submodules/ChatListUI/Sources/ChatListFilterPresetController.swift:807-815 | A chat is collected exactly when it was picked, and no more chats come out than ids went in. |
| FolderPicker.PickedCategories | submodules/ChatListUI/Sources/ChatListFilterPresetController.swift:818-825 | A chat type is selected exactly when its id was picked. |
| FolderPicker.Without | submodules/ChatListUI/Sources/ChatListFilterPresetController.swift:836 | Keeps exactly the chats not in the removed list. |
| FolderPicker.WithoutAppend | submodules/ChatListUI/Sources/ChatListFilterPresetController.swift:836 | The filter works chat by chat and keeps the order and repetitions of the chats it keeps: filtering a concatenation concatenates the filtered parts. |
| FolderPicker.WithoutOne | submodules/ChatListUI/Sources/ChatListFilterPresetController.swift:836 | A single chat stays exactly when it is not in the removed list. |
| FolderPicker.IncludeSelectionRoundTrip | submodules/ChatListUI/Sources/ChatListFilterPresetController.swift:758-762 | Confirming the include picker's initial type selection gives back the folder's chat types. |
| FolderPicker.ExcludeSelectionRoundTrip | submodules/ChatListUI/Sources/ChatListFilterPresetController.swift:887-896 | Confirming the exclude picker's initial selection gives back the folder's exclusion flags. |
| FolderPicker.AddChatsOutcome | submodules/ChatListUI/Sources/ChatListFilterPresetController.swift:801-858 | A cancelled picker or a missing folder gives no update. Otherwise the result is the include update of the folder. |
| FolderPicker.ExcludeChatsOutcome | submodules/ChatListUI/Sources/ChatListFilterPresetController.swift:908-960 | A cancelled picker or a missing folder gives no update. Otherwise the result is the exclude update of the folder. |
| FolderPicker.AddChatsUpdateFacts | submodules/ChatListUI/Sources/ChatListFilterPresetController.swift:807-853 | The folder's included chats become exactly the picked chats, sorted, and its chat types exactly the picked types. Excluded chats lose every picked chat and keep the rest in their old order (they are the old excluded chats filtered by the new included chats). Id, title, emoticon and flags stay. Included and excluded chats are disjoint. |
| FolderPicker.ExcludeChatsUpdateFacts | submodules/ChatListUI/Sources/ChatListFilterPresetController.swift:914-955 | Each exclusion flag is on exactly when its id was picked. The excluded chats become exactly the picked chats, sorted. Included chats lose every picked chat and keep the rest in their old order (they are the old included chats filtered by the new excluded chats). Chat types, id, title and emoticon stay. Included and excluded chats are disjoint. |
| FolderPicker.AdoptIncludeResult | submodules/ChatListUI/Sources/ChatListFilterPresetController.swift:1201-1207 | Adopting the include picker's folder changes only the editor's included chats, excluded chats and chat types. |
| FolderPicker.AdoptExcludeResult | submodules/ChatListUI/Sources/ChatListFilterPresetController.swift:1223-1231 | Adopting the exclude picker's folder changes only the chat lists, the chat types and the three exclusion flags. |
| FolderPicker.UpdatedAdoptIncludeResult | submodules/ChatListUI/Sources/ChatListFilterPresetController.swift:1201-1207 | Adopted through the name wrapper, the include picker's folder changes the chat lists, the chat types and possibly the name. A name the user typed stays. A settled editor whose chat types the picker kept also keeps its name. |
| FolderPicker.UpdatedAdoptExcludeResult | submodules/ChatListUI/Sources/ChatListFilterPresetController.swift:1223-1231 | Adopted through the name wrapper, the exclude picker's folder changes the chat lists, the chat types, the flags and possibly the name. A name the user typed stays. A settled editor whose chat types and muted and read flags the picker kept also keeps its name. |
| FolderPicker.IncludePickerRoundTrip | submodules/ChatListUI/Sources/ChatListFilterPresetController.swift:1192-1207 | After the editor adopts the include picker's result with the initial type selection kept: the editor's included chats are the picked chats, the types and exclusion flags are unchanged, and the chat lists are disjoint. |
| FolderPicker.ExcludePickerRoundTrip | submodules/ChatListUI/Sources/ChatListFilterPresetController.swift:1214-1232 | After the editor adopts the exclude picker's result: the excluded chats are the picked chats, each flag follows the picked ids, the types are unchanged, and the chat lists are disjoint. |
| FolderPicker.ApplyToFolderList | submodules/ChatListUI/Sources/ChatListFilterPresetController.swift:828-841 | Every folder with the edited folder's id is replaced by the updated folder. Every other folder stays in place, and the length is unchanged. |
| CornerMasks.CornerEquals | TelegramUI/PhotoResources.swift:287-318 | The hand-written equality of corner keys is structural equality. |
| CornerMasks.TailEquals | TelegramUI/PhotoResources.swift:343-360 | The hand-written equality of tail keys is structural equality. |
| CornerMasks.BitOrDisjoint | TelegramUI/PhotoResources.swift:260-271 | Or-ing a value below 2^k with a multiple of 2^k is their sum. |
| CornerMasks.CornerHashInjective | TelegramUI/PhotoResources.swift:257-285 | For radii below 2^24, equal corner hashes mean equal corners. |
| CornerMasks.TailHashInjective | TelegramUI/PhotoResources.swift:320-341 | For radii below 2^24, equal tail hashes mean equal tails. |
| CornerMasks.CornerHashCollision | TelegramUI/PhotoResources.swift:260-271 | A radius of exactly 2^24 gives a different corner with the same hash as radius 0. |
| CornerMasks.CornerMaskShape | TelegramUI/PhotoResources.swift:373-389 | A corner mask is radius by radius and holds only the circle of that radius centred on the corner's vertex. |
| CornerMasks.TailMaskShape | TelegramUI/PhotoResources.swift:410-458 | A tail mask is 3 points wider than its radius and as high as its radius. Its circle has that radius and is centred on the top edge. The bottom-left tail carries the tail polygon, with the circle centred on the right edge. The bottom-right tail carries the mirrored polygon, with the circle centred on the left edge. |
| CornerMasks.TailMasksMirrored | TelegramUI/PhotoResources.swift:430-458 | The two tail masks of one radius are mirror images about the mask's vertical axis. |
| CornerMasks.CornerMaskInjective | TelegramUI/PhotoResources.swift:373-389 | For positive radii, different corner keys draw different masks. |
| CornerMasks.MaskCache.constructor | TelegramUI/PhotoResources.swift:362-363 | Both caches start empty. |
| CornerMasks.MaskCache.CornerContext | TelegramUI/PhotoResources.swift:365-400 | Returns the mask the key draws. A hit leaves the cache unchanged; a miss stores the mask under its key. The tail cache is untouched, and every cached mask is the one its key draws. |
| CornerMasks.MaskCache.TailContext | TelegramUI/PhotoResources.swift:402-468 | The same as `CornerContext`, for tail keys and the tail cache. |
| CornerMasks.DrawingContext.Blt | TelegramUI/PhotoResources.swift:475 | Stamping a mask appends exactly that operation. |
| CornerMasks.DrawingContext.PrepareTail | TelegramUI/PhotoResources.swift:493-498 | Preparing a tail appends the clear and the sampled fill, in that order. |
| CornerMasks.PositionStepsShape | TelegramUI/PhotoResources.swift:473-530 | A position takes a step exactly when its radius exceeds the machine epsilon and, for a top corner, it is a plain corner. The key's case matches the position, and its radius is the truncated radius. The step stamps a tail exactly at an enabled bottom tail. |
| CornerMasks.PositionStepsOffset | TelegramUI/PhotoResources.swift:473-530 | Corner masks sit flush in their corner of the rectangle. The bottom-left tail sits 3 points left of the rectangle and the bottom-right tail at the corner offset. |
| CornerMasks.TailStepPreparation | TelegramUI/PhotoResources.swift:491-499 | An enabled tail first clears a 3-point column beside the image down to 6 points above its bottom, then fills a 3-by-6 block at the bottom with the colour sampled just inside the corner. On the left that block sits at x = 0. |
| CornerMasks.DisabledTailIsPlainCorner | TelegramUI/PhotoResources.swift:500-503 | A disabled tail finishes the image exactly as a plain corner of the same radius does. |
| CornerMasks.TopRightFlushIffWhole | TelegramUI/PhotoResources.swift:478-481 | The top-right mask ends at the rectangle's right edge exactly when the radius is whole. A fractional radius leaves it short by the fraction, since the mask has the truncated width. |
| CornerMasks.FinishPosition | TelegramUI/PhotoResources.swift:473-530 | Finishing one position applies exactly that position's planned operations and caches exactly its keys. |
| CornerMasks.AddCorners | TelegramUI/PhotoResources.swift:470-531 | The image receives exactly the planned operations, in the order top-left, top-right, bottom-left, bottom-right. The caches gain exactly the keys used and stay valid. |
| PhotoSources.RawMessagePhotoDecodesSource | TelegramUI/PhotoResources.swift:533-546 | A raw message photo is the decoding of the chosen source, and nothing when there is none. |
| PhotoSources.RawMessagePhotoNoFallback | TelegramUI/PhotoResources.swift:536-540 | Once the full size is complete, the raw photo never falls back to the thumbnail, even if the full size does not decode. |
| PhotoSources.RawAndAlbumArtDiffer | TelegramUI/PhotoResources.swift:2055-2060 | Album art and the raw photo differ exactly when the full size is complete but undecodable and the thumbnail decodes. Album art then shows the thumbnail, and the raw photo shows nothing. |
| PhotoSources.DistinctKeepsData | TelegramUI/PhotoResources.swift:71-77 | De-duplication passes every value that carries bytes, in order. |
| PhotoSources.DistinctNoRepeatedEmpty | TelegramUI/PhotoResources.swift:71-77 | No two empty values pass in a row. |
| PhotoSources.DistinctFromInput | TelegramUI/PhotoResources.swift:71-77 | Everything passed on was in the input. |
| PhotoSources.DropEmptyFileDatas | TelegramUI/PhotoResources.swift:129 | A value passes exactly when it has a thumbnail or a path. |
| PhotoSources.DropEmptyFileDatasAppend | TelegramUI/PhotoResources.swift:129 | The filter works value by value and keeps the order of what passes: filtering a concatenation concatenates the filtered parts. |
| PhotoSources.DropEmptyFileDatasOne | TelegramUI/PhotoResources.swift:129 | A single value passes exactly when it has a thumbnail or a path. |
| PhotoSources.DropEmptyFileDatasIdempotent | TelegramUI/PhotoResources.swift:129 | Filtering twice is filtering once. |
| PhotoSources.SnapFittedSizeFacts | TelegramUI/PhotoResources.swift:556-562 | Each snapped dimension equals the bounding dimension or is more than a point away from it. It moves by at most a point, and only from within a point. Snapping again changes nothing. |
| DateSuggestion.NatStringValue | submodules/ChatListUI/Sources/DateSuggestion.swift:81 | The decimal rendering of a number reads back as that number. |
| DateSuggestion.DecimalStringRoundTrip | submodules/ChatListUI/Sources/DateSuggestion.swift:78-81 | Parsing the rendering of an integer gives the integer back. |
| DateSuggestion.NameMatchesFacts | submodules/ChatListUI/Sources/DateSuggestion.swift:113 | A query matches a name exactly when it is the short name, or is at least as long as the short name and a prefix of the full name. |
| DateSuggestion.PartsCount | submodules/ChatListUI/Sources/DateSuggestion.swift:94-95 | Splitting gives one part exactly when the separator is empty or absent. A one-character separator gives one part more than the occurrences of its character. There are never more parts than characters plus one. |
| DateSuggestion.OccurrencesZeroIff | submodules/ChatListUI/Sources/DateSuggestion.swift:94 | No cut is counted exactly when the separator is empty or does not occur. |
| DateSuggestion.OccurrencesOfChar | submodules/ChatListUI/Sources/DateSuggestion.swift:94 | A one-character separator is counted once per occurrence of its character. |
| DateSuggestion.ShortQueryNoSuggestions | submodules/ChatListUI/Sources/DateSuggestion.swift:7-10 | A normalised query of fewer than three characters gives no suggestion. |
| DateSuggestion.DigitQueriesSkipNames | submodules/ChatListUI/Sources/DateSuggestion.swift:76-142 | A query with a digit gets only the day words and the numeric part. Any other query gets the day words, weekday names and month names. |
| DateSuggestion.DayWordFacts | submodules/ChatListUI/Sources/DateSuggestion.swift:56-65 | "Today" and then "yesterday" are suggested exactly when the query is a prefix of their lowered names. Both carry titles. |
| DateSuggestion.WeekRunFacts | submodules/ChatListUI/Sources/DateSuggestion.swift:118-126 | A weekday match gives five dates, a week apart, going back from the day's end. Only the date in the current week carries the day's title. |
| DateSuggestion.WeekdayEntryFacts | submodules/ChatListUI/Sources/DateSuggestion.swift:110-128 | A weekday adds five suggestions exactly when its name matches and the calendar finds the last such day. The weekday asked for is the name's key plus the calendar's first weekday. Otherwise it adds none. |
| DateSuggestion.MonthYearsFacts | submodules/ChatListUI/Sources/DateSuggestion.swift:134-139 | The years are strictly descending. They are exactly the years among the last eight whose month-end lies after the release date and not after now. |
| DateSuggestion.MonthEntryFacts | submodules/ChatListUI/Sources/DateSuggestion.swift:130-141 | A month adds at most eight untitled month-ends, only when its name matches. Each lies in the window and falls in one of the last eight years. |
| DateSuggestion.YearQueryFacts | submodules/ChatListUI/Sources/DateSuggestion.swift:78-82 | A four-digit year not after the current year gives one suggestion exactly when that year's end is after the release date. It is titled with the year's number. |
| DateSuggestion.YearLabelIsQuery | submodules/ChatListUI/Sources/DateSuggestion.swift:78-82 | For a year without a leading zero, the suggestion's title is the query itself. |
| DateSuggestion.YearsBackFacts | submodules/ChatListUI/Sources/DateSuggestion.swift:96-100 | The run has at most five dates, each zero to four years before the detected date, and none titled. |
| DateSuggestion.YearsBackComplete | submodules/ChatListUI/Sources/DateSuggestion.swift:96-100 | When the calendar can go back every year, the run holds all five dates in order. |
| DateSuggestion.DetectedPartFacts | submodules/ChatListUI/Sources/DateSuggestion.swift:84-104 | Suggestions come only from a detected date after the release date, and are untitled. Fewer than three separator-parts give up to five yearly dates back from the adjusted date. Otherwise at most the adjusted date is given, and only when it is before now. |
| DateSuggestion.AppendWeekRun | submodules/ChatListUI/Sources/DateSuggestion.swift:118-126 | The loop appends the weekly run. |
| DateSuggestion.AppendWeekdayEntry | submodules/ChatListUI/Sources/DateSuggestion.swift:111-127 | Appends one weekday's suggestions. |
| DateSuggestion.AppendWeekdays | submodules/ChatListUI/Sources/DateSuggestion.swift:110-129 | The loop appends every weekday's suggestions in order. |
| DateSuggestion.AppendMonthYears | submodules/ChatListUI/Sources/DateSuggestion.swift:134-139 | The loop appends the month-ends of the qualifying years, newest first. |
| DateSuggestion.AppendMonthEntry | submodules/ChatListUI/Sources/DateSuggestion.swift:131-140 | Appends one month's suggestions. |
| DateSuggestion.AppendMonths | submodules/ChatListUI/Sources/DateSuggestion.swift:130-141 | The loop appends every month's suggestions in order. |
| DateSuggestion.AppendNumeric | submodules/ChatListUI/Sources/DateSuggestion.swift:77-108 | Appends the year or detected-date suggestions. |
| DateSuggestion.SuggestDates | submodules/ChatListUI/Sources/DateSuggestion.swift:6-145 | `suggestDates` returns exactly the specified suggestions, whose properties are the lemmas above. |

## Left out

- Signals, promises, disposables and the main-queue delivery are not modelled. Each stream is a sequence of values, and each action is a function on the state it sees.
- Image decoding, pre-composition and drawing are not modelled. Decoding is a function parameter, a mask is a value recording its size and shapes, and the image being finished records the operations applied to it.
- `colorAt` is not modelled: the fill records the point the colour is sampled at.
- The `Atomic` wrappers and concurrent access to the mask caches are not modelled.
- Masks are values, so the model does not capture the sharing of one cached mask between images.
- `Int(radius)` is taken as truncation to a natural number. Radii at or above 2^63, which trap in Swift, are not modelled.
- The hash is modelled on unbounded naturals. The bit-or of a radius at or above 2^24 is shown to collide (`CornerHashCollision`), but 64-bit wrap-around is not modelled.
- Dates are whole seconds. The calendar, the date detector, diacritic folding, trimming and lowercasing are function parameters; their own behaviour is outside this model.
- `WeekRunFacts`: the 24·7·i-hour step is taken as exactly one week of seconds. Days that are not 24 hours long are not modelled.
- The weekday and month dictionaries are iterated in an unspecified order. The model takes that order as the sequence the locale supplies, and the category mapping in the include picker likewise as its fixed id order.
- Unicode digit classes and grapheme-cluster counts are not modelled: digits are ASCII and the character count is the sequence length.
- Pinned included chats are not modelled: the included chats are a plain list, and `setPeers` replaces it.
- The localized titles of rows, the premium limit screens and their alerts are not modelled.
- `AllChatsId`: the id the all-chats entry carries comes from the engine's own declaration, which this model does not include. It is taken as 0; the save and apply rules need only that it differs from user folders' ids.
- `ApplyToFolderList` takes the updated folder as a parameter. It is the folder `AddChatsUpdate` returns for `filter`.
- `EditedLinkUpdateFacts`: the URLs stay unique only when a changed link's URL is not already carried by another link in the list. The source does not check the URL the link editor returns, and `EditedLinkCanRepeatUrl` shows a repeat when the editor returns another link's URL.
- `CreatedLinkUpdate` takes `previousLink` as a parameter. It stands for the last link the `linkUpdated` closure saw, which the closure keeps between calls.
- CGFloat coordinates, radii and sizes (`Rect`, `Point`, `UlpOfOne`, `Size`) are exact `real` values. Floating-point rounding is not modelled, so `TopRightFlushIffWhole` and `SnapFittedSizeFacts` hold in exact arithmetic.
- The engine calls that create, fetch and delete links are not modelled. The new folder's id is a parameter of `SaveFilters`.
- `EditorEntriesAscending`: it requires fewer than 780 chats in total. Beyond that, a chat row's index could reach the "show more" row's index of 999, so the rows would no longer be strictly ascending.
- Row stable ids are defined, but collisions between them (the same chat in both sections) are not examined.
- The wait-for-sync step after saving is not modelled. Its filter returns true on every path, so it waits only for the next folder update and then a one-second delay. The model therefore treats saving as complete once the list is written.
