# CNR Game Launcher — a Dafny model of its core

CNR Game Launcher is an Electron desktop application that keeps a library of
locally installed games, groups them in user-made collections, launches them,
and offers a "big picture" full-screen mode driven by keyboard or gamepad.
This project models the parts of it that decide what is stored and what the
user sees:

- the persistent record store (`games`, `collections`, `user.preferences`)
  and the three repositories over it (`GameStore`, `CollectionStore`,
  `UserPreferencesStore`), as classes whose methods update the store in
  place;
- the JSON schema that guards the store, as a recursive validator over a
  JSON datatype, with the encoding of the records into JSON and a decoding
  back;
- the main process's backup export and import, the window-state saving and
  the IPC guards;
- the renderer's store cascades (`lib.ts`): run, add, update and delete of
  games and collections across both repositories;
- the big-picture screen: its focus-index arithmetic, the focus tree, the
  key/button dispatcher, the gamepad edge detection and the game filter;
- the smaller UI state machines: the review reminder and the list updates
  on the home page, pin creation and update in the settings page, the
  startup route, the pin boxes, the select box, the check list, the view
  and theme selectors, and the text helpers.

Clocks, fresh identifiers (`nanoid`), dialogs, the file system and the
operating system's `openExternal` are parameters of the operations that use
them. Every state-changing operation is a `method` on a class whose fields
the source updates; its `ensures` ties the new state to a pure function of
the old one, and the properties the source promises are lemmas about those
functions.

Files: `common.dfy` (Option, trimming, lower-casing, `parseInt`, filtering),
`records.dfy`, `record_store.dfy`, `game_store.dfy`, `collection_store.dfy`,
`preferences_store.dfy`, `cascades.dfy`, `json_schema.dfy`,
`store_schema.dfy`, `store_codec.dfy`, `main_process.dfy`, `ipc.dfy`,
`focus_index.dfy`, `focus_tree.dfy`, `big_picture.dfy`,
`big_picture_props.dfy`, `game_filter.dfy`, `gamepad.dfy`, `home.dfy`,
`settings.dfy`, `login.dfy`, `data_provider.dfy`, `app_context.dfy`,
`pin_box.dfy`, `ui_utils.dfy`, `select_box.dfy`, `check_list.dfy`,
`view_selector.dfy`, `theme_selector.dfy`.

The home page's `filterAndSortGames` (`src/ui/pages/Home.tsx:332-371`) is
the same filter as the big-picture one, and `GameFilter` models both.

## Behaviour kept as written

- Importing a backup replaces the store and only then restores the media
  folder. When the backup has no `uploads` folder and the application's own
  uploads folder already exists, the non-recursive `mkdirSync` at
  `src/electron/main.ts:566-568` throws outside the inner `try`. The import
  then reports "App Data Importing Process Failed" (`main.ts:592-593`) with
  the store already replaced and no restart. The code's own warning at
  `src/electron/main.ts:584-587` calls a missing backup uploads folder a
  skipped media restore, followed by `return restartApp()` at line 590. The
  model follows the code (`MainProcess.ImportFailsAfterCommit`).
  `MainProcess.IntendedImportPlan` is the plan that warning describes, in
  which every commit is followed by a restart
  (`MainProcess.IntendedImportRestartsAfterCommit`). The two plans differ
  exactly in this case (`MainProcess.IntendedDiffersOnlyAfterCommit`).
- When the backup has an uploads folder but the application has none, the
  `fs.stat` of the current folder throws inside the inner `try`. Media
  restore is then skipped with a warning, and the restart still happens.
- Ajv's `nullable` keyword does not widen an `enum`. A stored `theme` or
  `gameViewKind` of `null` is therefore refused by the schema, although both
  are declared nullable.
- Exporting a store that holds no `games` key yet writes a document that the
  import then refuses as `incorrect file`, because `games` is required.
- Moving up from the first row of the big-picture grid wraps to the last
  game, not to the last game in the same column
  (`FocusIndex.UpFromFirstRowWrapsToLast`). Moving down keeps the column.

## Model

| member | source | states |
|---|---|---|
| Common.TrimStart | src/electron/store/GameStore.ts:22 | `trim` drops a leading run of white space (the ECMAScript white space, including every Unicode space separator, and the line terminators): the result is a suffix that starts with a non-space, and what was cut is all space |
| Common.TrimEnd | src/electron/store/GameStore.ts:22 | the trailing half of `trim`: the result is a prefix that ends with a non-space, and what was cut is all space |
| Common.TrimIsInnerPiece | src/electron/store/GameStore.ts:22 | a trimmed name is a contiguous piece of the name |
| Common.TrimHasNoOuterSpace | src/electron/store/GameStore.ts:22 | a trimmed name neither starts nor ends with white space |
| Common.TrimEmptyIffAllSpace | src/electron/store/GameStore.ts:22 | trimming gives the empty string exactly when the name is all white space |
| Common.ToLower | src/electron/store/CollectionStore.ts:24 | lower-casing keeps the length and maps each character on its own (the Latin-1, Latin Extended-A, Greek and Cyrillic capitals to their small letters) |
| Common.ToLowerIdempotent | src/electron/store/CollectionStore.ts:24 | lower-casing twice is lower-casing once |
| Common.Utf16Length | src/electron/store/GameStore.ts:22 | `length` counts UTF-16 code units: between the number of characters and twice that, equal to it exactly for text within the Basic Multilingual Plane and larger otherwise |
| Common.Utf16LengthUpdate | src/ui/pages/Settings.tsx:259-264 | replacing a character by one of the same UTF-16 width keeps the `length` |
| Common.LastIndexOf | src/ui/pages/BigPicture.tsx:317 | the position of the last occurrence of the character, none exactly when it does not occur |
| Common.NatToString | src/ui/pages/BigPicture.tsx:318 | a number's decimal text is a non-empty run of digits |
| Common.LeadingDigits | src/ui/pages/BigPicture.tsx:307 | `parseInt` reads the longest run of digits at the start of the text |
| Common.DigitsValueOfNat | src/ui/pages/BigPicture.tsx:307-318 | the digits of a number read back as that number |
| Common.ParseIntOfNatToString | src/ui/pages/BigPicture.tsx:307-318 | `parseInt` of a number's decimal text is that number |
| Common.NatToStringHasNoDot | src/ui/pages/BigPicture.tsx:317-318 | a number's text has no dot, so a focus index built from it keeps its dot structure |
| Common.FilterMembership | src/electron/store/GameStore.ts:73 | `filter` keeps exactly the elements that pass the test |
| Common.FilterAll | src/electron/store/GameStore.ts:73 | everything `filter` keeps passes the test |
| Common.FilterIsSubsequence | src/electron/store/GameStore.ts:73 | `filter` keeps the order of what it keeps |
| Common.FilterKeepsAll | src/electron/store/GameStore.ts:73 | filtering a list whose elements all pass changes nothing |
| Common.FilterIdempotent | src/electron/store/GameStore.ts:73 | filtering twice with one test is filtering once |
| Common.FilterAppend | src/electron/store/GameStore.ts:73 | filtering a concatenation filters each part |
| Common.FirstWhereIsFirstMatch | src/electron/store/GameStore.ts:18 | `find` returns the earliest element that passes, none exactly when none passes |
| Common.FirstWhereAppend | src/electron/store/GameStore.ts:18 | `find` on a concatenation looks in the second part only when the first has no match |
| RecordStore.Store.constructor | src/electron/main.ts:130-133 | a fresh store holds no games, no collections and no preferences record |
| RecordStore.Store.Clear | src/electron/main.ts:555 | after `store.clear()` every key of the store is absent |
| RecordStore.Store.SetAll | src/electron/main.ts:556 | `store.set(object)` replaces exactly the keys the object carries and leaves the others as they were |
| GameRepository.GameStore.constructor | src/electron/store/GameStore.ts:8-11 | the repository works on the store it is given |
| GameRepository.GameStore.GetGames | src/electron/store/GameStore.ts:13-15 | the stored games list, or the empty list when the key is absent |
| GameRepository.GameStore.GetGame | src/electron/store/GameStore.ts:17-19 | the first stored game with the id; none exactly when no stored game has that id |
| GameRepository.FirstGameWithIdIsFirstMatch | src/electron/store/GameStore.ts:17-19 | `find` returns the earliest game whose id matches, and none only when no id matches |
| GameRepository.NewGame | src/electron/store/GameStore.ts:25-30 | a created game carries the fresh id and the creation time, play count from the data or 0, and every other field copied from the data |
| GameRepository.SuppliedPlayCountWins | src/electron/store/GameStore.ts:25-30 | a play count in the submitted data overrides the default 0 |
| GameRepository.GameStore.CreateGame | src/electron/store/GameStore.ts:21-35 | a name whose trimmed `length` is below 2 UTF-16 code units is refused and the store is untouched; otherwise the new game is put first in the games list and nothing else changes |
| GameRepository.ReplaceGame | src/electron/store/GameStore.ts:37-48 | every game with the updated game's id is replaced by it, every other game stays, the length is kept |
| GameRepository.ReplaceAbsentGameIsNoOp | src/electron/store/GameStore.ts:37-48 | updating a game whose id is not stored leaves the list unchanged |
| GameRepository.GameStore.UpdateGame | src/electron/store/GameStore.ts:37-48 | the games list becomes the replaced list; collections and preferences are unchanged |
| GameRepository.PlayCountIncremented | src/electron/store/GameStore.ts:50-58 | games with the id have their play count raised by one and nothing else changed; other games are untouched |
| GameRepository.GameStore.IncrementPlayCount | src/electron/store/GameStore.ts:50-58 | the store's games become the incremented list; nothing else changes |
| GameRepository.SetLastPlayed | src/electron/store/GameStore.ts:60-68 | games with the id get the given last-played time and nothing else changed; other games are untouched |
| GameRepository.LastPlayedOverwritten | src/electron/store/GameStore.ts:60-68 | a second last-played update overwrites the first: only the later clock value remains |
| GameRepository.GameStore.SetLastPlayedDate | src/electron/store/GameStore.ts:60-68 | the store's games become the updated list; nothing else changes |
| GameRepository.WithoutGameMeaning | src/electron/store/GameStore.ts:70-75 | deleting keeps exactly the games with another id, in their order |
| GameRepository.GameStore.Delete | src/electron/store/GameStore.ts:70-75 | the store's games become the list without the id; nothing else changes |
| GameRepository.SetCollectionIds | src/electron/store/GameStore.ts:77-88 | games with the id get the given collection ids and nothing else changed; other games are untouched |
| GameRepository.GameStore.SetCollections | src/electron/store/GameStore.ts:77-88 | the store's games become the updated list; nothing else changes |
| CollectionRepository.CollectionStore.constructor | src/electron/store/CollectionStore.ts:8-11 | the repository works on the store it is given |
| CollectionRepository.CollectionStore.GetCollections | src/electron/store/CollectionStore.ts:13-15 | the stored collections list, or the empty list when the key is absent |
| CollectionRepository.FirstCollectionWithIdMeaning | src/electron/store/CollectionStore.ts:36-37 | the lookup finds a collection exactly when one with the id is stored, and what it finds has that id |
| CollectionRepository.CollectionStore.CreateCollection | src/electron/store/CollectionStore.ts:17-32 | a name whose trimmed `length` is below 2 UTF-16 code units, or equal to a stored name ignoring case, is refused with the store untouched; otherwise an empty collection with the fresh id is put first |
| CollectionRepository.CaseInsensitiveDuplicateRejected | src/electron/store/CollectionStore.ts:23-27 | once a name is created, a second name equal to it ignoring case is refused |
| CollectionRepository.AddGameMeaning | src/electron/store/CollectionStore.ts:34-44 | adding succeeds exactly when the collection exists; the collection moves to the end with the game id appended once more, the others keep their order |
| CollectionRepository.CollectionStore.AddGame | src/electron/store/CollectionStore.ts:34-44 | a missing collection makes the call fail with the store untouched; otherwise the collections become the added list; games and preferences unchanged |
| CollectionRepository.SetGameIds | src/electron/store/CollectionStore.ts:46-60 | collections with the id get the given game ids, others are untouched, the length is kept |
| CollectionRepository.CollectionStore.SetGames | src/electron/store/CollectionStore.ts:46-60 | the store's collections become the updated list; nothing else changes |
| CollectionRepository.WithoutIdsMeaning | src/electron/store/CollectionStore.ts:62-75 | removing a list of ids keeps exactly the ids not in it, in order |
| CollectionRepository.RemoveGamesMeaning | src/electron/store/CollectionStore.ts:62-75 | removing succeeds exactly when the collection exists; it moves to the end holding exactly its ids not removed, the others keep their order |
| CollectionRepository.CollectionStore.RemoveGamesFromCollection | src/electron/store/CollectionStore.ts:62-75 | a missing collection makes the call fail with the store untouched; otherwise the collections become the reduced list |
| CollectionRepository.MovedLastKeepsIds | src/electron/store/CollectionStore.ts:34-44 | moving an updated collection to the end keeps the set of stored collection ids |
| CollectionRepository.WithoutIdMeaning | src/electron/store/CollectionStore.ts:77-87 | removing one id keeps exactly the other ids, in order, and removing it again changes nothing |
| CollectionRepository.WithoutIdOfAppended | src/ui/lib.ts:24-33 | appending an id and then filtering it out is filtering it out alone |
| CollectionRepository.WithoutGameEverywhere | src/electron/store/CollectionStore.ts:77-87 | every collection keeps its id and name and loses the game id from its list |
| CollectionRepository.WithoutGameEverywhereMeaning | src/electron/store/CollectionStore.ts:77-87 | afterwards no collection lists the game, every other id is still listed, and doing it twice is the same as once |
| CollectionRepository.CollectionStore.RemoveAGameFromAllCollections | src/electron/store/CollectionStore.ts:77-87 | the store's collections become the cleaned list; nothing else changes |
| CollectionRepository.WithoutCollectionMeaning | src/electron/store/CollectionStore.ts:89-94 | deleting keeps exactly the collections with another id, in their order |
| CollectionRepository.CollectionStore.Delete | src/electron/store/CollectionStore.ts:89-94 | the store's collections become the list without the id; nothing else changes |
| PreferencesRepository.UserPreferencesStore.constructor | src/electron/store/UserPreferencesStore.ts:7-10 | the repository works on the store it is given |
| PreferencesRepository.UserPreferencesStore.GetUserPreferences | src/electron/store/UserPreferencesStore.ts:12-14 | the stored preferences record, absent when never written |
| PreferencesRepository.Merge | src/electron/store/UserPreferencesStore.ts:16-21 | a patched key takes the patch's value, a key patched with `undefined` disappears, an unpatched key keeps its stored value or stays absent |
| PreferencesRepository.MergeIntoNothing | src/electron/store/UserPreferencesStore.ts:16-21 | merging into an absent record stores just the patch's defined values |
| PreferencesRepository.MergeIdempotent | src/electron/store/UserPreferencesStore.ts:16-21 | applying the same patch twice is the same as applying it once |
| PreferencesRepository.MergeWellTyped | src/electron/store/UserPreferencesStore.ts:16-21 | a well-typed record patched with well-typed values stays well-typed |
| PreferencesRepository.UserPreferencesStore.SetUserPreferences | src/electron/store/UserPreferencesStore.ts:16-21 | the stored record becomes the merge of the old one and the patch; games and collections unchanged |
| Cascades.UpdateGameStoreAfterGameRun | src/ui/lib.ts:7-10 | after a run the stored game's play count is one higher and its last-played time is the main process's clock value; nothing else changes |
| Cascades.DeleteGameFromStore | src/ui/lib.ts:15-19 | the game is gone from the games list and from every collection's list |
| Cascades.RemoveGameFromCollection | src/ui/lib.ts:24-33 | the collection no longer lists the game and the game no longer lists the collection; all else as the two updates say |
| Cascades.ClearedOneMore | src/ui/lib.ts:38-49 | each loop step gives every game with the visited game's id that game's snapshot ids minus the collection; the games no step has named are as they were, and nothing but collection ids changes |
| Cascades.ClearedAll | src/ui/lib.ts:38-49 | once every snapshot game was visited, each game holds the snapshot ids of the last game with its id, minus the collection |
| Cascades.CollectionClearedMeaning | src/ui/lib.ts:38-49 | after the clearing no game lists the collection, and with distinct game ids each game holds exactly its own ids minus the collection and is otherwise unchanged |
| Cascades.RemoveCollectionFromAllGames | src/ui/lib.ts:38-49 | each game holds the collection ids of the last snapshot game with its id, minus the collection (its own ids when ids are distinct); no game lists the collection, and every game is otherwise as before |
| Cascades.SelectedExtend | src/ui/lib.ts:54-60 | a prefix of the selection one longer selects one more collection id |
| Cascades.AddedCollectionsOrigin | src/electron/store/CollectionStore.ts:34-44 | after adding, each collection is either the target (now holding the game) or an untouched old one |
| Cascades.AddedToStep | src/ui/lib.ts:71-75 | each add step keeps `AddedTo`: the collections selected so far hold the game, the others are as they were, and every collection keeps the id, name and other game ids of one it was |
| Cascades.SameApartAfterAdd | src/electron/store/CollectionStore.ts:34-44 | adding a game changes a collection only by one more entry of that game, so each keeps the id, name and other game ids of one it was |
| Cascades.AddedToExactly | src/ui/lib.ts:65-79 | when the game was in no collection before, afterwards a collection holds it exactly when it was selected |
| Cascades.AddToCollections | src/ui/lib.ts:71-75 | the loop adds the game to every selected collection that exists, leaves the unselected ones as they were, keeps each collection's id, name and other game ids, keeps the set of collection ids, and changes no games or preferences |
| Cascades.AddKeepsIds | src/electron/store/CollectionStore.ts:34-44 | adding a game keeps the set of collection ids |
| Cascades.UpdateGame | src/ui/lib.ts:54-60 | the game record is replaced; afterwards a collection holds the game exactly when it was selected, the set of collection ids is kept, and every collection keeps the id, name and game ids other than this game of one it was |
| Cascades.SameApartFromCleared | src/ui/lib.ts:54-60 | removing the game from every collection first changes nothing in them besides that game's entries |
| Cascades.AddGame | src/ui/lib.ts:65-79 | a name whose trimmed `length` is below 2 UTF-16 code units changes nothing; otherwise the game is stored first, every selected existing collection lists its fresh id, every unselected one is as it was, and each keeps its id, name and other game ids |
| Cascades.DeleteCollection | src/ui/lib.ts:84-87 | the collection is deleted; each game holds the snapshot ids of the last game with its id minus the deleted collection, so no game lists it; games are otherwise unchanged |
| Cascades.RunGame | src/ui/lib.ts:99-103 | a game is launched exactly when it has a path that is not blank and opening that path succeeds |
| Cascades.ExitPatch | src/ui/lib.ts:125-135 | the exit patch sets exactly the side-menu, view-kind and theme keys, each to a defined, well-typed value |
| Cascades.ExitKeepsOtherPreferences | src/ui/lib.ts:125-135 | after the exit save those three keys hold the current values and every other preference is as stored |
| Cascades.SaveUserPreferencesOnExit | src/ui/lib.ts:125-135 | the stored record becomes the merge with the exit patch; games and collections unchanged |
| MainProcess.ExtName | src/electron/main.ts:532 | `path.extname`: empty, or a dot followed by no other dot, taken from the end of the name after its first character |
| MainProcess.ExtNameOfStemAndExtension | src/electron/main.ts:532 | a name made of a stem and a dotted extension has exactly that extension |
| MainProcess.JsonFileNames | src/electron/main.ts:532 | `x.json` and `x.JSON` are backup files, a bare `.json` dot-file is not |
| MainProcess.JsonExtensionLowered | src/electron/main.ts:532 | both spellings of the extension lower-case to `.json` |
| MainProcess.DotFileHasNoExtension | src/electron/main.ts:532 | `.json` alone has no extension |
| MainProcess.BackupFileName | src/electron/main.ts:531-537 | the backup file is the first listed name with a `.json` extension in any case; none exactly when no name has it |
| MainProcess.ReadBackup | src/electron/main.ts:520-540 | the read stops at a cancelled dialog, an unreadable folder or a folder without a JSON file; otherwise it reads the first JSON file in the chosen folder |
| MainProcess.Imported | src/electron/main.ts:552-556 | a document admitted by the schema always carries a games list |
| MainProcess.ImportValidatesBeforeCommit | src/electron/main.ts:544-562 | the store is replaced exactly when the file parsed and the schema admits it, and then by the decoded document |
| MainProcess.PlanByStage | src/electron/main.ts:544-590 | an unparsed file commits nothing, a rejected document answers `incorrect file` and commits nothing, an admitted one commits and goes on to the media step |
| MainProcess.ImportCanceled | src/electron/main.ts:525-527 | the import answers `canceled` exactly when no folder was chosen, and commits nothing then |
| MainProcess.ImportIncorrectFile | src/electron/main.ts:531-562 | `incorrect file` exactly when there is no JSON file, the file is not JSON, or the schema rejects it; never with a commit |
| MainProcess.ImportRestartsOnlyAfterCommit | src/electron/main.ts:564-590 | the app restarts only after the store was replaced, and media is restored only from a backup uploads folder over an existing current one |
| MainProcess.ImportFailsAfterCommit | src/electron/main.ts:564-568 | the import fails after replacing the store exactly when the document was admitted, the backup has no uploads folder and the current one exists |
| MainProcess.IntendedImportRestartsAfterCommit | src/electron/main.ts:583-590 | with a missing backup uploads folder treated as a skipped media restore, the import restarts exactly when it committed, and commits what the code commits |
| MainProcess.IntendedDiffersOnlyAfterCommit | src/electron/main.ts:564-590 | the code and the intended plan differ exactly where the code fails after committing, and there the intended plan restarts without media |
| MainProcess.ImportStoreData | src/electron/main.ts:514-595 | the answer is the planned one and the store is the committed document, or unchanged when nothing was committed |
| MainProcess.ExportPlan | src/electron/main.ts:469-512 | `canceled` exactly when no folder was chosen, `completed` exactly when both the write and the media copy succeed, and what is written is the encoded store at `<folder>/cnr-game-launcher-backup/config.json` |
| MainProcess.ExportStoreData | src/electron/main.ts:469-512 | the export follows the plan for the current store contents and does not change the store |
| MainProcess.ExportThenImportRestores | src/electron/main.ts:469-562 | importing the folder an export wrote commits exactly the exported document, when it has games and well-typed preferences |
| MainProcess.ExportWithoutGamesNotRestorable | src/electron/main.ts:491-497 | a store exported before any game was stored is refused by the import as `incorrect file` |
| MainProcess.WindowPatch | src/electron/main.ts:441-447 | the patch sets bounds, full-screen and maximized; bounds are `undefined` when maximized or full screen; on macOS full screen counts as maximized |
| MainProcess.SavedWindowState | src/electron/main.ts:434-448 | after saving, bounds are stored only for a normal window, full screen is stored, and the other preferences are as before |
| MainProcess.SaveUserPreferences | src/electron/main.ts:434-448 | with a window the record is merged with the window patch, without one nothing changes; games and collections unchanged |
| Ipc.ValidateEventFrame | src/electron/util.ts:30-40 | a frame is accepted when in development it comes from the dev server, or when its URL starts with the UI file URL; a rejection carries `Malicius Event` or `Invalid URL` |
| Ipc.Handle | src/electron/util.ts:9-18 | a rejected frame throws with its message; an accepted one returns the handler's result, or nothing when there is no handler |
| Ipc.On | src/electron/util.ts:20-28 | the handler runs exactly when the frame is accepted |
| Records.KeyOfKeyName | src/electron/main.ts:80-121 | reading a preference key's name gives the key back, and a name read as a key is that key's name |
| Records.KeyOfEachName | src/electron/main.ts:80-121 | each preference key's name reads back as the key |
| Records.KeyNamesReadBack | src/electron/main.ts:80-121 | every preference key's name reads back as the key |
| Records.NameOfEachKey | src/electron/main.ts:80-121 | a name recognised as a key is that key's name |
| JsonSchema.ValidLeaf | src/electron/main.ts:54-62 | a `{type, nullable}` schema admits a value of the type, and `null` only when nullable |
| JsonSchema.ValidEnum | src/electron/main.ts:102-112 | an `enum` schema admits only strings among its values; `nullable` does not widen an `enum` |
| JsonSchema.ValidArrayOf | src/electron/main.ts:34-47 | an array schema admits an array exactly when every item is admitted by the item schema |
| JsonSchema.ValidClosedObject | src/electron/main.ts:36-47 | an object schema with `additionalProperties: false` admits an object that has every required name, no unknown name, and admitted values |
| JsonSchema.ValidClosedObjectByNames | src/electron/main.ts:36-47 | the same, stated as "the required names are present and every name is declared" |
| JsonSchema.ValidClosedObjectOfThree | src/electron/main.ts:30-125 | the three-property, one-required shape of the top-level schema, spelled out |
| JsonSchema.ValidClosedObjectOfThreeRequired | src/electron/main.ts:36-47 | the three-property, all-required shape of the collection schema, spelled out |
| JsonSchema.ValidClosedObjectOfFourRequired | src/electron/main.ts:86-96 | the four-property, all-required shape of the window-bounds schema, spelled out |
| JsonSchema.ClosedObjectRefusesName | src/electron/main.ts:116 | an object carrying an undeclared name is refused |
| JsonSchema.ClosedObjectOfOneName | src/electron/main.ts:83-117 | a one-name object is admitted by a schema without required names exactly when the name is declared and its value admitted |
| StoreSchema.TextListMeaning | src/electron/main.ts:40-43 | an id list is admitted exactly when it is an array of strings |
| StoreSchema.CollectionSchemaMeaning | src/electron/main.ts:35-47 | a collection is admitted exactly when it is an object with exactly `id`, `name` (strings) and `gameIds` (strings) |
| StoreSchema.GameFieldMeaning | src/electron/main.ts:53-67 | each declared game field admits exactly the values its type (and nullability) allows |
| StoreSchema.GameSchemaNames | src/electron/main.ts:53-76 | the game schema declares the ten fields and requires the seven non-path ones |
| StoreSchema.GameFieldsMeaning | src/electron/main.ts:53-67 | a set of game fields is admitted field by field exactly when each declared field is admitted directly |
| StoreSchema.GameSchemaMeaning | src/electron/main.ts:51-78 | a game is admitted exactly when it has the seven required fields, no unknown field, and each field of its type |
| StoreSchema.BoundsSchemaMeaning | src/electron/main.ts:86-96 | window bounds are admitted exactly when they are an object with exactly four numbers `x`, `y`, `width`, `height` |
| StoreSchema.PreferenceSchemaMeaning | src/electron/main.ts:86-114 | each preference name admits exactly the values of its type, `null` for the nullable ones, and only the listed words for theme and view kind |
| StoreSchema.PreferencesSchemaMeaning | src/electron/main.ts:83-117 | a preferences object is admitted exactly when every name in it is a known preference with an admitted value |
| StoreSchema.UserSchemaMeaning | src/electron/main.ts:80-121 | the `user` object is admitted exactly when it holds exactly an admitted `preferences` object |
| StoreSchema.DocumentSchemaMeaning | src/electron/main.ts:30-125 | a whole document is admitted exactly when the direct reading of the schema holds |
| StoreSchema.DocumentNamesValid | src/electron/main.ts:122-124 | a document must carry `games`, may carry `collections` and `user`, and nothing else |
| StoreSchema.GamesListMeaning | src/electron/main.ts:49-79 | the games list is admitted exactly when it is an array of admitted games |
| StoreSchema.CollectionsListMeaning | src/electron/main.ts:33-48 | the collections list is admitted exactly when it is an array of admitted collections |
| StoreSchema.ReviewRemindRefused | src/electron/main.ts:85-116 | a preferences object that carries the review reminder is refused by the schema |
| StoreSchema.NullThemeRefused | src/electron/main.ts:97-106 | a `null` theme is refused while a `null` full-screen flag is admitted |
| StoreCodec.EncodeTextList | src/electron/main.ts:40-43 | an id list encodes as an admitted array of strings |
| StoreCodec.TextListRoundTrip | src/electron/main.ts:40-43 | decoding an encoded id list gives it back |
| StoreCodec.EncodedGameAdmitted | src/electron/main.ts:51-78 | every game record encodes to a JSON game the schema admits |
| StoreCodec.GameFieldFits | src/electron/main.ts:53-67 | each encoded game field is of its declared type |
| StoreCodec.OptionalPathRoundTrip | src/electron/main.ts:56-62 | an absent path is left out of the JSON and reads back as absent; a present one reads back as itself |
| StoreCodec.GameRoundTrip | src/electron/main.ts:51-78 | an encoded game is admitted and decodes to the same game |
| StoreCodec.CollectionRoundTrip | src/electron/main.ts:35-47 | an encoded collection is admitted and decodes to the same collection |
| StoreCodec.AllPrefKeysListed | src/electron/main.ts:85-115 | the list of preference keys is complete |
| StoreCodec.NamesListed | src/electron/main.ts:85-115 | every preference key's name is among the declared names |
| StoreCodec.PrefValueRoundTrip | src/electron/main.ts:86-114 | a value that fits its preference encodes to an admitted value and decodes back to itself |
| StoreCodec.EncodedPreferenceNames | src/electron/main.ts:83-117 | the encoded record has exactly the names of the stored keys, each with its value encoded |
| StoreCodec.EncodedPreferencesAdmitted | src/electron/main.ts:83-117 | a well-typed record encodes to an admitted preferences object |
| StoreCodec.DecodedPreferenceKeys | src/electron/main.ts:83-117 | decoding an encoded well-typed record gives back exactly its keys |
| StoreCodec.DecodedPreferenceValues | src/electron/main.ts:83-117 | decoding an encoded well-typed record gives back each of its values |
| StoreCodec.PreferencesRoundTrip | src/electron/main.ts:83-117 | an encoded well-typed record is admitted and decodes to the same record |
| StoreCodec.GamesRoundTrip | src/electron/main.ts:49-79 | an encoded games list is admitted and decodes to the same list |
| StoreCodec.CollectionsRoundTrip | src/electron/main.ts:33-48 | an encoded collections list is admitted and decodes to the same list |
| StoreCodec.UserObjectAdmitted | src/electron/main.ts:80-121 | a well-typed record wrapped as `user.preferences` is admitted |
| StoreCodec.EncodedDocumentFields | src/electron/main.ts:491-497 | the exported document carries `games`, `collections` and `user` exactly for the keys the store holds, each encoded |
| StoreCodec.EncodedDocumentAdmitted | src/electron/main.ts:491-497 | a store with games and well-typed preferences exports to a document the schema admits |
| StoreCodec.DocumentRoundTrip | src/electron/main.ts:491-556 | such a store exports to an admitted document that decodes to the same store contents |
| StoreCodec.ExportWithoutGamesRefused | src/electron/main.ts:123 | a store without a games key exports to a document the schema refuses |
| FocusIndex.DotAt | src/ui/pages/BigPicture.tsx:317 | the position of the last dot of a dotted focus index |
| FocusIndex.SplitJoin | src/ui/pages/BigPicture.tsx:306-318 | a focus index built as `<prefix>.<n>` splits back into the prefix and `n` |
| FocusIndex.IncreasedFocusIndex | src/ui/pages/BigPicture.tsx:299-319 | an undotted index becomes `<index>.1`; a dotted one keeps its parent and its last part becomes the increased number (wrapping past the length, by column for steps above one) |
| FocusIndex.DecreasedFocusIndex | src/ui/pages/BigPicture.tsx:321-338 | an undotted index becomes `<index>.<length>`; a dotted one keeps its parent and its last part steps back, wrapping below 1 to the length |
| FocusIndex.StepByOne | src/ui/pages/BigPicture.tsx:299-338 | stepping by one stays within 1..length, and a step forward and a step back undo each other |
| FocusIndex.AddModulus | src/ui/pages/BigPicture.tsx:309-315 | adding the step does not change the remainder by the step |
| FocusIndex.DivModUnique | src/ui/pages/BigPicture.tsx:309-315 | the remainder is the unique one of a quotient-remainder split |
| FocusIndex.GridStepKeepsColumn | src/ui/pages/BigPicture.tsx:309-315 | a step of more than one keeps the column (the remainder by the step) and stays within 1..length |
| FocusIndex.WrapToFullColumn | src/ui/pages/BigPicture.tsx:309-312 | wrapping from the last column lands on the step itself, still in the same column |
| FocusIndex.WrapToColumn | src/ui/pages/BigPicture.tsx:309-313 | wrapping from any other column lands on the remainder, the same column of the first row |
| FocusIndex.GridIndexStep | src/ui/pages/BigPicture.tsx:880-882 | moving down in the games grid keeps the parent `1`, the column and the range 1..count |
| FocusIndex.StepBackStaysInRange | src/ui/pages/BigPicture.tsx:321-338 | stepping back always stays within 1..length, and keeps the column while it does not wrap |
| FocusIndex.UpFromFirstRowWrapsToLast | src/ui/pages/BigPicture.tsx:913-915 | moving up from any position of a grid's first row lands on the last game, whatever the column; moving down a row from it, when that row exists, keeps the column |
| FocusTree.FindFocusableIsFirstInPreOrder | src/ui/pages/BigPicture.tsx:340-356 | the search returns the first node in pre-order with the index, none when there is none |
| FocusTree.GetFocusIndexByNameIsFirstInPreOrder | src/ui/pages/BigPicture.tsx:380-396 | the lookup returns the index of the first node in pre-order with the name, and `''` exactly when no node has it |
| FocusTree.GameNodes | src/ui/pages/BigPicture.tsx:105-125 | one focus node per shown game |
| FocusTree.CollectionNodes | src/ui/pages/BigPicture.tsx:144-163 | one focus node per collection with an installed game |
| FocusTree.UiMapPreOrder | src/ui/pages/BigPicture.tsx:86-297 | the screen's focus tree, in pre-order, is main, the games, aside, the collections, then the modals |
| FocusTree.LeavesPreOrder | src/ui/pages/BigPicture.tsx:340-356 | a list of leaves is its own pre-order |
| FocusTree.FindAmongModals | src/ui/pages/BigPicture.tsx:164-297 | an index outside groups 1 and 2 is found among the modals alone |
| FocusTree.IndexTextInjective | src/ui/pages/BigPicture.tsx:107 | two games (or collections) in one group never share an index |
| FocusTree.FirstWithIndex | src/ui/pages/BigPicture.tsx:340-356 | the first node with the index is the one found |
| FocusTree.FindAmongLeaves | src/ui/pages/BigPicture.tsx:340-356 | among leaves, the first with the index is found |
| FocusTree.GameNodeFound | src/ui/pages/BigPicture.tsx:105-125 | index `1.<i+1>` finds the i-th game's node |
| FocusTree.CollectionNodeFound | src/ui/pages/BigPicture.tsx:144-163 | index `2.<i+1>` finds the i-th collection's node |
| FocusTree.NotAmongGames | src/ui/pages/BigPicture.tsx:105-125 | an index outside group 1 is never a game |
| FocusTree.FocusOnGame | src/ui/pages/BigPicture.tsx:727-730 | focus `1.<i+1>` is the i-th shown game, in the whole tree and in the `Main` subtree, and carries that game |
| FocusTree.FocusOnCollection | src/ui/pages/BigPicture.tsx:743-746 | focus `2.<i+1>` is the i-th collection, in the whole tree and in the `Aside` subtree, and carries that collection |
| FocusTree.ModalIndexes | src/ui/pages/BigPicture.tsx:164-297 | every modal node's index starts with 3 to 7 |
| FocusTree.ModalsPreOrder | src/ui/pages/BigPicture.tsx:164-297 | the modals in pre-order are the listed thirteen nodes |
| FocusTree.PreOrderOfFive | src/ui/pages/BigPicture.tsx:164-297 | the pre-order of the five modals flattens the quit and sort options after their parents |
| FocusTree.PreOrderOfLeafThen | src/ui/pages/BigPicture.tsx:232-297 | a leaf followed by a parent flattens as the two and then the parent's children |
| FocusTree.PreOrderFrom | src/ui/pages/BigPicture.tsx:340-356 | pre-order of a suffix is its head, the head's children, then the rest |
| FocusTree.NoGamesNoFirstGame | src/ui/pages/BigPicture.tsx:401-404 | with no shown games, `1.1` finds nothing, which is why the screen refuses to open then |
| FocusTree.ModalIndexesListed | src/ui/pages/BigPicture.tsx:164-297 | the thirteen modal nodes carry the indexes 3, 4, 5, 5.1-5.4, 6, 7, 7.1-7.4 in order |
| FocusTree.ModalIndexesDistinct | src/ui/pages/BigPicture.tsx:164-297 | no two modal nodes share an index |
| FocusTree.ModalFound | src/ui/pages/BigPicture.tsx:164-297 | each modal index finds its own node in the whole tree |
| BigPicture.MenuBranch | src/ui/pages/BigPicture.tsx:575-587 | the Menu branch never touches the game lists (what it does to the focus and the modals is stated by the dispatcher lemmas) |
| BigPicture.BackOnHelpOrGames | src/ui/pages/BigPicture.tsx:592-607 | the help-modal and games cases of Back never touch the game lists |
| BigPicture.BackClosesModal | src/ui/pages/BigPicture.tsx:609-636 | closing a modal or the collections with Back never touches the game lists |
| BigPicture.BackBranch | src/ui/pages/BigPicture.tsx:590-638 | the Escape/B branch never touches the game lists; its effect on games is `BigPictureProperties.BackBranchOnGames` |
| BigPicture.SearchBranch | src/ui/pages/BigPicture.tsx:640-646 | the Space/View branch never touches the game lists |
| BigPicture.SortBranch | src/ui/pages/BigPicture.tsx:649-660 | the Shift/LT branch never touches the game lists |
| BigPicture.ShowAllBranch | src/ui/pages/BigPicture.tsx:663-683 | the a/RB branch changes the filter and the sort but never the game lists themselves |
| BigPicture.MostPlayedBranch | src/ui/pages/BigPicture.tsx:686-702 | the m/Y branch changes the filter but never the game lists; its effect is `BigPictureProperties.MostPlayedAccepted` |
| BigPicture.NewOnesBranch | src/ui/pages/BigPicture.tsx:705-721 | the n/X branch changes the filter but never the game lists |
| BigPicture.CollectionChoice | src/ui/pages/BigPicture.tsx:742-762 | choosing a collection never touches the game lists; its effect is `BigPictureProperties.SelectBranchOnCollection` |
| BigPicture.ModalChoice | src/ui/pages/BigPicture.tsx:763-788 | Enter on the message, help or quit modal never touches the game lists; its effect is `BigPictureProperties.SelectBranchOnQuitModal` |
| BigPicture.SortChoice | src/ui/pages/BigPicture.tsx:809-847 | Enter on a sort option never touches the game lists; its effect is `BigPictureProperties.SelectBranchOnSortModal` |
| BigPicture.SelectBranch | src/ui/pages/BigPicture.tsx:724-848 | the Enter/A branch, with the action it sets off, never touches the game lists |
| BigPicture.ToggleBranch | src/ui/pages/BigPicture.tsx:851-863 | the Tab/LB branch never touches the game lists; its effect is `BigPictureProperties.ToggleBranchOnGames` |
| BigPicture.ArrowBranches | src/ui/pages/BigPicture.tsx:865-959 | the arrow branches move only the focus and never touch the game lists; Down on games is `BigPictureProperties.ArrowBranchesDownOnGames` |
| BigPicture.Dispatch | src/ui/pages/BigPicture.tsx:548-964 | a signal is handled only after the intro; it is accepted exactly when the focused element's key set answers it; a refused signal changes nothing; the game lists are never changed |
| BigPicture.SearchSubmitted | src/ui/pages/BigPicture.tsx:997-1007 | submitting a search returns focus to `1.1` and closes the modal; a blank query keeps the filter, any other sets the trimmed query |
| BigPicture.SearchSubmittedMeaning | src/ui/pages/BigPicture.tsx:997-1007 | a blank query changes no filter; any other makes the trimmed query the active search |
| BigPicture.TrimIdempotentNonBlank | src/ui/pages/BigPicture.tsx:1004 | a non-blank trimmed query trims to itself |
| BigPicture.TrimOfUntrimmed | src/ui/pages/BigPicture.tsx:1012-1013 | text that neither starts nor ends with white space trims to itself |
| BigPicture.ShownRecomputed | src/ui/pages/BigPicture.tsx:442-444 | with games present, only the shown list changes and it becomes the filtered games |
| BigPicture.SearchCleared | src/ui/pages/BigPicture.tsx:450-458 | handling a search without matches never changes the games, the shown list or the sort; the rest is `FailedSearchFallsBack` |
| BigPicture.Refreshed | src/ui/pages/BigPicture.tsx:442-461 | with no games nothing changes; otherwise the shown list is the filtered games |
| BigPicture.FailedSearchFallsBack | src/ui/pages/BigPicture.tsx:442-461 | a search without matches shows an empty list and the message modal, and the next refresh shows the games the filter gives without the query |
| BigPicture.BigPictureScreen.constructor | src/ui/pages/BigPicture.tsx:46-81 | the screen starts at `1.1` with every modal closed, the default filter and alphabetic ascending order |
| BigPicture.BigPictureScreen.HandleInput | src/ui/pages/BigPicture.tsx:548-964 | the screen's new state and the outcome are those of `Dispatch` on the old state |
| BigPicture.BigPictureScreen.ApplyMenu | src/ui/pages/BigPicture.tsx:575-587 | the state becomes that of the menu branch |
| BigPicture.BigPictureScreen.ApplyBack | src/ui/pages/BigPicture.tsx:590-638 | the state becomes that of the back branch |
| BigPicture.BigPictureScreen.ApplyBackOnHelpOrGames | src/ui/pages/BigPicture.tsx:592-607 | the state becomes that of the first two back cases |
| BigPicture.BigPictureScreen.ApplyBackClosesModal | src/ui/pages/BigPicture.tsx:609-637 | the state becomes that of the modal-closing back cases |
| BigPicture.BigPictureScreen.ApplySearchAndSort | src/ui/pages/BigPicture.tsx:640-660 | the state becomes that of the search branch followed by the sort branch |
| BigPicture.BigPictureScreen.ApplyQuickFilters | src/ui/pages/BigPicture.tsx:663-722 | the state becomes that of the three quick-filter branches in order |
| BigPicture.BigPictureScreen.ApplyQuickFilter | src/ui/pages/BigPicture.tsx:663-684 | the state becomes that of one quick filter |
| BigPicture.BigPictureScreen.ApplySelect | src/ui/pages/BigPicture.tsx:724-849 | the state and the action become those of the select branch |
| BigPicture.BigPictureScreen.ApplyCollectionChoice | src/ui/pages/BigPicture.tsx:742-762 | the state becomes that of choosing the focused collection |
| BigPicture.BigPictureScreen.ApplyModalChoice | src/ui/pages/BigPicture.tsx:763-788 | the state becomes that of the modal options |
| BigPicture.BigPictureScreen.ApplySortChoice | src/ui/pages/BigPicture.tsx:809-847 | the state becomes that of the sort options |
| BigPicture.BigPictureScreen.ApplyToggle | src/ui/pages/BigPicture.tsx:851-863 | the state becomes that of the toggle branch |
| BigPicture.BigPictureScreen.ApplyArrows | src/ui/pages/BigPicture.tsx:865-959 | the state becomes that of the arrow branches |
| BigPicture.BigPictureScreen.MoveFocus | src/ui/pages/BigPicture.tsx:604 | only the focus index changes |
| BigPicture.BigPictureScreen.ChooseSort | src/ui/pages/BigPicture.tsx:811-816 | the sort becomes the chosen order with the direction flipped, the modal closes and focus returns to `1.1` |
| BigPicture.BigPictureScreen.HandleGameClick | src/ui/pages/BigPicture.tsx:970-995 | launched exactly as `runGame` says; on launch the message says the game is opening, the store counts the run dated by the main process's clock and both lists count it dated by the renderer's; when the list held what the store held, the list afterwards is the store's with only the run game's last-played time taken from the renderer; otherwise the message reports a bad path and nothing else changes |
| BigPicture.BigPictureScreen.ShowGameRun | src/ui/pages/BigPicture.tsx:1080-1102 | both lists show the run game with play count one higher and last played at the renderer's clock value |
| BigPicture.BigPictureScreen.HandleSearchGame | src/ui/pages/BigPicture.tsx:997-1007 | the state becomes the submitted search |
| BigPicture.BigPictureScreen.SetSearch | src/ui/pages/BigPicture.tsx:1002-1005 | only the filter's query changes |
| BigPicture.BigPictureScreen.RefreshFilteredGames | src/ui/pages/BigPicture.tsx:442-461 | the state becomes the refreshed one |
| BigPicture.BigPictureScreen.ClearFailedSearch | src/ui/pages/BigPicture.tsx:450-458 | the state becomes the one after a failed search |
| BigPictureProperties.MessageModalAnswersOnlyConfirmAndBack | src/ui/pages/BigPicture.tsx:164-171 | on the message modal only Enter/A and Escape/B are answered |
| BigPictureProperties.GroupOfIndex | src/ui/pages/BigPicture.tsx:579 | `startsWith` of one character tests the focus index's group |
| BigPictureProperties.QuietBranches | src/ui/pages/BigPicture.tsx:575-959 | a branch whose signal was not given leaves the state as it is |
| BigPictureProperties.BackOnlyDispatch | src/ui/pages/BigPicture.tsx:590-638 | an accepted Back signal runs only the back branch |
| BigPictureProperties.SelectOnlyDispatch | src/ui/pages/BigPicture.tsx:724-849 | an accepted Enter signal runs only the select branch |
| BigPictureProperties.ToggleOnlyDispatch | src/ui/pages/BigPicture.tsx:851-863 | an accepted Tab signal runs only the toggle branch |
| BigPictureProperties.MostPlayedOnlyDispatch | src/ui/pages/BigPicture.tsx:686-703 | an accepted m/Y signal runs only the most-played branch |
| BigPictureProperties.ArrowsOnlyDispatch | src/ui/pages/BigPicture.tsx:865-959 | an accepted arrow signal runs only the arrow branches |
| BigPictureProperties.BackBranchOnGames | src/ui/pages/BigPicture.tsx:597-607 | Back on games closes the side list and opens the quit modal at `5.1` |
| BigPictureProperties.BackFromGames | src/ui/pages/BigPicture.tsx:590-607 | an answered Back on games is accepted and opens the quit modal |
| BigPictureProperties.BackOnGameOpensQuit | src/ui/pages/BigPicture.tsx:590-607 | Back on any shown game opens the quit modal at `5.1` |
| BigPictureProperties.EnterDispatch | src/ui/pages/BigPicture.tsx:724-849 | an answered Enter runs the select branch and reports its action |
| BigPictureProperties.SelectRunsFocusedGame | src/ui/pages/BigPicture.tsx:726-735 | Enter on a focused game asks to run that game and changes nothing else |
| BigPictureProperties.SelectOnGameRunsIt | src/ui/pages/BigPicture.tsx:726-735 | Enter on the i-th shown game runs exactly that game |
| BigPictureProperties.SelectBranchOnCollection | src/ui/pages/BigPicture.tsx:742-762 | Enter on a collection selects it, filters by it, closes the list and focuses `1.1` |
| BigPictureProperties.SelectFocusedCollection | src/ui/pages/BigPicture.tsx:742-762 | the same, through the dispatcher |
| BigPictureProperties.CollectionFocused | src/ui/pages/BigPicture.tsx:144-163 | focus `2.<i+1>` answers Enter and is the i-th collection |
| BigPictureProperties.CollectionSelectedFilters | src/ui/pages/BigPicture.tsx:750-757 | the collection filter keeps the installed flag, filters by the collection's games and clears search, most-played and new-ones |
| BigPictureProperties.SelectOnCollectionFilters | src/ui/pages/BigPicture.tsx:742-762 | Enter on the i-th collection filters by its games only, with no other quick filter left |
| BigPictureProperties.SelectBranchOnQuitModal | src/ui/pages/BigPicture.tsx:777-808 | the four quit options: cancel, help, back to normal mode, quit |
| BigPictureProperties.QuitModalOptions | src/ui/pages/BigPicture.tsx:777-808 | Enter on `5.1`..`5.4` cancels, opens help, goes home or quits |
| BigPictureProperties.SelectBranchOnSortModal | src/ui/pages/BigPicture.tsx:810-849 | each sort option picks its own order |
| BigPictureProperties.SortOptionFlipsDirection | src/ui/pages/BigPicture.tsx:810-849 | Enter on a sort option sets its order, flips the direction, closes the modal and focuses `1.1` |
| BigPictureProperties.ArrowBranchesDownOnGames | src/ui/pages/BigPicture.tsx:879-882 | Down on games steps the index by a row of four |
| BigPictureProperties.DownIsOnlyDown | src/ui/pages/BigPicture.tsx:865-959 | a Down signal is none of the other arrows |
| BigPictureProperties.DownInGames | src/ui/pages/BigPicture.tsx:866-882 | an answered Down on games moves focus one row down |
| BigPictureProperties.DownOnGame | src/ui/pages/BigPicture.tsx:866-882 | Down on any shown game moves focus one row down |
| BigPictureProperties.GameRowDown | src/ui/pages/BigPicture.tsx:880-882 | one row down from game i stays in group 1, in the same column and within the shown games |
| BigPictureProperties.DownOnGameKeepsColumn | src/ui/pages/BigPicture.tsx:866-882 | Down on a shown game lands on a shown game in the same column |
| BigPictureProperties.ToggleBranchOnGames | src/ui/pages/BigPicture.tsx:851-856 | Tab on games opens the collections at `2.1` when there is one, and otherwise does nothing |
| BigPictureProperties.ToggleFromGames | src/ui/pages/BigPicture.tsx:851-856 | the same, through the dispatcher |
| BigPictureProperties.ToggleOnGame | src/ui/pages/BigPicture.tsx:851-856 | Tab on any shown game opens the collections exactly when there is one |
| BigPictureProperties.NoGamesRefuseEverything | src/ui/pages/BigPicture.tsx:548-572 | with nothing shown at `1.1`, every signal is refused or ignored and nothing changes |
| BigPictureProperties.MostPlayedAccepted | src/ui/pages/BigPicture.tsx:686-703 | m/Y sets the default filter with most-played on and the most-played message |
| BigPictureProperties.MostPlayedShowsPlayedGames | src/ui/pages/BigPicture.tsx:686-703 | after m/Y and a refresh, exactly the games played at least once are shown, with no collection selected |
| GameFilter.Flipped | src/ui/pages/BigPicture.tsx:810-849 | flipping a direction always changes it |
| GameFilter.ActiveQuery | src/ui/pages/BigPicture.tsx:1012-1013 | a search is in force exactly when the query is not blank, and then it is the trimmed query |
| GameFilter.FilterGames | src/ui/pages/BigPicture.tsx:1009-1048 | with no games nothing is computed; otherwise a list is |
| GameFilter.FilterGamesMeaning | src/ui/pages/BigPicture.tsx:1009-1039 | on a non-empty list a game is shown exactly when it passes the first filter in force (a non-blank search by name, case-insensitively; played at least once; new ones, which keep every game; else installed when asked and in the chosen collection), and the list order is kept |
| GameFilter.SearchOverridesOtherFilters | src/ui/pages/BigPicture.tsx:1012-1019 | while a search is in force the other filter settings make no difference |
| GameFilter.CollectionIgnoredUnlessSelected | src/ui/pages/BigPicture.tsx:1036-1038 | with `allGames` at `'ALL_GAMES'` the collection setting makes no difference |
| GameFilter.DefaultShowsInstalled | src/ui/pages/BigPicture.tsx:67-74 | the initial filter shows exactly the installed games |
| Gamepad.StickDirection | src/ui/pages/BigPicture.tsx:523-527 | the stick's direction is the first of left, right, up, down that is moved, and there is none exactly when no cardinal is moved |
| Gamepad.FirstRisingFromMeaning | src/ui/pages/BigPicture.tsx:513-516 | the search finds the first button pressed now but not at the previous poll, and finds none exactly when no button went down |
| Gamepad.Pressed | src/ui/pages/BigPicture.tsx:544 | the remembered flags are each button's `pressed`, one per button |
| Gamepad.ButtonSignal | src/ui/pages/BigPicture.tsx:513-520 | when the stick does not fire, the signal is the press of the first button that went down, and there is no signal exactly when none did |
| Gamepad.HeldButtonDoesNotRefire | src/ui/pages/BigPicture.tsx:513-520 | polling again with the same buttons held finds no new press, so only the stick can signal |
| Gamepad.HeldStickDoesNotRefire | src/ui/pages/BigPicture.tsx:529-537 | after the stick fires in a direction, holding it there never fires again |
| Gamepad.NeutralRearmsStick | src/ui/pages/BigPicture.tsx:539-542 | returning the stick to neutral lets the same direction fire again once 100 ms have passed since the last firing |
| Gamepad.DebouncedPushFiresLater | src/ui/pages/BigPicture.tsx:529-537 | a new direction within 100 ms of the last firing does not fire and is not remembered, so it still fires on a later poll |
| Gamepad.StickFiringsSpaced | src/ui/pages/BigPicture.tsx:529-537 | two stick firings in a row are more than 100 ms apart and in different directions |
| Gamepad.GamepadPoller.constructor | src/ui/pages/BigPicture.tsx:505-507 | the poller starts with no remembered buttons, no stick direction and time 0 |
| Gamepad.GamepadPoller.OnPadChange | src/ui/pages/BigPicture.tsx:509-545 | the new memory and the signal are those of one `Poll` of the old memory |
| Home.OnHomeOpened | src/ui/pages/Home.tsx:91-104 | with no stored reminder one is scheduled a week ahead for the first period; a completed reminder never asks; an open one asks exactly when its date has come |
| Home.OnReviewAnswer | src/ui/pages/Home.tsx:108-134 | a reminder is written exactly for yes, no, mail feedback and not now (or no answer); yes and no complete it now; not now doubles a first period to 2 weeks and otherwise uses 4; mail feedback writes now plus 12 weeks with period 12, not complete; only yes opens the review page and only mail feedback sends mail |
| Home.CompletedReminderStaysQuiet | src/ui/pages/Home.tsx:102 | a completed reminder never asks again |
| Home.AnswerQuietensWindow | src/ui/pages/Home.tsx:104-134 | after any written answer the reminder does not ask again for at least two weeks, and never when completed |
| Home.NotNowBacksOff | src/ui/pages/Home.tsx:96-123 | repeated "not now" goes from a 1-week period to 2 weeks and then stays at 4 |
| Home.AfterGameRun | src/ui/pages/Home.tsx:232-254 | only the run game changes: its play count goes up by one and its last-played date becomes the renderer's clock value |
| Home.AfterGameRunMatchesStore | src/ui/pages/Home.tsx:232-254 | with the store dated by the main process's clock and the page by the renderer's, the page's list is the store's with the run game's last-played time replaced, and equals it exactly when the two clock values agree (when the game is listed) |
| Home.AfterGameRunIsRepositoryUpdates | src/ui/pages/Home.tsx:232-254 | the page's update is the repository's play-count and last-played updates applied at the page's own clock value |
| Home.UiAfterGameRun | src/ui/pages/Home.tsx:252-253 | both the games and the shown games count the run and are dated with the renderer's clock value, as the repository's two updates at that value would give |
| Home.UiAfterGameDelete | src/ui/pages/Home.tsx:259-262 | the deleted game is in neither list, every other game stays, and the order is kept |
| Home.WithoutGameIn | src/ui/pages/Home.tsx:268-277 | only the named collection changes, losing the game from its ids |
| Home.WithoutCollectionIn | src/ui/pages/Home.tsx:287-296 | only the named game changes, losing the collection from its ids |
| Home.UiAfterGameRemoveFromCollection | src/ui/pages/Home.tsx:267-297 | afterwards the collection no longer lists the game and the game no longer lists the collection; only that collection and only that game change (the lists are WithoutGameIn and WithoutCollectionIn of the old ones); a selected collection and the filter lose the game too, and without one the filter is kept |
| Home.RemoveFromCollectionMatchesStore | src/ui/pages/Home.tsx:267-297 | when the screen holds the same records as the store, its update agrees with the store's `removeGamesFromCollection` |
| Home.UiAfterCollectionDelete | src/ui/pages/Home.tsx:302-322 | the collection is gone, the rest keep their order, the games are reloaded, nothing is selected and the filter falls back to all games with no quick filter or search |
| Settings.OnlySpaceIsRefused | src/ui/pages/Settings.tsx:259-264 | in an acceptable PIN, putting any character of the same UTF-16 width in place of one keeps it acceptable exactly when that character is not the space |
| Settings.PinLengthExamples | src/ui/pages/Settings.tsx:259-264 | a tab passes; six and ten digits pass, five and eleven do not |
| Settings.EmojiPinLength | src/ui/pages/Settings.tsx:259-264 | the length is counted in UTF-16 code units: three emoji are a PIN of length six, two are too short |
| Settings.CreatedPinIsAskedAtStartup | src/ui/pages/Settings.tsx:258-278 | an accepted new PIN is stored with PIN login switched on, so the login screen will ask for exactly that PIN |
| Settings.UpdatedPinKeepsTheRest | src/ui/pages/Settings.tsx:291 | updating the PIN changes the stored PIN and no other preference |
| Settings.GroupsExclusive | src/ui/pages/Settings.tsx:60-137 | the create and update forms are never both shown, and one of them is shown exactly when PIN login is on |
| Settings.PinSettings.constructor | src/ui/pages/Settings.tsx:258-300 | the form starts with every field empty and no error or success flag |
| Settings.PinSettings.HandleSavePin | src/ui/pages/Settings.tsx:258-278 | an acceptable PIN (no space, typed twice, a `length` of 6 to 10 UTF-16 code units) clears the error, marks success and merges the PIN with PIN login on into the store; any other sets the error and leaves the store as it was; games, collections and the typed fields never change |
| Settings.PinSettings.HandleSaveNewPin | src/ui/pages/Settings.tsx:281-300 | with the present PIN typed right and an acceptable new PIN, the error is cleared and only the PIN is merged into the store; otherwise the error is set and the store is unchanged |
| Login.Destination | src/ui/pages/Login.tsx:37-43 | the big-picture route is chosen exactly when big-picture mode is set, otherwise home |
| Login.OnStartup | src/ui/pages/Login.tsx:18-35 | the screen keeps loading exactly while preferences are being fetched; then it shows the splash and the PIN box exactly when PIN login is on with a PIN, and otherwise goes to the chosen route |
| Login.StartupFollowsStoredRecord | src/ui/pages/Login.tsx:18-35 | after the stored record is fetched, the startup step is the PIN box exactly when that record sets up PIN login, and otherwise the route its big-picture flag names |
| Login.HalfSetUpPinIsSkipped | src/ui/pages/Login.tsx:20-23 | a record without PIN login, without a PIN or with an empty PIN goes straight to a route |
| DataProvider.CollectionsWithInstalledGamesMeaning | src/ui/providers/DataProvider.tsx:39-47 | a collection is kept exactly when one of its game ids belongs to an installed game, and the collections keep their order |
| DataProvider.OnlyInstalledGamesMatter | src/ui/providers/DataProvider.tsx:39-47 | two game lists with the same installed games keep the same collections |
| AppContext.Fetched | src/ui/providers/AppContextProvider.tsx:49-67 | fetching always ends, and with no stored record nothing else changes |
| AppContext.FetchedSettings | src/ui/providers/AppContextProvider.tsx:53-64 | with a stored record, each of the eight settings is the record's value when it is set and the default otherwise: system theme, card view, and off for fullscreen, side menu collapsed, big picture, start on boot, only installed games and PIN login; the record is kept |
| AppContext.EmptyRecordMeansDefaults | src/ui/providers/AppContextProvider.tsx:53-64 | an empty stored record gives the same settings as no record at all |
| AppContext.AppContextProvider.constructor | src/ui/providers/AppContextProvider.tsx:31-42 | the context starts fetching, with no record, system theme, card view and every flag off |
| AppContext.AppContextProvider.OnPreferencesFetched | src/ui/providers/AppContextProvider.tsx:49-67 | the new context is `Fetched` of the old one and the stored record |
| PinBox.Characters | src/ui/components/PinBox.tsx:23 | splitting a PIN gives one single-character string per character, in order |
| PinBox.Loaded | src/ui/components/PinBox.tsx:19-29 | a stored non-empty PIN sets the expected characters and an all-empty input of the same length; without one the box is unchanged |
| PinBox.Changed | src/ui/components/PinBox.tsx:50-66 | an empty change does nothing; otherwise the box's character is recorded and the box disabled, and only the last box changes the verdict |
| PinBox.VerdictShown | src/ui/components/PinBox.tsx:31-33 | once a verdict is in, every box is disabled; while checking nothing changes |
| PinBox.JoinOfSingles | src/ui/components/PinBox.tsx:60 | joining n single characters with commas gives 2n - 1 characters |
| PinBox.JoinOfShort | src/ui/components/PinBox.tsx:60 | joining n entries of at most one character gives at most 2n - 1 characters |
| PinBox.JoinEqualIffSame | src/ui/components/PinBox.tsx:59-64 | comparing the comma-joined typed and expected characters is the same as comparing them box by box |
| PinBox.ChangedKeepsWellFormed | src/ui/components/PinBox.tsx:50-66 | typing one character keeps the box well formed |
| PinBox.LastBoxVerdict | src/ui/components/PinBox.tsx:59-64 | typing into the last box gives the verdict "right" exactly when every box holds the PIN's character |
| PinBox.RightPinLogsIn | src/ui/components/PinBox.tsx:19-66 | typing one character per box through the change handler, first box to last, into the pad armed from the stored record fills every box with what was typed, disables the boxes in order, and logs in exactly when the typed characters are the stored PIN's |
| PinBox.TypedInOrderMeaning | src/ui/components/PinBox.tsx:50-66 | after the first k boxes are typed they hold the typed characters, the rest are as they were, the k boxes are disabled in order and no verdict is given before the last box |
| PinBox.TypedAllBoxes | src/ui/components/PinBox.tsx:31-66 | on any armed pad, typing every box gives the verdict right exactly when the typed characters are the PIN's, and only then a login |
| PinBox.WrongPinDoesNotLogIn | src/ui/components/PinBox.tsx:31-66 | a wrong character in any box gives the verdict "wrong" and no login |
| PinBox.RetypedLastBoxAfterNearMiss | src/ui/components/PinBox.tsx:9-66 | after a miss in the last box only, the boxes are enabled again and retyping that box alone gives "right", because the typed characters persist |
| PinBox.PinPad.constructor | src/ui/components/PinBox.tsx:9-17 | the box starts with no PIN, no input, nothing disabled, checking |
| PinBox.PinPad.OnPreferencesLoaded | src/ui/components/PinBox.tsx:19-29 | the state becomes `Loaded`; a new input array is made exactly when a PIN is stored |
| PinBox.PinPad.HandleOnChange | src/ui/components/PinBox.tsx:50-66 | the input array is updated in place and the state becomes `Changed` |
| PinBox.PinPad.OnVerdict | src/ui/components/PinBox.tsx:31-33 | the state becomes `VerdictShown` |
| PinBox.PinPad.OnAnimationDone | src/ui/components/PinBox.tsx:38-46 | login exactly on the verdict "right"; the box goes back to checking with nothing disabled |
| UiUtils.ClampText | src/ui/utils/index.ts:12-18 | text within the limit is kept; longer text keeps its first `limit` characters followed by `...` |
| UiUtils.ClampBounds | src/ui/utils/index.ts:12-18 | the result is at most three characters over the limit and starts with the kept prefix of the text |
| UiUtils.ClampIdempotent | src/ui/utils/index.ts:12-18 | clamping a clamped text changes nothing more |
| UiUtils.Pad2 | src/ui/utils/index.ts:5-6 | the padded number is exactly two digits |
| UiUtils.Pad2Digits | src/ui/utils/index.ts:5-6 | the two digits read back as the number's last two decimal digits |
| UiUtils.FormatDate | src/ui/utils/index.ts:3-10 | the text is six characters longer than the year's digits |
| UiUtils.FormatDateReadsBack | src/ui/utils/index.ts:3-10 | for a real day and month the text is `dd.mm.yyyy` and the day, month and year read back from it |
| UiUtils.DottedReadsBack | src/ui/utils/index.ts:9 | two two-digit parts and a year joined with dots split back into the same parts |
| SelectBox.RenderedOption | src/ui/form_elements/SelectBox.tsx:186 | an option is shown as the selected choice when their values match, and as itself otherwise |
| SelectBox.Chosen | src/ui/form_elements/SelectBox.tsx:141-147 | the chosen option keeps its caption and value; its direction flips exactly when it is the selected one |
| SelectBox.ClickMeaning | src/ui/form_elements/SelectBox.tsx:141-152 | clicking another option selects it as it is; clicking the selected one flips its direction |
| SelectBox.TwoClicksRestore | src/ui/form_elements/SelectBox.tsx:141-152 | clicking the selected option twice restores the selection |
| SelectBox.SecondClickReverses | src/ui/form_elements/SelectBox.tsx:141-152 | clicking a new option twice selects it with its direction reversed |
| SelectBox.SelectBoxState.constructor | src/ui/form_elements/SelectBox.tsx:141-152 | the box starts on the default option |
| SelectBox.SelectBoxState.HandleOptionClick | src/ui/form_elements/SelectBox.tsx:141-152 | the selection becomes the chosen option and that option is what `onChange` receives |
| SelectBox.SelectBoxState.ClickEntry | src/ui/form_elements/SelectBox.tsx:182-190 | clicking the i-th listed option acts as a click on what it renders as |
| CheckList.CaptionTotal | src/ui/form_elements/CheckList.tsx:40 | any two captions are ordered one way or the other |
| CheckList.Insert | src/ui/form_elements/CheckList.tsx:40 | inserting into a caption-sorted list keeps it sorted and adds exactly the item |
| CheckList.SortByCaption | src/ui/form_elements/CheckList.tsx:39-41 | the list is put in caption order and keeps exactly its items |
| CheckList.Added | src/ui/form_elements/CheckList.tsx:47-62 | a blank caption adds nothing; any other is appended as a ticked item with no value and the rest of the list stays |
| CheckList.Toggled | src/ui/form_elements/CheckList.tsx:92-98 | only the toggled item changes, and only in its tick |
| CheckList.ToggleBack | src/ui/form_elements/CheckList.tsx:92-98 | toggling back restores the list, and a second toggle of the same item overrides the first |
| CheckList.AddedIsTicked | src/ui/form_elements/CheckList.tsx:47-62 | adding an item ticks exactly its caption in addition |
| CheckList.TickedAfterToggle | src/ui/form_elements/CheckList.tsx:92-98 | ticking an item adds exactly its caption to the ticked ones |
| CheckList.CheckListBox.constructor | src/ui/form_elements/CheckList.tsx:36-37 | the box starts with the given list and an empty caption |
| CheckList.CheckListBox.OnListChanged | src/ui/form_elements/CheckList.tsx:39-41 | the list becomes the sorted new list and the caption is kept |
| CheckList.CheckListBox.HandleNewItemInput | src/ui/form_elements/CheckList.tsx:43-45 | only the caption changes |
| CheckList.CheckListBox.HandleAddItemClick | src/ui/form_elements/CheckList.tsx:47-62 | the emitted list is `Added`; when it exists it becomes the list and the caption is cleared, and otherwise nothing changes |
| CheckList.CheckListBox.HandleToggle | src/ui/form_elements/CheckList.tsx:92-98 | the list becomes `Toggled` and is emitted; the caption is kept |
| ViewSelector.Next | src/ui/components/ViewSelector.tsx:23-31 | list goes to icon, icon to card, and anything else to list |
| ViewSelector.ThreeClicksReturn | src/ui/components/ViewSelector.tsx:22-35 | three clicks return to the starting view, through two different ones |
| ViewSelector.EveryViewReachable | src/ui/components/ViewSelector.tsx:22-35 | every view is at most two clicks away |
| ViewSelector.ViewSelectorState.constructor | src/ui/components/ViewSelector.tsx:12-15 | the selector starts on the given view, or on card when none is given |
| ViewSelector.ViewSelectorState.HandleClick | src/ui/components/ViewSelector.tsx:22-35 | the view advances once and the new view is what `onChange` receives |
| ThemeSelector.NextTheme | src/ui/components/ThemeSelector.tsx:10-16 | the toggle never targets the system theme, and targets dark exactly from light |
| ThemeSelector.ToggleTwice | src/ui/components/ThemeSelector.tsx:10-16 | on light and dark, toggling twice returns; from the system theme it goes to light, then dark |
| ThemeSelector.Offered | src/ui/components/ThemeSelector.tsx:45-100 | two choices are offered, the second being the system theme |
| ThemeSelector.OfferedLeavesTheShownTheme | src/ui/components/ThemeSelector.tsx:45-79 | with light or dark shown, the toggle offers the other of the two and never the shown theme |

## Left out

- Rendering, styling, animations, sounds, portals and routing are not modelled. A navigation is an `Action`/`Route` value, and an animation's end is a separate method (`PinBox.PinPad.OnAnimationDone`).
- Timers are not modelled: the 100 ms keyboard throttle in the big-picture screen, the 1 s message auto-close, the splash delay and the focus `setTimeout`s. The stick's 100 ms debounce is kept, with the time as a `now` parameter.
- The order produced by `localeCompare` is not modelled. `sortGames` and the sort in `fetchGames` are out; the game filter states which games are shown and that their original order is kept, not the final sorted order.
- CheckList.SortByCaption: orders captions by Unicode scalar value (code point) instead of `localeCompare`, and proves only sorted order and permutation.
- Common.ToLower: lower-cases the Latin-1, Latin Extended-A, Greek and Cyrillic capitals one for one and keeps every other character. The other scripts' capitals, mappings that change the length (`İ`), the context-dependent final sigma and the locale of `toLocaleLowerCase` are not modelled.
- Common.ToLowerIdempotent: holds for the lower-casing above, not for the whole Unicode mapping.
- CollectionRepository.CollectionStore.CreateCollection: the duplicate-name test ignores case through `Common.ToLower`, so capitals of other scripts still tell two names apart here.
- CollectionRepository.CaseInsensitiveDuplicateRejected: covers case differences that `Common.ToLower` folds, not every Unicode case difference.
- GameFilter.FilterGames: the search ignores case through `Common.ToLower`, so a query differing only in the case of another script's letters misses here.
- GameFilter.FilterGamesMeaning: the same case-folding limit as `GameFilter.FilterGames`.
- UiUtils.ClampText: counts and keeps characters, not UTF-16 code units. A cut inside a surrogate pair yields a lone surrogate, which a Dafny string cannot hold, so text beyond the Basic Multilingual Plane is clamped by characters.
- StoreCodec.DecodeGame: reads a stored `null` path as an absent one, so a game whose path was `null` is exported again without that key. The `Game` record has no separate `null`.
- SelectBox.Clicked: option values are text or numbers; the `readonly string[]` variant of the value type is not modelled.
- Gamepad.StickDirection: takes the four cardinal "moved" tests as booleans. The floating-point dead zone, `sqrt` and `atan2` of `useGamepad.ts` and its `requestAnimationFrame` loop are not modelled.
- `JSON.parse`, `JSON.stringify` and the Ajv engine are not modelled. A parse result is an input; the schema is modelled directly over a JSON datatype.
- JSON numbers are integers here. Fractional numbers (such as window bounds) are outside the model.
- UiUtils.FormatDate: takes the UTC day, month index and year as numbers; parsing the `Date` is left out.
- The file system, dialogs, relaunch and quit, window control, login-item settings and `openExternal` are inputs or results of the modelled decisions. Copying files is not modelled.
- `nanoid` and the clocks are parameters, and nothing checks that ids are unique, as in the source. Each `Date.now()` read is its own parameter: after a run the store's last-played time (main process) and the screen's (renderer) are separate values.
- IPC is taken to deliver calls in the order `lib.ts` makes them. Asynchrony and interleaving are not modelled.
- `findFocusableByName` (`src/ui/pages/BigPicture.tsx:358-378`) has no caller and is not modelled.
- The other IPC handlers, icon saving and deletion, and the Windows start-up option are not part of this model.
- CheckList.CheckListBox.HandleToggle: the source mutates the copied list's item objects, which are shared with the caller's list. The model replaces the item, so this aliasing is not captured.
- BigPicture.MenuBranch: its own contract states only that the game lists are untouched; the branch's effect is proved through `Dispatch` in `BigPictureProperties`.
- BigPicture.BackOnHelpOrGames: its own contract states only that the game lists are untouched; `BigPictureProperties.BackBranchOnGames` states its effect on games.
- BigPicture.BackClosesModal: its own contract states only that the game lists are untouched.
- BigPicture.BackBranch: its own contract states only that the game lists are untouched; its effect is `BigPictureProperties.BackBranchOnGames`.
- BigPicture.SearchBranch: its own contract states only that the game lists are untouched.
- BigPicture.SortBranch: its own contract states only that the game lists are untouched.
- BigPicture.ShowAllBranch: its own contract states only that the game lists are untouched.
- BigPicture.MostPlayedBranch: its own contract states only that the game lists are untouched; its effect is `BigPictureProperties.MostPlayedAccepted`.
- BigPicture.NewOnesBranch: its own contract states only that the game lists are untouched.
- BigPicture.CollectionChoice: its own contract states only that the game lists are untouched; its effect is `BigPictureProperties.SelectBranchOnCollection`.
- BigPicture.ModalChoice: its own contract states only that the game lists are untouched; its effect is `BigPictureProperties.SelectBranchOnQuitModal`.
- BigPicture.SortChoice: its own contract states only that the game lists are untouched; its effect is `BigPictureProperties.SelectBranchOnSortModal`.
- BigPicture.SelectBranch: its own contract states only that the game lists are untouched.
- BigPicture.ToggleBranch: its own contract states only that the game lists are untouched; its effect is `BigPictureProperties.ToggleBranchOnGames`.
- BigPicture.ArrowBranches: its own contract states only that the game lists are untouched; Down on games is `BigPictureProperties.ArrowBranchesDownOnGames`.
- BigPicture.SearchCleared: its own contract states only that the lists and the sort are untouched; the failed-search behaviour is `BigPicture.FailedSearchFallsBack`.
