// The main process's backup flows and the window state it saves on quit.
// Dialogs, directory listings, file reads and `JSON.parse` are inputs of the
// model; what each flow decides, and what it does to the store, is modelled.
module MainProcess {
  import opened Common
  import opened Json
  import opened Records
  import opened RecordStore
  import opened JsonSchema
  import opened StoreSchema
  import opened StoreCodec
  import opened PreferencesRepository

  const BackupDirName := "cnr-game-launcher-backup"
  const ConfigFileName := "config.json"
  const UploadsFolderName := "uploads"

  /** `path.join(a, b)` for a directory and a plain file name. */
  function JoinPath(dir: string, name: string): string {
    dir + "/" + name
  }

  // ---------------------------------------------------------------------
  // Choosing the backup file

  /**
   * Node's `path.extname` for a base name: from the last dot to the end, or
   * "" when there is no dot, when the only dot starts the name, or for "..".
   */
  function ExtName(name: string): (r: string)
    ensures r == "" || (r[0] == '.' && forall i :: 0 < i < |r| ==> r[i] != '.')
    ensures r != "" ==> exists p :: 0 < p < |name| && name[p..] == r
  {
    match LastIndexOf(name, '.')
    case None => ""
    case Some(p) => if p == 0 || name == ".." then "" else name[p..]
  }

  predicate IsJsonFile(name: string) {
    ToLower(ExtName(name)) == ".json"
  }

  /** `files.find(...)`: the first listed name whose extension is `.json` in any case. */
  function BackupFileName(files: seq<string>): (r: Option<string>)
    ensures r.None? <==> forall i | 0 <= i < |files| :: !IsJsonFile(files[i])
    ensures r.Some? ==> exists i | 0 <= i < |files| ::
      (files[i] == r.value && IsJsonFile(files[i]) && forall j | 0 <= j < i :: !IsJsonFile(files[j]))
  {
    FirstWhereIsFirstMatch(files, IsJsonFile);
    FirstWhere(files, IsJsonFile)
  }

  /** A name made of a non-empty stem and a dotted extension without further dots has that extension. */
  lemma ExtNameOfStemAndExtension(stem: string, ext: string)
    requires stem != "" && stem != "."
    requires ext != "" && ext[0] == '.' && forall i :: 0 < i < |ext| ==> ext[i] != '.'
    ensures ExtName(stem + ext) == ext
  {
    var name := stem + ext;
    assert name[|stem|] == '.';
    forall i | |stem| < i < |name| ensures name[i] != '.' {
      assert name[i] == ext[i - |stem|];
    }
    assert LastIndexOf(name, '.') == Some(|stem|);
    assert name[|stem|..] == ext;
  }

  /** Such as "config.json" or "Backup.JSON", but not ".json". */
  lemma JsonFileNames(stem: string)
    requires stem != "" && stem != "."
    ensures IsJsonFile(stem + ".json") && IsJsonFile(stem + ".JSON")
    ensures !IsJsonFile(".json")
  {
    ExtNameOfStemAndExtension(stem, ".json");
    ExtNameOfStemAndExtension(stem, ".JSON");
    JsonExtensionLowered();
    DotFileHasNoExtension();
  }

  lemma JsonExtensionLowered()
    ensures ToLower(".json") == ".json" && ToLower(".JSON") == ".json"
  {
    assert forall i | 0 <= i < 5 :: LowerChar(".json"[i]) == ".json"[i];
    assert forall i | 0 <= i < 5 :: LowerChar(".JSON"[i]) == ".json"[i];
  }

  lemma DotFileHasNoExtension()
    ensures ExtName(".json") == ""
  {
    assert ".json"[0] == '.';
    assert LastIndexOf(".json", '.') == Some(0);
  }

  // ---------------------------------------------------------------------
  // Import

  datatype DialogResult = DialogResult(canceled: bool, filePaths: seq<string>)

  /** The dialog gave a path: it was not canceled and returned at least one. */
  predicate Chosen(d: DialogResult) {
    !d.canceled && |d.filePaths| > 0
  }

  /** Reading a file and parsing it as JSON text. */
  datatype ReadResult = ReadFailed | SyntaxError | Parsed(json: Json)

  /** What `fs.stat` finds at a path. */
  datatype Entry = Missing | NotADirectory | Directory

  /**
   * The world the import meets: the folder dialog, the directory listing,
   * the content of each file, whether the backup holds an `uploads` entry,
   * whether the current uploads folder exists, and whether removing and
   * copying the media folder succeeds.
   */
  datatype ImportInputs = ImportInputs(
    dialog: DialogResult,
    listDir: string -> Option<seq<string>>,
    readFile: string -> ReadResult,
    backupUploads: Entry,
    currentUploadsExists: bool,
    mediaCopyOk: bool)

  /**
   * `'canceled'`, `'incorrect file'`, the relaunch (with or without the media
   * folder restored), or the thrown 'App Data Importing Process Failed'.
   */
  datatype ImportResult = Canceled | IncorrectFile | Restarted(mediaRestored: bool) | ImportFailed

  /** The result, and the document the store was replaced with, if any. */
  datatype ImportOutcome = ImportOutcome(result: ImportResult, commit: Option<Document>)

  /** The store content an admitted document is written as. */
  function Imported(j: Json): (d: Document)
    requires Valid(DocumentSchema, j)
    ensures d.games.Some?
  {
    DocumentSchemaMeaning(j);
    DecodeDocument(j)
  }

  /**
   * The media step, after the store was replaced. A backup without an
   * uploads entry makes the code create the current uploads folder with a
   * non-recursive `mkdirSync`, which throws when that folder exists; any
   * failure of `stat`, `rm`, `mkdir` or the copy only skips the media.
   */
  function MediaStep(inp: ImportInputs): ImportResult {
    if inp.backupUploads.Missing? && inp.currentUploadsExists then ImportFailed
    else Restarted(inp.backupUploads.Directory? && inp.currentUploadsExists && inp.mediaCopyOk)
  }

  /** How far `importStoreData` gets before it parses: the dialog, the listing, the choice of file and the read. */
  datatype BackupRead = NotChosen | ListFailed | NoJsonFile | FileRead(content: ReadResult)

  function ReadBackup(inp: ImportInputs): (r: BackupRead)
    ensures r == NotChosen <==> !Chosen(inp.dialog)
    ensures r == ListFailed <==> Chosen(inp.dialog) && inp.listDir(inp.dialog.filePaths[0]).None?
    ensures r == NoJsonFile <==>
      Chosen(inp.dialog) && inp.listDir(inp.dialog.filePaths[0]).Some?
      && BackupFileName(inp.listDir(inp.dialog.filePaths[0]).value).None?
    ensures r.FileRead? ==>
      var dir := inp.dialog.filePaths[0];
      Chosen(inp.dialog) && inp.listDir(dir).Some? && BackupFileName(inp.listDir(dir).value).Some?
      && r.content == inp.readFile(JoinPath(dir, BackupFileName(inp.listDir(dir).value).value))
  {
    if !Chosen(inp.dialog) then NotChosen
    else
      var dir := inp.dialog.filePaths[0];
      match inp.listDir(dir)
      case None => ListFailed
      case Some(files) =>
        match BackupFileName(files)
        case None => NoJsonFile
        case Some(name) => FileRead(inp.readFile(JoinPath(dir, name)))
  }

  /** The decisions of `importStoreData`, step by step. */
  function ImportPlan(inp: ImportInputs): ImportOutcome {
    match ReadBackup(inp)
    case NotChosen => ImportOutcome(Canceled, None)
    case ListFailed => ImportOutcome(ImportFailed, None)
    case NoJsonFile => ImportOutcome(IncorrectFile, None)
    case FileRead(ReadFailed) => ImportOutcome(ImportFailed, None)
    case FileRead(SyntaxError) => ImportOutcome(IncorrectFile, None)
    case FileRead(Parsed(j)) =>
      if Valid(DocumentSchema, j) then ImportOutcome(MediaStep(inp), Some(Imported(j)))
      else ImportOutcome(IncorrectFile, None)
  }

  /** The document parsed from the chosen backup file, when the import gets that far. */
  function ParsedBackup(inp: ImportInputs): Option<Json> {
    var r := ReadBackup(inp);
    if r.FileRead? && r.content.Parsed? then Some(r.content.json) else None
  }

  /** The store is replaced exactly when the chosen file parses to a document the schema admits, and then by that document. */
  lemma ImportValidatesBeforeCommit(inp: ImportInputs)
    ensures ImportPlan(inp).commit.Some? <==> ParsedBackup(inp).Some? && Valid(DocumentSchema, ParsedBackup(inp).value)
    ensures ImportPlan(inp).commit.Some? ==> ImportPlan(inp).commit == Some(Imported(ParsedBackup(inp).value))
  {
    PlanByStage(inp);
  }

  /** `ImportPlan` stage by stage. */
  lemma PlanByStage(inp: ImportInputs)
    ensures ParsedBackup(inp).None? ==> ImportPlan(inp).commit.None?
    ensures ParsedBackup(inp).Some? && !Valid(DocumentSchema, ParsedBackup(inp).value) ==>
      ImportPlan(inp) == ImportOutcome(IncorrectFile, None)
    ensures ParsedBackup(inp).Some? && Valid(DocumentSchema, ParsedBackup(inp).value) ==>
      ImportPlan(inp) == ImportOutcome(MediaStep(inp), Some(Imported(ParsedBackup(inp).value)))
  {
    match ReadBackup(inp)
    case FileRead(Parsed(j)) =>
    case FileRead(ReadFailed) =>
    case FileRead(SyntaxError) =>
    case NotChosen =>
    case ListFailed =>
    case NoJsonFile =>
  }

  /** A canceled or empty dialog returns 'canceled' and touches nothing. */
  lemma ImportCanceled(inp: ImportInputs)
    ensures ImportPlan(inp).result == Canceled <==> !Chosen(inp.dialog)
    ensures ImportPlan(inp).result == Canceled ==> ImportPlan(inp).commit.None?
  {
  }

  /** 'incorrect file': no `.json` file, a syntax error, or a schema failure; the store is untouched. */
  lemma ImportIncorrectFile(inp: ImportInputs)
    ensures ImportPlan(inp).result == IncorrectFile ==> ImportPlan(inp).commit.None?
    ensures ImportPlan(inp).result == IncorrectFile <==>
      ReadBackup(inp) == NoJsonFile || ReadBackup(inp) == FileRead(SyntaxError)
      || (ParsedBackup(inp).Some? && !Valid(DocumentSchema, ParsedBackup(inp).value))
  {
    PlanByStage(inp);
  }

  /** A relaunch always follows a commit; the media is restored only from an uploads directory in the backup. */
  lemma ImportRestartsOnlyAfterCommit(inp: ImportInputs)
    ensures ImportPlan(inp).result.Restarted? ==> ImportPlan(inp).commit.Some?
    ensures ImportPlan(inp).result == Restarted(true) ==>
      inp.backupUploads == Directory && inp.currentUploadsExists
  {
  }

  /** The import fails after the store was already replaced exactly when the backup has no uploads while the current uploads folder exists. */
  lemma ImportFailsAfterCommit(inp: ImportInputs)
    ensures ImportPlan(inp).result == ImportFailed && ImportPlan(inp).commit.Some? <==>
      ParsedBackup(inp).Some? && Valid(DocumentSchema, ParsedBackup(inp).value)
      && inp.backupUploads == Missing && inp.currentUploadsExists
  {
    PlanByStage(inp);
  }

  /**
   * The media step as the skipped-media warning describes it: a backup
   * without uploads skips the media and still relaunches.
   */
  function IntendedMediaStep(inp: ImportInputs): ImportResult {
    Restarted(inp.backupUploads.Directory? && inp.currentUploadsExists && inp.mediaCopyOk)
  }

  /** `ImportPlan` with the intended media step after the commit. */
  function IntendedImportPlan(inp: ImportInputs): ImportOutcome {
    var p := ImportPlan(inp);
    if p.commit.Some? then ImportOutcome(IntendedMediaStep(inp), p.commit) else p
  }

  /**
   * With the intended media step every commit is followed by a relaunch and
   * every relaunch follows a commit; the store is replaced exactly as the
   * code replaces it.
   */
  lemma IntendedImportRestartsAfterCommit(inp: ImportInputs)
    ensures IntendedImportPlan(inp).result.Restarted? <==> IntendedImportPlan(inp).commit.Some?
    ensures IntendedImportPlan(inp).commit == ImportPlan(inp).commit
    ensures IntendedImportPlan(inp).result == ImportFailed ==> IntendedImportPlan(inp).commit.None?
  {
    PlanByStage(inp);
  }

  /**
   * The code and the intended plan part exactly where the code fails after
   * the commit, and there the intended plan relaunches without media.
   */
  lemma IntendedDiffersOnlyAfterCommit(inp: ImportInputs)
    ensures IntendedImportPlan(inp) != ImportPlan(inp) <==>
      ImportPlan(inp).result == ImportFailed && ImportPlan(inp).commit.Some?
    ensures ImportPlan(inp).result == ImportFailed && ImportPlan(inp).commit.Some? ==>
      IntendedImportPlan(inp).result == Restarted(false)
  {
    PlanByStage(inp);
  }

  /** `importStoreData()` against the store. */
  method ImportStoreData(store: Store, inp: ImportInputs) returns (result: ImportResult)
    modifies store
    ensures result == ImportPlan(inp).result
    ensures store.Contents() == (if ImportPlan(inp).commit.Some? then ImportPlan(inp).commit.value
                                 else old(store.Contents()))
  {
    if !Chosen(inp.dialog) {
      return Canceled;
    }
    var dir := inp.dialog.filePaths[0];
    var files := inp.listDir(dir);
    if files.None? {
      return ImportFailed;
    }
    var name := BackupFileName(files.value);
    if name.None? {
      return IncorrectFile;
    }
    var content := inp.readFile(JoinPath(dir, name.value));
    if content.ReadFailed? {
      return ImportFailed;
    }
    if content.SyntaxError? {
      return IncorrectFile;
    }
    if !Valid(DocumentSchema, content.json) {
      return IncorrectFile;
    }
    store.Clear();
    store.SetAll(Imported(content.json));
    result := MediaStep(inp);
  }

  // ---------------------------------------------------------------------
  // Export

  /** Whether creating the backup folder and writing the file succeed, and whether the media copy does. */
  datatype ExportInputs = ExportInputs(dialog: DialogResult, writeOk: bool, mediaCopyOk: bool)

  /** `'canceled'`, `'completed'`, or the thrown 'App data exporting error'. */
  datatype ExportResult = ExportCanceled | Completed | ExportFailed

  datatype WrittenFile = WrittenFile(path: string, content: Json)

  datatype ExportOutcome = ExportOutcome(result: ExportResult, written: Option<WrittenFile>)

  /** Where the export writes the document for a chosen destination. */
  function ExportConfigPath(dir: string): string {
    JoinPath(JoinPath(dir, BackupDirName), ConfigFileName)
  }

  /** The decisions of `exportStoreData` for store content `d`. */
  function ExportPlan(d: Document, inp: ExportInputs): (o: ExportOutcome)
    ensures o.result == ExportCanceled <==> !Chosen(inp.dialog)
    ensures o.result == Completed <==> Chosen(inp.dialog) && inp.writeOk && inp.mediaCopyOk
    ensures o.written.Some? <==> Chosen(inp.dialog) && inp.writeOk
    ensures o.written.Some? ==>
      o.written.value == WrittenFile(ExportConfigPath(inp.dialog.filePaths[0]), EncodeDocument(d))
  {
    if !Chosen(inp.dialog) then ExportOutcome(ExportCanceled, None)
    else if !inp.writeOk then ExportOutcome(ExportFailed, None)
    else
      var file := WrittenFile(ExportConfigPath(inp.dialog.filePaths[0]), EncodeDocument(d));
      ExportOutcome(if inp.mediaCopyOk then Completed else ExportFailed, Some(file))
  }

  /** `exportStoreData()`: reads the whole store and changes nothing in it. */
  method ExportStoreData(store: Store, inp: ExportInputs) returns (o: ExportOutcome)
    ensures o == ExportPlan(store.Contents(), inp)
  {
    if !Chosen(inp.dialog) {
      return ExportOutcome(ExportCanceled, None);
    }
    if !inp.writeOk {
      return ExportOutcome(ExportFailed, None);
    }
    var all := store.Contents();
    var file := WrittenFile(ExportConfigPath(inp.dialog.filePaths[0]), EncodeDocument(all));
    if !inp.mediaCopyOk {
      return ExportOutcome(ExportFailed, Some(file));
    }
    return ExportOutcome(Completed, Some(file));
  }

  /**
   * Exporting a store with a games list and well-typed preferences and then
   * importing the backup folder restores the same store content, provided
   * the import picks the written file and parsing it gives back the
   * written document.
   */
  lemma ExportThenImportRestores(d: Document, e: ExportInputs, inp: ImportInputs)
    requires d.games.Some?
    requires d.preferences.Some? ==> WellTyped(d.preferences.value)
    requires ExportPlan(d, e).result == Completed
    requires Chosen(inp.dialog) && inp.dialog.filePaths[0] == JoinPath(e.dialog.filePaths[0], BackupDirName)
    requires inp.listDir(inp.dialog.filePaths[0]).Some?
    requires BackupFileName(inp.listDir(inp.dialog.filePaths[0]).value) == Some(ConfigFileName)
    requires inp.readFile(ExportConfigPath(e.dialog.filePaths[0])) == Parsed(EncodeDocument(d))
    ensures ImportPlan(inp).commit == Some(d)
  {
    var j := EncodeDocument(d);
    assert ParsedBackup(inp) == Some(j);
    DocumentRoundTrip(d);
    DocumentSchemaMeaning(j);
    PlanByStage(inp);
  }

  /** A store in which no games list was ever written cannot be restored from its own export. */
  lemma ExportWithoutGamesNotRestorable(d: Document, inp: ImportInputs)
    requires d.games.None?
    requires ParsedBackup(inp) == Some(EncodeDocument(d))
    ensures ImportPlan(inp).result == IncorrectFile && ImportPlan(inp).commit.None?
  {
    ExportWithoutGamesRefused(d);
    DocumentSchemaMeaning(EncodeDocument(d));
    PlanByStage(inp);
  }

  // ---------------------------------------------------------------------
  // Window state saved before quitting

  /** What the window reports: its bounds, whether it is full screen, whether it is maximized. */
  datatype WindowState = WindowState(bounds: Rect, fullScreen: bool, maximized: bool)

  /** The object `saveUserPreferences` writes. */
  function WindowPatch(w: WindowState, isDarwin: bool): (p: PreferencesPatch)
    ensures p.Keys == {WindowBounds, FullScreen, Maximized}
    ensures p[WindowBounds].None? <==> w.maximized || w.fullScreen
    ensures p[WindowBounds].Some? ==> p[WindowBounds].value == BoundsValue(w.bounds)
    ensures p[FullScreen] == Some(BoolValue(w.fullScreen))
    ensures p[Maximized] == Some(BoolValue(w.maximized || (isDarwin && w.fullScreen)))
    ensures PatchWellTyped(p)
  {
    map[WindowBounds := if w.maximized || w.fullScreen then None else Some(BoundsValue(w.bounds)),
        FullScreen := Some(BoolValue(w.fullScreen)),
        Maximized := Some(BoolValue(if isDarwin && w.fullScreen then true else w.maximized))]
  }

  /**
   * After saving, the stored bounds are gone exactly when the window was
   * maximized or full screen, the two flags are the window's, and every
   * other preference keeps its stored value.
   */
  lemma SavedWindowState(stored: Option<Preferences>, w: WindowState, isDarwin: bool)
    ensures var r := Merge(stored, WindowPatch(w, isDarwin));
      (WindowBounds in r <==> !w.maximized && !w.fullScreen)
      && (WindowBounds in r ==> r[WindowBounds] == BoundsValue(w.bounds))
      && r[FullScreen] == BoolValue(w.fullScreen)
      && (forall k | k !in {WindowBounds, FullScreen, Maximized} ::
            (k in r <==> stored.Some? && k in stored.value) && (k in r ==> r[k] == stored.value[k]))
  {
    var p := WindowPatch(w, isDarwin);
    var r := Merge(stored, p);
    if w.maximized || w.fullScreen {
      assert p[WindowBounds].None?;
    } else {
      assert p[WindowBounds].Some?;
    }
  }

  /** `saveUserPreferences()`; `None` is a missing window, and then nothing is written. */
  method SaveUserPreferences(prefs: UserPreferencesStore, window: Option<WindowState>, isDarwin: bool)
    modifies prefs.store
    ensures prefs.store.preferences ==
      (if window.Some? then Some(Merge(old(prefs.store.preferences), WindowPatch(window.value, isDarwin)))
       else old(prefs.store.preferences))
    ensures prefs.store.games == old(prefs.store.games)
    ensures prefs.store.collections == old(prefs.store.collections)
  {
    if window.Some? {
      prefs.SetUserPreferences(WindowPatch(window.value, isDarwin));
    }
  }
}
