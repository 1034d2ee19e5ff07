/** The plugin object (main.ts): its settings, the error records of the
    current batch, and the batch driver that syncs a folder's notes one after
    another and writes an error report. The effects on the outside world are
    kept as one event history, answered by a world oracle. */
module Plugin {
  import opened Wrappers
  import opened Json
  import opened Strings
  import opened Libraries
  import opened Settings
  import opened Sync

  /** A markdown note of the vault: its path, its base name, its text, and
      Obsidian's cached front matter for it (`None` when there is none). */
  datatype Note = Note(path: string, basename: string, text: string, frontmatter: Option<seq<Entry>>)

  /** One entry of the error log. */
  datatype ErrorRecord = ErrorRecord(filePath: string, error: string)

  /** The plugin can talk to the API only with a token and a database id. */
  predicate Configured(s: PluginSettings) {
    s.notionAPI != "" && s.databaseID != ""
  }

  /** The tags getMarkdownContent reads: the cached `tags` list when tags are
      allowed (a note without cached front matter yields `[]`, the value the
      caught error leaves), otherwise `[]`. */
  function NoteTags(note: Note, allowTags: bool): Option<seq<string>> {
    if !allowTags then Some([])
    else match note.frontmatter
      case None => Some([])
      case Some(fields) => TagList(Lookup(fields, "tags"))
  }

  /** A list of strings as tags; any other value counts as no tags. */
  function TagList(v: Value): Option<seq<string>> {
    if v.Arr? && forall i :: 0 <= i < |v.items| ==> v.items[i].Str? then
      Some(seq(|v.items|, i requires 0 <= i < |v.items| && v.items[i].Str? => v.items[i].s))
    else None
  }

  /** The batch state the driver threads through the notes: every effect so
      far, the error log, and whether an exception escaped. */
  datatype BatchState = BatchState(events: seq<Event>, errors: seq<ErrorRecord>, raised: bool)

  /** processMarkdownFile on one note: an empty note is skipped; otherwise the
      sync runs, an exception escapes, and any result but status 200 logs one
      `sync error` record for the note. */
  function FileStep(libs: Libs, world: World, settings: PluginSettings, allowTags: bool, note: Note,
                    events: seq<Event>, errors: seq<ErrorRecord>): BatchState {
    if note.text == "" then BatchState(events, errors, false)
    else
      var run := SyncMarkdownToNotion(libs, world, events, settings, note.basename, allowTags, NoteTags(note, allowTags),
                                      note.text, note.path, CachedNotionId(note.frontmatter));
      if run.result == Raised then BatchState(events + run.events, errors, true)
      else if Succeeded(run.result) then BatchState(events + run.events, errors, false)
      else BatchState(events + run.events, errors + [ErrorRecord(note.path, "sync error")], false)
  }

  /** The notes processed in order; an exception ends the batch. */
  function RunFiles(libs: Libs, world: World, settings: PluginSettings, allowTags: bool, notes: seq<Note>,
                    events: seq<Event>, errors: seq<ErrorRecord>): BatchState {
    if notes == [] then BatchState(events, errors, false)
    else
      var before := RunFiles(libs, world, settings, allowTags, notes[..|notes| - 1], events, errors);
      if before.raised then before
      else FileStep(libs, world, settings, allowTags, notes[|notes| - 1], before.events, before.errors)
  }

  /** The notes whose path contains the folder path, in vault order. */
  function Selected(vault: seq<Note>, folderPath: string): seq<Note> {
    if vault == [] then []
    else
      var note := vault[|vault| - 1];
      Selected(vault[..|vault| - 1], folderPath) + (if Includes(note.path, folderPath) then [note] else [])
  }

  /** How many selected notes are processed: at most `maxFiles` when it is a
      positive number (`None` stands for NaN or no value), else all. */
  function NumberOfFiles(count: nat, maxFiles: Option<int>): (n: nat)
    ensures n <= count
  {
    if maxFiles.Some? && maxFiles.value > 0 && maxFiles.value < count then maxFiles.value else count
  }

  const ReportTitle := "Notion export error report"
  const ReportPath := ReportTitle + ".md"

  /** One line of the error report: a link to the note, then the error. */
  function ReportLine(r: ErrorRecord): string {
    "[[" + r.filePath + "]] - " + r.error
  }

  function Listing(records: seq<ErrorRecord>): string {
    if records == [] then "" else ReportLine(records[0]) + "\n" + Listing(records[1..])
  }

  function ReportText(records: seq<ErrorRecord>): string {
    "# " + ReportTitle + "\n\n" + Listing(records)
  }

  /** A database search result entry reduced to what the export dialog shows. */
  function DatabaseInfo(element: Value, title: Value): Value {
    Obj([Entry("title", title),
         Entry("id", Field(element, "id")),
         Entry("object", Field(element, "object")),
         Entry("properties", Field(element, "properties"))])
  }

  /** A field of an entry known to be an object. */
  function Field(element: Value, key: string): Value {
    if element.Obj? then Lookup(element.entries, key) else Undefined
  }

  /** `element.title[0].plain_text` */
  function TitleText(element: Value): Result<Value, JsError> {
    match GetProp(element, "title")
    case Failure(e) => Failure(e)
    case Success(t) =>
      match GetIndex(t, 0)
      case Failure(e) => Failure(e)
      case Success(first) => GetProp(first, "plain_text")
  }

  /** The kept search results, in order: those whose `is_inline` is exactly
      `false`; reading a missing entry's `is_inline` or a kept entry's title
      throws. */
  function DatabaseInfos(results: seq<Value>): Result<seq<Value>, JsError> {
    if results == [] then Success([])
    else
      match DatabaseInfos(results[..|results| - 1])
      case Failure(e) => Failure(e)
      case Success(infos) =>
        var element := results[|results| - 1];
        match GetProp(element, "is_inline")
        case Failure(e) => Failure(e)
        case Success(inline) =>
          if inline != Bool(false) then Success(infos)
          else match TitleText(element)
            case Failure(e) => Failure(e)
            case Success(title) => Success(infos + [DatabaseInfo(element, title)])
  }

  /** The answer to the database search: none (the request failed and the
      error was caught), or a status and the result entries. */
  datatype SearchReply = NoReply | Listed(status: int, results: seq<Value>)

  class ObsidianExportNotionPlugin {
    var settings: PluginSettings
    var erroredFiles: seq<ErrorRecord>
    var events: seq<Event>

    /** The plugin as `onload` leaves it: the settings loaded first, an
        empty error log, nothing sent yet. */
    constructor (stored: Option<StoredSettings>)
      ensures settings == Merge(stored) && erroredFiles == [] && events == []
    {
      settings := Merge(stored);
      erroredFiles := [];
      events := [];
    }

    /** loadSettings: the defaults, overridden by whatever was stored. */
    method LoadSettings(stored: Option<StoredSettings>)
      modifies this
      ensures settings == Merge(stored)
      ensures erroredFiles == old(erroredFiles) && events == old(events)
    {
      settings := Merge(stored);
    }

    /** processMarkdownFile */
    method ProcessMarkdownFile(libs: Libs, world: World, note: Note, allowTags: bool) returns (raised: bool)
      modifies this
      ensures settings == old(settings)
      ensures BatchState(events, erroredFiles, raised) == FileStep(libs, world, settings, allowTags, note, old(events), old(erroredFiles))
    {
      raised := false;
      if note.text != "" {
        var run := SyncMarkdownToNotion(libs, world, events, settings, note.basename, allowTags, NoteTags(note, allowTags),
                                        note.text, note.path, CachedNotionId(note.frontmatter));
        events := events + run.events;
        if run.result == Raised {
          raised := true;
        } else if !Succeeded(run.result) {
          erroredFiles := erroredFiles + [ErrorRecord(note.path, "sync error")];
        }
      }
    }

    /** upload: the configuration guard, then the active note. Without an
        active note the destructuring of the missing content throws. */
    method Upload(libs: Libs, world: World, active: Option<Note>) returns (raised: bool)
      modifies this
      ensures settings == old(settings)
      ensures !Configured(settings) || active.None? ==>
        raised == Configured(settings) && events == old(events) && erroredFiles == old(erroredFiles)
      ensures Configured(settings) && active.Some? ==>
        BatchState(events, erroredFiles, raised) == FileStep(libs, world, settings, settings.allowTags, active.value, old(events), old(erroredFiles))
    {
      if settings.notionAPI == "" || settings.databaseID == "" {
        return false;
      }
      if active.None? {
        return true;
      }
      raised := ProcessMarkdownFile(libs, world, active.value, settings.allowTags);
    }

    /** createErroredFilesReport: one line per record, in order, under a
        title; creating the file throws when it cannot be created. */
    method CreateErroredFilesReport(world: World) returns (raised: bool)
      modifies this
      ensures settings == old(settings) && erroredFiles == old(erroredFiles)
      ensures events == old(events) + [CreateFile(ReportPath, ReportText(erroredFiles))]
      ensures raised <==> world(events) == Threw
    {
      var title := ReportTitle;
      var filePath := title + ".md";
      var errorListing := "";
      for i := 0 to |erroredFiles|
        invariant settings == old(settings) && erroredFiles == old(erroredFiles) && events == old(events)
        invariant errorListing == Listing(erroredFiles[..i])
      {
        ListingSnoc(erroredFiles[..i], erroredFiles[i]);
        assert erroredFiles[..i + 1] == erroredFiles[..i] + [erroredFiles[i]];
        errorListing := errorListing + ReportLine(erroredFiles[i]) + "\n";
      }
      assert erroredFiles[..|erroredFiles|] == erroredFiles;
      var fileContent := "# " + title + "\n\n" + errorListing;
      events := events + [CreateFile(filePath, fileContent)];
      raised := world(events) == Threw;
    }

    /** processFiles: a fresh error log; a non-empty database id replaces the
        configured one before the configuration guard; then the selected
        notes, capped, one after another; then the report if any note failed. */
    method ProcessFiles(libs: Libs, world: World, vault: seq<Note>, folderPath: string, maxFiles: Option<int>,
                        notionDBID: string) returns (raised: bool)
      modifies this
      ensures settings == if notionDBID != "" then old(settings).(databaseID := notionDBID) else old(settings)
      ensures !Configured(settings) ==> !raised && events == old(events) && erroredFiles == []
      ensures Configured(settings) ==>
        var files := Selected(vault, folderPath);
        var run := RunFiles(libs, world, settings, settings.allowTags, files[..NumberOfFiles(|files|, maxFiles)], old(events), []);
        erroredFiles == run.errors
        && (run.raised || run.errors == [] ==> events == run.events && raised == run.raised)
        && (!run.raised && run.errors != [] ==>
              events == run.events + [CreateFile(ReportPath, ReportText(run.errors))] && (raised <==> world(events) == Threw))
    {
      var allowTags := settings.allowTags;
      erroredFiles := [];
      if notionDBID != "" {
        settings := settings.(databaseID := notionDBID);
      }
      if settings.notionAPI == "" || settings.databaseID == "" {
        return false;
      }
      var fileListing := Selected(vault, folderPath);
      var numberOfFiles := NumberOfFiles(|fileListing|, maxFiles);
      ghost var capped := fileListing[..numberOfFiles];
      ghost var events0 := events;
      for i := 0 to numberOfFiles
        invariant settings.allowTags == allowTags && Configured(settings)
        invariant settings == if notionDBID != "" then old(settings).(databaseID := notionDBID) else old(settings)
        invariant RunFiles(libs, world, settings, allowTags, capped[..i], events0, []) == BatchState(events, erroredFiles, false)
      {
        RunFilesStep(libs, world, settings, allowTags, capped, i, events0, []);
        raised := ProcessMarkdownFile(libs, world, fileListing[i], allowTags);
        if raised {
          RaisedStops(libs, world, settings, allowTags, capped, i + 1, events0, []);
          return;
        }
      }
      assert capped[..numberOfFiles] == capped;
      raised := false;
      if |erroredFiles| > 0 {
        raised := CreateErroredFilesReport(world);
      }
    }

    /** getDatabaseList: the configuration guard (no list), then the search
        results reduced to the entries that are not inline; a failed search
        gives an empty list. */
    method GetDatabaseList(reply: SearchReply) returns (r: Option<Result<seq<Value>, JsError>>)
      ensures !Configured(settings) <==> r.None?
      ensures Configured(settings) && (reply.NoReply? || reply.status != 200) ==> r == Some(Success([]))
      ensures Configured(settings) && reply.Listed? && reply.status == 200 ==> r == Some(DatabaseInfos(reply.results))
    {
      if settings.notionAPI == "" || settings.databaseID == "" {
        return None;
      }
      var notionDBInfo := [];
      if reply.Listed? && reply.status == 200 {
        var databases := reply.results;
        for i := 0 to |databases|
          invariant DatabaseInfos(databases[..i]) == Success(notionDBInfo)
        {
          assert databases[..i + 1][..i] == databases[..i];
          var element := databases[i];
          var inline := GetProp(element, "is_inline");
          if inline.Failure? {
            DatabaseInfosFailureStops(databases, i + 1);
            return Some(Failure(inline.error));
          }
          if inline.value == Bool(false) {
            var title := TitleText(element);
            if title.Failure? {
              DatabaseInfosFailureStops(databases, i + 1);
              return Some(Failure(title.error));
            }
            notionDBInfo := notionDBInfo + [DatabaseInfo(element, title.value)];
          }
        }
        assert databases[..|databases|] == databases;
      }
      return Some(Success(notionDBInfo));
    }
  }

  // ---------------------------------------------------------------------------
  // Lemmas: the batch

  /** Once an exception escaped, later notes are not processed. */
  lemma {:induction false} RaisedStops(libs: Libs, world: World, settings: PluginSettings, allowTags: bool, notes: seq<Note>,
                                       i: nat, events: seq<Event>, errors: seq<ErrorRecord>)
    requires i <= |notes|
    requires RunFiles(libs, world, settings, allowTags, notes[..i], events, errors).raised
    ensures RunFiles(libs, world, settings, allowTags, notes, events, errors) == RunFiles(libs, world, settings, allowTags, notes[..i], events, errors)
  {
    if i == |notes| {
      assert notes[..i] == notes;
    } else {
      var n := |notes| - 1;
      assert notes[..n][..i] == notes[..i];
      RaisedStops(libs, world, settings, allowTags, notes[..n], i, events, errors);
      RaisedSkipsNote(libs, world, settings, allowTags, notes, events, errors);
    }
  }

  lemma RaisedSkipsNote(libs: Libs, world: World, settings: PluginSettings, allowTags: bool, notes: seq<Note>,
                        events: seq<Event>, errors: seq<ErrorRecord>)
    requires notes != [] && RunFiles(libs, world, settings, allowTags, notes[..|notes| - 1], events, errors).raised
    ensures RunFiles(libs, world, settings, allowTags, notes, events, errors) == RunFiles(libs, world, settings, allowTags, notes[..|notes| - 1], events, errors)
  {
  }

  /** One more note on a batch that has not raised is one more file step. */
  lemma RunFilesStep(libs: Libs, world: World, settings: PluginSettings, allowTags: bool, notes: seq<Note>,
                     i: nat, events: seq<Event>, errors: seq<ErrorRecord>)
    requires i < |notes| && !RunFiles(libs, world, settings, allowTags, notes[..i], events, errors).raised
    ensures var before := RunFiles(libs, world, settings, allowTags, notes[..i], events, errors);
      RunFiles(libs, world, settings, allowTags, notes[..i + 1], events, errors)
      == FileStep(libs, world, settings, allowTags, notes[i], before.events, before.errors)
  {
    assert notes[..i + 1][..i] == notes[..i];
  }

  /** A batch only adds to the history, and only appends to the error log:
      at most one `sync error` record per processed note, naming that note. */
  lemma {:induction false} BatchAppendsErrors(libs: Libs, world: World, settings: PluginSettings, allowTags: bool,
                                              notes: seq<Note>, events: seq<Event>, errors: seq<ErrorRecord>)
    ensures var run := RunFiles(libs, world, settings, allowTags, notes, events, errors);
      events <= run.events && errors <= run.errors && |run.errors| <= |errors| + |notes|
      && forall j :: |errors| <= j < |run.errors| ==>
           run.errors[j].error == "sync error" && exists k :: 0 <= k < |notes| && notes[k].path == run.errors[j].filePath
  {
    if notes != [] {
      var n := |notes| - 1;
      BatchAppendsErrors(libs, world, settings, allowTags, notes[..n], events, errors);
      var before := RunFiles(libs, world, settings, allowTags, notes[..n], events, errors);
      var run := RunFiles(libs, world, settings, allowTags, notes, events, errors);
      if !before.raised {
        FileStepGrows(libs, world, settings, allowTags, notes[n], before.events, before.errors);
      }
      assert before.events <= run.events;
      assert run.errors == before.errors || run.errors == before.errors + [ErrorRecord(notes[n].path, "sync error")];
      forall j | |errors| <= j < |run.errors|
        ensures run.errors[j].error == "sync error" && exists k :: 0 <= k < |notes| && notes[k].path == run.errors[j].filePath
      {
        if j < |before.errors| {
          var k :| 0 <= k < n && notes[..n][k].path == before.errors[j].filePath;
          assert notes[k] == notes[..n][k];
        } else {
          assert run.errors[j] == ErrorRecord(notes[n].path, "sync error");
        }
      }
    }
  }

  /** One note adds events after the earlier ones and at most its own error record. */
  lemma FileStepGrows(libs: Libs, world: World, settings: PluginSettings, allowTags: bool, note: Note,
                      events: seq<Event>, errors: seq<ErrorRecord>)
    ensures var step := FileStep(libs, world, settings, allowTags, note, events, errors);
      events <= step.events
      && (step.errors == errors || step.errors == errors + [ErrorRecord(note.path, "sync error")])
  {
  }

  /** A note records an error exactly when it is not empty, the sync did not
      throw, and the result is not a status-200 response; an empty note
      changes nothing. */
  lemma FileStepRecords(libs: Libs, world: World, settings: PluginSettings, allowTags: bool, note: Note,
                        events: seq<Event>, errors: seq<ErrorRecord>)
    ensures var step := FileStep(libs, world, settings, allowTags, note, events, errors);
      var run := SyncMarkdownToNotion(libs, world, events, settings, note.basename, allowTags, NoteTags(note, allowTags),
                                      note.text, note.path, CachedNotionId(note.frontmatter));
      (note.text == "" ==> step == BatchState(events, errors, false))
      && (step.errors == errors + [ErrorRecord(note.path, "sync error")] <==> note.text != "" && run.result != Raised && !Succeeded(run.result))
      && (step.errors != errors ==> step.errors == errors + [ErrorRecord(note.path, "sync error")])
  {
  }

  /** The selected notes are the vault's notes whose path contains the folder
      path, and they keep the vault's order. */
  lemma {:induction false} SelectedNotes(vault: seq<Note>, folderPath: string, note: Note)
    ensures note in Selected(vault, folderPath) <==> note in vault && Includes(note.path, folderPath)
  {
    if vault != [] {
      var n := |vault| - 1;
      SelectedNotes(vault[..n], folderPath, note);
      assert vault == vault[..n] + [vault[n]];
    }
  }

  lemma {:induction false} SelectedKeepsOrder(a: seq<Note>, b: seq<Note>, folderPath: string)
    ensures Selected(a + b, folderPath) == Selected(a, folderPath) + Selected(b, folderPath)
  {
    if b == [] {
      assert a + b == a;
    } else {
      var n := |b| - 1;
      assert (a + b)[..|a + b| - 1] == a + b[..n];
      SelectedKeepsOrder(a, b[..n], folderPath);
    }
  }

  /** `maxFiles` caps the batch only when it is a positive number. */
  lemma NumberOfFilesCap(count: nat, maxFiles: Option<int>)
    ensures maxFiles.Some? && maxFiles.value > 0 ==>
      NumberOfFiles(count, maxFiles) == if maxFiles.value < count then maxFiles.value else count
    ensures maxFiles.None? || maxFiles.value <= 0 ==> NumberOfFiles(count, maxFiles) == count
  {
  }

  // ---------------------------------------------------------------------------
  // Lemmas: the error report

  lemma {:induction false} ListingSnoc(records: seq<ErrorRecord>, r: ErrorRecord)
    ensures Listing(records + [r]) == Listing(records) + ReportLine(r) + "\n"
  {
    if records == [] {
      assert records + [r] == [r];
    } else {
      assert (records + [r])[1..] == records[1..] + [r];
      ListingSnoc(records[1..], r);
    }
  }

  /** The lines of a report without line breaks inside its records: the title,
      a blank line, one line per record in record order, and the empty text
      after the final line break. */
  lemma {:induction false} ReportLines(records: seq<ErrorRecord>)
    requires forall i :: 0 <= i < |records| ==> '\n' !in ReportLine(records[i])
    ensures SplitOn(ReportText(records), '\n') ==
      ["# " + ReportTitle, ""] + seq(|records|, i requires 0 <= i < |records| => ReportLine(records[i])) + [""]
  {
    var heading := "# " + ReportTitle;
    var lines := seq(|records|, i requires 0 <= i < |records| => ReportLine(records[i]));
    ReportHeading();
    assert SplitOn(Listing(records), '\n') == lines + [""] by {
      ListingLines(records);
    }
    SplitAfterTitle(heading, Listing(records));
    assert [heading, ""] + (lines + [""]) == [heading, ""] + lines + [""];
  }

  lemma ReportHeading()
    ensures '\n' !in "# " + ReportTitle
  {
    var heading := "# " + ReportTitle;
    forall i | 0 <= i < |heading| ensures heading[i] != '\n' {
    }
  }

  lemma SplitAfterTitle(title: string, listing: string)
    requires '\n' !in title
    ensures SplitOn(title + "\n\n" + listing, '\n') == [title, ""] + SplitOn(listing, '\n')
  {
    var x := [] + ['\n'] + listing;
    assert title + "\n\n" + listing == title + ['\n'] + x;
    SplitAtFirstSeparator(title, '\n', x);
    SplitAtFirstSeparator([], '\n', listing);
  }

  lemma {:induction false} ListingLines(records: seq<ErrorRecord>)
    requires forall i :: 0 <= i < |records| ==> '\n' !in ReportLine(records[i])
    ensures SplitOn(Listing(records), '\n') == seq(|records|, i requires 0 <= i < |records| => ReportLine(records[i])) + [""]
  {
    if records != [] {
      ListingLines(records[1..]);
      assert Listing(records) == ReportLine(records[0]) + ['\n'] + Listing(records[1..]);
      SplitAtFirstSeparator(ReportLine(records[0]), '\n', Listing(records[1..]));
    }
  }

  // ---------------------------------------------------------------------------
  // Lemmas: the database list

  lemma {:induction false} DatabaseInfosFailureStops(results: seq<Value>, i: nat)
    requires i <= |results| && DatabaseInfos(results[..i]).Failure?
    ensures DatabaseInfos(results) == DatabaseInfos(results[..i])
  {
    if i == |results| {
      assert results[..i] == results;
    } else {
      var n := |results| - 1;
      assert results[..n][..i] == results[..i];
      DatabaseInfosFailureStops(results[..n], i);
    }
  }

  /** The entries kept: those whose `is_inline` is exactly `false`, in order. */
  function NotInline(results: seq<Value>): seq<Value> {
    if results == [] then []
    else
      var e := results[|results| - 1];
      NotInline(results[..|results| - 1]) + (if GetProp(e, "is_inline") == Success(Bool(false)) then [e] else [])
  }

  /** A readable search result: an entry that is not `null`/`undefined`, and
      whose title can be read when it is kept. */
  predicate TitleReadable(e: Value) {
    GetProp(e, "is_inline").Success? && (GetProp(e, "is_inline") == Success(Bool(false)) ==> TitleText(e).Success?)
  }

  /** The list holds one entry per kept result, in order, with its title's
      plain text; it fails exactly when some result is unreadable. */
  lemma {:induction false} DatabaseListFilter(results: seq<Value>)
    ensures DatabaseInfos(results).Success? <==> forall i :: 0 <= i < |results| ==> TitleReadable(results[i])
    ensures DatabaseInfos(results).Success? ==>
      var kept := NotInline(results);
      |DatabaseInfos(results).value| == |kept|
      && forall i :: 0 <= i < |kept| ==>
           TitleText(kept[i]).Success? && DatabaseInfos(results).value[i] == DatabaseInfo(kept[i], TitleText(kept[i]).value)
  {
    if results != [] {
      var n := |results| - 1;
      DatabaseListFilter(results[..n]);
      assert forall i :: 0 <= i < n ==> results[..n][i] == results[i];
    }
  }
}
