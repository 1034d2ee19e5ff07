# Notion export for Obsidian: a verified model of the sync engine

This project is a Dafny model of the core of an Obsidian plugin. The plugin
publishes markdown notes as pages of a Notion database. The model covers four
parts:

- **The sync engine** (`NotionInteractions.ts`):
  - the front-matter to page-property mapper;
  - the API limit walker;
  - the 99-block split and the chained appends of the overflow;
  - the create-request body;
  - the delete / create / rewrite / append sequence of one sync;
  - the front-matter rewrite that stores the page's link and id in the note.
- **The batch driver** (`main.ts`): the plugin object with its settings, error log, batch loop, error report, database-list filter and settings merge.
- **The date helpers** (`Util.ts`).

Modules:

| file | module | models |
|---|---|---|
| `json.dfy` | `Json` | JSON values. An object is an ordered entry list in JavaScript enumeration order. It supports assignment, `delete`, property reads and index reads, and the TypeError a read of `null`/`undefined` throws. |
| `strings.dfy` | `Strings` | `indexOf`, `includes`, `replace` with a string pattern, `split` on one character, and decimal `${n}`. |
| `date_util.dfy` | `DateUtil` | `dateToString`, `timeToString`, `dateTimeToString`, `isValidDate`. |
| `api_limits.dfy` | `ApiLimits` | The class `checkAPILimits`, whose walk updates its fields in place. |
| `chunking.dfy` | `Chunking` | The 99-block cut and the slices `appendBlocks` sends. |
| `page_properties.dfy` | `PageProperties` | `formatNotionProperty`. |
| `page_body.dfy` | `PageBody` | The body `createPage` builds. |
| `libraries.dfy` | `Libraries` | The third-party calls as function values: `loadFront`, `markdownToBlocks` and `yaml.stringify`, with the inputs on which the first two throw. |
| `front_matter.dfy` | `FrontMatter` | `updateYamlInfo`. |
| `settings.dfy` | `Settings` | The settings record, `DEFAULT_SETTINGS`, and the `loadSettings` merge. |
| `sync.dfy` | `Sync` | `syncMarkdownToNotion`, `updatePage`, `createPage`'s request, `appendBlocks`. |
| `plugin.dfy` | `Plugin` | The plugin class: `processFiles`, `processMarkdownFile`, `upload`, `createErroredFilesReport`, `getDatabaseList`, `loadSettings`. |

**The outside world.** Every effect is an `Event`:

- a delete;
- a create with its body;
- an append with its blocks;
- a note rewrite;
- the creation of the report file.

A `World` oracle answers each effect given the whole history before it. Its answer is either a thrown error or a response with a status, an `id` and a `url`. Order facts are proved over this history.

**Behaviour of the code that a reader may not expect:**

- **The delete is not guarded.** `deletePage` runs outside any `try`. A delete that throws ends the sync with an exception, and the page is not created (`Sync.FailedDeleteAborts`).
- **The depth check comes first.** It runs before the delete, so too deep a tree sends nothing at all (`Sync.TooDeepSendsNothing`).
- **Folders match by substring.** The batch keeps notes whose path *contains* the folder path, not only those under it.
- **An exception stops the batch.** An exception in one note (a failed delete, or an `image` number) leaves `processFiles`, so the remaining notes are skipped and no report is written. Failures that are not exceptions are logged, and the batch goes on.
- **A second report can fail.** The report is created with `vault.create`. When the file already exists, that call throws.

## Model

| member | source | states |
|---|---|---|
| DateUtil.DateToStringRoundTrip | Util.ts:1-3 | For non-negative fields, the date string splits at `-` into exactly three unpadded digit strings. These read back as month+1, day and year. A positive field has no leading `0`, and a zero field is exactly `"0"`. |
| DateUtil.TimeToStringRoundTrip | Util.ts:5-7 | For non-negative fields, the time string splits at `-` into three unpadded digit strings. These read back as hours, minutes and seconds. A positive field has no leading `0`, and a zero field is exactly `"0"`, so 12:00:00 gives `12-0-0`. |
| DateUtil.DateToStringDashes | Util.ts:2 | For non-negative fields, the date string has exactly two `-` characters. |
| DateUtil.DateTimeSplitsAtSpace | Util.ts:9-11 | The date-time string is the date string and the time string joined by exactly one space. |
| DateUtil.IsValidDateShape | Util.ts:13-16 | `isValidDate(s)` holds iff `s` has 10 characters, `-` at indices 4 and 7, and ASCII digits everywhere else. |
| DateUtil.OutOfRangeAccepted | Util.ts:14-15 | There is no range check: `"0000-99-99"` is accepted. |
| ApiLimits.CheckApiLimits.constructor | NotionInteractions.ts:396-407 | After construction, `blockLength` is the number of block-tagged entries at any depth, and `maxChildDepth` is the deepest `children` nesting of the top-level list. |
| ApiLimits.CheckApiLimits.IterateBlocks | NotionInteractions.ts:410-434 | The walk adds the node's block count to `blockLength`. It raises `maxChildDepth` to the starting depth plus the node's nesting. |
| ApiLimits.CheckApiLimits.VisitKey | NotionInteractions.ts:414-432 | One key of the walk adds its own block tag and everything below its value to `blockLength`. The running depth rises by one iff the key is a non-undefined `children`. The maximum becomes the larger of the old one and that depth plus the value's nesting. |
| ApiLimits.CheckApiLimits.VisitEntry | NotionInteractions.ts:416-427 | A key counts one block iff it is `object` with a block tag. It raises the running depth iff it is a non-undefined `children`, and the maximum keeps up with the raised depth. |
| ApiLimits.KeyedEntriesAgree | NotionInteractions.ts:411-413 | Walking an array by its index keys counts and nests exactly as walking its items. |
| ApiLimits.DepthZeroIffNoChildren | NotionInteractions.ts:421-427 | `maxChildDepth` is 0 iff no object in the tree has a non-undefined `children` entry. |
| ApiLimits.ItemsConcat | NotionInteractions.ts:410-434 | For a concatenated list, block counts add up and the depth is the larger of the two depths. |
| ApiLimits.InertAddsNothing | NotionInteractions.ts:416-431 | Values with no `object` or `children` key anywhere, such as rich text, add no block and no depth. |
| ApiLimits.ListItemNesting | NotionInteractions.ts:410-434 | A list item adds one block to what it holds. It adds one level of depth when it holds nested items. A leaf, whose `children` is `undefined`, has depth 0. |
| ApiLimits.ThreeLevelList | NotionInteractions.ts:327-331 | A three-level bulleted list whose leaf has `children: undefined` has depth 2 and 3 blocks, so it passes the limit. |
| ApiLimits.FourLevelList | NotionInteractions.ts:327-331 | A four-level bulleted list of the same shape has depth 3 and 4 blocks, so it is refused. |
| ApiLimits.EmptyChildrenRaise | NotionInteractions.ts:421 | A `children` of `null` or `[]` raises the depth. `undefined` does not. |
| ApiLimits.LaterSiblingsInheritDepth | NotionInteractions.ts:412-431 | Keys after `children` in the same object are walked one level deeper. Keys before it are not. |
| Chunking.SplitTop | NotionInteractions.ts:332-337 | The head and the overflow concatenate to the block list. The head has min(99, n) blocks. There is overflow iff there are more than 99 top-level blocks. |
| Chunking.ChunksFlatten | NotionInteractions.ts:193-217 | The slices `appendBlocks` sends concatenate to its content, with nothing dropped or repeated and order kept. |
| Chunking.ChunkSizes | NotionInteractions.ts:193-198 | Every slice has at most 99 blocks and every slice but the last has exactly 99. For non-empty content, no slice is empty. |
| Chunking.ChunkCount | NotionInteractions.ts:193-217 | There is one slice per started group of 99 blocks. Empty content still gives one empty slice. |
| PageProperties.FormatNotionProperty | NotionInteractions.ts:22-95 | The loop's output equals the mapped entries, converted, in key order. |
| PageProperties.NoReservedProperty | NotionInteractions.ts:33-41 | `__content`, `link`, `notionID` and `title` never appear among the properties. |
| PageProperties.SingleEntryMapping | NotionInteractions.ts:42-86 | A `url` string maps to `{url}`, and a `url` of any other type is dropped. Other strings map to rich text and numbers to `{number}`. Every other type is dropped. |
| PageProperties.PropertiesConcat | NotionInteractions.ts:27-92 | Mapping a concatenation maps each part, so the output follows key order. |
| PageProperties.PropertiesFromEntries | NotionInteractions.ts:27-92 | A property is in the output iff some entry maps to it. |
| PageProperties.RichTextCarriesText | NotionInteractions.ts:53-75 | The rich-text segment's `text.content` and `plain_text` both equal the string. |
| PageProperties.ReservedAssignmentInvisible | NotionInteractions.ts:314-340 | Assigning a reserved key, such as the loader's `__content`, changes no property. |
| PageBody.TagOptions | NotionInteractions.ts:249-254 | Each tag becomes one `{name: tag}` option, in order. |
| PageBody.CreatePageBody | NotionInteractions.ts:226-289 | The loop's body equals the specified fold. This fold is the initial Name/Tags/cover body with every property assigned and the `image` rule applied, or the TypeError it throws. |
| PageBody.TitleCarriesTitle | NotionInteractions.ts:237-247 | `Name.title[0].text.content` is the title. |
| PageBody.NameAndTags | NotionInteractions.ts:236-260 | Unless a property of the same name overrides them, `Name` holds the title and `Tags` holds the tag options (or `[]` unless tags are allowed and defined). The database id and the blocks are as given. |
| PageBody.MergedProperties | NotionInteractions.ts:265-272 | Each property name holds the content of the last property with that name. All other entries keep their values. |
| PageBody.MergedCoverAndIcon | NotionInteractions.ts:262-287 | The last `image` property sets both cover and icon to its `rich_text[0].plain_text`, overriding the banner. Without one, the banner (if any) stays and there is no icon. |
| PageBody.MergeFailsOnUnreadableImage | NotionInteractions.ts:274-287 | The body fails iff some `image` property has no readable `rich_text[0].plain_text`. |
| PageBody.NumberImageUnreadable | NotionInteractions.ts:274-280 | An `image` given as a number cannot be read, so it throws. |
| PageBody.StringImageReadable | NotionInteractions.ts:274-280 | An `image` given as a string yields that string as the URL. |
| Libraries.LoadedObject | NotionInteractions.ts:314-315 | The loaded object maps `__content` to the body and keeps every other header field. |
| FrontMatter.DropFinalNewline | NotionInteractions.ts:382 | One final line break goes, and nothing else changes. |
| FrontMatter.DropLeadingNewline | NotionInteractions.ts:384 | One leading line break goes, and nothing else changes. |
| FrontMatter.HeaderSetsSyncMetadata | NotionInteractions.ts:369-379 | The new header has `link` = url, `notionID` = id, and no `__content`. Every other field is unchanged. |
| FrontMatter.FirstSyncAppendsMetadata | NotionInteractions.ts:369-379 | On a first sync, `link` and `notionID` are appended at the end of the header. |
| FrontMatter.ResyncKeepsKeyOrder | NotionInteractions.ts:369-379 | On a re-sync, the header keeps its key order. |
| FrontMatter.VanityRewrite | NotionInteractions.ts:366-370 | With a workspace name, `https://www.notion.so/<path>` becomes `https://<name>.notion.site/<path>`. |
| FrontMatter.NoVanityKeepsUrl | NotionInteractions.ts:366-370 | Without a workspace name, the URL is kept. |
| FrontMatter.WrittenTextSplitsBack | NotionInteractions.ts:380-385 | When the header has no line starting with `---`, the written note splits back into the written header and the body, with one line break in front. |
| FrontMatter.ResyncKeepsBody | NotionInteractions.ts:378-385 | When the header has no line starting with `---`, syncing a written note again keeps its body, and only the header changes. |
| FrontMatter.HeaderObjectIdempotent | NotionInteractions.ts:363-379 | Loading a rewritten header back and assigning the same `link` and `notionID` again gives the same header. Both fields already hold those values, and the `__content` the loader adds is deleted again. |
| FrontMatter.SecondSyncIsFixedPoint | NotionInteractions.ts:362-391 | Rewriting an already rewritten note with the same link and id gives the same text. This assumes that the loader reads the written note back as the header it was written from and the body that `FrontMatter.SplitFront` finds. |
| Settings.StoredKeysOverride | main.ts:275-281 | A stored key overrides its default, and a missing key takes the default. |
| Settings.SaveLoadRoundTrip | main.ts:275-285 | Settings saved and loaded again come back unchanged. |
| Settings.NothingStoredGivesDefaults | main.ts:33-40 | No stored data, or an empty object, gives `DEFAULT_SETTINGS`. |
| Sync.ExceedsLimits | NotionInteractions.ts:324-331 | The walker's verdict is "too deep" iff the nesting exceeds 2. |
| Sync.TooDeepSendsNothing | NotionInteractions.ts:312-331 | A sync returns `false` iff both libraries read the note and the nesting exceeds 2, whatever the block count. It then sends and writes nothing. |
| Sync.CreatePageShape | NotionInteractions.ts:226-310 | `createPage` sends at most one create, carrying the given blocks. It throws iff the body cannot be built. |
| Sync.SendPageShape | NotionInteractions.ts:343-347 | There is a delete first iff the note has a truthy page id. Then at most one create follows, carrying the first blocks. A response implies the create was sent. |
| Sync.FailedDeleteAborts | NotionInteractions.ts:177-181 | A delete that throws ends the sync with an exception, and nothing is created. |
| Sync.AfterResponseOrder | NotionInteractions.ts:349-358 | Nothing more happens unless the status is 200. Then the note is rewritten, and only after that come the appends to the new page, carrying all of the overflow in order. |
| Sync.AppendBlocksSendsChunks | NotionInteractions.ts:186-221 | `appendBlocks` sends a non-empty prefix of the 99-block slices in order. When no append request fails, it sends all of them. |
| Sync.AppendBlocksSendsAll | NotionInteractions.ts:186-221 | When no append request fails, `appendBlocks` sends every 99-block slice, in order. |
| Sync.AppendedBlocks | NotionInteractions.ts:186-221 | Every append goes to the same parent with at most 99 blocks. When no append request fails, the appended blocks concatenate to the content. |
| Sync.SyncEventOrder | NotionInteractions.ts:312-360 | The whole order of one sync of a note both libraries read: delete iff page id, create with the first 99 blocks, then on status 200 only the rewrite followed by the appends. Otherwise neither rewrite nor append happens. |
| Sync.StagesInOrder | NotionInteractions.ts:343-358 | The requests, the rewrite and the appends come in that order: delete iff the page id is truthy, then the create with the first blocks; on status 200 the rewrite and the appends of the overflow follow; otherwise nothing more is sent. |
| Sync.NumberImageRaises | NotionInteractions.ts:340-347 | A readable note within the depth limit whose properties hold a number `image` raises. Its only effect is the delete when it names a page. No create is sent. |
| Sync.UnbuildableBodyRaises | NotionInteractions.ts:332-347 | Within the depth limit, a page body that cannot be built makes the sync raise. Its only effect is the delete when the note names a page. |
| Sync.LibraryErrorRaises | NotionInteractions.ts:312-316 | When `loadFront` or `markdownToBlocks` throws on the note, the sync raises before anything is sent or written. |
| Sync.OneHundredFiftyBlocks | NotionInteractions.ts:332-358 | 150 blocks nested at most 2 deep, with no properties and no page id, against an API that always answers 200 give three effects in order: a create with 99 blocks, the rewrite, and one append of the remaining 51. |
| Sync.FreshPageSync | NotionInteractions.ts:332-358 | For a note with no cached page id, a 200 answer to the create is followed by the rewrite and then by the appends of the overflow, and the sync reports that answer. |
| Sync.OneAppendForSmallContent | NotionInteractions.ts:186-221 | At most 99 blocks are appended in one request carrying all of them. |
| Plugin.ObsidianExportNotionPlugin.constructor | main.ts:43-49 | The plugin as `onload` leaves it: the settings are the defaults merged with the stored data, the error log is empty, and nothing has been sent. |
| Plugin.ObsidianExportNotionPlugin.LoadSettings | main.ts:275-281 | The settings become the merge of defaults and stored data. Nothing else changes. |
| Plugin.ObsidianExportNotionPlugin.ProcessMarkdownFile | main.ts:185-202 | The history and error log advance as one file step specifies: an empty note is skipped; any result but status 200 logs one `sync error` record; an exception escapes. |
| Plugin.ObsidianExportNotionPlugin.Upload | main.ts:173-183 | Missing token or database id does nothing. Without an active note it throws. Otherwise it processes the active note. |
| Plugin.ObsidianExportNotionPlugin.CreateErroredFilesReport | main.ts:287-301 | It creates `Notion export error report.md` with the title, a blank line and one line per record in order. It throws iff the creation throws. |
| Plugin.ObsidianExportNotionPlugin.ProcessFiles | main.ts:204-241 | Each batch starts with an empty error log. A non-empty database id is stored before the guard. The notes are the selected ones, capped, in order, until an exception. A report is written iff some note failed. |
| Plugin.ObsidianExportNotionPlugin.GetDatabaseList | main.ts:127-171 | The guard gives no list, and a failed search gives `[]`. Otherwise the result is the filtered, mapped search results. |
| Plugin.BatchAppendsErrors | main.ts:204-241 | A batch only extends the history and the error log, adding at most one `sync error` record per note. Each new record names one of the batch's notes. |
| Plugin.FileStepRecords | main.ts:188-197 | A note logs a record iff it is non-empty, did not throw, and did not get status 200. An empty note changes nothing. |
| Plugin.SelectedNotes | main.ts:222 | A note is selected iff it is in the vault and its path contains the folder path. |
| Plugin.SelectedKeepsOrder | main.ts:222 | Selection keeps vault order. |
| Plugin.NumberOfFilesCap | main.ts:226-229 | The count is min(maxFiles, n) when maxFiles is a positive number. Otherwise it is n. |
| Plugin.ReportLines | main.ts:287-299 | When no record has a line break, the report's lines are the title, a blank line and one `[[path]] - error` line per record in order. |
| Plugin.DatabaseListFilter | main.ts:153-165 | The list succeeds iff every result is readable. It then holds one entry per result whose `is_inline` is exactly `false`, in order, with its title's plain text. |

## Left out

- HTTP transport: `requestUrl`, the Notion client, the request headers and URLs. A request is an event, and the `World` oracle answers it.
- The internals of martian's `markdownToBlocks`, yaml's `stringify` and yaml-front-matter's `loadFront`. They are arbitrary functions in `Libraries.Libs`, and so are the inputs on which `loadFront` and `markdownToBlocks` throw. `stringify` is taken never to throw. `updateYamlInfo` reloads the same note, so its `loadFront` cannot throw once the sync's did not. Lemmas that need the loader's split take it as a stated hypothesis (`FrontMatter.SplitFront` models only `\n` line breaks, not `\r`).
- Obsidian's metadata cache: its view of a note's front matter is an input of the note.
- Obsidian's vault reads: a note's text is an input.
- Clipboard writes, `Notice` messages, `console.log`, `sleep(500)` and async scheduling. None of them affects the effects or their order.
- UI: the settings tab, the export dialog, the ribbon and commands, `addIcons`, `uploadFolder`'s dialog, the test command `appendChildren`, and `Message.ts`'s message table.
- JavaScript `Date` getters: a date is a record of its integer fields.
- Floating point: numbers are reals, so NaN and infinities are not modelled. `maxFiles` is an integer or `None` (NaN/undefined). A fractional `maxFiles` is not modelled.
- Object key order: an object's entries are taken in insertion order. JavaScript lists integer-like keys first, and that reordering is not modelled.
- `$` patterns in the replacement text of `String.replace`.
- Plugin.NoteTags: front-matter `tags` that are not a list of strings (for example a single string, which would make `tags.map` throw) are treated as no tags.
- Sync.SyncEventOrder: the API's `url` is taken to be a string, and the response's `id` is passed on unchanged to the appends.
- FrontMatter.SecondSyncIsFixedPoint: this assumes the YAML round trip, that is, js-yaml's loader reads `yaml.stringify`'s output back as the object it was made from. It also assumes that yaml-front-matter splits the note as `FrontMatter.SplitFront` does. Neither library is part of this model.
- Plugin.ObsidianExportNotionPlugin.constructor: the plugin is modelled from `onload` on. Between construction and `onload`, `settings` is `undefined` in the source, and that interval is not modelled.
- Settings.Merge: `Object.assign` also copies stored keys that are not settings, and stored `null` values. Each setting is an `Option`, so an extra key is dropped and a stored `null` counts as missing.
- `isValidDate` on a non-string argument (the regular expression converts it to a string first).
