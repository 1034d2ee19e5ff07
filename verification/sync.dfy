/** syncMarkdownToNotion, updatePage, createPage's request and appendBlocks
    (NotionInteractions.ts): what one sync sends and writes, and in which order.
    The outside world is an oracle that answers each effect given everything
    done before it. */
module Sync {
  import opened Wrappers
  import opened Json
  import opened Libraries
  import opened Chunking
  import opened ApiLimits
  import opened PageProperties
  import opened PageBody
  import opened FrontMatter
  import opened Settings

  /** The effects the plugin has on the outside world. */
  datatype Event =
    | Delete(pageId: Value)
    | Create(body: Page)
    | Append(parent: Value, children: seq<Value>)
    | WriteFile(path: string, text: string)
    | CreateFile(path: string, text: string)

  /** The answer to the last effect of a history: a thrown error (a network
      failure, a request the API refused, a failed write) or a response with
      its status and, for a page, its `id` and `url`. */
  datatype Reply = Threw | Answered(status: int, id: Value, url: string)

  type World = seq<Event> -> Reply

  /** Deepest `children` nesting the create request may carry. */
  const MaxChildDepth: nat := 2

  /** What a sync returns: `false` for too deep a tree, `undefined` when the
      create request failed, the response otherwise; `Raised` is an exception
      that escapes the sync. */
  datatype SyncResult = TooDeep | NoResponse | Responded(status: int, id: Value, url: string) | Raised

  datatype SyncRun = SyncRun(events: seq<Event>, result: SyncResult)

  /** `res && res.status === 200` */
  predicate Succeeded(r: SyncResult) {
    r.Responded? && r.status == 200
  }

  /** The page id read from Obsidian's cached front matter (`null` without one). */
  function CachedNotionId(cached: Option<seq<Entry>>): Value {
    match cached
    case None => Null
    case Some(fields) => Lookup(fields, "notionID")
  }

  /** createPage: builds the body (a TypeError escapes) and posts it; a failed
      post is caught and yields no response. */
  function CreatePage(world: World, history: seq<Event>, settings: PluginSettings, title: string, allowTags: bool,
                      tags: Option<seq<string>>, childArr: seq<Value>, props: seq<Property>): SyncRun {
    match PageBodyOf(settings.databaseID, settings.bannerUrl, title, allowTags, tags, childArr, props)
    case Failure(_) => SyncRun([], Raised)
    case Success(body) =>
      match world(history + [Create(body)])
      case Threw => SyncRun([Create(body)], NoResponse)
      case Answered(status, id, url) => SyncRun([Create(body)], Responded(status, id, url))
  }

  /** updatePage: deletes the old page, then creates the new one. The delete is
      not guarded: when it throws, so does the update. */
  function UpdatePage(world: World, history: seq<Event>, settings: PluginSettings, notionID: Value, title: string,
                      allowTags: bool, tags: Option<seq<string>>, childArr: seq<Value>, props: seq<Property>): SyncRun {
    if world(history + [Delete(notionID)]) == Threw then SyncRun([Delete(notionID)], Raised)
    else
      var created := CreatePage(world, history + [Delete(notionID)], settings, title, allowTags, tags, childArr, props);
      SyncRun([Delete(notionID)] + created.events, created.result)
  }

  /** appendBlocks: sends the first 99 blocks, then the rest the same way; a
      failed request is caught and ends the chain. */
  function AppendBlocks(world: World, history: seq<Event>, parent: Value, content: seq<Value>): seq<Event>
    decreases |content|
  {
    var split := SplitTop(content);
    var sent := [Append(parent, split.0)];
    if world(history + sent) == Threw || split.1 == [] then sent
    else sent + AppendBlocks(world, history + sent, parent, split.1)
  }

  /** The request step of a sync: replace the page when the note names one
      (a truthy id), otherwise create a page. */
  function SendPage(world: World, history: seq<Event>, settings: PluginSettings, notionID: Value, title: string,
                    allowTags: bool, tags: Option<seq<string>>, head: seq<Value>, props: seq<Property>): SyncRun {
    if Truthy(notionID) then UpdatePage(world, history, settings, notionID, title, allowTags, tags, head, props)
    else CreatePage(world, history, settings, title, allowTags, tags, head, props)
  }

  /** The step after the request: on status 200, rewrite the note with the
      page's link and id, then append the overflow to the new page; on any
      other result, nothing more. */
  function AfterResponse(libs: Libs, world: World, history: seq<Event>, settings: PluginSettings, markdown: string,
                         path: string, res: SyncRun, overflow: seq<Value>): SyncRun {
    if Succeeded(res.result) then
      var written := res.events + [WriteFile(path, UpdatedText(libs, markdown, res.result.url, res.result.id, settings.notionID))];
      var appended := if overflow != [] then AppendBlocks(world, history + written, res.result.id, overflow) else [];
      SyncRun(written + appended, res.result)
    else res
  }

  /** syncMarkdownToNotion: converts the note (an exception from either
      library escapes), refuses too deep a tree before any request, creates or
      replaces the page with the first 99 blocks, and on status 200 writes the
      link into the note, then appends the overflow. */
  function SyncMarkdownToNotion(libs: Libs, world: World, history: seq<Event>, settings: PluginSettings, title: string,
                                allowTags: bool, tags: Option<seq<string>>, markdown: string, path: string,
                                notionID: Value): SyncRun {
    if !Readable(libs, markdown) then SyncRun([], Raised)
    else
      var front := libs.loadFront(markdown);
      var blocks := libs.markdownToBlocks(front.content);
      if Depth(Arr(blocks)) > MaxChildDepth then SyncRun([], TooDeep)
      else
        var split := SplitTop(blocks);
        var props := NotionProperties(LoadedObject(front));
        AfterResponse(libs, world, history, settings, markdown, path,
                      SendPage(world, history, settings, notionID, title, allowTags, tags, split.0, props), split.1)
  }

  // ---------------------------------------------------------------------------
  // appendBlocks

  function Appends(parent: Value, chunks: seq<seq<Value>>): (events: seq<Event>)
    ensures |events| == |chunks|
    ensures forall i :: 0 <= i < |chunks| ==> events[i] == Append(parent, chunks[i])
  {
    seq(|chunks|, i requires 0 <= i < |chunks| => Append(parent, chunks[i]))
  }

  /** No append request throws, whatever was sent before it. */
  ghost predicate AppendsSucceed(world: World) {
    forall h: seq<Event>, e: Event :: e.Append? ==> world(h + [e]) != Threw
  }

  /** appendBlocks sends a non-empty prefix of the 99-block slices of the
      content, in order; all of them when no append request fails. */
  lemma {:induction false} AppendBlocksSendsChunks(world: World, history: seq<Event>, parent: Value, content: seq<Value>)
    ensures exists n :: 1 <= n <= |Chunks(content)| && AppendBlocks(world, history, parent, content) == Appends(parent, Chunks(content)[..n])
    ensures AppendsSucceed(world) ==> AppendBlocks(world, history, parent, content) == Appends(parent, Chunks(content))
    decreases |content|
  {
    var split := SplitTop(content);
    var sent := [Append(parent, split.0)];
    if world(history + sent) == Threw || split.1 == [] {
      assert Chunks(content)[..1] == [split.0];
    } else {
      assert Chunks(content) == [split.0] + Chunks(split.1);
      AppendBlocksSendsChunks(world, history + sent, parent, split.1);
      var m :| 1 <= m <= |Chunks(split.1)| && AppendBlocks(world, history + sent, parent, split.1) == Appends(parent, Chunks(split.1)[..m]);
      assert Chunks(content)[..m + 1] == [split.0] + Chunks(split.1)[..m];
      assert Appends(parent, Chunks(content)[..m + 1]) == sent + Appends(parent, Chunks(split.1)[..m]);
    }
    if AppendsSucceed(world) {
      AppendBlocksSendsAll(world, history, parent, content);
    }
  }

  /** When no append request fails, appendBlocks sends every 99-block slice. */
  lemma {:induction false} AppendBlocksSendsAll(world: World, history: seq<Event>, parent: Value, content: seq<Value>)
    requires AppendsSucceed(world)
    ensures AppendBlocks(world, history, parent, content) == Appends(parent, Chunks(content))
    decreases |content|
  {
    var split := SplitTop(content);
    var sent := [Append(parent, split.0)];
    assert world(history + [Append(parent, split.0)]) != Threw;
    if split.1 == [] {
      assert Chunks(content) == [content];
    } else {
      assert Chunks(content) == [split.0] + Chunks(split.1);
      AppendBlocksSendsAll(world, history + sent, parent, split.1);
      assert Appends(parent, Chunks(content)) == sent + Appends(parent, Chunks(split.1));
    }
  }

  /** The blocks appendBlocks sends, in order, are a prefix of the content and
      all of it when no append request fails; no request holds more than 99 blocks. */
  lemma AppendedBlocks(world: World, history: seq<Event>, parent: Value, content: seq<Value>)
    ensures var events := AppendBlocks(world, history, parent, content);
      (forall i :: 0 <= i < |events| ==> events[i].Append? && events[i].parent == parent && |events[i].children| <= MaxBlocksPerRequest)
      && (AppendsSucceed(world) ==> Flatten(ChildrenOf(events)) == content)
  {
    AppendBlocksSendsChunks(world, history, parent, content);
    ChunkSizes(content);
    var events := AppendBlocks(world, history, parent, content);
    var n :| 1 <= n <= |Chunks(content)| && events == Appends(parent, Chunks(content)[..n]);
    if AppendsSucceed(world) {
      assert ChildrenOf(events) == Chunks(content);
      ChunksFlatten(content);
    }
  }

  function ChildrenOf(events: seq<Event>): (cs: seq<seq<Value>>)
    requires forall i :: 0 <= i < |events| ==> events[i].Append?
    ensures |cs| == |events|
    ensures forall i :: 0 <= i < |events| ==> cs[i] == events[i].children
  {
    seq(|events|, i requires 0 <= i < |events| && events[i].Append? => events[i].children)
  }

  // ---------------------------------------------------------------------------
  // syncMarkdownToNotion

  /** The blocks a note converts to. */
  function NoteBlocks(libs: Libs, markdown: string): seq<Value> {
    libs.markdownToBlocks(libs.loadFront(markdown).content)
  }

  /** The limit check of syncMarkdownToNotion, run on the walker: refuse the
      tree when its `children` nesting exceeds two. */
  method ExceedsLimits(blocks: seq<Value>) returns (tooDeep: bool)
    ensures tooDeep <==> Depth(Arr(blocks)) > MaxChildDepth
  {
    var limits := new CheckApiLimits(blocks);
    tooDeep := limits.maxChildDepth > MaxChildDepth;
  }

  /** Too deep a tree is refused before anything is sent or written, whatever
      its length; any other readable note is not refused. */
  lemma TooDeepSendsNothing(libs: Libs, world: World, history: seq<Event>, settings: PluginSettings, title: string,
                            allowTags: bool, tags: Option<seq<string>>, markdown: string, path: string, notionID: Value)
    ensures var run := SyncMarkdownToNotion(libs, world, history, settings, title, allowTags, tags, markdown, path, notionID);
      (run.result == TooDeep <==> Readable(libs, markdown) && Depth(Arr(NoteBlocks(libs, markdown))) > MaxChildDepth)
      && (run.result == TooDeep ==> run.events == [])
  {
    var blocks := NoteBlocks(libs, markdown);
    if Readable(libs, markdown) && Depth(Arr(blocks)) <= MaxChildDepth {
      var front := libs.loadFront(markdown);
      var split := SplitTop(blocks);
      var props := NotionProperties(LoadedObject(front));
      var res := SendPage(world, history, settings, notionID, title, allowTags, tags, split.0, props);
      assert SyncMarkdownToNotion(libs, world, history, settings, title, allowTags, tags, markdown, path, notionID)
        == AfterResponse(libs, world, history, settings, markdown, path, res, split.1);
      SendPageShape(world, history, settings, notionID, title, allowTags, tags, split.0, props);
      AfterResponseKeepsResult(libs, world, history, settings, markdown, path, res, split.1);
    }
  }

  /** The steps after the request step never change its outcome. */
  lemma AfterResponseKeepsResult(libs: Libs, world: World, history: seq<Event>, settings: PluginSettings,
                                 markdown: string, path: string, res: SyncRun, overflow: seq<Value>)
    ensures AfterResponse(libs, world, history, settings, markdown, path, res, overflow).result == res.result
  {
  }

  /** The delete syncMarkdownToNotion sends first: one exactly when the note has a page id. */
  function Deletes(notionID: Value): (del: seq<Event>)
    ensures |del| <= 1 && (del != [] <==> Truthy(notionID))
  {
    if Truthy(notionID) then [Delete(notionID)] else []
  }

  /** The requests before the note is written: the delete, if any, then at
      most one create carrying `head`. */
  ghost predicate RequestsShape(events: seq<Event>, notionID: Value, head: seq<Value>) {
    var del := Deletes(notionID);
    |del| <= |events| <= |del| + 1 && events[..|del|] == del
    && (|events| > |del| ==> events[|del|].Create? && events[|del|].body.children == head)
  }

  /** The appends after the rewrite: all to `parent`, at most 99 blocks each,
      present exactly when there is overflow, and handing over all of it, in
      order, when no append request fails. */
  ghost predicate AppendsOf(events: seq<Event>, parent: Value, overflow: seq<Value>, world: World) {
    (forall i :: 0 <= i < |events| ==>
       events[i].Append? && events[i].parent == parent && |events[i].children| <= MaxBlocksPerRequest)
    && (events != [] <==> overflow != [])
    && (AppendsSucceed(world) ==> Flatten(ChildrenOf(events)) == overflow)
  }

  lemma {:induction false} CreatePageShape(world: World, history: seq<Event>, settings: PluginSettings, title: string, allowTags: bool,
                                          tags: Option<seq<string>>, childArr: seq<Value>, props: seq<Property>)
    ensures var run := CreatePage(world, history, settings, title, allowTags, tags, childArr, props);
      |run.events| <= 1 && (forall i :: 0 <= i < |run.events| ==> run.events[i].Create? && run.events[i].body.children == childArr)
      && (run.result.Responded? ==> |run.events| == 1)
      && (run.result == Raised <==> PageBodyOf(settings.databaseID, settings.bannerUrl, title, allowTags, tags, childArr, props).Failure?)
  {
    match PageBodyOf(settings.databaseID, settings.bannerUrl, title, allowTags, tags, childArr, props)
    case Failure(_) =>
    case Success(body) =>
      NameAndTags(settings.databaseID, settings.bannerUrl, title, allowTags, tags, childArr, props);
  }

  /** A delete first exactly when the note names a page, then at most one
      create carrying the given blocks; a response means the create was sent. */
  lemma {:induction false} SendPageShape(world: World, history: seq<Event>, settings: PluginSettings, notionID: Value,
                                        title: string, allowTags: bool, tags: Option<seq<string>>, head: seq<Value>,
                                        props: seq<Property>)
    ensures var res := SendPage(world, history, settings, notionID, title, allowTags, tags, head, props);
      RequestsShape(res.events, notionID, head)
      && (res.result.Responded? ==> |res.events| == |Deletes(notionID)| + 1)
      && res.result != TooDeep
  {
    if Truthy(notionID) {
      CreatePageShape(world, history + [Delete(notionID)], settings, title, allowTags, tags, head, props);
    } else {
      CreatePageShape(world, history, settings, title, allowTags, tags, head, props);
    }
  }

  /** The order of effects after the request step: nothing unless the status
      is 200; then the note's rewrite, and only after it the appends of the
      overflow to the new page. */
  lemma {:induction false} AfterResponseOrder(libs: Libs, world: World, history: seq<Event>, settings: PluginSettings,
                                             markdown: string, path: string, res: SyncRun, overflow: seq<Value>)
    ensures var run := AfterResponse(libs, world, history, settings, markdown, path, res, overflow);
      run.result == res.result
      && (!Succeeded(res.result) ==> run.events == res.events)
      && (Succeeded(res.result) ==>
            |run.events| > |res.events|
            && run.events[..|res.events| + 1]
               == res.events + [WriteFile(path, UpdatedText(libs, markdown, res.result.url, res.result.id, settings.notionID))]
            && AppendsOf(run.events[|res.events| + 1..], res.result.id, overflow, world))
  {
    if Succeeded(res.result) {
      var written := res.events + [WriteFile(path, UpdatedText(libs, markdown, res.result.url, res.result.id, settings.notionID))];
      var appended := if overflow != [] then AppendBlocks(world, history + written, res.result.id, overflow) else [];
      if overflow != [] {
        AppendedBlocks(world, history + written, res.result.id, overflow);
        AppendBlocksSendsChunks(world, history + written, res.result.id, overflow);
      } else {
        assert Flatten(ChildrenOf([])) == [];
      }
      assert (written + appended)[..|written|] == written;
      assert (written + appended)[|written|..] == appended;
    }
  }

  /** The order of one sync's effects: the requests first (a delete exactly
      when the note has a page id, then at most one create, carrying `head`);
      then, only on status 200, the note's rewrite, and after it the appends
      of `overflow` to the new page. */
  ghost predicate EffectOrder(run: SyncRun, notionID: Value, head: seq<Value>, overflow: seq<Value>,
                              libs: Libs, world: World, markdown: string, path: string, vanity: string)
  {
    var n := |Deletes(notionID)| + 1;
    if Succeeded(run.result) then
      |run.events| > n && RequestsShape(run.events[..n], notionID, head) && run.events[n - 1].Create?
      && run.events[n] == WriteFile(path, UpdatedText(libs, markdown, run.result.url, run.result.id, vanity))
      && AppendsOf(run.events[n + 1..], run.result.id, overflow, world)
    else
      RequestsShape(run.events, notionID, head)
  }

  /** The request step followed by the steps after it keeps that order. */
  lemma StagesInOrder(libs: Libs, world: World, history: seq<Event>, settings: PluginSettings, title: string,
                      allowTags: bool, tags: Option<seq<string>>, markdown: string, path: string, notionID: Value,
                      head: seq<Value>, props: seq<Property>, overflow: seq<Value>)
    ensures var res := SendPage(world, history, settings, notionID, title, allowTags, tags, head, props);
      EffectOrder(AfterResponse(libs, world, history, settings, markdown, path, res, overflow),
                  notionID, head, overflow, libs, world, markdown, path, settings.notionID)
  {
    var res := SendPage(world, history, settings, notionID, title, allowTags, tags, head, props);
    var run := AfterResponse(libs, world, history, settings, markdown, path, res, overflow);
    SendPageShape(world, history, settings, notionID, title, allowTags, tags, head, props);
    AfterResponseOrder(libs, world, history, settings, markdown, path, res, overflow);
    if Succeeded(res.result) {
      var n := |res.events|;
      assert run.events[..n] == run.events[..n + 1][..n] == res.events;
      assert run.events[n] == run.events[..n + 1][n];
    }
  }

  /** The order of effects of one sync: a delete first exactly when the note
      has a page id; then at most one create, carrying the first 99 blocks;
      then, only on status 200, the note's rewrite, and only after it the
      appends of the overflow (the blocks past the 99th) to the new page. */
  lemma SyncEventOrder(libs: Libs, world: World, history: seq<Event>, settings: PluginSettings, title: string,
                       allowTags: bool, tags: Option<seq<string>>, markdown: string, path: string, notionID: Value)
    ensures var run := SyncMarkdownToNotion(libs, world, history, settings, title, allowTags, tags, markdown, path, notionID);
      var blocks := NoteBlocks(libs, markdown);
      Readable(libs, markdown) && run.result != TooDeep ==>
        EffectOrder(run, notionID, SplitTop(blocks).0, SplitTop(blocks).1, libs, world, markdown, path, settings.notionID)
  {
    var blocks := NoteBlocks(libs, markdown);
    if Readable(libs, markdown) && Depth(Arr(blocks)) <= MaxChildDepth {
      var front := libs.loadFront(markdown);
      var split := SplitTop(blocks);
      var props := NotionProperties(LoadedObject(front));
      var res := SendPage(world, history, settings, notionID, title, allowTags, tags, split.0, props);
      assert SyncMarkdownToNotion(libs, world, history, settings, title, allowTags, tags, markdown, path, notionID)
        == AfterResponse(libs, world, history, settings, markdown, path, res, split.1);
      StagesInOrder(libs, world, history, settings, title, allowTags, tags, markdown, path, notionID, split.0, props, split.1);
    }
  }

  /** A note that either library throws on raises before anything is sent
      or written. */
  lemma LibraryErrorRaises(libs: Libs, world: World, history: seq<Event>, settings: PluginSettings, title: string,
                           allowTags: bool, tags: Option<seq<string>>, markdown: string, path: string, notionID: Value)
    requires !Readable(libs, markdown)
    ensures SyncMarkdownToNotion(libs, world, history, settings, title, allowTags, tags, markdown, path, notionID)
      == SyncRun([], Raised)
  {
  }

  /** A page id whose delete throws aborts the sync: nothing is created. */
  lemma FailedDeleteAborts(libs: Libs, world: World, history: seq<Event>, settings: PluginSettings, title: string,
                           allowTags: bool, tags: Option<seq<string>>, markdown: string, path: string, notionID: Value)
    requires Readable(libs, markdown) && Depth(Arr(NoteBlocks(libs, markdown))) <= MaxChildDepth
    requires Truthy(notionID) && world(history + [Delete(notionID)]) == Threw
    ensures SyncMarkdownToNotion(libs, world, history, settings, title, allowTags, tags, markdown, path, notionID)
      == SyncRun([Delete(notionID)], Raised)
  {
  }

  /** A note with a number under `image` makes the body unbuildable: the
      sync raises after the delete (when the note names a page) and creates
      nothing. */
  lemma NumberImageRaises(libs: Libs, world: World, history: seq<Event>, settings: PluginSettings, title: string,
                          allowTags: bool, tags: Option<seq<string>>, markdown: string, path: string, notionID: Value,
                          n: real)
    requires Readable(libs, markdown) && Depth(Arr(NoteBlocks(libs, markdown))) <= MaxChildDepth
    requires Property("image", NumberValue(n)) in NotionProperties(LoadedObject(libs.loadFront(markdown)))
    ensures SyncMarkdownToNotion(libs, world, history, settings, title, allowTags, tags, markdown, path, notionID)
      == SyncRun(Deletes(notionID), Raised)
  {
    var props := NotionProperties(LoadedObject(libs.loadFront(markdown)));
    var head := SplitTop(NoteBlocks(libs, markdown)).0;
    assert PageBodyOf(settings.databaseID, settings.bannerUrl, title, allowTags, tags, head, props).Failure? by {
      var i :| 0 <= i < |props| && props[i] == Property("image", NumberValue(n));
      NumberImageUnreadable(n);
      assert IsImage(props[i]);
      MergeFailsOnUnreadableImage(InitialPage(settings.databaseID, settings.bannerUrl, title, allowTags, tags, head), props);
    }
    UnbuildableBodyRaises(libs, world, history, settings, title, allowTags, tags, markdown, path, notionID);
  }

  /** A note whose request body cannot be built raises after the delete (when
      the note names a page), before any create. */
  lemma UnbuildableBodyRaises(libs: Libs, world: World, history: seq<Event>, settings: PluginSettings, title: string,
                              allowTags: bool, tags: Option<seq<string>>, markdown: string, path: string, notionID: Value)
    requires Readable(libs, markdown) && Depth(Arr(NoteBlocks(libs, markdown))) <= MaxChildDepth
    requires PageBodyOf(settings.databaseID, settings.bannerUrl, title, allowTags, tags, SplitTop(NoteBlocks(libs, markdown)).0,
                        NotionProperties(LoadedObject(libs.loadFront(markdown)))).Failure?
    ensures SyncMarkdownToNotion(libs, world, history, settings, title, allowTags, tags, markdown, path, notionID)
      == SyncRun(Deletes(notionID), Raised)
  {
    var split := SplitTop(NoteBlocks(libs, markdown));
    var props := NotionProperties(LoadedObject(libs.loadFront(markdown)));
    var res := SendPage(world, history, settings, notionID, title, allowTags, tags, split.0, props);
    if Truthy(notionID) {
      CreatePageShape(world, history + [Delete(notionID)], settings, title, allowTags, tags, split.0, props);
    } else {
      CreatePageShape(world, history, settings, title, allowTags, tags, split.0, props);
    }
    assert res == SyncRun(Deletes(notionID), Raised);
    assert SyncMarkdownToNotion(libs, world, history, settings, title, allowTags, tags, markdown, path, notionID)
      == AfterResponse(libs, world, history, settings, markdown, path, res, split.1);
  }

  /** A 150-block note with no page id, against an API that always answers
      200: one create with the first 99 blocks, the note's rewrite, then one
      append of the remaining 51. */
  lemma OneHundredFiftyBlocks(libs: Libs, world: World, settings: PluginSettings, title: string, markdown: string,
                              path: string, id: Value, url: string)
    requires Readable(libs, markdown) && libs.loadFront(markdown).fields == []
    requires |NoteBlocks(libs, markdown)| == 150 && Depth(Arr(NoteBlocks(libs, markdown))) <= MaxChildDepth
    requires forall t :: world(t) == Answered(200, id, url)
    ensures var run := SyncMarkdownToNotion(libs, world, [], settings, title, false, None, markdown, path, Null);
      var blocks := NoteBlocks(libs, markdown);
      |run.events| == 3
      && run.events[0].Create? && run.events[0].body.children == blocks[..99]
      && run.events[1] == WriteFile(path, UpdatedText(libs, markdown, url, id, settings.notionID))
      && run.events[2] == Append(id, blocks[99..]) && |blocks[99..]| == 51
  {
    var blocks := NoteBlocks(libs, markdown);
    var front := libs.loadFront(markdown);
    ReservedAssignmentInvisible(front.fields, "__content", Str(front.content));
    assert NotionProperties(LoadedObject(front)) == [];
    assert SplitTop(blocks) == (blocks[..99], blocks[99..]);
    var initial := InitialPage(settings.databaseID, settings.bannerUrl, title, false, None, blocks[..99]);
    assert PageBodyOf(settings.databaseID, settings.bannerUrl, title, false, None, blocks[..99], []) == Success(initial);
    FreshPageSync(libs, world, [], settings, title, false, None, markdown, path, initial, id, url);
    var written := [Create(initial), WriteFile(path, UpdatedText(libs, markdown, url, id, settings.notionID))];
    OneAppendForSmallContent(world, written, id, blocks[99..]);
  }

  /** A note without a page id whose create is answered 200: the create, the
      rewrite, then the appends of the overflow. */
  lemma FreshPageSync(libs: Libs, world: World, history: seq<Event>, settings: PluginSettings, title: string,
                      allowTags: bool, tags: Option<seq<string>>, markdown: string, path: string, body: Page,
                      id: Value, url: string)
    requires Readable(libs, markdown) && Depth(Arr(NoteBlocks(libs, markdown))) <= MaxChildDepth
    requires PageBodyOf(settings.databaseID, settings.bannerUrl, title, allowTags, tags, SplitTop(NoteBlocks(libs, markdown)).0,
                        NotionProperties(LoadedObject(libs.loadFront(markdown)))) == Success(body)
    requires world(history + [Create(body)]) == Answered(200, id, url)
    ensures var written := [Create(body), WriteFile(path, UpdatedText(libs, markdown, url, id, settings.notionID))];
      var overflow := SplitTop(NoteBlocks(libs, markdown)).1;
      SyncMarkdownToNotion(libs, world, history, settings, title, allowTags, tags, markdown, path, Null)
      == SyncRun(written + (if overflow != [] then AppendBlocks(world, history + written, id, overflow) else []),
                 Responded(200, id, url))
  {
    var front := libs.loadFront(markdown);
    var split := SplitTop(NoteBlocks(libs, markdown));
    var props := NotionProperties(LoadedObject(front));
    var res := SendPage(world, history, settings, Null, title, allowTags, tags, split.0, props);
    assert res == SyncRun([Create(body)], Responded(200, id, url));
    assert SyncMarkdownToNotion(libs, world, history, settings, title, allowTags, tags, markdown, path, Null)
      == AfterResponse(libs, world, history, settings, markdown, path, res, split.1);
    var written := [Create(body), WriteFile(path, UpdatedText(libs, markdown, url, id, settings.notionID))];
    assert res.events + [WriteFile(path, UpdatedText(libs, markdown, res.result.url, res.result.id, settings.notionID))] == written;
  }

  /** Content within the ceiling goes in one append, whatever the reply. */
  lemma OneAppendForSmallContent(world: World, history: seq<Event>, parent: Value, content: seq<Value>)
    requires |content| <= MaxBlocksPerRequest
    ensures AppendBlocks(world, history, parent, content) == [Append(parent, content)]
  {
    assert SplitTop(content) == (content, []);
  }
}
