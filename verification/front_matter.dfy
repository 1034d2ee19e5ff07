/** updateYamlInfo (NotionInteractions.ts): after a successful create, the note
    is rewritten with the page's `link` and `notionID` in its header. */
module FrontMatter {
  import opened Wrappers
  import opened Json
  import opened Strings
  import opened Libraries

  /** The page URL, with `www.notion.so` replaced by `<notionID>.notion.site`
      when a workspace name is configured. */
  function VanityUrl(url: string, notionID: string): string {
    if notionID != "" then ReplaceFirst(url, "www.notion.so", notionID + ".notion.site") else url
  }

  /** `s.replace(/\n$/, '')`: one newline at the very end goes. */
  function DropFinalNewline(s: string): (r: string)
    ensures |s| > 0 && s[|s| - 1] == '\n' ==> s == r + "\n"
    ensures !(|s| > 0 && s[|s| - 1] == '\n') ==> r == s
  {
    if |s| > 0 && s[|s| - 1] == '\n' then s[..|s| - 1] else s
  }

  /** `s.replace(/^\n/, '')`: one newline at the very start goes. */
  function DropLeadingNewline(s: string): (r: string)
    ensures |s| > 0 && s[0] == '\n' ==> s == "\n" + r
    ensures !(|s| > 0 && s[0] == '\n') ==> r == s
  {
    if |s| > 0 && s[0] == '\n' then s[1..] else s
  }

  /** The object whose YAML becomes the new header: `link` and `notionID`
      assigned, `__content` deleted. */
  function HeaderObject(obj: seq<Entry>, link: string, id: Value): seq<Entry> {
    Remove(Put(Put(obj, "link", Str(link)), "notionID", id), "__content")
  }

  /** The new note text: the header between `---` lines, then the body. */
  function Assemble(head: string, content: string): string {
    "---\n" + DropFinalNewline(head) + "\n---\n" + DropLeadingNewline(content)
  }

  /** The text updateYamlInfo writes for a note, given the created page's `url`
      and `id` and the configured workspace name. */
  function UpdatedText(libs: Libs, markdown: string, url: string, id: Value, notionID: string): string {
    var front := libs.loadFront(markdown);
    Assemble(libs.stringify(HeaderObject(LoadedObject(front), VanityUrl(url, notionID), id)), front.content)
  }

  // ---------------------------------------------------------------------------
  // The header

  /** The new header holds the (rewritten) link and the page id, no
      `__content`, and every other field unchanged. */
  lemma HeaderSetsSyncMetadata(obj: seq<Entry>, link: string, id: Value, k: string)
    ensures var head := HeaderObject(obj, link, id);
      Lookup(head, "link") == Str(link) && Lookup(head, "notionID") == id && !HasKey(head, "__content")
      && (k != "link" && k != "notionID" && k != "__content" ==> Lookup(head, k) == Lookup(obj, k))
  {
    var withLink := Put(obj, "link", Str(link));
    LookupPut(obj, "link", Str(link), "link");
    LookupPut(obj, "link", Str(link), k);
    LookupPut(withLink, "notionID", id, "link");
    LookupPut(withLink, "notionID", id, "notionID");
    LookupPut(withLink, "notionID", id, k);
  }

  /** On a first sync the two fields are appended at the end of the header. */
  lemma FirstSyncAppendsMetadata(obj: seq<Entry>, link: string, id: Value)
    requires !HasKey(obj, "link") && !HasKey(obj, "notionID")
    ensures HeaderObject(obj, link, id) == Remove(obj, "__content") + [Entry("link", Str(link)), Entry("notionID", id)]
  {
    PutShape(obj, "link", Str(link));
    var withLink := obj + [Entry("link", Str(link))];
    assert !HasKey(withLink, "notionID") by {
      assert Keys(withLink) == Keys(obj) + ["link"];
    }
    PutShape(withLink, "notionID", id);
    var tail := [Entry("link", Str(link)), Entry("notionID", id)];
    assert withLink + [Entry("notionID", id)] == obj + tail;
    RemoveConcat(obj, tail, "__content");
    MetadataSurvivesRemove(link, id);
  }

  lemma MetadataSurvivesRemove(link: string, id: Value)
    ensures Remove([Entry("link", Str(link)), Entry("notionID", id)], "__content") == [Entry("link", Str(link)), Entry("notionID", id)]
  {
    var tail := [Entry("link", Str(link)), Entry("notionID", id)];
    assert tail[1..][1..] == [];
    assert Remove(tail[1..], "__content") == [Entry("notionID", id)] + Remove([], "__content");
  }

  /** On a re-sync the two fields are updated where they stand: the header
      keeps its key order. */
  lemma ResyncKeepsKeyOrder(obj: seq<Entry>, link: string, id: Value)
    requires HasKey(obj, "link") && HasKey(obj, "notionID")
    ensures Keys(HeaderObject(obj, link, id)) == Keys(Remove(obj, "__content"))
  {
    var withLink := Put(obj, "link", Str(link));
    PutShape(obj, "link", Str(link));
    PutShape(withLink, "notionID", id);
    RemoveKeepsKeyOrder(Put(withLink, "notionID", id), obj, "__content");
  }

  // ---------------------------------------------------------------------------
  // The link

  /** With a workspace name, a standard page URL points at the workspace's
      public site; the path is kept. */
  lemma VanityRewrite(notionID: string, path: string)
    requires notionID != ""
    ensures VanityUrl("https://www.notion.so/" + path, notionID) == "https://" + notionID + ".notion.site" + "/" + path
  {
    assert "https://www.notion.so/" + path == "https://" + "www.notion.so" + ("/" + path);
    HostAfterScheme("/" + path);
    VanityAfter("https://", "/" + path, notionID);
  }

  /** The host is replaced where it first occurs. */
  lemma VanityAfter(scheme: string, rest: string, notionID: string)
    requires notionID != ""
    requires forall j :: 0 <= j < |scheme| ==> !OccursAt(scheme + "www.notion.so" + rest, "www.notion.so", j)
    ensures VanityUrl(scheme + "www.notion.so" + rest, notionID) == scheme + notionID + ".notion.site" + rest
  {
    ReplaceFirstAfter(scheme, "www.notion.so", rest, notionID + ".notion.site");
  }

  /** `https://` holds no `w`, so the host cannot start inside it. */
  lemma HostAfterScheme(rest: string)
    ensures forall j :: 0 <= j < |"https://"| ==> !OccursAt("https://" + "www.notion.so" + rest, "www.notion.so", j)
  {
    var scheme, url := "https://", "https://" + "www.notion.so" + rest;
    assert 'w' !in scheme;
    forall j | 0 <= j < |scheme| ensures !OccursAt(url, "www.notion.so", j) {
      assert url[j] == scheme[j];
      NoOccurrenceOnFirstMismatch(url, "www.notion.so", j);
    }
  }

  /** Without a workspace name the link is the URL as returned. */
  lemma NoVanityKeepsUrl(url: string)
    ensures VanityUrl(url, "") == url
  {
  }

  // ---------------------------------------------------------------------------
  // The written text, read back

  /** How yaml-front-matter splits a text: an opening `---` and line break, a
      header of at least one character, then the first line break and `---`
      after it; all that follows is the content. A text without such a header
      is all content. */
  datatype Split = Split(header: Option<string>, content: string)

  function SplitFront(text: string): Split {
    if |text| >= 5 && text[..4] == "---\n" then
      match IndexOf(text[5..], "\n---")
      case Some(j) => Split(Some(text[4..5 + j]), text[9 + j..])
      case None => Split(None, text)
    else Split(None, text)
  }

  /** A header text that the closing delimiter cannot be found inside. */
  predicate CleanHeader(h: string) {
    h != "" && !Includes(h[1..] + "\n--", "\n---")
  }

  /** The written note reads back as the header that was written and the body
      with one line break in front, which the next sync drops again. */
  lemma WrittenTextSplitsBack(head: string, content: string)
    requires CleanHeader(DropFinalNewline(head))
    ensures SplitFront(Assemble(head, content)) ==
      Split(Some(DropFinalNewline(head)), "\n" + DropLeadingNewline(content))
  {
    var h := DropFinalNewline(head);
    var body := DropLeadingNewline(content);
    var a := h[1..];
    assert Assemble(head, content) == "---\n" + h + "\n---\n" + body;
    DelimitedShape(h, body);
    NoEarlyClose(a, "\n" + body);
    IndexOfAfter(a, "\n---", "\n" + body);
  }

  /** Where the parts of `---\n<h>\n---\n<body>` sit. */
  lemma DelimitedShape(h: string, body: string)
    requires h != ""
    ensures var text := "---\n" + h + "\n---\n" + body;
      |text| >= 5 && text[..4] == "---\n"
      && text[5..] == h[1..] + "\n---" + ("\n" + body)
      && text[4..4 + |h|] == h && text[8 + |h|..] == "\n" + body
  {
  }

  /** A header whose text (with the start of the delimiter) holds no closing
      delimiter has no occurrence of it before the real one. */
  lemma NoEarlyClose(a: string, rest: string)
    requires !Includes(a + "\n--", "\n---")
    ensures forall j :: 0 <= j < |a| ==> !OccursAt(a + "\n---" + rest, "\n---", j)
  {
    forall j | 0 <= j < |a| ensures !OccursAt(a + "\n---" + rest, "\n---", j) {
      if OccursAt(a + "\n---" + rest, "\n---", j) {
        OccursInPrefix(a + "\n--", a + "\n---" + rest, "\n---", j);
      }
    }
  }

  /** Syncing a written note again keeps its body: only the header changes. */
  lemma ResyncKeepsBody(head: string, content: string, head': string)
    requires CleanHeader(DropFinalNewline(head))
    ensures Assemble(head', SplitFront(Assemble(head, content)).content) == Assemble(head', content)
  {
    WrittenTextSplitsBack(head, content);
  }

  /** Loading a written header back and assigning the same link and id again
      gives the same header: both fields already hold those values, and the
      `__content` the loader adds is deleted again. */
  lemma HeaderObjectIdempotent(obj: seq<Entry>, link: string, id: Value, content: string)
    ensures var header := HeaderObject(obj, link, id);
      HeaderObject(LoadedObject(Front(header, content)), link, id) == header
  {
    var header := HeaderObject(obj, link, id);
    HeaderHoldsMetadata(obj, link, id);
    var extra := Entry("__content", Str(content));
    var loaded := LoadedObject(Front(header, content));
    PutShape(header, "__content", Str(content));
    assert loaded == header + [extra];
    ReassignAppended(header, extra, "link");
    ReassignAppended(header, extra, "notionID");
    RemoveConcat(header, [extra], "__content");
    RemoveAbsent(header, "__content");
    assert Remove([extra], "__content") == [];
  }

  /** The new header has both sync fields, and no `__content`. */
  lemma HeaderHoldsMetadata(obj: seq<Entry>, link: string, id: Value)
    ensures var header := HeaderObject(obj, link, id);
      HasKey(header, "link") && HasKey(header, "notionID") && !HasKey(header, "__content")
      && Lookup(header, "link") == Str(link) && Lookup(header, "notionID") == id
  {
    var withLink := Put(obj, "link", Str(link));
    PutHasKey(obj, "link", Str(link));
    PutShape(withLink, "notionID", id);
    PutHasKey(withLink, "notionID", id);
    HeaderSetsSyncMetadata(obj, link, id, "link");
    KeySurvivesRemove(Put(withLink, "notionID", id), "link", "__content");
    KeySurvivesRemove(Put(withLink, "notionID", id), "notionID", "__content");
  }

  /** Assigning a key of `es` the value it reads as, after an entry was
      appended, changes nothing. */
  lemma ReassignAppended(es: seq<Entry>, e: Entry, k: string)
    requires HasKey(es, k)
    ensures Put(es + [e], k, Lookup(es, k)) == es + [e]
  {
    KeysSnoc(es, e, k);
    LookupSnoc(es, e, k);
    PutSame(es + [e], k);
  }

  /** A key other than the deleted one stays. */
  lemma KeySurvivesRemove(es: seq<Entry>, k: string, gone: string)
    requires HasKey(es, k) && k != gone
    ensures HasKey(Remove(es, gone), k)
  {
    var i :| 0 <= i < |es| && Keys(es)[i] == k;
    assert es[i] in Remove(es, gone);
    var j :| 0 <= j < |Remove(es, gone)| && Remove(es, gone)[j] == es[i];
    assert Keys(Remove(es, gone))[j] == k;
  }

  /** A key present in `es` is still present after an entry is appended. */
  lemma KeysSnoc(es: seq<Entry>, e: Entry, k: string)
    requires HasKey(es, k)
    ensures HasKey(es + [e], k)
  {
    var i :| 0 <= i < |es| && Keys(es)[i] == k;
    assert Keys(es + [e])[i] == k;
  }

  /** ... and reads the same, since the first entry with it comes earlier. */
  lemma {:induction false} LookupSnoc(es: seq<Entry>, e: Entry, k: string)
    requires HasKey(es, k)
    ensures Lookup(es + [e], k) == Lookup(es, k)
  {
    var rest := es[1..];
    assert es == [es[0]] + rest;
    KeysCons(es[0], rest);
    if es[0].key != k {
      SnocTail(es, e);
      LookupSnoc(rest, e, k);
    }
  }

  lemma SnocTail(es: seq<Entry>, e: Entry)
    requires es != []
    ensures (es + [e])[0] == es[0] && (es + [e])[1..] == es[1..] + [e]
  {
  }


  /** When the loader reads the written note back as the header it was written
      from and the body `SplitFront` finds, a second sync writes the note
      unchanged. */
  lemma {:induction false} SecondSyncIsFixedPoint(libs: Libs, markdown: string, url: string, id: Value, notionID: string)
    requires var front := libs.loadFront(markdown);
      CleanHeader(DropFinalNewline(libs.stringify(HeaderObject(LoadedObject(front), VanityUrl(url, notionID), id))))
    requires var written := UpdatedText(libs, markdown, url, id, notionID);
      libs.loadFront(written)
        == Front(HeaderObject(LoadedObject(libs.loadFront(markdown)), VanityUrl(url, notionID), id), SplitFront(written).content)
    ensures UpdatedText(libs, UpdatedText(libs, markdown, url, id, notionID), url, id, notionID)
      == UpdatedText(libs, markdown, url, id, notionID)
  {
    var front := libs.loadFront(markdown);
    var link := VanityUrl(url, notionID);
    var header := HeaderObject(LoadedObject(front), link, id);
    var written := UpdatedText(libs, markdown, url, id, notionID);
    HeaderObjectIdempotent(LoadedObject(front), link, id, SplitFront(written).content);
    var head := libs.stringify(header);
    ResyncKeepsBody(head, front.content, head);
  }
}
