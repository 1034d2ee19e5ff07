/** createPage (NotionInteractions.ts): the body of the create request. A
    `Name` title and a `Tags` multi-select, an optional banner cover, then the
    mapped front-matter properties, where an `image` property also sets cover
    and icon. */
module PageBody {
  import opened Json
  import opened Wrappers
  import opened PageProperties

  /** The create request's body: the parent database, the properties object,
      the top-level blocks, and the external URLs of cover and icon. */
  datatype Page = Page(databaseId: string, properties: seq<Entry>, children: seq<Value>, cover: Option<Value>, icon: Option<Value>)

  /** `{title: [{text: {content: title}}]}` */
  function TitleProperty(title: string): Value {
    Obj([Entry("title", Arr([Obj([Entry("text", Obj([Entry("content", Str(title))]))])]))])
  }

  /** Each tag as a named multi-select option. */
  function TagOptions(tags: seq<string>): (r: seq<Value>)
    ensures |r| == |tags|
    ensures forall i :: 0 <= i < |tags| ==> r[i] == Obj([Entry("name", Str(tags[i]))])
  {
    seq(|tags|, i requires 0 <= i < |tags| => Obj([Entry("name", Str(tags[i]))]))
  }

  /** The tags as options when tags are allowed and defined (`None` is
      `undefined`), otherwise no option. */
  function TagsProperty(allowTags: bool, tags: Option<seq<string>>): Value {
    Obj([Entry("multi_select", Arr(if allowTags && tags.Some? then TagOptions(tags.value) else []))])
  }

  /** The body before the front-matter properties are merged in. */
  function InitialPage(databaseId: string, bannerUrl: string, title: string, allowTags: bool,
                       tags: Option<seq<string>>, children: seq<Value>): Page {
    Page(databaseId,
         [Entry("Name", TitleProperty(title)), Entry("Tags", TagsProperty(allowTags, tags))],
         children,
         if bannerUrl != "" then Some(Str(bannerUrl)) else None,
         None)
  }

  /** `value.rich_text[0].plain_text` */
  function ImageUrl(value: Value): Result<Value, JsError> {
    match GetProp(value, "rich_text")
    case Failure(e) => Failure(e)
    case Success(run) =>
      match GetIndex(run, 0)
      case Failure(e) => Failure(e)
      case Success(segment) => GetProp(segment, "plain_text")
  }

  /** An `image` property triggers the cover/icon rewrite (`value !== ""`). */
  predicate IsImage(p: Property) {
    p.id == "image" && p.content != Str("")
  }

  /** One step of the merge: assign the property, then apply the `image` rule. */
  function AddProperty(page: Page, p: Property): Result<Page, JsError> {
    var updated := page.(properties := Put(page.properties, p.id, p.content));
    if IsImage(p) then
      match ImageUrl(p.content)
      case Failure(e) => Failure(e)
      case Success(url) => Success(updated.(cover := Some(url), icon := Some(url)))
    else Success(updated)
  }

  /** The properties merged in order; the first failing image read stops it. */
  function WithProperties(page: Page, props: seq<Property>): Result<Page, JsError> {
    if props == [] then Success(page)
    else
      match WithProperties(page, props[..|props| - 1])
      case Failure(e) => Failure(e)
      case Success(merged) => AddProperty(merged, props[|props| - 1])
  }

  function PageBodyOf(databaseId: string, bannerUrl: string, title: string, allowTags: bool,
                      tags: Option<seq<string>>, children: seq<Value>, pageProperties: seq<Property>): Result<Page, JsError> {
    WithProperties(InitialPage(databaseId, bannerUrl, title, allowTags, tags, children), pageProperties)
  }

  /** createPage up to the request: builds the body, assigning each property
      and applying the `image` rule in a loop. A TypeError escapes as `Failure`. */
  method CreatePageBody(databaseId: string, bannerUrl: string, title: string, allowTags: bool,
                        tags: Option<seq<string>>, childArr: seq<Value>, pageProperties: seq<Property>)
    returns (body: Result<Page, JsError>)
    ensures body == PageBodyOf(databaseId, bannerUrl, title, allowTags, tags, childArr, pageProperties)
  {
    var page := Page(databaseId, [Entry("Name", TitleProperty(title)), Entry("Tags", TagsProperty(allowTags, tags))], childArr, None, None);
    if bannerUrl != "" {
      page := page.(cover := Some(Str(bannerUrl)));
    }
    ghost var initial := page;
    for i := 0 to |pageProperties|
      invariant WithProperties(initial, pageProperties[..i]) == Success(page)
    {
      assert pageProperties[..i + 1][..i] == pageProperties[..i];
      var propName, value := pageProperties[i].id, pageProperties[i].content;
      page := page.(properties := Put(page.properties, propName, value));
      if propName == "image" && value != Str("") {
        var url := ImageUrl(value);
        if url.Failure? {
          assert pageProperties[..i + 1][..i] == pageProperties[..i];
          FailureStops(initial, pageProperties, i + 1);
          return Failure(url.error);
        }
        page := page.(cover := Some(url.value), icon := Some(url.value));
      }
    }
    assert pageProperties[..|pageProperties|] == pageProperties;
    return Success(page);
  }

  /** A failed prefix fails the whole merge with the same error. */
  lemma {:induction false} FailureStops(page: Page, props: seq<Property>, i: nat)
    requires i <= |props|
    requires WithProperties(page, props[..i]).Failure?
    ensures WithProperties(page, props) == WithProperties(page, props[..i])
  {
    if i == |props| {
      assert props[..i] == props;
    } else {
      var n := |props| - 1;
      assert props[..n][..i] == props[..i];
      FailureStops(page, props[..n], i);
    }
  }

  // ---------------------------------------------------------------------------
  // What the merge promises

  /** The content of the last property named `k`, or `base` when none is. */
  function LastContent(props: seq<Property>, k: string, base: Value): Value {
    if props == [] then base
    else if props[|props| - 1].id == k then props[|props| - 1].content
    else LastContent(props[..|props| - 1], k, base)
  }

  /** The last `image` property, if any. */
  function LastImage(props: seq<Property>): Option<Property> {
    if props == [] then None
    else if IsImage(props[|props| - 1]) then Some(props[|props| - 1])
    else LastImage(props[..|props| - 1])
  }

  /** Mapped properties overwrite same-named entries (the last one wins);
      every other entry, `Name` and `Tags` included, keeps its value. The
      database and the blocks are untouched. */
  lemma {:induction false} MergedProperties(page: Page, props: seq<Property>, k: string)
    requires WithProperties(page, props).Success?
    ensures Lookup(WithProperties(page, props).value.properties, k) == LastContent(props, k, Lookup(page.properties, k))
    ensures WithProperties(page, props).value.databaseId == page.databaseId
    ensures WithProperties(page, props).value.children == page.children
  {
    if props != [] {
      var n := |props| - 1;
      MergedProperties(page, props[..n], k);
      var merged := WithProperties(page, props[..n]).value;
      LookupPut(merged.properties, props[n].id, props[n].content, k);
    }
  }

  /** The last `image` property sets both cover and icon to its plain text;
      without one the banner (if any) is the cover and there is no icon. */
  lemma {:induction false} MergedCoverAndIcon(page: Page, props: seq<Property>)
    requires WithProperties(page, props).Success?
    ensures var result := WithProperties(page, props).value;
      match LastImage(props)
      case None => result.cover == page.cover && result.icon == page.icon
      case Some(p) => ImageUrl(p.content).Success? && result.cover == Some(ImageUrl(p.content).value) && result.icon == result.cover
  {
    if props != [] {
      MergedCoverAndIcon(page, props[..|props| - 1]);
    }
  }

  /** The merge fails exactly when some `image` property has no readable
      `rich_text[0].plain_text`, which is the case for a number. */
  lemma {:induction false} MergeFailsOnUnreadableImage(page: Page, props: seq<Property>)
    ensures WithProperties(page, props).Failure? <==>
      exists i :: 0 <= i < |props| && IsImage(props[i]) && ImageUrl(props[i].content).Failure?
  {
    if props != [] {
      var n := |props| - 1;
      MergeFailsOnUnreadableImage(page, props[..n]);
      assert forall i :: 0 <= i < n ==> props[..n][i] == props[i];
    }
  }

  /** A number under the `image` key cannot be read as rich text. */
  lemma NumberImageUnreadable(n: real)
    ensures ImageUrl(NumberValue(n)).Failure?
  {
  }

  /** A string under the `image` key gives its own text as the image URL. */
  lemma StringImageReadable(text: string)
    ensures ImageUrl(RichText(text)) == Success(Str(text))
  {
    RichTextCarriesText(text);
  }

  /** The page title: `Name.title[0].text.content` is the title. */
  lemma TitleCarriesTitle(title: string)
    ensures GetProp(TitleProperty(title), "title").Success?
    ensures var run := GetProp(TitleProperty(title), "title").value;
      GetIndex(run, 0).Success? && GetProp(GetIndex(run, 0).value, "text").Success?
      && GetProp(GetProp(GetIndex(run, 0).value, "text").value, "content") == Success(Str(title))
  {
  }

  /** Without a front-matter property of that name, `Name` holds the title and
      `Tags` the tag options (none unless tags are allowed and defined). */
  lemma NameAndTags(databaseId: string, bannerUrl: string, title: string, allowTags: bool,
                    tags: Option<seq<string>>, children: seq<Value>, props: seq<Property>)
    requires PageBodyOf(databaseId, bannerUrl, title, allowTags, tags, children, props).Success?
    ensures var page := PageBodyOf(databaseId, bannerUrl, title, allowTags, tags, children, props).value;
      ((forall i :: 0 <= i < |props| ==> props[i].id != "Name") ==> Lookup(page.properties, "Name") == TitleProperty(title))
      && ((forall i :: 0 <= i < |props| ==> props[i].id != "Tags") ==> Lookup(page.properties, "Tags") == TagsProperty(allowTags, tags))
      && page.children == children && page.databaseId == databaseId
  {
    var initial := InitialPage(databaseId, bannerUrl, title, allowTags, tags, children);
    MergedProperties(initial, props, "Name");
    MergedProperties(initial, props, "Tags");
    if forall i :: 0 <= i < |props| ==> props[i].id != "Name" {
      LastContentAbsent(props, "Name", Lookup(initial.properties, "Name"));
    }
    if forall i :: 0 <= i < |props| ==> props[i].id != "Tags" {
      LastContentAbsent(props, "Tags", Lookup(initial.properties, "Tags"));
    }
  }

  lemma {:induction false} LastContentAbsent(props: seq<Property>, k: string, base: Value)
    requires forall i :: 0 <= i < |props| ==> props[i].id != k
    ensures LastContent(props, k, base) == base
  {
    if props != [] {
      LastContentAbsent(props[..|props| - 1], k, base);
    }
  }
}
