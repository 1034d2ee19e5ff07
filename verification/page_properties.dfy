/** formatNotionProperty (NotionInteractions.ts): front-matter entries become
    typed page properties; reserved keys and unsupported value types are skipped. */
module PageProperties {
  import opened Json
  import opened Wrappers

  /** One mapped property: its name and the value the remote API receives. */
  datatype Property = Property(id: string, content: Value)

  /** The body text, the stored link, the stored page id and the title (which
      comes from the file name) are never sent as properties. */
  predicate IsReserved(key: string) {
    key == "__content" || key == "link" || key == "notionID" || key == "title"
  }

  /** A URL-typed property. */
  function UrlValue(url: string): Value {
    Obj([Entry("url", Str(url))])
  }

  /** A number property. */
  function NumberValue(n: real): Value {
    Obj([Entry("number", Num(n))])
  }

  /** A rich-text property: one text segment without a link, with default
      styling, whose content and plain text are both `text`. */
  function RichText(text: string): Value {
    Obj([Entry("rich_text", Arr([TextSegment(text)]))])
  }

  function TextSegment(text: string): Value {
    Obj([
      Entry("type", Str("text")),
      Entry("text", TextContent(text)),
      Entry("annotations", DefaultAnnotations),
      Entry("plain_text", Str(text)),
      Entry("href", Null)
    ])
  }

  function TextContent(text: string): Value {
    Obj([Entry("content", Str(text)), Entry("link", Null)])
  }

  const DefaultAnnotations: Value := Obj([
    Entry("bold", Bool(false)),
    Entry("italic", Bool(false)),
    Entry("strikethrough", Bool(false)),
    Entry("underline", Bool(false)),
    Entry("code", Bool(false)),
    Entry("color", Str("default"))
  ])

  /** An entry that yields a property: not reserved, and a string, or a number
      under any key but `url`. */
  predicate IsMapped(e: Entry) {
    !IsReserved(e.key) && (e.value.Str? || (e.key != "url" && e.value.Num?))
  }

  /** The property a mapped entry yields. */
  function Converted(e: Entry): Property
    requires IsMapped(e)
  {
    if e.key == "url" then Property(e.key, UrlValue(e.value.s))
    else if e.value.Str? then Property(e.key, RichText(e.value.s))
    else Property(e.key, NumberValue(e.value.n))
  }

  /** The mapped entries, converted, in key order. */
  function NotionProperties(front: seq<Entry>): seq<Property> {
    if front == [] then []
    else
      var e := front[|front| - 1];
      NotionProperties(front[..|front| - 1]) + (if IsMapped(e) then [Converted(e)] else [])
  }

  /** formatNotionProperty: one pass over the keys in order, pushing a property
      for each key it can map. */
  method FormatNotionProperty(yamlFrontMatter: seq<Entry>) returns (notionObject: seq<Property>)
    ensures notionObject == NotionProperties(yamlFrontMatter)
  {
    notionObject := [];
    for i := 0 to |yamlFrontMatter|
      invariant notionObject == NotionProperties(yamlFrontMatter[..i])
    {
      var key, value := yamlFrontMatter[i].key, yamlFrontMatter[i].value;
      assert yamlFrontMatter[..i + 1][..i] == yamlFrontMatter[..i];
      if key == "__content" || key == "link" || key == "notionID" || key == "title" {
        // skipped
      } else if key == "url" {
        if value.Str? {
          notionObject := notionObject + [Property(key, UrlValue(value.s))];
        }
      } else if value.Str? {
        notionObject := notionObject + [Property(key, RichText(value.s))];
      } else if value.Num? {
        notionObject := notionObject + [Property(key, NumberValue(value.n))];
      }
    }
    assert yamlFrontMatter[..|yamlFrontMatter|] == yamlFrontMatter;
  }

  /** Mapping a concatenation maps each part: the output keeps key order. */
  lemma {:induction false} PropertiesConcat(a: seq<Entry>, b: seq<Entry>)
    ensures NotionProperties(a + b) == NotionProperties(a) + NotionProperties(b)
  {
    if b == [] {
      assert a + b == a;
    } else {
      var n := |b| - 1;
      assert (a + b)[..|a + b| - 1] == a + b[..n];
      PropertiesConcat(a, b[..n]);
    }
  }

  /** Assigning a reserved key, as the loader does with `__content`, changes
      nothing in the output. */
  lemma {:induction false} ReservedAssignmentInvisible(es: seq<Entry>, k: string, v: Value)
    requires IsReserved(k)
    ensures NotionProperties(Put(es, k, v)) == NotionProperties(es)
  {
    if es == [] {
      assert NotionProperties([Entry(k, v)]) == NotionProperties([]) + [];
    } else {
      assert es == [es[0]] + es[1..];
      PropertiesConcat([es[0]], es[1..]);
      assert NotionProperties([Entry(k, v)]) == NotionProperties([]) + [];
      if es[0].key == k {
        PropertiesConcat([Entry(k, v)], es[1..]);
        assert NotionProperties([es[0]]) == NotionProperties([]) + [];
      } else {
        ReservedAssignmentInvisible(es[1..], k, v);
        PropertiesConcat([es[0]], Put(es[1..], k, v));
      }
    }
  }

  /** A property is in the output exactly when some entry maps to it. */
  lemma {:induction false} PropertiesFromEntries(front: seq<Entry>, p: Property)
    ensures p in NotionProperties(front) <==> exists i :: 0 <= i < |front| && IsMapped(front[i]) && Converted(front[i]) == p
  {
    if front != [] {
      var n := |front| - 1;
      PropertiesFromEntries(front[..n], p);
      assert forall i :: 0 <= i < n ==> front[..n][i] == front[i];
    }
  }

  /** The reserved keys never appear among the properties. */
  lemma NoReservedProperty(front: seq<Entry>)
    ensures forall p :: p in NotionProperties(front) ==> !IsReserved(p.id)
  {
    forall p | p in NotionProperties(front) ensures !IsReserved(p.id) {
      PropertiesFromEntries(front, p);
    }
  }

  /** Each kind of value, as a single entry: a `url` string becomes a URL, a
      `url` of any other type is dropped, another string becomes rich text, a
      number a number, and every other type is dropped. */
  lemma SingleEntryMapping(key: string, v: Value)
    requires !IsReserved(key)
    ensures key == "url" && v.Str? ==> NotionProperties([Entry(key, v)]) == [Property(key, UrlValue(v.s))]
    ensures key == "url" && !v.Str? ==> NotionProperties([Entry(key, v)]) == []
    ensures key != "url" && v.Str? ==> NotionProperties([Entry(key, v)]) == [Property(key, RichText(v.s))]
    ensures key != "url" && v.Num? ==> NotionProperties([Entry(key, v)]) == [Property(key, NumberValue(v.n))]
    ensures !v.Str? && !v.Num? ==> NotionProperties([Entry(key, v)]) == []
  {
    assert [Entry(key, v)][..0] == [];
  }

  /** The rich text carries the string both as its content and as its plain text. */
  lemma RichTextField(text: string)
    ensures GetProp(RichText(text), "rich_text") == Success(Arr([TextSegment(text)]))
  {
    LookupAt(RichText(text).entries, 0, "rich_text");
  }

  lemma ContentField(text: string)
    ensures GetProp(TextContent(text), "content") == Success(Str(text))
  {
    LookupAt(TextContent(text).entries, 0, "content");
  }

  lemma SegmentFields(text: string)
    ensures Lookup(TextSegment(text).entries, "plain_text") == Str(text)
    ensures Lookup(TextSegment(text).entries, "text") == TextContent(text)
  {
    var es := TextSegment(text).entries;
    assert |"type"| == 4 && |"text"| == 4 && |"annotations"| == 11 && |"plain_text"| == 10;
    LookupAt(es, 3, "plain_text");
    LookupAt(es, 1, "text");
  }

  lemma RichTextCarriesText(text: string)
    ensures GetProp(RichText(text), "rich_text").Success?
    ensures var run := GetProp(RichText(text), "rich_text").value;
      GetIndex(run, 0).Success? && GetProp(GetIndex(run, 0).value, "plain_text") == Success(Str(text))
      && GetProp(GetIndex(run, 0).value, "text").Success?
      && GetProp(GetProp(GetIndex(run, 0).value, "text").value, "content") == Success(Str(text))
  {
    RichTextField(text);
    SegmentFields(text);
    ContentField(text);
  }
}
