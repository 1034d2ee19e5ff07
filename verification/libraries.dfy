/** The third-party code the plugin calls, seen only through what it returns:
    yaml-front-matter's `loadFront`, martian's `markdownToBlocks` (with
    truncation off) and yaml's `stringify`. Their internals are not modelled;
    every lemma about them says which of their results it relies on. */
module Libraries {
  import opened Json

  /** What `loadFront` reads from a note: the header's fields in order and the
      text that follows the header. */
  datatype Front = Front(fields: seq<Entry>, content: string)

  /** The libraries as functions of their input. `frontThrows` says on which
      notes `loadFront` throws (a header js-yaml cannot parse), and
      `blocksThrow` on which texts `markdownToBlocks` throws; `loadFront` and
      `markdownToBlocks` give the result on the other inputs. */
  datatype Libs = Libs(
    loadFront: string -> Front,
    frontThrows: string -> bool,
    markdownToBlocks: string -> seq<Value>,
    blocksThrow: string -> bool,
    stringify: seq<Entry> -> string)

  /** Both conversions at the start of a sync return instead of throwing. */
  predicate Readable(libs: Libs, markdown: string) {
    !libs.frontThrows(markdown) && !libs.blocksThrow(libs.loadFront(markdown).content)
  }

  /** The object `loadFront` returns: the header's fields with `__content` set
      to the text after the header. */
  function LoadedObject(front: Front): (obj: seq<Entry>)
    ensures Lookup(obj, "__content") == Str(front.content)
    ensures forall k :: k != "__content" ==> Lookup(obj, k) == Lookup(front.fields, k)
  {
    forall k ensures Lookup(Put(front.fields, "__content", Str(front.content)), k) ==
      if k == "__content" then Str(front.content) else Lookup(front.fields, k) {
      LookupPut(front.fields, "__content", Str(front.content), k);
    }
    Put(front.fields, "__content", Str(front.content))
  }
}
