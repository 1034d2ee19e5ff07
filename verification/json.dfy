/** JavaScript values as the sync engine sees them: the converted content
    tree, the parsed front matter and the request bodies it builds. An object
    is the ordered list of its own properties, in the order `Object.keys` and
    `for ... in` enumerate them. */
module Json {
  import opened Wrappers
  import Strings
  datatype Value =
    | Null
    | Undefined  // a key that is present with the value `undefined`
    | Bool(b: bool)
    | Num(n: real)
    | Str(s: string)
    | Arr(items: seq<Value>)
    | Obj(entries: seq<Entry>)

  /** One own property of an object. */
  datatype Entry = Entry(key: string, value: Value)

  /** `typeof v === 'object' && v !== null` */
  predicate IsContainer(v: Value) {
    v.Arr? || v.Obj?
  }

  /** JavaScript truthiness (the model has no NaN). */
  predicate Truthy(v: Value) {
    match v
    case Null => false
    case Undefined => false
    case Bool(b) => b
    case Num(n) => n != 0.0
    case Str(s) => s != ""
    case _ => true
  }

  function Keys(es: seq<Entry>): (ks: seq<string>)
    ensures |ks| == |es|
    ensures forall i :: 0 <= i < |es| ==> ks[i] == es[i].key
  {
    seq(|es|, i requires 0 <= i < |es| => es[i].key)
  }

  predicate HasKey(es: seq<Entry>, k: string) {
    k in Keys(es)
  }

  /** `obj[k]`: the value of the first entry with key `k`, `undefined` when there is none. */
  function Lookup(es: seq<Entry>, k: string): (v: Value)
    ensures !HasKey(es, k) ==> v == Undefined
  {
    if es == [] then Undefined
    else if es[0].key == k then es[0].value
    else
      assert Keys(es) == [es[0].key] + Keys(es[1..]);
      Lookup(es[1..], k)
  }

  /** The first entry with key `k` is the one read. */
  lemma {:induction false} LookupAt(es: seq<Entry>, i: nat, k: string)
    requires i < |es| && es[i].key == k
    requires forall j :: 0 <= j < i ==> es[j].key != k
    ensures Lookup(es, k) == es[i].value
  {
    if i > 0 {
      LookupAt(es[1..], i - 1, k);
    }
  }

  /** `obj[k] = v`: an existing key keeps its place and takes the new value,
      a new key is added after all others. */
  function Put(es: seq<Entry>, k: string, v: Value): seq<Entry>
  {
    if es == [] then [Entry(k, v)]
    else if es[0].key == k then [Entry(k, v)] + es[1..]
    else [es[0]] + Put(es[1..], k, v)
  }

  /** Reading back after `obj[k] = v` gives `v` at `k` and the old value elsewhere. */
  lemma {:induction false} LookupPut(es: seq<Entry>, k: string, v: Value, k': string)
    ensures Lookup(Put(es, k, v), k') == if k' == k then v else Lookup(es, k')
  {
    if es != [] && es[0].key != k {
      LookupPut(es[1..], k, v, k');
      assert Put(es, k, v)[1..] == Put(es[1..], k, v);
    } else if es != [] {
      assert Put(es, k, v)[1..] == es[1..];
    }
  }

  /** Assigning an existing key keeps the key order; a new key goes last. */
  lemma {:induction false} PutShape(es: seq<Entry>, k: string, v: Value)
    ensures HasKey(es, k) ==> Keys(Put(es, k, v)) == Keys(es)
    ensures !HasKey(es, k) ==> Put(es, k, v) == es + [Entry(k, v)]
  {
    if es != [] {
      var rest := es[1..];
      assert es == [es[0]] + rest;
      KeysCons(es[0], rest);
      if es[0].key != k {
        PutShape(rest, k, v);
        KeysCons(es[0], Put(rest, k, v));
        assert HasKey(es, k) <==> HasKey(rest, k);
      } else {
        KeysCons(Entry(k, v), rest);
      }
    }
  }

  lemma KeysCons(e: Entry, es: seq<Entry>)
    ensures Keys([e] + es) == [e.key] + Keys(es)
  {
  }

  /** After `obj[k] = v` the object has the key `k`. */
  lemma PutHasKey(es: seq<Entry>, k: string, v: Value)
    ensures HasKey(Put(es, k, v), k)
  {
    PutShape(es, k, v);
    if !HasKey(es, k) {
      assert Keys(es + [Entry(k, v)])[|es|] == k;
    }
  }

  /** Assigning a present key the value it already reads as changes nothing. */
  lemma {:induction false} PutSame(es: seq<Entry>, k: string)
    requires HasKey(es, k)
    ensures Put(es, k, Lookup(es, k)) == es
  {
    if es[0].key != k {
      assert Keys(es) == [es[0].key] + Keys(es[1..]);
      PutSame(es[1..], k);
    }
  }

  /** Deleting a key the object does not have changes nothing. */
  lemma {:induction false} RemoveAbsent(es: seq<Entry>, k: string)
    requires !HasKey(es, k)
    ensures Remove(es, k) == es
  {
    if es != [] {
      assert Keys(es) == [es[0].key] + Keys(es[1..]);
      RemoveAbsent(es[1..], k);
    }
  }

  /** `delete obj[k]`: every entry with key `k` goes, the others keep their order. */
  function Remove(es: seq<Entry>, k: string): (r: seq<Entry>)
    ensures !HasKey(r, k)
    ensures forall k' :: k' != k ==> Lookup(r, k') == Lookup(es, k')
    ensures forall e :: e in r <==> e in es && e.key != k
  {
    if es == [] then []
    else if es[0].key == k then Remove(es[1..], k)
    else [es[0]] + Remove(es[1..], k)
  }

  /** Deleting from a concatenation deletes from each part. */
  lemma {:induction false} RemoveConcat(es: seq<Entry>, more: seq<Entry>, k: string)
    ensures Remove(es + more, k) == Remove(es, k) + Remove(more, k)
  {
    if es == [] {
      assert es + more == more;
    } else {
      assert (es + more)[1..] == es[1..] + more;
      RemoveConcat(es[1..], more, k);
    }
  }

  /** Deleting a key from two objects with the same key order leaves them with
      the same key order. */
  lemma {:induction false} RemoveKeepsKeyOrder(es: seq<Entry>, fs: seq<Entry>, k: string)
    requires Keys(es) == Keys(fs)
    ensures Keys(Remove(es, k)) == Keys(Remove(fs, k))
  {
    if es != [] {
      assert Keys(es[1..]) == Keys(es)[1..];
      assert Keys(fs[1..]) == Keys(fs)[1..];
      RemoveKeepsKeyOrder(es[1..], fs[1..], k);
      assert es[0].key == fs[0].key;
      if es[0].key != k {
        KeysCons(es[0], Remove(es[1..], k));
        KeysCons(fs[0], Remove(fs[1..], k));
      }
    }
  }

  /** What a property access throws: reading a property of `null` or `undefined`. */
  datatype JsError = TypeError

  /** `v.key` for a named key (neither an array index nor `length`). */
  function GetProp(v: Value, key: string): Result<Value, JsError> {
    match v
    case Null => Failure(TypeError)
    case Undefined => Failure(TypeError)
    case Obj(es) => Success(Lookup(es, key))
    case _ => Success(Undefined)
  }

  /** `v[i]` */
  function GetIndex(v: Value, i: nat): Result<Value, JsError> {
    match v
    case Null => Failure(TypeError)
    case Undefined => Failure(TypeError)
    case Arr(items) => Success(if i < |items| then items[i] else Undefined)
    case Str(s) => Success(if i < |s| then Str([s[i]]) else Undefined)
    case Obj(es) => Success(Lookup(es, Strings.NatToString(i)))
    case _ => Success(Undefined)
  }
}
