/**
 * The PHP values the logging pipeline builds and passes around. A PHP array is
 * an ordered dictionary: a sequence of key/value entries in insertion order.
 */
module PhpValue {
  import opened Wrappers

  datatype Key = IntKey(n: int) | StrKey(name: string)

  datatype Value =
    | Null
    | Bool(b: bool)
    | Int(n: int)
    | Str(text: string)
    | Time(ms: int)              // a Carbon instance, as milliseconds since the epoch
    | Arr(entries: seq<Entry>)   // a PHP array

  datatype Entry = Entry(key: Key, val: Value)

  function Keys(entries: seq<Entry>): (ks: seq<Key>)
    ensures |ks| == |entries|
    ensures forall i :: 0 <= i < |entries| ==> ks[i] == entries[i].key
  {
    if entries == [] then [] else [entries[0].key] + Keys(entries[1..])
  }

  /** PHP arrays never hold a key twice. */
  predicate UniqueKeys(entries: seq<Entry>) {
    forall i, j :: 0 <= i < j < |entries| ==> entries[i].key != entries[j].key
  }

  /** `$array[$k] ?? null`: the value stored under `k`, if any. */
  function Get(entries: seq<Entry>, k: Key): (r: Option<Value>)
    ensures r.Some? <==> k in Keys(entries)
  {
    if entries == [] then None
    else if entries[0].key == k then Some(entries[0].val)
    else Get(entries[1..], k)
  }

  /** The value found under `k` is the one of its first occurrence. */
  lemma {:induction false} GetFirst(entries: seq<Entry>, k: Key, i: nat)
    requires i < |entries| && entries[i].key == k
    requires forall j :: 0 <= j < i ==> entries[j].key != k
    ensures Get(entries, k) == Some(entries[i].val)
    decreases i
  {
    if i > 0 {
      assert forall j :: 0 <= j < i - 1 ==> entries[1..][j] == entries[j + 1];
      GetFirst(entries[1..], k, i - 1);
    }
  }

  /** In an array without repeated keys, every entry is what lookup of its key finds. */
  lemma GetUnique(entries: seq<Entry>, i: nat)
    requires UniqueKeys(entries) && i < |entries|
    ensures Get(entries, entries[i].key) == Some(entries[i].val)
  {
    GetFirst(entries, entries[i].key, i);
  }

  /** A literal two-entry array: its keys in order, and what lookup finds. */
  lemma GetOfPair(a: Entry, b: Entry)
    requires a.key != b.key
    ensures Keys([a, b]) == [a.key, b.key]
    ensures Get([a, b], a.key) == Some(a.val) && Get([a, b], b.key) == Some(b.val)
  {
    assert [a, b][1..] == [b];
  }

  /** A literal three-entry array: its keys in order, and what lookup finds. */
  lemma GetOfTriple(a: Entry, b: Entry, c: Entry)
    requires a.key != b.key && a.key != c.key && b.key != c.key
    ensures Keys([a, b, c]) == [a.key, b.key, c.key]
    ensures Get([a, b, c], a.key) == Some(a.val) && Get([a, b, c], b.key) == Some(b.val)
    ensures Get([a, b, c], c.key) == Some(c.val)
  {
    assert [a, b, c][1..] == [b, c];
    GetOfPair(b, c);
  }

  /**
   * `$array[$k] = $v`: an existing key keeps its position and gets the new
   * value; a new key is appended at the end.
   */
  function Put(entries: seq<Entry>, k: Key, v: Value): (r: seq<Entry>)
    ensures Get(r, k) == Some(v)
    ensures forall k' :: k' != k ==> Get(r, k') == Get(entries, k')
    ensures k in Keys(entries) ==> Keys(r) == Keys(entries)
    ensures k !in Keys(entries) ==> r == entries + [Entry(k, v)]
  {
    if entries == [] then [Entry(k, v)]
    else if entries[0].key == k then
      PutHere(entries, k, v);
      [Entry(k, v)] + entries[1..]
    else
      var tail := Put(entries[1..], k, v);
      PutBehind(entries, k, v, tail);
      if k !in Keys(entries[1..]) then
        AppendBehind(entries, Entry(k, v));
        [entries[0]] + tail
      else
        [entries[0]] + tail
  }

  /** Lookup and keys of an array with `e` in front of `rest`. */
  lemma ConsParts(e: Entry, rest: seq<Entry>)
    ensures Keys([e] + rest) == [e.key] + Keys(rest)
    ensures forall k :: Get([e] + rest, k) == if e.key == k then Some(e.val) else Get(rest, k)
  {
    assert ([e] + rest)[1..] == rest;
  }

  /** Put when the key is in front: the value is replaced in place. */
  lemma PutHere(entries: seq<Entry>, k: Key, v: Value)
    requires entries != [] && entries[0].key == k
    ensures var r := [Entry(k, v)] + entries[1..];
            && Get(r, k) == Some(v)
            && (forall k' :: k' != k ==> Get(r, k') == Get(entries, k'))
            && k in Keys(entries) && Keys(r) == Keys(entries)
  {
    ConsParts(Entry(k, v), entries[1..]);
    ConsParts(entries[0], entries[1..]);
    assert entries == [entries[0]] + entries[1..];
  }

  /** Put when the key is not in front: the front entry stays, the rest is updated. */
  lemma PutBehind(entries: seq<Entry>, k: Key, v: Value, tail: seq<Entry>)
    requires entries != [] && entries[0].key != k
    requires Get(tail, k) == Some(v)
    requires forall k' :: k' != k ==> Get(tail, k') == Get(entries[1..], k')
    requires k in Keys(entries[1..]) ==> Keys(tail) == Keys(entries[1..])
    ensures var r := [entries[0]] + tail;
            && Get(r, k) == Some(v)
            && (forall k' :: k' != k ==> Get(r, k') == Get(entries, k'))
            && (k in Keys(entries) ==> Keys(r) == Keys(entries))
            && (k in Keys(entries) <==> k in Keys(entries[1..]))
  {
    ConsParts(entries[0], tail);
    ConsParts(entries[0], entries[1..]);
    assert entries == [entries[0]] + entries[1..];
    assert k in Keys(entries) <==> k in Keys(entries[1..]);
  }

  lemma AppendBehind(entries: seq<Entry>, e: Entry)
    requires entries != []
    ensures [entries[0]] + (entries[1..] + [e]) == entries + [e]
  {
    assert entries == [entries[0]] + entries[1..];
  }

  /** Assigning into an array keeps its keys unique. */
  lemma {:induction false} PutKeepsKeysUnique(entries: seq<Entry>, k: Key, v: Value)
    requires UniqueKeys(entries)
    ensures UniqueKeys(Put(entries, k, v))
  {
    var r := Put(entries, k, v);
    if k in Keys(entries) {
      assert Keys(r) == Keys(entries);
      forall i, j | 0 <= i < j < |r| ensures r[i].key != r[j].key {
        assert r[i].key == Keys(r)[i] == Keys(entries)[i];
        assert r[j].key == Keys(r)[j] == Keys(entries)[j];
      }
    } else {
      forall i, j | 0 <= i < j < |r| ensures r[i].key != r[j].key {
        if j == |entries| {
          assert entries[i].key in Keys(entries);
        }
      }
    }
  }

  /** `is_array($v) ? $v : [$v]`. */
  function AsArray(v: Value): (r: Value)
    ensures r.Arr?
    ensures v.Arr? ==> r == v
    ensures !v.Arr? ==> r.entries == [Entry(IntKey(0), v)]
  {
    if v.Arr? then v else Arr([Entry(IntKey(0), v)])
  }
}
