/** The element tree of parser/Element.java: four immutable records, their
    toString, and Java's equality on them. A dictionary is the insertion-
    ordered entry list of the LinkedHashMap the parser fills. */
module Elements {
  import opened Java

  datatype Element =
    | BInteger(value: Int32)
    | BList(list: seq<Element>)
    | BDictionary(dict: seq<Entry>)
    | BString(str: string)

  /** One mapping of a dictionary: a BString key (its text) and its value. */
  datatype Entry = Entry(key: string, value: Element)

  // ------------------------------------------------ the LinkedHashMap view

  function Keys(dict: seq<Entry>): (r: seq<string>)
    ensures |r| == |dict| && forall k | 0 <= k < |dict| :: r[k] == dict[k].key
  {
    if dict == [] then [] else [dict[0].key] + Keys(dict[1..])
  }

  predicate DistinctKeys(dict: seq<Entry>)
  {
    forall i, j | 0 <= i < j < |dict| :: dict[i].key != dict[j].key
  }

  /** Map.get: the value of the first entry with that key, or null. */
  function Get(dict: seq<Entry>, key: string): (r: Option<Element>)
    ensures r.None? <==> key !in Keys(dict)
    ensures r.Some? ==> Entry(key, r.value) in dict
  {
    if dict == [] then None
    else if dict[0].key == key then Some(dict[0].value)
    else Get(dict[1..], key)
  }

  /** LinkedHashMap.put: a new key goes at the end; an existing key gets the
      new value and keeps its place. */
  function Put(dict: seq<Entry>, key: string, value: Element): (r: seq<Entry>)
    ensures |r| == if key in Keys(dict) then |dict| else |dict| + 1
  {
    if dict == [] then [Entry(key, value)]
    else if dict[0].key == key then [Entry(key, value)] + dict[1..]
    else [dict[0]] + Put(dict[1..], key, value)
  }

  /** The key order after put: unchanged for a known key, the new key last. */
  lemma {:induction false} PutKeys(dict: seq<Entry>, key: string, value: Element)
    ensures Keys(Put(dict, key, value)) == if key in Keys(dict) then Keys(dict) else Keys(dict) + [key]
  {
    if dict != [] && dict[0].key != key {
      PutKeys(dict[1..], key, value);
      assert Keys(dict) == [dict[0].key] + Keys(dict[1..]);
      assert key in Keys(dict) <==> key in Keys(dict[1..]);
    }
  }

  /** After put, the key maps to the new value and every other key to what
      it mapped to before. */
  lemma {:induction false} PutGet(dict: seq<Entry>, key: string, value: Element, other: string)
    ensures Get(Put(dict, key, value), key) == Some(value)
    ensures other != key ==> Get(Put(dict, key, value), other) == Get(dict, other)
  {
    if dict != [] && dict[0].key != key {
      PutGet(dict[1..], key, value, other);
    }
  }

  /** Putting a key that is not there appends the entry. */
  lemma {:induction false} PutNew(dict: seq<Entry>, key: string, value: Element)
    requires key !in Keys(dict)
    ensures Put(dict, key, value) == dict + [Entry(key, value)]
  {
    if dict != [] {
      assert Keys(dict) == [dict[0].key] + Keys(dict[1..]);
      PutNew(dict[1..], key, value);
      assert dict == [dict[0]] + dict[1..];
    }
  }

  /** put keeps the keys distinct. */
  lemma {:induction false} PutDistinct(dict: seq<Entry>, key: string, value: Element)
    requires DistinctKeys(dict)
    ensures DistinctKeys(Put(dict, key, value))
  {
    if dict != [] && dict[0].key != key {
      var tail := dict[1..];
      assert DistinctKeys(tail) by {
        forall i, j | 0 <= i < j < |tail| ensures tail[i].key != tail[j].key {
          assert tail[i] == dict[i + 1] && tail[j] == dict[j + 1];
        }
      }
      PutDistinct(tail, key, value);
      PutKeys(tail, key, value);
      var rest := Put(tail, key, value);
      assert dict[0].key !in Keys(tail) by {
        forall j | 0 <= j < |tail| ensures Keys(tail)[j] != dict[0].key {
          assert tail[j] == dict[j + 1];
        }
      }
      assert dict[0].key !in Keys(rest);
      DistinctCons(dict[0], rest);
    }
  }

  lemma DistinctCons(head: Entry, rest: seq<Entry>)
    requires DistinctKeys(rest) && head.key !in Keys(rest)
    ensures DistinctKeys([head] + rest)
  {
    var r := [head] + rest;
    forall i, j | 0 <= i < j < |r| ensures r[i].key != r[j].key {
      if i == 0 {
        assert r[j].key == Keys(rest)[j - 1];
      } else {
        assert r[i] == rest[i - 1] && r[j] == rest[j - 1];
      }
    }
  }

  /** Every dictionary in the tree has distinct keys, as a Map does. */
  predicate DistinctKeysDeep(e: Element)
  {
    match e
    case BInteger(_) => true
    case BString(_) => true
    case BList(items) => forall k | 0 <= k < |items| :: DistinctKeysDeep(items[k])
    case BDictionary(d) => DistinctKeys(d) && forall k | 0 <= k < |d| :: DistinctKeysDeep(d[k].value)
  }

  // ------------------------------------------------------------- toString

  /** BString.toString: the text between double quotes, nothing escaped. */
  function Quote(s: string): (r: string)
    ensures |r| == |s| + 2 && r[0] == '"' && r[|r| - 1] == '"' && r[1..|r| - 1] == s
  {
    "\"" + s + "\""
  }

  /** The records' toString: String.valueOf for an integer, the quoted text
      for a string, List.toString ("[a, b]") for a list and Map.toString
      ("{k=v, k=v}", keys quoted) for a dictionary. */
  function ToString(e: Element): string
  {
    match e
    case BInteger(v) => IntToString(v)
    case BString(s) => Quote(s)
    case BList(items) => "[" + JoinItems(items) + "]"
    case BDictionary(d) => "{" + JoinEntries(d) + "}"
  }

  /** The items' toString separated by ", ". */
  function JoinItems(items: seq<Element>): string
  {
    if items == [] then ""
    else if |items| == 1 then ToString(items[0])
    else ToString(items[0]) + ", " + JoinItems(items[1..])
  }

  /** The entries as key=value separated by ", ". */
  function JoinEntries(d: seq<Entry>): string
  {
    if d == [] then ""
    else
      var first := Quote(d[0].key) + "=" + ToString(d[0].value);
      if |d| == 1 then first else first + ", " + JoinEntries(d[1..])
  }

  /** ", "-joining concatenates the parts with the separator between them. */
  function Join(parts: seq<string>): string
  {
    if parts == [] then "" else if |parts| == 1 then parts[0] else parts[0] + ", " + Join(parts[1..])
  }

  /** List.toString is "[", the items' toString separated by ", ", and "]". */
  lemma {:induction false} ListToString(items: seq<Element>)
    ensures ToString(BList(items)) == "[" + Join(seq(|items|, k requires 0 <= k < |items| => ToString(items[k]))) + "]"
  {
    JoinItemsIsJoin(items);
  }

  lemma {:induction false} JoinItemsIsJoin(items: seq<Element>)
    ensures JoinItems(items) == Join(seq(|items|, k requires 0 <= k < |items| => ToString(items[k])))
  {
    var parts := seq(|items|, k requires 0 <= k < |items| => ToString(items[k]));
    if |items| > 1 {
      JoinItemsIsJoin(items[1..]);
      assert parts[1..] == seq(|items[1..]|, k requires 0 <= k < |items[1..]| => ToString(items[1..][k]));
    }
  }

  // --------------------------------------------------------------- equals

  /** Record equality: the same variant with equal components, where lists
      compare item by item (List.equals) and dictionaries as maps, whatever
      their order (Map.equals: same size, and every key of one maps to an
      equal value in the other). */
  predicate Equals(a: Element, b: Element)
  {
    match a
    case BInteger(x) => b.BInteger? && x == b.value
    case BString(x) => b.BString? && x == b.str
    case BList(xs) =>
      b.BList? && |xs| == |b.list| && forall k | 0 <= k < |xs| :: Equals(xs[k], b.list[k])
    case BDictionary(d) =>
      b.BDictionary? && |d| == |b.dict| &&
      forall k | 0 <= k < |d| :: Get(b.dict, d[k].key).Some? && Equals(d[k].value, Get(b.dict, d[k].key).value)
  }

  lemma {:induction false} GetDistinct(d: seq<Entry>, k: nat)
    requires DistinctKeys(d) && k < |d|
    ensures Get(d, d[k].key) == Some(d[k].value)
  {
    if k > 0 {
      assert d[0].key != d[k].key;
      GetDistinct(d[1..], k - 1);
    }
  }

  /** Every tree whose dictionaries have distinct keys equals itself. */
  lemma {:induction false} EqualsReflexive(e: Element)
    requires DistinctKeysDeep(e)
    ensures Equals(e, e)
  {
    match e
    case BInteger(_) =>
    case BString(_) =>
    case BList(items) =>
      forall k | 0 <= k < |items| ensures Equals(items[k], items[k]) {
        EqualsReflexive(items[k]);
      }
    case BDictionary(d) =>
      forall k | 0 <= k < |d|
        ensures Get(d, d[k].key).Some? && Equals(d[k].value, Get(d, d[k].key).value)
      {
        GetDistinct(d, k);
        EqualsReflexive(d[k].value);
      }
  }

  /** Two dictionaries holding the same entries in any order are equal. */
  lemma EqualsIgnoresEntryOrder(d1: seq<Entry>, d2: seq<Entry>)
    requires DistinctKeysDeep(BDictionary(d1)) && DistinctKeys(d2)
    requires |d1| == |d2| && forall x :: x in d1 <==> x in d2
    ensures Equals(BDictionary(d1), BDictionary(d2))
  {
    forall k | 0 <= k < |d1|
      ensures Get(d2, d1[k].key).Some? && Equals(d1[k].value, Get(d2, d1[k].key).value)
    {
      assert d1[k] in d2;
      var j :| 0 <= j < |d2| && d2[j] == d1[k];
      GetDistinct(d2, j);
      assert DistinctKeysDeep(d1[k].value);
      EqualsReflexive(d1[k].value);
    }
  }
}
