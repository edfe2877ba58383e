/**
 * A JavaScript plain object used as a dictionary with string keys, as every
 * persisted store of the tool uses one. `Object.keys` and `Object.entries`
 * follow the ordinary own-property order of ECMA-262 (section 10.1.11.1,
 * OrdinaryOwnPropertyKeys): first the keys that are array indices, in
 * ascending numeric order, then every other key in the order it was first
 * assigned. Assigning to an existing key keeps its place, and `delete`
 * removes the key from that order.
 */
module OrderedDict {
  import opened Optional
  import opened Text

  predicate Distinct(s: seq<string>) {
    forall i, j :: 0 <= i < j < |s| ==> s[i] != s[j]
  }

  /** 2^32 - 1: array indices lie below it. */
  const ArrayIndexBound: nat := 0x1_0000_0000 - 1

  predicate AllDigits(k: string) {
    forall i :: 0 <= i < |k| ==> IsDigit(k[i])
  }

  /**
   * An array index: the canonical decimal form of an integer below
   * 2^32 - 1, that is "0" or digits without a leading zero.
   */
  predicate IsArrayIndex(k: string) {
    |k| > 0 && AllDigits(k) && (k[0] != '0' || |k| == 1) && DigitsValue(k) < ArrayIndexBound
  }

  /** The numeric value of an array-index key (0 for any other key). */
  function IndexValue(k: string): nat {
    if AllDigits(k) then DigitsValue(k) else 0
  }

  /** Keys in ascending numeric order. */
  predicate Ascending(s: seq<string>) {
    forall i, j :: 0 <= i < j < |s| ==> IndexValue(s[i]) <= IndexValue(s[j])
  }

  /** `k` put into the ascending sequence `s` in its numeric place. */
  function InsertIndex(s: seq<string>, k: string): (r: seq<string>)
    ensures |r| == |s| + 1
    ensures forall x :: x in r <==> x in s || x == k
  {
    if s == [] then [k]
    else if IndexValue(k) < IndexValue(s[0]) then [k] + s
    else
      assert forall x :: x in s <==> x == s[0] || x in s[1..];
      [s[0]] + InsertIndex(s[1..], k)
  }

  /** Inserting keeps the keys in ascending order. */
  lemma {:induction false} InsertAscending(s: seq<string>, k: string)
    requires Ascending(s)
    ensures Ascending(InsertIndex(s, k))
    decreases |s|
  {
    if s != [] {
      var r := InsertIndex(s, k);
      if IndexValue(k) < IndexValue(s[0]) {
        forall i, j | 0 <= i < j < |r| ensures IndexValue(r[i]) <= IndexValue(r[j]) {
          assert r[j] == s[j - 1];
          if i > 0 {
            assert r[i] == s[i - 1];
          }
        }
      } else {
        var rest := InsertIndex(s[1..], k);
        InsertAscending(s[1..], k);
        assert r == [s[0]] + rest;
        forall x | x in rest ensures IndexValue(s[0]) <= IndexValue(x) {
          if x != k {
            var j :| 0 <= j < |s[1..]| && s[1..][j] == x;
            assert s[j + 1] == x;
          }
        }
        forall i, j | 0 <= i < j < |r| ensures IndexValue(r[i]) <= IndexValue(r[j]) {
          assert r[j] == rest[j - 1];
          if i > 0 {
            assert r[i] == rest[i - 1];
          } else {
            assert rest[j - 1] in rest;
          }
        }
      }
    }
  }

  /** Inserting a key not yet present keeps the keys without repetition. */
  lemma {:induction false} InsertDistinct(s: seq<string>, k: string)
    requires Distinct(s) && k !in s
    ensures Distinct(InsertIndex(s, k))
    decreases |s|
  {
    if s != [] {
      var r := InsertIndex(s, k);
      if IndexValue(k) < IndexValue(s[0]) {
        forall i, j | 0 <= i < j < |r| ensures r[i] != r[j] {
          assert r[j] == s[j - 1];
          if i > 0 {
            assert r[i] == s[i - 1];
          }
        }
      } else {
        var rest := InsertIndex(s[1..], k);
        assert k !in s[1..];
        InsertDistinct(s[1..], k);
        assert r == [s[0]] + rest;
        assert s[0] !in rest by {
          forall j | 0 <= j < |s| - 1 ensures s[1..][j] != s[0] {
            assert s[1..][j] == s[j + 1];
          }
        }
        forall i, j | 0 <= i < j < |r| ensures r[i] != r[j] {
          assert r[j] == rest[j - 1];
          if i > 0 {
            assert r[i] == rest[i - 1];
          } else {
            assert rest[j - 1] in rest;
          }
        }
      }
    }
  }

  /** The position of the first occurrence of `x` in `s`. */
  function IndexOf(s: seq<string>, x: string): (i: nat)
    requires x in s
    ensures i < |s| && s[i] == x && x !in s[..i]
  {
    if s[0] == x then 0 else 1 + IndexOf(s[1..], x)
  }

  /** `s` without its first occurrence of `x`, everything else in order. */
  function RemoveFirst(s: seq<string>, x: string): (r: seq<string>)
    ensures x !in s ==> r == s
    ensures x in s ==> |r| == |s| - 1
  {
    if s == [] then []
    else if s[0] == x then s[1..]
    else
      assert x in s <==> x in s[1..];
      [s[0]] + RemoveFirst(s[1..], x)
  }

  /** Cutting out a position after the first is cutting it out of the tail. */
  lemma {:induction false} CutAfterHead(s: seq<string>, j: nat)
    requires j + 1 < |s|
    ensures s[..j + 1] + s[j + 2..] == [s[0]] + (s[1..][..j] + s[1..][j + 1..])
  {
    var t := s[1..];
    assert s[..j + 1] == [s[0]] + t[..j];
    assert s[j + 2..] == t[j + 1..];
  }

  /** Removing the first occurrence cuts out exactly the position `IndexOf` finds. */
  lemma {:induction false} RemoveFirstIsSlice(s: seq<string>, x: string)
    requires x in s
    ensures RemoveFirst(s, x) == s[..IndexOf(s, x)] + s[IndexOf(s, x) + 1..]
    decreases |s|
  {
    if s[0] == x {
      assert s[..0] + s[1..] == s[1..];
    } else {
      var t := s[1..];
      assert x in t;
      var j := IndexOf(t, x);
      RemoveFirstIsSlice(t, x);
      assert RemoveFirst(s, x) == [s[0]] + (t[..j] + t[j + 1..]);
      CutAfterHead(s, j);
      assert IndexOf(s, x) == j + 1;
    }
  }

  /** Removing one position of a sequence without duplicates keeps it without
      duplicates and takes away exactly that element. */
  lemma {:induction false} RemoveAtDistinct(s: seq<string>, i: nat)
    requires Distinct(s) && i < |s|
    ensures Distinct(s[..i] + s[i + 1..])
    ensures forall k :: k in s[..i] + s[i + 1..] <==> k in s && k != s[i]
  {
    var r := s[..i] + s[i + 1..];
    forall a, b | 0 <= a < b < |r| ensures r[a] != r[b] {
      var a' := if a < i then a else a + 1;
      var b' := if b < i then b else b + 1;
      assert r[a] == s[a'] && r[b] == s[b'];
    }
    forall k ensures k in r <==> k in s && k != s[i] {
      if k in r {
        var a :| 0 <= a < |r| && r[a] == k;
        assert s[if a < i then a else a + 1] == k;
      }
      if k in s && k != s[i] {
        var a :| 0 <= a < |s| && s[a] == k;
        assert a != i;
        assert r[if a < i then a else a - 1] == k;
      }
    }
  }

  lemma RemoveFirstDistinct(s: seq<string>, x: string)
    requires Distinct(s)
    ensures Distinct(RemoveFirst(s, x))
    ensures forall k :: k in RemoveFirst(s, x) <==> k in s && k != x
    ensures x in s ==> |RemoveFirst(s, x)| == |s| - 1
  {
    if x in s {
      RemoveFirstIsSlice(s, x);
      RemoveAtDistinct(s, IndexOf(s, x));
    }
  }

  /** Removing one position keeps the rest in ascending order. */
  lemma {:induction false} RemoveAtAscending(s: seq<string>, i: nat)
    requires Ascending(s) && i < |s|
    ensures Ascending(s[..i] + s[i + 1..])
  {
    var r := s[..i] + s[i + 1..];
    forall a, b | 0 <= a < b < |r| ensures IndexValue(r[a]) <= IndexValue(r[b]) {
      var a' := if a < i then a else a + 1;
      var b' := if b < i then b else b + 1;
      assert r[a] == s[a'] && r[b] == s[b'];
    }
  }

  /** Removing an element keeps the rest in ascending order. */
  lemma {:induction false} RemoveFirstAscending(s: seq<string>, x: string)
    requires Ascending(s)
    ensures Ascending(RemoveFirst(s, x))
  {
    if x in s {
      RemoveFirstIsSlice(s, x);
      RemoveAtAscending(s, IndexOf(s, x));
    }
  }

  /** Removing an element of `a` from `a + b` leaves `b` as it was. */
  lemma {:induction false} RemoveFirstAppendLeft(a: seq<string>, b: seq<string>, x: string)
    requires x in a
    ensures RemoveFirst(a + b, x) == RemoveFirst(a, x) + b
    decreases |a|
  {
    var ab := a + b;
    assert ab[0] == a[0] && ab[1..] == a[1..] + b;
    if a[0] != x {
      assert x in a[1..];
      RemoveFirstAppendLeft(a[1..], b, x);
      assert RemoveFirst(ab, x) == [a[0]] + RemoveFirst(ab[1..], x);
      assert RemoveFirst(a, x) == [a[0]] + RemoveFirst(a[1..], x);
    }
  }

  /** Removing an element not in `a` from `a + b` leaves `a` as it was. */
  lemma {:induction false} RemoveFirstAppendRight(a: seq<string>, b: seq<string>, x: string)
    requires x !in a
    ensures RemoveFirst(a + b, x) == a + RemoveFirst(b, x)
    decreases |a|
  {
    if a == [] {
      assert a + b == b;
    } else {
      var ab := a + b;
      var tail := a[1..];
      assert a[0] != x;
      assert x !in tail;
      assert ab[0] == a[0];
      assert ab[1..] == tail + b;
      RemoveFirstAppendRight(tail, b, x);
      var rest := RemoveFirst(tail + b, x);
      assert RemoveFirst(ab, x) == [a[0]] + rest;
      assert [a[0]] + (tail + RemoveFirst(b, x)) == ([a[0]] + tail) + RemoveFirst(b, x);
      assert [a[0]] + tail == a;
    }
  }

  /** Two keys without repetition, with the same elements as a map's keys, count its entries. */
  lemma {:induction false} DistinctCount<V>(s: seq<string>, m: map<string, V>)
    requires Distinct(s) && forall k :: k in m <==> k in s
    ensures |m| == |s|
    decreases |s|
  {
    if s != [] {
      var k := s[|s| - 1];
      var init := s[..|s| - 1];
      forall x ensures x in m - {k} <==> x in init {
        if x in init {
          var a :| 0 <= a < |init| && init[a] == x;
          assert s[a] == x;
        }
        if x in s && x != k {
          var a :| 0 <= a < |s| && s[a] == x;
          assert init[a] == x;
        }
      }
      DistinctCount(init, m - {k});
    }
  }

  /** Array-index keys and the other keys never coincide, so the whole order has no repeats. */
  lemma {:induction false} PartsDistinct(a: seq<string>, b: seq<string>)
    requires Distinct(a) && Distinct(b)
    requires forall k :: k in a ==> IsArrayIndex(k)
    requires forall k :: k in b ==> !IsArrayIndex(k)
    ensures Distinct(a + b)
  {
    forall i, j | 0 <= i < j < |a + b| ensures (a + b)[i] != (a + b)[j] {
      if j >= |a| && i < |a| {
        assert (a + b)[i] in a && (a + b)[j] in b;
      } else if i >= |a| {
        assert (a + b)[i] == b[i - |a|] && (a + b)[j] == b[j - |a|];
      }
    }
  }

  /**
   * An object's own string-keyed properties: `indices` holds the array-index
   * keys in ascending order, `names` the other keys in the order they were
   * first assigned, and `entries` the values.
   */
  datatype Dict<V> = Dict(indices: seq<string>, names: seq<string>, entries: map<string, V>) {

    /** `Object.keys(obj)`: the array-index keys first, then the rest. */
    function Keys(): seq<string> {
      indices + names
    }

    /** Each key of the object sits once in the part its kind belongs to. */
    ghost predicate Valid() {
      Distinct(indices) && Distinct(names) && Ascending(indices)
      && (forall k :: k in indices ==> IsArrayIndex(k))
      && (forall k :: k in names ==> !IsArrayIndex(k))
      && (forall k :: k in entries <==> k in indices || k in names)
    }

    /**
     * The order `Object.keys` reports: every key once, no array-index key
     * after another key, and the array-index keys in ascending numeric order.
     */
    lemma {:induction false} KeysOrder()
      requires Valid()
      ensures Distinct(Keys())
      ensures forall k :: k in Keys() <==> k in entries
      ensures forall i, j :: 0 <= i < j < |Keys()| && IsArrayIndex(Keys()[j]) ==>
        IsArrayIndex(Keys()[i]) && IndexValue(Keys()[i]) <= IndexValue(Keys()[j])
    {
      PartsDistinct(indices, names);
      var ks := Keys();
      forall i, j | 0 <= i < j < |ks| && IsArrayIndex(ks[j])
        ensures IsArrayIndex(ks[i]) && IndexValue(ks[i]) <= IndexValue(ks[j])
      {
        if j >= |indices| {
          assert false;
        }
        assert ks[i] == indices[i] && ks[j] == indices[j];
        assert ks[i] in indices;
      }
    }

    /** `obj[k]`, with `undefined` as None. */
    function Get(k: string): (r: Option<V>)
      ensures r.Some? <==> k in entries
      ensures r.Some? ==> r.value == entries[k]
    {
      if k in entries then Some(entries[k]) else None
    }

    /**
     * `obj[k] = v`: an existing key keeps its place; a new array-index key
     * takes its numeric place among the array-index keys, and any other
     * new key goes after all the keys there are.
     */
    function Put(k: string, v: V): (r: Dict<V>)
      requires Valid()
      ensures r.Valid()
      ensures r.entries == entries[k := v]
      ensures k in entries ==> r.Keys() == Keys()
      ensures k !in entries && !IsArrayIndex(k) ==> r.Keys() == Keys() + [k]
      ensures k !in entries && IsArrayIndex(k) ==>
        r.names == names && |r.indices| == |indices| + 1 &&
        forall x :: x in r.indices <==> x in indices || x == k
    {
      if k in entries then Dict(indices, names, entries[k := v])
      else if IsArrayIndex(k) then
        InsertAscending(indices, k);
        InsertDistinct(indices, k);
        Dict(InsertIndex(indices, k), names, entries[k := v])
      else Dict(indices, names + [k], entries[k := v])
    }

    /** `delete obj[k]`: the key leaves both the object and the order; the other keys keep theirs. */
    function Remove(k: string): (r: Dict<V>)
      requires Valid()
      ensures r.Valid()
      ensures r.entries == entries - {k}
      ensures k !in entries ==> r == this
      ensures r.Keys() == RemoveFirst(Keys(), k)
      ensures k in entries ==> |r.Keys()| == |Keys()| - 1
    {
      RemoveFirstDistinct(indices, k);
      RemoveFirstDistinct(names, k);
      RemoveFirstAscending(indices, k);
      assert RemoveFirst(indices + names, k) == RemoveFirst(indices, k) + RemoveFirst(names, k) by {
        if k in indices {
          RemoveFirstAppendLeft(indices, names, k);
          assert k !in names;
        } else {
          RemoveFirstAppendRight(indices, names, k);
        }
      }
      Dict(RemoveFirst(indices, k), RemoveFirst(names, k), entries - {k})
    }

    /** `Object.entries(obj)`: the pairs in key order. */
    function Items(): (r: seq<(string, V)>)
      requires Valid()
      ensures |r| == |Keys()|
      ensures forall i :: 0 <= i < |r| ==> r[i].0 == Keys()[i] && r[i].1 == entries[Keys()[i]]
    {
      var ks := Keys();
      seq(|ks|, i requires 0 <= i < |ks| => (ks[i], entries[ks[i]]))
    }

    /** `Object.keys(obj).length`, which counts exactly the entries. */
    lemma {:induction false} SizeIsKeyCount()
      requires Valid()
      ensures |entries| == |Keys()|
    {
      KeysOrder();
      DistinctCount(Keys(), entries);
    }
  }

  function Empty<V>(): (d: Dict<V>)
    ensures d.Valid() && d.Keys() == [] && d.entries == map[]
  {
    Dict([], [], map[])
  }

  /**
   * Keys that look like small numbers are listed first: after assigning
   * "b" and then "1", `Object.keys` gives ["1", "b"].
   */
  lemma IndexKeyListedFirst<V>(x: V, y: V)
    ensures Empty<V>().Put("b", x).Put("1", y).Keys() == ["1", "b"]
  {
    assert !IsArrayIndex("b") by { assert !IsDigit("b"[0]); }
    assert IsArrayIndex("1") by {
      assert "1"[..0] == [];
      assert DigitsValue("1") == 1;
    }
    var d := Empty<V>().Put("b", x);
    assert d.indices == [] && d.names == ["b"];
  }
}
