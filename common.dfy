/** List, text and number helpers that the portal's pages share: JavaScript's
    `filter`, `map` over one matching record, `toLowerCase`, `includes` and the
    stable `sort` with a numeric comparator, stated once. */
module Common {

  datatype Option<+T> = None | Some(value: T)

  /** What `parseFloat` yields for the text of an amount field: a number, or
      NaN (empty or unparseable text). Amounts are whole rupees here. */
  datatype Number = Num(value: int) | NaN

  /** `parseFloat(text) || 0`: NaN and 0 both give 0. */
  function OrZero(n: Number): int
  {
    match n
    case Num(v) => v
    case NaN => 0
  }

  // ---------------------------------------------------------------- filter

  /** `s.filter(p)`: keeps, in order, the elements satisfying `p`. */
  function Filter<T>(s: seq<T>, p: T -> bool): seq<T>
  {
    if s == [] then []
    else if p(s[0]) then [s[0]] + Filter(s[1..], p)
    else Filter(s[1..], p)
  }

  /** `a` can be obtained from `b` by deleting elements (order kept). */
  ghost predicate Sublist<T>(a: seq<T>, b: seq<T>)
    decreases |b|
  {
    if a == [] then true
    else if b == [] then false
    else if a[0] == b[0] then Sublist(a[1..], b[1..])
    else Sublist(a, b[1..])
  }

  /** Number of elements of `s` satisfying `p`. */
  function Count<T>(s: seq<T>, p: T -> bool): nat
  {
    if s == [] then 0 else (if p(s[0]) then 1 else 0) + Count(s[1..], p)
  }

  /** The filter result is the order-preserving sublist holding exactly the
      elements that satisfy the predicate, one for each such occurrence. */
  lemma {:induction false} FilterSpec<T>(s: seq<T>, p: T -> bool)
    ensures Sublist(Filter(s, p), s)
    ensures forall x :: x in Filter(s, p) <==> x in s && p(x)
    ensures |Filter(s, p)| == Count(s, p)
  {
    if s != [] {
      FilterSpec(s[1..], p);
      var rest := Filter(s[1..], p);
      if p(s[0]) {
        assert ([s[0]] + rest)[1..] == rest;
      } else if rest != [] {
        assert rest[0] in rest;
        assert rest[0] != s[0];
      }
      forall x
        ensures x in Filter(s, p) <==> x in s && p(x)
      {
        assert x in s <==> x == s[0] || x in s[1..];
      }
    }
  }

  /** A filter whose predicate holds everywhere keeps the whole list. */
  lemma {:induction false} FilterKeepsAll<T>(s: seq<T>, p: T -> bool)
    requires forall i :: 0 <= i < |s| ==> p(s[i])
    ensures Filter(s, p) == s
  {
    if s != [] {
      assert p(s[0]);
      FilterKeepsAll(s[1..], p);
      assert [s[0]] + s[1..] == s;
    }
  }

  /** Two predicates that agree on every element of `s` filter it alike. */
  lemma {:induction false} FilterAgrees<T>(s: seq<T>, p: T -> bool, q: T -> bool)
    requires forall i :: 0 <= i < |s| ==> p(s[i]) == q(s[i])
    ensures Filter(s, p) == Filter(s, q)
  {
    if s != [] {
      assert p(s[0]) == q(s[0]);
      FilterAgrees(s[1..], p, q);
    }
  }

  /** Every element either satisfies a predicate or its complement. */
  lemma {:induction false} CountComplement<T>(s: seq<T>, p: T -> bool, notP: T -> bool)
    requires forall x :: notP(x) == !p(x)
    ensures Count(s, p) + Count(s, notP) == |s|
  {
    if s != [] {
      CountComplement(s[1..], p, notP);
    }
  }

  /** Filtering twice is filtering by the conjunction (a chained `.filter().filter()`). */
  lemma {:induction false} FilterFilter<T>(s: seq<T>, p: T -> bool, q: T -> bool, pq: T -> bool)
    requires forall x :: pq(x) == (p(x) && q(x))
    ensures Filter(Filter(s, p), q) == Filter(s, pq)
  {
    if s != [] {
      FilterFilter(s[1..], p, q, pq);
      if p(s[0]) {
        assert ([s[0]] + Filter(s[1..], p))[0] == s[0];
        assert ([s[0]] + Filter(s[1..], p))[1..] == Filter(s[1..], p);
      }
    }
  }

  // ------------------------------------------------ map over matching records

  /** `s.map(x => hit(x) ? f(x) : x)`: the records satisfying `hit` are
      replaced by `f` of themselves, every other record is kept as is. */
  function MapWhere<T>(s: seq<T>, hit: T -> bool, f: T -> T): seq<T>
  {
    if s == [] then []
    else [if hit(s[0]) then f(s[0]) else s[0]] + MapWhere(s[1..], hit, f)
  }

  lemma {:induction false} MapWhereAt<T>(s: seq<T>, hit: T -> bool, f: T -> T)
    ensures |MapWhere(s, hit, f)| == |s|
    ensures forall i :: 0 <= i < |s| ==>
              MapWhere(s, hit, f)[i] == if hit(s[i]) then f(s[i]) else s[i]
  {
    if s != [] {
      MapWhereAt(s[1..], hit, f);
      forall i | 0 < i < |s|
        ensures MapWhere(s, hit, f)[i] == MapWhere(s[1..], hit, f)[i - 1]
      {
      }
    }
  }

  // ------------------------------------------------------------------ text

  /** `toLowerCase` on one character (ASCII letters). */
  function LowerChar(c: char): char
  {
    if 'A' <= c <= 'Z' then (c as int + 32) as char else c
  }

  function Lower(s: string): string
  {
    if s == [] then [] else [LowerChar(s[0])] + Lower(s[1..])
  }

  lemma {:induction false} LowerAt(s: string)
    ensures |Lower(s)| == |s|
    ensures forall i :: 0 <= i < |s| ==> Lower(s)[i] == LowerChar(s[i])
    ensures forall i :: 0 <= i < |s| ==> !('A' <= Lower(s)[i] <= 'Z')
  {
    if s != [] {
      LowerAt(s[1..]);
      forall i | 0 < i < |s|
        ensures Lower(s)[i] == Lower(s[1..])[i - 1]
      {
      }
    }
  }

  /** Lowercasing twice changes nothing more. */
  lemma LowerIdempotent(s: string)
    ensures Lower(Lower(s)) == Lower(s)
  {
    LowerAt(s);
    LowerAt(Lower(s));
  }

  /** `hay.startsWith(prefix)`. */
  predicate StartsWith(hay: string, prefix: string)
  {
    |prefix| <= |hay| && hay[..|prefix|] == prefix
  }

  /** `hay.includes(needle)`, scanning start positions left to right. */
  predicate Contains(hay: string, needle: string)
    decreases |hay|
  {
    StartsWith(hay, needle) || (|hay| > 0 && Contains(hay[1..], needle))
  }

  /** `needle` occurs in `hay` starting at position `i`. */
  ghost predicate OccursAt(hay: string, needle: string, i: int)
  {
    0 <= i && i + |needle| <= |hay| && hay[i..i + |needle|] == needle
  }

  /** `includes` holds exactly when the needle occurs at some position. */
  lemma {:induction false} ContainsSpec(hay: string, needle: string)
    ensures Contains(hay, needle) <==> exists i :: OccursAt(hay, needle, i)
  {
    if StartsWith(hay, needle) {
      assert OccursAt(hay, needle, 0);
    } else if |hay| > 0 {
      ContainsSpec(hay[1..], needle);
      if Contains(hay[1..], needle) {
        var i :| OccursAt(hay[1..], needle, i);
        assert hay[1..][i..i + |needle|] == hay[i + 1..i + 1 + |needle|];
        assert OccursAt(hay, needle, i + 1);
      }
      if exists i :: OccursAt(hay, needle, i) {
        var i :| OccursAt(hay, needle, i);
        assert i != 0;
        assert hay[1..][i - 1..i - 1 + |needle|] == hay[i..i + |needle|];
        assert OccursAt(hay[1..], needle, i - 1);
      }
    } else {
      assert |needle| > 0;
    }
  }

  /** The empty search text is found in every string. */
  lemma ContainsEmpty(hay: string)
    ensures Contains(hay, "")
  {
    assert hay[..0] == "";
  }

  /** `hay.toLowerCase().includes(term.toLowerCase())`. */
  predicate ContainsIgnoringCase(hay: string, term: string)
  {
    Contains(Lower(hay), Lower(term))
  }

  /** A case-insensitive match ignores case on both sides: lowercasing the
      search term, or the searched text, beforehand changes no answer. */
  lemma ContainsIgnoringCaseLowered(hay: string, term: string)
    ensures ContainsIgnoringCase(hay, Lower(term)) == ContainsIgnoringCase(hay, term)
    ensures ContainsIgnoringCase(Lower(hay), term) == ContainsIgnoringCase(hay, term)
  {
    LowerIdempotent(term);
    LowerIdempotent(hay);
  }

  // ------------------------------------------------------------- stable sort

  ghost predicate SortedDesc<T>(s: seq<T>, key: T -> int)
  {
    forall i, j :: 0 <= i < j < |s| ==> key(s[i]) >= key(s[j])
  }

  /** Inserts `x` before the first element whose key is not above its own, so
      equal keys keep their original order (JavaScript's sort is stable). */
  function InsertDesc<T>(x: T, s: seq<T>, key: T -> int): seq<T>
  {
    if s == [] then [x]
    else if key(x) >= key(s[0]) then [x] + s
    else [s[0]] + InsertDesc(x, s[1..], key)
  }

  /** `[...s].sort((a, b) => key(b) - key(a))`: a copy of `s`, largest key first. */
  function SortDesc<T>(s: seq<T>, key: T -> int): seq<T>
  {
    if s == [] then [] else InsertDesc(s[0], SortDesc(s[1..], key), key)
  }

  ghost predicate AllAtMost<T>(s: seq<T>, key: T -> int, b: int)
  {
    forall k :: 0 <= k < |s| ==> key(s[k]) <= b
  }

  lemma {:induction false} InsertDescAtMost<T>(x: T, s: seq<T>, key: T -> int, b: int)
    requires key(x) <= b && AllAtMost(s, key, b)
    ensures AllAtMost(InsertDesc(x, s, key), key, b)
  {
    if s != [] && key(x) < key(s[0]) {
      InsertDescAtMost(x, s[1..], key, b);
      var r := InsertDesc(x, s[1..], key);
      assert forall k :: 0 < k < |r| + 1 ==> ([s[0]] + r)[k] == r[k - 1];
    }
  }

  /** Putting an element in front of a sorted list whose keys it bounds keeps
      the list sorted. */
  lemma PrependSorted<T>(y: T, s: seq<T>, key: T -> int)
    requires SortedDesc(s, key) && AllAtMost(s, key, key(y))
    ensures SortedDesc([y] + s, key)
  {
    var out := [y] + s;
    forall i, j | 0 <= i < j < |out|
      ensures key(out[i]) >= key(out[j])
    {
      assert out[j] == s[j - 1];
      if i > 0 {
        assert out[i] == s[i - 1];
      }
    }
  }

  lemma {:induction false} InsertDescMultiset<T>(x: T, s: seq<T>, key: T -> int)
    ensures multiset(InsertDesc(x, s, key)) == multiset(s) + multiset{x}
  {
    if s != [] && key(x) < key(s[0]) {
      InsertDescMultiset(x, s[1..], key);
      assert s == [s[0]] + s[1..];
    }
  }

  lemma {:induction false} InsertDescSpec<T>(x: T, s: seq<T>, key: T -> int)
    requires SortedDesc(s, key)
    ensures SortedDesc(InsertDesc(x, s, key), key)
    ensures multiset(InsertDesc(x, s, key)) == multiset(s) + multiset{x}
  {
    InsertDescMultiset(x, s, key);
    if s == [] {
    } else if key(x) >= key(s[0]) {
      forall k | 0 <= k < |s|
        ensures key(s[k]) <= key(x)
      {
        assert k == 0 || key(s[0]) >= key(s[k]);
      }
      PrependSorted(x, s, key);
    } else {
      assert SortedDesc(s[1..], key);
      InsertDescSpec(x, s[1..], key);
      assert AllAtMost(s[1..], key, key(s[0]));
      InsertDescAtMost(x, s[1..], key, key(s[0]));
      PrependSorted(s[0], InsertDesc(x, s[1..], key), key);
    }
  }

  /** Holds of the elements whose key is `k`. */
  function KeyIs<T>(key: T -> int, k: int): T -> bool
  {
    (x: T) => key(x) == k
  }

  /** Inserting `x` lands it in front of every element with the same key. */
  lemma {:induction false} InsertDescFilterKey<T>(x: T, s: seq<T>, key: T -> int, k: int)
    ensures Filter(InsertDesc(x, s, key), KeyIs(key, k)) ==
              (if key(x) == k then [x] else []) + Filter(s, KeyIs(key, k))
  {
    var out := InsertDesc(x, s, key);
    if s == [] {
      assert out[1..] == [];
    } else if key(x) >= key(s[0]) {
      assert out[0] == x && out[1..] == s;
    } else {
      InsertDescFilterKey(x, s[1..], key, k);
      assert out[0] == s[0] && out[1..] == InsertDesc(x, s[1..], key);
    }
  }

  /** The sort is stable: the elements sharing one key come out in the order
      they went in. */
  lemma {:induction false} SortDescStableAt<T>(s: seq<T>, key: T -> int, k: int)
    ensures Filter(SortDesc(s, key), KeyIs(key, k)) == Filter(s, KeyIs(key, k))
  {
    if s != [] {
      SortDescStableAt(s[1..], key, k);
      InsertDescFilterKey(s[0], SortDesc(s[1..], key), key, k);
    }
  }

  /** The sorted copy is ordered by key, largest first, holds exactly the
      input's elements, and keeps the input order among equal keys. */
  lemma {:induction false} SortDescSpec<T>(s: seq<T>, key: T -> int)
    ensures SortedDesc(SortDesc(s, key), key)
    ensures multiset(SortDesc(s, key)) == multiset(s)
    ensures |SortDesc(s, key)| == |s|
    ensures forall k :: Filter(SortDesc(s, key), KeyIs(key, k)) == Filter(s, KeyIs(key, k))
  {
    forall k
      ensures Filter(SortDesc(s, key), KeyIs(key, k)) == Filter(s, KeyIs(key, k))
    {
      SortDescStableAt(s, key, k);
    }
    if s != [] {
      SortDescSpec(s[1..], key);
      InsertDescSpec(s[0], SortDesc(s[1..], key), key);
      assert s == [s[0]] + s[1..];
    }
  }

  /** Rewriting records with a map that keeps their keys commutes with the
      insertion step of the sort. */
  lemma {:induction false} InsertDescMapWhere<T>(x: T, s: seq<T>, key: T -> int, hit: T -> bool, f: T -> T)
    requires forall y :: key(f(y)) == key(y)
    ensures MapWhere(InsertDesc(x, s, key), hit, f) == InsertDesc(if hit(x) then f(x) else x, MapWhere(s, hit, f), key)
  {
    var gx := if hit(x) then f(x) else x;
    if s == [] {
      assert MapWhere([x], hit, f) == [gx] + MapWhere([x][1..], hit, f);
    } else {
      var m := MapWhere(s, hit, f);
      assert m[0] == (if hit(s[0]) then f(s[0]) else s[0]);
      assert m[1..] == MapWhere(s[1..], hit, f);
      if key(x) >= key(s[0]) {
        assert ([x] + s)[1..] == s;
      } else {
        InsertDescMapWhere(x, s[1..], key, hit, f);
        var r := InsertDesc(x, s[1..], key);
        assert ([s[0]] + r)[1..] == r;
      }
    }
  }

  /** Rewriting records with a map that keeps their keys gives the same list
      whether it is done before or after the sort: no record moves. */
  lemma {:induction false} SortDescMapWhere<T>(s: seq<T>, key: T -> int, hit: T -> bool, f: T -> T)
    requires forall y :: key(f(y)) == key(y)
    ensures SortDesc(MapWhere(s, hit, f), key) == MapWhere(SortDesc(s, key), hit, f)
  {
    if s != [] {
      SortDescMapWhere(s[1..], key, hit, f);
      var m := MapWhere(s, hit, f);
      assert m[1..] == MapWhere(s[1..], hit, f);
      InsertDescMapWhere(s[0], SortDesc(s[1..], key), key, hit, f);
    }
  }
}
