/** The JavaScript array idioms the step forms use to edit their rows:
    index-wise `map` and `filter`, value `filter`, `flatMap` and the
    insertion-ordered de-duplication of `[...new Set(xs)]`. */
module JsArrays {

  /** `s.map((x, i) => i === index ? f(x) : x)`: only the element at `index`
      changes; an index outside the array changes nothing. */
  function MapAt<T>(s: seq<T>, index: int, f: T -> T): (r: seq<T>)
    ensures |r| == |s|
    ensures forall j :: 0 <= j < |s| ==> r[j] == if j == index then f(s[j]) else s[j]
    decreases |s|
  {
    if |s| == 0 then []
    else [if index == 0 then f(s[0]) else s[0]] + MapAt(s[1..], index - 1, f)
  }

  /** `s.filter((_, i) => i !== index)`: drops exactly the element at `index`,
      or nothing when `index` is outside the array. */
  function RemoveAt<T>(s: seq<T>, index: int): (r: seq<T>)
    ensures 0 <= index < |s| ==> r == s[..index] + s[index + 1..]
    ensures !(0 <= index < |s|) ==> r == s
    decreases |s|
  {
    if |s| == 0 then []
    else
      var rest := RemoveAt(s[1..], index - 1);
      if index == 0 then rest
      else
        assert 0 < index < |s| ==> s[1..][..index - 1] == s[1..index];
        [s[0]] + rest
  }

  /** A form's remove-row button: `if (rows.length > 1)` the row at `index`
      is filtered out, so the last remaining row always stays. */
  function RemoveKeepingOne<T>(s: seq<T>, index: int): (r: seq<T>)
    ensures |s| > 1 && 0 <= index < |s| ==> r == s[..index] + s[index + 1..]
    ensures !(|s| > 1 && 0 <= index < |s|) ==> r == s
    ensures |s| >= 1 ==> |r| >= 1
  {
    if |s| > 1 then RemoveAt(s, index) else s
  }

  /** `s.filter(x => x !== v)`: every occurrence of `v` goes, everything else
      stays. */
  function RemoveValue<T(==)>(s: seq<T>, v: T): (r: seq<T>)
    ensures multiset(r) == multiset(s)[v := 0]
    ensures v !in r
    ensures v !in s ==> r == s
  {
    if |s| == 0 then []
    else
      var rest := RemoveValue(s[1..], v);
      assert s == [s[0]] + s[1..];
      if s[0] == v then rest else [s[0]] + rest
  }

  /** Filtering out a value that was only appended once gives the array as
      it was before the append. */
  lemma {:induction false} RemoveValueOfAppended<T>(s: seq<T>, v: T)
    requires v !in s
    ensures RemoveValue(s + [v], v) == s
  {
    if |s| == 0 {
      assert [v][1..] == [];
    } else {
      assert (s + [v])[1..] == s[1..] + [v];
      RemoveValueOfAppended(s[1..], v);
      assert s == [s[0]] + s[1..];
    }
  }

  /** Filtering keeps the order: the filtered concatenation is the
      concatenation of the filtered parts. */
  lemma {:induction false} RemoveValueAppend<T>(a: seq<T>, b: seq<T>, v: T)
    ensures RemoveValue(a + b, v) == RemoveValue(a, v) + RemoveValue(b, v)
    decreases |a|
  {
    if |a| == 0 {
      assert a + b == b;
    } else {
      assert (a + b)[1..] == a[1..] + b;
      RemoveValueAppend(a[1..], b, v);
    }
  }

  /** `ss.flatMap(x => x)`: the rows one after another. */
  function Flatten<T(!new)>(ss: seq<seq<T>>): (r: seq<T>)
    ensures forall x :: x in r <==> exists i :: 0 <= i < |ss| && x in ss[i]
  {
    if |ss| == 0 then []
    else
      var rest := Flatten(ss[1..]);
      assert forall x :: (exists i :: 1 <= i < |ss| && x in ss[i]) <==> x in rest by {
        forall x ensures (exists i :: 1 <= i < |ss| && x in ss[i]) <==> x in rest {
          if x in rest {
            var i :| 0 <= i < |ss[1..]| && x in ss[1..][i];
            assert x in ss[i + 1];
          }
        }
      }
      ss[0] + rest
  }

  /** Flattening one row gives that row, and flattening two runs of rows
      gives their flattenings one after the other. */
  lemma {:induction false} FlattenAppend<T(!new)>(a: seq<seq<T>>, b: seq<seq<T>>)
    ensures Flatten<T>([]) == []
    ensures forall x: seq<T> :: Flatten([x]) == x
    ensures Flatten(a + b) == Flatten(a) + Flatten(b)
    decreases |a|
  {
    forall x: seq<T> ensures Flatten([x]) == x {
      assert [x][1..] == [];
    }
    if |a| == 0 {
      assert a + b == b;
    } else {
      assert (a + b)[1..] == a[1..] + b;
      FlattenAppend(a[1..], b);
    }
  }

  predicate NoDuplicates<T(==)>(s: seq<T>) {
    forall i, j :: 0 <= i < j < |s| ==> s[i] != s[j]
  }

  /** `s.indexOf(x)` for an `x` that occurs in `s`. */
  function FirstIndex<T(==)>(s: seq<T>, x: T): (k: nat)
    requires x in s
    ensures k < |s| && s[k] == x && x !in s[..k]
  {
    if s[0] == x then 0
    else
      var k := 1 + FirstIndex(s[1..], x);
      assert s[..k] == [s[0]] + s[1..][..k - 1];
      k
  }

  /** `[...new Set(s)]`: each distinct element once, in the order of its
      first occurrence in `s`. */
  function Dedupe<T(==,!new)>(s: seq<T>): (r: seq<T>)
    ensures forall x :: x in r <==> x in s
    ensures NoDuplicates(r)
    ensures forall i, j :: 0 <= i < j < |r| ==> FirstIndex(s, r[i]) < FirstIndex(s, r[j])
  {
    if |s| == 0 then []
    else
      var p := s[..|s| - 1];
      var last := s[|s| - 1];
      var d := Dedupe(p);
      assert s == p + [last];
      forall x | x in p ensures FirstIndex(s, x) == FirstIndex(p, x) {
        FirstIndexInPrefix(s, p, x);
      }
      if last in d then d
      else
        var r := d + [last];
        assert FirstIndex(s, last) == |s| - 1;
        r
  }

  lemma FirstIndexInPrefix<T>(s: seq<T>, p: seq<T>, x: T)
    requires |p| <= |s| && p == s[..|p|] && x in p
    ensures FirstIndex(s, x) == FirstIndex(p, x)
  {
    var k, k' := FirstIndex(s, x), FirstIndex(p, x);
    assert s[k'] == x;
    assert k <= k';
    assert p[k] == x;
  }
}
