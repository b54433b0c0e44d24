/** Python's `sorted(records, key=lambda x: x['Scheduled'])`, modelled as a
    stable insertion sort on the `Scheduled` value, with its three guarantees:
    the result is ordered, it is a permutation of the input, and records with
    equal keys keep their relative order. */
module ScheduleOrder {
  import opened Records

  /** Python's `a <= b` on strings: code-point lexicographic order, a prefix
      being smaller. */
  predicate StrLe(a: string, b: string)
  {
    if a == [] then true
    else if b == [] then false
    else if a[0] < b[0] then true
    else if a[0] == b[0] then StrLe(a[1..], b[1..])
    else false
  }

  lemma {:induction false} StrLeReflexive(a: string)
    ensures StrLe(a, a)
  {
    if a != [] { StrLeReflexive(a[1..]); }
  }

  lemma {:induction false} StrLeTotal(a: string, b: string)
    ensures StrLe(a, b) || StrLe(b, a)
  {
    if a != [] && b != [] && a[0] == b[0] { StrLeTotal(a[1..], b[1..]); }
  }

  lemma {:induction false} StrLeTransitive(a: string, b: string, c: string)
    requires StrLe(a, b) && StrLe(b, c)
    ensures StrLe(a, c)
  {
    if a != [] && b != [] && c != [] && a[0] == b[0] && b[0] == c[0] {
      StrLeTransitive(a[1..], b[1..], c[1..]);
    }
  }

  /** Python's `<=` on two sort keys; keys of different kinds (and None)
      are not comparable: Python raises `TypeError` for them. */
  predicate ValueLe(a: Value, b: Value)
  {
    match (a, b)
    case (Str(x), Str(y)) => StrLe(x, y)
    case (IntV(x), IntV(y)) => x <= y
    case _ => false
  }

  /** The sort key of a record; a missing key reads as None (the caller
      raises `KeyError` before sorting in that case). */
  function Key(r: Record): Value
  {
    Get(r, Scheduled, NoneV)
  }

  /** Every key is a string, or every key is an integer: exactly the lists
      whose keys Python can compare pairwise. */
  predicate Uniform(s: seq<Record>)
  {
    (forall r :: r in s ==> Key(r).Str?) || (forall r :: r in s ==> Key(r).IntV?)
  }

  predicate Sorted(s: seq<Record>)
  {
    forall i, j :: 0 <= i < j < |s| ==> ValueLe(Key(s[i]), Key(s[j]))
  }

  /** The records of `s` whose key is `v`, in the order of `s`. */
  function WithKey(s: seq<Record>, v: Value): (t: seq<Record>)
    ensures forall r :: r in t ==> r in s && Key(r) == v
  {
    if s == [] then []
    else (if Key(s[0]) == v then [s[0]] else []) + WithKey(s[1..], v)
  }

  /** Puts `x` before the first record whose key is not smaller than its own. */
  function Insert(x: Record, s: seq<Record>): (t: seq<Record>)
    ensures multiset(t) == multiset(s) + multiset{x}
  {
    if s == [] || ValueLe(Key(x), Key(s[0])) then [x] + s
    else
      assert s == [s[0]] + s[1..];
      [s[0]] + Insert(x, s[1..])
  }

  function Sort(s: seq<Record>): (t: seq<Record>)
    ensures multiset(t) == multiset(s)
  {
    if s == [] then []
    else
      assert s == [s[0]] + s[1..];
      Insert(s[0], Sort(s[1..]))
  }

  lemma ValueLeTotal(a: Value, b: Value)
    requires (a.Str? && b.Str?) || (a.IntV? && b.IntV?)
    ensures ValueLe(a, b) || ValueLe(b, a)
  {
    if a.Str? { StrLeTotal(a.s, b.s); }
  }

  lemma ValueLeTransitive(a: Value, b: Value, c: Value)
    requires ValueLe(a, b) && ValueLe(b, c)
    ensures ValueLe(a, c)
  {
    if a.Str? { StrLeTransitive(a.s, b.s, c.s); }
  }

  lemma ValueLeReflexive(a: Value)
    requires a.Str? || a.IntV?
    ensures ValueLe(a, a)
  {
    if a.Str? { StrLeReflexive(a.s); }
  }

  lemma UniformSub(s: seq<Record>, t: seq<Record>)
    requires Uniform(s) && multiset(t) <= multiset(s)
    ensures Uniform(t)
  {
    forall r | r in t ensures r in s {
      assert r in multiset(t);
    }
  }

  lemma UniformDrop(x: Record, s: seq<Record>)
    requires Uniform([x] + s) && s != []
    ensures Uniform([x] + s[1..])
  {
    forall r | r in [x] + s[1..] ensures r in [x] + s {
      if r != x {
        var m :| 0 <= m < |s[1..]| && s[1..][m] == r;
        assert s[m + 1] == r;
      }
    }
  }

  lemma {:induction false} InsertSorted(x: Record, s: seq<Record>)
    requires Uniform([x] + s) && Sorted(s)
    ensures Sorted(Insert(x, s))
  {
    if s == [] || ValueLe(Key(x), Key(s[0])) {
      var t := [x] + s;
      forall i, j | 0 <= i < j < |t| ensures ValueLe(Key(t[i]), Key(t[j])) {
        if i == 0 && j > 1 {
          ValueLeTransitive(Key(x), Key(s[0]), Key(s[j - 1]));
        }
      }
    } else {
      assert s[0] in [x] + s && x in [x] + s;
      ValueLeTotal(Key(x), Key(s[0]));
      UniformDrop(x, s);
      InsertSorted(x, s[1..]);
      var u := Insert(x, s[1..]);
      var t := [s[0]] + u;
      forall i, j | 0 <= i < j < |t| ensures ValueLe(Key(t[i]), Key(t[j])) {
        if i == 0 {
          var y := t[j];
          assert y in multiset(u);
          if y == x {
          } else {
            assert y in multiset(s[1..]);
            var m :| 0 <= m < |s[1..]| && s[1..][m] == y;
            assert s[m + 1] == y;
          }
        }
      }
    }
  }

  /** The result of the sort is ordered by `Scheduled`. */
  lemma {:induction false} SortSorted(s: seq<Record>)
    requires Uniform(s)
    ensures Sorted(Sort(s))
  {
    if s != [] {
      assert s == [s[0]] + s[1..];
      UniformSub(s, s[1..]);
      SortSorted(s[1..]);
      UniformSub(s, [s[0]] + Sort(s[1..]));
      InsertSorted(s[0], Sort(s[1..]));
    }
  }

  lemma WithKeyCons(r: Record, s: seq<Record>, v: Value)
    ensures WithKey([r] + s, v) == (if Key(r) == v then [r] else []) + WithKey(s, v)
  {
    assert ([r] + s)[1..] == s;
  }

  lemma {:induction false} InsertStable(x: Record, s: seq<Record>, v: Value)
    requires Uniform([x] + s)
    ensures WithKey(Insert(x, s), v) == (if Key(x) == v then [x] else []) + WithKey(s, v)
  {
    if s == [] || ValueLe(Key(x), Key(s[0])) {
      WithKeyCons(x, s, v);
    } else {
      PassedKeyDiffers(x, s);
      UniformDrop(x, s);
      InsertStable(x, s[1..], v);
      SkipStable(x, s, Insert(x, s[1..]), v);
    }
  }

  /** Putting `s[0]`, whose key differs from the inserted one, in front keeps
      the per-key equation of `Insert`. */
  lemma SkipStable(x: Record, s: seq<Record>, u: seq<Record>, v: Value)
    requires s != [] && Key(s[0]) != Key(x)
    requires WithKey(u, v) == (if Key(x) == v then [x] else []) + WithKey(s[1..], v)
    ensures WithKey([s[0]] + u, v) == (if Key(x) == v then [x] else []) + WithKey(s, v)
  {
    WithKeyCons(s[0], u, v);
    WithKeyCons(s[0], s[1..], v);
    assert s == [s[0]] + s[1..];
    if Key(x) == v {
      assert WithKey([s[0]] + u, v) == WithKey(u, v);
      assert WithKey(s, v) == WithKey(s[1..], v);
    } else {
      assert WithKey(u, v) == WithKey(s[1..], v);
    }
  }

  /** A record that `Insert` moves past has a key different from the
      inserted one. */
  lemma PassedKeyDiffers(x: Record, s: seq<Record>)
    requires Uniform([x] + s) && s != [] && !ValueLe(Key(x), Key(s[0]))
    ensures Key(s[0]) != Key(x)
  {
    assert x in [x] + s;
    ValueLeReflexive(Key(x));
  }

  /** The sort is stable: for every key, the records carrying it appear in
      the output in the same order as in the input. */
  lemma {:induction false} SortStable(s: seq<Record>, v: Value)
    requires Uniform(s)
    ensures WithKey(Sort(s), v) == WithKey(s, v)
  {
    if s != [] {
      assert s == [s[0]] + s[1..];
      UniformSub(s, s[1..]);
      SortStable(s[1..], v);
      UniformSub(s, [s[0]] + Sort(s[1..]));
      InsertStable(s[0], Sort(s[1..]), v);
    }
  }
}
