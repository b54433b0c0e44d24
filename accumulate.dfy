/** Lists a loop builds by appending as it walks over records: the records
    that pass a test, a value taken from each of them, and one emitted record
    per input that is numbered by how many inputs before it passed. Each is
    defined on a prefix extended by one record, as the loops extend them. */
module Accumulate {
  import opened Records

  /** How many records of `s` pass `keep`. */
  function Count(s: seq<Record>, keep: Record -> bool): nat
  {
    if s == [] then 0
    else Count(s[..|s| - 1], keep) + (if keep(s[|s| - 1]) then 1 else 0)
  }

  /** The records of `s` that pass `keep`, in order. */
  function Filter(s: seq<Record>, keep: Record -> bool): (t: seq<Record>)
    ensures |t| == Count(s, keep)
  {
    if s == [] then []
    else Filter(s[..|s| - 1], keep) + (if keep(s[|s| - 1]) then [s[|s| - 1]] else [])
  }

  /** `val` of each record of `s` that passes `keep`, in order. */
  function Kept<T>(s: seq<Record>, keep: Record -> bool, val: Record -> T): (t: seq<T>)
    ensures |t| == Count(s, keep)
  {
    if s == [] then []
    else Kept(s[..|s| - 1], keep, val) + (if keep(s[|s| - 1]) then [val(s[|s| - 1])] else [])
  }

  /** One `emit` per record of `s`, given one more than the number of
      records before it that pass `keep`. */
  function Numbered(s: seq<Record>, keep: Record -> bool, emit: (Record, int) -> Record): (t: seq<Record>)
    ensures |t| == |s|
  {
    if s == [] then []
    else
      var init := s[..|s| - 1];
      Numbered(init, keep, emit) + [emit(s[|s| - 1], Count(init, keep) + 1)]
  }

  /** The four lists of a longer prefix. */
  lemma CountPrefix(s: seq<Record>, i: nat, keep: Record -> bool)
    requires i < |s|
    ensures Count(s[..i + 1], keep) == Count(s[..i], keep) + (if keep(s[i]) then 1 else 0)
  {
    assert s[..i + 1][..i] == s[..i];
  }

  lemma FilterPrefix(s: seq<Record>, i: nat, keep: Record -> bool)
    requires i < |s|
    ensures Filter(s[..i + 1], keep) == Filter(s[..i], keep) + (if keep(s[i]) then [s[i]] else [])
  {
    assert s[..i + 1][..i] == s[..i];
  }

  lemma KeptPrefix<T>(s: seq<Record>, i: nat, keep: Record -> bool, val: Record -> T)
    requires i < |s|
    ensures Kept(s[..i + 1], keep, val) == Kept(s[..i], keep, val) + (if keep(s[i]) then [val(s[i])] else [])
  {
    assert s[..i + 1][..i] == s[..i];
  }

  lemma NumberedPrefix(s: seq<Record>, i: nat, keep: Record -> bool, emit: (Record, int) -> Record)
    requires i < |s|
    ensures Numbered(s[..i + 1], keep, emit) == Numbered(s[..i], keep, emit) + [emit(s[i], Count(s[..i], keep) + 1)]
  {
    assert s[..i + 1][..i] == s[..i];
  }

  /** Record `i` is emitted at index `i`, numbered one more than the
      records before it that pass. */
  lemma {:induction false} NumberedAt(s: seq<Record>, keep: Record -> bool, emit: (Record, int) -> Record, i: nat)
    requires i < |s|
    ensures Numbered(s, keep, emit)[i] == emit(s[i], Count(s[..i], keep) + 1)
  {
    var init := s[..|s| - 1];
    if i < |init| {
      NumberedAt(init, keep, emit, i);
      assert init[i] == s[i] && init[..i] == s[..i];
    } else {
      assert init == s[..i];
    }
  }

  /** The count never decreases along the list: a longer prefix passes at
      least as many records, one more for each passing record in between. */
  lemma {:induction false} CountMonotone(s: seq<Record>, i: nat, j: nat, keep: Record -> bool)
    requires i < j <= |s| && keep(s[i])
    ensures Count(s[..i], keep) < Count(s[..j], keep)
    decreases j
  {
    CountPrefix(s, j - 1, keep);
    if i < j - 1 {
      CountMonotone(s, i, j - 1, keep);
    } else {
      CountUpTo(s, j - 1, keep);
    }
  }

  lemma {:induction false} CountUpTo(s: seq<Record>, i: nat, keep: Record -> bool)
    requires i < |s|
    ensures Count(s[..i], keep) <= Count(s[..i + 1], keep)
  {
    CountPrefix(s, i, keep);
  }

  /** A value is kept exactly when some passing record has it. */
  lemma {:induction false} KeptMembers<T>(s: seq<Record>, keep: Record -> bool, val: Record -> T, v: T)
    ensures v in Kept(s, keep, val) <==> exists i :: 0 <= i < |s| && keep(s[i]) && val(s[i]) == v
  {
    if s != [] {
      var init := s[..|s| - 1];
      KeptMembers(init, keep, val, v);
      if v in Kept(init, keep, val) {
        var i :| 0 <= i < |init| && keep(init[i]) && val(init[i]) == v;
        assert s[i] == init[i];
      }
      if exists i :: 0 <= i < |s| && keep(s[i]) && val(s[i]) == v {
        var i :| 0 <= i < |s| && keep(s[i]) && val(s[i]) == v;
        if i < |init| {
          assert init[i] == s[i];
        }
      }
    }
  }

  /** The filter holds every passing record exactly as often as the list,
      and no other record. */
  lemma {:induction false} FilterCounts(s: seq<Record>, keep: Record -> bool)
    ensures forall x :: multiset(Filter(s, keep))[x] == if keep(x) then multiset(s)[x] else 0
  {
    if s != [] {
      var init := s[..|s| - 1];
      assert s == init + [s[|s| - 1]];
      FilterCounts(init, keep);
    }
  }

  /** The filter keeps the order of the list. */
  lemma {:induction false} FilterOrdered(s: seq<Record>, keep: Record -> bool)
    ensures IsSubsequence(Filter(s, keep), s)
  {
    if s != [] {
      var init := s[..|s| - 1];
      var x := s[|s| - 1];
      assert s == init + [x];
      FilterOrdered(init, keep);
      SubsequenceAppend(Filter(init, keep), init, x);
      if !keep(x) {
        assert Filter(s, keep) == Filter(init, keep);
      }
    }
  }

  /** Extending the longer list, or both lists, by the same record keeps a
      subsequence. */
  lemma {:induction false} SubsequenceAppend(u: seq<Record>, s: seq<Record>, x: Record)
    requires IsSubsequence(u, s)
    ensures IsSubsequence(u + [x], s + [x]) && IsSubsequence(u, s + [x])
    decreases |s|
  {
    if u == [] {
      assert u + [x] == [x];
      SingleSubsequence(s, x);
    } else {
      assert (u + [x])[1..] == u[1..] + [x];
      assert (s + [x])[1..] == s[1..] + [x];
      if u[0] == s[0] && IsSubsequence(u[1..], s[1..]) {
        SubsequenceAppend(u[1..], s[1..], x);
      } else {
        SubsequenceAppend(u, s[1..], x);
      }
    }
  }

  lemma {:induction false} SingleSubsequence(s: seq<Record>, x: Record)
    ensures IsSubsequence([x], s + [x])
    decreases |s|
  {
    if s == [] {
      assert [x][1..] == [] && [x] == s + [x];
    } else {
      assert (s + [x])[1..] == s[1..] + [x];
      SingleSubsequence(s[1..], x);
    }
  }

  /** Every number from 1 to the count is the number given to some passing
      record, the one at index `i`. */
  lemma {:induction false} CountHits(s: seq<Record>, keep: Record -> bool, p: int) returns (i: nat)
    requires 1 <= p <= Count(s, keep)
    ensures i < |s| && keep(s[i]) && Count(s[..i], keep) + 1 == p
  {
    var init := s[..|s| - 1];
    if p <= Count(init, keep) {
      i := CountHits(init, keep, p);
      assert init[i] == s[i] && init[..i] == s[..i];
    } else {
      i := |s| - 1;
      assert init == s[..i];
    }
  }

  /** Kept seen from the front: the first record contributes first. */
  lemma {:induction false} KeptCons<T>(x: Record, s: seq<Record>, keep: Record -> bool, val: Record -> T)
    ensures Kept([x] + s, keep, val) == (if keep(x) then [val(x)] else []) + Kept(s, keep, val)
    decreases |s|
  {
    if s == [] {
      assert ([x] + s)[..0] == [];
    } else {
      var init := s[..|s| - 1];
      assert ([x] + s)[..|s|] == [x] + init;
      assert ([x] + s)[|s|] == s[|s| - 1];
      KeptCons(x, init, keep, val);
    }
  }

  /** The `j`-th kept value is `val` of the `j`-th passing record. */
  lemma {:induction false} KeptAt<T>(s: seq<Record>, keep: Record -> bool, val: Record -> T, j: nat)
    requires j < Count(s, keep)
    ensures Kept(s, keep, val)[j] == val(Filter(s, keep)[j])
  {
    var init := s[..|s| - 1];
    if j < Count(init, keep) {
      KeptAt(init, keep, val, j);
    }
  }

  /** A record that passes contributes its value to the kept values at
      least as often as it occurs among the passing records. */
  lemma {:induction false} KeptCounts(s: seq<Record>, keep: Record -> bool, val: Record -> Record, x: Record)
    ensures multiset(Kept(s, keep, val))[val(x)] >= multiset(Filter(s, keep))[x]
  {
    if s != [] {
      KeptCounts(s[..|s| - 1], keep, val, x);
    }
  }
}
