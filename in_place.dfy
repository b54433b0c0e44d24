/** A loop that rewrites the records of a list one by one, in place, and
    stops at the first record whose statements raise: the shape of
    format_time and format_data. The statements run on one record are a
    function `f` from the record to what they leave of it and what they
    raise. */
module InPlace {
  import opened Records

  /** One iteration on one record: the record as the statements left it,
      and the exception that stopped them, if any. */
  datatype Step = Step(rec: Record, error: Option<Error>)

  /** The whole list after the loop, and the exception it ended with. */
  datatype Outcome = Outcome(records: seq<Record>, error: Option<Error>)

  /** The index of the first record the loop raises on, or `|s|`. */
  function Failure(s: seq<Record>, f: Record -> Step): (k: nat)
    ensures k <= |s|
    ensures forall i :: 0 <= i < k ==> f(s[i]).error.None?
    ensures k < |s| ==> f(s[k]).error.Some?
  {
    if s == [] then 0
    else if f(s[0]).error.Some? then 0
    else
      var k := 1 + Failure(s[1..], f);
      assert forall i :: 1 <= i < k ==> s[i] == s[1..][i - 1];
      k
  }

  /** The records of `s`, each rewritten by a complete iteration. */
  function Completed(s: seq<Record>, f: Record -> Step): (t: seq<Record>)
    ensures |t| == |s|
  {
    if s == [] then []
    else Completed(s[..|s| - 1], f) + [f(s[|s| - 1]).rec]
  }

  /** What the loop leaves in the list and what it raises: the records
      before the first failing one rewritten, that one as far as its
      statements got, the rest untouched. */
  function Run(s: seq<Record>, f: Record -> Step): Outcome
  {
    var k := Failure(s, f);
    if k < |s| then Outcome(Completed(s[..k], f) + [f(s[k]).rec] + s[k + 1..], f(s[k]).error)
    else Outcome(Completed(s, f), None)
  }

  /** Each record of Completed is the rewritten record at the same index. */
  lemma {:induction false} CompletedAt(s: seq<Record>, f: Record -> Step)
    ensures forall i :: 0 <= i < |s| ==> Completed(s, f)[i] == f(s[i]).rec
  {
    if s != [] {
      CompletedAt(s[..|s| - 1], f);
    }
  }

  /** Completed over a list extended by one record. */
  lemma CompletedAppend(u: seq<Record>, x: Record, f: Record -> Step)
    ensures Completed(u + [x], f) == Completed(u, f) + [f(x).rec]
  {
    assert (u + [x])[..|u|] == u;
  }

  /** The loop record by record: every record up to the first failing one
      is what its iteration left, the rest are unchanged, and the loop
      raises exactly the exception of the first failing record. */
  lemma RunRecords(s: seq<Record>, f: Record -> Step)
    ensures var o := Run(s, f);
      var k := Failure(s, f);
      && |o.records| == |s|
      && (forall i :: 0 <= i < |s| && i <= k ==> o.records[i] == f(s[i]).rec)
      && (forall i :: k < i < |s| ==> o.records[i] == s[i])
      && (o.error.Some? <==> exists i :: 0 <= i < |s| && f(s[i]).error.Some?)
      && (o.error.Some? ==> o.error == f(s[k]).error)
  {
    var k := Failure(s, f);
    var o := Run(s, f);
    var done := Completed(s[..k], f);
    CompletedAt(s[..k], f);
    if k < |s| {
      var rest := [f(s[k]).rec] + s[k + 1..];
      assert o.records == done + rest;
      forall i | 0 <= i < k ensures o.records[i] == f(s[i]).rec {
        assert o.records[i] == done[i];
        assert s[..k][i] == s[i];
      }
      forall i | k < i < |s| ensures o.records[i] == s[i] {
        assert o.records[i] == rest[i - k];
      }
    } else {
      assert s[..k] == s;
    }
  }

  /** An iteration that does not raise extends the completed prefix. */
  lemma RunContinues(s: seq<Record>, i: nat, f: Record -> Step)
    requires i < |s| && i <= Failure(s, f) && f(s[i]).error.None?
    ensures i + 1 <= Failure(s, f)
    ensures Completed(s[..i + 1], f) == Completed(s[..i], f) + [f(s[i]).rec]
  {
    assert s[..i + 1][..i] == s[..i];
  }

  /** An iteration that raises ends the loop there. */
  lemma RunStops(s: seq<Record>, i: nat, f: Record -> Step)
    requires i < |s| && i <= Failure(s, f) && f(s[i]).error.Some?
    ensures Run(s, f).records == Completed(s[..i], f) + [f(s[i]).rec] + s[i + 1..]
    ensures Run(s, f).error == f(s[i]).error
  {
    assert Failure(s, f) == i;
  }

  /** A loop that ran over every record without raising. */
  lemma RunCompletes(s: seq<Record>, f: Record -> Step)
    requires |s| <= Failure(s, f)
    ensures Run(s, f).records == Completed(s, f)
    ensures Run(s, f).error == None
  {
  }

  /** The end of one iteration of the loop at index `i`: stores the record
      the statements left, and either the completed prefix grows by one or
      the loop ends with the exception, as Run says. */
  method Store(a: array<Record>, i: nat, ghost s: seq<Record>, ghost f: Record -> Step, item: Record, e: Option<Error>)
    requires i < a.Length == |s| && i <= Failure(s, f)
    requires a[..] == Completed(s[..i], f) + s[i..]
    requires item == f(s[i]).rec && e == f(s[i]).error
    modifies a
    ensures e.None? ==> i + 1 <= Failure(s, f) && a[..] == Completed(s[..i + 1], f) + s[i + 1..]
    ensures e.Some? ==> a[..] == Run(s, f).records && e == Run(s, f).error
  {
    ghost var before := a[..];
    a[i] := item;
    assert a[..] == before[i := item];
    Splice(before, Completed(s[..i], f), s[i..], item);
    assert s[i..][1..] == s[i + 1..];
    if e.Some? {
      RunStops(s, i, f);
    } else {
      RunContinues(s, i, f);
    }
  }

  /** Overwriting the first record after a prefix. */
  lemma Splice(t: seq<Record>, done: seq<Record>, rest: seq<Record>, x: Record)
    requires t == done + rest && rest != []
    ensures t[|done| := x] == done + [x] + rest[1..]
  {
  }
}
