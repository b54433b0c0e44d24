/** The reconciler: merges the departures and arrivals of the apron into one
    list. Each departure is paired with the first arrival at the same gate
    with the same airframe; paired flights become one record with a composed
    flight number and a running priority, the others are emitted with a `-`
    prefix, and the arrivals follow, except those whose gate was used by a
    merge. */
module DataMerge {
  import opened Records
  import opened InPlace
  import opened Accumulate

  // ---------------------------------------------------------------------
  // Pairing

  /** `departure['Gate'] == arrival['Gate'] and departure['A/C'] == arrival['A/C']`:
      the departure's key is read before the arrival's, and the airframes
      are read only when the gates are equal. Python's `==` never raises on
      these values. */
  function Matches(d: Record, a: Record): (m: Result<bool>)
    ensures m == Ok(true) <==>
      Gate in d && Gate in a && Airframe in d && Airframe in a && d[Gate] == a[Gate] && d[Airframe] == a[Airframe]
    ensures m.Err? <==>
      Gate !in d || Gate !in a || (d[Gate] == a[Gate] && (Airframe !in d || Airframe !in a))
    ensures m.Err? ==> m.error == KeyError(if Gate in d && Gate in a then Airframe else Gate)
  {
    match Lookup(d, Gate)
    case Err(e) => Err(e)
    case Ok(dg) =>
      match Lookup(a, Gate)
      case Err(e) => Err(e)
      case Ok(ag) =>
        if dg != ag then Ok(false)
        else
          match Lookup(d, Airframe)
          case Err(e) => Err(e)
          case Ok(dac) =>
            match Lookup(a, Airframe)
            case Err(e) => Err(e)
            case Ok(aac) => Ok(dac == aac)
  }

  /** The inner loop over the arrivals for one departure: the index of the
      first arrival that matches, None when the loop runs out (its `else`
      branch), or the exception of the first comparison that raises. */
  function FirstMatch(d: Record, arrivals: seq<Record>): (m: Result<Option<nat>>)
    ensures m.Ok? && m.value.Some? ==>
      && m.value.value < |arrivals|
      && Matches(d, arrivals[m.value.value]) == Ok(true)
      && forall i :: 0 <= i < m.value.value ==> Matches(d, arrivals[i]) == Ok(false)
    ensures m.Ok? && m.value.None? ==> forall i :: 0 <= i < |arrivals| ==> Matches(d, arrivals[i]) == Ok(false)
    ensures m.Err? ==> exists k :: 0 <= k < |arrivals| && Matches(d, arrivals[k]) == Err(m.error)
                        && forall i :: 0 <= i < k ==> Matches(d, arrivals[i]) == Ok(false)
  {
    if arrivals == [] then Ok(None)
    else
      match Matches(d, arrivals[0])
      case Err(e) => Err(e)
      case Ok(true) => Ok(Some(0))
      case Ok(false) =>
        var rest := FirstMatch(d, arrivals[1..]);
        assert forall i :: 1 <= i < |arrivals| ==> arrivals[i] == arrivals[1..][i - 1];
        match rest
        case Err(e) =>
          var k :| 0 <= k < |arrivals[1..]| && Matches(d, arrivals[1..][k]) == Err(e)
                   && forall i :: 0 <= i < k ==> Matches(d, arrivals[1..][i]) == Ok(false);
          assert Matches(d, arrivals[k + 1]) == Err(e);
          Err(e)
        case Ok(None) => Ok(None)
        case Ok(Some(j)) => Ok(Some(j + 1))
  }

  predicate Matched(d: Record, arrivals: seq<Record>)
  {
    FirstMatch(d, arrivals).Ok? && FirstMatch(d, arrivals).value.Some?
  }

  /** The arrival a matched departure is merged with. */
  function Partner(d: Record, arrivals: seq<Record>): (j: nat)
    requires Matched(d, arrivals)
    ensures j < |arrivals|
  {
    FirstMatch(d, arrivals).value.value
  }

  /** `{**departure, **arrival}` with the flight number recomposed as
      `arrival[fn] + '-' + departure[fn]`: the arrival's flight number is
      read and concatenated before the departure's is read. */
  function Compose(d: Record, a: Record): (r: Result<Record>)
    ensures FlightNo !in a ==> r == Err(KeyError(FlightNo))
    ensures FlightNo in a && !a[FlightNo].Str? ==> r == Err(TypeError)
    ensures FlightNo in a && a[FlightNo].Str? && FlightNo !in d ==> r == Err(KeyError(FlightNo))
    ensures FlightNo in a && a[FlightNo].Str? && FlightNo in d && !d[FlightNo].Str? ==> r == Err(TypeError)
    ensures r.Ok? ==>
      && a[FlightNo].Str? && d[FlightNo].Str?
      && r.value.Keys == d.Keys + a.Keys
      && r.value[FlightNo] == Str(a[FlightNo].s + "-" + d[FlightNo].s)
      && (forall k :: k in a && k != FlightNo ==> r.value[k] == a[k])
      && (forall k :: k in d && k !in a ==> r.value[k] == d[k])
  {
    match Lookup(a, FlightNo)
    case Err(e) => Err(e)
    case Ok(Str(afn)) =>
      (match Lookup(d, FlightNo)
       case Err(e) => Err(e)
       case Ok(Str(dfn)) => Ok((d + a)[FlightNo := Str(afn + "-" + dfn)])
       case Ok(_) => Err(TypeError))
    case Ok(_) => Err(TypeError)
  }

  /** `r[fn] = '-' + r[fn]`, as done to every record emitted unmerged. */
  function Dashed(r: Record): (t: Result<Record>)
    ensures FlightNo !in r ==> t == Err(KeyError(FlightNo))
    ensures FlightNo in r && !r[FlightNo].Str? ==> t == Err(TypeError)
    ensures t.Ok? ==>
      && r[FlightNo].Str?
      && t.value.Keys == r.Keys
      && t.value[FlightNo] == Str("-" + r[FlightNo].s)
      && forall k :: k in r && k != FlightNo ==> t.value[k] == r[k]
  {
    match Lookup(r, FlightNo)
    case Err(e) => Err(e)
    case Ok(Str(fn)) => Ok(r[FlightNo := Str("-" + fn)])
    case Ok(_) => Err(TypeError)
  }

  // ---------------------------------------------------------------------
  // The departures loop

  /** What one iteration of the departures loop does to the departure dict:
      a merged departure is left as it was, an unmatched one gets its flight
      number prefixed with `-` in place. */
  function Depart(d: Record, arrivals: seq<Record>): Step
  {
    match FirstMatch(d, arrivals)
    case Err(e) => Step(d, Some(e))
    case Ok(Some(j)) => (match Compose(d, arrivals[j]) case Err(e) => Step(d, Some(e)) case Ok(_) => Step(d, None))
    case Ok(None) => (match Dashed(d) case Err(e) => Step(d, Some(e)) case Ok(r) => Step(r, None))
  }

  function DepartStep(arrivals: seq<Record>): Record -> Step
  {
    d => Depart(d, arrivals)
  }

  /** What one iteration appends to the merged list, given the priority
      counter: the merged dict with its priority, or the departure as the
      iteration left it. */
  function Emission(d: Record, arrivals: seq<Record>, priority: int): Record
  {
    if Matched(d, arrivals) && Compose(d, arrivals[Partner(d, arrivals)]).Ok? then
      Compose(d, arrivals[Partner(d, arrivals)]).value[Priority := IntV(priority)]
    else Depart(d, arrivals).rec
  }

  /** The departures that merge with some arrival. */
  function Merges(arrivals: seq<Record>): Record -> bool
  {
    d => Matched(d, arrivals)
  }

  /** The gate of the arrival a merging departure is merged with. */
  function PartnerGate(arrivals: seq<Record>): Record -> Value
  {
    d => if Matched(d, arrivals) then Get(arrivals[Partner(d, arrivals)], Gate, NoneV) else NoneV
  }

  function EmitWith(arrivals: seq<Record>): (Record, int) -> Record
  {
    (d, priority) => Emission(d, arrivals, priority)
  }

  /** `merged_ids` after the departures of `ds`: the gate of each merge, in
      order. */
  function MergedGates(ds: seq<Record>, arrivals: seq<Record>): seq<Value>
  {
    Kept(ds, Merges(arrivals), PartnerGate(arrivals))
  }

  /** `merged_list` after the departures of `ds`: the priority counter `i`
      of an iteration is one more than the number of merges before it. */
  function Emitted(ds: seq<Record>, arrivals: seq<Record>): seq<Record>
  {
    Numbered(ds, Merges(arrivals), EmitWith(arrivals))
  }

  // ---------------------------------------------------------------------
  // The arrivals loop

  /** What the arrivals loop does to one arrival dict: one whose gate is
      not among the merged gates gets the `-` prefix in place. */
  function Arrive(a: Record, gates: seq<Value>): Step
  {
    match Lookup(a, Gate)
    case Err(e) => Step(a, Some(e))
    case Ok(g) =>
      if g in gates then Step(a, None)
      else match Dashed(a) case Err(e) => Step(a, Some(e)) case Ok(r) => Step(r, None)
  }

  function ArriveStep(gates: seq<Value>): Record -> Step
  {
    a => Arrive(a, gates)
  }

  /** The arrivals whose gate is present and not a merged gate. */
  function Unclaimed(gates: seq<Value>): Record -> bool
  {
    a => Gate in a && a[Gate] !in gates
  }

  /** The arrivals of `arrivals` the second loop appends, in order. */
  function Unmerged(arrivals: seq<Record>, gates: seq<Value>): seq<Record>
  {
    Filter(arrivals, Unclaimed(gates))
  }

  // ---------------------------------------------------------------------
  // data_merge

  /** The whole of data_merge: the merged list, or the first exception of
      the departures loop, or else the first of the arrivals loop. */
  function Merge(departures: seq<Record>, arrivals: seq<Record>): Result<seq<Record>>
  {
    var dep := Run(departures, DepartStep(arrivals));
    if dep.error.Some? then Err(dep.error.value)
    else
      var gates := MergedGates(departures, arrivals);
      var arr := Run(arrivals, ArriveStep(gates));
      if arr.error.Some? then Err(arr.error.value)
      else Ok(Emitted(departures, arrivals) + Completed(Unmerged(arrivals, gates), ArriveStep(gates)))
  }

  /** The inner `for arrival in arrivals` loop with its `break`. */
  method FindMatch(d: Record, arrivals: array<Record>) returns (m: Result<Option<nat>>)
    ensures m == FirstMatch(d, arrivals[..])
  {
    for j := 0 to arrivals.Length
      invariant forall k :: 0 <= k < j ==> Matches(d, arrivals[k]) == Ok(false)
    {
      var c := Matches(d, arrivals[j]);
      if c.Err? {
        return Err(c.error);
      }
      if c.value {
        return Ok(Some(j));
      }
    }
    return Ok(None);
  }

  /** The body of the departures loop on one departure, given the priority
      counter: the departure dict as the iteration leaves it, the dict it
      appends to the merged list, whether it merged and with which gate,
      and the exception that stopped it. */
  method DepartOne(departure: Record, arrivals: array<Record>, priority: int)
    returns (item: Record, emitted: Record, matched: bool, gate: Value, err: Option<Error>)
    ensures item == Depart(departure, arrivals[..]).rec
    ensures err == Depart(departure, arrivals[..]).error
    ensures err.None? ==> emitted == Emission(departure, arrivals[..], priority)
    ensures err.None? ==> matched == Matched(departure, arrivals[..])
    ensures err.None? && matched ==> gate == Get(arrivals[..][Partner(departure, arrivals[..])], Gate, NoneV)
  {
    var m := FindMatch(departure, arrivals);
    if m.Err? {
      return departure, departure, false, NoneV, Some(m.error);
    }
    if m.value.Some? {
      var j := m.value.value;
      var composed := Compose(departure, arrivals[j]);
      if composed.Err? {
        return departure, departure, false, NoneV, Some(composed.error);
      }
      return departure, composed.value[Priority := IntV(priority)], true, arrivals[j][Gate], None;
    }
    var dashed := Dashed(departure);
    if dashed.Err? {
      return departure, departure, false, NoneV, Some(dashed.error);
    }
    return dashed.value, dashed.value, false, NoneV, None;
  }

  /** The departures loop: returns `merged_list` and `merged_ids` as it
      leaves them, with the departure dicts updated in place. */
  method MergeDepartures(departures: array<Record>, arrivals: array<Record>)
    returns (merged: seq<Record>, gates: seq<Value>, err: Option<Error>)
    requires departures != arrivals
    modifies departures
    ensures departures[..] == Run(old(departures[..]), DepartStep(arrivals[..])).records
    ensures err == Run(old(departures[..]), DepartStep(arrivals[..])).error
    ensures err.None? ==> merged == Emitted(old(departures[..]), arrivals[..])
    ensures err.None? ==> gates == MergedGates(old(departures[..]), arrivals[..])
  {
    ghost var s := departures[..];
    ghost var f := DepartStep(arrivals[..]);
    merged, gates := [], [];
    var priority := 1;
    for i := 0 to departures.Length
      invariant i <= Failure(s, f)
      invariant departures[..] == Completed(s[..i], f) + s[i..]
      invariant merged == Emitted(s[..i], arrivals[..])
      invariant gates == MergedGates(s[..i], arrivals[..])
      invariant priority == Count(s[..i], Merges(arrivals[..])) + 1
    {
      var e;
      merged, gates, priority, e := DepartAt(departures, arrivals, i, s, merged, gates, priority);
      if e.Some? {
        return merged, gates, e;
      }
    }
    assert s[..departures.Length] == s;
    RunCompletes(s, f);
    err := None;
  }

  /** One iteration of the departures loop, at index `i`: updates the
      departure dict and the accumulators `merged_list`, `merged_ids` and
      `priority`, or stops with the exception. */
  method DepartAt(departures: array<Record>, arrivals: array<Record>, i: nat, ghost s: seq<Record>,
                  merged: seq<Record>, gates: seq<Value>, priority: int)
    returns (merged': seq<Record>, gates': seq<Value>, priority': int, err: Option<Error>)
    requires departures != arrivals
    requires i < departures.Length == |s| && i <= Failure(s, DepartStep(arrivals[..]))
    requires departures[..] == Completed(s[..i], DepartStep(arrivals[..])) + s[i..]
    requires merged == Emitted(s[..i], arrivals[..]) && gates == MergedGates(s[..i], arrivals[..])
    requires priority == Count(s[..i], Merges(arrivals[..])) + 1
    modifies departures
    ensures err.None? ==> i + 1 <= Failure(s, DepartStep(arrivals[..]))
    ensures err.None? ==> departures[..] == Completed(s[..i + 1], DepartStep(arrivals[..])) + s[i + 1..]
    ensures err.None? ==> merged' == Emitted(s[..i + 1], arrivals[..]) && gates' == MergedGates(s[..i + 1], arrivals[..])
    ensures err.None? ==> priority' == Count(s[..i + 1], Merges(arrivals[..])) + 1
    ensures err.Some? ==> departures[..] == Run(s, DepartStep(arrivals[..])).records
    ensures err.Some? ==> err == Run(s, DepartStep(arrivals[..])).error
  {
    ghost var arr := arrivals[..];
    assert departures[i] == s[i];
    var item, emitted, matched, gate, e := DepartOne(departures[i], arrivals, priority);
    Store(departures, i, s, DepartStep(arr), item, e);
    merged', gates', priority', err := merged, gates, priority, e;
    if e.None? {
      Accrue(s, i, arr, merged, gates, priority, emitted, matched, gate);
      merged' := merged + [emitted];
      if matched {
        priority' := priority + 1;
        gates' := gates + [gate];
      }
    }
  }

  /** The accumulators of the departures loop after one more departure. */
  lemma Accrue(s: seq<Record>, i: nat, arrivals: seq<Record>, merged: seq<Record>, gates: seq<Value>,
               priority: int, emitted: Record, matched: bool, gate: Value)
    requires i < |s|
    requires merged == Emitted(s[..i], arrivals) && gates == MergedGates(s[..i], arrivals)
    requires priority == Count(s[..i], Merges(arrivals)) + 1
    requires emitted == Emission(s[i], arrivals, priority) && matched == Matched(s[i], arrivals)
    requires matched ==> gate == Get(arrivals[Partner(s[i], arrivals)], Gate, NoneV)
    ensures merged + [emitted] == Emitted(s[..i + 1], arrivals)
    ensures (if matched then gates + [gate] else gates) == MergedGates(s[..i + 1], arrivals)
    ensures (if matched then priority + 1 else priority) == Count(s[..i + 1], Merges(arrivals)) + 1
  {
    NumberedPrefix(s, i, Merges(arrivals), EmitWith(arrivals));
    KeptPrefix(s, i, Merges(arrivals), PartnerGate(arrivals));
    CountPrefix(s, i, Merges(arrivals));
  }

  /** The body of the arrivals loop on one arrival: the arrival dict as the
      iteration leaves it, whether it is appended to the merged list, and
      the exception that stopped it. */
  method ArriveOne(arrival: Record, gates: seq<Value>) returns (item: Record, emit: bool, err: Option<Error>)
    ensures item == Arrive(arrival, gates).rec
    ensures err == Arrive(arrival, gates).error
    ensures err.None? ==> (emit <==> Gate in arrival && arrival[Gate] !in gates)
  {
    var gate := Lookup(arrival, Gate);
    if gate.Err? {
      return arrival, false, Some(gate.error);
    }
    if gate.value in gates {
      return arrival, false, None;
    }
    var dashed := Dashed(arrival);
    if dashed.Err? {
      return arrival, false, Some(dashed.error);
    }
    return dashed.value, true, None;
  }

  /** The arrivals loop: returns what it appends to the merged list, with
      the arrival dicts updated in place. */
  method EmitArrivals(arrivals: array<Record>, gates: seq<Value>) returns (tail: seq<Record>, err: Option<Error>)
    modifies arrivals
    ensures arrivals[..] == Run(old(arrivals[..]), ArriveStep(gates)).records
    ensures err == Run(old(arrivals[..]), ArriveStep(gates)).error
    ensures err.None? ==> tail == Completed(Unmerged(old(arrivals[..]), gates), ArriveStep(gates))
  {
    ghost var s := arrivals[..];
    ghost var f := ArriveStep(gates);
    tail := [];
    for j := 0 to arrivals.Length
      invariant j <= Failure(s, f)
      invariant arrivals[..] == Completed(s[..j], f) + s[j..]
      invariant tail == Completed(Unmerged(s[..j], gates), f)
    {
      assert arrivals[j] == s[j];
      FilterPrefix(s, j, Unclaimed(gates));
      var item, emit, e := ArriveOne(arrivals[j], gates);
      Store(arrivals, j, s, f, item, e);
      if e.Some? {
        return tail, e;
      }
      if emit {
        assert Unmerged(s[..j + 1], gates) == Unmerged(s[..j], gates) + [s[j]];
        CompletedAppend(Unmerged(s[..j], gates), s[j], f);
        tail := tail + [item];
      } else {
        assert Unmerged(s[..j + 1], gates) == Unmerged(s[..j], gates);
      }
    }
    assert s[..arrivals.Length] == s;
    RunCompletes(s, f);
    err := None;
  }

  /** data_merge: both loops, in place on the two lists. */
  method DataMerge(departures: array<Record>, arrivals: array<Record>) returns (res: Result<seq<Record>>)
    requires departures != arrivals
    modifies departures, arrivals
    ensures departures[..] == Run(old(departures[..]), DepartStep(old(arrivals[..]))).records
    ensures Run(old(departures[..]), DepartStep(old(arrivals[..]))).error.Some? ==> arrivals[..] == old(arrivals[..])
    ensures Run(old(departures[..]), DepartStep(old(arrivals[..]))).error.None? ==>
      arrivals[..] == Run(old(arrivals[..]), ArriveStep(MergedGates(old(departures[..]), old(arrivals[..])))).records
    ensures res.Ok? <==> Merge(old(departures[..]), old(arrivals[..])).Ok?
    ensures res.Ok? ==> res.value == Merge(old(departures[..]), old(arrivals[..])).value
    ensures res.Err? ==> res.error == Merge(old(departures[..]), old(arrivals[..])).error
  {
    var merged, gates, err := MergeDepartures(departures, arrivals);
    if err.Some? {
      return Err(err.value);
    }
    var tail, err2 := EmitArrivals(arrivals, gates);
    if err2.Some? {
      return Err(err2.value);
    }
    return Ok(merged + tail);
  }


  // ---------------------------------------------------------------------
  // Properties of data_merge

  /** The merged list is what the departures loop emits, one record per
      departure, followed by the arrivals the second loop emits. */
  lemma MergeShape(departures: seq<Record>, arrivals: seq<Record>)
    requires Merge(departures, arrivals).Ok?
    ensures var out := Merge(departures, arrivals).value;
      var gates := MergedGates(departures, arrivals);
      && |out| == |departures| + |Unmerged(arrivals, gates)|
      && out[..|departures|] == Emitted(departures, arrivals)
      && out[|departures|..] == Completed(Unmerged(arrivals, gates), ArriveStep(gates))
  {
  }

  /** The record the departure at index `i` emits sits at index `i`, with
      priority one more than the number of merges before it. */
  lemma DepartureEmits(departures: seq<Record>, arrivals: seq<Record>, i: nat)
    requires Merge(departures, arrivals).Ok? && i < |departures|
    ensures Merge(departures, arrivals).value[i]
      == Emission(departures[i], arrivals, Count(departures[..i], Merges(arrivals)) + 1)
    ensures Depart(departures[i], arrivals).error.None?
  {
    NumberedAt(departures, Merges(arrivals), EmitWith(arrivals), i);
    RunRecords(departures, DepartStep(arrivals));
  }

  /** `Priority` and the flight-number key are different keys. A solver
      hint: kept apart so that the literal comparison stays out of the larger
      proofs that use it. */
  lemma PriorityKeyDistinct()
    ensures Priority != FlightNo
  {
  }

  /** A departure that merges is paired with the first arrival, in list
      order, with its gate and airframe, and emits the union of the two
      dicts in which the arrival's values win, the flight number is the
      arrival's, `-`, and the departure's, and `Priority` is the counter. */
  lemma MergedEmission(d: Record, arrivals: seq<Record>, priority: int)
    requires Depart(d, arrivals).error.None? && Matched(d, arrivals)
    ensures var j := Partner(d, arrivals);
      var a := arrivals[j];
      var r := Emission(d, arrivals, priority);
      && Gate in d && Gate in a && d[Gate] == a[Gate]
      && Airframe in d && Airframe in a && d[Airframe] == a[Airframe]
      && (forall i :: 0 <= i < j ==> Matches(d, arrivals[i]) == Ok(false))
      && r.Keys == d.Keys + a.Keys + {Priority}
      && r[Priority] == IntV(priority)
      && r[FlightNo] == Str(a[FlightNo].s + "-" + d[FlightNo].s)
      && (forall k :: k in a && k != FlightNo && k != Priority ==> r[k] == a[k])
      && (forall k :: k in d && k !in a && k != Priority ==> r[k] == d[k])
  {
    PriorityKeyDistinct();
  }

  /** A departure that matches no arrival is emitted as its own dict, the
      flight number prefixed with `-` in place and nothing else changed. */
  lemma UnmatchedEmission(d: Record, arrivals: seq<Record>, priority: int)
    requires Depart(d, arrivals).error.None? && !Matched(d, arrivals)
    ensures var r := Emission(d, arrivals, priority);
      && (forall i :: 0 <= i < |arrivals| ==> Matches(d, arrivals[i]) == Ok(false))
      && r == Depart(d, arrivals).rec
      && r.Keys == d.Keys
      && r[FlightNo] == Str("-" + d[FlightNo].s)
      && (forall k :: k in d && k != FlightNo ==> r[k] == d[k])
  {
  }

  /** Merged records carry the priorities 1, 2, ..., k in emission order:
      the one at index `i` has one more than the merges before it, which
      lies between 1 and the number k of merges. */
  lemma MergedPriority(departures: seq<Record>, arrivals: seq<Record>, i: nat)
    requires Merge(departures, arrivals).Ok? && i < |departures| && Matched(departures[i], arrivals)
    ensures var p := Count(departures[..i], Merges(arrivals)) + 1;
      && i < |Merge(departures, arrivals).value|
      && Get(Merge(departures, arrivals).value[i], Priority, NoneV) == IntV(p)
      && 1 <= p <= Count(departures, Merges(arrivals))
  {
    var p := Count(departures[..i], Merges(arrivals)) + 1;
    DepartureEmits(departures, arrivals, i);
    MergedEmission(departures[i], arrivals, p);
    CountMonotone(departures, i, |departures|, Merges(arrivals));
    assert departures[..|departures|] == departures;
  }

  /** No two merged records share a priority: a later merge has a larger
      one. */
  lemma PrioritiesIncrease(departures: seq<Record>, arrivals: seq<Record>, i: nat, j: nat)
    requires Merge(departures, arrivals).Ok? && i < j < |departures|
    requires Matched(departures[i], arrivals) && Matched(departures[j], arrivals)
    ensures var out := Merge(departures, arrivals).value;
      && j < |out|
      && Get(out[i], Priority, NoneV).IntV? && Get(out[j], Priority, NoneV).IntV?
      && Get(out[i], Priority, NoneV).i < Get(out[j], Priority, NoneV).i
  {
    MergedPriority(departures, arrivals, i);
    MergedPriority(departures, arrivals, j);
    CountMonotone(departures, i, j, Merges(arrivals));
  }

  /** No priority from 1 to the number of merges is skipped: `i` is the
      departure that carries priority `p`. */
  lemma PrioritiesCover(departures: seq<Record>, arrivals: seq<Record>, p: int) returns (i: nat)
    requires Merge(departures, arrivals).Ok? && 1 <= p <= Count(departures, Merges(arrivals))
    ensures i < |departures| && Matched(departures[i], arrivals)
    ensures i < |Merge(departures, arrivals).value| && Get(Merge(departures, arrivals).value[i], Priority, NoneV) == IntV(p)
  {
    i := CountHits(departures, Merges(arrivals), p);
    DepartureEmits(departures, arrivals, i);
    MergedEmission(departures[i], arrivals, p);
  }

  /** An unmerged departure gets no `Priority`: it has one only if the feed
      already had one. */
  lemma UnmergedDepartureUnprioritised(departures: seq<Record>, arrivals: seq<Record>, i: nat)
    requires Merge(departures, arrivals).Ok? && i < |departures|
    requires !Matched(departures[i], arrivals) && Priority !in departures[i]
    ensures i < |Merge(departures, arrivals).value| && Priority !in Merge(departures, arrivals).value[i]
  {
    PriorityKeyDistinct();
    DepartureEmits(departures, arrivals, i);
  }

  /** The emitted arrivals get no `Priority` when the feed had none. */
  lemma ArrivalsUnprioritised(departures: seq<Record>, arrivals: seq<Record>, i: nat)
    requires Merge(departures, arrivals).Ok? && |departures| <= i < |Merge(departures, arrivals).value|
    requires forall a :: a in arrivals ==> Priority !in a
    ensures Priority !in Merge(departures, arrivals).value[i]
  {
    PriorityKeyDistinct();
    var gates := MergedGates(departures, arrivals);
    var u := Unmerged(arrivals, gates);
    var t := i - |departures|;
    MergeShape(departures, arrivals);
    EmittedArrivals(arrivals, gates);
    UnmergedIn(arrivals, gates, t);
    assert Merge(departures, arrivals).value[i] == Completed(u, ArriveStep(gates))[t];
  }

  /** Every arrival the second loop appends is one of the arrivals. */
  lemma UnmergedIn(arrivals: seq<Record>, gates: seq<Value>, t: nat)
    requires t < |Unmerged(arrivals, gates)|
    ensures Unmerged(arrivals, gates)[t] in arrivals
    ensures Unclaimed(gates)(Unmerged(arrivals, gates)[t])
  {
    var u := Unmerged(arrivals, gates);
    FilterCounts(arrivals, Unclaimed(gates));
    assert multiset(u)[u[t]] > 0;
  }

  /** The departures loop leaves merged departures as they were and
      prefixes the flight number of the others. */
  lemma DeparturesAfter(ds: seq<Record>, arrivals: seq<Record>)
    requires Run(ds, DepartStep(arrivals)).error.None?
    ensures var after := Run(ds, DepartStep(arrivals)).records;
      forall i :: 0 <= i < |ds| ==>
        after[i] == if Matched(ds[i], arrivals) then ds[i] else Dashed(ds[i]).value
  {
    RunRecords(ds, DepartStep(arrivals));
  }

  /** `merged_ids` holds a gate exactly when some departure merged with an
      arrival at that gate. */
  lemma MergedGatesMembers(ds: seq<Record>, arrivals: seq<Record>, g: Value)
    ensures g in MergedGates(ds, arrivals) <==>
      exists i :: 0 <= i < |ds| && Matched(ds[i], arrivals) && arrivals[Partner(ds[i], arrivals)][Gate] == g
  {
    KeptMembers(ds, Merges(arrivals), PartnerGate(arrivals), g);
  }

  /** The arrivals the second loop appends: an order-preserving subsequence
      of the arrivals holding each arrival exactly as often as the list
      does when its gate is present and not a merged gate, and not at all
      otherwise. */
  lemma UnmergedSpec(arrivals: seq<Record>, gates: seq<Value>)
    ensures var u := Unmerged(arrivals, gates);
      && IsSubsequence(u, arrivals)
      && forall x :: multiset(u)[x] == if Gate in x && x[Gate] !in gates then multiset(arrivals)[x] else 0
  {
    FilterOrdered(arrivals, Unclaimed(gates));
    FilterCounts(arrivals, Unclaimed(gates));
  }

  /** Each arrival the second loop appends is the arrival with its flight
      number prefixed with `-`, nothing else changed. */
  lemma EmittedArrivals(arrivals: seq<Record>, gates: seq<Value>)
    requires Run(arrivals, ArriveStep(gates)).error.None?
    ensures var u := Unmerged(arrivals, gates);
      var tail := Completed(u, ArriveStep(gates));
      forall t :: 0 <= t < |u| ==> Dashed(u[t]).Ok? && tail[t] == Dashed(u[t]).value
  {
    var f := ArriveStep(gates);
    var u := Unmerged(arrivals, gates);
    RunRecords(arrivals, f);
    CompletedAt(u, f);
    forall t | 0 <= t < |u| ensures Dashed(u[t]).Ok? && Completed(u, f)[t] == Dashed(u[t]).value {
      UnmergedIn(arrivals, gates, t);
      var k :| 0 <= k < |arrivals| && arrivals[k] == u[t];
      assert f(arrivals[k]).error.None?;
    }
  }

  /** data_merge raises exactly when some departure's iteration raises, or
      else some arrival's does. */
  lemma MergeErrors(departures: seq<Record>, arrivals: seq<Record>)
    ensures Merge(departures, arrivals).Err? <==>
      || (exists i :: 0 <= i < |departures| && Depart(departures[i], arrivals).error.Some?)
      || (exists j :: 0 <= j < |arrivals| && Arrive(arrivals[j], MergedGates(departures, arrivals)).error.Some?)
  {
    RunRecords(departures, DepartStep(arrivals));
    RunRecords(arrivals, ArriveStep(MergedGates(departures, arrivals)));
  }

  /** Arrivals are never consumed: two departures at the gate and with the
      airframe of a single arrival both merge with it, with priorities 1 and
      2, and the arrival itself is not emitted again. */
  lemma ArrivalMergedTwice(d1: Record, d2: Record, a: Record)
    requires Matches(d1, a) == Ok(true) && Matches(d2, a) == Ok(true)
    requires FlightNo in d1 && d1[FlightNo].Str? && FlightNo in d2 && d2[FlightNo].Str?
    requires FlightNo in a && a[FlightNo].Str?
    ensures var r := Merge([d1, d2], [a]);
      && r.Ok? && |r.value| == 2
      && Get(r.value[0], Priority, NoneV) == IntV(1) && Get(r.value[1], Priority, NoneV) == IntV(2)
      && Get(r.value[0], FlightNo, NoneV) == Str(a[FlightNo].s + "-" + d1[FlightNo].s)
      && Get(r.value[1], FlightNo, NoneV) == Str(a[FlightNo].s + "-" + d2[FlightNo].s)
  {
    TwiceMerges(d1, d2, a);
    TwicePriorities(d1, d2, a);
    TwiceFlightNos(d1, d2, a);
  }

  /** Both departures merge with the one arrival, and nothing else is
      emitted. */
  lemma TwiceMerges(d1: Record, d2: Record, a: Record)
    requires Matches(d1, a) == Ok(true) && Matches(d2, a) == Ok(true)
    requires FlightNo in d1 && d1[FlightNo].Str? && FlightNo in d2 && d2[FlightNo].Str?
    requires FlightNo in a && a[FlightNo].Str?
    ensures Matched(d1, [a]) && Matched(d2, [a])
    ensures Merge([d1, d2], [a]).Ok? && |Merge([d1, d2], [a]).value| == 2
  {
    var ds, arrs := [d1, d2], [a];
    assert FirstMatch(d1, arrs) == Ok(Some(0)) && FirstMatch(d2, arrs) == Ok(Some(0));
    TwoDeparturesRun(d1, d2, arrs);
    var gates := MergedGates(ds, arrs);
    KeptPrefix(ds, 0, Merges(arrs), PartnerGate(arrs));
    KeptPrefix(ds, 1, Merges(arrs), PartnerGate(arrs));
    assert ds[..2] == ds && ds[..0] == [];
    assert gates == [a[Gate], a[Gate]];
    OneArrivalRun(a, gates);
  }

  lemma TwicePriorities(d1: Record, d2: Record, a: Record)
    requires Matched(d1, [a]) && Matched(d2, [a])
    requires Merge([d1, d2], [a]).Ok? && |Merge([d1, d2], [a]).value| == 2
    ensures var r := Merge([d1, d2], [a]);
      Get(r.value[0], Priority, NoneV) == IntV(1) && Get(r.value[1], Priority, NoneV) == IntV(2)
  {
    var ds, arrs := [d1, d2], [a];
    assert ds[..0] == [];
    assert Count(ds[..0], Merges(arrs)) == 0;
    CountPrefix(ds, 0, Merges(arrs));
    assert Merges(arrs)(ds[0]);
    assert Count(ds[..1], Merges(arrs)) == 1;
    DepartureEmits(ds, arrs, 0);
    DepartureEmits(ds, arrs, 1);
    assert Merge(ds, arrs).value[1] == Emission(d2, arrs, 2);
    MergedEmission(d1, arrs, 1);
    MergedEmission(d2, arrs, 2);
  }

  lemma TwiceFlightNos(d1: Record, d2: Record, a: Record)
    requires Matched(d1, [a]) && Matched(d2, [a])
    requires FlightNo in d1 && d1[FlightNo].Str? && FlightNo in d2 && d2[FlightNo].Str?
    requires FlightNo in a && a[FlightNo].Str?
    requires Merge([d1, d2], [a]).Ok? && |Merge([d1, d2], [a]).value| == 2
    ensures var r := Merge([d1, d2], [a]);
      && Get(r.value[0], FlightNo, NoneV) == Str(a[FlightNo].s + "-" + d1[FlightNo].s)
      && Get(r.value[1], FlightNo, NoneV) == Str(a[FlightNo].s + "-" + d2[FlightNo].s)
  {
    var ds, arrs := [d1, d2], [a];
    DepartureEmits(ds, arrs, 0);
    DepartureEmits(ds, arrs, 1);
    MergedEmission(d1, arrs, Count(ds[..0], Merges(arrs)) + 1);
    MergedEmission(d2, arrs, Count(ds[..1], Merges(arrs)) + 1);
  }

  /** The departures loop over two departures that both complete. */
  lemma TwoDeparturesRun(d1: Record, d2: Record, arrivals: seq<Record>)
    requires Depart(d1, arrivals).error.None? && Depart(d2, arrivals).error.None?
    ensures Run([d1, d2], DepartStep(arrivals)).error.None?
  {
    var f := DepartStep(arrivals);
    assert [d1, d2][1..] == [d2] && [d2][1..] == [];
    assert Failure([d1, d2], f) == 2;
  }

  /** The arrivals loop over one arrival whose gate was merged. */
  lemma OneArrivalRun(a: Record, gates: seq<Value>)
    requires Gate in a && a[Gate] in gates
    ensures Run([a], ArriveStep(gates)).error.None?
    ensures Unmerged([a], gates) == []
  {
    assert [a][1..] == [] && [a][..0] == [];
  }

  /** Merged arrivals are tracked by gate: an arrival that shares its gate
      with a merged arrival is dropped, although nothing merged with it and
      its own fields are never read. */
  lemma GateShadowsArrival(d: Record, a1: Record, a2: Record)
    requires Matches(d, a1) == Ok(true)
    requires Gate in a2 && a2[Gate] == a1[Gate] && Airframe in a2 && a2[Airframe] != a1[Airframe]
    requires FlightNo in d && d[FlightNo].Str? && FlightNo in a1 && a1[FlightNo].Str?
    ensures Matches(d, a2) == Ok(false)
    ensures Merge([d], [a1, a2]).Ok? && |Merge([d], [a1, a2]).value| == 1
  {
    var ds, arrs := [d], [a1, a2];
    assert FirstMatch(d, arrs) == Ok(Some(0));
    var f := DepartStep(arrs);
    assert [d][1..] == [];
    assert Failure(ds, f) == 1;
    var gates := MergedGates(ds, arrs);
    KeptPrefix(ds, 0, Merges(arrs), PartnerGate(arrs));
    assert ds[..1] == ds && ds[..0] == [];
    assert gates == [a1[Gate]];
    TwoClaimedArrivals(a1, a2, gates);
  }

  /** The arrivals loop over two arrivals whose gate was merged. */
  lemma TwoClaimedArrivals(a1: Record, a2: Record, gates: seq<Value>)
    requires Gate in a1 && Gate in a2 && a1[Gate] in gates && a2[Gate] in gates
    ensures Run([a1, a2], ArriveStep(gates)).error.None?
    ensures Unmerged([a1, a2], gates) == []
  {
    var s := [a1, a2];
    assert s[1..] == [a2] && [a2][1..] == [];
    assert Failure(s, ArriveStep(gates)) == 2;
    FilterPrefix(s, 0, Unclaimed(gates));
    FilterPrefix(s, 1, Unclaimed(gates));
    assert s[..2] == s && s[..0] == [];
  }
}
