/** The normalising stages of the pipeline: select and project the records of
    a feed, keep those inside a time window, rewrite the scheduled time as
    `HH:MM`, and rename the fields for the arrival or departure role. */
module DataProcessing {
  import opened Records
  import opened ScheduleOrder
  import opened InPlace
  import opened Accumulate

  // Default configuration of the selection
  const TargetKey: string := "AirlineIATA"
  const TargetValues: seq<string> := ["FI", "SK", "AY"]
  const KeysToKeep: seq<string> := [No, OriginDestIATA, Scheduled, Stand, Aircraft]

  /** An element of the list held by the feed: a dict, or anything else. */
  datatype Item = Dict(rec: Record) | NotDict

  /** A value of the feed's top-level mapping. Iterating a list yields its
      elements; iterating a dict or a string yields strings, i.e. items that
      are not dicts, so those are `Iterable` of `NotDict`s; numbers and None
      cannot be iterated. */
  datatype FeedValue = Iterable(items: seq<Item>) | NotIterable

  /** The decoded feed: a mapping, as its entries in insertion order. */
  type Payload = seq<(string, FeedValue)>

  // ---------------------------------------------------------------------
  // filter_data

  /** `key or target_key`: an absent or empty key falls back to the default. */
  function SelectorKey(key: Option<string>): (k: string)
    ensures key.Some? && key.value != "" ==> k == key.value
    ensures key == None || key == Some("") ==> k == TargetKey
  {
    if key.Some? && key.value != "" then key.value else TargetKey
  }

  /** `values or target_values`: an absent or empty list falls back too. */
  function SelectorValues(values: Option<seq<string>>): (vs: seq<string>)
    ensures values.Some? && values.value != [] ==> vs == values.value
    ensures values == None || values == Some([]) ==> vs == TargetValues
  {
    if values.Some? && values.value != [] then values.value else TargetValues
  }

  /** The dicts among `items`, in order (`if isinstance(item, dict)`). */
  function Dicts(items: seq<Item>): (rs: seq<Record>)
    ensures forall r :: r in rs <==> Dict(r) in items
  {
    if items == [] then []
    else
      assert items == [items[0]] + items[1..];
      (if items[0].Dict? then [items[0].rec] else []) + Dicts(items[1..])
  }

  /** `list(data.values())[:1]` flattened to its dict items: only the first
      value of the mapping is read. */
  function FirstValueRecords(data: Payload): (r: Result<seq<Record>>)
    ensures data == [] ==> r == Ok([])
    ensures data != [] && data[0].1.NotIterable? ==> r == Err(TypeError)
    ensures data != [] && data[0].1.Iterable? ==> r == Ok(Dicts(data[0].1.items))
  {
    if data == [] then Ok([])
    else match data[0].1
      case NotIterable => Err(TypeError)
      case Iterable(items) => Ok(Dicts(items))
  }

  /** `item.get(key) in values`: a missing key reads as None, which is never
      among the strings of `values`. */
  predicate Selects(r: Record, key: string, values: seq<string>)
  {
    key in r && r[key].Str? && r[key].s in values
  }

  /** `{k: d[k] for k in keys_to_keep if k in d}` */
  function Project(r: Record): (p: Record)
    ensures forall k :: k in p ==> k in KeysToKeep
    ensures forall k :: k in KeysToKeep ==> (k in p <==> k in r)
    ensures forall k :: k in p ==> p[k] == r[k]
  {
    map k | k in r && k in KeysToKeep :: r[k]
  }

  /** The selected records of `rs`, projected, in the order of `rs`. */
  function Projected(rs: seq<Record>, key: string, values: seq<string>): (p: seq<Record>)
    ensures forall q :: q in p <==> exists r :: r in rs && Selects(r, key, values) && q == Project(r)
  {
    if rs == [] then []
    else
      assert rs == [rs[0]] + rs[1..];
      (if Selects(rs[0], key, values) then [Project(rs[0])] else []) + Projected(rs[1..], key, values)
  }

  /** Some record lacks `Scheduled`. */
  predicate MissingScheduled(p: seq<Record>)
  {
    exists i :: 0 <= i < |p| && Scheduled !in p[i]
  }

  /** filter_data: select by operator, project to the kept keys and sort by
      the `Scheduled` string. `sorted` reads every key before comparing, so a
      record without `Scheduled` raises `KeyError`; keys of different kinds,
      or None, cannot be compared, so with two records or more they raise
      `TypeError`. */
  function FilterData(data: Payload, key: Option<string>, values: Option<seq<string>>): Result<seq<Record>>
  {
    match FirstValueRecords(data)
    case Err(e) => Err(e)
    case Ok(rs) =>
      var p := Projected(rs, SelectorKey(key), SelectorValues(values));
      if MissingScheduled(p) then Err(KeyError(Scheduled))
      else if |p| >= 2 && !Uniform(p) then Err(TypeError)
      else Ok(Sort(p))
  }

  /** The selected and projected records of the feed, before sorting. */
  function Selection(data: Payload, key: Option<string>, values: Option<seq<string>>): seq<Record>
    requires data != [] && data[0].1.Iterable?
  {
    Projected(Dicts(data[0].1.items), SelectorKey(key), SelectorValues(values))
  }

  /** Which error filter_data raises, and when. */
  lemma FilterDataErrors(data: Payload, key: Option<string>, values: Option<seq<string>>)
    ensures data == [] ==> FilterData(data, key, values) == Ok([])
    ensures data != [] && data[0].1.NotIterable? ==> FilterData(data, key, values) == Err(TypeError)
    ensures data != [] && data[0].1.Iterable? ==>
      var p := Selection(data, key, values);
      && (MissingScheduled(p) <==> FilterData(data, key, values) == Err(KeyError(Scheduled)))
      && (!MissingScheduled(p) && |p| >= 2 && !Uniform(p) <==> FilterData(data, key, values) == Err(TypeError))
  {
  }

  /** A successful filter_data returns the projected selection, ordered by
      `Scheduled`, and as a stable sort leaves it: records with equal keys
      keep their relative order. */
  lemma FilterDataSorted(data: Payload, key: Option<string>, values: Option<seq<string>>)
    requires data != [] && data[0].1.Iterable?
    requires FilterData(data, key, values).Ok?
    ensures var out := FilterData(data, key, values).value;
      var p := Selection(data, key, values);
      && multiset(out) == multiset(p)
      && Sorted(out)
      && forall v :: WithKey(out, v) == WithKey(p, v)
  {
    var p := Selection(data, key, values);
    if |p| >= 2 {
      SortSorted(p);
      forall v ensures WithKey(Sort(p), v) == WithKey(p, v) { SortStable(p, v); }
    } else {
      assert Sort(p) == p by {
        if |p| == 1 { assert p[1..] == []; }
      }
    }
  }

  /** Every output record is the projection of a dict of the first feed value
      whose selector field holds one of the selector values, and no such dict
      is lost. */
  lemma FilterDataSelection(data: Payload, key: Option<string>, values: Option<seq<string>>)
    requires FilterData(data, key, values).Ok?
    ensures var out := FilterData(data, key, values).value;
      var rs := FirstValueRecords(data).value;
      && (forall q :: q in out ==>
            (exists r :: Dict(r) in data[0].1.items && Selects(r, SelectorKey(key), SelectorValues(values)) && q == Project(r)))
      && (forall r :: r in rs && Selects(r, SelectorKey(key), SelectorValues(values)) ==> Project(r) in out)
  {
    var out := FilterData(data, key, values).value;
    var rs := FirstValueRecords(data).value;
    if data == [] {
      return;
    }
    var p := Selection(data, key, values);
    FilterDataSorted(data, key, values);
    forall q | q in out ensures q in p { assert q in multiset(out); }
    forall q | q in p ensures q in out { assert q in multiset(p); }
  }

  /** An absent or empty selector key and value list fall back to
      `AirlineIATA` and `FI`, `SK`, `AY`. */
  lemma FilterDataDefaults(data: Payload, key: Option<string>, values: Option<seq<string>>)
    requires key == None || key == Some("")
    requires values == None || values == Some([])
    ensures FilterData(data, key, values) == FilterData(data, Some(TargetKey), Some(TargetValues))
  {
  }

  /** Only the first value of the feed mapping is read. */
  lemma FilterDataFirstValueOnly(entry: (string, FeedValue), rest: Payload, key: Option<string>, values: Option<seq<string>>)
    ensures FilterData([entry] + rest, key, values) == FilterData([entry], key, values)
  {
  }

  lemma {:induction false} DictsSkipNotDict(a: seq<Item>, b: seq<Item>)
    ensures Dicts(a + [NotDict] + b) == Dicts(a + b)
  {
    if a == [] {
      assert a + [NotDict] + b == [NotDict] + b && a + b == b;
      assert ([NotDict] + b)[1..] == b;
    } else {
      DictsSkipNotDict(a[1..], b);
      assert (a + [NotDict] + b)[1..] == a[1..] + [NotDict] + b;
      assert (a + b)[1..] == a[1..] + b;
    }
  }

  /** Items of the first feed value that are not dicts are skipped. */
  lemma FilterDataSkipsNotDict(name: string, a: seq<Item>, b: seq<Item>, key: Option<string>, values: Option<seq<string>>)
    ensures FilterData([(name, Iterable(a + [NotDict] + b))], key, values)
         == FilterData([(name, Iterable(a + b))], key, values)
  {
    DictsSkipNotDict(a, b);
  }

  /** `item.get(key) in values` as a test on records. */
  function Selector(key: string, values: seq<string>): Record -> bool
  {
    r => Selects(r, key, values)
  }

  /** Dicts works item by item: the dicts of a concatenation are those of
      its parts, in order. */
  lemma {:induction false} DictsAppend(a: seq<Item>, b: seq<Item>)
    ensures Dicts(a + b) == Dicts(a) + Dicts(b)
  {
    if a == [] {
      assert a + b == b;
    } else {
      assert (a + b)[0] == a[0];
      assert (a + b)[1..] == a[1..] + b;
      DictsAppend(a[1..], b);
    }
  }

  /** A single item contributes its dict, or nothing. */
  lemma DictsSingle(x: Item)
    ensures Dicts([x]) == if x.Dict? then [x.rec] else []
  {
    assert [x][1..] == [];
  }

  /** Every dict item occurs among the records as often as in the list. */
  lemma {:induction false} DictsCounts(items: seq<Item>)
    ensures forall r :: multiset(Dicts(items))[r] == multiset(items)[Dict(r)]
  {
    if items != [] {
      assert items == [items[0]] + items[1..];
      DictsCounts(items[1..]);
    }
  }

  /** The selection is the projection of the records that pass the
      selector, as a filter accumulates them. */
  lemma {:induction false} ProjectedKept(rs: seq<Record>, key: string, values: seq<string>)
    ensures Projected(rs, key, values) == Kept(rs, Selector(key, values), Project)
  {
    if rs != [] {
      assert rs == [rs[0]] + rs[1..];
      ProjectedKept(rs[1..], key, values);
      KeptCons(rs[0], rs[1..], Selector(key, values), Project);
    }
  }

  /** The selection keeps the selected records in their order and with
      their multiplicity, each projected: element `j` is the projection of
      the `j`-th selected record. */
  lemma ProjectedElements(rs: seq<Record>, key: string, values: seq<string>)
    ensures var f := Filter(rs, Selector(key, values));
      && |Projected(rs, key, values)| == |f|
      && (forall j :: 0 <= j < |f| ==> Projected(rs, key, values)[j] == Project(f[j]))
      && IsSubsequence(f, rs)
      && (forall x :: multiset(f)[x] == if Selects(x, key, values) then multiset(rs)[x] else 0)
  {
    var keep := Selector(key, values);
    ProjectedKept(rs, key, values);
    forall j | 0 <= j < |Filter(rs, keep)| ensures Projected(rs, key, values)[j] == Project(Filter(rs, keep)[j]) {
      KeptAt(rs, keep, Project, j);
    }
    FilterOrdered(rs, keep);
    FilterCounts(rs, keep);
  }

  /** No selected dict is lost, duplicates included: the projection of a
      selected dict of the first feed value occurs in the result at least
      as often as that dict occurs in the feed. */
  lemma FilterDataKeepsDuplicates(data: Payload, key: Option<string>, values: Option<seq<string>>, r: Record)
    requires data != [] && data[0].1.Iterable?
    requires FilterData(data, key, values).Ok?
    requires Selects(r, SelectorKey(key), SelectorValues(values))
    ensures multiset(FilterData(data, key, values).value)[Project(r)] >= multiset(data[0].1.items)[Dict(r)]
  {
    var items := data[0].1.items;
    var k, vs := SelectorKey(key), SelectorValues(values);
    FilterDataSorted(data, key, values);
    ProjectedKept(Dicts(items), k, vs);
    KeptCounts(Dicts(items), Selector(k, vs), Project, r);
    FilterCounts(Dicts(items), Selector(k, vs));
    DictsCounts(items);
  }

  // ---------------------------------------------------------------------
  // filter_data_by_timestamp

  /** `datetime.fromisoformat(item['Scheduled'])` as an absolute instant;
      `parse` stands for the ISO-8601 parser. */
  function ScheduledInstant(r: Record, parse: string -> Option<int>): (t: Result<int>)
    ensures Scheduled !in r ==> t == Err(KeyError(Scheduled))
    ensures Scheduled in r && !r[Scheduled].Str? ==> t == Err(TypeError)
    ensures t.Ok? ==> r[Scheduled].Str? && FromIso(parse, r[Scheduled].s) == Some(t.value)
    ensures t.Err? && Scheduled in r && r[Scheduled].Str? ==>
      t == Err(ValueError(r[Scheduled].s)) && FromIso(parse, r[Scheduled].s) == None
  {
    match Lookup(r, Scheduled)
    case Err(e) => Err(e)
    case Ok(Str(s)) => (match FromIso(parse, s) case None => Err(ValueError(s)) case Some(t) => Ok(t))
    case Ok(_) => Err(TypeError)
  }

  /** `start <= parsed <= end`: both bounds are inclusive. */
  predicate InWindow(r: Record, start: int, end: int, parse: string -> Option<int>)
  {
    var t := ScheduledInstant(r, parse);
    t.Ok? && start <= t.value <= end
  }

  /** filter_data_by_timestamp: the list comprehension parses every record in
      order, so the first record whose time cannot be read raises. */
  function FilterByTimestamp(data: seq<Record>, start: int, end: int, parse: string -> Option<int>): Result<seq<Record>>
  {
    if data == [] then Ok([])
    else match ScheduledInstant(data[0], parse)
      case Err(e) => Err(e)
      case Ok(t) =>
        match FilterByTimestamp(data[1..], start, end, parse)
        case Err(e) => Err(e)
        case Ok(rest) => Ok(if start <= t <= end then [data[0]] + rest else rest)
  }

  /** The window filter succeeds exactly when every record's time parses;
      otherwise it raises the error of the first record that does not. */
  lemma {:induction false} FilterByTimestampErrors(data: seq<Record>, start: int, end: int, parse: string -> Option<int>)
    ensures var r := FilterByTimestamp(data, start, end, parse);
      && (r.Ok? <==> forall i :: 0 <= i < |data| ==> ScheduledInstant(data[i], parse).Ok?)
      && (r.Err? ==> exists k :: 0 <= k < |data| && ScheduledInstant(data[k], parse) == Err(r.error)
                       && forall i :: 0 <= i < k ==> ScheduledInstant(data[i], parse).Ok?)
  {
    if data != [] {
      FilterByTimestampErrors(data[1..], start, end, parse);
      var r := FilterByTimestamp(data, start, end, parse);
      var t := ScheduledInstant(data[0], parse);
      if t.Ok? {
        var rest := FilterByTimestamp(data[1..], start, end, parse);
        if rest.Ok? {
          forall i | 0 <= i < |data| ensures ScheduledInstant(data[i], parse).Ok? {
            if i > 0 { assert data[i] == data[1..][i - 1]; }
          }
        } else {
          var k :| 0 <= k < |data[1..]| && ScheduledInstant(data[1..][k], parse) == Err(rest.error)
                   && forall i :: 0 <= i < k ==> ScheduledInstant(data[1..][i], parse).Ok?;
          assert ScheduledInstant(data[k + 1], parse) == Err(r.error);
          forall i | 0 <= i < k + 1 ensures ScheduledInstant(data[i], parse).Ok? {
            if i > 0 { assert data[i] == data[1..][i - 1]; }
          }
          assert !ScheduledInstant(data[k + 1], parse).Ok?;
        }
      }
    }
  }

  /** On success the window filter returns an order-preserving subsequence
      of its input that holds each record exactly as often as the input does
      when the record is inside the window, and not at all otherwise. */
  lemma {:induction false} FilterByTimestampResult(data: seq<Record>, start: int, end: int, parse: string -> Option<int>)
    requires FilterByTimestamp(data, start, end, parse).Ok?
    ensures var r := FilterByTimestamp(data, start, end, parse).value;
      && IsSubsequence(r, data)
      && forall x :: multiset(r)[x] == if InWindow(x, start, end, parse) then multiset(data)[x] else 0
  {
    if data != [] {
      assert data == [data[0]] + data[1..];
      FilterByTimestampResult(data[1..], start, end, parse);
      var r := FilterByTimestamp(data, start, end, parse);
      var rest := FilterByTimestamp(data[1..], start, end, parse);
      var t := ScheduledInstant(data[0], parse);
      if start <= t.value <= end {
        assert r.value[1..] == rest.value;
      }
    }
  }

  // ---------------------------------------------------------------------
  // format_time

  /** One iteration of format_time on a record; `clock` stands for
      `strftime('%H:%M')` applied to the result of `fromisoformat`. A missing
      `Scheduled` reads as `''`, which does not parse. */
  function Retime(r: Record, clock: string -> Option<string>): (res: Result<Record>)
    ensures Scheduled !in r ==> res == Err(ValueError(""))
    ensures Scheduled in r && !r[Scheduled].Str? ==> res == Err(TypeError)
    ensures Scheduled in r && r[Scheduled].Str? && FromIso(clock, r[Scheduled].s) == None ==>
      res == Err(ValueError(r[Scheduled].s))
    ensures res.Ok? ==>
      && res.value.Keys == r.Keys
      && r[Scheduled].Str?
      && FromIso(clock, r[Scheduled].s).Some?
      && res.value[Scheduled] == Str(FromIso(clock, r[Scheduled].s).value)
      && forall k :: k in r && k != Scheduled ==> res.value[k] == r[k]
  {
    match Get(r, Scheduled, Str(""))
    case Str(s) => (match FromIso(clock, s) case None => Err(ValueError(s)) case Some(hm) => Ok(r[Scheduled := Str(hm)]))
    case _ => Err(TypeError)
  }

  /** The iteration of format_time as a step of an in-place loop: a record
      whose time cannot be read is left as it was. */
  function RetimeStep(clock: string -> Option<string>): Record -> Step
  {
    r => match Retime(r, clock) case Ok(t) => Step(t, None) case Err(e) => Step(r, Some(e))
  }

  /** The body of format_time's loop on one record: the record with its
      time rewritten, or the record as it was and the exception. */
  method RetimeItem(r: Record, clock: string -> Option<string>) returns (item: Record, err: Option<Error>)
    ensures item == RetimeStep(clock)(r).rec
    ensures err == RetimeStep(clock)(r).error
  {
    var original := Get(r, Scheduled, Str(""));
    if !original.Str? {
      return r, Some(TypeError);
    }
    var parsed := FromIso(clock, original.s);
    if parsed.None? {
      return r, Some(ValueError(original.s));
    }
    return r[Scheduled := Str(parsed.value)], None;
  }

  /** format_time: rewrites `Scheduled` as `HH:MM` in every record, in place,
      raising at the first record whose time cannot be read. */
  method FormatTime(a: array<Record>, clock: string -> Option<string>) returns (err: Option<Error>)
    modifies a
    ensures a[..] == Run(old(a[..]), RetimeStep(clock)).records
    ensures err == Run(old(a[..]), RetimeStep(clock)).error
  {
    ghost var s := a[..];
    ghost var f := RetimeStep(clock);
    for i := 0 to a.Length
      invariant i <= Failure(s, f)
      invariant a[..] == Completed(s[..i], f) + s[i..]
    {
      assert a[i] == s[i];
      var item, e := RetimeItem(a[i], clock);
      Store(a, i, s, f, item, e);
      if e.Some? {
        return e;
      }
    }
    assert s[..a.Length] == s;
    RunCompletes(s, f);
    return None;
  }

  /** format_time record by record: every record before the first unreadable
      time gets its time rewritten, and the rest stay as they were. */
  lemma FormatTimeRecords(s: seq<Record>, clock: string -> Option<string>)
    ensures var o := Run(s, RetimeStep(clock));
      var k := Failure(s, RetimeStep(clock));
      && |o.records| == |s|
      && (forall i :: 0 <= i < k ==> Retime(s[i], clock).Ok? && o.records[i] == Retime(s[i], clock).value)
      && (forall i :: k <= i < |s| ==> o.records[i] == s[i])
  {
    var f := RetimeStep(clock);
    RunRecords(s, f);
    var o := Run(s, f);
    var k := Failure(s, f);
    forall i | 0 <= i < k ensures Retime(s[i], clock).Ok? && o.records[i] == Retime(s[i], clock).value {
      RetimeStepIs(s[i], clock);
    }
    if k < |s| {
      RetimeStepIs(s[k], clock);
    }
  }

  /** format_time raises exactly when some time is unreadable, with the
      exception of the first such record. */
  lemma FormatTimeRaises(s: seq<Record>, clock: string -> Option<string>)
    ensures var o := Run(s, RetimeStep(clock));
      var k := Failure(s, RetimeStep(clock));
      && (o.error.Some? <==> exists i :: 0 <= i < |s| && Retime(s[i], clock).Err?)
      && (o.error.Some? ==> Retime(s[k], clock).Err? && o.error == Some(Retime(s[k], clock).error))
  {
    var f := RetimeStep(clock);
    var k := Failure(s, f);
    forall i | 0 <= i < |s| ensures Retime(s[i], clock).Err? <==> f(s[i]).error.Some? {
      RetimeStepIs(s[i], clock);
    }
    if k < |s| {
      RetimeStepIs(s[k], clock);
    }
  }

  /** The loop step of format_time in terms of Retime. */
  lemma RetimeStepIs(r: Record, clock: string -> Option<string>)
    ensures RetimeStep(clock)(r).error.Some? <==> Retime(r, clock).Err?
    ensures Retime(r, clock).Ok? ==> RetimeStep(clock)(r).rec == Retime(r, clock).value
    ensures Retime(r, clock).Err? ==>
      RetimeStep(clock)(r).rec == r && RetimeStep(clock)(r).error == Some(Retime(r, clock).error)
  {
  }

  // ---------------------------------------------------------------------
  // format_data

  /** `item.get(k, '')[-3:]`: slicing anything but a string raises. */
  function ShortTail(r: Record, k: string): (t: Result<string>)
    ensures k !in r ==> t == Ok("")
    ensures k in r && r[k].Str? ==> t == Ok(LastThree(r[k].s))
    ensures k in r && !r[k].Str? ==> t == Err(TypeError)
  {
    match Get(r, k, Str(""))
    case Str(s) => Ok(LastThree(s))
    case _ => Err(TypeError)
  }

  /** `item[to] = item.pop(from, None)` */
  function Move(r: Record, from: string, to: string): Record
  {
    (r - {from})[to := Get(r, from, NoneV)]
  }

  /** The keys format_data pops from every record. */
  const Moved: set<string> := {Scheduled, OriginDestIATA, Aircraft, Stand, BookedRaw}

  function TimeKey(departure: int): string { if departure == 0 then "Arr." else "Dep." }
  function PlaceKey(departure: int): string { if departure == 0 then "From" else "To" }

  /** The keys format_data sets in every complete record. */
  function Added(departure: int): set<string>
  {
    {TimeKey(departure), PlaceKey(departure), FlightNo, Airframe, Gate, BookedCargoMail}
  }

  /** The first two statements of an iteration of format_data: the
      scheduled time and the origin/destination move to the role's keys. */
  function Relocated(r: Record, departure: int): (m: Record)
    ensures m.Keys == r.Keys - {Scheduled, OriginDestIATA} + {TimeKey(departure), PlaceKey(departure)}
    ensures m[TimeKey(departure)] == Get(r, Scheduled, NoneV)
    ensures m[PlaceKey(departure)] == Get(r, OriginDestIATA, NoneV)
    ensures forall k {:trigger m[k]} :: k in r && k !in {Scheduled, OriginDestIATA, TimeKey(departure), PlaceKey(departure)} ==> m[k] == r[k]
  {
    Move(Move(r, Scheduled, TimeKey(departure)), OriginDestIATA, PlaceKey(departure))
  }

  /** The last four statements: the shortened airframe moves to `A/C`, the
      stand to `Gate`, and the booked cargo field is renamed. */
  function Finished(m: Record, airframe: string): (f: Record)
    ensures f.Keys == m.Keys - {Aircraft, Stand, BookedRaw} + {Airframe, Gate, BookedCargoMail}
    ensures f[Airframe] == Str(airframe)
    ensures f[Gate] == Get(m, Stand, NoneV)
    ensures f[BookedCargoMail] == Get(m, BookedRaw, NoneV)
    ensures forall k {:trigger f[k]} :: k in m && k !in {Aircraft, Stand, BookedRaw, Airframe, Gate, BookedCargoMail} ==> f[k] == m[k]
  {
    Move(Move(Move(m[Aircraft := Str(airframe)], Aircraft, Airframe), Stand, Gate), BookedRaw, BookedCargoMail)
  }

  /** One iteration of format_data, statement by statement. The flight number
      and airframe that the third and fifth statements read are the record's
      own, since the first two statements leave them alone (RelocatedKeeps). */
  function Reshape(r: Record, departure: int): Step
  {
    var relocated := Relocated(r, departure);
    match ShortTail(r, No)
    case Err(e) => Step(relocated, Some(e))
    case Ok(fn) =>
      var numbered := relocated[FlightNo := Str(fn)];
      match ShortTail(r, Aircraft)
      case Err(e) => Step(numbered, Some(e))
      case Ok(ac) => Step(Finished(numbered, ac), None)
  }

  /** An iteration of format_data whose flight number cannot be shortened
      stops after the first two statements. */
  lemma ReshapeStopsAtNumber(r: Record, departure: int)
    requires ShortTail(r, No).Err?
    ensures Reshape(r, departure).rec == Relocated(r, departure)
    ensures Reshape(r, departure).error == Some(TypeError)
  {
  }

  /** An iteration whose airframe cannot be shortened stops after setting
      the flight number. */
  lemma ReshapeStopsAtAirframe(r: Record, departure: int)
    requires ShortTail(r, No).Ok? && ShortTail(r, Aircraft).Err?
    ensures Reshape(r, departure).rec == Relocated(r, departure)[FlightNo := Str(ShortTail(r, No).value)]
    ensures Reshape(r, departure).error == Some(TypeError)
  {
  }

  /** An iteration that runs all its statements. */
  lemma ReshapeCompletes(r: Record, departure: int)
    requires ShortTail(r, No).Ok? && ShortTail(r, Aircraft).Ok?
    ensures Reshape(r, departure).rec == Finished(Relocated(r, departure)[FlightNo := Str(ShortTail(r, No).value)], ShortTail(r, Aircraft).value)
    ensures Reshape(r, departure).error == None
  {
  }

  /** What the first statements leave of the fields read later. */
  lemma RelocatedKeeps(r: Record, departure: int)
    ensures var m := Relocated(r, departure);
      && (No in m <==> No in r) && (No in r ==> m[No] == r[No])
      && (Aircraft in m <==> Aircraft in r) && (Aircraft in r ==> m[Aircraft] == r[Aircraft])
      && (Stand in m <==> Stand in r) && (Stand in r ==> m[Stand] == r[Stand])
      && (BookedRaw in m <==> BookedRaw in r) && (BookedRaw in r ==> m[BookedRaw] == r[BookedRaw])
  {
  }

  /** The flight number or the airframe is present but not a string, so that
      taking its last three characters raises. */
  predicate Malformed(r: Record)
  {
    (No in r && !r[No].Str?) || (Aircraft in r && !r[Aircraft].Str?)
  }

  /** format_data raises `TypeError` exactly on a malformed record. */
  lemma ReshapeErrors(r: Record, departure: int)
    ensures var o := Reshape(r, departure);
      && (o.error.Some? <==> Malformed(r))
      && (o.error.Some? ==> o.error == Some(TypeError))
  {
  }

  /** The role flag decides the keys: 0 moves `Scheduled` to `Arr.` and
      `OriginDestIATA` to `From`, any other value to `Dep.` and `To`; a
      missing source becomes None. Both sources are gone afterwards, even when
      the record raises later. */
  lemma ReshapeRoles(r: Record, departure: int)
    ensures var o := Reshape(r, departure).rec;
      && (departure == 0 ==> "Arr." in o && o["Arr."] == Get(r, Scheduled, NoneV)
                             && "From" in o && o["From"] == Get(r, OriginDestIATA, NoneV))
      && (departure != 0 ==> "Dep." in o && o["Dep."] == Get(r, Scheduled, NoneV)
                             && "To" in o && o["To"] == Get(r, OriginDestIATA, NoneV))
      && Scheduled !in o && OriginDestIATA !in o
  {
    RoleKeysSet(r, departure);
    SourceKeysGone(r, departure);
  }

  /** The role's time and place keys hold the moved values, however far
      the iteration got. */
  lemma RoleKeysSet(r: Record, departure: int)
    ensures var o := Reshape(r, departure).rec;
      && TimeKey(departure) in o && o[TimeKey(departure)] == Get(r, Scheduled, NoneV)
      && PlaceKey(departure) in o && o[PlaceKey(departure)] == Get(r, OriginDestIATA, NoneV)
  {
    var relocated := Relocated(r, departure);
    var tk, pk := TimeKey(departure), PlaceKey(departure);
    RoleKeysFresh(departure);
    if ShortTail(r, No).Ok? {
      var m := relocated[FlightNo := Str(ShortTail(r, No).value)];
      assert m[tk] == relocated[tk] && m[pk] == relocated[pk];
      if ShortTail(r, Aircraft).Ok? {
        ReshapeCompletes(r, departure);
      }
    }
  }

  /** The role's keys are none of the keys the later statements write. A
      solver hint: kept apart so that the literal comparisons stay out of the
      larger proofs that use it. */
  lemma RoleKeysFresh(departure: int)
    ensures TimeKey(departure) !in {FlightNo, Aircraft, Stand, BookedRaw, Airframe, Gate, BookedCargoMail}
    ensures PlaceKey(departure) !in {FlightNo, Aircraft, Stand, BookedRaw, Airframe, Gate, BookedCargoMail}
  {
  }

  /** `Scheduled` and `OriginDestIATA` are gone, however far the iteration
      got. */
  lemma SourceKeysGone(r: Record, departure: int)
    ensures var o := Reshape(r, departure).rec;
      Scheduled !in o && OriginDestIATA !in o
  {
    if ShortTail(r, No).Ok? && ShortTail(r, Aircraft).Ok? {
      ReshapeCompletes(r, departure);
    }
  }

  /** The derived fields of a complete record: the last three characters of
      the flight number and of the airframe (`''` when missing), the stand as
      `Gate`, and the renamed booked cargo field. */
  lemma ReshapeDerived(r: Record, departure: int)
    requires Reshape(r, departure).error.None?
    ensures var o := Reshape(r, departure).rec;
      && FlightNo in o && o[FlightNo] == Str(if No in r && r[No].Str? then LastThree(r[No].s) else "")
      && Airframe in o && o[Airframe] == Str(if Aircraft in r && r[Aircraft].Str? then LastThree(r[Aircraft].s) else "")
      && Gate in o && o[Gate] == Get(r, Stand, NoneV)
      && BookedCargoMail in o && o[BookedCargoMail] == Get(r, BookedRaw, NoneV)
  {
    RelocatedKeeps(r, departure);
    var m := Relocated(r, departure)[FlightNo := Str(ShortTail(r, No).value)];
    assert Reshape(r, departure).rec == Finished(m, ShortTail(r, Aircraft).value);
    assert Get(m, Stand, NoneV) == Get(r, Stand, NoneV);
    assert Get(m, BookedRaw, NoneV) == Get(r, BookedRaw, NoneV);
  }

  /** The keys of a complete record: the popped keys are gone and the six
      presentation keys are set. */
  lemma ReshapeKeys(r: Record, departure: int)
    requires Reshape(r, departure).error.None?
    ensures Reshape(r, departure).rec.Keys == (r.Keys - Moved) + Added(departure)
  {
    ReshapeCompletes(r, departure);
    var fn, ac := ShortTail(r, No).value, ShortTail(r, Aircraft).value;
    NumberedKeys(r, departure, fn);
    EarlyKeysNotPopped(departure);
    RenameKeys(r.Keys, {Scheduled, OriginDestIATA}, {TimeKey(departure), PlaceKey(departure), FlightNo},
               {Aircraft, Stand, BookedRaw}, {Airframe, Gate, BookedCargoMail});
  }

  /** The keys after the first three statements. */
  lemma NumberedKeys(r: Record, departure: int, fn: string)
    ensures Relocated(r, departure)[FlightNo := Str(fn)].Keys
      == r.Keys - {Scheduled, OriginDestIATA} + {TimeKey(departure), PlaceKey(departure), FlightNo}
  {
  }

  /** The keys the first statements set are none of the keys the last ones
      pop. A solver hint: kept apart so that the literal comparisons stay out
      of the larger proofs that use it. */
  lemma EarlyKeysNotPopped(departure: int)
    ensures {TimeKey(departure), PlaceKey(departure), FlightNo} !! {Aircraft, Stand, BookedRaw}
  {
  }

  /** Set algebra for two rounds of popping and setting keys, as a solver
      hint kept apart from the proofs about records. */
  lemma RenameKeys(keys: set<string>, gone: set<string>, set1: set<string>, gone2: set<string>, set2: set<string>)
    requires set1 !! gone2
    ensures keys - gone + set1 - gone2 + set2 == keys - (gone + gone2) + (set1 + set2)
  {
  }

  /** Every other key of a complete record, `No` among them, keeps its value. */
  lemma ReshapeKeeps(r: Record, departure: int)
    requires Reshape(r, departure).error.None?
    ensures var o := Reshape(r, departure).rec;
      && (forall k :: k in r && k !in Moved && k !in Added(departure) ==> k in o && o[k] == r[k])
      && (No in r ==> No in o && o[No] == r[No])
  {
    ReshapeCompletes(r, departure);
    var relocated := Relocated(r, departure);
    var m := relocated[FlightNo := Str(ShortTail(r, No).value)];
    var o := Finished(m, ShortTail(r, Aircraft).value);
    forall k | k in r && k !in Moved && k !in Added(departure) ensures k in o && o[k] == r[k] {
      assert k in relocated && relocated[k] == r[k];
      assert k in m && m[k] == relocated[k];
    }
    NumberNotMoved(departure);
  }

  /** `No` is neither popped nor written by format_data. A solver hint: kept
      apart so that the literal comparisons stay out of the larger proofs
      that use it. */
  lemma NumberNotMoved(departure: int)
    ensures No !in Moved && No !in Added(departure)
  {
  }

  /** The first two statements of the loop body: the time and the place
      move under their role-named keys. */
  method RelocateItem(r: Record, departure: int) returns (item: Record)
    ensures item == Relocated(r, departure)
  {
    item := r;
    var arrDep := if departure == 0 then "Arr." else "Dep.";
    item := Move(item, Scheduled, arrDep);
    var fromTo := if departure == 0 then "From" else "To";
    item := Move(item, OriginDestIATA, fromTo);
  }

  /** The last four statements of the loop body: the airframe is shortened
      and moved to `A/C`, the stand becomes the gate, and the cargo column
      loses its line break. */
  method FinishItem(m: Record, airframe: string) returns (item: Record)
    ensures item == Finished(m, airframe)
  {
    item := m[Aircraft := Str(airframe)];
    item := Move(item, Aircraft, Airframe);
    item := Move(item, Stand, Gate);
    item := Move(item, BookedRaw, BookedCargoMail);
  }

  /** The body of format_data's loop on one record: it returns the record
      as far as the statements got, and the exception that stopped them. */
  method ReshapeItem(r: Record, departure: int) returns (item: Record, err: Option<Error>)
    ensures item == Reshape(r, departure).rec
    ensures err == Reshape(r, departure).error
  {
    item := RelocateItem(r, departure);
    RelocatedKeeps(r, departure);
    var no := Get(item, No, Str(""));
    if !no.Str? {
      ReshapeStopsAtNumber(r, departure);
      return item, Some(TypeError);
    }
    item := item[FlightNo := Str(LastThree(no.s))];
    var aircraft := Get(item, Aircraft, Str(""));
    if !aircraft.Str? {
      ReshapeStopsAtAirframe(r, departure);
      return item, Some(TypeError);
    }
    ReshapeCompletes(r, departure);
    item := FinishItem(item, LastThree(aircraft.s));
    return item, None;
  }

  /** The iteration of format_data as a step of an in-place loop. */
  function ReshapeStep(departure: int): Record -> Step
  {
    r => Reshape(r, departure)
  }

  /** format_data: renames and derives the presentation keys of every record
      in place, for arrivals (`departure == 0`) or departures, raising at the
      first malformed record. The default role of `format_data(data)` is
      arrivals: that call is `FormatData(a, 0)`. */
  method FormatData(a: array<Record>, departure: int) returns (err: Option<Error>)
    modifies a
    ensures a[..] == Run(old(a[..]), ReshapeStep(departure)).records
    ensures err == Run(old(a[..]), ReshapeStep(departure)).error
  {
    ghost var s := a[..];
    ghost var f := ReshapeStep(departure);
    for i := 0 to a.Length
      invariant i <= Failure(s, f)
      invariant a[..] == Completed(s[..i], f) + s[i..]
    {
      assert a[i] == s[i];
      var item, e := ReshapeItem(a[i], departure);
      Store(a, i, s, f, item, e);
      if e.Some? {
        return e;
      }
    }
    assert s[..a.Length] == s;
    RunCompletes(s, f);
    return None;
  }

  /** format_data raises exactly when some record is malformed, and then it
      raises `TypeError` at the first one, having reshaped every record
      before it; the records after it are left as they were. */
  lemma FormatDataRaises(s: seq<Record>, departure: int)
    ensures var o := Run(s, ReshapeStep(departure));
      var k := Failure(s, ReshapeStep(departure));
      && (forall i :: 0 <= i < k ==> !Malformed(s[i]))
      && (o.error.Some? <==> exists i :: 0 <= i < |s| && Malformed(s[i]))
      && (o.error.Some? ==> o.error == Some(TypeError) && Malformed(s[k]))
  {
    var f := ReshapeStep(departure);
    var k := Failure(s, f);
    forall i | 0 <= i < |s| ensures f(s[i]).error.Some? <==> Malformed(s[i]) {
      ReshapeErrors(s[i], departure);
    }
    if k < |s| {
      ReshapeErrors(s[k], departure);
    }
  }

  /** format_data record by record: every record up to the first malformed
      one is reshaped (that one only as far as its statements got), and the
      records after it are unchanged. */
  lemma FormatDataRecords(s: seq<Record>, departure: int)
    ensures var o := Run(s, ReshapeStep(departure));
      var k := Failure(s, ReshapeStep(departure));
      && |o.records| == |s|
      && (forall i :: 0 <= i < |s| && i <= k ==> o.records[i] == Reshape(s[i], departure).rec)
      && (forall i :: k < i < |s| ==> o.records[i] == s[i])
  {
    RunRecords(s, ReshapeStep(departure));
  }
}
