/**
 * The inspection report driver: merge the per-file facility maps with a
 * ChainMap, keep the facilities with enough Routine inspections, then fetch
 * the reports of the facilities in one index range and pair them with the
 * entry ids.
 */
module InspectionReports {
  import opened PyValues
  import opened Sequences

  const N_ENTRIES: nat := 5
  const ROUTINE: string := "Routine"
  const START: int := 2000
  const FINISH: int := 4000

  /** One element of `inspection_report_ids`: `[facility_id, entry_ids]`. */
  datatype Selected = Selected(facilityId: string, entryIds: seq<Json>)

  // ---- ChainMap ---------------------------------------------------------------

  /** Appends the keys of `fields` that are not yet in `seen`, in order. */
  function AddUnseen(seen: seq<string>, fields: seq<(string, Json)>): (r: seq<string>)
    decreases |fields|
  {
    if fields == [] then seen
    else AddUnseen(if fields[0].0 in seen then seen else seen + [fields[0].0], fields[1..])
  }

  /**
   * The iteration order of `ChainMap(*maps)`: the keys of the last map first,
   * then the unseen keys of each earlier map, back to the first.
   */
  function ChainKeys(maps: seq<seq<(string, Json)>>): (r: seq<string>) {
    if maps == [] then [] else AddUnseen(ChainKeys(maps[1..]), maps[0])
  }

  /** `ChainMap(*maps)[key]`: the value in the first map that has the key. */
  function ChainGet(maps: seq<seq<(string, Json)>>, key: string): (r: Option<Json>) {
    if maps == [] then None
    else if key in KeysOf(maps[0]) then Lookup(maps[0], key)
    else ChainGet(maps[1..], key)
  }

  predicate InSomeMap(maps: seq<seq<(string, Json)>>, key: string) {
    exists i :: 0 <= i < |maps| && key in KeysOf(maps[i])
  }

  // ---- Routine entries ----------------------------------------------------------

  /** One element of the comprehension: the condition is evaluated first, then the id is read. */
  function RoutineStep(entry: Json): (r: Result<Option<Json>>) {
    match Index(entry, "inspectionType")
    case Err(e) => Err(e)
    case Ok(kind) =>
      if kind != JStr(ROUTINE) then Ok(None)
      else
        match Index(entry, "id")
        case Err(e) => Err(e)
        case Ok(id) => Ok(Some(id))
  }

  /** `[entry["id"] for entry in entries if entry["inspectionType"] == "Routine"]` */
  function RoutineIds(entries: Json): (r: Result<seq<Json>>) {
    match Iterate(entries)
    case Err(e) => Err(e)
    case Ok(list) => FilterMap(list, RoutineStep)
  }

  /** One iteration of the selection loop, for the facility `key` of the merged map. */
  function SelectStep(maps: seq<seq<(string, Json)>>, key: string): (r: Result<Option<Selected>>) {
    match ChainGet(maps, key)
    case None => Err(KeyError(key))
    case Some(entries) =>
      match RoutineIds(entries)
      case Err(e) => Err(e)
      case Ok(ids) => if |ids| < N_ENTRIES then Ok(None) else Ok(Some(Selected(key, ids)))
  }

  function StepFor(maps: seq<seq<(string, Json)>>): string -> Result<Option<Selected>> {
    key => SelectStep(maps, key)
  }

  /** The selection loop over `ChainMap(*inspection_report_entries).items()`. */
  method SelectFacilities(maps: seq<seq<(string, Json)>>) returns (r: Result<seq<Selected>>)
    ensures r == FilterMap(ChainKeys(maps), StepFor(maps))
  {
    var keys := ChainKeys(maps);
    var step := StepFor(maps);
    var selected: seq<Selected> := [];
    var i := 0;
    while i < |keys|
      invariant 0 <= i <= |keys|
      invariant FilterMap(keys[..i], step) == Ok(selected)
    {
      var facilityId := keys[i];
      assert step(facilityId) == SelectStep(maps, facilityId);
      var entries := ChainGet(maps, facilityId);
      if entries.None? {
        FilterMapStepErr(keys, i, step);
        FilterMapErrorPersists(keys, i + 1, step);
        return Err(KeyError(facilityId));
      }
      var entryIds := RoutineIds(entries.value);
      if entryIds.Err? {
        FilterMapStepErr(keys, i, step);
        FilterMapErrorPersists(keys, i + 1, step);
        return Err(entryIds.error);
      }
      FilterMapStepOk(keys, i, step, selected);
      if |entryIds.value| >= N_ENTRIES {
        selected := selected + [Selected(facilityId, entryIds.value)];
      }
      i := i + 1;
    }
    assert keys[..i] == keys;
    return Ok(selected);
  }

  // ---- fetching a range and pairing -------------------------------------------

  /**
   * The fetch loop over `inspection_report_ids[start:finish]`: `yielded[f]`
   * is what the threaded dispatcher yields for the f-th facility of the range,
   * and each facility's entry ids are zipped with it.
   */
  method FetchAndPair(selected: seq<Selected>, start: int, finish: int, yielded: seq<seq<Json>>)
    returns (facilityReports: seq<(string, seq<(Json, Json)>)>)
    requires |yielded| == |PySlice(selected, start, finish)|
    ensures var range := PySlice(selected, start, finish);
      && |facilityReports| == |range|
      && forall f :: 0 <= f < |range| ==>
        facilityReports[f] == (range[f].facilityId, Zip(range[f].entryIds, yielded[f]))
  {
    var range := PySlice(selected, start, finish);
    facilityReports := [];
    var f := 0;
    while f < |range|
      invariant 0 <= f <= |range|
      invariant |facilityReports| == f
      invariant forall g :: 0 <= g < f ==> facilityReports[g] == (range[g].facilityId, Zip(range[g].entryIds, yielded[g]))
    {
      var pairs := Zip(range[f].entryIds, yielded[f]);
      facilityReports := facilityReports + [(range[f].facilityId, pairs)];
      f := f + 1;
    }
  }

  // ---- output file name -------------------------------------------------------

  function Digit(d: nat): (c: char)
    requires d < 10
    ensures '0' <= c <= '9'
  {
    ('0' as int + d) as char
  }

  /** `str(n)` for a non-negative integer. */
  function Decimal(n: nat): (s: string)
    ensures |s| >= 1 && forall i :: 0 <= i < |s| ==> '0' <= s[i] <= '9'
  {
    if n < 10 then [Digit(n)] else Decimal(n / 10) + [Digit(n % 10)]
  }

  /** `str(n)` */
  function IntString(n: int): (r: string) {
    if n < 0 then "-" + Decimal(-n) else Decimal(n)
  }

  const SUFFIX: string := "_inspection_reports.json"

  /** `f"{timestamp}_range-{start}-{finish - 1}_inspection_reports.json"` */
  function ReportsFileName(timestamp: string, start: int, finish: int): (r: string) {
    timestamp + "_range-" + IntString(start) + "-" + IntString(finish - 1) + SUFFIX
  }

  function ParseDigits(s: string): (r: Option<nat>)
    decreases |s|
  {
    if s == [] || !('0' <= s[|s| - 1] <= '9') then None
    else if |s| == 1 then Some(s[0] as int - '0' as int)
    else
      match ParseDigits(s[..|s| - 1])
      case None => None
      case Some(m) => Some(m * 10 + (s[|s| - 1] as int - '0' as int))
  }

  /** The position of the first `c` in `s`, if any. */
  function FirstIndexOf(s: string, c: char): (r: Option<nat>)
    ensures r.Some? ==> r.value < |s| && s[r.value] == c && c !in s[..r.value]
    ensures r.None? ==> c !in s
  {
    if s == [] then None
    else if s[0] == c then Some(0)
    else
      match FirstIndexOf(s[1..], c)
      case None => None
      case Some(i) => Some(i + 1)
  }

  /** Reads the two range bounds back out of a file name written with the given timestamp. */
  function ParseRangeLabel(timestamp: string, name: string): (r: Option<(nat, nat)>) {
    var prefix := timestamp + "_range-";
    if |name| < |prefix| + |SUFFIX| || name[..|prefix|] != prefix || name[|name| - |SUFFIX|..] != SUFFIX then None
    else
      ParseBounds(name[|prefix|..|name| - |SUFFIX|])
  }

  /** Two decimal numbers separated by the first `-`. */
  function ParseBounds(middle: string): (r: Option<(nat, nat)>) {
    match FirstIndexOf(middle, '-')
    case None => None
    case Some(i) =>
      match (ParseDigits(middle[..i]), ParseDigits(middle[i + 1..]))
      case (Some(a), Some(b)) => Some((a, b))
      case _ => None
  }

  // ---- properties -------------------------------------------------------------

  lemma {:induction false} AddUnseenSpec(seen: seq<string>, fields: seq<(string, Json)>)
    requires Distinct(seen)
    ensures Distinct(AddUnseen(seen, fields))
    ensures |seen| <= |AddUnseen(seen, fields)| && AddUnseen(seen, fields)[..|seen|] == seen
    ensures forall k :: k in AddUnseen(seen, fields) <==> k in seen || k in KeysOf(fields)
    decreases |fields|
  {
    if fields != [] {
      var next := if fields[0].0 in seen then seen else seen + [fields[0].0];
      AddUnseenSpec(next, fields[1..]);
      assert KeysOf(fields) == [fields[0].0] + KeysOf(fields[1..]);
      assert next[..|seen|] == seen;
      assert AddUnseen(seen, fields)[..|next|][..|seen|] == AddUnseen(seen, fields)[..|seen|];
    }
  }

  /** The merged map lists each facility id once, and exactly the ids of all the maps. */
  lemma {:induction false} ChainKeysSpec(maps: seq<seq<(string, Json)>>)
    ensures Distinct(ChainKeys(maps))
    ensures forall k :: k in ChainKeys(maps) <==> InSomeMap(maps, k)
    decreases |maps|
  {
    if maps != [] {
      ChainKeysSpec(maps[1..]);
      AddUnseenSpec(ChainKeys(maps[1..]), maps[0]);
      forall k
        ensures InSomeMap(maps, k) <==> k in KeysOf(maps[0]) || InSomeMap(maps[1..], k)
      {
        if InSomeMap(maps, k) && k !in KeysOf(maps[0]) {
          var i :| 0 <= i < |maps| && k in KeysOf(maps[i]);
          assert maps[1..][i - 1] == maps[i];
        }
        if InSomeMap(maps[1..], k) {
          var i :| 0 <= i < |maps| - 1 && k in KeysOf(maps[1..][i]);
          assert maps[i + 1] == maps[1..][i];
        }
      }
    }
  }

  /**
   * The iteration order: the keys of the maps after position i come first,
   * unchanged, and the earlier maps only add keys behind them. In particular
   * the last map's keys lead, in that map's order.
   */
  lemma {:induction false} ChainKeysOrder(maps: seq<seq<(string, Json)>>, i: nat)
    requires i <= |maps|
    ensures ChainKeys(maps[i..]) <= ChainKeys(maps)
    ensures i == |maps| - 1 && DistinctKeys(maps[i]) ==> KeysOf(maps[i]) <= ChainKeys(maps)
    decreases i
  {
    if i > 0 {
      assert maps[1..][i - 1..] == maps[i..];
      ChainKeysOrder(maps[1..], i - 1);
      ChainKeysSpec(maps[1..]);
      AddUnseenSpec(ChainKeys(maps[1..]), maps[0]);
      assert ChainKeys(maps[1..]) <= ChainKeys(maps);
    }
    if i == |maps| - 1 && DistinctKeys(maps[i]) {
      ChainKeysSingle(maps[i]);
      assert maps[i..] == [maps[i]];
    }
  }

  lemma ChainKeysSingle(m: seq<(string, Json)>)
    requires DistinctKeys(m)
    ensures ChainKeys([m]) == KeysOf(m)
  {
    assert [m][1..] == [];
    assert [] + KeysOf(m) == KeysOf(m);
    AddUnseenFresh([], m);
  }

  /** Keys that are all new and distinct are appended as they are. */
  lemma {:induction false} AddUnseenFresh(seen: seq<string>, fields: seq<(string, Json)>)
    requires Distinct(seen + KeysOf(fields))
    ensures AddUnseen(seen, fields) == seen + KeysOf(fields)
    decreases |fields|
  {
    if fields != [] {
      var k0, rest := fields[0].0, fields[1..];
      var ks := KeysOf(rest);
      assert KeysOf(fields) == [k0] + ks;
      assert seen + KeysOf(fields) == (seen + [k0]) + ks;
      forall i | 0 <= i < |seen|
        ensures seen[i] != k0
      {
        assert (seen + KeysOf(fields))[i] == seen[i] && (seen + KeysOf(fields))[|seen|] == k0;
      }
      AddUnseenFresh(seen + [k0], rest);
    }
  }

  /** A facility's entries come from the first map, in list order, that has the facility. */
  lemma {:induction false} ChainGetFirstMap(maps: seq<seq<(string, Json)>>, key: string, i: nat)
    requires i < |maps| && key in KeysOf(maps[i])
    requires forall j :: 0 <= j < i ==> key !in KeysOf(maps[j])
    ensures ChainGet(maps, key) == Lookup(maps[i], key)
    decreases i
  {
    if i > 0 {
      assert key !in KeysOf(maps[0]);
      assert forall j :: 0 <= j < i - 1 ==> maps[1..][j] == maps[j + 1];
      ChainGetFirstMap(maps[1..], key, i - 1);
    }
  }

  /** Every id the merged map iterates over can be looked up in it. */
  lemma {:induction false} ChainGetDefined(maps: seq<seq<(string, Json)>>, key: string)
    requires InSomeMap(maps, key)
    ensures ChainGet(maps, key).Some?
    decreases |maps|
  {
    if key !in KeysOf(maps[0]) {
      var i :| 0 <= i < |maps| && key in KeysOf(maps[i]);
      assert maps[1..][i - 1] == maps[i];
      ChainGetDefined(maps[1..], key);
    }
  }

  /**
   * The entry ids are exactly the ids of the Routine entries, in entry order:
   * `idx` lists the positions of those entries.
   */
  lemma RoutineIdsSpec(list: seq<Json>) returns (idx: seq<nat>)
    requires FilterMap(list, RoutineStep).Ok?
    ensures var ids := FilterMap(list, RoutineStep).value;
      && |ids| == |idx|
      && Increasing(idx)
      && (forall j :: 0 <= j < |list| ==> (j in idx <==> Index(list[j], "inspectionType") == Ok(JStr(ROUTINE))))
      && (forall k :: 0 <= k < |idx| ==> idx[k] < |list| && Index(list[idx[k]], "id") == Ok(ids[k]))
  {
    idx := FilterMapSelects(list, RoutineStep);
  }

  /**
   * A successful selection lists each facility once, in the merged map's
   * order, each with its Routine entry ids, at least N_ENTRIES of them.
   */
  lemma SelectionListed(maps: seq<seq<(string, Json)>>)
    requires FilterMap(ChainKeys(maps), StepFor(maps)).Ok?
    ensures var out := FilterMap(ChainKeys(maps), StepFor(maps)).value;
      && (forall p, q :: 0 <= p < q < |out| ==> out[p].facilityId != out[q].facilityId)
      && (forall s :: s in out ==>
            ChainGet(maps, s.facilityId).Some? && RoutineIds(ChainGet(maps, s.facilityId).value) == Ok(s.entryIds)
            && |s.entryIds| >= N_ENTRIES)
  {
    var keys := ChainKeys(maps);
    var out := FilterMap(keys, StepFor(maps)).value;
    ChainKeysSpec(maps);
    var idx := FilterMapSelects(keys, StepFor(maps));
    forall k | 0 <= k < |idx|
      ensures out[k].facilityId == keys[idx[k]]
      ensures ChainGet(maps, out[k].facilityId).Some? && RoutineIds(ChainGet(maps, out[k].facilityId).value) == Ok(out[k].entryIds)
      ensures |out[k].entryIds| >= N_ENTRIES
    {
      assert SelectStep(maps, keys[idx[k]]) == Ok(Some(out[k]));
    }
  }

  /**
   * A facility of any of the maps is selected exactly when its entries, taken
   * from the first map that has it, hold at least N_ENTRIES Routine entries.
   */
  lemma SelectionIff(maps: seq<seq<(string, Json)>>, key: string)
    requires FilterMap(ChainKeys(maps), StepFor(maps)).Ok? && InSomeMap(maps, key)
    ensures var out := FilterMap(ChainKeys(maps), StepFor(maps)).value;
      && ChainGet(maps, key).Some? && RoutineIds(ChainGet(maps, key).value).Ok?
      && ((exists s :: s in out && s.facilityId == key) <==> |RoutineIds(ChainGet(maps, key).value).value| >= N_ENTRIES)
  {
    var keys := ChainKeys(maps);
    var out := FilterMap(keys, StepFor(maps)).value;
    ChainKeysSpec(maps);
    var j :| 0 <= j < |keys| && keys[j] == key;
    var idx := FilterMapSelects(keys, StepFor(maps));
    assert StepFor(maps)(keys[j]).Ok?;
    if exists s :: s in out && s.facilityId == key {
      SelectedHasEnough(maps, keys, out, idx, key);
    }
    if |RoutineIds(ChainGet(maps, key).value).value| >= N_ENTRIES {
      assert StepFor(maps)(keys[j]).value.Some?;
      assert j in idx;
      var p :| 0 <= p < |idx| && idx[p] == j;
      assert StepFor(maps)(keys[idx[p]]) == Ok(Some(out[p]));
      assert out[p] in out && out[p].facilityId == key;
    }
  }

  lemma SelectedHasEnough(maps: seq<seq<(string, Json)>>, keys: seq<string>, out: seq<Selected>, idx: seq<nat>, key: string)
    requires |idx| == |out|
    requires forall k :: 0 <= k < |idx| ==> idx[k] < |keys| && StepFor(maps)(keys[idx[k]]) == Ok(Some(out[k]))
    requires exists s :: s in out && s.facilityId == key
    ensures ChainGet(maps, key).Some? && RoutineIds(ChainGet(maps, key).value).Ok?
    ensures |RoutineIds(ChainGet(maps, key).value).value| >= N_ENTRIES
  {
    var s :| s in out && s.facilityId == key;
    var p :| 0 <= p < |out| && out[p] == s;
    assert SelectStep(maps, keys[idx[p]]) == Ok(Some(out[p]));
  }

  /** Only `inspection_report_ids[START:FINISH]` is fetched: 2000 facilities when at least 4000 are selected. */
  lemma FetchedRange(selected: seq<Selected>)
    ensures |selected| >= FINISH ==>
      PySlice(selected, START, FINISH) == selected[START..FINISH] && |PySlice(selected, START, FINISH)| == 2000
    ensures |selected| <= START ==> PySlice(selected, START, FINISH) == []
  {
    SliceInBounds(selected, START, FINISH);
  }

  lemma {:induction false} ParseDecimal(n: nat)
    ensures ParseDigits(Decimal(n)) == Some(n)
    decreases n
  {
    if n >= 10 {
      ParseDecimal(n / 10);
      var s := Decimal(n);
      assert s[..|s| - 1] == Decimal(n / 10);
    }
  }

  /**
   * The file name labels the range inclusively: it records the first index
   * processed and `finish - 1`, the last one, and both can be read back.
   */
  lemma RangeLabelRoundTrip(timestamp: string, start: nat, finish: nat)
    requires finish >= 1
    ensures ParseRangeLabel(timestamp, ReportsFileName(timestamp, start, finish)) == Some((start, finish - 1))
  {
    var middle := Decimal(start) + "-" + Decimal(finish - 1);
    assert IntString(start) == Decimal(start);
    assert IntString(finish - 1) == Decimal(finish - 1);
    Regroup(timestamp + "_range-", Decimal(start), "-", Decimal(finish - 1), SUFFIX);
    ParseRangeLabelOf(timestamp, middle);
    ParseBoundsDecimal(start, finish - 1);
  }

  lemma Regroup(p: string, a: string, d: string, b: string, s: string)
    ensures p + a + d + b + s == p + (a + d + b) + s
  {
    assert p + a + d + b + s == p + (a + d + b) + s;
  }

  /** A name built from the timestamp, a middle part and the suffix has that middle part read back. */
  lemma ParseRangeLabelOf(timestamp: string, middle: string)
    ensures ParseRangeLabel(timestamp, timestamp + "_range-" + middle + SUFFIX) == ParseBounds(middle)
  {
    ThreeParts(timestamp + "_range-", middle, SUFFIX);
  }

  lemma ThreeParts(prefix: string, middle: string, suffix: string)
    ensures var s := prefix + middle + suffix;
      && s[..|prefix|] == prefix && s[|s| - |suffix|..] == suffix && s[|prefix|..|s| - |suffix|] == middle
  {
    var s := prefix + middle + suffix;
    assert s[..|prefix|] == prefix;
    assert s[|s| - |suffix|..] == suffix;
    assert s[|prefix|..|s| - |suffix|] == middle;
  }

  lemma ParseBoundsDecimal(a: nat, b: nat)
    ensures ParseBounds(Decimal(a) + "-" + Decimal(b)) == Some((a, b))
  {
    var da, db := Decimal(a), Decimal(b);
    var middle := da + "-" + db;
    FirstDash(da, db);
    assert middle[..|da|] == da;
    assert middle[|da| + 1..] == db;
    ParseDecimal(a);
    ParseDecimal(b);
  }

  lemma {:induction false} FirstDash(a: string, b: string)
    requires '-' !in a
    ensures FirstIndexOf(a + "-" + b, '-') == Some(|a|)
  {
    if a != [] {
      assert (a + "-" + b)[1..] == a[1..] + "-" + b;
      FirstDash(a[1..], b);
    }
  }

  /** When the range lies inside the list, the labelled bounds are the first and last index processed. */
  lemma RangeLabelInclusive(selected: seq<Selected>, start: int, finish: int)
    requires 0 <= start < finish <= |selected|
    ensures var range := PySlice(selected, start, finish);
      && |range| == (finish - 1) - start + 1
      && range[0] == selected[start] && range[|range| - 1] == selected[finish - 1]
  {
    SliceInBounds(selected, start, finish);
  }
}
