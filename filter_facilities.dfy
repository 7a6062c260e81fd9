/**
 * The facility preprocessor: keep the Food Service Establishment 1 facilities
 * of the Vancouver communities, each reduced to seven keys.
 */
module FilterFacilities {
  import opened PyValues
  import opened Sequences

  const FSE1: string := "Food Service Establishment 1"
  const VANCOUVER: string := "Vancouver"
  const KEYS: seq<string> := ["id", "facilityType", "facilityName", "community", "siteAddress", "latitude", "longitude"]

  /** `d[key] = v`: a present key keeps its position and takes the new value, a new key is appended. */
  function DictSet(fields: seq<(string, Json)>, key: string, v: Json): (r: seq<(string, Json)>) {
    if fields == [] then [(key, v)]
    else if fields[0].0 == key then [(key, v)] + fields[1..]
    else [fields[0]] + DictSet(fields[1..], key, v)
  }

  /**
   * The fields of `{key: collection[key] for key in keys}`, built key by key;
   * the first key that cannot be looked up raises.
   */
  function SubsetFields(collection: Json, keys: seq<string>): (r: Result<seq<(string, Json)>>) {
    if keys == [] then Ok([])
    else
      match SubsetFields(collection, keys[..|keys| - 1])
      case Err(e) => Err(e)
      case Ok(fs) =>
        match Index(collection, keys[|keys| - 1])
        case Err(e) => Err(e)
        case Ok(v) => Ok(DictSet(fs, keys[|keys| - 1], v))
  }

  /** `subset_keys(collection, keys)` */
  function SubsetKeys(collection: Json, keys: seq<string>): (r: Result<Json>)
    ensures r.Ok? ==> r.value.JObj?
  {
    match SubsetFields(collection, keys)
    case Err(e) => Err(e)
    case Ok(fs) => Ok(JObj(fs))
  }

  /**
   * The facility type is compared first, then the community is matched
   * against "Vancouver" at its start; a community that is not a string makes
   * re.match raise TypeError.
   */
  function IsVancouverFSE1(f: Json): (r: Result<bool>) {
    match Index(f, "facilityType")
    case Err(e) => Err(e)
    case Ok(kind) =>
      match Index(f, "community")
      case Err(e) => Err(e)
      case Ok(community) =>
        if !community.JStr? then Err(TypeError)
        else Ok(kind == JStr(FSE1) && StartsWith(community.s, VANCOUVER))
  }

  /** `re.match(prefix, s)` for a prefix without special characters: a match anchored at the start. */
  predicate StartsWith(s: string, prefix: string) {
    |prefix| <= |s| && s[..|prefix|] == prefix
  }

  lemma StartsWithIff(s: string, prefix: string)
    ensures StartsWith(s, prefix) <==> exists rest :: s == prefix + rest
  {
    if StartsWith(s, prefix) {
      assert s == prefix + s[|prefix|..];
    }
  }

  /** One iteration of the filter loop. */
  function FacilityStep(f: Json): (r: Result<Option<Json>>) {
    match IsVancouverFSE1(f)
    case Err(e) => Err(e)
    case Ok(false) => Ok(None)
    case Ok(true) =>
      match SubsetKeys(f, KEYS)
      case Err(e) => Err(e)
      case Ok(d) => Ok(Some(d))
  }

  /** The filter loop over `facilities["result"]`. */
  method FilterVancouverFSE1(facilities: Json) returns (r: Result<seq<Json>>)
    ensures Index(facilities, "result").Err? ==> r == Err(Index(facilities, "result").error)
    ensures Index(facilities, "result").Ok? && Iterate(Index(facilities, "result").value).Err? ==> r == Err(TypeError)
    ensures Index(facilities, "result").Ok? && Iterate(Index(facilities, "result").value).Ok? ==>
      r == FilterMap(Iterate(Index(facilities, "result").value).value, FacilityStep)
  {
    var result := Index(facilities, "result");
    if result.Err? {
      return Err(result.error);
    }
    var iterated := Iterate(result.value);
    if iterated.Err? {
      return Err(iterated.error);
    }
    r := FilterList(iterated.value);
  }

  /** The loop body applied to each element of the facility list in turn. */
  method FilterList(list: seq<Json>) returns (r: Result<seq<Json>>)
    ensures r == FilterMap(list, FacilityStep)
  {
    var step := FacilityStep;
    var kept: seq<Json> := [];
    var i := 0;
    while i < |list|
      invariant 0 <= i <= |list|
      invariant FilterMap(list[..i], step) == Ok(kept)
    {
      var f := list[i];
      assert step(f) == FacilityStep(f);
      var keep := IsVancouverFSE1(f);
      if keep.Err? {
        FilterMapStepErr(list, i, step);
        FilterMapErrorPersists(list, i + 1, step);
        return Err(keep.error);
      }
      if keep.value {
        var subset := SubsetKeys(f, KEYS);
        if subset.Err? {
          FilterMapStepErr(list, i, step);
          FilterMapErrorPersists(list, i + 1, step);
          return Err(subset.error);
        }
        FilterMapStepOk(list, i, step, kept);
        kept := kept + [subset.value];
      } else {
        FilterMapStepOk(list, i, step, kept);
      }
      i := i + 1;
    }
    assert list[..i] == list;
    return Ok(kept);
  }

  // ---- properties -------------------------------------------------------------

  /** Storing under a new key appends it; storing under a present key keeps the key order. */
  lemma {:induction false} DictSetKeys(fields: seq<(string, Json)>, key: string, v: Json)
    ensures key !in KeysOf(fields) ==> DictSet(fields, key, v) == fields + [(key, v)]
    ensures key in KeysOf(fields) ==> KeysOf(DictSet(fields, key, v)) == KeysOf(fields)
  {
    if fields != [] && fields[0].0 != key {
      DictSetKeys(fields[1..], key, v);
      assert KeysOf(fields) == [fields[0].0] + KeysOf(fields[1..]);
    }
  }

  /** After `d[key] = v`, the key holds v and every other key its old value. */
  lemma {:induction false} DictSetLookup(fields: seq<(string, Json)>, key: string, v: Json, k: string)
    ensures k in KeysOf(DictSet(fields, key, v)) <==> k in KeysOf(fields) || k == key
    ensures Lookup(DictSet(fields, key, v), k) == if k == key then Some(v) else Lookup(fields, k)
  {
    if fields != [] && fields[0].0 != key {
      DictSetLookup(fields[1..], key, v, k);
      assert KeysOf(fields) == [fields[0].0] + KeysOf(fields[1..]);
      assert KeysOf(DictSet(fields, key, v)) == [fields[0].0] + KeysOf(DictSet(fields[1..], key, v));
    }
  }

  /** `d[key] = v` never duplicates a key. */
  lemma DictSetDistinct(fields: seq<(string, Json)>, key: string, v: Json)
    requires DistinctKeys(fields)
    ensures DistinctKeys(DictSet(fields, key, v))
  {
    DictSetKeys(fields, key, v);
    var r := DictSet(fields, key, v);
    if key in KeysOf(fields) {
      assert forall i :: 0 <= i < |r| ==> r[i].0 == KeysOf(r)[i] == KeysOf(fields)[i] == fields[i].0;
    }
  }

  /** A successful subset of n keys is the subset of the first n - 1 with the last key stored. */
  lemma SubsetFieldsLast(collection: Json, keys: seq<string>)
    requires keys != [] && SubsetFields(collection, keys).Ok?
    ensures SubsetFields(collection, keys[..|keys| - 1]).Ok? && Index(collection, keys[|keys| - 1]).Ok?
    ensures SubsetFields(collection, keys).value ==
      DictSet(SubsetFields(collection, keys[..|keys| - 1]).value, keys[|keys| - 1], Index(collection, keys[|keys| - 1]).value)
  {
  }

  /** subset_keys raises exactly when some key cannot be looked up. */
  lemma {:induction false} SubsetFieldsOkIff(collection: Json, keys: seq<string>)
    ensures SubsetFields(collection, keys).Ok? <==> forall i :: 0 <= i < |keys| ==> Index(collection, keys[i]).Ok?
    decreases |keys|
  {
    if keys != [] {
      var n := |keys| - 1;
      SubsetFieldsOkIff(collection, keys[..n]);
      FoundOnPrefix(collection, keys, n, n);
      SubsetFieldsStep(collection, keys);
    }
  }

  lemma SubsetFieldsStep(collection: Json, keys: seq<string>)
    requires keys != []
    ensures SubsetFields(collection, keys).Ok? <==>
      SubsetFields(collection, keys[..|keys| - 1]).Ok? && Index(collection, keys[|keys| - 1]).Ok?
  {
  }

  /** A key of a prefix is a key of the whole sequence. */
  lemma FoundOnPrefix(collection: Json, keys: seq<string>, n: nat, i: nat)
    requires i <= n <= |keys|
    ensures (forall j :: 0 <= j < i ==> Index(collection, keys[j]).Ok?) <==>
      (forall j :: 0 <= j < i ==> Index(collection, keys[..n][j]).Ok?)
  {
    assert forall j :: 0 <= j < i ==> keys[..n][j] == keys[j];
  }

  /** The subset has exactly the given keys, each with the collection's value, and no key twice. */
  lemma {:induction false} SubsetFieldsContents(collection: Json, keys: seq<string>)
    requires SubsetFields(collection, keys).Ok?
    ensures var fs := SubsetFields(collection, keys).value;
      && DistinctKeys(fs)
      && (forall k :: k in KeysOf(fs) <==> k in keys)
      && (forall k :: k in keys ==> Index(collection, k) == Ok(Lookup(fs, k).value))
    decreases |keys|
  {
    if keys != [] {
      var init, key := keys[..|keys| - 1], keys[|keys| - 1];
      assert keys == init + [key];
      SubsetFieldsLast(collection, keys);
      SubsetFieldsContents(collection, init);
      var fs0 := SubsetFields(collection, init).value;
      var v := Index(collection, key).value;
      DictSetDistinct(fs0, key, v);
      forall k
        ensures (k in KeysOf(DictSet(fs0, key, v)) <==> k in keys)
        ensures k in keys ==> Index(collection, k) == Ok(Lookup(DictSet(fs0, key, v), k).value)
      {
        DictSetLookup(fs0, key, v, k);
      }
    }
  }

  /** With distinct keys the subset lists them in the order given. */
  lemma {:induction false} SubsetFieldsOrder(collection: Json, keys: seq<string>)
    requires SubsetFields(collection, keys).Ok? && Distinct(keys)
    ensures KeysOf(SubsetFields(collection, keys).value) == keys
    decreases |keys|
  {
    if keys != [] {
      var init, key := keys[..|keys| - 1], keys[|keys| - 1];
      DistinctInit(keys);
      SubsetFieldsLast(collection, keys);
      SubsetFieldsOrder(collection, init);
      var fs0 := SubsetFields(collection, init).value;
      var v := Index(collection, key).value;
      DictSetKeys(fs0, key, v);
      KeysOfAppend(fs0, key, v);
    }
  }

  lemma DistinctInit(keys: seq<string>)
    requires keys != [] && Distinct(keys)
    ensures Distinct(keys[..|keys| - 1]) && keys[|keys| - 1] !in keys[..|keys| - 1]
  {
    var init := keys[..|keys| - 1];
    forall i | 0 <= i < |init|
      ensures init[i] != keys[|keys| - 1]
    {
      assert init[i] == keys[i];
    }
  }

  lemma KeysOfAppend(fields: seq<(string, Json)>, key: string, v: Json)
    ensures KeysOf(fields + [(key, v)]) == KeysOf(fields) + [key]
  {
  }

  /**
   * subset_keys behaves as a dict restricted to the keys: it succeeds exactly
   * when every key can be looked up, and then holds exactly those keys, in
   * order, each with the collection's value.
   */
  lemma SubsetKeysSpec(collection: Json, keys: seq<string>)
    requires Distinct(keys)
    ensures SubsetKeys(collection, keys).Ok? <==> forall k :: k in keys ==> Index(collection, k).Ok?
    ensures SubsetKeys(collection, keys).Ok? ==>
      var d := SubsetKeys(collection, keys).value;
      && KeysOf(d.fields) == keys
      && forall k :: k in keys ==> Index(collection, k).Ok? && Lookup(d.fields, k) == Some(Index(collection, k).value)
  {
    SubsetFieldsOkIff(collection, keys);
    var r := SubsetFields(collection, keys);
    if r.Ok? {
      SubsetFieldsContents(collection, keys);
      SubsetFieldsOrder(collection, keys);
    } else {
      var i :| 0 <= i < |keys| && Index(collection, keys[i]).Err?;
      assert keys[i] in keys;
    }
  }

  /**
   * The first key that cannot be looked up decides the exception: KeyError
   * naming a key missing from a dict, TypeError for a collection that is no
   * dict. A missing key is never skipped.
   */
  lemma SubsetKeysFirstFailure(collection: Json, keys: seq<string>, i: nat)
    requires i < |keys| && Index(collection, keys[i]).Err?
    requires forall j :: 0 <= j < i ==> Index(collection, keys[j]).Ok?
    ensures SubsetKeys(collection, keys) == Err(Index(collection, keys[i]).error)
    ensures collection.JObj? ==> SubsetKeys(collection, keys) == Err(KeyError(keys[i]))
    ensures !collection.JObj? ==> SubsetKeys(collection, keys) == Err(TypeError)
  {
    SubsetFieldsFirstFailure(collection, keys, i);
  }

  lemma {:induction false} SubsetFieldsFirstFailure(collection: Json, keys: seq<string>, i: nat)
    requires i < |keys| && Index(collection, keys[i]).Err?
    requires forall j :: 0 <= j < i ==> Index(collection, keys[j]).Ok?
    ensures SubsetFields(collection, keys) == Err(Index(collection, keys[i]).error)
    decreases |keys|
  {
    var n := |keys| - 1;
    var init := keys[..n];
    if i < n {
      assert init[i] == keys[i];
      FoundOnPrefix(collection, keys, n, i);
      SubsetFieldsFirstFailure(collection, init, i);
      SubsetFieldsErrPersists(collection, keys);
    } else {
      FoundOnPrefix(collection, keys, n, n);
      SubsetFieldsOkIff(collection, init);
      SubsetFieldsLastFails(collection, keys);
    }
  }

  lemma SubsetFieldsErrPersists(collection: Json, keys: seq<string>)
    requires keys != [] && SubsetFields(collection, keys[..|keys| - 1]).Err?
    ensures SubsetFields(collection, keys) == SubsetFields(collection, keys[..|keys| - 1])
  {
  }

  lemma SubsetFieldsLastFails(collection: Json, keys: seq<string>)
    requires keys != [] && SubsetFields(collection, keys[..|keys| - 1]).Ok? && Index(collection, keys[|keys| - 1]).Err?
    ensures SubsetFields(collection, keys) == Err(Index(collection, keys[|keys| - 1]).error)
  {
  }

  lemma KeysDistinct()
    ensures Distinct(KEYS)
  {
  }

  /**
   * A successful filter keeps exactly the Vancouver FSE1 facilities, in
   * input order (`idx` lists their positions), each reduced to the seven keys.
   */
  lemma FilterKeepsVancouverFSE1(list: seq<Json>) returns (idx: seq<nat>)
    requires FilterMap(list, FacilityStep).Ok?
    ensures var out := FilterMap(list, FacilityStep).value;
      && |out| == |idx| <= |list|
      && Increasing(idx)
      && (forall j :: 0 <= j < |list| ==> (j in idx <==> IsVancouverFSE1(list[j]) == Ok(true)))
      && (forall k :: 0 <= k < |idx| ==> idx[k] < |list| && SubsetKeys(list[idx[k]], KEYS) == Ok(out[k]))
      && (forall k :: 0 <= k < |out| ==> out[k].JObj? && KeysOf(out[k].fields) == KEYS)
  {
    idx := FilterMapSelects(list, FacilityStep);
    var out := FilterMap(list, FacilityStep).value;
    KeysDistinct();
    forall k | 0 <= k < |out|
      ensures out[k].JObj? && KeysOf(out[k].fields) == KEYS
    {
      assert FacilityStep(list[idx[k]]) == Ok(Some(out[k]));
      SubsetKeysSpec(list[idx[k]], KEYS);
    }
  }

  /** A facility passes the check exactly when it is an FSE1 facility whose community starts with "Vancouver". */
  lemma VancouverFSE1Iff(f: Json)
    ensures IsVancouverFSE1(f).Ok? <==>
      Index(f, "facilityType").Ok? && Index(f, "community").Ok? && Index(f, "community").value.JStr?
    ensures IsVancouverFSE1(f) == Ok(true) <==>
      Index(f, "facilityType") == Ok(JStr(FSE1)) && exists rest :: Index(f, "community") == Ok(JStr(VANCOUVER + rest))
  {
    var c := Index(f, "community");
    if c.Ok? && c.value.JStr? {
      StartsWithIff(c.value.s, VANCOUVER);
    }
  }

  /** The filter raises exactly when some facility cannot be checked or, being kept, cannot be reduced. */
  lemma FilterRaisesIff(list: seq<Json>)
    ensures FilterMap(list, FacilityStep).Err? <==>
      exists j :: 0 <= j < |list| && (IsVancouverFSE1(list[j]).Err? ||
        (IsVancouverFSE1(list[j]) == Ok(true) && SubsetKeys(list[j], KEYS).Err?))
  {
    FilterMapOkIff(list, FacilityStep);
  }
}
