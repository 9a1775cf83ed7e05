/**
 * The JSON query engine of the json_query tool, from the parsed document
 * onward: navigate a key path to the target array, keep (in order) the
 * object elements that satisfy every filter, truncate to the limit and
 * report the count.
 */
module JsonQuery {
  import opened Domain

  /**
   * A parsed JSON value. JSON numbers are decoded as float64; since JSON
   * text cannot produce NaN or infinities, a number is its (real) value.
   */
  datatype Json =
    | Null
    | Bool(b: bool)
    | Num(n: real)
    | Str(s: string)
    | Arr(items: seq<Json>)
    | Obj(fields: map<string, Json>)

  /** A single filter condition; an omitted `value` decodes as null. */
  datatype Filter = Filter(field: string, op: string, value: Json)

  /** The post-parse part of the tool's arguments. */
  datatype QueryArgs = QueryArgs(arrayPath: seq<string>, filters: seq<Filter>, limit: Option<int>)

  /** The tool's structured output. */
  datatype QueryOutput = QueryOutput(result: seq<Json>, count: int)

  /** The operators the filter language knows. */
  const Operators: set<string> := {"eq", "neq", "contains", "is_null", "is_not_null"}

  // ---------------------------------------------------------------------
  // Path navigation
  // ---------------------------------------------------------------------

  /** Walks `path` key by key through nested objects. */
  function Navigate(data: Json, path: seq<string>): (r: Result<Json>)
    ensures r.Err? ==> r.error == ArrayPathNotFound
    decreases |path|
  {
    if |path| == 0 then Ok(data)
    else if !data.Obj? || path[0] !in data.fields then Err(ArrayPathNotFound)
    else Navigate(data.fields[path[0]], path[1..])
  }

  /** The loop of navigateToPath: `current` is reassigned once per key. */
  method NavigateToPath(data: Json, path: seq<string>) returns (r: Result<Json>)
    ensures r == Navigate(data, path)
  {
    var current := data;
    for i := 0 to |path|
      invariant Navigate(data, path) == Navigate(current, path[i..])
    {
      assert path[i..][1..] == path[i + 1..];
      var key := path[i];
      if !current.Obj? {
        return Err(ArrayPathNotFound);
      }
      if key !in current.fields {
        return Err(ArrayPathNotFound);
      }
      current := current.fields[key];
    }
    assert path[|path|..] == [];
    return Ok(current);
  }

  /** Navigating `p + q` is navigating `p`, then `q` from where `p` ended. */
  lemma {:induction false} NavigateAppend(data: Json, p: seq<string>, q: seq<string>)
    ensures Navigate(data, p + q) ==
              match Navigate(data, p)
              case Ok(v) => Navigate(v, q)
              case Err(e) => Err(e)
    decreases |p|
  {
    if |p| == 0 {
      assert p + q == q;
    } else {
      assert (p + q)[0] == p[0];
      assert (p + q)[1..] == p[1..] + q;
      if data.Obj? && p[0] in data.fields {
        NavigateAppend(data.fields[p[0]], p[1..], q);
      }
    }
  }

  /**
   * Keys are consumed in order, and navigation fails with ArrayPathNotFound
   * as soon as the node reached is not an object or lacks the next key,
   * whatever keys follow.
   */
  lemma NavigateStopsAtMissingKey(data: Json, p: seq<string>, key: string, rest: seq<string>)
    requires Navigate(data, p).Ok?
    requires var v := Navigate(data, p).value; !v.Obj? || key !in v.fields
    ensures Navigate(data, p + [key] + rest) == Err(ArrayPathNotFound)
  {
    NavigateAppend(data, p, [key] + rest);
    assert p + [key] + rest == p + ([key] + rest);
  }

  // ---------------------------------------------------------------------
  // Equality with the numeric bridge
  // ---------------------------------------------------------------------

  /**
   * Go's `a == b` on two interface values panics when both hold slices or
   * both hold maps; every other pair can be compared.
   */
  predicate Comparable(a: Json, b: Json) {
    !(a.Arr? && b.Arr?) && !(a.Obj? && b.Obj?)
  }

  /**
   * valuesEqual: numbers by value, strings and booleans by equality, and
   * every other pair by Go's interface equality (false for differing kinds,
   * true for null against null).
   */
  function ValuesEqual(a: Json, b: Json): (r: bool)
    requires Comparable(a, b)
    ensures r <==> a == b
  {
    match (a, b)
    case (Num(x), Num(y)) => x == y
    case (Str(x), Str(y)) => x == y
    case (Bool(x), Bool(y)) => x == y
    case (Null, Null) => true
    case _ => false
  }

  /** A Go `int` filter operand, as the numeric value the bridge compares. */
  function IntOperand(i: int): Json {
    Num(i as real)
  }

  /** `3` supplied as a Go int equals the document's `3.0`. */
  lemma IntOperandBridge(x: real, i: int)
    ensures ValuesEqual(Num(x), IntOperand(i)) <==> x == i as real
    ensures ValuesEqual(IntOperand(i), Num(x)) <==> x == i as real
  {
  }

  /** What arrayContains computes: some element is equal to `value`. */
  function InArray(arr: seq<Json>, value: Json): (r: bool)
    requires forall e :: e in arr ==> Comparable(e, value)
    ensures r <==> value in arr
  {
    exists i :: 0 <= i < |arr| && ValuesEqual(arr[i], value)
  }

  /** The early-exit loop of arrayContains. */
  method ArrayContains(arr: seq<Json>, value: Json) returns (r: bool)
    requires forall e :: e in arr ==> Comparable(e, value)
    ensures r == InArray(arr, value)
  {
    for i := 0 to |arr|
      invariant forall j :: 0 <= j < i ==> !ValuesEqual(arr[j], value)
    {
      if ValuesEqual(arr[i], value) {
        return true;
      }
    }
    return false;
  }

  // ---------------------------------------------------------------------
  // Filters
  // ---------------------------------------------------------------------

  /** getFieldValue: a direct (non-dotted) key lookup with a presence flag. */
  function GetFieldValue(item: map<string, Json>, field: string): (r: Option<Json>)
    ensures r.Some? <==> field in item
    ensures r.Some? ==> r.value == item[field]
  {
    if field in item then Some(item[field]) else None
  }

  /** Applying `f` to `item` makes no comparison that panics. */
  predicate FilterSafe(item: map<string, Json>, f: Filter) {
    f.field in item ==>
      var v := item[f.field];
      if f.op == "eq" || f.op == "neq" then Comparable(v, f.value)
      else if f.op == "contains" then v.Arr? ==> forall e :: e in v.items ==> Comparable(e, f.value)
      else true
  }

  /** applyFilter: one filter against one object; never fails. */
  function ApplyFilter(item: map<string, Json>, f: Filter): (r: bool)
    requires FilterSafe(item, f)
    ensures f.op == "eq" ==> (r <==> f.field in item && item[f.field] == f.value)
    ensures f.op == "neq" ==> (r <==> f.field !in item || item[f.field] != f.value)
    ensures f.op == "contains" ==>
              (r <==> f.field in item && item[f.field].Arr? && f.value in item[f.field].items)
    ensures f.op == "is_null" ==> (r <==> f.field !in item || item[f.field] == Null)
    ensures f.op == "is_not_null" ==> (r <==> f.field in item && item[f.field] != Null)
    ensures f.op !in Operators ==> !r
  {
    var found := GetFieldValue(item, f.field);
    if f.op == "eq" then
      found.Some? && ValuesEqual(found.value, f.value)
    else if f.op == "neq" then
      found.None? || !ValuesEqual(found.value, f.value)
    else if f.op == "contains" then
      found.Some? && found.value.Arr? && InArray(found.value.items, f.value)
    else if f.op == "is_null" then
      found.None? || found.value == Null
    else if f.op == "is_not_null" then
      found.Some? && found.value != Null
    else
      false
  }

  /** neq is true on an absent field, and otherwise the negation of eq. */
  lemma NeqComplementsEqWhenPresent(item: map<string, Json>, field: string, v: Json)
    requires field in item ==> Comparable(item[field], v)
    ensures field !in item ==>
              !ApplyFilter(item, Filter(field, "eq", v)) && ApplyFilter(item, Filter(field, "neq", v))
    ensures field in item ==>
              ApplyFilter(item, Filter(field, "neq", v)) == !ApplyFilter(item, Filter(field, "eq", v))
  {
  }

  /** is_not_null is the exact complement of is_null, for every item. */
  lemma IsNotNullComplementsIsNull(item: map<string, Json>, field: string, v: Json, w: Json)
    ensures ApplyFilter(item, Filter(field, "is_not_null", v)) == !ApplyFilter(item, Filter(field, "is_null", w))
  {
  }

  /**
   * matchesAllFilters stops at the first failing filter, so a filter may
   * only panic if every earlier one was safe and held.
   */
  predicate MatchSafe(item: map<string, Json>, filters: seq<Filter>) {
    forall i :: 0 <= i < |filters| ==>
      (forall j :: 0 <= j < i ==> FilterSafe(item, filters[j]) && ApplyFilter(item, filters[j])) ==>
        FilterSafe(item, filters[i])
  }

  /** Every filter holds of `item` (AND logic; no filters means true). */
  predicate MatchesAll(item: map<string, Json>, filters: seq<Filter>) {
    forall i :: 0 <= i < |filters| ==> FilterSafe(item, filters[i]) && ApplyFilter(item, filters[i])
  }

  /** The early-exit loop of matchesAllFilters. */
  method MatchesAllFilters(item: map<string, Json>, filters: seq<Filter>) returns (r: bool)
    requires MatchSafe(item, filters)
    ensures r == MatchesAll(item, filters)
  {
    for i := 0 to |filters|
      invariant forall j :: 0 <= j < i ==> FilterSafe(item, filters[j]) && ApplyFilter(item, filters[j])
    {
      if !ApplyFilter(item, filters[i]) {
        return false;
      }
    }
    return true;
  }

  /** AND-combination: two filter lists together hold iff each holds. */
  lemma MatchesAllAppend(item: map<string, Json>, fs: seq<Filter>, gs: seq<Filter>)
    ensures MatchesAll(item, fs + gs) <==> MatchesAll(item, fs) && MatchesAll(item, gs)
  {
    if MatchesAll(item, fs) && MatchesAll(item, gs) {
      forall i | 0 <= i < |fs + gs|
        ensures FilterSafe(item, (fs + gs)[i]) && ApplyFilter(item, (fs + gs)[i])
      {
        if i >= |fs| {
          assert (fs + gs)[i] == gs[i - |fs|];
        }
      }
    }
    if MatchesAll(item, fs + gs) {
      forall i | 0 <= i < |fs| ensures FilterSafe(item, fs[i]) && ApplyFilter(item, fs[i]) {
        assert (fs + gs)[i] == fs[i];
      }
      forall i | 0 <= i < |gs| ensures FilterSafe(item, gs[i]) && ApplyFilter(item, gs[i]) {
        assert (fs + gs)[|fs| + i] == gs[i];
      }
    }
  }

  // ---------------------------------------------------------------------
  // The filter pass, the limit, the query
  // ---------------------------------------------------------------------

  /** An array element survives the filter pass: an object matching every filter. */
  predicate Keeps(x: Json, filters: seq<Filter>) {
    x.Obj? && MatchesAll(x.fields, filters)
  }

  /** The surviving elements, in original order. */
  function Select(arr: seq<Json>, filters: seq<Filter>): (r: seq<Json>)
    ensures |r| <= |arr|
  {
    if |arr| == 0 then []
    else
      var prev := Select(arr[..|arr| - 1], filters);
      if Keeps(arr[|arr| - 1], filters) then prev + [arr[|arr| - 1]] else prev
  }

  /** The object elements of an array, in original order. */
  function Objects(arr: seq<Json>): (r: seq<Json>)
    ensures forall x :: x in r ==> x.Obj? && x in arr
  {
    if |arr| == 0 then []
    else
      var prev := Objects(arr[..|arr| - 1]);
      if arr[|arr| - 1].Obj? then prev + [arr[|arr| - 1]] else prev
  }

  /**
   * The filter pass yields exactly the kept elements in original order:
   * `idx` lists, increasingly, the positions of the elements kept, and
   * the result holds those elements and no others.
   */
  lemma {:induction false} SelectIsOrderedSelection(arr: seq<Json>, filters: seq<Filter>)
    returns (idx: seq<int>)
    ensures |idx| == |Select(arr, filters)|
    ensures forall k :: 0 <= k < |idx| ==> 0 <= idx[k] < |arr| && Select(arr, filters)[k] == arr[idx[k]]
    ensures forall k, l :: 0 <= k < l < |idx| ==> idx[k] < idx[l]
    ensures forall i :: 0 <= i < |arr| ==> (Keeps(arr[i], filters) <==> i in idx)
  {
    if |arr| == 0 {
      idx := [];
    } else {
      var n := |arr| - 1;
      var init := arr[..n];
      var prevIdx := SelectIsOrderedSelection(init, filters);
      assert forall i :: 0 <= i < n ==> arr[i] == init[i];
      if Keeps(arr[n], filters) {
        idx := prevIdx + [n];
      } else {
        idx := prevIdx;
      }
    }
  }

  /** With no filters every object element is kept, in order. */
  lemma {:induction false} NoFiltersKeepEveryObject(arr: seq<Json>)
    ensures Select(arr, []) == Objects(arr)
  {
    if |arr| > 0 {
      NoFiltersKeepEveryObject(arr[..|arr| - 1]);
      var last := arr[|arr| - 1];
      if last.Obj? {
        assert MatchesAll(last.fields, []);
      }
    }
  }

  /** Filtering by `fs + gs` is filtering by `fs`, then by `gs`. */
  lemma {:induction false} SelectAppendFilters(arr: seq<Json>, fs: seq<Filter>, gs: seq<Filter>)
    ensures Select(arr, fs + gs) == Select(Select(arr, fs), gs)
  {
    if |arr| > 0 {
      var n := |arr| - 1;
      var last := arr[n];
      SelectAppendFilters(arr[..n], fs, gs);
      var mid := Select(arr[..n], fs);
      if last.Obj? {
        MatchesAllAppend(last.fields, fs, gs);
      }
      if Keeps(last, fs) {
        assert (mid + [last])[..|mid + [last]| - 1] == mid;
      }
    }
  }

  function Min(a: int, b: int): int {
    if a <= b then a else b
  }

  /** The limit: a prefix of the matches, of length min(k, m) for a positive k. */
  function Truncate(matches: seq<Json>, limit: Option<int>): (r: seq<Json>)
    ensures |r| <= |matches| && r == matches[..|r|]
    ensures limit.Some? && limit.value > 0 ==> |r| == Min(limit.value, |matches|)
    ensures limit.None? || limit.value <= 0 ==> r == matches
  {
    if limit.Some? && limit.value > 0 && |matches| > limit.value then matches[..limit.value]
    else matches
  }

  /** No comparison made by the query panics. */
  predicate QuerySafe(data: Json, args: QueryArgs) {
    var target := Navigate(data, args.arrayPath);
    target.Ok? && target.value.Arr? ==>
      forall x :: x in target.value.items && x.Obj? ==> MatchSafe(x.fields, args.filters)
  }

  /** The whole query over a parsed document. */
  function Query(data: Json, args: QueryArgs): (r: Result<QueryOutput>)
    requires QuerySafe(data, args)
    ensures r.Ok? ==> r.value.count == |r.value.result|
    ensures r.Err? ==> r.error == ArrayPathNotFound || r.error == NotAnArray
  {
    match Navigate(data, args.arrayPath)
    case Err(e) => Err(e)
    case Ok(target) =>
      if !target.Arr? then Err(NotAnArray)
      else
        var results := Truncate(Select(target.items, args.filters), args.limit);
        Ok(QueryOutput(results, |results|))
  }

  /** JSONQueryHandler from the parsed document onward. */
  method JsonQueryHandler(data: Json, args: QueryArgs) returns (out: Result<QueryOutput>)
    requires QuerySafe(data, args)
    ensures out == Query(data, args)
  {
    var target := data;
    if |args.arrayPath| > 0 {
      var nav := NavigateToPath(data, args.arrayPath);
      if nav.Err? {
        return Err(nav.error);
      }
      target := nav.value;
    }
    if !target.Arr? {
      return Err(NotAnArray);
    }
    var arr := target.items;
    var results: seq<Json> := [];
    for i := 0 to |arr|
      invariant results == Select(arr[..i], args.filters)
    {
      assert arr[..i + 1][..i] == arr[..i];
      var item := arr[i];
      if !item.Obj? {
        continue;
      }
      var matches := MatchesAllFilters(item.fields, args.filters);
      if matches {
        results := results + [item];
      }
    }
    assert arr[..|arr|] == arr;
    if args.limit.Some? && args.limit.value > 0 && |results| > args.limit.value {
      results := results[..args.limit.value];
    }
    return Ok(QueryOutput(results, |results|));
  }

  /**
   * The outcome of a query: ArrayPathNotFound exactly when navigation
   * fails, NotAnArray exactly when the target is not an array, and
   * otherwise the limited selection of the target's elements.
   */
  lemma QueryOutcome(data: Json, args: QueryArgs)
    requires QuerySafe(data, args)
    ensures var nav := Navigate(data, args.arrayPath);
            && (Query(data, args) == Err(ArrayPathNotFound) <==> nav.Err?)
            && (Query(data, args) == Err(NotAnArray) <==> nav.Ok? && !nav.value.Arr?)
            && (Query(data, args).Ok? ==>
                  Query(data, args).value.result == Truncate(Select(nav.value.items, args.filters), args.limit))
  {
  }

  /** A scalar operand (null, bool, number, string) is comparable with anything. */
  predicate ScalarOperands(filters: seq<Filter>) {
    forall f :: f in filters ==> !f.value.Arr? && !f.value.Obj?
  }

  /** Filters whose operands are scalars never panic, on any document. */
  lemma ScalarOperandsAreSafe(data: Json, args: QueryArgs)
    requires ScalarOperands(args.filters)
    ensures QuerySafe(data, args)
  {
    forall item: map<string, Json>, i | 0 <= i < |args.filters|
      ensures FilterSafe(item, args.filters[i])
    {
      assert args.filters[i] in args.filters;
    }
  }

  /** An empty array path targets the document root. */
  lemma EmptyArrayPathIsRoot(data: Json)
    ensures Navigate(data, []) == Ok(data)
  {
  }

  // ---------------------------------------------------------------------
  // The query scenarios of the tool's tests
  // ---------------------------------------------------------------------

  /** One investor record of the tests' data. */
  function Investor(id: string, name: string, kind: string, regions: seq<Json>, updated: Json): Json {
    Obj(map["id" := Str(id), "name" := Str(name), "type" := Str(kind),
            "regions" := Arr(regions), "profileUpdatedAt" := updated])
  }

  const Sequoia: Json := Investor("sequoia-capital", "Sequoia Capital", "vc",
                                  [Str("san-francisco-bay-area")], Str("2026-01-05T12:00:00Z"))
  const Intel: Json := Investor("intel-capital", "Intel Capital", "corporate-vc",
                                [Str("san-francisco-bay-area"), Str("portland")], Null)
  const AngelList: Json := Investor("angel-list-syndicate", "AngelList Access Fund", "angel-syndicate",
                                    [Str("new-york-city")], Null)
  const A16z: Json := Investor("a16z", "Andreessen Horowitz", "vc",
                               [Str("san-francisco-bay-area"), Str("new-york-city")], Str("2026-01-04T10:00:00Z"))

  /** The tests' top-level array of four investors. */
  const Investors: Json := Arr([Sequoia, Intel, AngelList, A16z])

  /** The element `x` alone if it survives the filter pass, else nothing. */
  function KeptAlone(x: Json, filters: seq<Filter>): seq<Json> {
    if Keeps(x, filters) then [x] else []
  }

  /** Extending the array by one element extends the filter pass by at most that element. */
  lemma SelectSnoc(arr: seq<Json>, x: Json, filters: seq<Filter>)
    ensures Select(arr + [x], filters) == Select(arr, filters) + KeptAlone(x, filters)
  {
    assert (arr + [x])[..|arr|] == arr;
  }

  /** The filter pass over a four-element array. */
  lemma SelectFour(w: Json, x: Json, y: Json, z: Json, filters: seq<Filter>)
    ensures Select([w, x, y, z], filters) ==
              KeptAlone(w, filters) + KeptAlone(x, filters) + KeptAlone(y, filters) + KeptAlone(z, filters)
  {
    assert [w, x, y, z] == [w, x, y] + [z] && [w, x, y] == [w, x] + [y] && [w, x] == [w] + [x];
    assert [w] == [] + [w];
    SelectSnoc([], w, filters);
    SelectSnoc([w], x, filters);
    SelectSnoc([w, x], y, filters);
    SelectSnoc([w, x, y], z, filters);
  }

  /** The fields of an investor record the tests filter on. */
  lemma InvestorFields(id: string, name: string, kind: string, regions: seq<Json>, updated: Json)
    ensures var o := Investor(id, name, kind, regions, updated);
            && o.Obj?
            && "type" in o.fields && o.fields["type"] == Str(kind)
            && "regions" in o.fields && o.fields["regions"] == Arr(regions)
            && "profileUpdatedAt" in o.fields && o.fields["profileUpdatedAt"] == updated
  {
    assert "name" != "type" by { assert "name"[0] != "type"[0]; }
  }

  /** The record fields of the four investors. */
  lemma InvestorsFields()
    ensures Sequoia.Obj? && Sequoia.fields["type"] == Str("vc") && Sequoia.fields["regions"] == Arr([Str("san-francisco-bay-area")])
    ensures Sequoia.fields["profileUpdatedAt"] == Str("2026-01-05T12:00:00Z")
    ensures Intel.Obj? && Intel.fields["type"] == Str("corporate-vc") && Intel.fields["profileUpdatedAt"] == Null
    ensures Intel.fields["regions"] == Arr([Str("san-francisco-bay-area"), Str("portland")])
    ensures AngelList.Obj? && AngelList.fields["type"] == Str("angel-syndicate") && AngelList.fields["profileUpdatedAt"] == Null
    ensures AngelList.fields["regions"] == Arr([Str("new-york-city")])
    ensures A16z.Obj? && A16z.fields["type"] == Str("vc") && A16z.fields["profileUpdatedAt"] == Str("2026-01-04T10:00:00Z")
    ensures A16z.fields["regions"] == Arr([Str("san-francisco-bay-area"), Str("new-york-city")])
    ensures forall x :: x in [Sequoia, Intel, AngelList, A16z] ==>
              x.Obj? && "type" in x.fields && "regions" in x.fields && "profileUpdatedAt" in x.fields
  {
    InvestorFields("sequoia-capital", "Sequoia Capital", "vc",
                   [Str("san-francisco-bay-area")], Str("2026-01-05T12:00:00Z"));
    InvestorFields("intel-capital", "Intel Capital", "corporate-vc",
                   [Str("san-francisco-bay-area"), Str("portland")], Null);
    InvestorFields("angel-list-syndicate", "AngelList Access Fund", "angel-syndicate",
                   [Str("new-york-city")], Null);
    InvestorFields("a16z", "Andreessen Horowitz", "vc",
                   [Str("san-francisco-bay-area"), Str("new-york-city")], Str("2026-01-04T10:00:00Z"));
  }

  /** A single filter holds of an item exactly when applying it gives true. */
  lemma MatchesSingle(item: map<string, Json>, f: Filter)
    requires FilterSafe(item, f)
    ensures MatchesAll(item, [f]) == ApplyFilter(item, f)
  {
    assert [f][0] == f;
  }

  /** Three filters hold of an item exactly when each does. */
  lemma MatchesThree(item: map<string, Json>, f: Filter, g: Filter, h: Filter)
    requires FilterSafe(item, f) && FilterSafe(item, g) && FilterSafe(item, h)
    ensures MatchesAll(item, [f, g, h]) == (ApplyFilter(item, f) && ApplyFilter(item, g) && ApplyFilter(item, h))
  {
    assert [f, g, h][0] == f && [f, g, h][1] == g && [f, g, h][2] == h;
  }

  /** The query over the four investors keeps those the filters hold of. */
  lemma InvestorsQuery(filters: seq<Filter>)
    requires ScalarOperands(filters)
    ensures var args := QueryArgs([], filters, None);
            var kept := KeptAlone(Sequoia, filters) + KeptAlone(Intel, filters)
                      + KeptAlone(AngelList, filters) + KeptAlone(A16z, filters);
            QuerySafe(Investors, args) && Query(Investors, args) == Ok(QueryOutput(kept, |kept|))
  {
    ScalarOperandsAreSafe(Investors, QueryArgs([], filters, None));
    SelectFour(Sequoia, Intel, AngelList, A16z, filters);
  }

  /** Test case "filter by region contains": three investors cover the bay area. */
  lemma RegionContainsExample()
    ensures var args := QueryArgs([], [Filter("regions", "contains", Str("san-francisco-bay-area"))], None);
            QuerySafe(Investors, args) && Query(Investors, args) == Ok(QueryOutput([Sequoia, Intel, A16z], 3))
  {
    var f := Filter("regions", "contains", Str("san-francisco-bay-area"));
    InvestorsQuery([f]);
    InvestorsFields();
    MatchesSingle(Sequoia.fields, f);
    MatchesSingle(Intel.fields, f);
    MatchesSingle(AngelList.fields, f);
    MatchesSingle(A16z.fields, f);
    assert [Str("san-francisco-bay-area"), Str("portland")][0] == f.value;
    assert [Str("san-francisco-bay-area"), Str("new-york-city")][0] == f.value;
    assert Str("new-york-city") != f.value;
    assert Keeps(Sequoia, [f]) && Keeps(Intel, [f]) && !Keeps(AngelList, [f]) && Keeps(A16z, [f]);
    assert [Sequoia] + [Intel] + [] + [A16z] == [Sequoia, Intel, A16z];
  }

  /** Test case "filter by type eq": the two venture capital firms. */
  lemma TypeEqExample()
    ensures var args := QueryArgs([], [Filter("type", "eq", Str("vc"))], None);
            QuerySafe(Investors, args) && Query(Investors, args) == Ok(QueryOutput([Sequoia, A16z], 2))
  {
    var f := Filter("type", "eq", Str("vc"));
    InvestorsQuery([f]);
    InvestorsFields();
    MatchesSingle(Sequoia.fields, f);
    MatchesSingle(Intel.fields, f);
    MatchesSingle(AngelList.fields, f);
    MatchesSingle(A16z.fields, f);
    assert Str("corporate-vc") != f.value && Str("angel-syndicate") != f.value;
    assert Keeps(Sequoia, [f]) && !Keeps(Intel, [f]) && !Keeps(AngelList, [f]) && Keeps(A16z, [f]);
    assert [Sequoia] + [] + [] + [A16z] == [Sequoia, A16z];
  }

  /** Test case "neq operator": every investor that is not a venture capital firm. */
  lemma TypeNeqExample()
    ensures var args := QueryArgs([], [Filter("type", "neq", Str("vc"))], None);
            QuerySafe(Investors, args) && Query(Investors, args) == Ok(QueryOutput([Intel, AngelList], 2))
  {
    var f := Filter("type", "neq", Str("vc"));
    InvestorsQuery([f]);
    InvestorsFields();
    MatchesSingle(Sequoia.fields, f);
    MatchesSingle(Intel.fields, f);
    MatchesSingle(AngelList.fields, f);
    MatchesSingle(A16z.fields, f);
    assert Str("corporate-vc") != f.value && Str("angel-syndicate") != f.value;
    assert !Keeps(Sequoia, [f]) && Keeps(Intel, [f]) && Keeps(AngelList, [f]) && !Keeps(A16z, [f]);
    assert [] + [Intel] + [AngelList] + [] == [Intel, AngelList];
  }

  /** Test case "is_null operator": the investors without a profile date. */
  lemma IsNullExample()
    ensures var args := QueryArgs([], [Filter("profileUpdatedAt", "is_null", Null)], None);
            QuerySafe(Investors, args) && Query(Investors, args) == Ok(QueryOutput([Intel, AngelList], 2))
  {
    var f := Filter("profileUpdatedAt", "is_null", Null);
    InvestorsQuery([f]);
    InvestorsFields();
    MatchesSingle(Sequoia.fields, f);
    MatchesSingle(Intel.fields, f);
    MatchesSingle(AngelList.fields, f);
    MatchesSingle(A16z.fields, f);
    assert !Keeps(Sequoia, [f]) && Keeps(Intel, [f]) && Keeps(AngelList, [f]) && !Keeps(A16z, [f]);
    assert [] + [Intel] + [AngelList] + [] == [Intel, AngelList];
  }

  /** Test case "is_not_null operator": the investors with a profile date. */
  lemma IsNotNullExample()
    ensures var args := QueryArgs([], [Filter("profileUpdatedAt", "is_not_null", Null)], None);
            QuerySafe(Investors, args) && Query(Investors, args) == Ok(QueryOutput([Sequoia, A16z], 2))
  {
    var f := Filter("profileUpdatedAt", "is_not_null", Null);
    InvestorsQuery([f]);
    InvestorsFields();
    MatchesSingle(Sequoia.fields, f);
    MatchesSingle(Intel.fields, f);
    MatchesSingle(AngelList.fields, f);
    MatchesSingle(A16z.fields, f);
    assert Keeps(Sequoia, [f]) && !Keeps(Intel, [f]) && !Keeps(AngelList, [f]) && Keeps(A16z, [f]);
    assert [Sequoia] + [] + [] + [A16z] == [Sequoia, A16z];
  }

  /** Test case "multiple filters AND logic": no unprofiled venture capital firm is in the bay area. */
  lemma AndNoMatchExample()
    ensures var args := QueryArgs([], [Filter("regions", "contains", Str("san-francisco-bay-area")),
                                       Filter("type", "eq", Str("vc")),
                                       Filter("profileUpdatedAt", "is_null", Null)], None);
            QuerySafe(Investors, args) && Query(Investors, args) == Ok(QueryOutput([], 0))
  {
    var sf, vc := Filter("regions", "contains", Str("san-francisco-bay-area")), Filter("type", "eq", Str("vc"));
    var unset := Filter("profileUpdatedAt", "is_null", Null);
    InvestorsQuery([sf, vc, unset]);
    InvestorsFields();
    MatchesThree(Sequoia.fields, sf, vc, unset);
    MatchesThree(Intel.fields, sf, vc, unset);
    MatchesThree(AngelList.fields, sf, vc, unset);
    MatchesThree(A16z.fields, sf, vc, unset);
    assert Str("corporate-vc") != vc.value && Str("angel-syndicate") != vc.value;
  }

  /** Test case "unprofiled corporate-vc in SF": exactly Intel Capital. */
  lemma AndOneMatchExample()
    ensures var args := QueryArgs([], [Filter("regions", "contains", Str("san-francisco-bay-area")),
                                      Filter("type", "eq", Str("corporate-vc")),
                                      Filter("profileUpdatedAt", "is_null", Null)], None);
            QuerySafe(Investors, args) && Query(Investors, args) == Ok(QueryOutput([Intel], 1))
  {
    var sf, cvc := Filter("regions", "contains", Str("san-francisco-bay-area")), Filter("type", "eq", Str("corporate-vc"));
    var unset := Filter("profileUpdatedAt", "is_null", Null);
    InvestorsQuery([sf, cvc, unset]);
    InvestorsFields();
    MatchesThree(Sequoia.fields, sf, cvc, unset);
    MatchesThree(Intel.fields, sf, cvc, unset);
    MatchesThree(AngelList.fields, sf, cvc, unset);
    MatchesThree(A16z.fields, sf, cvc, unset);
    assert [Str("san-francisco-bay-area"), Str("portland")][0] == sf.value;
    assert Str("vc") != cvc.value && Str("angel-syndicate") != cvc.value;
    assert !Keeps(Sequoia, [sf, cvc, unset]) && Keeps(Intel, [sf, cvc, unset]);
    assert !Keeps(AngelList, [sf, cvc, unset]) && !Keeps(A16z, [sf, cvc, unset]);
    assert [] + [Intel] + [] + [] == [Intel];
  }

  /** Test cases "no filters return all" and "with limit". */
  lemma NoFiltersAndLimitExample()
    ensures QuerySafe(Investors, QueryArgs([], [], None))
    ensures Query(Investors, QueryArgs([], [], None)) == Ok(QueryOutput([Sequoia, Intel, AngelList, A16z], 4))
    ensures Query(Investors, QueryArgs([], [], Some(2))) == Ok(QueryOutput([Sequoia, Intel], 2))
  {
    InvestorsQuery([]);
    InvestorsFields();
    assert MatchesAll(Sequoia.fields, []) && MatchesAll(Intel.fields, []);
    assert MatchesAll(AngelList.fields, []) && MatchesAll(A16z.fields, []);
    assert [Sequoia, Intel, AngelList, A16z][..2] == [Sequoia, Intel];
    assert Keeps(Sequoia, []) && Keeps(Intel, []) && Keeps(AngelList, []) && Keeps(A16z, []);
    assert [Sequoia] + [Intel] + [AngelList] + [A16z] == [Sequoia, Intel, AngelList, A16z];
  }

  /** The tests' nested document: investors under "data". */
  const Nested: Json :=
    Obj(map["metadata" := Obj(map["version" := Str("1.0")]),
            "data" := Obj(map["investors" := Arr([Obj(map["id" := Str("a"), "type" := Str("vc")]),
                                                  Obj(map["id" := Str("b"), "type" := Str("angel-syndicate")])])])])

  /** Test cases "arrayPath for nested data" and "invalid arrayPath". */
  lemma NestedPathExample()
    ensures var found := QueryArgs(["data", "investors"], [Filter("type", "eq", Str("vc"))], None);
            QuerySafe(Nested, found) && Query(Nested, found) == Ok(QueryOutput([Obj(map["id" := Str("a"), "type" := Str("vc")])], 1))
    ensures var missing := QueryArgs(["data", "nonexistent"], [], None);
            QuerySafe(Nested, missing) && Query(Nested, missing) == Err(ArrayPathNotFound)
  {
    var a := Obj(map["id" := Str("a"), "type" := Str("vc")]);
    var b := Obj(map["id" := Str("b"), "type" := Str("angel-syndicate")]);
    var items := Arr([a, b]);
    var data := Obj(map["investors" := items]);
    var eq := Filter("type", "eq", Str("vc"));
    ScalarOperandsAreSafe(Nested, QueryArgs(["data", "investors"], [eq], None));
    ScalarOperandsAreSafe(Nested, QueryArgs(["data", "nonexistent"], [], None));
    assert Nested.fields["data"] == data && data.fields["investors"] == items;
    assert ["data", "investors"][1..] == ["investors"];
    assert ["data", "nonexistent"][1..] == ["nonexistent"];
    assert Navigate(Nested, ["data", "investors"]) == Navigate(data, ["investors"]);
    assert Navigate(data, ["investors"]) == Navigate(items, []);
    assert Navigate(Nested, ["data", "nonexistent"]) == Navigate(data, ["nonexistent"]);
    MatchesSingle(a.fields, eq);
    MatchesSingle(b.fields, eq);
    assert Str("angel-syndicate") != Str("vc");
    assert Keeps(a, [eq]) && !Keeps(b, [eq]);
    assert [a, b] == [a] + [b] && [a] == [] + [a];
    SelectSnoc([], a, [eq]);
    SelectSnoc([a], b, [eq]);
  }

  /** A target that is an object, not an array, fails with NotAnArray. */
  lemma NotAnArrayExample()
    ensures var args := QueryArgs(["data"], [], None);
            QuerySafe(Nested, args) && Query(Nested, args) == Err(NotAnArray)
  {
    ScalarOperandsAreSafe(Nested, QueryArgs(["data"], [], None));
    assert ["data"][1..] == [];
  }
}
