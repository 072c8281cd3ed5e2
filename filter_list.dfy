/** A filter list: a deny list and an allow list of filters of one kind,
    each with default settings, and the rule that sifts triggered filters. */
module FilterLists {
  import opened Wrappers
  import opened Values
  import opened FilterContexts
  import opened SettingsCollection
  import opened Filters

  datatype ListType = Deny | Allow

  /** `ListType(value)` */
  function ListTypeOf(value: int): (r: Result<ListType, LoadError>)
    ensures r.Ok? <==> value == 0 || value == 1
  {
    if value == 0 then Ok(Deny)
    else if value == 1 then Ok(Allow)
    else Err(ValueError("list_type"))
  }

  /** `ListType.X.value` */
  function ListTypeValue(t: ListType): int {
    match t
    case Deny => 0
    case Allow => 1
  }

  lemma ListTypeRoundTrip(t: ListType, value: int)
    ensures ListTypeOf(ListTypeValue(t)) == Ok(t)
    ensures ListTypeOf(value).Ok? ==> ListTypeValue(ListTypeOf(value).value) == value
  {
  }

  /** A filter list as the database describes one of its two halves. */
  datatype ListDescriptor = ListDescriptor(
    name: string,
    listType: int,
    filters: seq<FilterDescriptor>,
    settings: SettingsData)

  // ------------------------------------------------------------ the sifting

  /** Whether `filter_list_result` keeps a filter: without settings of its
      own it follows the defaults; with them, none of its validations may
      fail and its passed set must strictly contain the failed defaults. */
  predicate Fires(f: Filter, failedByDefault: set<string>, ctx: FilterContext) {
    if f.settings.None? then failedByDefault == {}
    else Failed(f.settings.value, ctx) == {} && failedByDefault < Passed(f.settings.value, ctx)
  }

  /** The filters `filter_list_result` returns, in their order. */
  function Sift(ctx: FilterContext, filters: seq<Filter>, defaults: Settings): seq<Filter> {
    if filters == [] then []
    else
      var f := filters[|filters| - 1];
      Sift(ctx, filters[..|filters| - 1], defaults) + (if Fires(f, Failed(defaults, ctx), ctx) then [f] else [])
  }

  /** `filter_list_result` */
  method FilterListResult(ctx: FilterContext, filters: seq<Filter>, defaults: Settings) returns (triggered: seq<Filter>)
    ensures triggered == Sift(ctx, filters, defaults)
  {
    var passedByDefault, failedByDefault := Evaluate(defaults, ctx);
    var defaultAnswer := failedByDefault == {};
    triggered := [];
    for i := 0 to |filters|
      invariant triggered == Sift(ctx, filters[..i], defaults)
    {
      assert filters[..i + 1][..i] == filters[..i];
      var f := filters[i];
      if f.settings.None? {
        if defaultAnswer {
          triggered := triggered + [f];
        }
      } else {
        var passed, failed := Evaluate(f.settings.value, ctx);
        if failed == {} && failedByDefault < passed {
          triggered := triggered + [f];
        }
      }
    }
    assert filters[..|filters|] == filters;
  }

  /** `xs` is `ys` with some elements dropped, the rest in order. */
  predicate IsSubsequence(xs: seq<Filter>, ys: seq<Filter>) {
    if xs == [] then true
    else if ys == [] then false
    else if xs[|xs| - 1] == ys[|ys| - 1] then IsSubsequence(xs[..|xs| - 1], ys[..|ys| - 1])
    else IsSubsequence(xs, ys[..|ys| - 1])
  }

  /** The result keeps the input order and drops only filters that do not fire. */
  lemma {:induction false} SiftIsSubsequence(ctx: FilterContext, filters: seq<Filter>, defaults: Settings)
    ensures IsSubsequence(Sift(ctx, filters, defaults), filters)
  {
    if filters != [] {
      var prefix := filters[..|filters| - 1];
      SiftIsSubsequence(ctx, prefix, defaults);
      var f := filters[|filters| - 1];
      if Fires(f, Failed(defaults, ctx), ctx) {
        var r := Sift(ctx, filters, defaults);
        assert r[..|r| - 1] == Sift(ctx, prefix, defaults);
      } else {
        assert Sift(ctx, filters, defaults) == Sift(ctx, prefix, defaults);
        SubsequenceExtend(Sift(ctx, prefix, defaults), prefix, f);
        assert prefix + [f] == filters;
      }
    }
  }

  lemma {:induction false} SubsequenceExtend(xs: seq<Filter>, ys: seq<Filter>, y: Filter)
    requires IsSubsequence(xs, ys)
    ensures IsSubsequence(xs, ys + [y])
    decreases |ys|, 1
  {
    var zs := ys + [y];
    assert zs[..|zs| - 1] == ys;
    if xs != [] && xs[|xs| - 1] == y {
      SubsequenceDropLast(xs, ys);
    }
  }

  lemma {:induction false} SubsequenceDropLast(xs: seq<Filter>, ys: seq<Filter>)
    requires xs != [] && IsSubsequence(xs, ys)
    ensures IsSubsequence(xs[..|xs| - 1], ys)
    decreases |ys|, 0
  {
    var ys' := ys[..|ys| - 1];
    assert ys' + [ys[|ys| - 1]] == ys;
    if xs[|xs| - 1] == ys[|ys| - 1] {
      SubsequenceExtend(xs[..|xs| - 1], ys', ys[|ys| - 1]);
    } else {
      SubsequenceDropLast(xs, ys');
      SubsequenceExtend(xs[..|xs| - 1], ys', ys[|ys| - 1]);
    }
  }

  /** A filter is in the result exactly when it is in the input and fires. */
  lemma {:induction false} SiftMembership(ctx: FilterContext, filters: seq<Filter>, defaults: Settings, f: Filter)
    ensures f in Sift(ctx, filters, defaults) <==> f in filters && Fires(f, Failed(defaults, ctx), ctx)
  {
    if filters != [] {
      var prefix := filters[..|filters| - 1];
      SiftMembership(ctx, prefix, defaults, f);
      assert filters == prefix + [filters[|filters| - 1]];
    }
  }

  /** The default answer is "nothing failed by default", and a filter
      without settings of its own fires exactly on it. */
  lemma NoOverridesFollowDefault(ctx: FilterContext, f: Filter, defaults: Settings)
    requires f.settings.None?
    ensures Fires(f, Failed(defaults, ctx), ctx) <==> Failed(defaults, ctx) == {}
  {
  }

  /** An override that passes exactly what failed by default is not enough:
      the subset test is strict. */
  lemma EqualOverrideDoesNotFire(ctx: FilterContext, f: Filter, defaults: Settings)
    requires f.settings.Some? && Passed(f.settings.value, ctx) == Failed(defaults, ctx)
    ensures !Fires(f, Failed(defaults, ctx), ctx)
  {
  }

  /** A filter with settings but no passing validation never fires, even when
      every default passes. */
  lemma NoPassingOverrideNeverFires(ctx: FilterContext, f: Filter, defaults: Settings)
    requires f.settings.Some? && Passed(f.settings.value, ctx) == {}
    ensures !Fires(f, Failed(defaults, ctx), ctx)
  {
  }

  /** An override with no failure that passes every failing default and one
      name more fires, whatever the defaults say. */
  lemma OverrideRescues(ctx: FilterContext, f: Filter, defaults: Settings, extra: string)
    requires f.settings.Some? && Failed(f.settings.value, ctx) == {}
    requires Failed(defaults, ctx) <= Passed(f.settings.value, ctx)
    requires extra in Passed(f.settings.value, ctx) && extra !in Failed(defaults, ctx)
    ensures Fires(f, Failed(defaults, ctx), ctx)
  {
  }

  /** With the settings built as written, a filter without settings of its
      own never fires, even under defaults that all pass; built through
      `create`, it follows the defaults and fires. */
  lemma SettingsNeverNoneCounterexample(ctx: FilterContext)
    ensures var d := FilterDescriptor(1, "token", "", [], false);
      && FilterFromAsWritten(d).Ok? && FilterFrom(d).Ok?
      && Sift(ctx, [FilterFromAsWritten(d).value], NoSettings) == []
      && Sift(ctx, [FilterFrom(d).value], NoSettings) == [FilterFrom(d).value]
  {
    var d := FilterDescriptor(1, "token", "", [], false);
    assert Failed(NoSettings, ctx) == {};
    assert Passed(NoSettings, ctx) == {};
    assert FilterFrom(d).value.settings.None?;
    var asWritten := [FilterFromAsWritten(d).value];
    assert asWritten[..0] == [];
    var fixed := [FilterFrom(d).value];
    assert fixed[..0] == [];
  }

  // ---------------------------------------------------------------- loading

  /** The filters built from a list of descriptors, or the first error. */
  function FiltersFrom(descriptors: seq<FilterDescriptor>): (r: Result<seq<Filter>, LoadError>)
    ensures r.Ok? ==> |r.value| == |descriptors|
    ensures r.Ok? ==> forall i :: 0 <= i < |descriptors| ==> FilterFrom(descriptors[i]) == Ok(r.value[i])
  {
    if descriptors == [] then Ok([])
    else
      match FiltersFrom(descriptors[..|descriptors| - 1])
      case Err(e) => Err(e)
      case Ok(fs) =>
        match FilterFrom(descriptors[|descriptors| - 1])
        case Err(e) => Err(e)
        case Ok(f) => Ok(fs + [f])
  }

  lemma {:induction false} FiltersFromErrorSticks(descriptors: seq<FilterDescriptor>, i: nat)
    requires i <= |descriptors|
    requires FiltersFrom(descriptors[..i]).Err?
    ensures FiltersFrom(descriptors) == FiltersFrom(descriptors[..i])
    decreases |descriptors| - i
  {
    if i < |descriptors| {
      var prefix := descriptors[..|descriptors| - 1];
      assert prefix[..i] == descriptors[..i];
      FiltersFromErrorSticks(prefix, i);
    } else {
      assert descriptors[..i] == descriptors;
    }
  }

  /** The setting names of the descriptors that no entry type claims. */
  function FiltersUnknownNames(descriptors: seq<FilterDescriptor>): set<string> {
    if descriptors == [] then {}
    else FiltersUnknownNames(descriptors[..|descriptors| - 1]) + UnknownNames(descriptors[|descriptors| - 1].settings)
  }

  /** A prefix of the descriptors has no more unknown names than all of them. */
  lemma {:induction false} FiltersUnknownNamesPrefix(descriptors: seq<FilterDescriptor>, i: nat)
    requires i <= |descriptors|
    ensures FiltersUnknownNames(descriptors[..i]) <= FiltersUnknownNames(descriptors)
    decreases |descriptors|
  {
    if i < |descriptors| {
      var prefix := descriptors[..|descriptors| - 1];
      assert prefix[..i] == descriptors[..i];
      FiltersUnknownNamesPrefix(prefix, i);
    } else {
      assert descriptors[..i] == descriptors;
    }
  }

  /** One filter per descriptor, in order; each unknown setting name is
      warned about once, across all the descriptors. */
  method BuildFilters(descriptors: seq<FilterDescriptor>, warned: WarnedNames)
    returns (r: Result<seq<Filter>, LoadError>, warnings: seq<string>)
    modifies warned
    ensures r == FiltersFrom(descriptors)
    ensures forall w :: w in warnings <==> w in warned.names && w !in old(warned.names)
    ensures old(warned.names) <= warned.names <= old(warned.names) + FiltersUnknownNames(descriptors)
    ensures r.Ok? ==> warned.names == old(warned.names) + FiltersUnknownNames(descriptors)
  {
    var filters := [];
    warnings := [];
    for i := 0 to |descriptors|
      invariant FiltersFrom(descriptors[..i]) == Ok(filters)
      invariant forall w :: w in warnings <==> w in warned.names && w !in old(warned.names)
      invariant warned.names == old(warned.names) + FiltersUnknownNames(descriptors[..i])
    {
      assert descriptors[..i + 1][..i] == descriptors[..i];
      FiltersUnknownNamesPrefix(descriptors, i + 1);
      var f, more := Build(descriptors[i], warned);
      warnings := warnings + more;
      if f.Err? {
        FiltersFromErrorSticks(descriptors, i + 1);
        return Err(f.error), warnings;
      }
      filters := filters + [f.value];
    }
    assert descriptors[..|descriptors|] == descriptors;
    r := Ok(filters);
  }

  /** The outcome of `add_list` on one descriptor: the new filters and the
      new defaults, or the error that stops it. */
  function AddListOutcome(data: ListDescriptor): Result<(ListType, seq<Filter>, Settings), LoadError> {
    match FiltersFrom(data.filters)
    case Err(e) => Err(e)
    case Ok(filters) =>
      match SettingsFrom(data.settings)
      case Err(e) => Err(e)
      case Ok(defaults) =>
        match ListTypeOf(data.listType)
        case Err(e) => Err(e)
        case Ok(t) => Ok((t, filters, defaults))
  }

  /** What a filter list holds: the filters and the defaults of each list type it has loaded. */
  datatype ListContents = ListContents(filters: map<ListType, seq<Filter>>, defaults: map<ListType, Settings>)

  const NothingLoaded := ListContents(map[], map[])

  /** The contents after `add_list` of one descriptor: the descriptor's list
      type holds its filters and defaults when it loads, and nothing changes
      when it raises. */
  function Added(c: ListContents, data: ListDescriptor): (r: ListContents)
    ensures AddListOutcome(data).Ok? ==>
      var (t, filters, settings) := AddListOutcome(data).value;
      && r.filters.Keys == c.filters.Keys + {t} && r.defaults.Keys == c.defaults.Keys + {t}
      && r.filters[t] == filters && r.defaults[t] == settings
      && (forall u :: u != t && u in c.filters ==> r.filters[u] == c.filters[u])
      && (forall u :: u != t && u in c.defaults ==> r.defaults[u] == c.defaults[u])
    ensures AddListOutcome(data).Err? ==> r == c
  {
    match AddListOutcome(data)
    case Err(_) => c
    case Ok((t, filters, settings)) => ListContents(c.filters[t := filters], c.defaults[t := settings])
  }

  class FilterList {
    /** The unique name the database knows this list by. */
    const name: string
    var filterLists: map<ListType, seq<Filter>>
    var defaults: map<ListType, Settings>

    constructor (name: string)
      ensures this.name == name && filterLists == map[] && defaults == map[]
    {
      this.name := name;
      filterLists := map[];
      defaults := map[];
    }

    /** The list's contents as a value. */
    function Held(): ListContents
      reads this
    {
      ListContents(filterLists, defaults)
    }

    /** `add_list`: replaces the filters and defaults of one list type; the
        other list type is untouched, and nothing changes on an error. */
    method AddList(data: ListDescriptor, warned: WarnedNames) returns (r: Outcome<LoadError>, warnings: seq<string>)
      modifies this, warned
      ensures Held() == Added(old(Held()), data)
      ensures AddListOutcome(data).Ok? <==> r.Pass?
      ensures r.Fail? ==> r.error == AddListOutcome(data).error
      ensures r.Pass? ==>
        var (t, filters, settings) := AddListOutcome(data).value;
        filterLists == old(filterLists)[t := filters] && defaults == old(defaults)[t := settings]
      ensures r.Fail? ==> filterLists == old(filterLists) && defaults == old(defaults)
      ensures forall w :: w in warnings <==> w in warned.names && w !in old(warned.names)
      ensures old(warned.names) <= warned.names
      ensures warned.names <= old(warned.names) + FiltersUnknownNames(data.filters) + UnknownNames(data.settings)
      ensures r.Pass? ==> warned.names == old(warned.names) + FiltersUnknownNames(data.filters) + UnknownNames(data.settings)
    {
      var filters, more := BuildFilters(data.filters, warned);
      warnings := more;
      if filters.Err? {
        return Fail(filters.error), warnings;
      }
      var settings, more2 := Load(data.settings, warned);
      warnings := warnings + more2;
      if settings.Err? {
        return Fail(settings.error), warnings;
      }
      var listType := ListTypeOf(data.listType);
      if listType.Err? {
        return Fail(listType.error), warnings;
      }
      filterLists := filterLists[listType.value := filters.value];
      defaults := defaults[listType.value := settings.value];
      r := Pass;
    }
  }
}
