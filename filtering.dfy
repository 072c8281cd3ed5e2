/** The filtering cog: loads the filter lists, keeps which lists are
    subscribed to which events, and dispatches events to them. */
module FilteringCog {
  import opened Wrappers
  import opened Values
  import opened FilterContexts
  import opened SettingsCollection
  import opened Filters
  import opened FilterLists
  import Tokens

  /** Names of the filter list types the registry knows. */
  const FilterListTypes: set<string> := {Tokens.Name}

  /** `self._subscriptions[event]` on a dictionary whose missing entries are empty lists. */
  function SubscriptionsOf(subscriptions: map<Event, seq<FilterList>>, event: Event): seq<FilterList> {
    if event in subscriptions then subscriptions[event] else []
  }

  /** The subscriptions after `subscribe(list, *events)`. */
  function Subscribed(subscriptions: map<Event, seq<FilterList>>, list: FilterList, events: seq<Event>)
    : map<Event, seq<FilterList>>
  {
    if events == [] then subscriptions
    else
      var before := Subscribed(subscriptions, list, events[..|events| - 1]);
      var event := events[|events| - 1];
      var current := SubscriptionsOf(before, event);
      before[event := if list in current then current else current + [list]]
  }

  /** Each named event's list gains `list` at its end unless it already
      holds it; the lists of other events are untouched. */
  lemma {:induction false} SubscribedCharacterised(subscriptions: map<Event, seq<FilterList>>, list: FilterList, events: seq<Event>)
    ensures var r := Subscribed(subscriptions, list, events);
      && r.Keys == subscriptions.Keys + (set e | e in events)
      && forall e :: SubscriptionsOf(r, e)
           == SubscriptionsOf(subscriptions, e)
              + (if e in events && list !in SubscriptionsOf(subscriptions, e) then [list] else [])
  {
    if events != [] {
      var prefix := events[..|events| - 1];
      var event := events[|events| - 1];
      SubscribedCharacterised(subscriptions, list, prefix);
      assert events == prefix + [event];
    }
  }

  predicate DistinctLists(lists: seq<FilterList>) {
    forall i, j :: 0 <= i < j < |lists| ==> lists[i] != lists[j]
  }

  /** After subscribing, the list is subscribed to every event given, at
      most once to each, and no earlier subscription moved. */
  lemma SubscribedProperties(subscriptions: map<Event, seq<FilterList>>, list: FilterList, events: seq<Event>, e: Event)
    ensures e in events ==> list in SubscriptionsOf(Subscribed(subscriptions, list, events), e)
    ensures DistinctLists(SubscriptionsOf(subscriptions, e)) ==> DistinctLists(SubscriptionsOf(Subscribed(subscriptions, list, events), e))
    ensures SubscriptionsOf(subscriptions, e) <= SubscriptionsOf(Subscribed(subscriptions, list, events), e)
    ensures e !in events ==> SubscriptionsOf(Subscribed(subscriptions, list, events), e) == SubscriptionsOf(subscriptions, e)
  {
    SubscribedCharacterised(subscriptions, list, events);
  }

  /** Subscribing again with the same arguments changes nothing. */
  lemma SubscribedIdempotent(subscriptions: map<Event, seq<FilterList>>, list: FilterList, events: seq<Event>)
    ensures Subscribed(Subscribed(subscriptions, list, events), list, events) == Subscribed(subscriptions, list, events)
  {
    var once := Subscribed(subscriptions, list, events);
    var twice := Subscribed(once, list, events);
    SubscribedCharacterised(subscriptions, list, events);
    SubscribedCharacterised(once, list, events);
    forall e | e in twice
      ensures e in once && twice[e] == once[e]
    {
      assert SubscriptionsOf(twice, e) == SubscriptionsOf(once, e);
    }
  }

  /** Every event's subscription list in `before` is a prefix of its list in `after`. */
  predicate SubscriptionsExtend(before: map<Event, seq<FilterList>>, after: map<Event, seq<FilterList>>) {
    forall e :: SubscriptionsOf(before, e) <= SubscriptionsOf(after, e)
  }

  lemma SubscriptionsExtendTransitive(a: map<Event, seq<FilterList>>, b: map<Event, seq<FilterList>>, c: map<Event, seq<FilterList>>)
    requires SubscriptionsExtend(a, b) && SubscriptionsExtend(b, c)
    ensures SubscriptionsExtend(a, c)
  {
    forall e
      ensures SubscriptionsOf(a, e) <= SubscriptionsOf(c, e)
    {
      assert SubscriptionsOf(a, e) <= SubscriptionsOf(b, e);
      assert SubscriptionsOf(b, e) <= SubscriptionsOf(c, e);
    }
  }

  /** `list` receives both message events. */
  predicate ListensToMessages(subs: map<Event, seq<FilterList>>, list: FilterList) {
    list in SubscriptionsOf(subs, Event.OnMessage) && list in SubscriptionsOf(subs, OnMessageEdit)
  }

  lemma SubscriptionsExtendKeeps(a: map<Event, seq<FilterList>>, b: map<Event, seq<FilterList>>, list: FilterList)
    requires SubscriptionsExtend(a, b) && ListensToMessages(a, list)
    ensures ListensToMessages(b, list)
  {
    assert SubscriptionsOf(a, Event.OnMessage) <= SubscriptionsOf(b, Event.OnMessage);
    assert SubscriptionsOf(a, OnMessageEdit) <= SubscriptionsOf(b, OnMessageEdit);
  }

  /** What `init_cog` does with one raw list, by its name. */
  datatype Step = Warn | Skip | Instantiate | Reuse

  /** An unknown name is warned about once and skipped from then on; a known
      name is instantiated the first time and reused after. */
  function Decide(name: string, loaded: set<string>, alreadyWarned: set<string>): (s: Step)
    ensures s == Warn <==> name !in loaded && name !in FilterListTypes && name !in alreadyWarned
    ensures s == Instantiate <==> name !in loaded && name in FilterListTypes
  {
    if name in loaded then Reuse
    else if name !in FilterListTypes then (if name !in alreadyWarned then Warn else Skip)
    else Instantiate
  }

  /** Lines 34-39 as written: an unknown name already warned about falls
      through to the registry lookup, which raises. */
  function DecideAsWritten(name: string, loaded: set<string>, alreadyWarned: set<string>): Result<Step, LoadError> {
    if name in loaded then Ok(Reuse)
    else if name !in FilterListTypes && name !in alreadyWarned then Ok(Warn)
    else if name !in FilterListTypes then Err(KeyError(name))
    else Ok(Instantiate)
  }

  /** The code as written agrees with `Decide` except where `Decide` skips,
      and there it raises: a second raw list under an unknown name stops the
      whole load. */
  lemma UnknownListCounterexample(name: string, loaded: set<string>, alreadyWarned: set<string>)
    ensures DecideAsWritten(name, loaded, alreadyWarned).Ok? ==> DecideAsWritten(name, loaded, alreadyWarned).value == Decide(name, loaded, alreadyWarned)
    ensures DecideAsWritten(name, loaded, alreadyWarned).Err? <==> Decide(name, loaded, alreadyWarned) == Skip
    ensures DecideAsWritten("spam", {}, {"spam"}) == Err(KeyError("spam"))
  {
  }

  /** Lines 31-40 as written, giving the names of the lists the cog holds
      afterwards, or the exception that ends the loop. The registered list
      class leaves the abstract `triggers_for` undefined, so instantiating it
      on line 39 raises TypeError. */
  function LoadAsWritten(loaded: set<string>, alreadyWarned: set<string>, raw: seq<ListDescriptor>)
    : Result<set<string>, LoadError>
    decreases |raw|
  {
    if raw == [] then Ok(loaded)
    else
      var name := raw[0].name;
      match DecideAsWritten(name, loaded, alreadyWarned)
      case Err(e) => Err(e)
      case Ok(Warn) => LoadAsWritten(loaded, alreadyWarned + {name}, raw[1..])
      case Ok(Instantiate) => Err(TypeError("Can't instantiate abstract class TokensList"))
      case Ok(_) =>
        if AddListOutcome(raw[0]).Err? then Err(AddListOutcome(raw[0]).error)
        else LoadAsWritten(loaded, alreadyWarned, raw[1..])
  }

  /** As written, a cog that starts with no lists never gets one: the first
      record with a registered name raises, where the intended rule
      instantiates the list and loads it. */
  lemma {:induction false} AbstractListCounterexample(alreadyWarned: set<string>, raw: seq<ListDescriptor>)
    ensures LoadAsWritten({}, alreadyWarned, raw).Ok? ==> LoadAsWritten({}, alreadyWarned, raw).value == {}
    ensures KnownListNames(raw) != {} ==> LoadAsWritten({}, alreadyWarned, raw).Err?
    ensures |raw| > 0 && raw[0].name == Tokens.Name ==>
      Decide(raw[0].name, {}, alreadyWarned) == Instantiate &&
      LoadAsWritten({}, alreadyWarned, raw) == Err(TypeError("Can't instantiate abstract class TokensList"))
    decreases |raw|
  {
    if raw != [] {
      var name := raw[0].name;
      if name !in FilterListTypes && name !in alreadyWarned {
        AbstractListCounterexample(alreadyWarned + {name}, raw[1..]);
        if KnownListNames(raw) != {} {
          var i :| 0 <= i < |raw| && raw[i].name in FilterListTypes;
          assert raw[1..][i - 1] == raw[i];
        }
      }
    }
  }

  /** The raw lists' names with a registered type, and those without. */
  function KnownListNames(raw: seq<ListDescriptor>): set<string> {
    set i | 0 <= i < |raw| && raw[i].name in FilterListTypes :: raw[i].name
  }

  function UnknownListNames(raw: seq<ListDescriptor>): set<string> {
    set i | 0 <= i < |raw| && raw[i].name !in FilterListTypes :: raw[i].name
  }

  lemma ListNamesStep(raw: seq<ListDescriptor>, i: nat)
    requires i < |raw|
    ensures KnownListNames(raw[..i + 1]) == KnownListNames(raw[..i]) + (if raw[i].name in FilterListTypes then {raw[i].name} else {})
    ensures UnknownListNames(raw[..i + 1]) == UnknownListNames(raw[..i]) + (if raw[i].name !in FilterListTypes then {raw[i].name} else {})
  {
    assert raw[..i + 1] == raw[..i] + [raw[i]];
  }

  /** Since the snapshot `lists0`/`subs0`, the loaded lists are those of
      the snapshot plus one per registered name in `done`, each new one
      listening to both message events, and `warnedNames` holds the
      unregistered names in `done`. */
  predicate Grown(lists: map<string, FilterList>, subs: map<Event, seq<FilterList>>,
                  lists0: map<string, FilterList>, subs0: map<Event, seq<FilterList>>,
                  done: seq<ListDescriptor>, warnedNames: set<string>)
  {
    && (forall n :: n in lists0 ==> n in lists && lists[n] == lists0[n])
    && lists.Keys == lists0.Keys + KnownListNames(done)
    && SubscriptionsExtend(subs0, subs)
    && (forall n :: n in lists && n !in lists0 ==> ListensToMessages(subs, lists[n]))
    && warnedNames == UnknownListNames(done)
  }

  /** A record with an unregistered name leaves the lists alone and adds its
      name to the warned ones. */
  lemma GrownUnknownStep(lists: map<string, FilterList>, subs: map<Event, seq<FilterList>>,
                         lists0: map<string, FilterList>, subs0: map<Event, seq<FilterList>>,
                         raw: seq<ListDescriptor>, i: nat, warnedNames: set<string>)
    requires i < |raw| && raw[i].name !in FilterListTypes
    requires Grown(lists, subs, lists0, subs0, raw[..i], warnedNames)
    ensures Grown(lists, subs, lists0, subs0, raw[..i + 1], warnedNames + {raw[i].name})
  {
    ListNamesStep(raw, i);
  }

  /** A record with a registered name keeps every list, may add a new one
      listening to both message events, and only extends the subscriptions. */
  lemma GrownKnownStep(lists: map<string, FilterList>, subs: map<Event, seq<FilterList>>,
                       lists1: map<string, FilterList>, subs1: map<Event, seq<FilterList>>,
                       lists0: map<string, FilterList>, subs0: map<Event, seq<FilterList>>,
                       raw: seq<ListDescriptor>, i: nat, warnedNames: set<string>)
    requires i < |raw| && raw[i].name in FilterListTypes
    requires Grown(lists, subs, lists0, subs0, raw[..i], warnedNames)
    requires lists1.Keys == lists.Keys + {raw[i].name}
    requires forall n :: n in lists ==> lists1[n] == lists[n]
    requires raw[i].name !in lists ==> ListensToMessages(subs1, lists1[raw[i].name])
    requires SubscriptionsExtend(subs, subs1)
    ensures Grown(lists1, subs1, lists0, subs0, raw[..i + 1], warnedNames)
  {
    ListNamesStep(raw, i);
    SubscriptionsExtendTransitive(subs0, subs, subs1);
    forall n | n in lists && n !in lists0
      ensures ListensToMessages(subs1, lists1[n])
    {
      SubscriptionsExtendKeeps(subs, subs1, lists[n]);
    }
  }

  /** The contents of list `name` after `add_list` of every record of that
      name in `raw`, in order, starting from `before`. */
  function Loaded(before: ListContents, raw: seq<ListDescriptor>, name: string): ListContents {
    if raw == [] then before
    else
      var prior := Loaded(before, raw[..|raw| - 1], name);
      var data := raw[|raw| - 1];
      if data.name == name then Added(prior, data) else prior
  }

  /** One more record only matters to the list of its own name. */
  lemma LoadedStep(before: ListContents, raw: seq<ListDescriptor>, i: nat, name: string)
    requires i < |raw|
    ensures Loaded(before, raw[..i + 1], name)
         == if raw[i].name == name then Added(Loaded(before, raw[..i], name), raw[i]) else Loaded(before, raw[..i], name)
  {
    assert raw[..i + 1][..i] == raw[..i];
  }

  /** Records of other names leave a list as it was. */
  lemma {:induction false} LoadedOtherNames(before: ListContents, raw: seq<ListDescriptor>, name: string)
    requires forall j :: 0 <= j < |raw| ==> raw[j].name != name
    ensures Loaded(before, raw, name) == before
  {
    if raw != [] {
      LoadedOtherNames(before, raw[..|raw| - 1], name);
    }
  }

  /** Every record of the name that loads leaves its list type among the
      list's filters; no list type is ever dropped. */
  lemma {:induction false} LoadedHasTypes(before: ListContents, raw: seq<ListDescriptor>, name: string)
    ensures before.filters.Keys <= Loaded(before, raw, name).filters.Keys
    ensures forall j :: 0 <= j < |raw| && raw[j].name == name && AddListOutcome(raw[j]).Ok? ==>
      AddListOutcome(raw[j]).value.0 in Loaded(before, raw, name).filters
  {
    if raw != [] {
      var prefix := raw[..|raw| - 1];
      LoadedHasTypes(before, prefix, name);
      forall j | 0 <= j < |raw| && raw[j].name == name && AddListOutcome(raw[j]).Ok?
        ensures AddListOutcome(raw[j]).value.0 in Loaded(before, raw, name).filters
      {
        if j < |prefix| {
          assert raw[j] == prefix[j];
        }
      }
    }
  }

  /** The last record of a name and list type that loads decides what that
      list type holds: its filters and its defaults. */
  lemma {:induction false} LastRecordWins(before: ListContents, raw: seq<ListDescriptor>, name: string, j: nat)
    requires j < |raw| && raw[j].name == name && AddListOutcome(raw[j]).Ok?
    requires forall k :: j < k < |raw| && raw[k].name == name && AddListOutcome(raw[k]).Ok? ==>
      AddListOutcome(raw[k]).value.0 != AddListOutcome(raw[j]).value.0
    ensures var (t, filters, settings) := AddListOutcome(raw[j]).value;
      && t in Loaded(before, raw, name).filters && Loaded(before, raw, name).filters[t] == filters
      && t in Loaded(before, raw, name).defaults && Loaded(before, raw, name).defaults[t] == settings
  {
    var prefix := raw[..|raw| - 1];
    if j < |prefix| {
      assert prefix[j] == raw[j];
      forall k | j < k < |prefix| && prefix[k].name == name && AddListOutcome(prefix[k]).Ok?
        ensures AddListOutcome(prefix[k]).value.0 != AddListOutcome(prefix[j]).value.0
      {
        assert prefix[k] == raw[k];
      }
      LastRecordWins(before, prefix, name, j);
    }
  }

  /** A list's contents before loading: what it held, or nothing for a list
      that did not exist yet. */
  function BaseOf(before: map<string, ListContents>, name: string): ListContents {
    if name in before then before[name] else NothingLoaded
  }

  /** What each named list holds after loading the records `done` into it. */
  function LoadedAll(names: set<string>, before: map<string, ListContents>, done: seq<ListDescriptor>): map<string, ListContents> {
    map n | n in names :: Loaded(BaseOf(before, n), done, n)
  }

  /** Every list holds what loading the records `done` into it gives. */
  predicate Follows(holding: map<string, ListContents>, before: map<string, ListContents>, done: seq<ListDescriptor>) {
    holding == LoadedAll(holding.Keys, before, done)
  }

  /** Every record with a registered name loads. */
  predicate AllLoad(raw: seq<ListDescriptor>) {
    forall j :: 0 <= j < |raw| && raw[j].name in FilterListTypes ==> AddListOutcome(raw[j]).Ok?
  }

  /** Loading stopped at the `k`-th record: every record before it loaded,
      and it did not. */
  predicate StopsAt(raw: seq<ListDescriptor>, k: int) {
    0 < k <= |raw| && AllLoad(raw[..k - 1]) && !AllLoad(raw[..k])
  }

  /** A prefix of the records has no unknown name the whole has not. */
  lemma UnknownListNamesPrefix(raw: seq<ListDescriptor>, k: nat)
    requires k <= |raw|
    ensures UnknownListNames(raw[..k]) <= UnknownListNames(raw)
  {
    forall w | w in UnknownListNames(raw[..k])
      ensures w in UnknownListNames(raw)
    {
      var j :| 0 <= j < k && raw[..k][j].name !in FilterListTypes && raw[..k][j].name == w;
      assert raw[j] == raw[..k][j];
    }
  }

  /** A load that stopped at some record did not load everything. */
  lemma StopsAtFails(raw: seq<ListDescriptor>, k: int)
    requires StopsAt(raw, k)
    ensures !AllLoad(raw)
  {
    var j :| 0 <= j < k && raw[..k][j].name in FilterListTypes && !AddListOutcome(raw[..k][j]).Ok?;
    assert raw[j] == raw[..k][j];
  }

  /** A record whose name no list has leaves every list as it was. */
  lemma FollowsOtherName(holding: map<string, ListContents>, before: map<string, ListContents>, raw: seq<ListDescriptor>, i: nat)
    requires i < |raw| && raw[i].name !in holding && Follows(holding, before, raw[..i])
    ensures Follows(holding, before, raw[..i + 1])
  {
    var next := LoadedAll(holding.Keys, before, raw[..i + 1]);
    forall n | n in holding
      ensures holding[n] == next[n]
    {
      LoadedStep(BaseOf(before, n), raw, i, n);
    }
  }

  /** A record added to its own list, existing or new, keeps every list
      following the records. */
  lemma FollowsAdded(holding: map<string, ListContents>, before: map<string, ListContents>, raw: seq<ListDescriptor>, i: nat)
    requires i < |raw| && Follows(holding, before, raw[..i])
    requires raw[i].name in holding || (raw[i].name !in before && forall j :: 0 <= j < i ==> raw[j].name != raw[i].name)
    ensures var name := raw[i].name;
      Follows(holding[name := Added(BaseOf(holding, name), raw[i])], before, raw[..i + 1])
  {
    var name := raw[i].name;
    var after := holding[name := Added(BaseOf(holding, name), raw[i])];
    var next := LoadedAll(after.Keys, before, raw[..i + 1]);
    forall n | n in after
      ensures after[n] == next[n]
    {
      LoadedStep(BaseOf(before, n), raw, i, n);
      if n == name && name !in holding {
        var done := raw[..i];
        assert forall j :: 0 <= j < |done| ==> done[j].name != name;
        LoadedOtherNames(NothingLoaded, done, name);
      }
    }
  }

  /** The filters `on_message` collects: each subscribed list's deny-list
      result, in subscription order. */
  function TriggeredAcross(lists: seq<FilterList>, ctx: FilterContext): seq<Filter>
    reads lists
  {
    if lists == [] then []
    else TriggeredAcross(lists[..|lists| - 1], ctx) + Tokens.DenyResult(lists[|lists| - 1], ctx)
  }

  /** A filter is collected exactly when some subscribed list's deny list
      triggers it. */
  lemma {:induction false} TriggeredAcrossMembers(lists: seq<FilterList>, ctx: FilterContext, f: Filter)
    ensures f in TriggeredAcross(lists, ctx) <==> exists i :: 0 <= i < |lists| && f in Tokens.DenyResult(lists[i], ctx)
  {
    if lists != [] {
      var prefix := lists[..|lists| - 1];
      TriggeredAcrossMembers(prefix, ctx, f);
      assert TriggeredAcross(lists, ctx) == TriggeredAcross(prefix, ctx) + Tokens.DenyResult(lists[|lists| - 1], ctx);
      if f in TriggeredAcross(prefix, ctx) {
        var i :| 0 <= i < |prefix| && f in Tokens.DenyResult(prefix[i], ctx);
        assert lists[i] == prefix[i];
      } else if f in Tokens.DenyResult(lists[|lists| - 1], ctx) {
      } else {
        forall i | 0 <= i < |lists|
          ensures f !in Tokens.DenyResult(lists[i], ctx)
        {
          if i < |prefix| {
            assert lists[i] == prefix[i];
            assert f !in Tokens.DenyResult(prefix[i], ctx);
          } else {
            assert lists[i] == lists[|lists| - 1];
          }
        }
      }
    }
  }

  class Filtering {
    var filterLists: map<string, FilterList>
    var subscriptions: map<Event, seq<FilterList>>

    constructor ()
      ensures filterLists == map[] && subscriptions == map[]
    {
      filterLists := map[];
      subscriptions := map[];
    }

    /** Every loaded list has a registered type and sits under its own name. */
    ghost predicate Valid()
      reads this`filterLists
    {
      forall n :: n in filterLists ==> n in FilterListTypes && filterLists[n].name == n
    }

    /** What every loaded list holds, by name. */
    ghost function Holding(): map<string, ListContents>
      reads this`filterLists, filterLists.Values
    {
      map n | n in filterLists :: filterLists[n].Held()
    }

    /** `subscribe` */
    method Subscribe(list: FilterList, events: seq<Event>)
      modifies this`subscriptions
      ensures subscriptions == Subscribed(old(subscriptions), list, events)
    {
      for i := 0 to |events|
        invariant subscriptions == Subscribed(old(subscriptions), list, events[..i])
      {
        assert events[..i + 1][..i] == events[..i];
        var event := events[i];
        var current := SubscriptionsOf(subscriptions, event);
        if list !in current {
          subscriptions := subscriptions[event := current + [list]];
        } else {
          subscriptions := subscriptions[event := current];
        }
      }
      assert events[..|events|] == events;
    }

    /** `filter_list_types[name](self)`: a new list of that name, which
        subscribes itself to both message events. */
    method NewList(name: string) returns (list: FilterList)
      modifies this
      ensures fresh(list) && list.name == name && list.Held() == NothingLoaded
      ensures filterLists == old(filterLists)[name := list]
      ensures Holding() == old(Holding())[name := NothingLoaded]
      ensures ListensToMessages(subscriptions, list)
      ensures SubscriptionsExtend(old(subscriptions), subscriptions)
    {
      ghost var before := Holding();
      list := new FilterList(name);
      Subscribe(list, [Event.OnMessage, OnMessageEdit]);
      forall e
        ensures SubscriptionsOf(old(subscriptions), e) <= SubscriptionsOf(subscriptions, e)
      {
        SubscribedProperties(old(subscriptions), list, [Event.OnMessage, OnMessageEdit], e);
      }
      SubscribedProperties(old(subscriptions), list, [Event.OnMessage, OnMessageEdit], Event.OnMessage);
      SubscribedProperties(old(subscriptions), list, [Event.OnMessage, OnMessageEdit], OnMessageEdit);
      filterLists := filterLists[name := list];
      forall n | n in Holding()
        ensures Holding()[n] == before[name := NothingLoaded][n]
      {
      }
    }

    /** `self.filter_lists[list_name].add_list(list_data)`: the list of that
        name gets the descriptor's filters and defaults under its list type,
        and every other list is untouched. */
    method AddTo(data: ListDescriptor, warned: WarnedNames) returns (r: Outcome<LoadError>)
      requires Valid() && data.name in filterLists
      modifies filterLists[data.name], warned
      ensures r.Pass? <==> AddListOutcome(data).Ok?
      ensures data.name in old(Holding()) && Holding() == old(Holding())[data.name := Added(old(Holding())[data.name], data)]
    {
      var list := filterLists[data.name];
      var settingWarnings;
      r, settingWarnings := list.AddList(data, warned);
    }

    /** `on_message`: a context for the message, dispatched to every list
        subscribed to the message event. Each list rewrites the content
        before sifting, so `split` (the spoiler split) and `clean` stand for
        the text processing the lists use. The event is the intended
        `ON_MESSAGE` member, which the enum as written lacks. */
    method OnMessage(author: Author, channel: Channel, content: string, message: Message, embeds: seq<Embed>,
                     split: string -> seq<string>, clean: string -> string)
      returns (ctx: FilterContext, triggered: seq<Filter>)
      requires forall t :: Tokens.IsSpoilerSplit(t, split(t))
      ensures fresh(ctx) && ctx.event == Event.OnMessage && ctx.author == author && ctx.channel == channel
      ensures ctx.message == Some(message) && ctx.embeds == embeds
      ensures triggered == TriggeredAcross(SubscriptionsOf(subscriptions, Event.OnMessage), ctx)
    {
      ctx := new FilterContext(Event.OnMessage, author, channel, content, Some(message), embeds);
      var lists := SubscriptionsOf(subscriptions, Event.OnMessage);
      triggered := [];
      for i := 0 to |lists|
        invariant triggered == TriggeredAcross(lists[..i], ctx)
      {
        assert lists[..i + 1][..i] == lists[..i];
        var found := Tokens.TriggerFor(lists[i], ctx, split(ctx.content), clean);
        triggered := triggered + found;
      }
      assert lists[..|lists|] == lists;
    }

    /** A raw list with a registered name: the list of that name, created
        first when there is none yet, gets the descriptor through `add_list`. */
    method LoadKnown(data: ListDescriptor, warned: WarnedNames) returns (r: Outcome<LoadError>)
      requires Valid() && data.name in FilterListTypes
      modifies this, warned, filterLists.Values
      ensures Valid()
      ensures filterLists.Keys == old(filterLists).Keys + {data.name}
      ensures forall n :: n in old(filterLists) ==> filterLists[n] == old(filterLists)[n]
      ensures data.name !in old(filterLists) ==>
        fresh(filterLists[data.name]) && ListensToMessages(subscriptions, filterLists[data.name])
      ensures SubscriptionsExtend(old(subscriptions), subscriptions)
      ensures Holding() == old(Holding())[data.name := Added(BaseOf(old(Holding()), data.name), data)]
      ensures r.Pass? <==> AddListOutcome(data).Ok?
    {
      if data.name !in filterLists {
        var _ := NewList(data.name);
      }
      r := AddTo(data, warned);
    }

    /** Loading the records `done` since the snapshot `lists0`/`subs0`, when
        the lists held `before`, grew the lists as `Grown` says and left each
        list holding what `Loaded` gives. */
    ghost predicate LoadedSince(lists0: map<string, FilterList>, subs0: map<Event, seq<FilterList>>,
                                before: map<string, ListContents>, done: seq<ListDescriptor>, warnedNames: set<string>)
      reads this, filterLists.Values
    {
      && Valid()
      && Grown(filterLists, subscriptions, lists0, subs0, done, warnedNames)
      && Follows(Holding(), before, done)
    }

    /** One turn of the list-loading loop of `init_cog` on a raw list whose
        name is a known list type: the list is created if need be and the
        record added to it. */
    method LoadKnownAt(raw: seq<ListDescriptor>, i: nat, warned: WarnedNames, alreadyWarned: set<string>,
                       ghost lists0: map<string, FilterList>, ghost subs0: map<Event, seq<FilterList>>,
                       ghost before: map<string, ListContents>)
      returns (r: Outcome<LoadError>)
      requires i < |raw| && raw[i].name in FilterListTypes && before.Keys == lists0.Keys
      requires LoadedSince(lists0, subs0, before, raw[..i], alreadyWarned)
      modifies this, warned, filterLists.Values
      ensures LoadedSince(lists0, subs0, before, raw[..i + 1], alreadyWarned)
      ensures forall n :: n in old(filterLists) ==> n in filterLists && filterLists[n] == old(filterLists)[n]
      ensures forall n :: n in filterLists && n !in old(filterLists) ==> fresh(filterLists[n])
      ensures r.Pass? <==> AddListOutcome(raw[i]).Ok?
    {
      FollowsAdded(Holding(), before, raw, i);
      ghost var subs := subscriptions;
      ghost var lists := filterLists;
      r := LoadKnown(raw[i], warned);
      GrownKnownStep(lists, subs, filterLists, subscriptions, lists0, subs0, raw, i, alreadyWarned);
    }

    /** One turn of the list-loading loop of `init_cog`, on the raw list
        `raw[i]`, given the unknown names warned about so far; `before` is
        what the lists held when the loop started. */
    method LoadOne(raw: seq<ListDescriptor>, i: nat, warned: WarnedNames, alreadyWarned: set<string>,
                   ghost lists0: map<string, FilterList>, ghost subs0: map<Event, seq<FilterList>>,
                   ghost before: map<string, ListContents>)
      returns (r: Outcome<LoadError>, nowWarned: set<string>, warning: seq<string>)
      requires i < |raw| && before.Keys == lists0.Keys
      requires LoadedSince(lists0, subs0, before, raw[..i], alreadyWarned) && AllLoad(raw[..i])
      modifies this, warned, filterLists.Values
      ensures LoadedSince(lists0, subs0, before, raw[..i + 1], nowWarned)
      ensures forall n :: n in old(filterLists) ==> n in filterLists && filterLists[n] == old(filterLists)[n]
      ensures forall n :: n in filterLists && n !in old(filterLists) ==> fresh(filterLists[n])
      ensures nowWarned == alreadyWarned + (if raw[i].name !in FilterListTypes then {raw[i].name} else {})
      ensures warning == if raw[i].name !in FilterListTypes && raw[i].name !in alreadyWarned then [raw[i].name] else []
      ensures r.Pass? <==> raw[i].name !in FilterListTypes || AddListOutcome(raw[i]).Ok?
      ensures r.Pass? <==> AllLoad(raw[..i + 1])
      ensures r.Fail? ==> !AllLoad(raw) && StopsAt(raw, i + 1)
    {
      assert raw[..i + 1][..i] == raw[..i];
      var data := raw[i];
      r, nowWarned, warning := Pass, alreadyWarned, [];
      var step := Decide(data.name, filterLists.Keys, alreadyWarned);
      if step == Warn {
        GrownUnknownStep(filterLists, subscriptions, lists0, subs0, raw, i, alreadyWarned);
        warning := [data.name];
        nowWarned := alreadyWarned + {data.name};
        FollowsOtherName(Holding(), before, raw, i);
      } else if step == Skip {
        GrownUnknownStep(filterLists, subscriptions, lists0, subs0, raw, i, alreadyWarned);
        FollowsOtherName(Holding(), before, raw, i);
      } else {
        r := LoadKnownAt(raw, i, warned, alreadyWarned, lists0, subs0, before);
      }
      var after := raw[..i + 1];
      if r.Pass? {
        assert after == raw[..i] + [data];
        assert forall j :: 0 <= j < i ==> after[j] == raw[..i][j];
      } else {
        assert after[i] == data;
      }
    }

    /** The list-loading loop of `init_cog`: the records are loaded in
        order until one fails. `k` counts the records taken; the cog then
        holds what loading them gives, and every one before the last loaded. */
    method LoadRecords(raw: seq<ListDescriptor>, warned: WarnedNames)
      returns (r: Outcome<LoadError>, warnings: seq<string>, ghost k: nat)
      requires Valid()
      modifies this, warned, filterLists.Values
      ensures k <= |raw|
      ensures LoadedSince(old(filterLists), old(subscriptions), old(Holding()), raw[..k], UnknownListNames(raw[..k]))
      ensures forall n :: n in filterLists && n !in old(filterLists) ==> fresh(filterLists[n])
      ensures NoDuplicates(warnings)
      ensures forall w :: w in warnings <==> w in UnknownListNames(raw[..k])
      ensures r.Pass? ==> k == |raw| && AllLoad(raw)
      ensures r.Fail? ==> StopsAt(raw, k)
    {
      var alreadyWarned: set<string> := {};
      warnings := [];
      r := Pass;
      var i := 0;
      assert raw[..0] == [];
      while i < |raw| && r.Pass?
        invariant 0 <= i <= |raw|
        invariant LoadedSince(old(filterLists), old(subscriptions), old(Holding()), raw[..i], alreadyWarned)
        invariant forall n :: n in filterLists && n !in old(filterLists) ==> fresh(filterLists[n])
        invariant NoDuplicates(warnings)
        invariant forall w :: w in warnings <==> w in alreadyWarned
        invariant r.Pass? <==> AllLoad(raw[..i])
        invariant r.Fail? ==> StopsAt(raw, i)
      {
        var warning;
        r, alreadyWarned, warning := LoadOne(raw, i, warned, alreadyWarned, old(filterLists), old(subscriptions), old(Holding()));
        warnings := warnings + warning;
        i := i + 1;
      }
      k := i;
      if r.Pass? {
        assert raw[..i] == raw;
      }
    }

    /** `init_cog`'s loading of the raw lists, which are passed in. The
        returned warnings are the log lines about unknown list names. */
    method InitCog(raw: seq<ListDescriptor>, warned: WarnedNames) returns (r: Outcome<LoadError>, warnings: seq<string>)
      requires Valid()
      modifies this, warned, filterLists.Values
      ensures Valid()
      ensures forall n :: n in old(filterLists) ==> n in filterLists && filterLists[n] == old(filterLists)[n]
      ensures forall n :: n in filterLists && n !in old(filterLists) ==>
        && fresh(filterLists[n])
        && ListensToMessages(subscriptions, filterLists[n])
      ensures SubscriptionsExtend(old(subscriptions), subscriptions)
      ensures NoDuplicates(warnings)
      ensures forall w :: w in warnings ==> w in UnknownListNames(raw)
      ensures r.Pass? <==> AllLoad(raw)
      ensures r.Pass? ==> filterLists.Keys == old(filterLists).Keys + KnownListNames(raw)
      ensures r.Pass? ==> forall w :: w in UnknownListNames(raw) ==> w in warnings
      ensures r.Pass? ==> Follows(Holding(), old(Holding()), raw)
      ensures r.Fail? ==> exists k ::
        && StopsAt(raw, k)
        && filterLists.Keys == old(filterLists).Keys + KnownListNames(raw[..k])
        && Follows(Holding(), old(Holding()), raw[..k])
    {
      ghost var k;
      r, warnings, k := LoadRecords(raw, warned);
      UnknownListNamesPrefix(raw, k);
      if r.Fail? {
        StopsAtFails(raw, k);
      } else {
        assert raw[..k] == raw;
      }
    }
  }
}
