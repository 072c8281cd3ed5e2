/** A collection of settings: the action entries and validation entries of
    one filter or of one filter list's defaults, loaded by name. */
module SettingsCollection {
  import opened Wrappers
  import opened Values
  import opened FilterContexts
  import opened SettingsEntries

  /** A settings dictionary as loaded: name/value pairs in iteration order. */
  type SettingsData = seq<(string, Value)>

  /** An entry whose `create` gave nothing is still stored, as None. */
  datatype Settings = Settings(
    actions: map<string, Option<ActionEntry>>,
    validations: map<string, Option<ValidationEntry>>)

  const NoSettings := Settings(map[], map[])

  /** Every stored entry sits under its own registry name. */
  predicate WellKeyed(s: Settings) {
    && (forall n :: n in s.actions ==> n in ActionNames && (s.actions[n].Some? ==> ActionName(s.actions[n].value) == n))
    && (forall n :: n in s.validations ==> n in ValidationNames && (s.validations[n].Some? ==> ValidationName(s.validations[n].value) == n))
  }

  /** The names in `data` that belong to `names`. */
  function NamesIn(data: SettingsData, names: set<string>): (r: set<string>)
    ensures forall n :: n in r <==> n in names && exists i :: 0 <= i < |data| && data[i].0 == n
  {
    set i | 0 <= i < |data| && data[i].0 in names :: data[i].0
  }

  /** The names in `data` that no entry type is registered under. */
  function UnknownNames(data: SettingsData): (r: set<string>)
    ensures forall n :: n in r <==> n !in ActionNames && n !in ValidationNames && exists i :: 0 <= i < |data| && data[i].0 == n
  {
    set i | 0 <= i < |data| && data[i].0 !in ActionNames && data[i].0 !in ValidationNames :: data[i].0
  }

  /** One step of `__init__`: the action registry first, then the validation
      registry; an unknown name leaves the collection as it is. */
  function AddSetting(s: Settings, name: string, raw: Value): (r: Result<Settings, LoadError>)
  {
    if name in ActionNames then
      match CreateAction(name, raw)
      case Err(e) => Err(e)
      case Ok(entry) => Ok(s.(actions := s.actions[name := entry]))
    else if name in ValidationNames then
      match CreateValidation(name, raw)
      case Err(e) => Err(e)
      case Ok(entry) => Ok(s.(validations := s.validations[name := entry]))
    else Ok(s)
  }

  /** The collection `__init__` builds from `data`, or the first error it raises. */
  function SettingsFrom(data: SettingsData): Result<Settings, LoadError> {
    if data == [] then Ok(NoSettings)
    else
      match SettingsFrom(data[..|data| - 1])
      case Err(e) => Err(e)
      case Ok(s) => AddSetting(s, data[|data| - 1].0, data[|data| - 1].1)
  }

  /** A step keeps every entry under its own name. */
  lemma AddSettingWellKeyed(s: Settings, name: string, raw: Value)
    requires WellKeyed(s)
    ensures AddSetting(s, name, raw).Ok? ==> WellKeyed(AddSetting(s, name, raw).value)
  {
  }

  /** An action name is recorded among the actions, and only there. */
  lemma AddActionSetting(s: Settings, name: string, raw: Value)
    requires name in ActionNames
    ensures var r := AddSetting(s, name, raw);
      r.Ok? ==> r.value.actions.Keys == s.actions.Keys + {name} && r.value.validations == s.validations
  {
  }

  /** A validation name is recorded among the validations, and only there. */
  lemma AddValidationSetting(s: Settings, name: string, raw: Value)
    requires name !in ActionNames && name in ValidationNames
    ensures var r := AddSetting(s, name, raw);
      r.Ok? ==> r.value.validations.Keys == s.validations.Keys + {name} && r.value.actions == s.actions
  {
  }

  lemma NamesInSnoc(prefix: SettingsData, last: (string, Value), names: set<string>)
    ensures NamesIn(prefix + [last], names) == NamesIn(prefix, names) + (if last.0 in names then {last.0} else {})
  {
    var data := prefix + [last];
    assert forall i :: 0 <= i < |prefix| ==> data[i] == prefix[i];
    assert data[|prefix|] == last;
  }

  /** The partition facts carry over one step of the load. */
  lemma PartitionsStep(s: Settings, prefix: SettingsData, last: (string, Value))
    requires WellKeyed(s)
    requires s.actions.Keys == NamesIn(prefix, ActionNames)
    requires s.validations.Keys == NamesIn(prefix, ValidationNames)
    requires AddSetting(s, last.0, last.1).Ok?
    ensures var t := AddSetting(s, last.0, last.1).value;
      && WellKeyed(t)
      && t.actions.Keys == NamesIn(prefix + [last], ActionNames)
      && t.validations.Keys == NamesIn(prefix + [last], ValidationNames)
  {
    AddSettingWellKeyed(s, last.0, last.1);
    if last.0 in ActionNames {
      ActionNameNotValidation(last.0);
      AddActionSetting(s, last.0, last.1);
    } else if last.0 in ValidationNames {
      AddValidationSetting(s, last.0, last.1);
    }
    NamesInSnoc(prefix, last, ActionNames);
    NamesInSnoc(prefix, last, ValidationNames);
  }

  /** Each recognised name lands in exactly one of the two dictionaries, the
      action one when it is an action name, each under its own name; unknown
      names are dropped. */
  lemma {:induction false} SettingsFromPartitions(data: SettingsData)
    ensures SettingsFrom(data).Ok? ==>
      && WellKeyed(SettingsFrom(data).value)
      && SettingsFrom(data).value.actions.Keys == NamesIn(data, ActionNames)
      && SettingsFrom(data).value.validations.Keys == NamesIn(data, ValidationNames)
  {
    if data != [] && SettingsFrom(data).Ok? {
      var prefix := data[..|data| - 1];
      var last := data[|data| - 1];
      assert data == prefix + [last];
      SettingsFromPartitions(prefix);
      PartitionsStep(SettingsFrom(prefix).value, prefix, last);
    }
  }

  /** Once a prefix raises, the whole load raises the same error. */
  lemma {:induction false} SettingsFromErrorSticks(data: SettingsData, i: nat)
    requires i <= |data|
    requires SettingsFrom(data[..i]).Err?
    ensures SettingsFrom(data) == SettingsFrom(data[..i])
    decreases |data| - i
  {
    if i < |data| {
      var prefix := data[..|data| - 1];
      assert prefix[..i] == data[..i];
      SettingsFromErrorSticks(prefix, i);
    } else {
      assert data[..i] == data;
    }
  }

  /** The class-level record of unknown setting names already warned about,
      shared by every load. */
  class WarnedNames {
    var names: set<string>

    constructor ()
      ensures names == {}
    {
      names := {};
    }
  }

  /** What one more pair of `data` adds to the load of its prefix. */
  lemma LoadStep(data: SettingsData, i: nat)
    requires i < |data|
    ensures SettingsFrom(data[..i]).Ok? ==>
      SettingsFrom(data[..i + 1]) == AddSetting(SettingsFrom(data[..i]).value, data[i].0, data[i].1)
    ensures UnknownNames(data[..i + 1]) == UnknownNames(data[..i])
      + (if data[i].0 !in ActionNames && data[i].0 !in ValidationNames then {data[i].0} else {})
    ensures UnknownNames(data[..i + 1]) <= UnknownNames(data)
  {
    var next := data[..i + 1];
    assert next[..i] == data[..i];
    assert next[i] == data[i];
    assert forall j :: 0 <= j <= i ==> next[j] == data[j];
  }

  /** The names warned about so far are those warned about before the load
      plus the unknown names read so far. */
  predicate WarnedAfter(names: set<string>, start: set<string>, data: SettingsData, i: nat)
    requires i <= |data|
  {
    names == start + UnknownNames(data[..i])
  }

  /** Warning about the next name when it is unknown keeps `WarnedAfter`. */
  lemma WarnedStep(before: set<string>, after: set<string>, start: set<string>, data: SettingsData, i: nat)
    requires i < |data| && WarnedAfter(before, start, data, i)
    requires after == before + (if data[i].0 !in ActionNames && data[i].0 !in ValidationNames then {data[i].0} else {})
    ensures WarnedAfter(after, start, data, i + 1)
  {
    LoadStep(data, i);
  }

  predicate NoDuplicates(xs: seq<string>) {
    forall i, j :: 0 <= i < j < |xs| ==> xs[i] != xs[j]
  }

  /** `Settings.__init__`: the returned warnings are the log lines, in order. */
  method Load(data: SettingsData, warned: WarnedNames) returns (r: Result<Settings, LoadError>, warnings: seq<string>)
    modifies warned
    ensures r == SettingsFrom(data)
    ensures NoDuplicates(warnings)
    ensures forall w :: w in warnings <==> w in warned.names && w !in old(warned.names)
    ensures old(warned.names) <= warned.names <= old(warned.names) + UnknownNames(data)
    ensures r.Ok? ==> warned.names == old(warned.names) + UnknownNames(data)
  {
    var s := NoSettings;
    warnings := [];
    var i := 0;
    while i < |data|
      invariant 0 <= i <= |data|
      invariant SettingsFrom(data[..i]) == Ok(s)
      invariant WarnedAfter(warned.names, old(warned.names), data, i)
      invariant UnknownNames(data[..i]) <= UnknownNames(data)
      invariant NoDuplicates(warnings)
      invariant forall w :: w in warnings <==> w in warned.names && w !in old(warned.names)
    {
      var (name, raw) := data[i];
      LoadStep(data, i);
      var step := AddSetting(s, name, raw);
      if step.Err? {
        SettingsFromErrorSticks(data, i + 1);
        return Err(step.error), warnings;
      }
      s := step.value;
      ghost var before := warned.names;
      if name !in ActionNames && name !in ValidationNames && name !in warned.names {
        warnings := warnings + [name];
        warned.names := warned.names + {name};
      }
      assert warned.names == before + (if name !in ActionNames && name !in ValidationNames then {name} else {});
      WarnedStep(before, warned.names, old(warned.names), data, i);
      i := i + 1;
    }
    assert data[..i] == data;
    r := Ok(s);
  }

  /** `Settings.create`: None when no setting name was recognised. */
  function CreateFrom(data: SettingsData): Result<Option<Settings>, LoadError> {
    match SettingsFrom(data)
    case Err(e) => Err(e)
    case Ok(s) => if s.actions == map[] && s.validations == map[] then Ok(None) else Ok(Some(s))
  }

  /** `create` gives None exactly when no name in the data is registered,
      whether or not the recognised entries hold a value. */
  lemma CreateNoneIffNothingRecognised(data: SettingsData)
    requires SettingsFrom(data).Ok?
    ensures CreateFrom(data) == Ok(None)
        <==> forall i :: 0 <= i < |data| ==> data[i].0 !in ActionNames && data[i].0 !in ValidationNames
    ensures CreateFrom(data) != Ok(None) ==> CreateFrom(data) == Ok(Some(SettingsFrom(data).value))
  {
    SettingsFromPartitions(data);
    var s := SettingsFrom(data).value;
    if s.actions == map[] && s.validations == map[] {
      forall i | 0 <= i < |data|
        ensures data[i].0 !in ActionNames && data[i].0 !in ValidationNames
      {
        assert data[i].0 !in NamesIn(data, ActionNames);
        assert data[i].0 !in NamesIn(data, ValidationNames);
      }
    } else if s.actions != map[] {
      var n :| n in s.actions;
      assert n in NamesIn(data, ActionNames);
    } else {
      var n :| n in s.validations;
      assert n in NamesIn(data, ValidationNames);
    }
  }

  method Create(data: SettingsData, warned: WarnedNames) returns (r: Result<Option<Settings>, LoadError>, warnings: seq<string>)
    modifies warned
    ensures r == CreateFrom(data)
    ensures NoDuplicates(warnings)
    ensures forall w :: w in warnings <==> w in warned.names && w !in old(warned.names)
    ensures old(warned.names) <= warned.names <= old(warned.names) + UnknownNames(data)
    ensures r.Ok? ==> warned.names == old(warned.names) + UnknownNames(data)
  {
    var loaded;
    loaded, warnings := Load(data, warned);
    if loaded.Err? {
      r := Err(loaded.error);
    } else if loaded.value.actions == map[] && loaded.value.validations == map[] {
      r := Ok(None);
    } else {
      r := Ok(Some(loaded.value));
    }
  }

  // ---------------------------------------------------------------- evaluate

  /** Names of validation entries that hold a value and approve the context. */
  function Passed(s: Settings, ctx: FilterContext): set<string> {
    set n | n in s.validations && s.validations[n].Some? && TriggersOn(s.validations[n].value, ctx)
  }

  /** Names of validation entries that hold a value and reject the context. */
  function Failed(s: Settings, ctx: FilterContext): set<string> {
    set n | n in s.validations && s.validations[n].Some? && !TriggersOn(s.validations[n].value, ctx)
  }

  /** `evaluate`: each validation entry that holds a value votes once. */
  method Evaluate(s: Settings, ctx: FilterContext) returns (passed: set<string>, failed: set<string>)
    ensures passed == Passed(s, ctx) && failed == Failed(s, ctx)
    ensures passed !! failed
    ensures passed + failed == set n | n in s.validations && s.validations[n].Some?
  {
    passed, failed := {}, {};
    var remaining := s.validations.Keys;
    while remaining != {}
      invariant remaining <= s.validations.Keys
      invariant forall n :: n in passed <==> n in Passed(s, ctx) && n !in remaining
      invariant forall n :: n in failed <==> n in Failed(s, ctx) && n !in remaining
      decreases |remaining|
    {
      var name :| name in remaining;
      var validation := s.validations[name];
      if validation.Some? {
        if TriggersOn(validation.value, ctx) {
          passed := passed + {name};
        } else {
          failed := failed + {name};
        }
      }
      remaining := remaining - {name};
    }
  }

  /** A filter switched off by `enabled: false` fails on that name, and on
      that name alone, in every context. */
  lemma DisabledFails(ctx: FilterContext)
    ensures SettingsFrom([("enabled", Bool(false))]).Ok?
    ensures Failed(SettingsFrom([("enabled", Bool(false))]).value, ctx) == {"enabled"}
    ensures Passed(SettingsFrom([("enabled", Bool(false))]).value, ctx) == {}
  {
    var data := [("enabled", Bool(false))];
    assert data[..0] == [];
    var s := SettingsFrom(data).value;
    assert s.validations == map["enabled" := Some(EnabledEntry(EnabledSetting.Enabled(Bool(false))))];
  }
}
