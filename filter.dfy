/** A filter: one token to look for, with its own settings overriding the
    defaults of the list that holds it. */
module Filters {
  import opened Wrappers
  import opened Values
  import opened FilterContexts
  import opened SettingsEntries
  import opened SettingsCollection

  /** A filter as the database describes it. */
  datatype FilterDescriptor = FilterDescriptor(
    id: int,
    content: string,
    description: string,
    settings: SettingsData,
    additionalField: bool)

  /** `settings` is None when the filter has no settings of its own. */
  datatype Filter = Filter(
    id: int,
    token: string,
    description: string,
    settings: Option<Settings>,
    exact: bool)

  /** `Filter.__init__` as written: the settings go through the plain
      constructor, so a filter always has a settings object. */
  function FilterFromAsWritten(d: FilterDescriptor): (r: Result<Filter, LoadError>)
    ensures r.Ok? <==> SettingsFrom(d.settings).Ok?
    ensures r.Ok? ==> r.value.settings == Some(SettingsFrom(d.settings).value)
  {
    match SettingsFrom(d.settings)
    case Err(e) => Err(e)
    case Ok(s) => Ok(Filter(d.id, d.content, d.description, Some(s), d.additionalField))
  }

  /** `Filter.__init__` with the settings built through `Settings.create`,
      as the filter list's treatment of a filter without settings expects. */
  function FilterFrom(d: FilterDescriptor): (r: Result<Filter, LoadError>)
    ensures r.Ok? <==> SettingsFrom(d.settings).Ok?
    ensures r.Ok? ==> && r.value.id == d.id && r.value.token == d.content
                      && r.value.description == d.description && r.value.exact == d.additionalField
  {
    match CreateFrom(d.settings)
    case Err(e) => Err(e)
    case Ok(s) => Ok(Filter(d.id, d.content, d.description, s, d.additionalField))
  }

  /** The filter's own settings are absent exactly when its settings data
      names no registered entry. */
  lemma FilterFromSettings(d: FilterDescriptor)
    requires SettingsFrom(d.settings).Ok?
    ensures FilterFrom(d).value.settings.None?
        <==> forall i :: 0 <= i < |d.settings| ==> d.settings[i].0 !in ActionNames && d.settings[i].0 !in ValidationNames
    ensures FilterFrom(d).value.settings.Some? ==> FilterFrom(d).value.settings.value == SettingsFrom(d.settings).value
  {
    CreateNoneIffNothingRecognised(d.settings);
  }

  /** Building a filter loads its settings, which may log unknown names. */
  method Build(d: FilterDescriptor, warned: WarnedNames) returns (r: Result<Filter, LoadError>, warnings: seq<string>)
    modifies warned
    ensures r == FilterFrom(d)
    ensures NoDuplicates(warnings)
    ensures forall w :: w in warnings <==> w in warned.names && w !in old(warned.names)
    ensures old(warned.names) <= warned.names <= old(warned.names) + UnknownNames(d.settings)
    ensures r.Ok? ==> warned.names == old(warned.names) + UnknownNames(d.settings)
  {
    var settings;
    settings, warnings := Create(d.settings, warned);
    if settings.Err? {
      r := Err(settings.error);
    } else {
      r := Ok(Filter(d.id, d.content, d.description, settings.value, d.additionalField));
    }
  }

  /** `applies`: every validation setting of the filter approves the context. */
  predicate Applies(f: Filter, ctx: FilterContext) {
    f.settings.None? || Failed(f.settings.value, ctx) == {}
  }

  /** `applies` holds exactly when no validation entry with a value rejects
      the context; vacuously so for a filter without settings. */
  lemma AppliesIffAllTrigger(f: Filter, ctx: FilterContext)
    ensures Applies(f, ctx) <==>
      (f.settings.Some? ==>
        forall n :: n in f.settings.value.validations && f.settings.value.validations[n].Some?
               ==> TriggersOn(f.settings.value.validations[n].value, ctx))
    ensures f.settings.None? ==> Applies(f, ctx)
  {
    if f.settings.Some? {
      var s := f.settings.value;
      if Failed(s, ctx) == {} {
        forall n | n in s.validations && s.validations[n].Some?
          ensures TriggersOn(s.validations[n].value, ctx)
        {
          assert n !in Failed(s, ctx);
        }
      } else {
        var n :| n in Failed(s, ctx);
      }
    }
  }
}
