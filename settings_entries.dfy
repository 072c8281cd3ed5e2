/** The registry of setting entries by name, split into the action kind
    (what to do when a filter triggers) and the validation kind (whether a
    filter should trigger at all). The registry module is not part of this
    model; the seven entry types below are the ones it registers. */
module SettingsEntries {
  import opened Wrappers
  import opened Values
  import opened FilterContexts
  import EnabledSetting
  import FilterDmSetting
  import BypassRolesSetting
  import ChannelScopeSetting
  import DeleteMessagesSetting
  import PingSetting
  import InfractionAndNotificationSetting

  datatype ValidationEntry =
    | EnabledEntry(enabled: EnabledSetting.Enabled)
    | FilterDmEntry(filterDm: FilterDmSetting.FilterDM)
    | BypassRolesEntry(bypass: BypassRolesSetting.RoleBypass)
    | ChannelScopeEntry(scope: ChannelScopeSetting.ChannelScope)

  datatype ActionEntry =
    | DeleteMessagesEntry(delete: DeleteMessagesSetting.DeleteMessages)
    | PingEntry(ping: PingSetting.Ping)
    | InfractionEntry(infraction: InfractionAndNotificationSetting.InfractionAndNotification)

  const ValidationNames: set<string> :=
    {EnabledSetting.Name, FilterDmSetting.Name, BypassRolesSetting.Name, ChannelScopeSetting.Name}

  const ActionNames: set<string> :=
    {DeleteMessagesSetting.Name, PingSetting.Name, InfractionAndNotificationSetting.Name}

  /** The class attribute `name` of a validation entry. */
  function ValidationName(v: ValidationEntry): (name: string)
    ensures name in ValidationNames
  {
    match v
    case EnabledEntry(_) => EnabledSetting.Name
    case FilterDmEntry(_) => FilterDmSetting.Name
    case BypassRolesEntry(_) => BypassRolesSetting.Name
    case ChannelScopeEntry(_) => ChannelScopeSetting.Name
  }

  /** The class attribute `name` of an action entry. */
  function ActionName(a: ActionEntry): (name: string)
    ensures name in ActionNames
  {
    match a
    case DeleteMessagesEntry(_) => DeleteMessagesSetting.Name
    case PingEntry(_) => PingSetting.Name
    case InfractionEntry(_) => InfractionAndNotificationSetting.Name
  }

  /** Names are unique across both kinds, so a name picks one entry type. */
  lemma RegistryNamesUnique()
    ensures ActionNames * ValidationNames == {}
    ensures |ActionNames| == 3 && |ValidationNames| == 4
  {
  }

  /** An action name is never a validation name. */
  lemma ActionNameNotValidation(n: string)
    requires n in ActionNames
    ensures n !in ValidationNames
  {
    RegistryNamesUnique();
  }

  /** `settings_types["validation"][name].create(value)`: no entry when the
      value holds nothing, otherwise the named entry built from it. */
  function CreateValidation(name: string, raw: Value): (r: Result<Option<ValidationEntry>, LoadError>)
    requires name in ValidationNames
    ensures !HoldsValue(raw) ==> r == Ok(None)
    ensures r.Ok? && r.value.Some? ==> HoldsValue(raw) && ValidationName(r.value.value) == name
  {
    if !HoldsValue(raw) then Ok(None)
    else if name == EnabledSetting.Name then Ok(Some(EnabledEntry(EnabledSetting.Create(raw))))
    else if name == FilterDmSetting.Name then Ok(Some(FilterDmEntry(FilterDmSetting.Create(raw))))
    else if name == BypassRolesSetting.Name then
      match BypassRolesSetting.Create(raw)
      case Err(e) => Err(e)
      case Ok(b) => Ok(Some(BypassRolesEntry(b)))
    else
      match ChannelScopeSetting.Create(raw)
      case Err(e) => Err(e)
      case Ok(s) => Ok(Some(ChannelScopeEntry(s)))
  }

  /** `settings_types["action"][name].create(value)` */
  function CreateAction(name: string, raw: Value): (r: Result<Option<ActionEntry>, LoadError>)
    requires name in ActionNames
    ensures !HoldsValue(raw) ==> r == Ok(None)
    ensures r.Ok? && r.value.Some? ==> HoldsValue(raw) && ActionName(r.value.value) == name
  {
    if !HoldsValue(raw) then Ok(None)
    else if name == DeleteMessagesSetting.Name then Ok(Some(DeleteMessagesEntry(DeleteMessagesSetting.Create(raw))))
    else if name == PingSetting.Name then
      match PingSetting.Create(raw)
      case Err(e) => Err(e)
      case Ok(p) => Ok(Some(PingEntry(p)))
    else
      match InfractionAndNotificationSetting.Create(raw)
      case Err(e) => Err(e)
      case Ok(i) => Ok(Some(InfractionEntry(i)))
  }

  /** `triggers_on`, dispatched to the entry's own type. */
  predicate TriggersOn(v: ValidationEntry, ctx: FilterContext) {
    match v
    case EnabledEntry(e) => EnabledSetting.TriggersOn(e, ctx)
    case FilterDmEntry(f) => FilterDmSetting.TriggersOn(f, ctx)
    case BypassRolesEntry(b) => BypassRolesSetting.TriggersOn(b, ctx)
    case ChannelScopeEntry(s) => ChannelScopeSetting.TriggersOn(s, ctx)
  }

  /** `a | b`: entries of the same type combine by that type's `__or__`;
      any other pair gives NotImplemented, here None. */
  function Combine(a: ActionEntry, b: ActionEntry): (r: Option<ActionEntry>)
    ensures r.Some? <==> ActionName(a) == ActionName(b)
    ensures r.Some? ==> ActionName(r.value) == ActionName(a)
    ensures a.DeleteMessagesEntry? && b.DeleteMessagesEntry? ==>
      r == Some(DeleteMessagesEntry(DeleteMessagesSetting.Or(a.delete, b.delete)))
    ensures a.PingEntry? && b.PingEntry? ==> r == Some(PingEntry(PingSetting.Or(a.ping, b.ping)))
    ensures a.InfractionEntry? && b.InfractionEntry? ==>
      r == Some(InfractionEntry(InfractionAndNotificationSetting.Or(a.infraction, b.infraction)))
  {
    match (a, b)
    case (DeleteMessagesEntry(x), DeleteMessagesEntry(y)) => Some(DeleteMessagesEntry(DeleteMessagesSetting.Or(x, y)))
    case (PingEntry(x), PingEntry(y)) => Some(PingEntry(PingSetting.Or(x, y)))
    case (InfractionEntry(x), InfractionEntry(y)) => Some(InfractionEntry(InfractionAndNotificationSetting.Or(x, y)))
    case _ => None
  }
}
