/** The `channel_scope` validation entry: channels and categories where the
    filter is switched off, and channels where it is switched back on. */
module ChannelScopeSetting {
  import opened Wrappers
  import opened Values
  import opened FilterContexts

  const Name := "channel_scope"

  datatype ChannelScope = ChannelScope(
    disabledChannels: set<Snowflake>,
    disabledCategories: set<Snowflake>,
    enabledChannels: set<Snowflake>)

  /** One of the three id lists: a null or empty list gives the empty set. */
  function IdsOrEmpty(entryData: Value, key: string): (r: Result<set<Snowflake>, LoadError>)
    ensures Field(entryData, key).Ok? && !Truthy(Field(entryData, key).value) ==> r == Ok({})
    ensures Field(entryData, key).Ok? && Truthy(Field(entryData, key).value) ==> r == IdSet(Field(entryData, key).value, key)
    ensures Field(entryData, key).Err? ==> r == Err(Field(entryData, key).error)
    ensures entryData.Dict? && key !in entryData.fields ==> r == Err(KeyError(key))
  {
    match Field(entryData, key)
    case Err(e) => Err(e)
    case Ok(v) => if Truthy(v) then IdSet(v, key) else Ok({})
  }

  /** `ChannelScope.__init__`: reads the three lists in order. */
  function Create(entryData: Value): (r: Result<ChannelScope, LoadError>)
    ensures r.Ok? ==> Ok(r.value.disabledChannels) == IdsOrEmpty(entryData, "disabled_channels")
    ensures r.Ok? ==> Ok(r.value.disabledCategories) == IdsOrEmpty(entryData, "disabled_categories")
    ensures r.Ok? ==> Ok(r.value.enabledChannels) == IdsOrEmpty(entryData, "enabled_channels")
    ensures r.Err? ==> (|| IdsOrEmpty(entryData, "disabled_channels").Err?
                        || IdsOrEmpty(entryData, "disabled_categories").Err?
                        || IdsOrEmpty(entryData, "enabled_channels").Err?)
  {
    match IdsOrEmpty(entryData, "disabled_channels")
    case Err(e) => Err(e)
    case Ok(dc) =>
      match IdsOrEmpty(entryData, "disabled_categories")
      case Err(e) => Err(e)
      case Ok(dk) =>
        match IdsOrEmpty(entryData, "enabled_channels")
        case Err(e) => Err(e)
        case Ok(ec) => Ok(ChannelScope(dc, dk, ec))
  }

  /** A thread is judged by the channel it belongs to. */
  function ScopeChannel(channel: Channel): Channel {
    if channel.parent.Some? then channel.parent.value else channel
  }

  /** Triggers when the channel is explicitly enabled, or when neither the
      channel nor its category is disabled. */
  predicate TriggersOn(scope: ChannelScope, ctx: FilterContext) {
    var channel := ScopeChannel(ctx.channel);
    channel.id in scope.enabledChannels
    || (channel.id !in scope.disabledChannels
        && (channel.category.None? || channel.category.value !in scope.disabledCategories))
  }

  /** The decision as the precedence the class comment describes: an
      enabled channel wins; otherwise a disabled channel or a disabled
      category loses; otherwise the filter applies. */
  lemma TriggersOnPrecedence(scope: ChannelScope, ctx: FilterContext)
    ensures var channel := ScopeChannel(ctx.channel);
      && (channel.id in scope.enabledChannels ==> TriggersOn(scope, ctx))
      && ((channel.id !in scope.enabledChannels && channel.id in scope.disabledChannels)
          ==> !TriggersOn(scope, ctx))
      && ((channel.id !in scope.enabledChannels && channel.category.Some?
           && channel.category.value in scope.disabledCategories)
          ==> !TriggersOn(scope, ctx))
      && (channel.id !in scope.disabledChannels && channel.category.None? ==> TriggersOn(scope, ctx))
  {
  }

  /** A thread answers as its parent channel would. */
  lemma ThreadJudgedByParent(scope: ChannelScope, thread: FilterContext, parentCtx: FilterContext)
    requires thread.channel.parent.Some? && parentCtx.channel == thread.channel.parent.value
    requires parentCtx.channel.parent.None?
    ensures TriggersOn(scope, thread) <==> TriggersOn(scope, parentCtx)
  {
  }

  /** With nothing disabled, every channel triggers. */
  lemma EmptyScopeAlwaysTriggers(ctx: FilterContext)
    ensures TriggersOn(ChannelScope({}, {}, {}), ctx)
  {
  }

  /** As written, line 47 tests the category OBJECT against a set of ids, so
      the test never succeeds and a disabled category never disables. */
  predicate TriggersOnAsWritten(scope: ChannelScope, ctx: FilterContext) {
    var channel := ScopeChannel(ctx.channel);
    channel.id in scope.enabledChannels || channel.id !in scope.disabledChannels
  }

  /** A channel in a disabled category still triggers as written. */
  lemma CategoryIgnoredAsWritten(ctx: FilterContext)
    requires ctx.channel == Channel(1, Some(10), Some(20), None)
    ensures TriggersOnAsWritten(ChannelScope({}, {20}, {}), ctx)
    ensures !TriggersOn(ChannelScope({}, {20}, {}), ctx)
  {
  }
}
