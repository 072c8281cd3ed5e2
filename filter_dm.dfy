/** The `filter_dm` validation entry: whether the filter also applies in DMs. */
module FilterDmSetting {
  import opened Wrappers
  import opened Values
  import opened FilterContexts

  const Name := "filter_dm"

  datatype FilterDM = FilterDM(applyInDm: Value)

  function Create(entryData: Value): (e: FilterDM)
    ensures e.applyInDm == entryData
  {
    FilterDM(entryData)
  }

  /** Triggers in a guild channel, and in a DM exactly when `apply_in_dm` is set. */
  predicate TriggersOn(e: FilterDM, ctx: FilterContext) {
    ctx.channel.guild.Some? || Truthy(e.applyInDm)
  }

  lemma TriggersOnCases(e: FilterDM, ctx: FilterContext)
    ensures ctx.channel.guild.Some? ==> TriggersOn(e, ctx)
    ensures ctx.channel.guild.None? ==> (TriggersOn(e, ctx) <==> Truthy(e.applyInDm))
    ensures Truthy(e.applyInDm) ==> TriggersOn(e, ctx)
  {
  }
}
