/** The `enabled` validation entry: whether the filter is switched on. */
module EnabledSetting {
  import opened Values
  import opened FilterContexts

  const Name := "enabled"

  /** The configured value is kept as it was loaded. */
  datatype Enabled = Enabled(enabled: Value)

  function Create(entryData: Value): (e: Enabled)
    ensures e.enabled == entryData
  {
    Enabled(entryData)
  }

  /** `triggers_on` returns the stored value; callers read it as a truth value. */
  predicate TriggersOn(e: Enabled, ctx: FilterContext) {
    Truthy(e.enabled)
  }

  /** The answer depends on the stored flag alone, never on the context. */
  lemma TriggersOnIgnoresContext(e: Enabled, ctx1: FilterContext, ctx2: FilterContext)
    ensures TriggersOn(e, ctx1) == TriggersOn(e, ctx2)
    ensures TriggersOn(e, ctx1) <==> Truthy(e.enabled)
  {
  }
}
