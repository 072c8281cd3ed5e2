/** The `bypass_roles` validation entry: roles whose holders the filter ignores. */
module BypassRolesSetting {
  import opened Wrappers
  import opened Values
  import opened FilterContexts

  const Name := "bypass_roles"

  datatype RoleBypass = RoleBypass(roles: set<Snowflake>)

  /** `set(entry_data)`: the listed role ids, or a TypeError for anything
      that is not a list of ids. */
  function Create(entryData: Value): (r: Result<RoleBypass, LoadError>)
    ensures r.Ok? <==> IdSet(entryData, Name).Ok?
    ensures r.Ok? ==> forall x :: x in r.value.roles <==> Int(x) in entryData.items
  {
    match IdSet(entryData, Name)
    case Ok(ids) => Ok(RoleBypass(ids))
    case Err(e) => Err(e)
  }

  /** A non-member always triggers; a member triggers when none of its roles bypasses. */
  predicate TriggersOn(e: RoleBypass, ctx: FilterContext) {
    match ctx.author
    case User(_) => true
    case Member(_, roleIds) => forall i :: 0 <= i < |roleIds| ==> roleIds[i] !in e.roles
  }

  /** The set view: a member triggers exactly when its roles and the bypass set are disjoint. */
  lemma TriggersOnIffDisjoint(e: RoleBypass, ctx: FilterContext)
    requires ctx.author.Member?
    ensures TriggersOn(e, ctx) <==> (set i | 0 <= i < |ctx.author.roleIds| :: ctx.author.roleIds[i]) !! e.roles
  {
    var held := set i | 0 <= i < |ctx.author.roleIds| :: ctx.author.roleIds[i];
    if !TriggersOn(e, ctx) {
      var i :| 0 <= i < |ctx.author.roleIds| && ctx.author.roleIds[i] in e.roles;
      assert ctx.author.roleIds[i] in held * e.roles;
    }
  }

  lemma NonMemberAlwaysTriggers(e: RoleBypass, ctx: FilterContext)
    requires ctx.author.User?
    ensures TriggersOn(e, ctx)
  {
  }

  lemma EmptyBypassAlwaysTriggers(ctx: FilterContext)
    ensures TriggersOn(RoleBypass({}), ctx)
  {
  }

  /** Enlarging the bypass set can only turn a trigger into a non-trigger. */
  lemma BypassMonotone(smaller: RoleBypass, larger: RoleBypass, ctx: FilterContext)
    requires smaller.roles <= larger.roles
    ensures TriggersOn(larger, ctx) ==> TriggersOn(smaller, ctx)
  {
  }
}
