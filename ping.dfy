/** The `mentions` action entry: who to ping in the moderators' alert. */
module PingSetting {
  import opened Wrappers
  import opened Values
  import opened Text
  import opened FilterContexts

  const Name := "mentions"

  datatype Ping = Ping(guildMentions: set<Snowflake>, dmMentions: set<Snowflake>)

  /** `Ping.__init__`: both id lists are required. */
  function Create(entryData: Value): (r: Result<Ping, LoadError>)
    ensures r.Ok? <==> (&& Field(entryData, "ping_type").Ok?
                        && IdSet(Field(entryData, "ping_type").value, "ping_type").Ok?
                        && Field(entryData, "dm_ping_type").Ok?
                        && IdSet(Field(entryData, "dm_ping_type").value, "dm_ping_type").Ok?)
    ensures r.Ok? ==> Ok(r.value.guildMentions) == IdSet(entryData.fields["ping_type"], "ping_type")
    ensures r.Ok? ==> Ok(r.value.dmMentions) == IdSet(entryData.fields["dm_ping_type"], "dm_ping_type")
  {
    match Field(entryData, "ping_type")
    case Err(e) => Err(e)
    case Ok(guildRaw) =>
      match IdSet(guildRaw, "ping_type")
      case Err(e) => Err(e)
      case Ok(guild) =>
        match Field(entryData, "dm_ping_type")
        case Err(e) => Err(e)
        case Ok(dmRaw) =>
          match IdSet(dmRaw, "dm_ping_type")
          case Err(e) => Err(e)
          case Ok(dm) => Ok(Ping(guild, dm))
  }

  /** `__or__`: everyone either side pings, in a guild and in DMs separately. */
  function Or(a: Ping, b: Ping): (r: Ping)
    ensures a.guildMentions <= r.guildMentions && b.guildMentions <= r.guildMentions
    ensures a.dmMentions <= r.dmMentions && b.dmMentions <= r.dmMentions
  {
    Ping(a.guildMentions + b.guildMentions, a.dmMentions + b.dmMentions)
  }

  /** The combination adds nobody: it is the least entry covering both sides. */
  lemma OrIsLeastUpperBound(a: Ping, b: Ping, c: Ping)
    requires a.guildMentions <= c.guildMentions && b.guildMentions <= c.guildMentions
    requires a.dmMentions <= c.dmMentions && b.dmMentions <= c.dmMentions
    ensures Or(a, b).guildMentions <= c.guildMentions && Or(a, b).dmMentions <= c.dmMentions
  {
  }

  lemma OrCommutative(a: Ping, b: Ping)
    ensures Or(a, b) == Or(b, a)
  {
  }

  lemma OrIdempotent(a: Ping)
    ensures Or(a, a) == a
  {
  }

  lemma OrAssociative(a: Ping, b: Ping, c: Ping)
    ensures Or(Or(a, b), c) == Or(a, Or(b, c))
  {
  }

  /** `_resolve_mention`: a role mention for one of the guild's roles, a user mention otherwise. */
  function ResolveMention(snowflake: Snowflake, guildRoles: set<Snowflake>): (s: string)
    ensures EndsWith(s, ">")
  {
    if snowflake in guildRoles then "<@&" + Decimal(snowflake) + ">" else "<@" + Decimal(snowflake) + ">"
  }

  /** The mention names a role exactly when the id is one of the guild's roles. */
  lemma ResolveMentionKind(snowflake: Snowflake, guildRoles: set<Snowflake>)
    ensures StartsWith(ResolveMention(snowflake, guildRoles), "<@&") <==> snowflake in guildRoles
    ensures StartsWith(ResolveMention(snowflake, guildRoles), "<@")
  {
    var digits := Decimal(snowflake);
    if snowflake !in guildRoles {
      var s := ResolveMention(snowflake, guildRoles);
      assert s[2] == digits[0];
    }
  }

  /** Different ids never resolve to the same mention. */
  lemma ResolveMentionInjective(x: Snowflake, y: Snowflake, guildRoles: set<Snowflake>)
    requires ResolveMention(x, guildRoles) == ResolveMention(y, guildRoles)
    ensures x == y
  {
    var s := ResolveMention(x, guildRoles);
    ResolveMentionKind(x, guildRoles);
    ResolveMentionKind(y, guildRoles);
    var start := if x in guildRoles then 3 else 2;
    assert Decimal(x) == s[start..|s| - 1];
    assert Decimal(y) == s[start..|s| - 1];
    DecimalInjective(x, y);
  }

  function ResolveAll(ids: seq<Snowflake>, guildRoles: set<Snowflake>): (r: seq<string>)
    ensures |r| == |ids|
    ensures forall i :: 0 <= i < |ids| ==> r[i] == ResolveMention(ids[i], guildRoles)
  {
    seq(|ids|, i requires 0 <= i < |ids| => ResolveMention(ids[i], guildRoles))
  }

  /** `order` lists every element of `s` exactly once. */
  ghost predicate Enumerates(order: seq<Snowflake>, s: set<Snowflake>) {
    && (forall i, j :: 0 <= i < j < |order| ==> order[i] != order[j])
    && (forall x :: x in s <==> x in order)
  }

  /** Iterating a set: Python fixes no order, so any enumeration may come out. */
  method Enumerate(s: set<Snowflake>) returns (order: seq<Snowflake>)
    ensures Enumerates(order, s)
    ensures |order| == |s|
  {
    order := [];
    var rest := s;
    while rest != {}
      invariant rest <= s
      invariant forall i, j :: 0 <= i < j < |order| ==> order[i] != order[j]
      invariant forall x :: x in s <==> x in order || x in rest
      invariant forall x :: x in order ==> x !in rest
      invariant |order| + |rest| == |s|
      decreases rest
    {
      var x :| x in rest;
      order := order + [x];
      rest := rest - {x};
    }
  }

  /** The ids to ping for this context: guild pings in a guild, DM pings otherwise. */
  function Mentions(p: Ping, ctx: FilterContext): set<Snowflake> {
    if ctx.channel.guild.Some? then p.guildMentions else p.dmMentions
  }

  /** `action`: put the resolved pings, space-separated, in front of the
      alert content, which is kept whole after one more space. */
  method Action(p: Ping, ctx: FilterContext, guildRoles: set<Snowflake>)
    modifies ctx`alertContent
    ensures exists order :: (&& Enumerates(order, Mentions(p, ctx))
                             && ctx.alertContent == Join(" ", ResolveAll(order, guildRoles)) + " " + old(ctx.alertContent))
    ensures EndsWith(ctx.alertContent, " " + old(ctx.alertContent))
  {
    var order := Enumerate(Mentions(p, ctx));
    var pings := Join(" ", ResolveAll(order, guildRoles));
    var tail := " " + ctx.alertContent;
    assert pings + " " + ctx.alertContent == pings + tail;
    EndsWithAppended(pings, tail);
    ctx.alertContent := pings + tail;
  }
}
