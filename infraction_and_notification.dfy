/** The `infraction_and_notification` action entry: which infraction to issue
    and what to DM the user. Banned or kicked users cannot be DMed afterwards,
    so the two responses are one entry. */
module InfractionAndNotificationSetting {
  import opened Wrappers
  import opened Values
  import opened Text
  import opened FilterContexts

  const Name := "infraction_and_notification"

  /** Infraction types in declaration order: the earlier, the more severe. */
  datatype Infraction = Ban | Kick | Mute | VoiceBan | Warning | Watch | Superstar | Note | NoInfraction

  /** Position in the declaration; a lower rank is higher in the hierarchy. */
  function Rank(t: Infraction): (r: nat)
    ensures r < 9
  {
    match t
    case Ban => 0
    case Kick => 1
    case Mute => 2
    case VoiceBan => 3
    case Warning => 4
    case Watch => 5
    case Superstar => 6
    case Note => 7
    case NoInfraction => 8
  }

  lemma RankInjective(s: Infraction, t: Infraction)
    ensures Rank(s) == Rank(t) <==> s == t
  {
  }

  /** `Infraction.X.name` */
  function MemberName(t: Infraction): string {
    match t
    case Ban => "BAN"
    case Kick => "KICK"
    case Mute => "MUTE"
    case VoiceBan => "VOICE_BAN"
    case Warning => "WARNING"
    case Watch => "WATCH"
    case Superstar => "SUPERSTAR"
    case Note => "NOTE"
    case NoInfraction => "NONE"
  }

  /** `Infraction[name]`, with None standing for the KeyError. */
  function Lookup(name: string): (r: Option<Infraction>)
    ensures r.Some? ==> MemberName(r.value) == name
  {
    if name == "BAN" then Some(Ban)
    else if name == "KICK" then Some(Kick)
    else if name == "MUTE" then Some(Mute)
    else if name == "VOICE_BAN" then Some(VoiceBan)
    else if name == "WARNING" then Some(Warning)
    else if name == "WATCH" then Some(Watch)
    else if name == "SUPERSTAR" then Some(Superstar)
    else if name == "NOTE" then Some(Note)
    else if name == "NONE" then Some(NoInfraction)
    else None
  }

  lemma LookupMemberName(t: Infraction)
    ensures Lookup(MemberName(t)) == Some(t)
  {
  }

  /** `.replace(" ", "_").upper()` on one character (ASCII case mapping). */
  function NormaliseChar(c: char): char {
    if c == ' ' then '_'
    else if 'a' <= c <= 'z' then (c as int - 'a' as int + 'A' as int) as char
    else c
  }

  function Normalise(raw: string): (r: string)
    ensures |r| == |raw|
    ensures forall i :: 0 <= i < |raw| ==> r[i] == NormaliseChar(raw[i])
  {
    if raw == [] then [] else Normalise(raw[..|raw| - 1]) + [NormaliseChar(raw[|raw| - 1])]
  }

  /** A string already made of capitals and underscores is left as it is. */
  lemma NormaliseFixesNames(s: string)
    requires forall i :: 0 <= i < |s| ==> s[i] == '_' || 'A' <= s[i] <= 'Z'
    ensures Normalise(s) == s
  {
    var r := Normalise(s);
    forall i | 0 <= i < |s|
      ensures r[i] == s[i]
    {
      assert r[i] == NormaliseChar(s[i]);
    }
  }

  /** The type read by `__init__`: a falsy value is NONE, a string names a
      member once spaces become underscores and letters capitals. */
  function ParseType(raw: Value): (r: Result<Infraction, LoadError>)
    ensures !Truthy(raw) ==> r == Ok(NoInfraction)
    ensures r.Ok? && Truthy(raw) ==> raw.Str? && MemberName(r.value) == Normalise(raw.s)
  {
    if !Truthy(raw) then Ok(NoInfraction)
    else if !raw.Str? then Err(AttributeError("replace"))
    else
      match Lookup(Normalise(raw.s))
      case Some(t) => Ok(t)
      case None => Err(KeyError(Normalise(raw.s)))
  }

  /** The stored name of a type reads back as that type, which is what
      lets `__or__` rebuild its result through `__init__`. */
  lemma ParseTypeRoundTrip(t: Infraction)
    ensures ParseType(Str(MemberName(t))) == Ok(t)
  {
    var name := MemberName(t);
    MemberNameCapitals(t);
    NormaliseFixesNames(name);
    assert Normalise(name) == name;
    LookupMemberName(t);
  }

  /** Member names are non-empty and made of capitals and underscores. */
  lemma MemberNameCapitals(t: Infraction)
    ensures |MemberName(t)| > 0
    ensures forall i :: 0 <= i < |MemberName(t)| ==> MemberName(t)[i] == '_' || 'A' <= MemberName(t)[i] <= 'Z'
  {
  }

  /** The optional superstar side-channel: a reason and a duration. */
  datatype SuperstarData = SuperstarData(reason: string, duration: int)

  datatype InfractionAndNotification = InfractionAndNotification(
    infractionType: Infraction,
    infractionReason: string,
    infractionDuration: int,
    dmContent: string,
    dmEmbed: string,
    superstar: Option<SuperstarData>)

  /** `infraction_duration`, in whole seconds. */
  function Duration(raw: Value): (r: Result<int, LoadError>)
    ensures r.Ok? <==> raw.Int?
  {
    if raw.Int? then Ok(raw.i) else Err(TypeError("infraction_duration"))
  }

  /** `entry_data.get("superstar", None)`: absent, null or empty means none. */
  function SuperstarField(entryData: Value): (r: Result<Option<SuperstarData>, LoadError>)
    requires entryData.Dict?
    ensures "superstar" !in entryData.fields ==> r == Ok(None)
  {
    if "superstar" !in entryData.fields then Ok(None)
    else
      var raw := entryData.fields["superstar"];
      if !Truthy(raw) then Ok(None)
      else if raw.List? && |raw.items| == 2 && (raw.items[0].Str? || raw.items[0].Null?) && raw.items[1].Int? then
        Ok(Some(SuperstarData(if raw.items[0].Str? then raw.items[0].s else "", raw.items[1].i)))
      else Err(TypeError("superstar"))
  }

  /** The fields `__init__` reads with `entry_data[...]`; a missing one is a KeyError. */
  const RequiredFields: set<string> := {"infraction_type", "infraction_reason", "infraction_duration", "dm_content", "dm_embed"}

  /** `InfractionAndNotification.__init__`: the fields in the order it reads them. */
  function Create(entryData: Value): (r: Result<InfractionAndNotification, LoadError>)
    ensures r.Ok? ==>
      && entryData.Dict?
      && "infraction_type" in entryData.fields
      && "infraction_reason" in entryData.fields
      && "infraction_duration" in entryData.fields
      && Ok(r.value.infractionType) == ParseType(entryData.fields["infraction_type"])
      && Ok(r.value.infractionReason) == TextField(entryData.fields["infraction_reason"], "infraction_reason")
      && Ok(r.value.infractionDuration) == Duration(entryData.fields["infraction_duration"])
      && "dm_content" in entryData.fields && "dm_embed" in entryData.fields
      && Ok(r.value.dmContent) == TextField(entryData.fields["dm_content"], "dm_content")
      && Ok(r.value.dmEmbed) == TextField(entryData.fields["dm_embed"], "dm_embed")
      && Ok(r.value.superstar) == SuperstarField(entryData)
    ensures !entryData.Dict? ==> r == Err(TypeError("infraction_type"))
    ensures entryData.Dict? && "infraction_type" !in entryData.fields ==> r == Err(KeyError("infraction_type"))
    ensures entryData.Dict? ==> forall k :: k in RequiredFields && k !in entryData.fields ==> r.Err?
  {
    match Field(entryData, "infraction_type")
    case Err(e) => Err(e)
    case Ok(rawType) =>
      match ParseType(rawType)
      case Err(e) => Err(e)
      case Ok(infractionType) =>
        match Field(entryData, "infraction_reason")
        case Err(e) => Err(e)
        case Ok(rawReason) =>
          match TextField(rawReason, "infraction_reason")
          case Err(e) => Err(e)
          case Ok(reason) =>
            match Field(entryData, "infraction_duration")
            case Err(e) => Err(e)
            case Ok(rawDuration) =>
              match Duration(rawDuration)
              case Err(e) => Err(e)
              case Ok(duration) =>
                match Field(entryData, "dm_content")
                case Err(e) => Err(e)
                case Ok(rawContent) =>
                  match TextField(rawContent, "dm_content")
                  case Err(e) => Err(e)
                  case Ok(dmContent) =>
                    match Field(entryData, "dm_embed")
                    case Err(e) => Err(e)
                    case Ok(rawEmbed) =>
                      match TextField(rawEmbed, "dm_embed")
                      case Err(e) => Err(e)
                      case Ok(dmEmbed) =>
                        match SuperstarField(entryData)
                        case Err(e) => Err(e)
                        case Ok(superstar) =>
                          Ok(InfractionAndNotification(infractionType, reason, duration, dmContent, dmEmbed, superstar))
  }

  // ---------------------------------------------------------------- messages

  const Bullet: char := '\U{2022}'

  /** One message as a bullet point, unless it already starts with one. */
  function Bulleted(message: string): (r: string)
    ensures |r| > 0 && r[0] == Bullet
    ensures EndsWith(r, message)
  {
    if |message| > 0 && message[0] == Bullet then message else [Bullet, ' '] + message
  }

  /** `_merge_messages`: two messages as bullet points of one, separated by a blank line. */
  function MergeMessages(message1: string, message2: string): (r: string)
    ensures message1 == "" ==> r == message2
    ensures message2 == "" ==> r == message1
  {
    if message1 == "" && message2 == "" then ""
    else if message1 == "" then message2
    else if message2 == "" then message1
    else Bulleted(message1) + "\n\n" + Bulleted(message2)
  }

  /** A bullet is never added twice. */
  lemma BulletedIdempotent(message: string)
    ensures Bulleted(Bulleted(message)) == Bulleted(message)
  {
  }

  /** Two non-empty messages: each one bulleted once, blank line between,
      both kept whole, and the result a bullet list again. */
  lemma MergeNonEmpty(message1: string, message2: string)
    requires message1 != "" && message2 != ""
    ensures MergeMessages(message1, message2) == Bulleted(message1) + "\n\n" + Bulleted(message2)
    ensures Bulleted(MergeMessages(message1, message2)) == MergeMessages(message1, message2)
    ensures EndsWith(MergeMessages(message1, message2), message2)
  {
    var r := MergeMessages(message1, message2);
    var b2 := Bulleted(message2);
    assert r[|r| - |b2|..] == b2;
    assert r[|r| - |message2|..] == b2[|b2| - |message2|..];
  }

  /** Merging is associative with "" as its unit, so a fold of many messages
      gives the same bullet list whichever way it is bracketed. */
  lemma {:induction false} MergeAssociative(a: string, b: string, c: string)
    ensures MergeMessages(MergeMessages(a, b), c) == MergeMessages(a, MergeMessages(b, c))
  {
    if a == "" || b == "" || c == "" {
    } else {
      MergeNonEmpty(a, b);
      MergeNonEmpty(b, c);
      var ab := MergeMessages(a, b);
      var bc := MergeMessages(b, c);
      var x, y, z := Bulleted(a), Bulleted(b), Bulleted(c);
      assert ab == x + "\n\n" + y;
      assert bc == y + "\n\n" + z;
      MergeNonEmpty(ab, c);
      MergeNonEmpty(a, bc);
      assert MergeMessages(ab, c) == ab + "\n\n" + z;
      assert MergeMessages(a, bc) == x + "\n\n" + bc;
      JoinAssociative(x, "\n\n", y, z);
    }
  }

  lemma JoinAssociative(x: string, sep: string, y: string, z: string)
    ensures (x + sep + y) + sep + z == x + sep + (y + sep + z)
  {
  }

  // ----------------------------------------------------------------- combine

  function Max(a: int, b: int): int {
    if a >= b then a else b
  }

  /** The more severe side (`higher` at lines 121-124). */
  function MoreSevere(a: InfractionAndNotification, b: InfractionAndNotification): (r: InfractionAndNotification)
    ensures r == a || r == b
    ensures Rank(r.infractionType) <= Rank(a.infractionType) && Rank(r.infractionType) <= Rank(b.infractionType)
  {
    if Rank(a.infractionType) > Rank(b.infractionType) then b else a
  }

  /** The superstar a SUPERSTAR entry stands for: its own side-channel when
      it has one, otherwise its reason and duration. */
  function StarData(star: InfractionAndNotification): (r: SuperstarData)
    ensures star.superstar.Some? ==> r == star.superstar.value
    ensures star.superstar.None? ==> r == SuperstarData(star.infractionReason, star.infractionDuration)
  {
    match star.superstar
    case Some(s) => s
    case None => SuperstarData(star.infractionReason, star.infractionDuration)
  }

  /** The superstar side-channel when exactly one side is SUPERSTAR: that
      side's superstar merged with the first side-channel present on either
      entry (reasons merged, longest duration), or that superstar alone when
      neither entry has a side-channel. */
  function SuperstarSide(a: InfractionAndNotification, b: InfractionAndNotification): SuperstarData
    requires a.infractionType != b.infractionType
    requires a.infractionType == Superstar || b.infractionType == Superstar
  {
    var own := StarData(if a.infractionType == Superstar then a else b);
    var existing := if a.superstar.Some? then a.superstar else b.superstar;
    match existing
    case Some(s) => SuperstarData(MergeMessages(own.reason, s.reason), Max(own.duration, s.duration))
    case None => own
  }

  /** Rank used to pick the primary type of a combination: SUPERSTAR gives
      way to any other type, which then carries the superstar aside. */
  function PrimaryRank(t: Infraction): (r: nat)
    ensures r == Rank(t) || t == Superstar
  {
    if t == Superstar then 9 else Rank(t)
  }

  lemma PrimaryRankInjective(s: Infraction, t: Infraction)
    ensures PrimaryRank(s) == PrimaryRank(t) <==> s == t
  {
  }

  /** `__or__` of two entries of this kind. */
  function Or(a: InfractionAndNotification, b: InfractionAndNotification): (r: InfractionAndNotification)
    ensures r.infractionType == a.infractionType || r.infractionType == b.infractionType
    ensures PrimaryRank(r.infractionType) <= PrimaryRank(a.infractionType)
    ensures PrimaryRank(r.infractionType) <= PrimaryRank(b.infractionType)
  {
    if a.infractionType != b.infractionType && (a.infractionType == Superstar || b.infractionType == Superstar) then
      var primary := if a.infractionType != Superstar then a else b;
      primary.(superstar := Some(SuperstarSide(a, b)))
    else
      var higher := MoreSevere(a, b);
      InfractionAndNotification(
        higher.infractionType,
        MergeMessages(a.infractionReason, b.infractionReason),
        if a.infractionType != b.infractionType then higher.infractionDuration
        else Max(a.infractionDuration, b.infractionDuration),
        MergeMessages(a.dmContent, b.dmContent),
        MergeMessages(a.dmEmbed, b.dmEmbed),
        if a.superstar.Some? then a.superstar else b.superstar)
  }

  /** Different types, neither SUPERSTAR: the more severe type wins and keeps
      its own duration; the other duration is dropped. */
  lemma OrDifferentTypes(a: InfractionAndNotification, b: InfractionAndNotification)
    requires a.infractionType != b.infractionType
    requires a.infractionType != Superstar && b.infractionType != Superstar
    ensures var r := Or(a, b);
      && Rank(r.infractionType) < Rank(if r.infractionType == a.infractionType then b.infractionType else a.infractionType)
      && r.infractionDuration == (if r.infractionType == a.infractionType then a.infractionDuration else b.infractionDuration)
  {
  }

  /** The same type on both sides: kept, with the longer duration. */
  lemma OrSameType(a: InfractionAndNotification, b: InfractionAndNotification)
    requires a.infractionType == b.infractionType
    ensures Or(a, b).infractionType == a.infractionType
    ensures Or(a, b).infractionDuration >= a.infractionDuration
    ensures Or(a, b).infractionDuration >= b.infractionDuration
    ensures Or(a, b).infractionDuration == a.infractionDuration || Or(a, b).infractionDuration == b.infractionDuration
  {
  }

  /** Unless exactly one side is SUPERSTAR, the texts are merged in operand
      order and the first side-channel present is kept. */
  lemma OrMergesMessages(a: InfractionAndNotification, b: InfractionAndNotification)
    requires a.infractionType == b.infractionType || (a.infractionType != Superstar && b.infractionType != Superstar)
    ensures Or(a, b).infractionReason == MergeMessages(a.infractionReason, b.infractionReason)
    ensures Or(a, b).dmContent == MergeMessages(a.dmContent, b.dmContent)
    ensures Or(a, b).dmEmbed == MergeMessages(a.dmEmbed, b.dmEmbed)
    ensures Or(a, b).superstar == (if a.superstar.Some? then a.superstar else b.superstar)
  {
  }

  /** Exactly one side SUPERSTAR: the other side's infraction and DM pass
      through untouched, and the superstar becomes the side-channel. */
  lemma OrOneSuperstar(a: InfractionAndNotification, b: InfractionAndNotification)
    requires a.infractionType != b.infractionType
    requires a.infractionType == Superstar || b.infractionType == Superstar
    ensures var other := if a.infractionType == Superstar then b else a;
      Or(a, b) == other.(superstar := Some(SuperstarSide(a, b)))
  {
  }

  /** The side-channel lasts at least as long as the superstar and as an
      existing side-channel, keeps the existing reason at its end, and is
      the SUPERSTAR entry's own reason and duration when neither entry has one. */
  lemma SuperstarSideKeepsBoth(a: InfractionAndNotification, b: InfractionAndNotification)
    requires a.infractionType != b.infractionType
    requires a.infractionType == Superstar || b.infractionType == Superstar
    ensures var star := if a.infractionType == Superstar then a else b;
      && SuperstarSide(a, b).duration >= StarData(star).duration
      && (a.superstar.None? && b.superstar.None? ==>
            SuperstarSide(a, b) == SuperstarData(star.infractionReason, star.infractionDuration))
    ensures var existing := if a.superstar.Some? then a.superstar else b.superstar;
      existing.Some? ==>
        && SuperstarSide(a, b).duration >= existing.value.duration
        && EndsWith(SuperstarSide(a, b).reason, existing.value.reason)
  {
    var star := if a.infractionType == Superstar then a else b;
    var existing := if a.superstar.Some? then a.superstar else b.superstar;
    var own := StarData(star);
    assert SuperstarSide(a, b) == if existing.Some?
      then SuperstarData(MergeMessages(own.reason, existing.value.reason), Max(own.duration, existing.value.duration))
      else own;
    if existing.Some? {
      var m1, m2 := own.reason, existing.value.reason;
      if m1 != "" && m2 != "" {
        MergeNonEmpty(m1, m2);
      } else if m2 == "" {
        assert EndsWith(MergeMessages(m1, m2), m2);
      }
    }
  }

  /** The primary outcome of an entry: its infraction type and duration. */
  datatype Primary = Primary(infraction: Infraction, duration: int)

  function PrimaryOf(e: InfractionAndNotification): Primary {
    Primary(e.infractionType, e.infractionDuration)
  }

  /** Reference definition of the primary outcome of a combination: the
      lower primary rank wins; on a tie the longer duration. */
  function CombinePrimary(p: Primary, q: Primary): Primary {
    if PrimaryRank(p.infraction) < PrimaryRank(q.infraction) then p
    else if PrimaryRank(q.infraction) < PrimaryRank(p.infraction) then q
    else Primary(p.infraction, Max(p.duration, q.duration))
  }

  /** `__or__` decides the primary outcome by the reference definition. */
  lemma OrPrimary(a: InfractionAndNotification, b: InfractionAndNotification)
    ensures PrimaryOf(Or(a, b)) == CombinePrimary(PrimaryOf(a), PrimaryOf(b))
  {
    PrimaryRankInjective(a.infractionType, b.infractionType);
  }

  lemma CombinePrimaryCommutative(p: Primary, q: Primary)
    ensures CombinePrimary(p, q) == CombinePrimary(q, p)
  {
    PrimaryRankInjective(p.infraction, q.infraction);
  }

  lemma CombinePrimaryAssociative(p: Primary, q: Primary, s: Primary)
    ensures CombinePrimary(CombinePrimary(p, q), s) == CombinePrimary(p, CombinePrimary(q, s))
  {
    PrimaryRankInjective(p.infraction, q.infraction);
    PrimaryRankInjective(q.infraction, s.infraction);
    PrimaryRankInjective(p.infraction, s.infraction);
  }

  /** Whatever order triggered filters are folded in, the infraction issued
      and its duration are the same; only the texts depend on the order. */
  lemma {:induction false} OrPrimaryOrderIndependent(a: InfractionAndNotification, b: InfractionAndNotification, c: InfractionAndNotification)
    ensures PrimaryOf(Or(a, b)) == PrimaryOf(Or(b, a))
    ensures PrimaryOf(Or(Or(a, b), c)) == PrimaryOf(Or(a, Or(b, c)))
  {
    OrPrimary(a, b);
    OrPrimary(b, a);
    CombinePrimaryCommutative(PrimaryOf(a), PrimaryOf(b));
    OrPrimary(Or(a, b), c);
    OrPrimary(b, c);
    OrPrimary(a, Or(b, c));
    CombinePrimaryAssociative(PrimaryOf(a), PrimaryOf(b), PrimaryOf(c));
  }

  // ------------------------------------------------------------------ action

  /** `Colour.og_blurple()` */
  const OgBlurple: int := 0x7289DA

  /** Whether `action` issues the primary infraction. */
  predicate IssuesInfraction(t: Infraction) {
    t != NoInfraction
  }

  /** The channel the bot's reply to an invoked command goes to: bans and
      infractions issued from DMs are reported in the moderators' alerts. */
  function ReplyChannel(t: Infraction, inGuild: bool): (c: InvokeChannel)
    ensures c == ModAlerts <==> t == Ban || !inGuild
  {
    if t == Ban || !inGuild then ModAlerts else OriginChannel
  }

  /** The commands `action` invokes after the DM, in order: the superstar
      side-channel when set, then the primary infraction when there is one. */
  function Commands(entry: InfractionAndNotification, user: Snowflake, inGuild: bool): (r: seq<Effect>)
    ensures |r| == (if entry.superstar.Some? then 1 else 0) + (if IssuesInfraction(entry.infractionType) then 1 else 0)
    ensures forall i :: 0 <= i < |r| ==> r[i].Invoke? && r[i].user == user
    ensures entry.superstar.Some? ==>
      r[0] == Invoke("superstar", user, entry.superstar.value.duration, entry.superstar.value.reason, OriginChannel)
    ensures IssuesInfraction(entry.infractionType) ==>
      r[|r| - 1] == Invoke(MemberName(entry.infractionType), user, entry.infractionDuration, entry.infractionReason,
                           ReplyChannel(entry.infractionType, inGuild))
  {
    (if entry.superstar.Some?
     then [Invoke("superstar", user, entry.superstar.value.duration, entry.superstar.value.reason, OriginChannel)]
     else [])
    + (if IssuesInfraction(entry.infractionType)
       then [Invoke(MemberName(entry.infractionType), user, entry.infractionDuration, entry.infractionReason,
                    ReplyChannel(entry.infractionType, inGuild))]
       else [])
  }

  /** `action`: compose the DM, send it (to the channel instead when the
      user does not accept DMs), then invoke the superstar side-channel and
      the infraction. Each outward call is returned in order instead of made. */
  method Action(entry: InfractionAndNotification, ctx: FilterContext, dmForbidden: bool)
    returns (effects: seq<Effect>)
    modifies ctx`dmEmbed, ctx`dmText
    ensures ctx.dmEmbed.description
         == "Hey " + Mention(ctx.author) + "!\n" + MergeMessages(old(ctx.dmEmbed.description), entry.dmEmbed)
    ensures ctx.dmEmbed.colour == if old(ctx.dmEmbed.colour).None? then Some(OgBlurple) else old(ctx.dmEmbed.colour)
    ensures ctx.dmText == MergeMessages(old(ctx.dmText), entry.dmContent)
    ensures |effects| >= 1
    ensures effects[0] == if dmForbidden then ChannelPost(ctx.channel.id, ctx.dmText, ctx.dmEmbed)
                          else DirectMessage(ctx.author.id, ctx.dmText, ctx.dmEmbed)
    ensures effects[1..] == Commands(entry, ctx.author.id, ctx.channel.guild.Some?)
  {
    var description := "Hey " + Mention(ctx.author) + "!\n" + MergeMessages(ctx.dmEmbed.description, entry.dmEmbed);
    var colour := if ctx.dmEmbed.colour.None? then Some(OgBlurple) else ctx.dmEmbed.colour;
    ctx.dmEmbed := Embed(description, colour);
    ctx.dmText := MergeMessages(ctx.dmText, entry.dmContent);

    var delivery := if dmForbidden then ChannelPost(ctx.channel.id, ctx.dmText, ctx.dmEmbed)
                    else DirectMessage(ctx.author.id, ctx.dmText, ctx.dmEmbed);

    var star: seq<Effect> := [];
    if entry.superstar.Some? {
      star := [Invoke("superstar", ctx.author.id, entry.superstar.value.duration, entry.superstar.value.reason, OriginChannel)];
    }

    var infraction: seq<Effect> := [];
    if entry.infractionType != NoInfraction {
      var replyIn := OriginChannel;
      if entry.infractionType == Ban || ctx.channel.guild.None? {
        replyIn := ModAlerts;
      }
      infraction := [Invoke(MemberName(entry.infractionType), ctx.author.id, entry.infractionDuration, entry.infractionReason, replyIn)];
    }

    effects := [delivery] + (star + infraction);
    assert effects[1..] == star + infraction;
  }

  // ------------------------------------------------------ the code as written

  /** As written, every member is declared `= auto` (the class itself, not a
      call), so all members share one value and each later name is an alias
      of the first member, BAN. */
  function MemberAsWritten(t: Infraction): Infraction {
    Ban
  }

  /** `self.infraction_type != Infraction.NONE` with the aliased members. */
  predicate IssuesInfractionAsWritten(t: Infraction) {
    MemberAsWritten(t) != MemberAsWritten(NoInfraction)
  }

  /** As written, not even a ban is issued; and since any two types compare
      equal, every combination takes lines 127-129, which store the member
      itself, so rebuilding the entry fails. With distinct members a ban is
      issued, and a warning and a ban combine into the ban. */
  lemma AliasedMembersCounterexample(a: InfractionAndNotification, b: InfractionAndNotification)
    ensures !IssuesInfractionAsWritten(Ban) && IssuesInfraction(Ban)
    ensures MemberAsWritten(a.infractionType) == MemberAsWritten(b.infractionType)
    ensures ReadTypeField(TypeMember(MemberAsWritten(a.infractionType))).Err?
    ensures a.infractionType == Warning && b.infractionType == Ban ==> Or(a, b).infractionType == Ban
  {
    if a.infractionType == Warning && b.infractionType == Ban {
      assert MoreSevere(a, b) == b;
    }
  }

  /** Lines 105-113 as written: `superstar` is the SUPERSTAR side's own
      side-channel (possibly None), and line 113 reads an attribute that a
      tuple or None does not have. */
  function SuperstarSideAsWritten(a: InfractionAndNotification, b: InfractionAndNotification): Result<SuperstarData, LoadError>
    requires a.infractionType != b.infractionType
    requires a.infractionType == Superstar || b.infractionType == Superstar
  {
    var superstar := if a.infractionType == Superstar then a.superstar else b.superstar;
    var otherSuperstar := if a.superstar.Some? then a.superstar else b.superstar;
    if otherSuperstar.Some? then
      if superstar.None? then Err(TypeError("'NoneType' object is not subscriptable"))
      else Ok(SuperstarData(MergeMessages(superstar.value.reason, otherSuperstar.value.reason),
                            Max(superstar.value.duration, otherSuperstar.value.duration)))
    else Err(AttributeError("infraction_reason"))
  }

  /** Combining a SUPERSTAR entry that has no side-channel of its own with a
      mute fails as written, whether or not the mute has one; the corrected
      combination keeps the mute and carries the superstar's reason and
      duration aside, merged with the mute's side-channel. */
  lemma SuperstarSideCounterexample(star: InfractionAndNotification, mute: InfractionAndNotification)
    requires star.infractionType == Superstar && star.superstar.None?
    requires mute.infractionType == Mute
    ensures SuperstarSideAsWritten(star, mute).Err?
    ensures Or(star, mute).superstar == Some(
      match mute.superstar
      case None => SuperstarData(star.infractionReason, star.infractionDuration)
      case Some(s) => SuperstarData(MergeMessages(star.infractionReason, s.reason), Max(star.infractionDuration, s.duration)))
    ensures Or(star, mute).infractionType == Mute
  {
  }

  /** Wherever lines 105-113 succeed as written, the corrected side-channel
      is the same; they fail exactly when the SUPERSTAR side has no
      side-channel of its own. */
  lemma SuperstarSideAgreesAsWritten(a: InfractionAndNotification, b: InfractionAndNotification)
    requires a.infractionType != b.infractionType
    requires a.infractionType == Superstar || b.infractionType == Superstar
    ensures var star := if a.infractionType == Superstar then a else b;
      SuperstarSideAsWritten(a, b).Err? <==> star.superstar.None?
    ensures SuperstarSideAsWritten(a, b).Ok? ==> SuperstarSideAsWritten(a, b).value == SuperstarSide(a, b)
  {
  }

  /** What `__or__` stores under "infraction_type" before rebuilding the
      entry through `__init__`: a member name, or (line 128) the member itself. */
  datatype TypeField = TypeName(name: string) | TypeMember(member: Infraction)

  /** `__init__` reading the stored type back: a member object has no `replace`. */
  function ReadTypeField(field: TypeField): Result<Infraction, LoadError> {
    match field
    case TypeName(name) => ParseType(Str(name))
    case TypeMember(_) => Err(AttributeError("replace"))
  }

  /** Lines 120-129 as written. */
  function TypeFieldAsWritten(a: InfractionAndNotification, b: InfractionAndNotification): TypeField {
    if a.infractionType != b.infractionType then TypeName(MemberName(MoreSevere(a, b).infractionType))
    else TypeMember(a.infractionType)
  }

  /** The corrected field: always the name. */
  function TypeFieldFixed(a: InfractionAndNotification, b: InfractionAndNotification): TypeField {
    TypeName(MemberName(Or(a, b).infractionType))
  }

  /** Two entries of one type cannot be combined as written; with the name
      stored, the rebuilt entry has exactly the type `Or` gives. */
  lemma StoredMemberCounterexample(a: InfractionAndNotification, b: InfractionAndNotification)
    ensures a.infractionType == b.infractionType ==> ReadTypeField(TypeFieldAsWritten(a, b)).Err?
    ensures ReadTypeField(TypeFieldFixed(a, b)) == Ok(Or(a, b).infractionType)
  {
    ParseTypeRoundTrip(Or(a, b).infractionType);
  }
}
