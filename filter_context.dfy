/** The record threaded through one filtering pass: what happened (the
    input part, fixed once the event is built, except `content`, which
    normalisation rewrites) and what the actions decided (the output part). */
module FilterContexts {
  import opened Wrappers
  import opened Values
  import opened Text

  /** The kinds of event the filters are dispatched on, as the two
      declarations of `Event` intend. */
  datatype Event = OnMessage | OnMessageEdit

  /** The member name under which each kind is declared. */
  function EventName(e: Event): string {
    match e
    case OnMessage => "ON_MESSAGE"
    case OnMessageEdit => "ON_MESSAGE_EDIT"
  }

  /** `Event.<name>` with the intended members: each declared name gives its
      kind, and any other name raises AttributeError. */
  function EventMember(name: string): (r: Result<Event, LoadError>)
    ensures r.Ok? <==> name == "ON_MESSAGE" || name == "ON_MESSAGE_EDIT"
    ensures r.Ok? ==> EventName(r.value) == name
    ensures r.Err? ==> r.error == AttributeError(name)
  {
    if name == "ON_MESSAGE" then Ok(OnMessage)
    else if name == "ON_MESSAGE_EDIT" then Ok(OnMessageEdit)
    else Err(AttributeError(name))
  }

  /** Every kind is found again by its member name. */
  lemma EventMemberRoundTrip(e: Event)
    ensures EventMember(EventName(e)) == Ok(e)
  {
  }

  /** `Event.<name>` as written: the two lines of the class body are
      annotations without a value, which an `Enum` does not turn into
      members, so the enum is empty and every lookup raises AttributeError. */
  function EventMemberAsWritten(name: string): Result<Event, LoadError> {
    Err(AttributeError(name))
  }

  /** As written, the lookup of either declared name fails where the
      intended enum gives its kind; `on_message` (`filtering.py:61`, `:63`),
      the subscription in the token list's constructor and the event test of
      the deletion action all perform such a lookup. */
  lemma EventCounterexample(e: Event)
    ensures EventMemberAsWritten(EventName(e)) == Err(AttributeError(EventName(e)))
    ensures EventMember(EventName(e)) == Ok(e)
    ensures EventMemberAsWritten("ON_MESSAGE").Err? && EventMember("ON_MESSAGE") == Ok(OnMessage)
  {
  }

  /** A text channel, a thread (whose `parent` is the channel it lives in)
      or a DM channel (no guild, no category). */
  datatype Channel = Channel(
    id: Snowflake,
    guild: Option<Snowflake>,
    category: Option<Snowflake>,
    parent: Option<Channel>)

  /** The author of the event: a plain user, or a guild member with roles. */
  datatype Author =
    | User(id: Snowflake)
    | Member(id: Snowflake, roleIds: seq<Snowflake>)

  datatype Message = Message(id: Snowflake, guild: Option<Snowflake>)

  /** An embed reduced to its description and optional colour. */
  datatype Embed = Embed(description: string, colour: Option<int>)

  const EmptyEmbed := Embed("", None)

  /** `author.mention` */
  function Mention(author: Author): (s: string)
    ensures StartsWith(s, "<@") && EndsWith(s, ">")
  {
    "<@" + Decimal(author.id) + ">"
  }

  /** Where an invoked moderation command posts its reply. */
  datatype InvokeChannel = OriginChannel | ModAlerts

  /** The outward calls an action makes, recorded instead of performed. */
  datatype Effect =
    | DirectMessage(user: Snowflake, text: string, embed: Embed)
    | ChannelPost(channel: Snowflake, text: string, embed: Embed)
    | DeleteMessage(message: Snowflake)
    | Invoke(command: string, user: Snowflake, seconds: int, reason: string, replyIn: InvokeChannel)

  class FilterContext {
    // Input context
    const event: Event
    const author: Author
    const channel: Channel
    var content: string
    const message: Option<Message>
    const embeds: seq<Embed>
    // Output context
    var dmText: string
    var dmEmbed: Embed
    var sendAlert: bool
    var alertContent: string
    var alertEmbeds: seq<Embed>

    /** A fresh context: the input as given and every output at its default. */
    constructor (event: Event, author: Author, channel: Channel, content: string,
                 message: Option<Message>, embeds: seq<Embed>)
      ensures this.event == event && this.author == author && this.channel == channel
      ensures this.content == content && this.message == message && this.embeds == embeds
      ensures dmText == "" && dmEmbed == EmptyEmbed && sendAlert
      ensures alertContent == "" && alertEmbeds == []
    {
      this.event := event;
      this.author := author;
      this.channel := channel;
      this.content := content;
      this.message := message;
      this.embeds := embeds;
      dmText := "";
      dmEmbed := EmptyEmbed;
      sendAlert := true;
      alertContent := "";
      alertEmbeds := [];
    }
  }
}
