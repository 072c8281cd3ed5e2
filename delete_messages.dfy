/** The `delete_messages` action entry: whether to delete the offending message. */
module DeleteMessagesSetting {
  import opened Wrappers
  import opened Values
  import opened FilterContexts

  const Name := "delete_messages"

  /** The configured value is kept as it was loaded. */
  datatype DeleteMessages = DeleteMessages(delete: Value)

  function Create(entryData: Value): (d: DeleteMessages)
    ensures d.delete == entryData
  {
    DeleteMessages(entryData)
  }

  /** Python's `x or y`: the first operand when it is truthy, else the second. */
  function PyOr(x: Value, y: Value): (r: Value)
    ensures Truthy(r) <==> Truthy(x) || Truthy(y)
    ensures r == x || r == y
  {
    if Truthy(x) then x else y
  }

  /** `__or__`: the combined entry deletes when either side does. */
  function Or(a: DeleteMessages, b: DeleteMessages): (r: DeleteMessages)
    ensures Truthy(r.delete) <==> Truthy(a.delete) || Truthy(b.delete)
  {
    DeleteMessages(PyOr(a.delete, b.delete))
  }

  lemma OrAssociative(a: DeleteMessages, b: DeleteMessages, c: DeleteMessages)
    ensures Or(Or(a, b), c) == Or(a, Or(b, c))
  {
  }

  lemma OrIdempotent(a: DeleteMessages)
    ensures Or(a, a) == a
  {
  }

  /** The decision is commutative; the stored value too when both sides
      hold booleans, as configured entries do. */
  lemma OrCommutative(a: DeleteMessages, b: DeleteMessages)
    ensures Truthy(Or(a, b).delete) == Truthy(Or(b, a).delete)
    ensures a.delete.Bool? && b.delete.Bool? ==> Or(a, b) == Or(b, a)
  {
  }

  /** With values other than booleans only the decision commutes: `1 or 2`
      is `1` while `2 or 1` is `2`. */
  lemma OrValueNotCommutative()
    ensures Or(DeleteMessages(Int(1)), DeleteMessages(Int(2)))
         != Or(DeleteMessages(Int(2)), DeleteMessages(Int(1)))
  {
  }

  /** `action`: on a message or edit event, delete the message when it was
      posted in a guild. A NotFound from the deletion is suppressed, so the
      attempt is all there is to record. The entry's own flag is not consulted. */
  method Action(d: DeleteMessages, ctx: FilterContext) returns (effects: seq<Effect>)
    ensures |effects| <= 1
    ensures effects != [] <==> ctx.message.Some? && ctx.message.value.guild.Some?
    ensures forall e :: e in effects ==> e == DeleteMessage(ctx.message.value.id)
  {
    effects := [];
    var relevant := ctx.event in {OnMessage, OnMessageEdit};
    assert relevant by {
      match ctx.event
      case OnMessage =>
      case OnMessageEdit =>
    }
    if relevant && ctx.message.Some? && ctx.message.value.guild.Some? {
      effects := [DeleteMessage(ctx.message.value.id)];
    }
  }
}
