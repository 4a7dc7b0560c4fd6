/** Values shared by every part of the notification client model. */
module Common {

  /** Python's `None` or a present value. */
  datatype Option<+T> = None | Some(value: T)

  /** A JSON value as the client reads it from a message or writes it into one. */
  datatype Json = JNull | JInt(i: int) | JString(s: string)

  /** The device token as the client holds it: `None` before pairing, otherwise a string. */
  type Token = Option<string>

  /** How `json.dumps` writes an optional string (the user's reply): `None` becomes `null`. */
  function OptionalStringJson(t: Option<string>): (j: Json)
    ensures j == JNull <==> t == None
    ensures t.Some? ==> j == JString(t.value)
  {
    match t
    case None => JNull
    case Some(s) => JString(s)
  }
}
