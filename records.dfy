/** The two kinds of stored document of the chat backend, the request bodies
    the handlers accept, and the schema checks applied to those bodies
    (index.js:14-21). */
module Records {
  import opened Wrappers

  /** The recipient meaning "everyone in the room" (index.js:58, index.js:154). */
  const Broadcast: string := "Todos"
  /** Text of the message announcing a new participant (index.js:59). */
  const JoinText: string := "entra na sala..."
  /** Message type of the join announcement (index.js:60). */
  const StatusKind: string := "status"

  /** A document of the `participants` collection: `{name, lastStatus}`. */
  datatype Participant = Participant(name: string, lastStatus: int)

  /** A document of the `messages` collection: `{from, to, text, type, time}`;
      the source's `type` field is `kind` here, and it is a free string. */
  datatype Message = Message(from: string, to: string, text: string, kind: string, time: string)

  /** One field of a JSON request body as the schema validator sees it:
      absent, a string, or a value of some other JSON type. */
  datatype Field = Missing | Str(value: string) | NotString

  /** The body of `POST /participants`. `otherKeys` are the keys besides `name`;
      a value whose `otherKeys` contains `"name"` stands for no request body. */
  datatype JoinBody = JoinBody(name: Field, otherKeys: set<string>)

  /** The body of `POST /messages`. `otherKeys` are the keys besides `to`, `text`
      and `type`; a value whose `otherKeys` contains one of those three stands
      for no request body. Validation rejects any non-empty `otherKeys`, so such
      values are rejected too. */
  datatype MessageBody = MessageBody(to: Field, text: Field, kind: Field, otherKeys: set<string>)

  /** The `limit` query parameter of `GET /messages` after JavaScript's
      truthiness test and numeric conversion: `Absent` is a missing or empty
      parameter (falsy), `Number(n)` a string converting to the integer `n`,
      `NotANumber` a string converting to NaN. */
  datatype LimitParam = Absent | Number(n: int) | NotANumber

  /** A required `joi.string()` field: present, a string, and not empty. */
  predicate Accepted(f: Field)
  {
    f.Str? && f.value != ""
  }

  /** `participantPostSchema`: `name` required, no unknown keys. */
  predicate JoinBodyValid(b: JoinBody)
  {
    Accepted(b.name) && b.otherKeys == {}
  }

  /** `messagePostSchema`: `to`, `text`, `type` required, no unknown keys.
      `allow('message', 'private_message')` only whitelists two values that
      are accepted anyway, so `type` may be any non-empty string. */
  predicate MessageBodyValid(b: MessageBody)
  {
    Accepted(b.to) && Accepted(b.text) && Accepted(b.kind) && b.otherKeys == {}
  }
}
