# Chat backend store model

A Dafny model of the request handlers of a small chat-room backend
(`index.js`). The backend keeps two collections: **participants**
(`{name, lastStatus}`) and **messages** (`{from, to, text, type, time}`).
It has five handlers:

- `POST /participants` joins the room.
- `POST /messages` sends a message.
- `POST /status` is the heartbeat.
- `GET /participants` lists the participants.
- `GET /messages` lists the messages a user may see, with an optional `limit`.

The model is one object, `Server.ChatServer`. It has one `seq` field per
collection and one method per handler. Each method returns the handler's HTTP
status code and states exactly what the two collections hold afterwards. The
current time is a parameter `now`. The `HH:mm:ss` time text is a formatter
`fmt` given to the constructor. The read-only queries are functions in module
`Queries`: the `findOne` lookup by name, the visibility filter, and the limit
truncation. The truncation loop is a method with a loop invariant. The object
invariant `Valid()` is kept by every handler. It says that names are unique and
non-empty, that every message comes from a registered participant, and that
recipient, text and type are never empty. So under sequential calls no two
participants ever share a name.

## Behaviour of note

- `limit` keeps the *oldest* messages: all visible ones when `limit >= count`,
  otherwise the first `limit - 1`. A numeric `limit` of zero or below, or a
  non-numeric one, returns nothing. A missing or empty `limit` returns the
  whole visible list, and so does a numeric one of at least the visible count.
- The message `type` is any non-empty string:
  `allow('message', 'private_message')` only whitelists two values that are
  already accepted.
- Names and texts are stored as sent, with no markup stripping or trimming.
- The name `Todos` can be claimed by a participant.
- A body carrying `from` (or any other key outside the schema) is rejected with
  422 by the schema's unknown-key rule.
- Participants are never removed, and stored messages are never edited or
  deleted.

## Model

| member | source | states |
|---|---|---|
| `Queries.Lookup` | index.js:46-48 | `findOne` by name finds the first participant with that name, or reports that none has it; a missing `user` header matches nobody |
| `Queries.LookupFindsTheOne` | index.js:115-117 | with unique names, looking up a stored name finds exactly that participant, so the heartbeat updates the caller's own record |
| `Queries.Visible` | index.js:152-156 | every listed message is a stored one that is addressed to the user, sent by the user, or sent to `Todos` (the `$or` test is the predicate `Queries.IsVisible`, index.js:154) |
| `Queries.VisibleComplete` | index.js:152-156 | every stored message that passes the `$or` filter is listed |
| `Queries.VisibleAppend` | index.js:152-156 | the filter keeps collection order: filtering a concatenation concatenates the filtered parts |
| `Queries.AppendedMessageView` | index.js:152-156 | after one more message is stored, a user's view grows by exactly that message if the filter admits it, and is otherwise unchanged |
| `Queries.PrivateMessageHidden` | index.js:152-165 | a message that is not broadcast, not to the user and not from the user never reaches that user, with or without a limit |
| `Queries.Truncated` | index.js:157-165 | a numeric limit returns a prefix of the visible list: all of it when `limit >= count`, otherwise the first `max(0, limit - 1)` (the loop bound of index.js:161 is `Queries.Iterations`) |
| `Queries.TakeLimit` | index.js:159-163 | the push loop builds exactly `Truncated` of the visible list |
| `Queries.LimitDropsNewest` | index.js:161 | when the limit is below the count, the newest visible message (if distinct from the earlier ones) is not returned |
| `Server.ChatServer.Join` | index.js:32-71 | an invalid body gives 422 and a taken name gives 409, both leaving the store unchanged; otherwise exactly one participant `{name, now}` and one `status` announcement to `Todos` are appended and 201 is returned; the object invariant `Server.ChatServer.Valid` (unique, non-empty names; every message from a participant) is kept; body validity is `Records.JoinBodyValid`, built on `Records.Accepted` (a required Joi string: present, a string, non-empty), index.js:14-16 |
| `Server.ChatServer.Send` | index.js:73-107 | an invalid body or an unregistered sender gives 422 and stores nothing; otherwise exactly one message with `from` set to the header user and `to`/`text`/`type` from the body is appended and 201 is returned; participants never change and `Server.ChatServer.Valid` is kept; body validity is `Records.MessageBodyValid` (three required non-empty strings, no other keys), index.js:17-21 |
| `Server.ChatServer.Status` | index.js:109-130 | an unknown user gives 404 and creates no participant; a known user's `lastStatus` becomes `now` and 200 is returned; names, other participants and messages are unchanged |
| `Server.ChatServer.ListParticipants` | index.js:132-142 | returns the whole collection, with status 201, and its names are unique |
| `Server.ChatServer.ListMessages` | index.js:145-176 | status 200; without a limit, exactly the visible messages in collection order; a numeric limit gives `Truncated` of them; a non-numeric limit gives nothing |

The methods `JoinTwice`, `Broadcasting` and `Whispering` in module `Server`
are client scenarios. They show what callers can derive from the handler
contracts alone: a second join under the same name, a broadcast seen by
another participant, and a private message hidden from a third participant.

## Left out

- HTTP plumbing: Express setup, CORS, JSON body parsing, response objects, `app.listen` (index.js:1-25, index.js:181).
- The MongoDB client: `connect`/`close`, `db.collection`, `_id`, and the `catch` → 500 paths. Store calls are taken to succeed. The heartbeat's `updateOne` by `_id` is an update at the found position.
- Joi internals: validation is "required field present, a string, and non-empty; no keys outside the schema". The 422 response body is not modelled.
- Request bodies that are JSON arrays rather than objects are not modelled.
- Clock and formatting: `Date.now()` is the parameter `now`; dayjs is the formatter `fmt`. The two clock reads in the join handler (index.js:54, index.js:61) are taken as one instant.
- Turning the `limit` query string into a number is not modelled. `LimitParam` carries the result: absent/empty, an integer, or NaN. Fractional limits and repeated `limit` parameters are not modelled.
- Unsorted `find` results (index.js:137, index.js:152-156) are taken to come back in insertion order; MongoDB's natural order does not guarantee that, and the truncation keeps the first entries of whatever order is returned.
- Concurrency: handlers run one after another. The race in which two simultaneous joins with the same name both pass the existence check is not modelled.
