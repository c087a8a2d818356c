/** The five route handlers of the chat backend (index.js:32-176) as methods
    of one object holding the two store collections. Store calls are taken to
    succeed and handlers to run one after another. */
module Server {
  import opened Wrappers
  import opened Records
  import opened Queries

  class ChatServer {
    /** The `participants` collection, in insertion order. */
    var participants: seq<Participant>
    /** The `messages` collection, in insertion order. */
    var messages: seq<Message>
    /** The clock formatter `dayjs(t).locale('pt').format('HH:mm:ss')`. */
    const fmt: int -> string

    /** What every sequence of handler calls keeps true: one participant per
        name, no empty name, every message sent by a registered participant,
        and no empty recipient, text or type. */
    ghost predicate Valid()
      reads this
    {
      NamesUnique(participants) &&
      (forall i :: 0 <= i < |participants| ==> participants[i].name != "") &&
      (forall m :: m in messages ==> Lookup(participants, Some(m.from)).Some?) &&
      (forall m :: m in messages ==> m.to != "" && m.text != "" && m.kind != "")
    }

    /** A fresh, empty database. */
    constructor (fmt: int -> string)
      ensures Valid()
      ensures participants == [] && messages == [] && this.fmt == fmt
    {
      this.fmt := fmt;
      participants := [];
      messages := [];
    }

    /** `POST /participants`: 422 for an invalid body, 409 for a taken name,
        otherwise registers the participant, announces it to everyone, 201. */
    method Join(body: JoinBody, now: int) returns (status: int)
      requires Valid()
      modifies this
      ensures Valid()
      ensures !JoinBodyValid(body) ==>
        status == 422 && participants == old(participants) && messages == old(messages)
      ensures JoinBodyValid(body) && Lookup(old(participants), Some(body.name.value)).Some? ==>
        status == 409 && participants == old(participants) && messages == old(messages)
      ensures JoinBodyValid(body) && Lookup(old(participants), Some(body.name.value)).None? ==>
        status == 201 &&
        participants == old(participants) + [Participant(body.name.value, now)] &&
        messages == old(messages) + [Message(body.name.value, Broadcast, JoinText, StatusKind, fmt(now))]
    {
      if !JoinBodyValid(body) {
        return 422;
      }
      var name := body.name.value;
      if Lookup(participants, Some(name)).Some? {
        return 409;
      }
      ghost var before := participants;
      participants := participants + [Participant(name, now)];
      forall m | m in messages
        ensures Lookup(participants, Some(m.from)).Some?
      {
        var i := Lookup(before, Some(m.from)).value;
        assert participants[i].name == m.from;
      }
      assert Lookup(participants, Some(name)).Some? by {
        assert participants[|before|].name == name;
      }
      messages := messages + [Message(name, Broadcast, JoinText, StatusKind, fmt(now))];
      status := 201;
    }

    /** `POST /messages`: 422 for an invalid body or a sender who is not a
        participant; otherwise stores the body's recipient, text and type
        with `from` set to the header user and the current time, 201. */
    method Send(user: Option<string>, body: MessageBody, now: int) returns (status: int)
      requires Valid()
      modifies this
      ensures Valid()
      ensures participants == old(participants)
      ensures !MessageBodyValid(body) ==> status == 422 && messages == old(messages)
      ensures MessageBodyValid(body) && Lookup(participants, user).None? ==>
        status == 422 && messages == old(messages)
      ensures MessageBodyValid(body) && Lookup(participants, user).Some? ==>
        status == 201 &&
        messages == old(messages) + [Message(user.value, body.to.value, body.text.value, body.kind.value, fmt(now))]
    {
      if !MessageBodyValid(body) {
        return 422;
      }
      if Lookup(participants, user).None? {
        return 422;
      }
      messages := messages + [Message(user.value, body.to.value, body.text.value, body.kind.value, fmt(now))];
      status := 201;
    }

    /** `POST /status`: 404 for an unknown user; otherwise refreshes that
        participant's `lastStatus` to `now` and nothing else, 200. */
    method Status(user: Option<string>, now: int) returns (status: int)
      requires Valid()
      modifies this
      ensures Valid()
      ensures messages == old(messages)
      ensures Lookup(old(participants), user).None? ==>
        status == 404 && participants == old(participants)
      ensures Lookup(old(participants), user).Some? ==>
        var i := Lookup(old(participants), user).value;
        status == 200 &&
        participants == old(participants)[i := Participant(old(participants)[i].name, now)]
    {
      var found := Lookup(participants, user);
      if found.None? {
        return 404;
      }
      var i := found.value;
      ghost var before := participants;
      participants := participants[i := participants[i].(lastStatus := now)];
      forall m | m in messages
        ensures Lookup(participants, Some(m.from)).Some?
      {
        var j := Lookup(before, Some(m.from)).value;
        assert participants[j].name == m.from;
      }
      status := 200;
    }

    /** `GET /participants`: the whole collection, with status 201. */
    method ListParticipants() returns (status: int, ps: seq<Participant>)
      requires Valid()
      ensures status == 201 && ps == participants
      ensures NamesUnique(ps)
    {
      return 201, participants;
    }

    /** `GET /messages`: the messages to, from, or broadcast to the header
        user, in store order; a numeric `limit` keeps the prefix computed by
        `Truncated`, a non-numeric one keeps nothing. */
    method ListMessages(user: Option<string>, limit: LimitParam) returns (status: int, r: seq<Message>)
      ensures status == 200
      ensures forall m :: m in r ==> m in messages && IsVisible(m, user)
      ensures limit.Absent? ==> r == Visible(messages, user)
      ensures limit.Number? ==> r == Truncated(Visible(messages, user), limit.n)
      ensures limit.NotANumber? ==> r == []
    {
      var vs := Visible(messages, user);
      match limit {
        case Absent =>
          r := vs;
        case Number(n) =>
          r := TakeLimit(vs, n);
        case NotANumber =>
          // Both `limit >= length` and `i < limit - 1` are false for NaN.
          r := [];
      }
      status := 200;
    }
  }

  /** A second join under a taken name is refused and leaves one participant. */
  method JoinTwice(fmt: int -> string)
  {
    var s := new ChatServer(fmt);
    var st := s.Join(JoinBody(Str("ana"), {}), 1);
    assert st == 201;
    st := s.Join(JoinBody(Str("ana"), {}), 2);
    assert st == 409 && s.participants == [Participant("ana", 1)];
    st := s.Status(Some("bia"), 3);
    assert st == 404 && |s.participants| == 1;
    st := s.Status(Some("ana"), 4);
    assert st == 200 && s.participants == [Participant("ana", 4)];
  }

  /** Ana and Bia join and Ana broadcasts: Bia sees both announcements and the
      broadcast; a stranger cannot post, nor can a body that names its sender. */
  method Broadcasting(fmt: int -> string)
  {
    var s := new ChatServer(fmt);
    var st := s.Join(JoinBody(Str("ana"), {}), 1);
    st := s.Join(JoinBody(Str("bia"), {}), 2);
    var joinedAna := Message("ana", Broadcast, JoinText, StatusKind, fmt(1));
    var joinedBia := Message("bia", Broadcast, JoinText, StatusKind, fmt(2));
    assert s.messages == [joinedAna, joinedBia];
    assert Lookup(s.participants, Some("ana")) == Some(0);
    st := s.Send(Some("ana"), MessageBody(Str("Todos"), Str("oi"), Str("message"), {}), 3);
    var hello := Message("ana", Broadcast, "oi", "message", fmt(3));
    assert s.messages == [joinedAna, joinedBia, hello];
    st := s.Send(Some("caio"), MessageBody(Str("Todos"), Str("oi"), Str("message"), {}), 4);
    assert st == 422;
    st := s.Send(Some("ana"), MessageBody(Str("Todos"), Str("oi"), Str("message"), {"from"}), 4);
    assert st == 422;

    var code, seen := s.ListMessages(Some("bia"), Absent);
    AppendedMessageView([joinedAna, joinedBia], hello, Some("bia"));
    AppendedMessageView([joinedAna], joinedBia, Some("bia"));
    AppendedMessageView([], joinedAna, Some("bia"));
    assert seen == [joinedAna, joinedBia, hello];
    code, seen := s.ListMessages(Some("bia"), Number(2));
    assert seen == [joinedAna];
  }

  /** A private message from Ana to Bia is never shown to Caio. */
  method Whispering(fmt: int -> string)
  {
    var s := new ChatServer(fmt);
    var st := s.Join(JoinBody(Str("ana"), {}), 1);
    assert Lookup(s.participants, Some("ana")) == Some(0);
    st := s.Send(Some("ana"), MessageBody(Str("bia"), Str("psiu"), Str("private_message"), {}), 2);
    var whisper := Message("ana", "bia", "psiu", "private_message", fmt(2));
    assert whisper in s.messages;
    var code, seen := s.ListMessages(Some("caio"), Absent);
    PrivateMessageHidden(s.messages, whisper, Some("caio"), 0);
    assert whisper !in seen;
  }
}
