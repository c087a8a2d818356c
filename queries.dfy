/** The read-only queries the handlers run against the store: the
    participant lookup by name, the visibility filter of `GET /messages`
    and its limit truncation. */
module Queries {
  import opened Wrappers
  import opened Records

  /** At most one participant per name. */
  ghost predicate NamesUnique(ps: seq<Participant>)
  {
    forall i, j :: 0 <= i < j < |ps| ==> ps[i].name != ps[j].name
  }

  /** `findOne({name: user})`: the position of the first participant whose
      name is `user`. A missing header (`None`) matches nobody, since every
      stored name is a string. */
  function Lookup(ps: seq<Participant>, user: Option<string>): (r: Option<nat>)
    ensures r.None? <==> forall i :: 0 <= i < |ps| ==> user != Some(ps[i].name)
    ensures r.Some? ==> r.value < |ps| && user == Some(ps[r.value].name)
    ensures r.Some? ==> forall j :: 0 <= j < r.value ==> user != Some(ps[j].name)
  {
    if ps == [] then None
    else if user == Some(ps[0].name) then Some(0)
    else match Lookup(ps[1..], user)
      case None => None
      case Some(i) => Some(i + 1)
  }

  /** With unique names, the lookup of a stored name finds exactly that participant. */
  lemma LookupFindsTheOne(ps: seq<Participant>, i: nat)
    requires NamesUnique(ps) && i < |ps|
    ensures Lookup(ps, Some(ps[i].name)) == Some(i)
  {
  }

  /** The `$or` filter of index.js:152-156. */
  predicate IsVisible(m: Message, user: Option<string>)
  {
    user == Some(m.to) || user == Some(m.from) || m.to == Broadcast
  }

  /** The messages of `ms` visible to `user`, in store order. */
  function Visible(ms: seq<Message>, user: Option<string>): (r: seq<Message>)
    ensures |r| <= |ms|
    ensures forall m :: m in r ==> m in ms && IsVisible(m, user)
  {
    if ms == [] then []
    else (if IsVisible(ms[0], user) then [ms[0]] else []) + Visible(ms[1..], user)
  }

  /** Every stored message the filter admits is returned. */
  lemma {:induction false} VisibleComplete(ms: seq<Message>, user: Option<string>, m: Message)
    requires m in ms && IsVisible(m, user)
    ensures m in Visible(ms, user)
  {
    if ms[0] != m {
      VisibleComplete(ms[1..], user, m);
    }
  }

  /** The filter keeps store order: filtering a concatenation is the
      concatenation of the filtered parts. */
  lemma {:induction false} VisibleAppend(a: seq<Message>, b: seq<Message>, user: Option<string>)
    ensures Visible(a + b, user) == Visible(a, user) + Visible(b, user)
  {
    if a == [] {
      assert a + b == b;
    } else {
      assert (a + b)[1..] == a[1..] + b;
      VisibleAppend(a[1..], b, user);
    }
  }

  /** Appending one message to the store extends each user's view by that
      message exactly when the filter admits it. */
  lemma AppendedMessageView(ms: seq<Message>, m: Message, user: Option<string>)
    ensures Visible(ms + [m], user) == Visible(ms, user) + (if IsVisible(m, user) then [m] else [])
  {
    VisibleAppend(ms, [m], user);
    assert [m][1..] == [];
  }

  /** A message neither to nor from `user` and not broadcast never reaches `user`,
      whatever the limit. */
  lemma PrivateMessageHidden(ms: seq<Message>, m: Message, user: Option<string>, limit: int)
    requires m.to != Broadcast && user != Some(m.to) && user != Some(m.from)
    ensures m !in Visible(ms, user)
    ensures m !in Truncated(Visible(ms, user), limit)
  {
  }

  /** Number of iterations of the loop of index.js:161: the whole list when
      `limit >= count`, otherwise `limit - 1`, and none when that is not positive. */
  function Iterations(count: nat, limit: int): nat
  {
    var bound := if limit >= count then count else limit - 1;
    if bound > 0 then bound else 0
  }

  /** What `GET /messages?limit=n` returns of the visible list `vs`: a prefix
      (the oldest messages), all of it when `limit >= |vs|`, otherwise the
      first `limit - 1` messages. */
  function Truncated<T>(vs: seq<T>, limit: int): (r: seq<T>)
    ensures r <= vs
    ensures limit >= |vs| ==> r == vs
    ensures limit < |vs| ==> |r| == if limit >= 1 then limit - 1 else 0
  {
    vs[..Iterations(|vs|, limit)]
  }

  /** The loop of index.js:159-163, pushing `vs[i]` while `i` is below the bound. */
  method TakeLimit<T>(vs: seq<T>, limit: int) returns (r: seq<T>)
    ensures r == Truncated(vs, limit)
  {
    var bound := if limit >= |vs| then |vs| else limit - 1;
    r := [];
    var i := 0;
    while i < bound
      invariant 0 <= i <= |vs|
      invariant i <= Iterations(|vs|, limit)
      invariant r == vs[..i]
    {
      r := r + [vs[i]];
      i := i + 1;
    }
  }

  /** Below the count, the limit never returns the most recent message: when
      the newest visible message differs from all earlier ones it is missing. */
  lemma LimitDropsNewest<T>(vs: seq<T>, limit: int)
    requires 0 < |vs| && limit < |vs|
    requires vs[|vs| - 1] !in vs[..|vs| - 1]
    ensures vs[|vs| - 1] !in Truncated(vs, limit)
  {
  }
}
