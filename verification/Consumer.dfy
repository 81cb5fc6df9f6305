/**
 The consumer loop on one partition, over restarts (internal/kafka/consumer.go).

 Library assumption: a commit of offset o stores o + 1 as the group's position, which covers every earlier
 offset, and a new session starts fetching at the stored position.
 */
module Consumer {

  /**
   What happens to one fetched message: whether the handler returns nil, and whether the commit that follows works.
   */
  datatype Turn = Turn(ok: bool, stored: bool)

  /** `saved`: the handler returned nil and the commit worked. */
  datatype Event = Event(offset: nat, ok: bool, saved: bool)

  /** The broker's side of one partition and consumer group. */
  class Group<T> {
    var log: seq<T>
    var committed: nat

    constructor (log: seq<T>)
      ensures this.log == log && committed == 0
    {
      this.log, this.committed := log, 0;
    }
  }

  function Session(start: nat, turns: seq<Turn>): seq<Event> {
    seq(|turns|, i requires 0 <= i < |turns| => Event(start + i, turns[i].ok, turns[i].ok && turns[i].stored))
  }

  /** The stored position after a session's events. */
  function Position(start: nat, events: seq<Event>): nat {
    if events == [] then start
    else if events[|events| - 1].saved then events[|events| - 1].offset + 1
    else Position(start, events[..|events| - 1])
  }

  function Flat<T>(parts: seq<seq<T>>): seq<T> {
    if parts == [] then [] else Flat(parts[..|parts| - 1]) + parts[|parts| - 1]
  }

  /**
   Subscribe hands out consecutive messages from the stored position, whatever the handler answers, until the fetch
   fails; `cancelled` says whether the context was done by then. The log grows by `arrivals[k]` before the k-th fetch,
   and a fetch at its end blocks until the session is over.
   */
  method Subscribe<T>(g: Group<T>, turns: seq<Turn>, arrivals: seq<seq<T>>, cancelled: bool)
    returns (err: bool, events: seq<Event>, delivered: seq<T>)
    requires g.committed <= |g.log| && |arrivals| == |turns|
    modifies g`committed, g`log
    ensures err == !cancelled
    ensures |events| <= |turns| && events == Session(old(g.committed), turns[..|events|])
    ensures forall k :: 0 <= k < |events| ==>
              && events[k].offset == old(g.committed) + k && events[k].ok == turns[k].ok
              && (events[k].saved <==> turns[k].ok && turns[k].stored)
    ensures old(g.committed) + |events| <= |g.log|
    ensures delivered == g.log[old(g.committed)..old(g.committed) + |events|]
    ensures g.log == old(g.log) + Flat(arrivals[..if |events| == |turns| then |turns| else |events| + 1])
    ensures |events| == |turns| || old(g.committed) + |events| == |g.log|
    ensures g.committed == Position(old(g.committed), events)
    ensures old(g.committed) <= g.committed <= |g.log|
  {
    hide Session, Position;
    var offset := g.committed;
    ghost var start, log := g.committed, g.log;
    events, delivered := [], [];
    SessionStart(start, turns);
    err := !cancelled;
    while |events| < |turns|
      invariant |events| <= |turns| && offset == start + |events| <= |g.log|
      invariant events == Session(start, turns[..|events|])
      invariant delivered == g.log[start..offset]
      invariant g.log == log + Flat(arrivals[..|events|])
      invariant g.committed == Position(start, events)
      invariant start <= g.committed <= offset
    {
      Arrive(g, arrivals, |events|, log);
      if offset == |g.log| {
        SessionEvents(start, turns[..|events|]);
        return;
      }
      assert g.log[start..offset + 1] == g.log[start..offset] + [g.log[offset]];
      delivered := delivered + [g.log[offset]];
      SessionNext(start, turns, |events|);
      var e := HandleOne(g, turns[|events|], offset);
      PositionNext(start, events, e);
      events := events + [e];
      offset := offset + 1;
    }
    SessionEvents(start, turns[..|events|]);
  }

  lemma SessionEvents(start: nat, turns: seq<Turn>)
    ensures var events := Session(start, turns);
            && |events| == |turns|
            && (forall k :: 0 <= k < |events| ==>
                  && events[k].offset == start + k && events[k].ok == turns[k].ok
                  && (events[k].saved <==> turns[k].ok && turns[k].stored))
  {
  }

  /** The handler's answer, and the commit when it is nil. */
  method HandleOne<T>(g: Group<T>, turn: Turn, offset: nat) returns (e: Event)
    modifies g`committed
    ensures e == Event(offset, turn.ok, turn.ok && turn.stored)
    ensures g.committed == if e.saved then offset + 1 else old(g.committed)
  {
    if !turn.ok {
      return Event(offset, false, false);
    }
    if turn.stored {
      g.committed := offset + 1;
    }
    return Event(offset, true, turn.stored);
  }

  lemma SessionNext(start: nat, turns: seq<Turn>, k: nat)
    requires k < |turns|
    ensures Session(start, turns[..k + 1]) ==
            Session(start, turns[..k]) + [Event(start + k, turns[k].ok, turns[k].ok && turns[k].stored)]
  {
  }

  lemma PositionNext(start: nat, events: seq<Event>, e: Event)
    ensures Position(start, events + [e]) == if e.saved then e.offset + 1 else Position(start, events)
  {
    assert (events + [e])[..|events|] == events;
  }

  lemma SessionStart(start: nat, turns: seq<Turn>)
    ensures Session(start, turns[..0]) == [] && Position(start, []) == start
  {
  }

  /** What producers have added by the time of the k-th fetch. */
  method Arrive<T>(g: Group<T>, arrivals: seq<seq<T>>, k: nat, ghost log: seq<T>)
    requires k < |arrivals| && g.log == log + Flat(arrivals[..k])
    modifies g`log
    ensures old(g.log) <= g.log && g.log == log + Flat(arrivals[..k + 1])
  {
    assert arrivals[..k + 1][..k] == arrivals[..k];
    g.log := g.log + arrivals[k];
  }

  // ----- sessions one after another -----

  /** The stored position after all the sessions of a partition, each starting where the previous left it. */
  function Committed(sessions: seq<seq<Turn>>): nat {
    if sessions == [] then 0
    else
      var n := |sessions| - 1;
      Position(Committed(sessions[..n]), Session(Committed(sessions[..n]), sessions[n]))
  }

  function History(sessions: seq<seq<Turn>>): seq<Event> {
    if sessions == [] then []
    else
      var n := |sessions| - 1;
      History(sessions[..n]) + Session(Committed(sessions[..n]), sessions[n])
  }

  lemma {:induction false} PositionIsMax(start: nat, events: seq<Event>)
    requires forall k :: 0 <= k < |events| ==> events[k].offset == start + k
    ensures start <= Position(start, events) <= start + |events|
    ensures forall e :: e in events && e.saved ==> e.offset < Position(start, events)
    ensures Position(start, events) > start ==>
              exists e :: e in events && e.saved && e.offset + 1 == Position(start, events)
    decreases |events|
  {
    if events != [] {
      var last := events[|events| - 1];
      var rest := events[..|events| - 1];
      assert events == rest + [last];
      PositionIsMax(start, rest);
      if last.saved {
        assert last in events;
      }
    }
  }

  lemma SessionPosition(start: nat, turns: seq<Turn>)
    ensures var p := Position(start, Session(start, turns));
            && start <= p <= start + |turns|
            && (forall e :: e in Session(start, turns) && e.saved ==> e.offset < p)
            && (p > start ==> exists e :: e in Session(start, turns) && e.saved && e.offset + 1 == p)
  {
    PositionIsMax(start, Session(start, turns));
  }

  /**
   The stored position is one past the largest offset handled with nil and successfully committed, over all restarts.
   */
  lemma {:induction false} CommittedIsMax(sessions: seq<seq<Turn>>)
    ensures forall e :: e in History(sessions) && e.saved ==> e.offset < Committed(sessions)
    ensures Committed(sessions) > 0 ==>
              exists e :: e in History(sessions) && e.saved && e.offset + 1 == Committed(sessions)
    decreases |sessions|
  {
    if sessions != [] {
      var n := |sessions| - 1;
      CommittedIsMax(sessions[..n]);
      SessionPosition(Committed(sessions[..n]), sessions[n]);
      assert History(sessions) == History(sessions[..n]) + Session(Committed(sessions[..n]), sessions[n]);
    }
  }

  predicate Fetches(start: nat, turns: seq<Turn>, offset: nat) {
    exists e :: e in Session(start, turns) && e.offset == offset
  }

  lemma FetchesIff(start: nat, turns: seq<Turn>, offset: nat)
    ensures Fetches(start, turns, offset) <==> start <= offset < start + |turns|
  {
    if start <= offset < start + |turns| {
      assert Session(start, turns)[offset - start].offset == offset;
    }
  }

  /**
   A session after any earlier ones hands out an offset exactly when it runs that far and no offset at or
   above it was ever handled with nil and committed. In particular a message whose handler failed comes back
   if and only if nothing after it was committed first.
   */
  lemma RedeliveredIff(earlier: seq<seq<Turn>>, turns: seq<Turn>, offset: nat)
    ensures Fetches(Committed(earlier), turns, offset)
       <==> offset < Committed(earlier) + |turns|
            && forall e :: e in History(earlier) && e.saved ==> e.offset < offset
  {
    FetchesIff(Committed(earlier), turns, offset);
    CommittedIsMax(earlier);
  }

  lemma {:induction false} CommittedGrows(earlier: seq<seq<Turn>>, later: seq<seq<Turn>>)
    ensures Committed(earlier) <= Committed(earlier + later)
    decreases |later|
  {
    var all := earlier + later;
    if later == [] {
      assert all == earlier;
    } else {
      var n := |all| - 1;
      assert all[..n] == earlier + later[..|later| - 1];
      CommittedGrows(earlier, later[..|later| - 1]);
      SessionPosition(Committed(all[..n]), all[n]);
    }
  }

  /** An offset that a commit has passed is never handed out again, whatever became of its handler. */
  lemma PassedForGood(earlier: seq<seq<Turn>>, between: seq<seq<Turn>>, turns: seq<Turn>, e: Event, offset: nat)
    requires e in History(earlier) && e.saved && offset <= e.offset
    ensures !Fetches(Committed(earlier + between), turns, offset)
  {
    CommittedIsMax(earlier);
    CommittedGrows(earlier, between);
    FetchesIff(Committed(earlier + between), turns, offset);
  }

  /** At-least-once delivery: every offset below the stored position was handed to the handler. */
  lemma {:induction false} CommittedWasDelivered(sessions: seq<seq<Turn>>, offset: nat)
    requires offset < Committed(sessions)
    ensures exists e :: e in History(sessions) && e.offset == offset
    decreases |sessions|
  {
    var n := |sessions| - 1;
    var start := Committed(sessions[..n]);
    assert History(sessions) == History(sessions[..n]) + Session(start, sessions[n]);
    if offset < start {
      CommittedWasDelivered(sessions[..n], offset);
      var e :| e in History(sessions[..n]) && e.offset == offset;
      assert e in History(sessions);
    } else {
      SessionPosition(start, sessions[n]);
      var e := Session(start, sessions[n])[offset - start];
      assert e in Session(start, sessions[n]);
      assert e in History(sessions);
    }
  }

  /**
   But not at-least-once processing: a failure followed in its session by a success whose commit is stored is never
   retried, in any later session.
   */
  lemma FailedThenPassed(earlier: seq<seq<Turn>>, turns: seq<Turn>, j: nat, k: nat, between: seq<seq<Turn>>,
                         later: seq<Turn>)
    requires j < k < |turns| && !turns[j].ok && turns[k].ok && turns[k].stored
    ensures var offset, sessions := Committed(earlier) + j, earlier + [turns];
            && Event(offset, false, false) in History(sessions)
            && !Fetches(Committed(sessions + between), later, offset)
  {
    var start, sessions := Committed(earlier), earlier + [turns];
    assert sessions[..|earlier|] == earlier;
    var session := Session(start, turns);
    assert History(sessions) == History(earlier) + session;
    assert session[j] == Event(start + j, false, false) && session[j] in session;
    assert session[k] in session;
    PassedForGood(sessions, between, later, session[k], start + j);
  }
}
