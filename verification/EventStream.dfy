/** The connection stream of the daemon: the server keeps a snapshot per connection it has reported,
    turns queued events and timer ticks into reports, and a client replays the reports. */
module EventStream {
  import opened Optional

  type Id = string

  datatype Traffic = Traffic(up: int, down: int) {
    function Plus(t: Traffic): Traffic { Traffic(up + t.up, down + t.down) }
    function Minus(t: Traffic): Traffic { Traffic(up - t.up, down - t.down) }
    predicate Shrinks() { up < 0 || down < 0 }
  }

  const NO_TRAFFIC := Traffic(0, 0)

  /** A tracked connection with its counters, as the traffic manager lists it. */
  datatype Sample = Sample(id: Id, traffic: Traffic)

  datatype Snapshot = Snapshot(traffic: Traffic, hadTraffic: bool)

  /** What is sent to the client.  A closed connection may be described once more when it closes. */
  datatype Report =
    | New(id: Id, total: Traffic, closed: bool)
    | Update(id: Id, delta: Traffic)
    | Closed(id: Id, last: Option<Traffic>)

  datatype Event = Opened(sample: Sample) | Left(id: Id, last: Option<Traffic>)

  datatype Change = Change(snapshots: map<Id, Snapshot>, reports: seq<Report>)

  // ----- the server -----

  function Ids(samples: seq<Sample>): set<Id> { set m | m in samples :: m.id }

  function Index(samples: seq<Sample>): map<Id, Traffic> {
    if samples == [] then map[]
    else
      var m := samples[|samples| - 1];
      Index(samples[..|samples| - 1])[m.id := m.traffic]
  }

  function Lookup(index: map<Id, Traffic>, id: Id): Option<Traffic> {
    if id in index then Some(index[id]) else None
  }

  function Announce(s: map<Id, Snapshot>, m: Sample): Change {
    Change(s[m.id := Snapshot(m.traffic, false)], [New(m.id, m.traffic, false)])
  }

  function AnnounceAll(s: map<Id, Snapshot>, active: seq<Sample>): Change {
    if active == [] then Change(s, [])
    else
      var c := AnnounceAll(s, active[..|active| - 1]);
      var last := Announce(c.snapshots, active[|active| - 1]);
      Change(last.snapshots, c.reports + last.reports)
  }

  function Recall(m: Sample): Report { New(m.id, m.traffic, true) }

  function RecallAll(closed: seq<Sample>): seq<Report> {
    if closed == [] then [] else RecallAll(closed[..|closed| - 1]) + [Recall(closed[|closed| - 1])]
  }

  function ApplyEvent(s: map<Id, Snapshot>, e: Event): Change {
    match e
    case Opened(m) => if m.id in s then Change(s, []) else Announce(s, m)
    case Left(id, last) => Change(s - {id}, [Closed(id, last)])
  }

  function ApplyAll(s: map<Id, Snapshot>, events: seq<Event>): Change {
    if events == [] then Change(s, [])
    else
      var c := ApplyAll(s, events[..|events| - 1]);
      var last := ApplyEvent(c.snapshots, events[|events| - 1]);
      Change(last.snapshots, c.reports + last.reports)
  }

  /** What a tick does for one active connection. */
  function Observe(s: map<Id, Snapshot>, m: Sample): Change {
    if m.id !in s then Announce(s, m)
    else
      var delta := m.traffic.Minus(s[m.id].traffic);
      var quiet := s[m.id := Snapshot(m.traffic, false)];
      var pause := if s[m.id].hadTraffic then [Update(m.id, NO_TRAFFIC)] else [];
      if delta.Shrinks() then Change(quiet, pause)
      else if delta != NO_TRAFFIC then Change(s[m.id := Snapshot(m.traffic, true)], [Update(m.id, delta)])
      else Change(if s[m.id].hadTraffic then quiet else s, pause)
  }

  function ObserveAll(s: map<Id, Snapshot>, active: seq<Sample>): Change {
    if active == [] then Change(s, [])
    else
      var c := ObserveAll(s, active[..|active| - 1]);
      var last := Observe(c.snapshots, active[|active| - 1]);
      Change(last.snapshots, c.reports + last.reports)
  }

  function Forget(s: map<Id, Snapshot>, id: Id, index: map<Id, Traffic>): Change {
    Change(s - {id}, [Closed(id, Lookup(index, id))])
  }

  function ForgetAll(s: map<Id, Snapshot>, order: seq<Id>, index: map<Id, Traffic>): Change {
    if order == [] then Change(s, [])
    else
      var c := ForgetAll(s, order[..|order| - 1], index);
      var last := Forget(c.snapshots, order[|order| - 1], index);
      Change(last.snapshots, c.reports + last.reports)
  }

  /** The order in which the ids of a map are visited: each of them once. */
  ghost predicate Enumerates(order: seq<Id>, ids: set<Id>) {
    && (forall id :: id in order <==> id in ids)
    && (forall i, j | 0 <= i < j < |order| :: order[i] != order[j])
  }

  /** The server's side of the stream, updated in place. */
  class Stream {
    var snapshots: map<Id, Snapshot>

    constructor ()
      ensures snapshots == map[]
    {
      snapshots := map[];
    }

    method BuildInitial(active: seq<Sample>, closed: seq<Sample>) returns (reports: seq<Report>)
      modifies this
      ensures snapshots == AnnounceAll(old(snapshots), active).snapshots
      ensures reports == AnnounceAll(old(snapshots), active).reports + RecallAll(closed)
    {
      reports := [];
      for i := 0 to |active|
        invariant Change(snapshots, reports) == AnnounceAll(old(snapshots), active[..i])
      {
        assert active[..i + 1][..i] == active[..i];
        reports := reports + [New(active[i].id, active[i].traffic, false)];
        snapshots := snapshots[active[i].id := Snapshot(active[i].traffic, false)];
      }
      assert active[..|active|] == active;
      ghost var announced := reports;
      for i := 0 to |closed|
        invariant reports == announced + RecallAll(closed[..i])
      {
        assert closed[..i + 1][..i] == closed[..i];
        reports := reports + [New(closed[i].id, closed[i].traffic, true)];
      }
      assert closed[..|closed|] == closed;
    }

    method Handle(e: Event) returns (reports: seq<Report>)
      modifies this
      ensures Change(snapshots, reports) == ApplyEvent(old(snapshots), e)
    {
      match e {
        case Opened(m) =>
          if m.id in snapshots {
            return [];
          }
          snapshots := snapshots[m.id := Snapshot(m.traffic, false)];
          reports := [New(m.id, m.traffic, false)];
        case Left(id, last) =>
          snapshots := snapshots - {id};
          reports := [Closed(id, last)];
      }
    }

    /** Handles the events that are queued, into one message. */
    method Drain(events: seq<Event>) returns (reports: seq<Report>)
      modifies this
      ensures Change(snapshots, reports) == ApplyAll(old(snapshots), events)
    {
      reports := [];
      for i := 0 to |events|
        invariant Change(snapshots, reports) == ApplyAll(old(snapshots), events[..i])
      {
        assert events[..i + 1][..i] == events[..i];
        var more := Handle(events[i]);
        reports := reports + more;
      }
      assert events[..|events|] == events;
    }

    method ObserveActive(active: seq<Sample>) returns (reports: seq<Report>, activeIndex: set<Id>)
      modifies this
      ensures Change(snapshots, reports) == ObserveAll(old(snapshots), active)
      ensures activeIndex == Ids(active)
    {
      reports, activeIndex := [], {};
      for i := 0 to |active|
        invariant Change(snapshots, reports) == ObserveAll(old(snapshots), active[..i])
        invariant activeIndex == Ids(active[..i])
      {
        assert active[..i + 1][..i] == active[..i] && active[..i + 1] == active[..i] + [active[i]];
        var m := active[i];
        activeIndex := activeIndex + {m.id};
        if m.id !in snapshots {
          snapshots := snapshots[m.id := Snapshot(m.traffic, false)];
          reports := reports + [New(m.id, m.traffic, false)];
          continue;
        }
        var snapshot := snapshots[m.id];
        var delta := m.traffic.Minus(snapshot.traffic);
        if delta.Shrinks() {
          if snapshot.hadTraffic {
            reports := reports + [Update(m.id, NO_TRAFFIC)];
          }
          snapshots := snapshots[m.id := Snapshot(m.traffic, false)];
          continue;
        }
        if delta.up > 0 || delta.down > 0 {
          snapshots := snapshots[m.id := Snapshot(m.traffic, true)];
          reports := reports + [Update(m.id, delta)];
          continue;
        }
        if snapshot.hadTraffic {
          snapshots := snapshots[m.id := Snapshot(m.traffic, false)];
          reports := reports + [Update(m.id, NO_TRAFFIC)];
        }
      }
      assert active[..|active|] == active;
    }

    static method IndexClosed(closed: seq<Sample>) returns (index: map<Id, Traffic>)
      ensures index == Index(closed)
    {
      index := map[];
      for i := 0 to |closed|
        invariant index == Index(closed[..i])
      {
        assert closed[..i + 1][..i] == closed[..i];
        index := index[closed[i].id := closed[i].traffic];
      }
      assert closed[..|closed|] == closed;
    }

    /** One tick.  The stale snapshots go in whatever order the map is iterated. */
    method BuildTrafficUpdates(active: seq<Sample>, closed: seq<Sample>)
        returns (reports: seq<Report>, ghost order: seq<Id>)
      modifies this
      ensures Enumerates(order, ObserveAll(old(snapshots), active).snapshots.Keys - Ids(active))
      ensures var seen := ObserveAll(old(snapshots), active);
              var dropped := ForgetAll(seen.snapshots, order, Index(closed));
              snapshots == dropped.snapshots && reports == seen.reports + dropped.reports
    {
      var activeIndex;
      reports, activeIndex := ObserveActive(active);
      ghost var seen := ObserveAll(old(snapshots), active);
      var closedIndex: Option<map<Id, Traffic>> := None;
      var rest := snapshots.Keys;
      order := [];
      while rest != {}
        invariant rest <= seen.snapshots.Keys
        invariant Enumerates(order, seen.snapshots.Keys - Ids(active) - rest)
        invariant closedIndex.Some? ==> closedIndex.value == Index(closed)
        invariant snapshots == ForgetAll(seen.snapshots, order, Index(closed)).snapshots
        invariant reports == seen.reports + ForgetAll(seen.snapshots, order, Index(closed)).reports
      {
        var id :| id in rest;
        rest := rest - {id};
        if id in activeIndex {
          continue;
        }
        if closedIndex.None? {
          var index := IndexClosed(closed);
          closedIndex := Some(index);
        }
        reports := reports + [Closed(id, Lookup(closedIndex.value, id))];
        snapshots := snapshots - {id};
        assert (order + [id])[..|order|] == order;
        order := order + [id];
      }
    }
  }
}
