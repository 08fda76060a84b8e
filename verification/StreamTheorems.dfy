/** What a client that replays the connection stream knows, over every run of events and ticks. */
module StreamTheorems {
  import opened Optional
  import opened EventStream

  // ----- the replaying client -----

  datatype Entry = Entry(total: Traffic, closed: bool)

  function ApplyReport(c: map<Id, Entry>, r: Report): map<Id, Entry> {
    match r
    case New(id, total, closed) => c[id := Entry(total, closed)]
    case Update(id, delta) => if id in c then c[id := c[id].(total := c[id].total.Plus(delta))] else c
    case Closed(id, last) =>
      if last.Some? then c[id := Entry(last.value, true)]
      else if id in c then c[id := c[id].(closed := true)] else c
  }

  function Replay(log: seq<Report>): map<Id, Entry> {
    if log == [] then map[] else ApplyReport(Replay(log[..|log| - 1]), log[|log| - 1])
  }

  predicate Open(log: seq<Report>, id: Id) { id in Replay(log) && !Replay(log)[id].closed }

  function OpenIds(log: seq<Report>): set<Id> { set id | id in Replay(log) && !Replay(log)[id].closed }

  // ----- runs -----

  /** The stream so far.  `log` is everything sent.  `twice` holds the ids that were listed both active
      and closed at the start and were not dropped since.  `skipped` sums, per connection, the counter
      changes that were not sent because a counter went backwards. */
  datatype World = World(snapshots: map<Id, Snapshot>, log: seq<Report>, twice: set<Id>, skipped: map<Id, Traffic>)

  const SILENT := World(map[], [], {}, map[])

  function Send(w: World, c: Change): World { w.(snapshots := c.snapshots, log := w.log + c.reports) }

  function Greet(w: World, m: Sample): World {
    Send(w, Announce(w.snapshots, m)).(skipped := w.skipped[m.id := NO_TRAFFIC])
  }

  function GreetAll(w: World, active: seq<Sample>): World {
    if active == [] then w else Greet(GreetAll(w, active[..|active| - 1]), active[|active| - 1])
  }

  function Remember(w: World, m: Sample): World {
    w.(log := w.log + [Recall(m)], twice := if m.id in w.snapshots then w.twice + {m.id} else w.twice)
  }

  function RememberAll(w: World, closed: seq<Sample>): World {
    if closed == [] then w else Remember(RememberAll(w, closed[..|closed| - 1]), closed[|closed| - 1])
  }

  function Start(active: seq<Sample>, closed: seq<Sample>): World { RememberAll(GreetAll(SILENT, active), closed) }

  function Receive(w: World, e: Event): World {
    match e
    case Opened(m) => if m.id in w.snapshots then w else Greet(w, m)
    case Left(id, last) => Send(w, ApplyEvent(w.snapshots, e)).(twice := w.twice - {id})
  }

  /** A counter stands lower than it did. */
  predicate WentBack(was: Traffic, now: Traffic) { now.up < was.up || now.down < was.down }

  function Watch(w: World, m: Sample): World {
    if m.id !in w.snapshots then Greet(w, m)
    else
      var delta := m.traffic.Minus(w.snapshots[m.id].traffic);
      var w1 := Send(w, Observe(w.snapshots, m));
      if WentBack(w.snapshots[m.id].traffic, m.traffic) && m.id in w.skipped then w1.(skipped := w.skipped[m.id := w.skipped[m.id].Plus(delta)])
      else w1
  }

  function WatchAll(w: World, active: seq<Sample>): World {
    if active == [] then w else Watch(WatchAll(w, active[..|active| - 1]), active[|active| - 1])
  }

  function Drop(w: World, id: Id, index: map<Id, Traffic>): World {
    Send(w, Forget(w.snapshots, id, index)).(twice := w.twice - {id})
  }

  function DropAll(w: World, order: seq<Id>, index: map<Id, Traffic>): World {
    if order == [] then w else Drop(DropAll(w, order[..|order| - 1], index), order[|order| - 1], index)
  }

  ghost predicate Ticks(w: World, active: seq<Sample>, closed: seq<Sample>, w': World) {
    exists order ::
      && Enumerates(order, WatchAll(w, active).snapshots.Keys - Ids(active))
      && w' == DropAll(WatchAll(w, active), order, Index(closed))
  }

  ghost predicate StreamNext(w: World, w': World) {
    || (exists e :: w' == Receive(w, e))
    || (exists active, closed :: Ticks(w, active, closed, w'))
  }

  ghost predicate IsStreamRun(run: seq<World>, active: seq<Sample>, closed: seq<Sample>) {
    && run != [] && run[0] == Start(active, closed)
    && forall i | 0 <= i < |run| - 1 :: StreamNext(run[i], run[i + 1])
  }

  // ----- the world does what the server's methods do -----

  lemma {:induction false} GreetAllSends(w: World, active: seq<Sample>)
    ensures var c := AnnounceAll(w.snapshots, active); var w' := GreetAll(w, active);
            w'.snapshots == c.snapshots && w'.log == w.log + c.reports && w'.twice == w.twice
  {
    if active == [] {
      assert w.log + [] == w.log;
    } else {
      GreetAllSends(w, active[..|active| - 1]);
      var c := AnnounceAll(w.snapshots, active[..|active| - 1]);
      var last := Announce(c.snapshots, active[|active| - 1]);
      assert w.log + c.reports + last.reports == w.log + (c.reports + last.reports);
    }
  }

  lemma {:induction false} RememberAllSends(w: World, closed: seq<Sample>)
    ensures var w' := RememberAll(w, closed); w'.snapshots == w.snapshots && w'.log == w.log + RecallAll(closed)
  {
    if closed == [] {
      assert w.log + [] == w.log;
    } else {
      RememberAllSends(w, closed[..|closed| - 1]);
      var rest, last := RecallAll(closed[..|closed| - 1]), [Recall(closed[|closed| - 1])];
      assert w.log + rest + last == w.log + (rest + last);
    }
  }

  /** The first message is what the server builds from both lists. */
  lemma StartSends(active: seq<Sample>, closed: seq<Sample>)
    ensures var c := AnnounceAll(map[], active); var w := Start(active, closed);
            w.snapshots == c.snapshots && w.log == c.reports + RecallAll(closed)
  {
    GreetAllSends(SILENT, active);
    RememberAllSends(GreetAll(SILENT, active), closed);
    assert SILENT.log + AnnounceAll(map[], active).reports == AnnounceAll(map[], active).reports;
  }

  lemma {:induction false} WatchAllSends(w: World, active: seq<Sample>)
    ensures var c := ObserveAll(w.snapshots, active); var w' := WatchAll(w, active);
            w'.snapshots == c.snapshots && w'.log == w.log + c.reports
  {
    if active == [] {
      assert w.log + [] == w.log;
    } else {
      WatchAllSends(w, active[..|active| - 1]);
      var c := ObserveAll(w.snapshots, active[..|active| - 1]);
      var last := Observe(c.snapshots, active[|active| - 1]);
      assert w.log + c.reports + last.reports == w.log + (c.reports + last.reports);
    }
  }

  lemma {:induction false} DropAllSends(w: World, order: seq<Id>, index: map<Id, Traffic>)
    ensures var c := ForgetAll(w.snapshots, order, index); var w' := DropAll(w, order, index);
            w'.snapshots == c.snapshots && w'.log == w.log + c.reports
  {
    if order == [] {
      assert w.log + [] == w.log;
    } else {
      DropAllSends(w, order[..|order| - 1], index);
      var c := ForgetAll(w.snapshots, order[..|order| - 1], index);
      var last := Forget(c.snapshots, order[|order| - 1], index);
      assert w.log + c.reports + last.reports == w.log + (c.reports + last.reports);
    }
  }

  function ReceiveAll(w: World, events: seq<Event>): World {
    if events == [] then w else Receive(ReceiveAll(w, events[..|events| - 1]), events[|events| - 1])
  }

  /** Handling queued events in one message is handling them one by one. */
  lemma {:induction false} DrainSends(w: World, events: seq<Event>)
    ensures var c := ApplyAll(w.snapshots, events); var w' := ReceiveAll(w, events);
            w'.snapshots == c.snapshots && w'.log == w.log + c.reports
  {
    if events == [] {
      assert w.log + [] == w.log;
    } else {
      DrainSends(w, events[..|events| - 1]);
      var c := ApplyAll(w.snapshots, events[..|events| - 1]);
      var last := ApplyEvent(c.snapshots, events[|events| - 1]);
      ReceiveSends(ReceiveAll(w, events[..|events| - 1]), events[|events| - 1]);
      assert w.log + c.reports + last.reports == w.log + (c.reports + last.reports);
    }
  }

  lemma ReceiveSends(w: World, e: Event)
    ensures var c := ApplyEvent(w.snapshots, e); var w' := Receive(w, e);
            w'.snapshots == c.snapshots && w'.log == w.log + c.reports
  {
    assert w.log + [] == w.log;
  }

  /** A tick of the run leaves the snapshots, and adds the reports, that the server's tick yields. */
  lemma TickSends(w: World, active: seq<Sample>, order: seq<Id>, index: map<Id, Traffic>)
    ensures var seen := ObserveAll(w.snapshots, active);
            var dropped := ForgetAll(seen.snapshots, order, index);
            var w' := DropAll(WatchAll(w, active), order, index);
            w'.snapshots == dropped.snapshots && w'.log == w.log + (seen.reports + dropped.reports)
  {
    WatchAllSends(w, active);
    DropAllSends(WatchAll(w, active), order, index);
    var seen := ObserveAll(w.snapshots, active);
    var dropped := ForgetAll(seen.snapshots, order, index);
    assert w.log + seen.reports + dropped.reports == w.log + (seen.reports + dropped.reports);
  }

  // ----- invariant -----

  /** The last thing said about the traffic of `id` is an update that is not zero. */
  predicate Primed(log: seq<Report>, id: Id) {
    && log != []
    && var r := log[|log| - 1];
       if r.id != id || r.Closed? then Primed(log[..|log| - 1], id) else r.Update? && r.delta != NO_TRAFFIC
  }

  predicate IsPause(r: Report) { r.Update? && r.delta == NO_TRAFFIC }

  ghost predicate OpenOk(w: World) {
    && w.twice <= w.snapshots.Keys
    && forall id :: Open(w.log, id) <==> id in w.snapshots && id !in w.twice
  }

  ghost predicate TotalOk(w: World, id: Id)
    requires id in w.snapshots && id in Replay(w.log)
  {
    id in w.skipped && Replay(w.log)[id].total.Plus(w.skipped[id]) == w.snapshots[id].traffic
  }

  ghost predicate TotalsOk(w: World) { forall id | Open(w.log, id) && id in w.snapshots :: TotalOk(w, id) }

  ghost predicate PausesOk(w: World) {
    && (forall id | id in w.snapshots :: w.snapshots[id].hadTraffic <==> Primed(w.log, id))
    && (forall j | 0 <= j < |w.log| && IsPause(w.log[j]) :: Primed(w.log[..j], w.log[j].id))
  }

  ghost predicate WorldOk(w: World) { OpenOk(w) && TotalsOk(w) && PausesOk(w) }

  /** Sending one more report changes what the client knows about that id only. */
  lemma OneMore(log: seq<Report>, r: Report)
    ensures Replay(log + [r]) == ApplyReport(Replay(log), r)
    ensures forall id | id != r.id :: Open(log + [r], id) == Open(log, id) && Primed(log + [r], id) == Primed(log, id)
    ensures forall j | 0 <= j <= |log| :: (log + [r])[..j] == log[..j]
  {
    assert (log + [r])[..|log|] == log;
  }

  lemma GreetOk(w: World, m: Sample)
    requires OpenOk(w) && TotalsOk(w) && PausesOk(w) && m.id !in w.twice
    ensures WorldOk(Greet(w, m))
  {
    OneMore(w.log, New(m.id, m.traffic, false));
  }

  lemma RememberOk(w: World, m: Sample)
    requires WorldOk(w) && forall id | id in w.snapshots :: !w.snapshots[id].hadTraffic
    ensures WorldOk(Remember(w, m))
  {
    OneMore(w.log, Recall(m));
  }

  lemma ClosedOk(w: World, id: Id, last: Option<Traffic>)
    requires WorldOk(w)
    ensures WorldOk(w.(snapshots := w.snapshots - {id}, log := w.log + [Closed(id, last)], twice := w.twice - {id}))
  {
    OneMore(w.log, Closed(id, last));
  }

  lemma WatchKnownSends(w: World, m: Sample)
    requires m.id in w.snapshots
    ensures var w' := Watch(w, m);
            && w'.snapshots.Keys == w.snapshots.Keys && w'.twice == w.twice
            && (w'.log == w.log || exists delta :: w'.log == w.log + [Update(m.id, delta)])
  {
    assert w.log + [] == w.log;
  }

  lemma WatchKnownOpen(w: World, m: Sample)
    requires OpenOk(w) && m.id in w.snapshots
    ensures OpenOk(Watch(w, m))
  {
    var w' := Watch(w, m);
    WatchKnownSends(w, m);
    if w'.log != w.log {
      var delta :| w'.log == w.log + [Update(m.id, delta)];
      OneMore(w.log, Update(m.id, delta));
    }
  }

  lemma Balance(total: Traffic, skipped: Traffic, was: Traffic, now: Traffic)
    requires total.Plus(skipped) == was
    ensures total.Plus(now.Minus(was)).Plus(skipped) == now
    ensures total.Plus(skipped.Plus(now.Minus(was))) == now
    ensures total.Plus(NO_TRAFFIC) == total
    ensures now.Minus(was) == NO_TRAFFIC ==> now == was
  {
  }

  lemma WatchKnownTotal(w: World, m: Sample)
    requires OpenOk(w) && m.id in w.snapshots && Open(w.log, m.id) && TotalOk(w, m.id)
    ensures var w' := Watch(w, m); m.id in w'.snapshots && m.id in Replay(w'.log) && TotalOk(w', m.id)
  {
    var reports := Observe(w.snapshots, m).reports;
    Balance(Replay(w.log)[m.id].total, w.skipped[m.id], w.snapshots[m.id].traffic, m.traffic);
    if reports == [] {
      assert w.log + reports == w.log;
    } else {
      OneMore(w.log, reports[0]);
      assert w.log + reports == w.log + [reports[0]];
    }
  }

  lemma WatchKnownTotals(w: World, m: Sample)
    requires OpenOk(w) && TotalsOk(w) && m.id in w.snapshots
    ensures TotalsOk(Watch(w, m))
  {
    var w' := Watch(w, m);
    WatchKnownSends(w, m);
    if Open(w.log, m.id) { WatchKnownTotal(w, m); }
    if w'.log != w.log {
      var delta :| w'.log == w.log + [Update(m.id, delta)];
      OneMore(w.log, Update(m.id, delta));
    }
    forall id | Open(w'.log, id) && id in w'.snapshots ensures TotalOk(w', id) {
      assert Open(w.log, id);
      if id != m.id { assert TotalOk(w, id); }
    }
  }

  /** A pause is sent only to a connection whose last update was not one. */
  lemma UpdateKeepsPauses(w: World, id: Id, delta: Traffic, s: Snapshot)
    requires PausesOk(w) && id in w.snapshots
    requires (delta == NO_TRAFFIC ==> w.snapshots[id].hadTraffic) && (s.hadTraffic <==> delta != NO_TRAFFIC)
    ensures PausesOk(w.(snapshots := w.snapshots[id := s], log := w.log + [Update(id, delta)]))
  {
    OneMore(w.log, Update(id, delta));
  }

  lemma WatchKnownPauses(w: World, m: Sample)
    requires PausesOk(w) && m.id in w.snapshots
    ensures PausesOk(Watch(w, m))
  {
    var c := Observe(w.snapshots, m);
    if c.reports == [] {
      assert w.log + c.reports == w.log;
    } else {
      assert w.log + c.reports == w.log + [c.reports[0]];
      UpdateKeepsPauses(w, m.id, c.reports[0].delta, c.snapshots[m.id]);
    }
  }

  lemma WatchKnownOk(w: World, m: Sample)
    requires WorldOk(w) && m.id in w.snapshots
    ensures WorldOk(Watch(w, m))
  {
    WatchKnownOpen(w, m);
    WatchKnownTotals(w, m);
    WatchKnownPauses(w, m);
  }

  lemma {:induction false} GreetAllOk(active: seq<Sample>)
    ensures var w := GreetAll(SILENT, active);
            && WorldOk(w) && w.twice == {} && w.snapshots.Keys == Ids(active)
            && forall id | id in w.snapshots :: !w.snapshots[id].hadTraffic
  {
    if active != [] {
      var rest := active[..|active| - 1];
      assert active == rest + [active[|active| - 1]];
      GreetAllOk(rest);
      GreetOk(GreetAll(SILENT, rest), active[|active| - 1]);
    }
  }

  lemma {:induction false} RememberAllOk(w: World, closed: seq<Sample>)
    requires WorldOk(w) && w.twice == {} && forall id | id in w.snapshots :: !w.snapshots[id].hadTraffic
    ensures var w' := RememberAll(w, closed);
            WorldOk(w') && w'.snapshots == w.snapshots && w'.twice == w.snapshots.Keys * Ids(closed)
  {
    if closed != [] {
      var rest := closed[..|closed| - 1];
      assert closed == rest + [closed[|closed| - 1]];
      RememberAllOk(w, rest);
      RememberOk(RememberAll(w, rest), closed[|closed| - 1]);
    }
  }

  lemma StartOk(active: seq<Sample>, closed: seq<Sample>)
    ensures var w := Start(active, closed);
            WorldOk(w) && w.snapshots.Keys == Ids(active) && w.twice == Ids(active) * Ids(closed)
  {
    GreetAllOk(active);
    RememberAllOk(GreetAll(SILENT, active), closed);
  }

  lemma ReceiveOk(w: World, e: Event)
    requires WorldOk(w)
    ensures WorldOk(Receive(w, e)) && Receive(w, e).twice <= w.twice
  {
    match e
    case Opened(m) => if m.id !in w.snapshots { GreetOk(w, m); }
    case Left(id, last) => ClosedOk(w, id, last);
  }

  lemma WatchOk(w: World, m: Sample)
    requires WorldOk(w)
    ensures var w' := Watch(w, m);
            WorldOk(w') && w'.twice == w.twice && w'.snapshots.Keys == w.snapshots.Keys + {m.id}
  {
    if m.id in w.snapshots { WatchKnownOk(w, m); } else { GreetOk(w, m); }
  }

  lemma IdsOfAll(rest: seq<Sample>, m: Sample)
    ensures Ids(rest + [m]) == Ids(rest) + {m.id}
  {
    assert forall x :: x in rest + [m] <==> x in rest || x == m;
    forall id | id in Ids(rest) + {m.id} ensures id in Ids(rest + [m]) {
      if id == m.id { assert m in rest + [m]; } else { var x :| x in rest && x.id == id; assert x in rest + [m]; }
    }
  }

  lemma {:induction false} WatchAllOk(w: World, active: seq<Sample>)
    requires WorldOk(w)
    ensures var w' := WatchAll(w, active);
            WorldOk(w') && w'.twice == w.twice && w'.snapshots.Keys == w.snapshots.Keys + Ids(active)
  {
    if active != [] {
      var rest, m := active[..|active| - 1], active[|active| - 1];
      assert active == rest + [m];
      WatchAllOk(w, rest);
      WatchOk(WatchAll(w, rest), m);
      IdsOfAll(rest, m);
    }
  }

  lemma {:induction false} DropAllOk(w: World, order: seq<Id>, index: map<Id, Traffic>)
    requires WorldOk(w)
    ensures var w' := DropAll(w, order, index);
            && WorldOk(w') && w'.skipped == w.skipped
            && w'.snapshots == w.snapshots - (set id | id in order)
            && w'.twice == w.twice - (set id | id in order)
  {
    if order != [] {
      var rest, id := order[..|order| - 1], order[|order| - 1];
      assert order == rest + [id];
      DropAllOk(w, rest, index);
      ClosedOk(DropAll(w, rest, index), id, Lookup(index, id));
    }
  }

  lemma DropStaleOk(w: World, keep: set<Id>, order: seq<Id>, index: map<Id, Traffic>)
    requires WorldOk(w) && keep <= w.snapshots.Keys && Enumerates(order, w.snapshots.Keys - keep)
    ensures var w' := DropAll(w, order, index);
            && WorldOk(w') && w'.skipped == w.skipped
            && w'.snapshots.Keys == keep && w'.twice == w.twice * keep
            && forall id | id in keep :: w'.snapshots[id] == w.snapshots[id]
  {
    DropAllOk(w, order, index);
    var dropped := set id | id in order;
    assert dropped == w.snapshots.Keys - keep;
  }

  /** After a tick the server follows exactly the active connections. */
  lemma TickOk(w: World, active: seq<Sample>, closed: seq<Sample>, w': World)
    requires WorldOk(w) && Ticks(w, active, closed, w')
    ensures WorldOk(w') && w'.snapshots.Keys == Ids(active) && w'.twice == w.twice * Ids(active)
    ensures forall id | id in w'.snapshots :: id in WatchAll(w, active).snapshots
                                             && w'.snapshots[id] == WatchAll(w, active).snapshots[id]
    ensures w'.skipped == WatchAll(w, active).skipped
  {
    var order :|
      && Enumerates(order, WatchAll(w, active).snapshots.Keys - Ids(active))
      && w' == DropAll(WatchAll(w, active), order, Index(closed));
    WatchAllOk(w, active);
    DropStaleOk(WatchAll(w, active), Ids(active), order, Index(closed));
  }

  lemma StreamNextOk(w: World, w': World)
    requires WorldOk(w) && StreamNext(w, w')
    ensures WorldOk(w') && w'.twice <= w.twice
  {
    if e :| w' == Receive(w, e) {
      ReceiveOk(w, e);
    } else {
      var active, closed :| Ticks(w, active, closed, w');
      TickOk(w, active, closed, w');
    }
  }

  lemma {:induction false} StreamRunOk(run: seq<World>, active: seq<Sample>, closed: seq<Sample>)
    requires IsStreamRun(run, active, closed)
    ensures WorldOk(run[|run| - 1]) && run[|run| - 1].twice <= Ids(active) * Ids(closed)
  {
    if |run| == 1 {
      StartOk(active, closed);
    } else {
      StreamRunOk(run[..|run| - 1], active, closed);
      StreamNextOk(run[|run| - 2], run[|run| - 1]);
    }
  }

  // ----- theorems -----

  ghost predicate InStep(w: World) { OpenIds(w.log) == w.snapshots.Keys }

  /** At every point of every run the connections the client holds open are the snapshot keys, less
      those the first message listed both as active and as closed. */
  lemma OpenAreTheSnapshots(run: seq<World>, active: seq<Sample>, closed: seq<Sample>)
    requires IsStreamRun(run, active, closed)
    ensures var w := run[|run| - 1];
            && OpenIds(w.log) == w.snapshots.Keys - w.twice && w.twice <= w.snapshots.Keys
            && (InStep(w) <==> w.twice == {})
  {
    StreamRunOk(run, active, closed);
    var w := run[|run| - 1];
    forall id ensures id in OpenIds(w.log) <==> id in w.snapshots.Keys - w.twice {
      assert id in OpenIds(w.log) <==> Open(w.log, id);
    }
  }

  /** Client and server agree in every run if and only if the two lists read at the start share no
      connection.  They are read one after the other, so one that closes in between is in both. */
  lemma AlwaysInStepIffListsDisjoint(active: seq<Sample>, closed: seq<Sample>)
    ensures (forall run | IsStreamRun(run, active, closed) :: InStep(run[|run| - 1])) <==> Ids(active) !! Ids(closed)
  {
    StartOk(active, closed);
    var first := [Start(active, closed)];
    assert IsStreamRun(first, active, closed);
    OpenAreTheSnapshots(first, active, closed);
    if Ids(active) !! Ids(closed) {
      forall run | IsStreamRun(run, active, closed) ensures InStep(run[|run| - 1]) {
        StreamRunOk(run, active, closed);
        OpenAreTheSnapshots(run, active, closed);
      }
    }
  }

  /** The smallest such start: one connection, reported open and at once reported closed. */
  lemma ListedTwiceIsOutOfStep(m: Sample)
    ensures var w := Start([m], [m]); !InStep(w) && m.id in w.snapshots && !Open(w.log, m.id)
  {
    StartOk([m], [m]);
    assert m in [m];
    OpenAreTheSnapshots([Start([m], [m])], [m], [m]);
    assert m.id in Ids([m]) * Ids([m]);
  }

  /** A tick repairs it: unless a connection listed twice is still active, the client holds open
      exactly the active connections, and the disagreement never comes back. */
  lemma TickSynchronises(run: seq<World>, active: seq<Sample>, closed: seq<Sample>,
                         now: seq<Sample>, gone: seq<Sample>, w': World)
    requires IsStreamRun(run, active, closed) && Ticks(run[|run| - 1], now, gone, w')
    ensures OpenIds(w'.log) == Ids(now) - run[|run| - 1].twice && w'.snapshots.Keys == Ids(now)
    ensures Ids(active) * Ids(closed) !! Ids(now) ==> InStep(w') && w'.twice == {}
  {
    var longer := run + [w'];
    forall i | 0 <= i < |longer| - 1 ensures StreamNext(longer[i], longer[i + 1]) {
      assert i < |run| - 1 ==> StreamNext(run[i], run[i + 1]);
    }
    StreamRunOk(run, active, closed);
    TickOk(run[|run| - 1], now, gone, w');
    OpenAreTheSnapshots(longer, active, closed);
  }

  lemma InStepIsStable(w: World, w': World)
    requires WorldOk(w) && StreamNext(w, w') && w.twice == {}
    ensures InStep(w')
  {
    StreamNextOk(w, w');
    forall id ensures id in OpenIds(w'.log) <==> id in w'.snapshots.Keys {
      assert id in OpenIds(w'.log) <==> Open(w'.log, id);
    }
  }

  /** Conservation: what the client added up from the first report and the deltas, plus the changes the
      server never sent because a counter went backwards, is what the server last saw. */
  lemma TotalsAreConserved(run: seq<World>, active: seq<Sample>, closed: seq<Sample>, id: Id)
    requires IsStreamRun(run, active, closed) && Open(run[|run| - 1].log, id)
    ensures var w := run[|run| - 1];
            && id in w.snapshots && id in w.skipped
            && Replay(w.log)[id].total.Plus(w.skipped[id]) == w.snapshots[id].traffic
            && (Replay(w.log)[id].total == w.snapshots[id].traffic <==> w.skipped[id] == NO_TRAFFIC)
  {
    StreamRunOk(run, active, closed);
    assert TotalOk(run[|run| - 1], id);
  }

  /** No update says "no traffic" twice in a row: before one there is an update with traffic, later
      than any earlier pause of that connection. */
  lemma {:induction false} PrimedBy(log: seq<Report>, id: Id) returns (k: nat)
    requires Primed(log, id)
    ensures k < |log| && log[k].Update? && log[k].id == id && log[k].delta != NO_TRAFFIC
    ensures forall j | k < j < |log| && log[j].Update? :: log[j].id != id
  {
    var last := |log| - 1;
    if log[last].id != id || log[last].Closed? {
      k := PrimedBy(log[..last], id);
      assert forall j | k < j < last :: log[..last][j] == log[j];
    } else {
      k := last;
    }
  }

  lemma PausesAreSeparated(run: seq<World>, active: seq<Sample>, closed: seq<Sample>, i: nat, j: nat)
    requires IsStreamRun(run, active, closed)
    requires var log := run[|run| - 1].log;
             i < j < |log| && IsPause(log[i]) && IsPause(log[j]) && log[i].id == log[j].id
    ensures var log := run[|run| - 1].log;
            exists k :: i < k < j && log[k].Update? && log[k].id == log[j].id && log[k].delta != NO_TRAFFIC
  {
    StreamRunOk(run, active, closed);
    var log := run[|run| - 1].log;
    var k := PrimedBy(log[..j], log[j].id);
    assert log[..j][i] == log[i] && log[..j][k] == log[k];
  }

  // ----- totals after a tick -----

  ghost predicate Distinct(active: seq<Sample>) {
    forall i, j | 0 <= i < j < |active| :: active[i].id != active[j].id
  }

  /** No counter went backwards between the snapshot and the sample. */
  ghost predicate Grows(s: map<Id, Snapshot>, active: seq<Sample>) {
    forall m | m in active && m.id in s :: !WentBack(s[m.id].traffic, m.traffic)
  }

  /** Both counters stand or rose, and one rose. */
  predicate Rose(s: map<Id, Snapshot>, m: Sample) {
    m.id in s && !WentBack(s[m.id].traffic, m.traffic) && m.traffic != s[m.id].traffic
  }

  lemma WatchSamples(w: World, m: Sample)
    ensures var s := Watch(w, m).snapshots;
            && m.id in s && s[m.id].traffic == m.traffic
            && (s[m.id].hadTraffic <==> Rose(w.snapshots, m))
            && (forall id | id in w.snapshots && id != m.id :: id in s && s[id] == w.snapshots[id])
            && s.Keys == w.snapshots.Keys + {m.id}
  {
    if m.id in w.snapshots {
      var now, was := m.traffic, w.snapshots[m.id].traffic;
      assert now.Minus(was) == NO_TRAFFIC ==> now == was;
    }
  }

  lemma LastIsNew(rest: seq<Sample>, m: Sample)
    requires Distinct(rest + [m])
    ensures Distinct(rest) && m.id !in Ids(rest) && forall x | x in rest :: x.id != m.id
  {
    var all := rest + [m];
    forall i, j | 0 <= i < j < |rest| ensures rest[i].id != rest[j].id { assert all[i].id != all[j].id; }
    forall x | x in rest ensures x.id != m.id {
      var i :| 0 <= i < |rest| && rest[i] == x;
      assert all[i].id != all[|rest|].id;
    }
  }

  lemma {:induction false} WatchAllSamples(w: World, active: seq<Sample>)
    requires Distinct(active)
    ensures var s := WatchAll(w, active).snapshots;
            && (forall m | m in active :: m.id in s && s[m.id].traffic == m.traffic && (s[m.id].hadTraffic <==> Rose(w.snapshots, m)))
            && (forall id | id in w.snapshots && id !in Ids(active) :: id in s && s[id] == w.snapshots[id])
            && s.Keys == w.snapshots.Keys + Ids(active)
  {
    if active != [] {
      var rest, m := active[..|active| - 1], active[|active| - 1];
      assert active == rest + [m];
      LastIsNew(rest, m);
      IdsOfAll(rest, m);
      WatchAllSamples(w, rest);
      WatchSamples(WatchAll(w, rest), m);
    }
  }

  lemma {:induction false} WatchAllSkips(w: World, active: seq<Sample>)
    requires Distinct(active) && Grows(w.snapshots, active)
    requires NoneSkipped(w)
    ensures NoneSkipped(WatchAll(w, active))
  {
    if active != [] {
      var rest, m := active[..|active| - 1], active[|active| - 1];
      assert active == rest + [m];
      LastIsNew(rest, m);
      assert Grows(w.snapshots, rest);
      WatchAllSkips(w, rest);
      WatchAllSamples(w, rest);
    }
  }

  predicate NoneSkipped(w: World) { forall id | id in w.skipped :: w.skipped[id] == NO_TRAFFIC }

  ghost predicate Monotone(run: seq<World>) {
    forall i | 0 <= i < |run| - 1 :: StepGrows(run[i], run[i + 1])
  }

  /** A step that is an event, or a tick whose samples are one per connection and never go backwards. */
  ghost predicate StepGrows(w: World, w': World) {
    || (exists e :: w' == Receive(w, e))
    || (exists active, closed :: Distinct(active) && Grows(w.snapshots, active) && Ticks(w, active, closed, w'))
  }

  lemma {:induction false} NothingSkipped(run: seq<World>, active: seq<Sample>, closed: seq<Sample>)
    requires IsStreamRun(run, active, closed) && Monotone(run)
    ensures NoneSkipped(run[|run| - 1])
  {
    if |run| == 1 {
      StartSkipsNothing(active, closed);
    } else {
      var w, w' := run[|run| - 2], run[|run| - 1];
      NothingSkipped(run[..|run| - 1], active, closed);
      assert StepGrows(w, w');
      if now, gone :| Distinct(now) && Grows(w.snapshots, now) && Ticks(w, now, gone, w') {
        WatchAllSkips(w, now);
        StreamRunOk(run[..|run| - 1], active, closed);
        TickOk(w, now, gone, w');
      }
    }
  }

  lemma {:induction false} GreetAllSkips(active: seq<Sample>)
    ensures NoneSkipped(GreetAll(SILENT, active))
  {
    if active != [] { GreetAllSkips(active[..|active| - 1]); }
  }

  lemma {:induction false} RememberAllSkips(w: World, closed: seq<Sample>)
    ensures RememberAll(w, closed).skipped == w.skipped
  {
    if closed != [] { RememberAllSkips(w, closed[..|closed| - 1]); }
  }

  lemma StartSkipsNothing(active: seq<Sample>, closed: seq<Sample>)
    ensures NoneSkipped(Start(active, closed))
  {
    GreetAllSkips(active);
    RememberAllSkips(GreetAll(SILENT, active), closed);
  }

  /** While no counter goes backwards, after each tick the client shows every connection it holds
      open with exactly the counters the manager has. */
  lemma TotalsAreTheCounters(run: seq<World>, active: seq<Sample>, closed: seq<Sample>,
                             now: seq<Sample>, gone: seq<Sample>, m: Sample)
    requires IsStreamRun(run, active, closed) && Monotone(run) && |run| >= 2
    requires Distinct(now) && Grows(run[|run| - 2].snapshots, now)
    requires Ticks(run[|run| - 2], now, gone, run[|run| - 1])
    requires m in now && m.id !in Ids(active) * Ids(closed)
    ensures var log := run[|run| - 1].log; Open(log, m.id) && Replay(log)[m.id].total == m.traffic
  {
    var w, w' := run[|run| - 2], run[|run| - 1];
    StreamRunOk(run[..|run| - 1], active, closed);
    StreamRunOk(run, active, closed);
    TickOk(w, now, gone, w');
    WatchAllSamples(w, now);
    NothingSkipped(run, active, closed);
    assert m.id in Ids(now);
    TotalsAreConserved(run, active, closed, m.id);
  }

  /** After each tick the last update of a connection is one with traffic exactly if its counters rose
      since the snapshot before: a connection that falls silent is told so, once. */
  lemma LastUpdateTellsTraffic(run: seq<World>, active: seq<Sample>, closed: seq<Sample>,
                               now: seq<Sample>, gone: seq<Sample>, w': World, m: Sample)
    requires IsStreamRun(run, active, closed) && Ticks(run[|run| - 1], now, gone, w')
    requires Distinct(now) && m in now
    ensures Primed(w'.log, m.id) <==> Rose(run[|run| - 1].snapshots, m)
  {
    var w := run[|run| - 1];
    StreamRunOk(run, active, closed);
    TickOk(w, now, gone, w');
    WatchAllSamples(w, now);
    assert m.id in Ids(now);
  }

  /** A run in which the totals differ: a connection is reported with ten bytes sent, its counter falls to
      four, and the client keeps ten. */
  lemma FallenCounterIsMissed(id: Id) returns (run: seq<World>)
    ensures var ten, four := Sample(id, Traffic(10, 0)), Sample(id, Traffic(4, 0));
            && IsStreamRun(run, [ten], []) && Open(run[|run| - 1].log, id)
            && id in run[|run| - 1].snapshots && run[|run| - 1].snapshots[id].traffic == four.traffic
            && Replay(run[|run| - 1].log)[id].total == ten.traffic
  {
    var ten, four := Sample(id, Traffic(10, 0)), Sample(id, Traffic(4, 0));
    var w := Start([ten], []);
    assert [ten][..0] == [] && GreetAll(SILENT, [ten]) == Greet(SILENT, ten);
    assert w == World(map[id := Snapshot(ten.traffic, false)], [New(id, ten.traffic, false)], {}, map[id := NO_TRAFFIC]);
    var w' := Watch(w, four);
    assert [four][..0] == [] && WatchAll(w, [four]) == w';
    assert w.log + [] == w.log;
    assert w'.log == w.log && w'.snapshots == map[id := Snapshot(four.traffic, false)];
    assert four in [four] && Ids([four]) == {id};
    assert Enumerates([], w'.snapshots.Keys - Ids([four])) && DropAll(w', [], Index([])) == w';
    assert Ticks(w, [four], [], w');
    run := [w, w'];
    assert w.log[..0] == [];
    assert Replay(w.log) == map[id := Entry(ten.traffic, false)];
  }

  // ----- what the client holds for a connection that closed -----

  /** The traffic of the last sample with this id. */
  ghost predicate LastOf(samples: seq<Sample>, id: Id, traffic: Traffic) {
    exists k | 0 <= k < |samples| :: samples[k] == Sample(id, traffic) && forall j | k < j < |samples| :: samples[j].id != id
  }

  lemma {:induction false} IndexIsLast(samples: seq<Sample>, id: Id)
    ensures id in Index(samples) <==> id in Ids(samples)
    ensures id in Index(samples) ==> LastOf(samples, id, Index(samples)[id])
  {
    if samples != [] {
      var n := |samples| - 1;
      var rest, m := samples[..n], samples[n];
      assert samples == rest + [m];
      IdsOfAll(rest, m);
      IndexIsLast(rest, id);
      if m.id == id {
        assert samples[n] == Sample(id, Index(samples)[id]);
      } else if id in Index(rest) {
        var k :| 0 <= k < |rest| && rest[k] == Sample(id, Index(rest)[id]) && forall j | k < j < |rest| :: rest[j].id != id;
        assert samples[k] == Sample(id, Index(samples)[id]) && forall j | k < j < |samples| :: samples[j].id != id;
      }
    }
  }

  /** The client shows the connection closed, with the totals it was closed with, or with what it showed before. */
  ghost predicate ShownClosed(before: map<Id, Entry>, after: map<Id, Entry>, id: Id, last: Option<Traffic>) {
    match last
    case Some(total) => id in after && after[id] == Entry(total, true)
    case None => (id in after <==> id in before) && (id in before ==> after[id] == Entry(before[id].total, true))
  }

  ghost predicate ShownAlike(before: map<Id, Entry>, after: map<Id, Entry>, id: Id) {
    (id in after <==> id in before) && (id in before ==> after[id] == before[id])
  }

  /** What an event does to the client: a connection that left is shown closed with its last totals, and nothing
      else changes; one that opened is shown open with its counters, unless it is known. */
  lemma EventShows(w: World, e: Event)
    ensures var before, after := Replay(w.log), Replay(Receive(w, e).log);
            match e
            case Left(id, last) => ShownClosed(before, after, id, last) && forall x | x != id :: ShownAlike(before, after, x)
            case Opened(m) =>
              && (m.id !in w.snapshots ==> m.id in after && after[m.id] == Entry(m.traffic, false))
              && forall x | x != m.id || m.id in w.snapshots :: ShownAlike(before, after, x)
  {
    match e
    case Left(id, last) => OneMore(w.log, Closed(id, last));
    case Opened(m) => OneMore(w.log, New(m.id, m.traffic, false));
  }

  lemma {:induction false} RememberAllShows(w: World, closed: seq<Sample>, id: Id)
    ensures var before, after := Replay(w.log), Replay(RememberAll(w, closed).log);
            if id in Index(closed) then id in after && after[id] == Entry(Index(closed)[id], true) else ShownAlike(before, after, id)
  {
    if closed != [] {
      var rest, m := closed[..|closed| - 1], closed[|closed| - 1];
      RememberAllShows(w, rest, id);
      OneMore(RememberAll(w, rest).log, Recall(m));
    }
  }

  /** The first message shows every connection of the closed list closed, with its last totals there. */
  lemma StartShowsClosed(active: seq<Sample>, closed: seq<Sample>, id: Id)
    requires id in Ids(closed)
    ensures var client := Replay(Start(active, closed).log);
            id in client && client[id].closed && LastOf(closed, id, client[id].total)
  {
    IndexIsLast(closed, id);
    RememberAllShows(GreetAll(SILENT, active), closed, id);
  }

  lemma WatchShowsOthers(w: World, m: Sample, id: Id)
    requires id != m.id
    ensures ShownAlike(Replay(w.log), Replay(Watch(w, m).log), id)
  {
    if m.id in w.snapshots {
      WatchKnownSends(w, m);
      var w' := Watch(w, m);
      if w'.log != w.log {
        var delta :| w'.log == w.log + [Update(m.id, delta)];
        OneMore(w.log, Update(m.id, delta));
      }
    } else {
      OneMore(w.log, New(m.id, m.traffic, false));
    }
  }

  lemma {:induction false} WatchAllShowsOthers(w: World, active: seq<Sample>, id: Id)
    requires id !in Ids(active)
    ensures ShownAlike(Replay(w.log), Replay(WatchAll(w, active).log), id)
  {
    if active != [] {
      var rest, m := active[..|active| - 1], active[|active| - 1];
      assert active == rest + [m];
      IdsOfAll(rest, m);
      WatchAllShowsOthers(w, rest, id);
      WatchShowsOthers(WatchAll(w, rest), m, id);
    }
  }

  lemma {:induction false} DropAllShows(w: World, order: seq<Id>, index: map<Id, Traffic>, id: Id)
    requires forall i, j | 0 <= i < j < |order| :: order[i] != order[j]
    ensures var before, after := Replay(w.log), Replay(DropAll(w, order, index).log);
            if id in order then ShownClosed(before, after, id, if id in index then Some(index[id]) else None)
            else ShownAlike(before, after, id)
  {
    if order != [] {
      var n := |order| - 1;
      var rest, last := order[..n], order[n];
      assert order == rest + [last];
      DropAllShows(w, rest, index, id);
      OneMore(DropAll(w, rest, index).log, Closed(last, Lookup(index, last)));
      assert last !in rest;
    }
  }

  /** A tick shows every connection that was followed and is not active any more closed: with its last totals in the
      closed list, or with what the client showed before if it is not there.  What is neither followed nor active
      is shown as before. */
  lemma TickShowsClosed(w: World, active: seq<Sample>, closed: seq<Sample>, w': World, id: Id)
    requires WorldOk(w) && Ticks(w, active, closed, w') && id !in Ids(active)
    ensures var before, after := Replay(w.log), Replay(w'.log);
            && (id !in w.snapshots ==> ShownAlike(before, after, id))
            && (id in w.snapshots && id !in Ids(closed) ==> ShownClosed(before, after, id, None))
            && (id in w.snapshots && id in Ids(closed) ==> id in after && after[id].closed && LastOf(closed, id, after[id].total))
  {
    var order :|
      && Enumerates(order, WatchAll(w, active).snapshots.Keys - Ids(active))
      && w' == DropAll(WatchAll(w, active), order, Index(closed));
    WatchAllOk(w, active);
    WatchAllShowsOthers(w, active, id);
    DropAllShows(WatchAll(w, active), order, Index(closed), id);
    IndexIsLast(closed, id);
    assert id in order <==> id in w.snapshots;
  }
}
