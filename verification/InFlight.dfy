/** How many exchanges of one cache key are in flight together. */
module InFlight {
  import opened Optional
  import opened SingleFlight

  /** With the transport, and not yet answered. */
  predicate Flying(o: Operation) { o.pc.Sending? || (o.pc.Posted? && o.posts == 0) }

  /** Of the exchanges in flight for one key at most one did not wait: two are in flight together only if
      one of them waited for the lock. */
  lemma OneInFlightUnlessWaited(run: seq<Client>, i: nat, j: nat)
    requires IsClientRun(run)
    requires var c := run[|run| - 1];
             && i in c.operations && j in c.operations && i != j
             && Flying(c.operations[i]) && Flying(c.operations[j])
             && c.operations[i].caching && c.operations[j].caching && c.operations[i].key == c.operations[j].key
    ensures var c := run[|run| - 1]; c.operations[i].waited || c.operations[j].waited
  {
    ClientRunOk(run);
    var c := run[|run| - 1];
    assert OperationOk(c, i) && OperationOk(c, j);
  }

  const ON := Turn(None, "")

  lemma OneMoreStep(run: seq<Client>, id: nat, t: Turn) returns (longer: seq<Client>)
    requires IsClientRun(run) && Enabled(run[|run| - 1], id, t)
    ensures IsClientRun(longer) && run <= longer && longer[|longer| - 1] == Advance(run[|run| - 1], id, t)
  {
    longer := run + [Advance(run[|run| - 1], id, t)];
    forall i | 0 <= i < |longer| - 1 ensures ClientNext(longer[i], longer[i + 1]) {
      if i < |run| - 1 { assert ClientNext(run[i], run[i + 1]); }
    }
  }

  lemma OneMoreCall(run: seq<Client>, id: nat, style: Style) returns (longer: seq<Client>)
    requires IsClientRun(run) && id !in run[|run| - 1].operations && !style.Detached?
    ensures IsClientRun(longer) && longer[|longer| - 1] == Put(run[|run| - 1], id, NewOperation(style, true))
  {
    longer := run + [Put(run[|run| - 1], id, NewOperation(style, true))];
    forall i | 0 <= i < |longer| - 1 ensures ClientNext(longer[i], longer[i + 1]) {
      if i < |run| - 1 { assert ClientNext(run[i], run[i + 1]); }
    }
  }

  /** Past the lock, an exchange can go on to the transport and nothing else changes. */
  lemma ToTransport(run: seq<Client>, id: nat) returns (longer: seq<Client>)
    requires IsClientRun(run) && id in run[|run| - 1].operations
    requires run[|run| - 1].operations[id].pc.Looking? && run[|run| - 1].operations[id].style.Blocking?
    ensures IsClientRun(longer)
    ensures var c := run[|run| - 1]; longer[|longer| - 1] == Put(c, id, c.operations[id].(pc := Sending))
  {
    longer := OneMoreStep(run, id, ON);
    longer := OneMoreStep(longer, id, ON);
    longer := OneMoreStep(longer, id, ON);
  }

  /** An exchange with the transport that fails gives its lock up. */
  lemma FailAndRelease(run: seq<Client>, id: nat) returns (longer: seq<Client>)
    requires IsClientRun(run) && id in run[|run| - 1].operations
    requires var c := run[|run| - 1]; var o := c.operations[id];
             o.pc.Sending? && o.hold.Some? && o.hold.value < |c.channels|
    ensures IsClientRun(longer) && run <= longer
    ensures var c := run[|run| - 1]; var o := c.operations[id];
            longer[|longer| - 1] == Put(c, id, o.(pc := Delivering(Failed), hold := None))
                                      .(lock := c.lock - {o.key}, channels := c.channels[o.hold.value := c.channels[o.hold.value] + 1])
  {
    longer := OneMoreStep(run, id, Turn(Some(Failed), ""));
    longer := OneMoreStep(longer, id, ON);
    longer := OneMoreStep(longer, id, ON);
    longer := OneMoreStep(longer, id, ON);
    longer := OneMoreStep(longer, id, ON);
  }

  /** One exchange asks and another waits for it. */
  lemma OneWaits(key: string) returns (run: seq<Client>)
    ensures IsClientRun(run)
    ensures run[|run| - 1] == Client(map[key := 0], [0], [0], map[
              0 := Operation(Blocking, true, Sending, key, false, Some(0), 0, 0),
              1 := Operation(Blocking, true, Waiting(0), key, true, None, 0, 0)])
  {
    run := [NEW_CLIENT];
    run := OneMoreCall(run, 0, Blocking);
    run := OneMoreStep(run, 0, Turn(None, key));
    run := ToTransport(run, 0);
    run := OneMoreCall(run, 1, Blocking);
    run := OneMoreStep(run, 1, Turn(None, key));
  }

  /** The lock does not keep a key to one exchange in flight: when the owner fails, the one that waited
      goes on without the lock, beside the next one that takes it. */
  lemma TwoInFlight(key: string) returns (run: seq<Client>)
    ensures IsClientRun(run)
    ensures var c := run[|run| - 1];
            && 1 in c.operations && 2 in c.operations
            && Flying(c.operations[1]) && Flying(c.operations[2])
            && c.operations[1].caching && c.operations[2].caching
            && c.operations[1].key == key && c.operations[2].key == key
            && c.operations[1].waited && !c.operations[2].waited
  {
    run := OneWaits(key);
    run := FailAndRelease(run, 0);
    run := OneMoreStep(run, 1, Turn(None, key));
    run := ToTransport(run, 1);
    run := OneMoreCall(run, 2, Blocking);
    run := OneMoreStep(run, 2, Turn(None, key));
    run := ToTransport(run, 2);
  }
}
