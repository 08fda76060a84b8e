/** How exchanges get through the DNS client: every step of one brings it nearer to rest, one that waits goes on only
    when the lock it waited for is given up, and each way out is taken from where the client takes it. */
module ExchangeExits {
  import opened Optional
  import opened SingleFlight
  import opened InFlight

  // ----- progress -----

  /** How far an exchange is from rest.  A callback-style exchange that must wait starts over as a blocking one. */
  function Distance(o: Operation): nat {
    match o.pc
    case Entry => if o.style.Callback? then 13 else 12
    case Waiting(_) => 11
    case Looking => 10
    case Routing => 9
    case Consulting => 8
    case Sending => 7
    case Posted => if o.posts == 0 then 7 else 0
    case Leaving(_) => 6
    case Deleting(_) => 5
    case Closing(_) => 4
    case Clearing(_) => 3
    case Delivering(_) => 2
    case Done(_) => 0
  }

  lemma RestIsReached(o: Operation)
    ensures AtRest(o) <==> Distance(o) == 0
    ensures Distance(o) <= 13
  {
  }

  lemma GoingOnIsNearer(c: Client, id: nat, key: string)
    requires ClientOk(c) && Enabled(c, id, Turn(None, key)) && !AtRest(c.operations[id])
    ensures Distance(GoOn(c, id, key).operations[id]) < Distance(c.operations[id])
  {
    assert OperationOk(c, id);
  }

  lemma LeavingIsNearer(c: Client, id: nat, t: Turn)
    requires ClientOk(c) && Enabled(c, id, t) && t.exit.Some? && !AtRest(c.operations[id])
    ensures Distance(Advance(c, id, t).operations[id]) < Distance(c.operations[id])
  {
    assert OperationOk(c, id);
  }

  /** Every step of an exchange that is not at rest brings it nearer, so it takes at most thirteen. */
  lemma StepsLeadToRest(c: Client, id: nat, t: Turn)
    requires ClientOk(c) && Enabled(c, id, t) && !AtRest(c.operations[id])
    ensures Distance(Advance(c, id, t).operations[id]) < Distance(c.operations[id]) <= 13
    ensures AtRest(Advance(c, id, t).operations[id]) <==> Distance(Advance(c, id, t).operations[id]) == 0
  {
    RestIsReached(c.operations[id]);
    RestIsReached(Advance(c, id, t).operations[id]);
    if t.exit.Some? { LeavingIsNearer(c, id, t); } else { GoingOnIsNearer(c, id, t.key); }
  }

  /** And it can take one, unless it waits for a channel that is open. */
  lemma ExchangeMoves(c: Client, id: nat) returns (t: Turn)
    requires ClientOk(c) && id in c.operations && !AtRest(c.operations[id])
    requires var pc := c.operations[id].pc; pc.Waiting? ==> pc.channel < |c.channels| && c.channels[pc.channel] > 0
    ensures Enabled(c, id, t) && ClientNext(c, Advance(c, id, t))
  {
    var pc := c.operations[id].pc;
    t := Turn(if pc.Sending? then Some(Failed) else if pc.Posted? then Some(CalledBackFailed) else None, "");
  }

  // ----- waiting -----

  lemma OnlyItMoved(c: Client, c': Client, id: nat) returns (t: Turn)
    requires ClientNext(c, c') && id in c.operations && id in c'.operations && c'.operations[id] != c.operations[id]
    ensures Enabled(c, id, t) && c' == Advance(c, id, t)
  {
    if who, turn :| Enabled(c, who, turn) && c' == Advance(c, who, turn) {
      if who != id { OthersStay(c, who, turn, id); }
      t := turn;
    }
  }

  lemma OthersStay(c: Client, id: nat, t: Turn, other: nat)
    requires Enabled(c, id, t) && other in c.operations && other != id
    ensures other in Advance(c, id, t).operations && Advance(c, id, t).operations[other] == c.operations[other]
  {
  }

  lemma RunOkAt(run: seq<Client>, i: nat)
    requires IsClientRun(run) && i < |run|
    ensures ClientOk(run[i])
  {
    assert IsClientRun(run[..i + 1]);
    ClientRunOk(run[..i + 1]);
  }

  /** An exchange that waits goes on to look for an answer only when the channel has been closed: the exchange it
      waited for has given the lock up. */
  lemma WaitersWait(run: seq<Client>, i: nat, id: nat)
    requires IsClientRun(run) && i + 1 < |run| && id in run[i].operations && id in run[i + 1].operations
    requires run[i].operations[id].pc.Waiting? && run[i + 1].operations[id].pc.Looking?
    ensures var c := run[i]; var ch := c.operations[id].pc.channel;
            && ch < |c.channels| && ch < |c.makers| && c.channels[ch] == 1
            && c.makers[ch] in c.operations && !Owes(c.operations[c.makers[ch]], ch)
  {
    var c, c' := run[i], run[i + 1];
    RunOkAt(run, i);
    assert ClientNext(c, c');
    var t := OnlyItMoved(c, c', id);
    assert OperationOk(c, id);
    assert ChannelOk(c, c.operations[id].pc.channel);
  }

  // ----- ways out -----

  /** What a way out says about the exchange that took it. */
  predicate TakenBy(e: Exit, o: Operation) {
    match e
    case NoQuestion => !o.waited && o.key == ""
    case StrategyRefused => !o.waited && o.key == ""
    case ContextEnded => o.caching && o.waited
    case StaleAnswer => o.caching
    case FreshAnswer => o.caching
    case Loopback => true
    case RefusedBefore => o.caching
    case Failed => !o.style.Callback?
    case Answered => !o.style.Callback?
    case CalledBackFailed => o.style.Callback?
    case CalledBackAnswered => o.style.Callback?
  }

  ghost predicate ExitOk(o: Operation) {
    && (Between(o.pc) || o.pc.Done? ==> TakenBy(o.pc.exit, o))
    && (o.pc.Entry? ==> !o.waited && o.key == "")
    && (o.pc.Waiting? || o.pc.Looking? ==> o.caching)
    && (o.waited ==> o.caching)
    && (o.pc.Sending? ==> !o.style.Callback?) && (o.pc.Posted? ==> o.style.Callback?)
  }

  lemma GoingOnKeepsExit(c: Client, id: nat, key: string)
    requires ClientOk(c) && Enabled(c, id, Turn(None, key)) && ExitOk(c.operations[id])
    ensures ExitOk(GoOn(c, id, key).operations[id])
  {
    assert OperationOk(c, id);
  }

  lemma LeavingKeepsExit(c: Client, id: nat, t: Turn)
    requires ClientOk(c) && Enabled(c, id, t) && t.exit.Some? && ExitOk(c.operations[id])
    ensures ExitOk(Advance(c, id, t).operations[id])
  {
    assert OperationOk(c, id);
  }

  lemma NextKeepsExit(c: Client, c': Client, id: nat)
    requires ClientOk(c) && ClientNext(c, c') && id in c.operations && ExitOk(c.operations[id]) && id in c'.operations
    ensures ExitOk(c'.operations[id])
  {
    if c'.operations[id] != c.operations[id] {
      var t := OnlyItMoved(c, c', id);
      if t.exit.Some? { LeavingKeepsExit(c, id, t); } else { GoingOnKeepsExit(c, id, t.key); }
    }
  }

  lemma NewIsAtEntry(c: Client, c': Client, id: nat)
    requires ClientNext(c, c') && id !in c.operations && id in c'.operations
    ensures ExitOk(c'.operations[id])
  {
    if who, t :| Enabled(c, who, t) && c' == Advance(c, who, t) { }
  }

  /** In every run a way out was taken by an exchange that the client can have let out there. */
  lemma {:induction false} ExitsAreTakenBy(run: seq<Client>, id: nat)
    requires IsClientRun(run) && id in run[|run| - 1].operations
    ensures ExitOk(run[|run| - 1].operations[id])
  {
    if |run| > 1 {
      var before := run[..|run| - 1];
      var c, c' := before[|before| - 1], run[|run| - 1];
      assert IsClientRun(before) && ClientNext(c, c');
      ClientRunOk(before);
      if id in c.operations {
        ExitsAreTakenBy(before, id);
        NextKeepsExit(c, c', id);
      } else {
        NewIsAtEntry(c, c', id);
      }
    }
  }

  // ----- a run for each way out -----

  function Position(e: Exit): Pc {
    match e
    case NoQuestion => Entry
    case StrategyRefused => Entry
    case ContextEnded => Waiting(0)
    case StaleAnswer => Looking
    case FreshAnswer => Looking
    case Loopback => Routing
    case RefusedBefore => Consulting
    case Failed => Sending
    case Answered => Sending
    case CalledBackFailed => Posted
    case CalledBackAnswered => Posted
  }

  /** A lone exchange, past the lock of its key. */
  lemma PastTheLock(key: string, style: Style) returns (run: seq<Client>)
    requires !style.Detached?
    ensures IsClientRun(run)
    ensures run[|run| - 1] == Client(map[key := 0], [0], [0], map[0 := Operation(style, true, Looking, key, false, Some(0), 0, 0)])
  {
    run := [NEW_CLIENT];
    run := OneMoreCall(run, 0, style);
    run := OneMoreStep(run, 0, Turn(None, key));
  }

  /** An exchange at a position further on. */
  lemma FurtherOn(key: string, style: Style, pc: Pc) returns (run: seq<Client>)
    requires !style.Detached?
    requires pc.Looking? || pc.Routing? || pc.Consulting? || pc == if style.Callback? then Posted else Sending
    ensures IsClientRun(run)
    ensures run[|run| - 1] == Client(map[key := 0], [0], [0], map[0 := Operation(style, true, pc, key, false, Some(0), 0, 0)])
  {
    run := PastTheLock(key, style);
    if !pc.Looking? {
      run := OneMoreStep(run, 0, ON);
      if !pc.Routing? {
        run := OneMoreStep(run, 0, ON);
        if !pc.Consulting? { run := OneMoreStep(run, 0, ON); }
      }
    }
  }

  /** Every way out is taken in some run, whatever the key. */
  lemma EveryExitIsTaken(key: string, e: Exit) returns (run: seq<Client>, id: nat)
    ensures IsClientRun(run) && id in run[|run| - 1].operations && run[|run| - 1].operations[id].pc == Leaving(e)
  {
    id := 0;
    if e == ContextEnded {
      run := OneWaits(key);
      id := 1;
    } else if e == NoQuestion || e == StrategyRefused {
      run := [NEW_CLIENT];
      run := OneMoreCall(run, 0, Blocking);
    } else {
      run := FurtherOn(key, if CalledBack(e) then Callback else Blocking, Position(e));
    }
    run := OneMoreStep(run, id, Turn(Some(e), ""));
  }

  /** The key is computed anew after waiting: an exchange that waited under one key can go on under another. */
  lemma KeyChangesWhileWaiting(key: string, other: string) returns (run: seq<Client>)
    ensures IsClientRun(run)
    ensures var c := run[|run| - 1];
            1 in c.operations && c.operations[1].waited && c.operations[1].pc.Looking? && c.operations[1].key == other
            && exists i :: 0 <= i < |run| && 1 in run[i].operations && run[i].operations[1].pc.Waiting? && run[i].operations[1].key == key
  {
    var waiting := OneWaits(key);
    var n := |waiting| - 1;
    run := FailAndRelease(waiting, 0);
    run := OneMoreStep(run, 1, Turn(None, other));
    assert run[n].operations[1].pc.Waiting? && run[n].operations[1].key == key;
  }
}
