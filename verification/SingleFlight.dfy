/** The per-key lock of the DNS client: at most one exchange per cache key holds the lock; callers that
    find it taken wait for its channel to close and then go on without it.  Any number of blocking and
    callback-style exchanges run concurrently, a transport may call back any number of times, and
    releasing the lock is several steps. */
module SingleFlight {
  import opened Optional

  /** How an exchange was called.  `Detached` is the blocking exchange that a callback-style exchange
      hands over to when it would have to wait. */
  datatype Style = Blocking | Callback | Detached

  /** The places at which an exchange returns or calls back. */
  datatype Exit =
    | NoQuestion | StrategyRefused | ContextEnded
    | StaleAnswer | FreshAnswer | Loopback | RefusedBefore
    | Failed | Answered
    | CalledBackFailed | CalledBackAnswered

  /** Which of them call `release` before they leave. */
  predicate Releases(e: Exit) {
    match e
    case NoQuestion => false
    case StrategyRefused => false
    case ContextEnded => false
    case StaleAnswer => true
    case FreshAnswer => true
    case Loopback => true
    case RefusedBefore => true
    case Failed => true
    case Answered => true
    case CalledBackFailed => true
    case CalledBackAnswered => true
  }

  datatype Pc =
    | Entry
    | Waiting(channel: nat)
    | Looking
    | Routing
    | Consulting
    | Sending
    | Posted
    | Leaving(exit: Exit)
    | Deleting(exit: Exit)
    | Closing(exit: Exit)
    | Clearing(exit: Exit)
    | Delivering(exit: Exit)
    | Done(exit: Exit)

  /** `hold` is the channel of the release function that is still set; `key` the last cache key computed;
      `posts` counts the calls the transport made back, `results` the returns or callbacks made. */
  datatype Operation = Operation(
    style: Style,
    caching: bool,
    pc: Pc,
    key: string,
    waited: bool,
    hold: Option<nat>,
    posts: nat,
    results: nat)

  /** `channels[c]` counts how often channel `c` was closed; `makers[c]` is the operation that made it. */
  datatype Client = Client(lock: map<string, nat>, channels: seq<nat>, makers: seq<nat>, operations: map<nat, Operation>)

  const NEW_CLIENT := Client(map[], [], [], map[])

  function NewOperation(style: Style, caching: bool): Operation {
    Operation(style, caching, Entry, "", false, None, 0, 0)
  }

  function Put(c: Client, id: nat, o: Operation): Client { c.(operations := c.operations[id := o]) }

  /** What decides at a position with a choice: an exit taken there, or none to go on, and the cache key
      computed there, which a network change can make differ from an earlier one. */
  datatype Turn = Turn(exit: Option<Exit>, key: string)

  /** The exits that leave from each position. */
  predicate CanLeave(o: Operation, e: Exit) {
    match o.pc
    case Entry => e == NoQuestion || e == StrategyRefused
    case Waiting(_) => e == ContextEnded
    case Looking => e == StaleAnswer || e == FreshAnswer
    case Routing => e == Loopback
    case Consulting => e == RefusedBefore && o.caching
    case Sending => e == Failed || e == Answered
    case Posted => e == CalledBackFailed || e == CalledBackAnswered
    case _ => false
  }

  predicate Enabled(c: Client, id: nat, t: Turn) {
    && id in c.operations
    && var o := c.operations[id];
       && (t.exit.Some? ==> CanLeave(o, t.exit.value))
       && match o.pc
          case Waiting(ch) => t.exit.Some? || (ch < |c.channels| && c.channels[ch] > 0)
          case Sending => t.exit.Some?
          case Posted => t.exit.Some?
          case Done(_) => false
          case _ => true
  }

  /** Taking the lock of a free key. */
  function Take(c: Client, id: nat, key: string): Client
    requires id in c.operations
  {
    Put(c, id, c.operations[id].(pc := Looking, key := key, hold := Some(|c.channels|)))
      .(lock := c.lock[key := |c.channels|], channels := c.channels + [0], makers := c.makers + [id])
  }

  /** An operation that does not leave goes on. */
  function GoOn(c: Client, id: nat, key: string): Client
    requires id in c.operations
  {
    var o := c.operations[id];
    match o.pc
    case Entry =>
      if !o.caching then Put(c, id, o.(pc := Routing))
      else if key !in c.lock then Take(c, id, key)
      else if o.style.Callback? then Put(c, id, o.(style := Detached))
      else Put(c, id, o.(pc := Waiting(c.lock[key]), key := key, waited := true))
    case Waiting(_) => Put(c, id, o.(pc := Looking, key := key))
    case Looking => Put(c, id, o.(pc := Routing))
    case Routing => Put(c, id, o.(pc := Consulting))
    case Consulting => Put(c, id, o.(pc := if o.style.Callback? then Posted else Sending))
    case Leaving(e) => Put(c, id, o.(pc := if Releases(e) && o.hold.Some? then Deleting(e) else Delivering(e)))
    case Deleting(e) => Put(c, id, o.(pc := Closing(e))).(lock := c.lock - {o.key})
    case Closing(e) =>
      var c1 := Put(c, id, o.(pc := Clearing(e)));
      if o.hold.Some? && o.hold.value < |c.channels|
      then c1.(channels := c.channels[o.hold.value := c.channels[o.hold.value] + 1]) else c1
    case Clearing(e) => Put(c, id, o.(pc := Delivering(e), hold := None))
    case Delivering(e) =>
      Put(c, id, o.(results := o.results + 1,
                    pc := if e == CalledBackFailed || e == CalledBackAnswered then Posted else Done(e)))
    case _ => c
  }

  function Advance(c: Client, id: nat, t: Turn): Client
    requires Enabled(c, id, t)
  {
    var o := c.operations[id];
    if t.exit.None? then GoOn(c, id, t.key)
    else Put(c, id, o.(pc := Leaving(t.exit.value), posts := if o.pc.Posted? then o.posts + 1 else o.posts))
  }

  ghost predicate ClientNext(c: Client, c': Client) {
    || (exists id, t :: Enabled(c, id, t) && c' == Advance(c, id, t))
    || (exists id, style: Style, caching ::
          id !in c.operations && !style.Detached? && c' == Put(c, id, NewOperation(style, caching)))
  }

  ghost predicate IsClientRun(run: seq<Client>) {
    && run != [] && run[0] == NEW_CLIENT
    && forall i | 0 <= i < |run| - 1 :: ClientNext(run[i], run[i + 1])
  }

  // ----- invariant -----

  /** Its entry is in the lock table. */
  predicate Locks(o: Operation) { o.hold.Some? && !o.pc.Closing? && !o.pc.Clearing? }

  /** It must still close this channel. */
  predicate Owes(o: Operation, ch: nat) { o.hold == Some(ch) && !o.pc.Clearing? }

  predicate Between(pc: Pc) { pc.Leaving? || pc.Deleting? || pc.Closing? || pc.Clearing? || pc.Delivering? }

  /** Past the lock and not yet answered. */
  predicate Asking(o: Operation) {
    o.pc.Looking? || o.pc.Routing? || o.pc.Consulting? || o.pc.Sending? || (o.pc.Posted? && o.posts == 0)
  }

  predicate CalledBack(e: Exit) { e == CalledBackFailed || e == CalledBackAnswered }

  /** Where the release function may still be set, and where it must be. */
  ghost predicate HoldOk(o: Operation) {
    && (o.hold.Some? ==> o.caching && !o.waited)
    && (o.hold.Some? ==> Asking(o) || (o.pc.Leaving? && Releases(o.pc.exit)) || o.pc.Deleting? || o.pc.Closing? || o.pc.Clearing?)
    && (o.pc.Deleting? || o.pc.Closing? || o.pc.Clearing? ==> o.hold.Some?)
    && (Asking(o) && o.caching && !o.waited ==> o.hold.Some?)
    && (o.pc.Waiting? ==> o.waited) && (o.pc.Entry? ==> !o.waited)
    && (o.waited ==> !o.style.Callback?)
  }

  /** One result each, except that a callback is made for every call the transport makes back. */
  ghost predicate ResultsOk(o: Operation) {
    && (o.pc.Posted? ==> o.style.Callback? && o.results == o.posts)
    && (Between(o.pc) ==> o.results + 1 == if CalledBack(o.pc.exit) then o.posts else 1)
    && (Between(o.pc) && CalledBack(o.pc.exit) ==> o.style.Callback? && o.posts > 0)
    && (o.pc.Done? ==> o.results == 1 && o.posts == 0)
    && (!o.pc.Posted? && !Between(o.pc) && !o.pc.Done? ==> o.results == 0 && o.posts == 0)
    && (Between(o.pc) && !CalledBack(o.pc.exit) ==> o.posts == 0)
  }

  ghost predicate OperationOk(c: Client, id: nat)
    requires id in c.operations
  {
    var o := c.operations[id];
    && HoldOk(o) && ResultsOk(o)
    && (o.hold.Some? ==> o.hold.value < |c.channels| && o.hold.value < |c.makers| && c.makers[o.hold.value] == id)
    && (Locks(o) ==> o.key in c.lock && c.lock[o.key] == o.hold.value)
    && (o.pc.Waiting? ==> o.pc.channel < |c.channels|)
  }

  /** A channel is open exactly as long as its maker owes it, and is closed once. */
  ghost predicate ChannelOk(c: Client, ch: nat)
    requires ch < |c.channels|
  {
    && ch < |c.makers| && c.makers[ch] in c.operations
    && c.channels[ch] == if Owes(c.operations[c.makers[ch]], ch) then 0 else 1
  }

  /** A lock entry is the channel its maker holds under that key. */
  ghost predicate EntryOk(c: Client, key: string)
    requires key in c.lock
  {
    var ch := c.lock[key];
    && ch < |c.makers| && c.makers[ch] in c.operations
    && var o := c.operations[c.makers[ch]]; o.key == key && o.hold == Some(ch) && Locks(o)
  }

  ghost predicate ClientOk(c: Client) {
    && |c.makers| == |c.channels|
    && (forall id | id in c.operations :: OperationOk(c, id))
    && (forall ch | 0 <= ch < |c.channels| :: ChannelOk(c, ch))
    && (forall key | key in c.lock :: EntryOk(c, key))
  }

  // ----- preservation -----

  /** What one operation does to itself, apart from the tables. */
  lemma AdvanceKeepsHold(c: Client, id: nat, t: Turn)
    requires Enabled(c, id, t) && HoldOk(c.operations[id]) && ResultsOk(c.operations[id])
    ensures HoldOk(Advance(c, id, t).operations[id])
  {
  }

  lemma AdvanceKeepsResults(c: Client, id: nat, t: Turn)
    requires Enabled(c, id, t) && ResultsOk(c.operations[id])
    ensures ResultsOk(Advance(c, id, t).operations[id])
  {
  }

  lemma AdvanceKeepsOwn(c: Client, id: nat, t: Turn)
    requires ClientOk(c) && Enabled(c, id, t)
    ensures var c' := Advance(c, id, t); |c'.makers| == |c'.channels| && OperationOk(c', id)
  {
    assert OperationOk(c, id);
    AdvanceKeepsHold(c, id, t);
    AdvanceKeepsResults(c, id, t);
    if c.operations[id].pc.Entry? && t.key in c.lock { assert EntryOk(c, t.key); }
  }

  lemma AdvanceKeepsOthers(c: Client, id: nat, t: Turn, other: nat)
    requires ClientOk(c) && Enabled(c, id, t) && other in c.operations && other != id
    ensures OperationOk(Advance(c, id, t), other)
  {
    assert OperationOk(c, other) && OperationOk(c, id);
  }

  lemma AdvanceKeepsChannel(c: Client, id: nat, t: Turn, ch: nat)
    requires ClientOk(c) && Enabled(c, id, t) && ch < |c.channels|
    ensures ch < |Advance(c, id, t).channels| && ChannelOk(Advance(c, id, t), ch)
  {
    assert OperationOk(c, id) && ChannelOk(c, ch);
    assert OperationOk(c, c.makers[ch]);
  }

  lemma AdvanceMakesChannel(c: Client, id: nat, t: Turn)
    requires ClientOk(c) && Enabled(c, id, t)
    ensures var c' := Advance(c, id, t);
            |c.channels| <= |c'.channels| <= |c.channels| + 1 && (|c'.channels| > |c.channels| ==> ChannelOk(c', |c.channels|))
  {
  }

  lemma AdvanceKeepsChannels(c: Client, id: nat, t: Turn)
    requires ClientOk(c) && Enabled(c, id, t)
    ensures var c' := Advance(c, id, t); forall ch | 0 <= ch < |c'.channels| :: ChannelOk(c', ch)
  {
    var c' := Advance(c, id, t);
    AdvanceMakesChannel(c, id, t);
    forall ch | 0 <= ch < |c'.channels| ensures ChannelOk(c', ch) {
      if ch < |c.channels| { AdvanceKeepsChannel(c, id, t, ch); }
    }
  }

  lemma AdvanceKeepsEntries(c: Client, id: nat, t: Turn)
    requires ClientOk(c) && Enabled(c, id, t)
    ensures var c' := Advance(c, id, t); forall k | k in c'.lock :: EntryOk(c', k)
  {
    var c' := Advance(c, id, t);
    assert OperationOk(c, id);
    forall k | k in c'.lock ensures EntryOk(c', k) {
      if k in c.lock { assert EntryOk(c, k); }
    }
  }

  lemma AdvanceOk(c: Client, id: nat, t: Turn)
    requires ClientOk(c) && Enabled(c, id, t)
    ensures ClientOk(Advance(c, id, t))
  {
    var c' := Advance(c, id, t);
    AdvanceKeepsOwn(c, id, t);
    assert c'.operations.Keys == c.operations.Keys;
    forall i | i in c'.operations ensures OperationOk(c', i) {
      if i != id { AdvanceKeepsOthers(c, id, t, i); }
    }
    AdvanceKeepsChannels(c, id, t);
    AdvanceKeepsEntries(c, id, t);
  }

  lemma CallOk(c: Client, id: nat, style: Style, caching: bool)
    requires ClientOk(c) && id !in c.operations
    ensures ClientOk(Put(c, id, NewOperation(style, caching)))
  {
    var c' := Put(c, id, NewOperation(style, caching));
    forall i | i in c'.operations ensures OperationOk(c', i) {
      if i in c.operations { assert OperationOk(c, i); }
    }
    forall ch | 0 <= ch < |c'.channels| ensures ChannelOk(c', ch) { assert ChannelOk(c, ch); }
    forall key | key in c'.lock ensures EntryOk(c', key) { assert EntryOk(c, key); }
  }

  lemma ClientNextOk(c: Client, c': Client)
    requires ClientOk(c) && ClientNext(c, c')
    ensures ClientOk(c')
  {
    if id, t :| Enabled(c, id, t) && c' == Advance(c, id, t) {
      AdvanceOk(c, id, t);
    } else {
      var id, style: Style, caching :|
        id !in c.operations && !style.Detached? && c' == Put(c, id, NewOperation(style, caching));
      CallOk(c, id, style, caching);
    }
  }

  lemma {:induction false} ClientRunOk(run: seq<Client>)
    requires IsClientRun(run)
    ensures ClientOk(run[|run| - 1])
  {
    if |run| > 1 {
      ClientRunOk(run[..|run| - 1]);
      ClientNextOk(run[|run| - 2], run[|run| - 1]);
    }
  }

  // ----- theorems -----

  /** Per key at most one exchange owns a lock entry. */
  lemma AtMostOneOwner(run: seq<Client>, i: nat, j: nat)
    requires IsClientRun(run)
    requires var c := run[|run| - 1];
             && i in c.operations && j in c.operations
             && Locks(c.operations[i]) && Locks(c.operations[j]) && c.operations[i].key == c.operations[j].key
    ensures i == j
  {
    ClientRunOk(run);
    var c := run[|run| - 1];
    assert OperationOk(c, i) && OperationOk(c, j);
  }

  /** Nothing more is to come of its own accord: it returned, or the transport has called back. */
  predicate AtRest(o: Operation) { o.pc.Done? || (o.pc.Posted? && o.posts > 0) }

  ghost predicate AllAtRest(c: Client) { forall id | id in c.operations :: AtRest(c.operations[id]) }

  /** When every exchange is at rest, whichever of its exits each of them took, the lock table is empty and
      every channel was closed exactly once; every exchange returned once, or called back exactly as often
      as the transport did. */
  lemma EverythingIsReleased(run: seq<Client>)
    requires IsClientRun(run) && AllAtRest(run[|run| - 1])
    ensures var c := run[|run| - 1];
            && c.lock == map[]
            && (forall ch | 0 <= ch < |c.channels| :: c.channels[ch] == 1)
            && (forall id | id in c.operations ::
                  c.operations[id].results == if c.operations[id].pc.Posted? then c.operations[id].posts else 1)
  {
    ClientRunOk(run);
    var c := run[|run| - 1];
    forall ch | 0 <= ch < |c.channels| ensures c.channels[ch] == 1 {
      assert ChannelOk(c, ch);
      assert OperationOk(c, c.makers[ch]);
    }
    forall id | id in c.operations
      ensures c.operations[id].results == if c.operations[id].pc.Posted? then c.operations[id].posts else 1
    {
      assert OperationOk(c, id);
    }
    forall key | key in c.lock ensures EntryOk(c, key) && OperationOk(c, c.makers[c.lock[key]]) { assert EntryOk(c, key); }
  }

  /** At no point of any run was a channel closed twice, however often transports called back, and no
      exchange delivered more results than it was called back, or more than one. */
  lemma NothingHappensTwice(run: seq<Client>, id: nat)
    requires IsClientRun(run) && id in run[|run| - 1].operations
    ensures var closed := run[|run| - 1].channels; forall ch | 0 <= ch < |closed| :: closed[ch] <= 1
    ensures var o := run[|run| - 1].operations[id];
            && o.results <= (if o.posts > 0 then o.posts else 1)
            && (o.posts > 0 ==> o.posts - 1 <= o.results)
            && (o.posts > 0 ==> o.style.Callback?)
  {
    ClientRunOk(run);
    var c := run[|run| - 1];
    forall ch | 0 <= ch < |c.channels| ensures c.channels[ch] <= 1 { assert ChannelOk(c, ch); }
    assert OperationOk(c, id);
  }

  /** An exchange handed to the transport keeps its lock entry exactly until the first call back. */
  lemma PostedHoldsUntilCalledBack(run: seq<Client>, id: nat)
    requires IsClientRun(run) && id in run[|run| - 1].operations && run[|run| - 1].operations[id].pc.Posted?
    ensures var c := run[|run| - 1]; var o := c.operations[id];
            && (Locks(o) <==> o.caching && o.posts == 0)
            && (Locks(o) ==> o.key in c.lock && c.lock[o.key] == o.hold.value
                             && o.hold.value < |c.makers| && c.makers[o.hold.value] == id)
  {
    ClientRunOk(run);
    assert OperationOk(run[|run| - 1], id);
  }

  /** The maker of the channel still owes it, does not wait itself, and can move or is with the transport. */
  ghost predicate WillClose(c: Client, ch: nat) {
    && ch < |c.makers| && c.makers[ch] in c.operations
    && Owes(c.operations[c.makers[ch]], ch) && !c.operations[c.makers[ch]].pc.Waiting?
    && (|| c.operations[c.makers[ch]].pc.Sending? || c.operations[c.makers[ch]].pc.Posted?
        || Enabled(c, c.makers[ch], Turn(None, "")))
  }

  /** Waiting cannot deadlock: the channel waited for is closed already, or its maker will close it. */
  lemma WaitersAreServed(run: seq<Client>, id: nat)
    requires IsClientRun(run) && id in run[|run| - 1].operations && run[|run| - 1].operations[id].pc.Waiting?
    ensures var c := run[|run| - 1];
            var ch := c.operations[id].pc.channel;
            ch < |c.channels| && (c.channels[ch] == 1 || WillClose(c, ch))
  {
    ClientRunOk(run);
    var c := run[|run| - 1];
    assert OperationOk(c, id);
    var ch := c.operations[id].pc.channel;
    assert ChannelOk(c, ch);
    assert OperationOk(c, c.makers[ch]);
  }
}
