/** The options a query ends up with after any number of rule actions were laid over it. */
module OptionOverlay {
  import opened Optional
  import opened DnsRules

  /** The actions laid over the options one after another. */
  function ApplyAll(o: QueryOptions, actions: seq<RouteOptions>): QueryOptions {
    if actions == [] then o else ApplyRouteOptions(ApplyAll(o, actions[..|actions| - 1]), actions[|actions| - 1])
  }

  // ----- last writer wins -----

  predicate SetsTTL(a: RouteOptions) { a.rewriteTTL != None }

  predicate SetsTimeout(a: RouteOptions) { a.timeout > 0 }

  predicate SetsSubnet(a: RouteOptions) { a.clientSubnet != None || a.removeClientSubnet }

  /** The last action that sets something. */
  function LastSet(actions: seq<RouteOptions>, sets: RouteOptions -> bool): (k: Option<nat>)
    ensures k.None? ==> forall i | 0 <= i < |actions| :: !sets(actions[i])
    ensures k.Some? ==> k.value < |actions| && sets(actions[k.value]) && forall i | k.value < i < |actions| :: !sets(actions[i])
  {
    if actions == [] then None
    else
      var n := |actions| - 1;
      if sets(actions[n]) then Some(n) else LastSet(actions[..n], sets)
  }

  /** What a list of actions makes of the options of a query: the last to set a value decides it, and caching is
      off as soon as anybody asked for that.  Nobody sets the strategy. */
  function Overlaid(o: QueryOptions, actions: seq<RouteOptions>): QueryOptions {
    var ttl, timeout, subnet := LastSet(actions, SetsTTL), LastSet(actions, SetsTimeout), LastSet(actions, SetsSubnet);
    QueryOptions(
      o.strategy,
      o.disableCache || (exists a | a in actions :: a.disableCache),
      o.disableOptimisticCache || (exists a | a in actions :: a.disableOptimisticCache),
      if ttl.Some? then actions[ttl.value].rewriteTTL else o.rewriteTTL,
      if timeout.Some? then actions[timeout.value].timeout else o.timeout,
      if subnet.None? then o.clientSubnet else if actions[subnet.value].removeClientSubnet then None else actions[subnet.value].clientSubnet,
      if subnet.None? then o.removeClientSubnet else actions[subnet.value].removeClientSubnet)
  }

  lemma {:induction false} LastWriterWins(o: QueryOptions, actions: seq<RouteOptions>)
    ensures ApplyAll(o, actions) == Overlaid(o, actions)
  {
    if actions != [] {
      var rest, a := actions[..|actions| - 1], actions[|actions| - 1];
      LastWriterWins(o, rest);
      assert actions == rest + [a];
      assert forall b :: b in actions <==> b in rest || b == a;
      OneMore(o, rest, a);
    }
  }

  lemma OneMore(o: QueryOptions, rest: seq<RouteOptions>, a: RouteOptions)
    ensures Overlaid(o, rest + [a]) == ApplyRouteOptions(Overlaid(o, rest), a)
  {
    LastSetMore(rest, a, SetsTTL);
    LastSetMore(rest, a, SetsTimeout);
    LastSetMore(rest, a, SetsSubnet);
    assert forall b :: b in rest + [a] <==> b in rest || b == a;
  }

  lemma LastSetMore(rest: seq<RouteOptions>, a: RouteOptions, sets: RouteOptions -> bool)
    ensures LastSet(rest + [a], sets) == if sets(a) then Some(|rest|) else LastSet(rest, sets)
  {
    assert (rest + [a])[..|rest|] == rest;
  }

  /** One more action over a list. */
  lemma OverlaidMore(o: QueryOptions, rest: seq<RouteOptions>, a: RouteOptions)
    ensures ApplyRouteOptions(ApplyAll(o, rest), a) == Overlaid(o, rest + [a])
  {
    assert (rest + [a])[..|rest|] == rest;
    LastWriterWins(o, rest + [a]);
  }
}
