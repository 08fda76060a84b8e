/** Every step of the walk keeps the invariant and leaves the allowed outcomes as they are;
    a step that decides picks one of them. */
module WalkSteps {
  import opened Optional
  import opened DnsRules
  import opened RuleWalk
  import opened WalkInvariant

  /** The outcomes still open at this point of the walk. */
  function Open(r: Router, w: Walk): set<Outcome> {
    Allowed(r, w.index, ScopeOf(r, w), WinnersOf(r, w, w.armed))
  }

  // ----- sweep -----

  lemma {:induction false} SweepMembers(r: Router, w: Walk, done: set<nat>, armed: seq<Armed>)
    requires ArmedInRange(r, armed)
    ensures var s := Sweep(r, w, done, armed);
            && (forall a | a in s.rest :: a in armed)
            && (forall a | a in s.missed :: a in armed && Ready(a, done) && JudgeArmed(r, w, done, a).None?)
            && (s.winner.Some? ==>
                  var (a, d) := s.winner.value;
                  a in armed && Ready(a, done) && JudgeArmed(r, w, done, a) == Some(d))
  {
    if armed != [] {
      assert armed == [armed[0]] + armed[1..];
      SweepMembers(r, w, done, armed[1..]);
    }
  }

  lemma {:induction false} SweepAscends(r: Router, w: Walk, done: set<nat>, armed: seq<Armed>)
    requires ArmedInRange(r, armed) && Ascending(armed)
    ensures Ascending(Sweep(r, w, done, armed).rest)
  {
    if armed != [] {
      SweepAscends(r, w, done, armed[1..]);
      SweepMembers(r, w, done, armed[1..]);
      TailAscends(armed);
      AscendsBefore(armed[0], Sweep(r, w, done, armed[1..]).rest);
    }
  }

  lemma TailAscends(armed: seq<Armed>)
    requires Ascending(armed) && armed != []
    ensures Ascending(armed[1..]) && forall a | a in armed[1..] :: armed[0].index < a.index
  {
  }

  lemma AscendsBefore(a: Armed, rest: seq<Armed>)
    requires Ascending(rest)
    ensures (forall b | b in rest :: a.index < b.index) ==> Ascending([a] + rest)
  {
  }

  /** Where each armed rule goes. */
  ghost predicate Placed(s: Swept, done: set<nat>, b: Armed) {
    match s.winner
    case None => if Ready(b, done) then b in s.missed else b in s.rest
    case Some((a, _)) => b == a || (if b.index < a.index && Ready(b, done) then b in s.missed else b in s.rest)
  }

  lemma PlacedFirst(r: Router, w: Walk, done: set<nat>, armed: seq<Armed>)
    requires ArmedInRange(r, armed) && armed != []
    requires forall a | a in armed[1..] :: armed[0].index < a.index
    ensures Placed(Sweep(r, w, done, armed), done, armed[0])
  {
    SweepMembers(r, w, done, armed[1..]);
  }

  lemma PlacedLater(r: Router, w: Walk, done: set<nat>, armed: seq<Armed>, b: Armed)
    requires armed != [] && ArmedInRange(r, armed) && b in armed[1..] && armed[0].index < b.index
    requires Placed(Sweep(r, w, done, armed[1..]), done, b)
    ensures Placed(Sweep(r, w, done, armed), done, b)
  {
  }

  /** Sweeping judges the ready rules in listed order and stops at the first that decides: the
      ready rules before the winner all missed, and every other rule is kept. */
  lemma {:induction false} SweepPriority(r: Router, w: Walk, done: set<nat>, armed: seq<Armed>, b: Armed)
    requires ArmedInRange(r, armed) && Ascending(armed) && b in armed
    ensures Placed(Sweep(r, w, done, armed), done, b)
  {
    assert armed == [armed[0]] + armed[1..];
    assert forall a | a in armed[1..] :: armed[0].index < a.index;
    if b in armed[1..] {
      SweepPriority(r, w, done, armed[1..], b);
      PlacedLater(r, w, done, armed, b);
    } else {
      PlacedFirst(r, w, done, armed);
    }
  }

  lemma {:induction false} SweepLeavesWaiting(r: Router, w: Walk, done: set<nat>, armed: seq<Armed>)
    requires ArmedInRange(r, armed)
    ensures var s := Sweep(r, w, done, armed);
            s.winner.None? ==> forall a | a in s.rest :: !Ready(a, done)
  {
    if armed != [] { SweepLeavesWaiting(r, w, done, armed[1..]); }
  }

  /** Judging a rule that misses costs nothing: the possible winners stay the same. */
  lemma LosersDoNotMatter(r: Router, w: Walk, armed: seq<Armed>, rest: seq<Armed>)
    requires forall a | a in rest :: a in armed
    requires forall a | a in armed && a !in rest :: VerdictOf(r, w, a).Miss?
    ensures WinnersOf(r, w, rest) == WinnersOf(r, w, armed)
  {
  }

  /** What sweep needs of the rules it judges. */
  ghost predicate Judgeable(r: Router, w: Walk, done: set<nat>, a: Armed) {
    && ArmedOk(r, w, done, a)
    && (r.rules[a.index].RespondsUntagged() ==> a.anonymous.Some? || w.anonymous.None?)
  }

  /** A race rule that was judged: everything it bound had arrived, and it did not decide. */
  ghost predicate Lost(r: Router, w: Walk, done: set<nat>, a: Armed) {
    ArmedOk(r, w, done, a) && Ready(a, done) && VerdictOf(r, w, a).Miss?
  }

  lemma SweepKeepsWinners(r: Router, w: Walk, done: set<nat>, armed: seq<Armed>)
    requires Validated(r.rules) && FuturesOk(r, w, done) && NamesOk(r, w) && AllSettled(w, done)
    requires Ascending(armed) && forall a | a in armed :: Judgeable(r, w, done, a)
    requires ArmedInRange(r, armed)
    ensures var s := Sweep(r, w, done, armed);
            && (forall a | a in s.missed :: a in armed && Lost(r, w, done, a))
            && (s.winner.None? ==> WinnersOf(r, w, s.rest) == WinnersOf(r, w, armed))
            && (s.winner.Some? ==> DecisionOutcome(r, w, s.winner.value.1) in WinnersOf(r, w, armed))
  {
    var s := Sweep(r, w, done, armed);
    SweepMembers(r, w, done, armed);
    forall a | a in armed && Ready(a, done)
      ensures a.index < |r.rules|
      ensures match JudgeArmed(r, w, done, a)
              case None => VerdictOf(r, w, a) == Miss
              case Some(d) => VerdictOf(r, w, a) == Commit(DecisionOutcome(r, w, d))
    {
      JudgeArmedIsJudge(r, w, done, a);
    }
    if s.winner.None? {
      forall a | a in armed && a !in s.rest ensures VerdictOf(r, w, a).Miss? {
        SweepPriority(r, w, done, armed, a);
      }
      LosersDoNotMatter(r, w, armed, s.rest);
    }
  }

  // ----- the outcome of one step -----

  ghost predicate StepOk(r: Router, w: Walk, done: set<nat>, st: Step) {
    && FuturesOk(r, st.walk, done)
    && match st.effect
       case Continue => st.walk.index == w.index + 1 && WalkOk(r, st.walk, done) && Open(r, st.walk) == Open(r, w)
       case Finish(o) => st.walk.index == w.index && o in Open(r, w)
       case Suspend(s) =>
         && st.walk.index == w.index
         && WalkOk(r, st.walk, done)
         && match s
            case Await(f) => Open(r, st.walk) == Open(r, w) && f < |st.walk.futures| && f !in done
            case Drain => Open(r, st.walk) == Open(r, w) && st.walk.armed != []
            case Pend(p) =>
              && st.walk.armed == [] && PendingOutcome(r, st.walk, p) in Open(r, w)
              && (p.future.Some? ==> p.future.value < |st.walk.futures|)
  }

  /** Moving on without launching anything. */
  lemma GoKeepsOk(r: Router, w: Walk, done: set<nat>, w1: Walk)
    requires WalkOk(r, w, done) && w.terminal.None? && w.index < |r.rules|
    requires w1 == w.(options := w1.options, anonymous := w1.anonymous)
    requires w1.anonymous == w.anonymous || w1.anonymous.None?
    ensures WalkOk(r, Next(w1), done)
    ensures ScopeOf(r, Next(w1)) == Scope(w1.options, HeldOption(r, w, w1.anonymous), NamedHeld(r, w))
    ensures WinnersOf(r, Next(w1), w1.armed) == WinnersOf(r, w, w.armed)
  {
    var w2 := Next(w1);
    forall k | 0 <= k < |w2.futures| ensures FutureOk(r, w2, done, k) { assert FutureOk(r, w, done, k); }
    forall t | t in w2.named ensures PublicationOk(r, w2, t) { assert PublicationOk(r, w, t); }
    assert NamedHeld(r, w2) == NamedHeld(r, w);
    forall a | a in w.armed
      ensures ArmedOk(r, w2, done, a) && VerdictOf(r, w2, a) == VerdictOf(r, w, a)
    {
      assert ArmedOk(r, w, done, a);
      assert ArmedScope(r, w2, a) == ArmedScope(r, w, a);
    }
  }

  /** A later launch cannot change what an armed rule sees: its tags were all defined before it. */
  lemma LaunchKeepsArmed(r: Router, w: Walk, w': Walk, done: set<nat>, a: Armed)
    requires Validated(r.rules) && w.index < |r.rules| && a.index < w.index
    requires ArmedOk(r, w, done, a)
    requires |w'.futures| == |w.futures| + 1 && w'.futures[..|w.futures|] == w.futures
    requires forall t | t in w.namedFutures :: w.namedFutures[t] < |w.futures|
    requires || w'.namedFutures == w.namedFutures
             || exists t :: r.rules[w.index].Defines(t) && w'.namedFutures == w.namedFutures[t := |w.futures|]
    ensures ArmedOk(r, w', done, a)
    ensures VerdictOf(r, w', a) == VerdictOf(r, w, a)
  {
    var rule := r.rules[a.index];
    forall t | t in rule.tags
      ensures t in w.namedFutures <==> t in w'.namedFutures
      ensures t in w.namedFutures ==> w.namedFutures[t] == w'.namedFutures[t]
    {
      var j :| 0 <= j < a.index && r.rules[j].Defines(t);
      assert !r.rules[w.index].Defines(t);
    }
    assert forall k: nat | k < |w.futures| :: w'.futures[k] == w.futures[k];
    JudgeFrame(r, a.index, ArmedScope(r, w, a), ArmedScope(r, w', a));
  }

  lemma {:induction false} PendingTagsFacts(w: Walk, tags: seq<string>, done: set<nat>)
    ensures forall f | f in PendingTags(w, tags, done) :: f !in done && exists t :: t in tags && t in w.namedFutures && w.namedFutures[t] == f
    ensures forall t | t in tags && t in w.namedFutures :: w.namedFutures[t] in done || w.namedFutures[t] in PendingTags(w, tags, done)
  {
    if tags != [] {
      PendingTagsFacts(w, tags[1..], done);
      assert tags == [tags[0]] + tags[1..];
    }
  }

  // ----- evaluate -----

  /** The walk after the rule at its index launched a query. */
  function Launched(w: Walk, tag: string, server: string, o: QueryOptions): Walk {
    var w1 := Launch(w, Future(w.index, tag, false, server, o, false));
    Next(if tag == "" then w1.(anonymous := Some(|w.futures|)) else w1.(namedFutures := w.namedFutures[tag := |w.futures|]))
  }

  /** The tag is new: the only rule that could have launched a query with it is this one. */
  lemma TagIsNew(r: Router, w: Walk, done: set<nat>, tag: string)
    requires Validated(r.rules) && WalkOk(r, w, done) && w.index < |r.rules| && r.rules[w.index].Defines(tag)
    ensures tag !in w.namedFutures && tag !in w.named
  {
    if tag in w.namedFutures {
      var k := w.namedFutures[tag];
      assert FutureOk(r, w, done, k);
      assert r.rules[w.futures[k].index].Defines(tag);
      assert false;
    }
    assert tag in w.named ==> PublicationOk(r, w, tag);
  }

  lemma LaunchedFutures(r: Router, w: Walk, done: set<nat>, tag: string, server: string, o: QueryOptions)
    requires FuturesOk(r, w, done) && w.terminal.None? && w.index < |r.rules|
    requires r.rules[w.index].action.Evaluate? && r.rules[w.index].action.tag == tag
    ensures FuturesOk(r, Launched(w, tag, server, o), done)
  {
    var w2 := Launched(w, tag, server, o);
    forall k | 0 <= k < |w2.futures| ensures FutureOk(r, w2, done, k) {
      if k < |w.futures| { assert FutureOk(r, w, done, k); }
    }
    forall j, k | 0 <= j < k < |w2.futures| ensures w2.futures[j].index < w2.futures[k].index {
      assert FutureOk(r, w, done, j);
    }
  }

  lemma LaunchedTags(w: Walk, tag: string, server: string, o: QueryOptions)
    requires TagsOk(w) && (tag != "" ==> tag !in w.namedFutures)
    ensures TagsOk(Launched(w, tag, server, o))
  {
  }

  lemma ExtendedPublications(r: Router, w: Walk, w2: Walk)
    requires PublicationsOk(r, w) && w2.named == w.named
    requires |w2.futures| == |w.futures| + 1 && w2.futures[..|w.futures|] == w.futures && !w2.futures[|w.futures|].settled
    requires forall t | t in w.namedFutures && t in w.named :: t in w2.namedFutures && w2.namedFutures[t] == w.namedFutures[t]
    ensures PublicationsOk(r, w2)
  {
    forall t | t in w2.named ensures PublicationOk(r, w2, t) {
      assert PublicationOk(r, w, t);
      assert w2.futures[w.namedFutures[t]] == w.futures[w.namedFutures[t]];
    }
    forall k | 0 <= k < |w2.futures| && w2.futures[k].settled && w2.futures[k].tag != "" ensures w2.futures[k].tag in w2.named {
      assert w2.futures[k] == w.futures[k];
    }
  }

  lemma LaunchedScope(r: Router, w: Walk, tag: string, server: string, o: QueryOptions)
    requires forall t | t in w.namedFutures :: w.namedFutures[t] < |w.futures|
    requires w.anonymous.Some? ==> w.anonymous.value < |w.futures|
    ensures var w2, h := Launched(w, tag, server, o), Held(server, Ask(r, w.index, server, o));
            ScopeOf(r, w2) == if tag == "" then ScopeOf(r, w).(anonymous := Some(h))
                              else ScopeOf(r, w).(named := ScopeOf(r, w).named[tag := h])
  {
    var w2, h := Launched(w, tag, server, o), Held(server, Ask(r, w.index, server, o));
    var f := Future(w.index, tag, false, server, o, false);
    assert w2.futures == w.futures + [f];
    assert HeldAt(r, w2, |w.futures|) == h;
    ExtendedHeld(r, w, w2);
    assert NamedHeld(r, w2) == if tag == "" then NamedHeld(r, w) else NamedHeld(r, w)[tag := h];
  }

  lemma ExtendedHeld(r: Router, w: Walk, w2: Walk)
    requires |w2.futures| == |w.futures| + 1 && w2.futures[..|w.futures|] == w.futures
    ensures forall k: nat | k < |w.futures| :: HeldAt(r, w2, k) == HeldAt(r, w, k)
  {
    forall k: nat | k < |w.futures| ensures HeldAt(r, w2, k) == HeldAt(r, w, k) {
      assert w2.futures[k] == w.futures[k];
    }
  }

  lemma LaunchedKeepsOk(r: Router, w: Walk, done: set<nat>, tag: string, server: string, o: QueryOptions)
    requires Validated(r.rules) && WalkOk(r, w, done) && w.terminal.None? && w.index < |r.rules|
    requires r.rules[w.index].action.Evaluate? && r.rules[w.index].action.tag == tag
    ensures var w2 := Launched(w, tag, server, o);
            WalkOk(r, w2, done) && WinnersOf(r, w2, w.armed) == WinnersOf(r, w, w.armed)
  {
    var w2 := Launched(w, tag, server, o);
    if tag != "" { TagIsNew(r, w, done, tag); }
    LaunchedFutures(r, w, done, tag, server, o);
    LaunchedTags(w, tag, server, o);
    ExtendedPublications(r, w, w2);
    forall a | a in w.armed ensures ArmedOk(r, w2, done, a) && VerdictOf(r, w2, a) == VerdictOf(r, w, a) {
      assert tag != "" ==> r.rules[w.index].Defines(tag);
      LaunchKeepsArmed(r, w, w2, done, a);
    }
  }

  /** A passed rule leaves the open outcomes alone when no winner is held back by it. */
  lemma AdvanceKeepsOpen(r: Router, w: Walk, w2: Walk)
    requires w.index < |r.rules| && !r.rules[w.index].Races() && w2.index == w.index + 1
    requires Judge(r, w.index, ScopeOf(r, w)).Miss?
    requires ScopeOf(r, w2) == Advance(r, w.index, ScopeOf(r, w))
    requires WinnersOf(r, w2, w2.armed) == WinnersOf(r, w, w.armed)
    requires IsBarrier(r, w.index, ScopeOf(r, w)) ==> WinnersOf(r, w, w.armed) == {}
    ensures Open(r, w2) == Open(r, w)
  {
  }

  /** What holds when a rule's action is about to run. */
  ghost predicate Acting(r: Router, w: Walk, done: set<nat>) {
    && Validated(r.rules) && WalkOk(r, w, done) && w.index < |r.rules|
    && !r.rules[w.index].Races()
    && BindingsDone(r, w, done, r.rules[w.index])
    && (r.rules[w.index].tags != [] ==> AllSettled(w, done))
    && Matched(r, w.index, ScopeOf(r, w))
  }

  lemma SkippedEvaluateOk(r: Router, w: Walk, done: set<nat>)
    requires Acting(r, w, done) && r.rules[w.index].action.Evaluate? && r.rules[w.index].action.server !in r.servers
    ensures StepOk(r, w, done, ActStep(r, w, done))
  {
    var tag := r.rules[w.index].action.tag;
    GoKeepsOk(r, w, done, if tag == "" then w.(anonymous := None) else w);
    AdvanceKeepsOpen(r, w, ActStep(r, w, done).walk);
  }

  lemma LaunchedEvaluateOk(r: Router, w: Walk, done: set<nat>)
    requires Acting(r, w, done) && r.rules[w.index].action.Evaluate? && r.rules[w.index].action.server in r.servers
    requires r.rules[w.index].action.speculative || w.armed == []
    ensures StepOk(r, w, done, ActStep(r, w, done))
  {
    var Evaluate(server, tag, _, a) := r.rules[w.index].action;
    var st := ActStep(r, w, done);
    var o := ApplyRouteOptions(w.options, a);
    assert st.walk == Launched(w, tag, server, o);
    LaunchedKeepsOk(r, w, done, tag, server, o);
    LaunchedScope(r, w, tag, server, o);
    AdvanceKeepsOpen(r, w, st.walk);
  }

  lemma EvaluateStepOk(r: Router, w: Walk, done: set<nat>)
    requires Acting(r, w, done) && r.rules[w.index].action.Evaluate?
    ensures StepOk(r, w, done, ActStep(r, w, done))
  {
    var Evaluate(server, _, speculative, _) := r.rules[w.index].action;
    if server !in r.servers {
      SkippedEvaluateOk(r, w, done);
    } else if speculative || w.armed == [] {
      LaunchedEvaluateOk(r, w, done);
    }
  }

  // ----- rules that decide -----

  lemma RespondStepOk(r: Router, w: Walk, done: set<nat>)
    requires Acting(r, w, done) && r.rules[w.index].action.Respond?
    ensures StepOk(r, w, done, ActStep(r, w, done))
  {
    var rule := r.rules[w.index];
    if w.armed == [] {
      assert WellShaped(rule);
      if rule.respondTag != "" {
        PublishedTagAgrees(r, w, done, ScopeOf(r, w), rule.respondTag);
      }
    }
  }

  /** The walk after a speculative route launched its query. */
  function Speculated(w: Walk, server: string, o: QueryOptions): Walk {
    Launch(w, Future(w.index, "", true, server, o, false)).(terminal := Some(|w.futures|), terminalIndex := w.index)
  }

  lemma SpeculatedFutures(r: Router, w: Walk, done: set<nat>, server: string, o: QueryOptions)
    requires FuturesOk(r, w, done) && w.terminal.None? && w.index < |r.rules|
    ensures FuturesOk(r, Speculated(w, server, o), done)
  {
    var w2 := Speculated(w, server, o);
    forall k | 0 <= k < |w2.futures| ensures FutureOk(r, w2, done, k) {
      if k < |w.futures| { assert FutureOk(r, w, done, k); }
    }
    forall j, k | 0 <= j < k < |w2.futures| ensures w2.futures[j].index < w2.futures[k].index {
      assert FutureOk(r, w, done, j);
    }
  }

  lemma SpeculatedScope(r: Router, w: Walk, server: string, o: QueryOptions)
    requires forall t | t in w.namedFutures :: w.namedFutures[t] < |w.futures|
    requires w.anonymous.Some? ==> w.anonymous.value < |w.futures|
    ensures ScopeOf(r, Speculated(w, server, o)) == ScopeOf(r, w)
  {
    var w2 := Speculated(w, server, o);
    ExtendedHeld(r, w, w2);
    assert NamedHeld(r, w2) == NamedHeld(r, w);
  }

  lemma SpeculatedKeepsOk(r: Router, w: Walk, done: set<nat>, server: string, o: QueryOptions)
    requires Acting(r, w, done) && r.rules[w.index].action.Route? && w.terminal.None?
    requires server == r.rules[w.index].action.server
    requires ResolveRoute(r, server, w.options, r.rules[w.index].action.options) == Some(o)
    ensures var w2 := Speculated(w, server, o);
            && WalkOk(r, w2, done) && ScopeOf(r, w2) == ScopeOf(r, w)
            && WinnersOf(r, w2, w.armed) == WinnersOf(r, w, w.armed)
  {
    var w2 := Speculated(w, server, o);
    SpeculatedFutures(r, w, done, server, o);
    SpeculatedScope(r, w, server, o);
    ExtendedPublications(r, w, w2);
    assert TagsOk(w2);
    forall a | a in w.armed ensures ArmedOk(r, w2, done, a) && VerdictOf(r, w2, a) == VerdictOf(r, w, a) {
      LaunchKeepsArmed(r, w, w2, done, a);
    }
  }

  lemma RouteStepOk(r: Router, w: Walk, done: set<nat>)
    requires Acting(r, w, done) && r.rules[w.index].action.Route?
    ensures StepOk(r, w, done, ActStep(r, w, done))
  {
    var Route(server, speculative, a) := r.rules[w.index].action;
    var q := ResolveRoute(r, server, w.options, a);
    var st := ActStep(r, w, done);
    if q.None? {
      GoKeepsOk(r, w, done, w);
      AdvanceKeepsOpen(r, w, st.walk);
    } else if w.armed != [] && speculative && w.terminal.None? {
      SpeculatedKeepsOk(r, w, done, server, q.value);
    } else if w.armed == [] {
      assert Judge(r, w.index, ScopeOf(r, w)) == Commit(ExchangeOutcome(server, Ask(r, w.index, server, q.value)));
    }
  }

  lemma PlainStepOk(r: Router, w: Walk, done: set<nat>)
    requires Acting(r, w, done) && (r.rules[w.index].action.NoAction? || r.rules[w.index].action.RouteOptionsAction?)
    ensures StepOk(r, w, done, ActStep(r, w, done))
  {
    var st := ActStep(r, w, done);
    match r.rules[w.index].action {
      case NoAction => GoKeepsOk(r, w, done, w);
      case RouteOptionsAction(a) => GoKeepsOk(r, w, done, w.(options := ApplyRouteOptions(w.options, a)));
    }
    AdvanceKeepsOpen(r, w, st.walk);
  }

  lemma RejectStepOk(r: Router, w: Walk, done: set<nat>)
    requires Acting(r, w, done) && (r.rules[w.index].action.Reject? || r.rules[w.index].action.Predefined?)
    ensures StepOk(r, w, done, ActStep(r, w, done))
  {
    var st := ActStep(r, w, done);
    if w.armed == [] && r.rules[w.index].action.Reject? && r.rules[w.index].action.rejectMethod.Other? {
      GoKeepsOk(r, w, done, w);
      AdvanceKeepsOpen(r, w, st.walk);
    }
  }

  lemma ActStepOk(r: Router, w: Walk, done: set<nat>)
    requires Acting(r, w, done)
    ensures StepOk(r, w, done, ActStep(r, w, done))
  {
    match r.rules[w.index].action
    case Evaluate(_, _, _, _) => EvaluateStepOk(r, w, done);
    case Respond => RespondStepOk(r, w, done);
    case Route(_, _, _) => RouteStepOk(r, w, done);
    case NoAction => PlainStepOk(r, w, done);
    case RouteOptionsAction(_) => PlainStepOk(r, w, done);
    case Reject(_) => RejectStepOk(r, w, done);
    case Predefined => RejectStepOk(r, w, done);
  }

  // ----- arming -----

  /** A race rule is armed in the scope that is current when the walk passes it. */
  lemma NewArmedOk(r: Router, w: Walk, done: set<nat>)
    requires Validated(r.rules) && WalkOk(r, w, done) && w.index < |r.rules| && r.rules[w.index].Races()
    ensures var a := NewArmed(w, r.rules[w.index], done);
            && ArmedOk(r, w, done, a) && Judgeable(r, w, done, a)
            && (a.futures != [] ==> Waiting(r, a))
            && VerdictOf(r, w, a) == Judge(r, w.index, ScopeOf(r, w))
  {
    var rule := r.rules[w.index];
    var a := NewArmed(w, rule, done);
    PendingTagsFacts(w, rule.tags, done);
    assert WellShaped(rule);
    if rule.anonymous {
      assert ArmedScope(r, w, a) == ScopeOf(r, w);
    } else {
      assert SeenBy(rule, ArmedScope(r, w, a)) == SeenBy(rule, ScopeOf(r, w));
    }
  }

  lemma WinnersOfAppend(r: Router, w: Walk, armed: seq<Armed>, a: Armed)
    ensures WinnersOf(r, w, armed + [a]) ==
            if VerdictOf(r, w, a).Commit? then WinnersOf(r, w, armed) + {VerdictOf(r, w, a).outcome} else WinnersOf(r, w, armed)
  {
  }

  /** Passing a race rule adds its verdict to the winners and changes nothing else. */
  lemma ArmingKeepsOpen(r: Router, w: Walk, done: set<nat>, w2: Walk)
    requires Validated(r.rules) && WalkOk(r, w, done) && w.index < |r.rules| && r.rules[w.index].Races()
    requires w2 == Next(w.(armed := w2.armed))
    requires WinnersOf(r, w, w2.armed) == WinnersOf(r, w, w.armed + [NewArmed(w, r.rules[w.index], done)])
    ensures Open(r, w2) == Open(r, w)
  {
    var a := NewArmed(w, r.rules[w.index], done);
    var v := Judge(r, w.index, ScopeOf(r, w));
    var winners := WinnersOf(r, w, w.armed);
    NewArmedOk(r, w, done);
    calc {
      Open(r, w2);
      { HeldIgnoresSettling(r, w, w2); }
      Allowed(r, w.index + 1, ScopeOf(r, w), WinnersOf(r, w, w.armed + [a]));
      { WinnersOfAppend(r, w, w.armed, a); }
      Allowed(r, w.index + 1, ScopeOf(r, w), if v.Commit? then winners + {v.outcome} else winners);
      Allowed(r, w.index, ScopeOf(r, w), winners);
    }
  }

  lemma RearmedOk(r: Router, w: Walk, done: set<nat>, armed: seq<Armed>)
    requires WalkOk(r, w, done) && w.terminal.None? && w.index < |r.rules| && Ascending(armed)
    requires forall a | a in armed :: ArmedOk(r, w, done, a) && a.index <= w.index && Waiting(r, a)
    ensures WalkOk(r, Next(w.(armed := armed)), done)
  {
    var w2 := Next(w.(armed := armed));
    forall k | 0 <= k < |w2.futures| ensures FutureOk(r, w2, done, k) { assert FutureOk(r, w, done, k); }
    forall t | t in w2.named ensures PublicationOk(r, w2, t) { assert PublicationOk(r, w, t); }
    forall a | a in armed ensures ArmedOk(r, w2, done, a) { assert ArmedOk(r, w, done, a); }
  }

  lemma DisarmedOk(r: Router, w: Walk, done: set<nat>)
    requires WalkOk(r, w, done) && w.terminal.None?
    ensures WalkOk(r, w.(armed := []), done)
  {
    var w2 := w.(armed := []);
    forall k | 0 <= k < |w2.futures| ensures FutureOk(r, w2, done, k) { assert FutureOk(r, w, done, k); }
    forall t | t in w2.named ensures PublicationOk(r, w2, t) { assert PublicationOk(r, w, t); }
  }

  lemma ArmStepOk(r: Router, w: Walk, done: set<nat>)
    requires Validated(r.rules) && WalkOk(r, w, done) && AllSettled(w, done)
    requires w.index < |r.rules| && r.rules[w.index].Races() && ArmedInRange(r, w.armed)
    ensures StepOk(r, w, done, ArmStep(r, w, done))
    ensures forall a | a in ArmStep(r, w, done).missed :: Lost(r, w, done, a)
  {
    var a := NewArmed(w, r.rules[w.index], done);
    var armed := w.armed + [a];
    NewArmedOk(r, w, done);
    if a.futures != [] {
      RearmedOk(r, w, done, armed);
      ArmingKeepsOpen(r, w, done, Next(w.(armed := armed)));
    } else {
      ArmSweepOk(r, w, done, a);
    }
  }

  lemma ArmSweepOk(r: Router, w: Walk, done: set<nat>, a: Armed)
    requires Validated(r.rules) && WalkOk(r, w, done) && AllSettled(w, done)
    requires w.index < |r.rules| && r.rules[w.index].Races() && ArmedInRange(r, w.armed)
    requires a == NewArmed(w, r.rules[w.index], done) && a.futures == []
    ensures StepOk(r, w, done, ArmStep(r, w, done))
    ensures forall a | a in ArmStep(r, w, done).missed :: Lost(r, w, done, a)
  {
    var armed := w.armed + [a];
    NewArmedOk(r, w, done);
    SweepKeepsWinners(r, w, done, armed);
    if Sweep(r, w, done, armed).winner.None? {
      ArmSweepMissed(r, w, done, a);
    } else {
      ArmSweepWon(r, w, done, a);
    }
  }

  lemma ArmSweepMissed(r: Router, w: Walk, done: set<nat>, a: Armed)
    requires Validated(r.rules) && WalkOk(r, w, done)
    requires w.index < |r.rules| && r.rules[w.index].Races()
    requires a == NewArmed(w, r.rules[w.index], done) && a.futures == []
    requires ArmedInRange(r, w.armed + [a]) && Sweep(r, w, done, w.armed + [a]).winner.None?
    requires WinnersOf(r, w, Sweep(r, w, done, w.armed + [a]).rest) == WinnersOf(r, w, w.armed + [a])
    ensures var w2 := Next(w.(armed := Sweep(r, w, done, w.armed + [a]).rest)); WalkOk(r, w2, done) && Open(r, w2) == Open(r, w)
  {
    var armed := w.armed + [a];
    var s := Sweep(r, w, done, armed);
    SweepMembers(r, w, done, armed);
    SweepLeavesWaiting(r, w, done, armed);
    SweepAscends(r, w, done, armed);
    forall b | b in s.rest ensures b in w.armed {
      assert !Ready(b, done) && Ready(a, done);
    }
    RearmedOk(r, w, done, s.rest);
    ArmingKeepsOpen(r, w, done, Next(w.(armed := s.rest)));
  }

  lemma ArmSweepWon(r: Router, w: Walk, done: set<nat>, a: Armed)
    requires Validated(r.rules) && WalkOk(r, w, done)
    requires w.index < |r.rules| && r.rules[w.index].Races() && ArmedInRange(r, w.armed)
    requires a == NewArmed(w, r.rules[w.index], done) && a.futures == [] && ArmedInRange(r, w.armed + [a])
    requires var s := Sweep(r, w, done, w.armed + [a]);
             s.winner.Some? && DecisionOutcome(r, w, s.winner.value.1) in WinnersOf(r, w, w.armed + [a])
    ensures StepOk(r, w, done, ArmStep(r, w, done))
  {
    var armed := w.armed + [a];
    var s := Sweep(r, w, done, armed);
    DisarmedOk(r, w, done);
    WinnerIsOpen(r, w, done, a, DecisionOutcome(r, w, s.winner.value.1));
    DecisionsAreFresh(r, w, done, armed);
    FuturesIgnoreArming(r, w, done, s.rest);
  }

  lemma WinnerIsOpen(r: Router, w: Walk, done: set<nat>, a: Armed, o: Outcome)
    requires Validated(r.rules) && WalkOk(r, w, done) && w.index < |r.rules| && r.rules[w.index].Races()
    requires a == NewArmed(w, r.rules[w.index], done)
    requires o in WinnersOf(r, w, w.armed + [a])
    ensures o in Open(r, w)
  {
    NewArmedOk(r, w, done);
    WinnersOfAppend(r, w, w.armed, a);
    WinnersStayAllowed(r, w.index + 1, ScopeOf(r, w), WinnersOf(r, w, w.armed + [a]));
  }

  lemma FuturesIgnoreArming(r: Router, w: Walk, done: set<nat>, armed: seq<Armed>)
    requires FuturesOk(r, w, done)
    ensures FuturesOk(r, w.(armed := armed), done)
  {
    forall k | 0 <= k < |w.futures| ensures FutureOk(r, w.(armed := armed), done, k) { assert FutureOk(r, w, done, k); }
  }

  /** A race route is asked anew: only a speculative terminal query is ever consumed. */
  lemma DecisionsAreFresh(r: Router, w: Walk, done: set<nat>, armed: seq<Armed>)
    requires ArmedInRange(r, armed)
    ensures var s := Sweep(r, w, done, armed);
            s.winner.Some? && s.winner.value.1.Exchange? ==> s.winner.value.1.pending.future.None?
  {
    SweepMembers(r, w, done, armed);
  }

  // ----- any step -----

  lemma PendingFirst(w: Walk, rule: Rule, done: set<nat>)
    requires forall t | t in w.namedFutures :: w.namedFutures[t] < |w.futures|
    requires w.anonymous.Some? ==> w.anonymous.value < |w.futures|
    ensures var p := PendingBindings(w, rule, done);
            if p == [] then
              && (forall t | t in rule.tags && t in w.namedFutures :: w.namedFutures[t] in done)
              && (rule.anonymous && w.anonymous.Some? ==> w.anonymous.value in done)
            else p[0] < |w.futures| && p[0] !in done
  {
    PendingTagsFacts(w, rule.tags, done);
    var p := PendingBindings(w, rule, done);
    if p != [] && p[0] in PendingTags(w, rule.tags, done) {
      var t :| t in rule.tags && t in w.namedFutures && w.namedFutures[t] == p[0];
    }
  }

  lemma MatchStepOk(r: Router, w: Walk, done: set<nat>)
    requires Validated(r.rules) && WalkOk(r, w, done) && w.index < |r.rules| && !r.rules[w.index].Races()
    requires BindingsDone(r, w, done, r.rules[w.index])
    requires r.rules[w.index].tags != [] ==> AllSettled(w, done)
    ensures StepOk(r, w, done, MatchStep(r, w, done))
  {
    var rule := r.rules[w.index];
    ObserveIsSeenBy(r, w, done, rule, ScopeOf(r, w), ViewOfOption(r, w, done, w.anonymous));
    if Matched(r, w.index, ScopeOf(r, w)) {
      ActStepOk(r, w, done);
    } else {
      GoKeepsOk(r, w, done, w);
      AdvanceKeepsOpen(r, w, Next(w));
    }
  }

  /** The step theorem: whatever has arrived, a rule step keeps the invariant and the open
      outcomes, and a step that decides picks an open outcome. */
  lemma RuleStepOk(r: Router, w: Walk, done: set<nat>)
    requires Validated(r.rules) && WalkOk(r, w, done)
    ensures ArmedInRange(r, w.armed)
    ensures StepOk(r, w, done, RuleStep(r, w, done))
  {
    assert ArmedInRange(r, w.armed) by {
      forall k | 0 <= k < |w.armed| ensures w.armed[k].index < |r.rules| { assert ArmedOk(r, w, done, w.armed[k]); }
    }
    if w.index < |r.rules| {
      var rule := r.rules[w.index];
      if !rule.HasBindings() {
        MatchStepOk(r, w, done);
      } else {
        var w1 := Settle(r, w, done);
        SettleKeepsOk(r, w, done);
        assert Open(r, w1) == Open(r, w);
        if rule.race {
          ArmStepOk(r, w1, done);
        } else {
          PendingFirst(w1, rule, done);
          if PendingBindings(w1, rule, done) == [] { MatchStepOk(r, w1, done); }
        }
      }
    }
  }
}
