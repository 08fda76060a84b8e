/** What the assumption that settling and sweeping is one step excludes: answers that arrive between the two
    halves.  They do harm exactly if a ready armed rule that can act binds one of them by tag, and it is
    the answer of a query that did not fail. */
module SplitSweep {
  import opened Optional
  import opened DnsRules
  import opened RuleWalk
  import opened WalkInvariant
  import opened WalkSteps
  import opened WalkMachine
  import opened WalkRuns

  /** The query of the tag was answered, and its answer is not published. */
  predicate Unseen(r: Router, w: Walk, done: set<nat>, t: string) {
    && t in w.namedFutures && w.namedFutures[t] < |w.futures| && w.namedFutures[t] in done
    && !w.futures[w.namedFutures[t]].settled && ReplyOf(r, w.futures[w.namedFutures[t]]).Reply?
  }

  predicate MissesAnswer(r: Router, w: Walk, done: set<nat>, rule: Rule) { exists t | t in rule.tags :: Unseen(r, w, done, t) }

  /** Two walks that differ in what is published, but not in what a rule can read of the tags it binds. */
  ghost predicate ReadAlike(w: Walk, w': Walk, rule: Rule) {
    && w' == w.(named := w'.named, futures := w'.futures) && |w'.futures| == |w.futures|
    && (forall k | 0 <= k < |w.futures| :: w'.futures[k] == w.futures[k].(settled := w'.futures[k].settled))
    && (forall t | t in rule.tags ::
          PublishedReading(w, t) == PublishedReading(w', t) && (PublishedReading(w, t).Some? ==> PublishedServer(w, t) == PublishedServer(w', t)))
  }

  lemma ReadAlikeViews(r: Router, w: Walk, w': Walk, done: set<nat>, rule: Rule)
    requires ReadAlike(w, w', rule)
    ensures forall f :: ViewOfOption(r, w, done, f) == ViewOfOption(r, w', done, f)
    ensures forall k: nat :: ViewOf(r, w, done, k) == ViewOf(r, w', done, k) && ServerOf(w, k) == ServerOf(w', k)
    ensures forall x :: Observe(rule, x, w) == Observe(rule, x, w')
  {
    forall k: nat ensures ViewOf(r, w, done, k) == ViewOf(r, w', done, k) {
      if k < |w.futures| { assert ReplyOf(r, w'.futures[k]) == ReplyOf(r, w.futures[k]); }
    }
    forall x ensures Observe(rule, x, w) == Observe(rule, x, w') {
      forall t | t in rule.tags ensures
        (t in w.named && w.named[t].response.Some?) == (t in w'.named && w'.named[t].response.Some?)
        && (t in w.named && w.named[t].response.Some? ==> w.named[t].response == w'.named[t].response)
      {
        assert PublishedReading(w, t) == PublishedReading(w', t);
      }
      assert Observe(rule, x, w).named == Observe(rule, x, w').named;
    }
  }

  /** Judging reads the readable responses of bound tags only; a missing response has no server. */
  lemma JudgeReadsBoundTags(r: Router, w: Walk, w': Walk, done: set<nat>, a: Armed)
    requires a.index < |r.rules| && WellShaped(r.rules[a.index]) && ReadAlike(w, w', r.rules[a.index])
    ensures JudgeArmed(r, w, done, a) == JudgeArmed(r, w', done, a)
  {
    var rule := r.rules[a.index];
    ReadAlikeViews(r, w, w', done, rule);
    assert rule.respondTag != "" ==> rule.respondTag in rule.tags;
  }

  lemma {:induction false} SweepAgrees(r: Router, w: Walk, w': Walk, done: set<nat>, armed: seq<Armed>)
    requires ArmedInRange(r, armed)
    requires forall a | a in armed && Ready(a, done) :: JudgeArmed(r, w, done, a) == JudgeArmed(r, w', done, a)
    ensures Sweep(r, w, done, armed) == Sweep(r, w', done, armed)
  {
    if armed != [] {
      assert armed[0] in armed && forall a | a in armed[1..] :: a in armed;
      SweepAgrees(r, w, w', done, armed[1..]);
    }
  }

  lemma OldPublicationStays(r: Router, w: Walk, done: set<nat>, t: string)
    requires WalkOk(r, w, done) && t in w.named
    ensures var w' := Settle(r, w, done); t in w'.named && w'.named[t] == w.named[t]
  {
    var w' := Settle(r, w, done);
    SettleKeepsOk(r, w, done);
    assert PublicationOk(r, w, t);
    var k := w.namedFutures[t];
    assert w'.futures[k] == w.futures[k].(settled := w'.futures[k].settled);
    SettlesOn(r, w, done, |w.futures|, k);
    assert w'.futures[k].settled && w'.futures[k].tag == t;
    assert PublicationOk(r, w', t);
    assert ReplyOf(r, w'.futures[k]) == ReplyOf(r, w.futures[k]);
  }

  /** What settling adds is the answer, arrived and unpublished, of the tag's query. */
  lemma NewPublicationArrived(r: Router, w: Walk, done: set<nat>, t: string)
    requires WalkOk(r, w, done) && t !in w.named && t in Settle(r, w, done).named
    ensures t in w.namedFutures && w.namedFutures[t] < |w.futures|
    ensures w.namedFutures[t] in done && !w.futures[w.namedFutures[t]].settled
    ensures PublishedReading(Settle(r, w, done), t) == Reading(ReplyOf(r, w.futures[w.namedFutures[t]]))
  {
    var w' := Settle(r, w, done);
    SettleKeepsOk(r, w, done);
    assert PublicationOk(r, w', t);
    var k := w'.namedFutures[t];
    assert FutureOk(r, w', done, k);
    assert w.futures[k].tag == t && ReplyOf(r, w'.futures[k]) == ReplyOf(r, w.futures[k]);
  }

  lemma {:induction false} SettlesOn(r: Router, w: Walk, done: set<nat>, n: nat, k: nat)
    requires n <= |w.futures| && k < |w.futures| && w.futures[k].settled
    ensures SettleFirst(r, w, done, n).futures[k].settled
  {
    if n > 0 { SettlesOn(r, w, done, n - 1, k); }
  }

  /** For a rule that misses no answer, settling changes nothing it can read. */
  lemma SettlingIsUnseen(r: Router, w: Walk, done: set<nat>, rule: Rule)
    requires WalkOk(r, w, done) && !MissesAnswer(r, w, done, rule)
    ensures ReadAlike(w, Settle(r, w, done), rule)
  {
    var w' := Settle(r, w, done);
    SettleKeepsOk(r, w, done);
    forall t | t in rule.tags
      ensures PublishedReading(w, t) == PublishedReading(w', t)
      ensures PublishedReading(w, t).Some? ==> PublishedServer(w, t) == PublishedServer(w', t)
    {
      if t in w.named {
        OldPublicationStays(r, w, done, t);
      } else if t in w'.named {
        NewPublicationArrived(r, w, done, t);
        assert !Unseen(r, w, done, t);
      }
    }
  }

  // ----- which matching can tell -----

  /** The router that matches one rule on one view, and nothing else. */
  function Picky(r: Router, index: nat, seen: View): Router { r.(matches := (i, v) => i == index && v == seen) }

  lemma {:induction false} SettleIgnoresMatching(r: Router, r': Router, w: Walk, done: set<nat>, n: nat)
    requires n <= |w.futures| && r' == r.(matches := r'.matches)
    ensures SettleFirst(r', w, done, n) == SettleFirst(r, w, done, n)
  {
    if n > 0 {
      SettleIgnoresMatching(r, r', w, done, n - 1);
      var w1 := SettleFirst(r, w, done, n - 1);
      assert ViewOf(r', w1, done, n - 1) == ViewOf(r, w1, done, n - 1);
    }
  }

  /** The view an armed rule is judged on. */
  function SeenArmed(r: Router, w: Walk, done: set<nat>, a: Armed): View
    requires a.index < |r.rules|
  {
    Observe(r.rules[a.index],
            if a.bindsAnonymous then ViewOfOption(r, w, done, a.anonymous) else ViewOfOption(r, w, done, w.anonymous), w)
  }

  /** The rule would decide if it matched. */
  predicate CanAct(r: Router, a: Armed)
    requires a.index < |r.rules|
  {
    match r.rules[a.index].action
    case Respond => true
    case Route(server, _, o) => ResolveRoute(r, server, a.options, o).Some?
    case Reject(m) => !m.Other?
    case Predefined => true
    case _ => false
  }

  lemma CannotActMisses(r: Router, w: Walk, done: set<nat>, a: Armed)
    requires a.index < |r.rules| && !CanAct(r, a)
    ensures JudgeArmed(r, w, done, a).None?
  {
  }

  lemma PickyJudges(r: Router, seen: View, index: nat, w: Walk, done: set<nat>, b: Armed)
    requires b.index < |r.rules|
    ensures var r' := Picky(r, index, seen);
            && SeenArmed(r', w, done, b) == SeenArmed(r, w, done, b)
            && (b.index != index || SeenArmed(r, w, done, b) != seen ==> JudgeArmed(r', w, done, b).None?)
            && (b.index == index && SeenArmed(r, w, done, b) == seen && CanAct(r, b) ==> JudgeArmed(r', w, done, b).Some?)
  {
    var r' := Picky(r, index, seen);
    assert forall f :: ViewOfOption(r', w, done, f) == ViewOfOption(r, w, done, f);
    assert r.rules[b.index].action.Route? ==>
             ResolveRoute(r', r.rules[b.index].action.server, b.options, r.rules[b.index].action.options)
             == ResolveRoute(r, r.rules[b.index].action.server, b.options, r.rules[b.index].action.options);
  }

  /** An unseen answer is missing from what a rule that binds it sees, and is there once settled. */
  lemma UnpublishedIsMissed(r: Router, w: Walk, done: set<nat>, rule: Rule, t: string, x: Option<Message>)
    requires WalkOk(r, w, done) && t in rule.tags && Unseen(r, w, done, t)
    ensures t !in Observe(rule, x, w).named && t in Observe(rule, x, Settle(r, w, done)).named
  {
    var k, w' := w.namedFutures[t], Settle(r, w, done);
    SettleKeepsOk(r, w, done);
    assert t in w.named ==> PublicationOk(r, w, t);
    assert w'.futures[k] == w.futures[k].(settled := true) && w'.futures[k].tag == t;
    assert PublicationOk(r, w', t);
    assert ReplyOf(r, w'.futures[k]) == ReplyOf(r, w.futures[k]);
  }

  lemma SameIndexIsSame(armed: seq<Armed>, a: Armed, b: Armed)
    requires Ascending(armed) && a in armed && b in armed
    ensures a.index == b.index ==> a == b
  {
  }

  /** A ready rule that can act and misses an answer: for some matching it wins when settling comes first, and
      is dropped unseen when it does not. */
  lemma HarmfulArrival(r: Router, w: Walk, done: set<nat>, armed: seq<Armed>, a: Armed) returns (picky: Router)
    requires WalkOk(r, w, done) && ArmedInRange(r, armed) && Ascending(armed)
    requires a in armed && Ready(a, done) && CanAct(r, a) && MissesAnswer(r, w, done, r.rules[a.index])
    ensures picky == r.(matches := picky.matches)
    ensures Sweep(picky, w, done, armed).winner.None? && a in Sweep(picky, w, done, armed).missed
    ensures var s := Sweep(picky, Settle(r, w, done), done, armed); s.winner.Some? && s.winner.value.0 == a
  {
    var w' := Settle(r, w, done);
    var seen := SeenArmed(r, w', done, a);
    picky := Picky(r, a.index, seen);
    var t :| t in r.rules[a.index].tags && Unseen(r, w, done, t);
    UnpublishedIsMissed(r, w, done, r.rules[a.index], t,
      if a.bindsAnonymous then ViewOfOption(r, w, done, a.anonymous) else ViewOfOption(r, w, done, w.anonymous));
    assert t !in SeenArmed(r, w, done, a).named;
    UnpublishedIsMissed(r, w, done, r.rules[a.index], t,
      if a.bindsAnonymous then ViewOfOption(r, w', done, a.anonymous) else ViewOfOption(r, w', done, w'.anonymous));
    assert t in seen.named;
    forall b | b in armed ensures JudgeArmed(picky, w, done, b).None? && (b != a ==> JudgeArmed(picky, w', done, b).None?) {
      SameIndexIsSame(armed, a, b);
      PickyJudges(r, seen, a.index, w, done, b);
      PickyJudges(r, seen, a.index, w', done, b);
    }
    PickyJudges(r, seen, a.index, w', done, a);
    SweepMembers(picky, w, done, armed);
    SweepPriority(picky, w, done, armed, a);
    SweepMembers(picky, w', done, armed);
    SweepPriority(picky, w', done, armed, a);
  }

  /** Without such a rule no matching can tell the two orders apart. */
  lemma HarmlessArrivals(r: Router, p: Router, w: Walk, done: set<nat>, armed: seq<Armed>)
    requires Validated(r.rules) && WalkOk(r, w, done) && ArmedInRange(r, armed) && p == r.(matches := p.matches)
    requires forall a | a in armed && Ready(a, done) && a.index < |r.rules| && CanAct(r, a) :: !MissesAnswer(r, w, done, r.rules[a.index])
    ensures Sweep(p, w, done, armed) == Sweep(p, Settle(r, w, done), done, armed)
  {
    var w' := Settle(r, w, done);
    forall a | a in armed && Ready(a, done) ensures JudgeArmed(p, w, done, a) == JudgeArmed(p, w', done, a) {
      if CanAct(r, a) {
        SettlingIsUnseen(r, w, done, r.rules[a.index]);
        JudgeReadsBoundTags(p, w, w', done, a);
      } else {
        CannotActMisses(p, w, done, a);
        CannotActMisses(p, w', done, a);
      }
    }
    SweepAgrees(p, w, w', done, armed);
  }

  /** Some matching tells sweeping before settling from sweeping after it. */
  ghost predicate OrderMatters(r: Router, w: Walk, done: set<nat>, armed: seq<Armed>)
    requires ArmedInRange(r, armed)
  {
    exists p: Router :: SameButMatching(r, p) && Sweep(p, w, done, armed) != Sweep(p, Settle(r, w, done), done, armed)
  }

  ghost predicate SameButMatching(r: Router, p: Router) { p == r.(matches := p.matches) }

  /** An answer that arrives between settle and sweep does harm, for some matching, if and only if a ready armed
      rule that can act binds an arrived, unpublished answer by tag.  This holds for the armed rules of a
      resumption, and for those swept when a rule is armed. */
  lemma SplitSweepIff(r: Router, w: Walk, done: set<nat>, armed: seq<Armed>)
    requires Validated(r.rules) && WalkOk(r, w, done) && ArmedInRange(r, armed) && Ascending(armed)
    ensures OrderMatters(r, w, done, armed)
            <==> exists a :: a in armed && Ready(a, done) && a.index < |r.rules| && CanAct(r, a) && MissesAnswer(r, w, done, r.rules[a.index])
  {
    if a :| a in armed && Ready(a, done) && a.index < |r.rules| && CanAct(r, a) && MissesAnswer(r, w, done, r.rules[a.index]) {
      var picky := HarmfulArrival(r, w, done, armed, a);
      assert SameButMatching(r, picky);
    } else {
      forall p: Router | SameButMatching(r, p) ensures Sweep(p, w, done, armed) == Sweep(p, Settle(r, w, done), done, armed) {
        HarmlessArrivals(r, p, w, done, armed);
      }
    }
  }

  // ----- a run into such a state -----

  /** One query, and a race rule that responds with its answer. */
  function Example(options: RouteOptions, answer: Message): Router {
    Router([Rule([], false, "", false, Evaluate("s", "t", false, options)), Rule(["t"], false, "t", true, Respond)],
           map["s" := false], "s", AsIs, false, (i, v) => true, (i, s, q) => Reply(answer))
  }

  lemma {:induction false} NothingSettles(r: Router, w: Walk, n: nat)
    requires n <= |w.futures|
    ensures SettleFirst(r, w, {}, n) == w
  {
    if n > 0 { NothingSettles(r, w, n - 1); }
  }

  lemma ExampleIsValidated(options: RouteOptions, answer: Message)
    ensures Validated(Example(options, answer).rules)
  {
    var rules := Example(options, answer).rules;
    assert rules[0].Defines("t");
    assert forall i, t | 0 <= i < |rules| && t in rules[i].tags :: i == 1 && t == "t";
  }

  function ExampleFuture(options: RouteOptions, o: QueryOptions): Future {
    Future(0, "t", false, "s", ApplyRouteOptions(o, options), false)
  }

  /** The three walks the example passes through: the query launched, and the race rule armed. */
  function LaunchedWalk(options: RouteOptions, o: QueryOptions): Walk {
    InitialWalk(o).(index := 1, futures := [ExampleFuture(options, o)], namedFutures := map["t" := 0])
  }

  function ArmedWalk(options: RouteOptions, o: QueryOptions): Walk {
    LaunchedWalk(options, o).(index := 2, armed := [Armed(1, [0], None, false, o)])
  }

  lemma ExampleLaunches(options: RouteOptions, answer: Message, o: QueryOptions)
    ensures RuleStep(Example(options, answer), InitialWalk(o), {}) == Step(LaunchedWalk(options, o), Continue, [], Nobody)
  {
  }

  lemma ExampleArms(options: RouteOptions, answer: Message, o: QueryOptions)
    ensures RuleStep(Example(options, answer), LaunchedWalk(options, o), {}) == Step(ArmedWalk(options, o), Continue, [], Nobody)
  {
    var r, w := Example(options, answer), LaunchedWalk(options, o);
    NothingSettles(r, w, 1);
    assert ["t"][1..] == [] && PendingTags(w, ["t"], {}) == [0];
    assert NewArmed(w, r.rules[1], {}) == Armed(1, [0], None, false, o);
  }

  /** The walk launches the query, arms the race rule and drains.  If the answer arrives after the settling and
      before the sweep, the rule responds that there is no response; in every run of the exchange it
      responds with the answer. */
  lemma SplitLosesTheAnswer(options: RouteOptions, answer: Message, o: QueryOptions) returns (run: seq<Config>)
    ensures run != []
    ensures var r := Example(options, answer); var c := run[|run| - 1];
            && Validated(r.rules) && IsRun(r, o, run) && c.control == Checking(Drain) && c.done == {} && |c.walk.futures| == 1
            && ArmedInRange(r, c.walk.armed)
            && var s := Sweep(r, Settle(r, c.walk, {}), {0}, c.walk.armed);
               s.winner.Some? && s.winner.value.1 == Return(RespondOutcome(None, None))
    ensures AllowedOutcomes(Example(options, answer), o) == {RespondOutcome(Some(answer), Some("s"))}
  {
    var r := Example(options, answer);
    ExampleIsValidated(options, answer);
    run := ExampleRun(options, answer, o);
    ExampleSweep(options, answer, o);
    ExampleOutcomes(options, answer, o);
  }

  lemma ExampleRun(options: RouteOptions, answer: Message, o: QueryOptions) returns (run: seq<Config>)
    ensures run != [] && IsRun(Example(options, answer), o, run)
    ensures var c := run[|run| - 1]; c.walk == ArmedWalk(options, o) && c.control == Checking(Drain) && c.done == {}
  {
    var r := Example(options, answer);
    var c0 := Initial(o);
    ExampleLaunches(options, answer, o);
    var c1 := Move(r, c0);
    assert c1 == c0.(walk := LaunchedWalk(options, o));
    ExampleArms(options, answer, o);
    var c2 := Move(r, c1);
    assert c2 == c0.(walk := ArmedWalk(options, o));
    var c3 := Move(r, c2);
    assert NextStep(r, c0, c1) && NextStep(r, c1, c2) && NextStep(r, c2, c3);
    run := [c0, c1, c2, c3];
  }

  lemma ExampleSweep(options: RouteOptions, answer: Message, o: QueryOptions)
    ensures var r, w := Example(options, answer), ArmedWalk(options, o);
            var s := Sweep(r, Settle(r, w, {}), {0}, w.armed);
            s.winner.Some? && s.winner.value.1 == Return(RespondOutcome(None, None))
  {
    NothingSettles(Example(options, answer), ArmedWalk(options, o), 1);
  }

  lemma ExampleOutcomes(options: RouteOptions, answer: Message, o: QueryOptions)
    ensures AllowedOutcomes(Example(options, answer), o) == {RespondOutcome(Some(answer), Some("s"))}
  {
    var r := Example(options, answer);
    var s0 := Scope(o, None, map[]);
    var s1 := Advance(r, 0, s0);
    assert s1 == s0.(named := map["t" := Held("s", Reply(answer))]);
    assert Judge(r, 1, s1) == Commit(RespondOutcome(Some(answer), Some("s")));
    assert Allowed(r, 2, s1, {RespondOutcome(Some(answer), Some("s"))}) == {RespondOutcome(Some(answer), Some("s"))};
    assert Allowed(r, 1, s1, {}) == Allowed(r, 2, s1, {RespondOutcome(Some(answer), Some("s"))});
  }
}
