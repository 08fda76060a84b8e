/** What the assumption that settling and matching a rule is one step excludes: answers that arrive after the
    settling and before the check of the rule's bindings.  No race rule is needed for harm. */
module SplitRule {
  import opened Optional
  import opened DnsRules
  import opened RuleWalk
  import opened WalkInvariant
  import opened WalkSteps
  import opened WalkMachine
  import opened WalkRuns
  import opened SplitSweep

  /** A rule that waits for its bindings, on a walk that was settled before the latest arrivals. */
  function LateStep(r: Router, w: Walk, done: set<nat>): Step
    requires w.index < |r.rules|
  {
    var pending := PendingBindings(w, r.rules[w.index], done);
    if pending != [] then Stay(w, Await(pending[0])) else MatchStep(r, w, done)
  }

  function Unmarked(futures: seq<Future>): seq<Future> {
    seq(|futures|, k requires 0 <= k < |futures| => futures[k].(settled := false))
  }

  /** A step without what settling alone changes. */
  function Plain(st: Step): Step { st.(walk := st.walk.(named := map[], futures := Unmarked(st.walk.futures))) }

  /** The rule would do something if it matched. */
  ghost predicate Acts(r: Router, w: Walk, done: set<nat>)
    requires w.index < |r.rules|
  {
    Plain(ActStep(r, w, done)) != Plain(Go(w))
  }

  lemma MatchingIsOutside(r: Router, p: Router, w: Walk, done: set<nat>)
    requires SameButMatching(r, p) && w.index < |r.rules|
    ensures ActStep(p, w, done) == ActStep(r, w, done)
    ensures forall f :: ViewOfOption(p, w, done, f) == ViewOfOption(r, w, done, f)
  {
    assert forall k: nat :: ViewOf(p, w, done, k) == ViewOf(r, w, done, k);
  }

  /** The walks differ at most in what settling changes. */
  ghost predicate SameButSettling(w: Walk, w': Walk) {
    && w' == w.(named := w'.named, futures := w'.futures) && |w'.futures| == |w.futures|
    && (forall k | 0 <= k < |w.futures| :: w'.futures[k] == w.futures[k].(settled := w'.futures[k].settled))
    && Unmarked(w'.futures) == Unmarked(w.futures)
  }

  lemma SettledIsPlain(r: Router, w: Walk, done: set<nat>)
    ensures SameButSettling(w, Settle(r, w, done))
  {
    SettleKeeps(r, w, done, |w.futures|);
  }

  lemma LaunchAlike(w: Walk, w': Walk, f: Future)
    requires SameButSettling(w, w')
    ensures Unmarked(w'.futures + [f]) == Unmarked(w.futures + [f])
  {
    assert Unmarked(w.futures + [f]) == Unmarked(w.futures) + [f.(settled := false)];
    assert Unmarked(w'.futures + [f]) == Unmarked(w'.futures) + [f.(settled := false)];
  }

  lemma EvaluateAlike(r: Router, w: Walk, w': Walk, server: string, tag: string, speculative: bool, a: RouteOptions)
    requires SameButSettling(w, w')
    ensures Plain(EvaluateStep(r, w, server, tag, speculative, a)) == Plain(EvaluateStep(r, w', server, tag, speculative, a))
  {
    LaunchAlike(w, w', Future(w.index, tag, false, server, ApplyRouteOptions(w.options, a), false));
  }

  lemma RouteAlike(r: Router, w: Walk, w': Walk, server: string, speculative: bool, a: RouteOptions)
    requires SameButSettling(w, w')
    ensures Plain(RouteStep(r, w, server, speculative, a)) == Plain(RouteStep(r, w', server, speculative, a))
  {
    var q := ResolveRoute(r, server, w.options, a);
    if q.Some? { LaunchAlike(w, w', Future(w.index, "", true, server, q.value, false)); }
    assert forall k: nat :: ServerOf(w, k) == ServerOf(w', k);
  }

  /** Actions other than `respond` do not read what is published. */
  lemma ActionsIgnorePublishing(r: Router, w: Walk, w': Walk, done: set<nat>)
    requires w.index < |r.rules| && !r.rules[w.index].action.Respond? && SameButSettling(w, w')
    ensures Plain(ActStep(r, w, done)) == Plain(ActStep(r, w', done))
  {
    match r.rules[w.index].action
    case Evaluate(server, tag, speculative, a) => EvaluateAlike(r, w, w', server, tag, speculative, a);
    case Route(server, speculative, a) => RouteAlike(r, w, w', server, speculative, a);
    case _ =>
  }

  /** And `respond` reads what the rule can read. */
  lemma RespondReadsAlike(r: Router, w: Walk, w': Walk, done: set<nat>)
    requires w.index < |r.rules| && r.rules[w.index].action.Respond? && WellShaped(r.rules[w.index])
    requires ReadAlike(w, w', r.rules[w.index]) && SameButSettling(w, w')
    ensures Plain(ActStep(r, w, done)) == Plain(ActStep(r, w', done))
  {
    var rule := r.rules[w.index];
    ReadAlikeViews(r, w, w', done, rule);
    assert rule.respondTag != "" ==> rule.respondTag in rule.tags;
  }

  lemma ActsAlike(r: Router, w: Walk, w': Walk, done: set<nat>)
    requires w.index < |r.rules| && SameButSettling(w, w')
    ensures Acts(r, w, done) <==> Acts(r, w', done)
    ensures r.rules[w.index].action.Respond? ==> Acts(r, w, done)
  {
    if !r.rules[w.index].action.Respond? { ActionsIgnorePublishing(r, w, w', done); }
  }

  lemma PendingIgnoresSettling(w: Walk, w': Walk, rule: Rule, done: set<nat>)
    requires w' == w.(named := w'.named, futures := w'.futures)
    ensures PendingBindings(w', rule, done) == PendingBindings(w, rule, done)
  {
    PendingTagsIgnoreSettling(w, w', rule.tags, done);
  }

  lemma {:induction false} PendingTagsIgnoreSettling(w: Walk, w': Walk, tags: seq<string>, done: set<nat>)
    requires w' == w.(named := w'.named, futures := w'.futures)
    ensures PendingTags(w', tags, done) == PendingTags(w, tags, done)
  {
    if tags != [] { PendingTagsIgnoreSettling(w, w', tags[1..], done); }
  }

  /** The rule is not raced, and binds something. */
  predicate WaitsForBindings(r: Router, w: Walk) {
    w.index < |r.rules| && r.rules[w.index].HasBindings() && !r.rules[w.index].race
  }

  lemma WholeStep(r: Router, p: Router, w: Walk, done: set<nat>)
    requires SameButMatching(r, p) && WaitsForBindings(r, w) && ArmedInRange(r, w.armed)
    ensures var w' := Settle(r, w, done);
            && w'.index == w.index && RuleStep(p, w, done) == LateStep(p, w', done)
            && PendingBindings(w', r.rules[w.index], done) == PendingBindings(w, r.rules[w.index], done)
  {
    SettleIgnoresMatching(r, p, w, done, |w.futures|);
    SettledIsPlain(r, w, done);
    PendingIgnoresSettling(w, Settle(r, w, done), r.rules[w.index], done);
  }

  /** The rule reads the same before and after settling, so it matches alike and acts alike. */
  lemma UnseenLateness(r: Router, p: Router, w: Walk, done: set<nat>)
    requires Validated(r.rules) && WalkOk(r, w, done) && SameButMatching(r, p) && w.index < |r.rules|
    requires !MissesAnswer(r, w, done, r.rules[w.index]) && Settle(r, w, done).index == w.index
    ensures Plain(MatchStep(p, w, done)) == Plain(MatchStep(p, Settle(r, w, done), done))
  {
    var w', rule := Settle(r, w, done), r.rules[w.index];
    SettledIsPlain(r, w, done);
    SettlingIsUnseen(r, w, done, rule);
    MatchesAlike(p, w, w', done);
  }

  lemma MatchesAlike(r: Router, w: Walk, w': Walk, done: set<nat>)
    requires w.index < |r.rules| && WellShaped(r.rules[w.index])
    requires ReadAlike(w, w', r.rules[w.index]) && SameButSettling(w, w')
    ensures Plain(MatchStep(r, w, done)) == Plain(MatchStep(r, w', done))
  {
    var rule := r.rules[w.index];
    assert Plain(ActStep(r, w, done)) == Plain(ActStep(r, w', done)) by {
      if rule.action.Respond? { RespondReadsAlike(r, w, w', done); } else { ActionsIgnorePublishing(r, w, w', done); }
    }
    ReadAlikeViews(r, w, w', done, rule);
    assert Plain(Go(w)) == Plain(Go(w'));
  }

  /** A rule that does nothing does nothing before and after settling. */
  lemma IdleLateness(r: Router, p: Router, w: Walk, done: set<nat>)
    requires SameButMatching(r, p) && w.index < |r.rules| && !Acts(r, w, done) && Settle(r, w, done).index == w.index
    ensures Plain(MatchStep(p, w, done)) == Plain(MatchStep(p, Settle(r, w, done), done))
  {
    var w' := Settle(r, w, done);
    SettledIsPlain(r, w, done);
    ActsAlike(r, w, w', done);
    MatchingIsOutside(r, p, w, done);
    MatchingIsOutside(r, p, w', done);
    assert Plain(Go(w)) == Plain(Go(w'));
  }

  /** Something is still awaited, nothing is missed, or the rule would do nothing: no matching can tell. */
  lemma HarmlessLateness(r: Router, p: Router, w: Walk, done: set<nat>)
    requires Validated(r.rules) && WalkOk(r, w, done) && SameButMatching(r, p) && WaitsForBindings(r, w) && ArmedInRange(r, w.armed)
    requires PendingBindings(w, r.rules[w.index], done) != [] || !MissesAnswer(r, w, done, r.rules[w.index]) || !Acts(r, w, done)
    ensures Plain(LateStep(p, w, done)) == Plain(RuleStep(p, w, done))
  {
    WholeStep(r, p, w, done);
    SettledIsPlain(r, w, done);
    if PendingBindings(w, r.rules[w.index], done) == [] {
      if !MissesAnswer(r, w, done, r.rules[w.index]) { UnseenLateness(r, p, w, done); } else { IdleLateness(r, p, w, done); }
    }
  }

  /** Otherwise some matching makes the rule act on the settled walk, and passes it by on the late one. */
  lemma HarmfulLateness(r: Router, w: Walk, done: set<nat>) returns (picky: Router)
    requires WalkOk(r, w, done) && WaitsForBindings(r, w) && ArmedInRange(r, w.armed)
    requires PendingBindings(w, r.rules[w.index], done) == [] && MissesAnswer(r, w, done, r.rules[w.index]) && Acts(r, w, done)
    ensures SameButMatching(r, picky) && Plain(LateStep(picky, w, done)) != Plain(RuleStep(picky, w, done))
  {
    var w', rule := Settle(r, w, done), r.rules[w.index];
    var x, x' := ViewOfOption(r, w, done, w.anonymous), ViewOfOption(r, w', done, w'.anonymous);
    picky := Picky(r, w.index, Observe(rule, x', w'));
    WholeStep(r, picky, w, done);
    SettledIsPlain(r, w, done);
    assert Observe(rule, x, w) != Observe(rule, x', w') by {
      var t :| t in rule.tags && Unseen(r, w, done, t);
      UnpublishedIsMissed(r, w, done, rule, t, x);
      UnpublishedIsMissed(r, w, done, rule, t, x');
    }
    PickyMatches(r, w, done, Observe(rule, x', w'));
    PickyMatches(r, w', done, Observe(rule, x', w'));
    ActsAlike(r, w, w', done);
    assert Plain(Go(w)) == Plain(Go(w'));
  }

  lemma PickyMatches(r: Router, w: Walk, done: set<nat>, seen: View)
    requires w.index < |r.rules|
    ensures MatchStep(Picky(r, w.index, seen), w, done) ==
            if Observe(r.rules[w.index], ViewOfOption(r, w, done, w.anonymous), w) == seen then ActStep(r, w, done) else Go(w)
  {
    MatchingIsOutside(r, Picky(r, w.index, seen), w, done);
  }

  /** An answer that arrives between settling and the check of a rule's bindings does harm, for some matching,
      if and only if with it all the rule binds has arrived, one answer it binds by tag is not published, and
      the rule would do something if it matched. */
  lemma SplitRuleIff(r: Router, w: Walk, done: set<nat>)
    requires Validated(r.rules) && WalkOk(r, w, done) && WaitsForBindings(r, w) && ArmedInRange(r, w.armed)
    ensures (exists p: Router :: SameButMatching(r, p) && Plain(LateStep(p, w, done)) != Plain(RuleStep(p, w, done)))
            <==> PendingBindings(w, r.rules[w.index], done) == [] && MissesAnswer(r, w, done, r.rules[w.index]) && Acts(r, w, done)
  {
    if PendingBindings(w, r.rules[w.index], done) == [] && MissesAnswer(r, w, done, r.rules[w.index]) && Acts(r, w, done) {
      var picky := HarmfulLateness(r, w, done);
    } else {
      forall p: Router | SameButMatching(r, p) ensures Plain(LateStep(p, w, done)) == Plain(RuleStep(p, w, done)) {
        HarmlessLateness(r, p, w, done);
      }
    }
  }

  // ----- a run -----

  /** One query, and a rule that responds with its answer.  Nothing races. */
  function PlainExample(options: RouteOptions, answer: Message): Router {
    Router([Rule([], false, "", false, Evaluate("s", "t", false, options)), Rule(["t"], false, "t", false, Respond)],
           map["s" := false], "s", AsIs, false, (i, v) => true, (i, s, q) => Reply(answer))
  }

  lemma PlainExampleIsValidated(options: RouteOptions, answer: Message)
    ensures Validated(PlainExample(options, answer).rules)
  {
    var rules := PlainExample(options, answer).rules;
    assert rules[0].Defines("t");
    assert forall i, t | 0 <= i < |rules| && t in rules[i].tags :: i == 1 && t == "t";
  }

  lemma PlainExampleBlocks(options: RouteOptions, answer: Message, o: QueryOptions)
    ensures Blocking(PlainExample(options, answer), 0, Scope(o, None, map[])) == RespondOutcome(Some(answer), Some("s"))
  {
    var r := PlainExample(options, answer);
    var s1 := Advance(r, 0, Scope(o, None, map[]));
    assert s1 == Scope(o, None, map["t" := Held("s", Reply(answer))]);
    assert Judge(r, 1, s1) == Commit(RespondOutcome(Some(answer), Some("s")));
    assert Blocking(r, 1, s1) == RespondOutcome(Some(answer), Some("s"));
  }

  lemma PlainExampleLate(options: RouteOptions, answer: Message, o: QueryOptions)
    ensures var r, w := PlainExample(options, answer), LaunchedWalk(options, o);
            Settle(r, w, {}) == w && LateStep(r, w, {0}).effect == Finish(RespondOutcome(None, None))
  {
    var r, w := PlainExample(options, answer), LaunchedWalk(options, o);
    NothingSettles(r, w, 1);
    var tags := r.rules[1].tags;
    assert tags == ["t"] && tags[1..] == [];
    assert PendingTags(w, tags[1..], {0}) == [];
    assert PendingTags(w, tags, {0}) == [];
  }

  /** The walk reaches the second rule, and settles nothing.  If the answer arrives before the bindings are
      checked, the rule responds that there is no response, where the exchange responds with the answer. */
  lemma LateAnswerIsMissed(options: RouteOptions, answer: Message, o: QueryOptions) returns (run: seq<Config>)
    ensures run != []
    ensures var r := PlainExample(options, answer); var c := run[|run| - 1];
            && Validated(r.rules) && IsRun(r, o, run) && c.control.Walking? && c.done == {}
            && c.walk.index == 1 && |c.walk.futures| == 1
            && Settle(r, c.walk, {}).index == 1
            && LateStep(r, Settle(r, c.walk, {}), {0}).effect == Finish(RespondOutcome(None, None))
            && Blocking(r, 0, Scope(o, None, map[])) == RespondOutcome(Some(answer), Some("s"))
  {
    var r := PlainExample(options, answer);
    PlainExampleIsValidated(options, answer);
    PlainExampleBlocks(options, answer, o);
    PlainExampleLate(options, answer, o);
    var c0 := Initial(o);
    var c1 := Move(r, c0);
    assert c1 == c0.(walk := LaunchedWalk(options, o));
    run := [c0, c1];
    assert NextStep(r, c0, c1);
  }
}
