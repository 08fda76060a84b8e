/** What an exchange asks, whom, and what it answers, said of the rule list by its fields: which servers may be used,
    which options a query carries, and what each kind of decision returns. */
module SentQueries {
  import opened Optional
  import opened DnsRules
  import opened OptionOverlay
  import opened RuleWalk
  import opened WalkInvariant
  import opened WalkSteps
  import opened WalkMachine
  import opened WalkRuns
  import opened WalkTheorems
  import opened RaceOrder
  import opened Deciders
  import opened WalkCourse
  import opened ExactOutcomes

  // ----- the list -----

  /** The rule at `i` is met with its condition holding, and does not race. */
  predicate Met(r: Router, o: QueryOptions, i: nat) {
    i < |r.rules| && !r.rules[i].Races() && r.matches(i, SeenBy(r.rules[i], CourseAt(r, o, i).scope))
  }

  /** The option actions that took effect before the rule at `i`, in order. */
  function OptionsBefore(r: Router, o: QueryOptions, i: nat): seq<RouteOptions>
    requires i <= |r.rules|
  {
    if i == 0 then []
    else
      OptionsBefore(r, o, i - 1) +
      (if Met(r, o, i - 1) && r.rules[i - 1].action.RouteOptionsAction? then [r.rules[i - 1].action.options] else [])
  }

  /** A server a rule may route to: a known one, and one that hands out fake addresses only if the query may
      get such. */
  predicate Permitted(r: Router, server: string) { server in r.servers && (r.servers[server] ==> r.allowFakeIP) }

  function EvaluateOptions(r: Router, o: QueryOptions, i: nat): QueryOptions
    requires i < |r.rules| && r.rules[i].action.Evaluate?
  {
    Overlaid(o, OptionsBefore(r, o, i) + [r.rules[i].action.options])
  }

  /** Answers of servers that hand out fake addresses are not cached. */
  function RoutedOptions(r: Router, o: QueryOptions, i: nat): QueryOptions
    requires i < |r.rules| && r.rules[i].action.Route?
  {
    var q := Overlaid(o, OptionsBefore(r, o, i) + [r.rules[i].action.options]);
    if r.rules[i].action.server in r.servers && r.servers[r.rules[i].action.server] then q.(disableCache := true) else q
  }

  /** What is sent: a query without a strategy gets the default one. */
  function Dispatched(r: Router, o: QueryOptions, q: QueryOptions): QueryOptions {
    q.(strategy := if o.strategy == AsIs then r.defaultStrategy else o.strategy)
  }

  // ----- options on the course -----

  lemma {:induction false} CourseOptions(r: Router, o: QueryOptions, i: nat)
    requires i <= |r.rules|
    ensures CourseAt(r, o, i).scope.options == ApplyAll(o, OptionsBefore(r, o, i))
  {
    if i > 0 {
      CourseOptions(r, o, i - 1);
      AdvanceOptions(r, i - 1, CourseAt(r, o, i - 1).scope);
      var before := OptionsBefore(r, o, i - 1);
      if Met(r, o, i - 1) && r.rules[i - 1].action.RouteOptionsAction? {
        var a := r.rules[i - 1].action.options;
        assert OptionsBefore(r, o, i) == before + [a] && (before + [a])[..|before|] == before;
      } else {
        assert OptionsBefore(r, o, i) == before;
      }
    }
  }

  /** Only an option action that is met changes the options. */
  lemma AdvanceOptions(r: Router, i: nat, s: Scope)
    requires i < |r.rules|
    ensures Advance(r, i, s).options ==
            if !r.rules[i].Races() && Matched(r, i, s) && r.rules[i].action.RouteOptionsAction?
            then ApplyRouteOptions(s.options, r.rules[i].action.options) else s.options
  {
  }

  lemma ActionOptions(r: Router, o: QueryOptions, i: nat, a: RouteOptions)
    requires i <= |r.rules|
    ensures ApplyRouteOptions(CourseAt(r, o, i).scope.options, a) == Overlaid(o, OptionsBefore(r, o, i) + [a])
    ensures CourseAt(r, o, i).scope.options == Overlaid(o, OptionsBefore(r, o, i))
  {
    CourseOptions(r, o, i);
    OverlaidMore(o, OptionsBefore(r, o, i), a);
    LastWriterWins(o, OptionsBefore(r, o, i));
  }

  /** A route resolves exactly for permitted servers, to the options the list gives it. */
  lemma RouteResolves(r: Router, o: QueryOptions, i: nat)
    requires i < |r.rules| && r.rules[i].action.Route?
    ensures var Route(server, _, a) := r.rules[i].action;
            ResolveRoute(r, server, CourseAt(r, o, i).scope.options, a) == if Permitted(r, server) then Some(RoutedOptions(r, o, i)) else None
  {
    ActionOptions(r, o, i, r.rules[i].action.options);
  }

  lemma SentReply(r: Router, o: QueryOptions, i: nat, server: string, q: QueryOptions)
    requires q.strategy == o.strategy
    ensures Ask(r, i, server, q) == r.exchange(i, server, Dispatched(r, o, q))
  {
    assert Dispatched(r, o, q) == if o.strategy == AsIs then q.(strategy := r.defaultStrategy) else q;
  }

  // ----- queries -----

  /** A query of the rule that made it, to its server, with the options of the list. */
  ghost predicate QueryOk(r: Router, o: QueryOptions, f: Future) {
    && f.index < |r.rules|
    && match r.rules[f.index].action
       case Evaluate(server, tag, _, _) =>
         !f.terminal && f.tag == tag && f.server == server && server in r.servers && f.options == EvaluateOptions(r, o, f.index)
       case Route(server, _, _) =>
         f.terminal && f.server == server && Permitted(r, server) && f.options == RoutedOptions(r, o, f.index)
       case _ => false
  }

  /** An exchange to come: of a route, with its server and options, or of the default server. */
  ghost predicate PendingSound(r: Router, o: QueryOptions, w: Walk, p: Pending) {
    if p.index < |r.rules| then
      && r.rules[p.index].action.Route? && p.server == r.rules[p.index].action.server && Permitted(r, p.server)
      && (p.future.None? ==> p.options == RoutedOptions(r, o, p.index))
      && (p.future.Some? ==> p.future.value < |w.futures| && w.futures[p.future.value].terminal && w.futures[p.future.value].index == p.index)
    else
      p.index == |r.rules| && p.future.None? && p.server == r.defaultServer && p.options == Overlaid(o, OptionsBefore(r, o, |r.rules|))
  }

  ghost predicate QueriesOk(r: Router, o: QueryOptions, w: Walk) { forall f | f in w.futures :: QueryOk(r, o, f) }

  lemma SettledQueries(r: Router, o: QueryOptions, w: Walk, w': Walk)
    requires QueriesOk(r, o, w) && |w'.futures| == |w.futures|
    requires forall k | 0 <= k < |w.futures| :: w'.futures[k] == w.futures[k].(settled := w'.futures[k].settled)
    ensures QueriesOk(r, o, w')
  {
    forall f | f in w'.futures ensures QueryOk(r, o, f) {
      var k :| 0 <= k < |w'.futures| && w'.futures[k] == f;
      assert QueryOk(r, o, w.futures[k]);
    }
  }

  lemma EvaluateQueries(r: Router, o: QueryOptions, w: Walk, done: set<nat>)
    requires QueriesOk(r, o, w) && w.index < |r.rules| && r.rules[w.index].action.Evaluate?
    requires w.options == CourseAt(r, o, w.index).scope.options
    ensures QueriesOk(r, o, ActStep(r, w, done).walk)
  {
    var Evaluate(server, tag, speculative, a) := r.rules[w.index].action;
    ActionOptions(r, o, w.index, a);
    var f := Future(w.index, tag, false, server, ApplyRouteOptions(w.options, a), false);
    assert server in r.servers ==> QueryOk(r, o, f);
    var w' := ActStep(r, w, done).walk;
    assert w'.futures == w.futures || (server in r.servers && w'.futures == w.futures + [f]);
  }

  lemma RouteQueries(r: Router, o: QueryOptions, w: Walk, done: set<nat>)
    requires QueriesOk(r, o, w) && w.index < |r.rules| && r.rules[w.index].action.Route?
    requires w.options == CourseAt(r, o, w.index).scope.options
    ensures QueriesOk(r, o, ActStep(r, w, done).walk)
  {
    var Route(server, speculative, a) := r.rules[w.index].action;
    RouteResolves(r, o, w.index);
    var q := ResolveRoute(r, server, w.options, a);
    if q.Some? {
      var f := Future(w.index, "", true, server, q.value, false);
      assert QueryOk(r, o, f);
      var w' := ActStep(r, w, done).walk;
      assert w'.futures == w.futures || w'.futures == w.futures + [f];
    }
  }

  lemma MatchQueries(r: Router, o: QueryOptions, w: Walk, done: set<nat>)
    requires QueriesOk(r, o, w) && w.index < |r.rules| && w.options == CourseAt(r, o, w.index).scope.options
    ensures QueriesOk(r, o, MatchStep(r, w, done).walk)
  {
    if r.rules[w.index].action.Evaluate? {
      EvaluateQueries(r, o, w, done);
    } else if r.rules[w.index].action.Route? {
      RouteQueries(r, o, w, done);
    } else {
      assert MatchStep(r, w, done).walk.futures == w.futures;
    }
  }

  lemma RuleQueries(r: Router, o: QueryOptions, w: Walk, done: set<nat>)
    requires QueriesOk(r, o, w) && ArmedInRange(r, w.armed) && w.index <= |r.rules|
    requires w.options == CourseAt(r, o, w.index).scope.options
    ensures QueriesOk(r, o, RuleStep(r, w, done).walk)
  {
    if w.index < |r.rules| {
      var rule, w1 := r.rules[w.index], Settle(r, w, done);
      SettleKeeps(r, w, done, |w.futures|);
      SettledQueries(r, o, w, w1);
      if !rule.HasBindings() {
        MatchQueries(r, o, w, done);
      } else if !rule.race && PendingBindings(w1, rule, done) == [] {
        MatchQueries(r, o, w1, done);
      } else {
        assert RuleStep(r, w, done).walk.futures == w1.futures;
      }
    }
  }

  // ----- decisions -----

  lemma WinnerSound(r: Router, o: QueryOptions, w: Walk, done: set<nat>, armed: seq<Armed>, w': Walk)
    requires ArmedInRange(r, armed) && Sweep(r, w, done, armed).winner.Some?
    requires forall a | a in armed :: Tied(r, o, w, a)
    ensures var d := Sweep(r, w, done, armed).winner.value.1; d.Exchange? ==> PendingSound(r, o, w', d.pending)
  {
    SweepMembers(r, w, done, armed);
    var (a, d) := Sweep(r, w, done, armed).winner.value;
    assert Tied(r, o, w, a);
    if d.Exchange? { RouteResolves(r, o, a.index); }
  }

  lemma ArmSound(r: Router, o: QueryOptions, w: Walk, done: set<nat>)
    requires Validated(r.rules) && WalkOk(r, w, done) && AllSettled(w, done) && OnCourse(r, o, w, done) && AllSourced(r, w)
    requires w.index < |r.rules| && r.rules[w.index].Races() && ArmedInRange(r, w.armed)
    ensures var st := ArmStep(r, w, done); st.effect.Suspend? && st.effect.suspension.Pend? ==> PendingSound(r, o, st.walk, st.effect.suspension.pending)
  {
    var n := NewArmed(w, r.rules[w.index], done);
    ArmingIsSweepable(r, o, w, done);
    if n.futures == [] && Sweep(r, w, done, w.armed + [n]).winner.Some? {
      WinnerSound(r, o, w, done, w.armed + [n], ArmStep(r, w, done).walk);
    }
  }

  lemma RouteSound(r: Router, o: QueryOptions, w: Walk, done: set<nat>)
    requires WalkOk(r, w, done) && w.index < |r.rules| && w.options == CourseAt(r, o, w.index).scope.options
    ensures var st := MatchStep(r, w, done); st.effect.Suspend? && st.effect.suspension.Pend? ==> PendingSound(r, o, st.walk, st.effect.suspension.pending)
  {
    if r.rules[w.index].action.Route? {
      RouteActs(r, o, w, done);
    } else {
      OthersDoNotAsk(r, w, done);
    }
  }

  lemma RouteActs(r: Router, o: QueryOptions, w: Walk, done: set<nat>)
    requires WalkOk(r, w, done) && w.index < |r.rules| && w.options == CourseAt(r, o, w.index).scope.options && r.rules[w.index].action.Route?
    ensures var st := ActStep(r, w, done); st.effect.Suspend? && st.effect.suspension.Pend? ==> PendingSound(r, o, st.walk, st.effect.suspension.pending)
  {
    RouteResolves(r, o, w.index);
  }

  lemma OthersDoNotAsk(r: Router, w: Walk, done: set<nat>)
    requires w.index < |r.rules| && !r.rules[w.index].action.Route?
    ensures var st := ActStep(r, w, done); !(st.effect.Suspend? && st.effect.suspension.Pend?)
  {
  }

  lemma EndSound(r: Router, o: QueryOptions, w: Walk)
    requires w.index == |r.rules| && w.options == CourseAt(r, o, w.index).scope.options
    ensures var st := EndStep(r, w); st.effect.Suspend? && st.effect.suspension.Pend? ==> PendingSound(r, o, st.walk, st.effect.suspension.pending)
  {
    CourseOptions(r, o, w.index);
    LastWriterWins(o, OptionsBefore(r, o, w.index));
  }

  lemma RuleSound(r: Router, o: QueryOptions, w: Walk, done: set<nat>)
    requires Validated(r.rules) && WalkOk(r, w, done) && OnCourse(r, o, w, done) && AllSourced(r, w) && ArmedInRange(r, w.armed)
    ensures var st := RuleStep(r, w, done); st.effect.Suspend? && st.effect.suspension.Pend? ==> PendingSound(r, o, st.walk, st.effect.suspension.pending)
  {
    if w.index >= |r.rules| {
      EndSound(r, o, w);
    } else {
      var rule, w1 := r.rules[w.index], Settle(r, w, done);
      SettleKeepsOk(r, w, done);
      SettlingKeepsCourse(r, o, w, done);
      if !rule.HasBindings() {
        RouteSound(r, o, w, done);
      } else if rule.race {
        ArmSound(r, o, w1, done);
      } else {
        RouteSound(r, o, w1, done);
      }
    }
  }

  // ----- runs -----

  ghost predicate Sending(r: Router, o: QueryOptions, c: Config) {
    && QueriesOk(r, o, c.walk)
    && (c.control.Finishing? ==> PendingSound(r, o, c.walk, c.control.pending))
    && (c.control.Checking? && c.control.suspension.Pend? ==> PendingSound(r, o, c.walk, c.control.suspension.pending))
  }

  lemma PendingSettles(r: Router, o: QueryOptions, w: Walk, w': Walk, p: Pending)
    requires PendingSound(r, o, w, p) && |w'.futures| == |w.futures|
    requires forall k | 0 <= k < |w.futures| :: w'.futures[k] == w.futures[k].(settled := w'.futures[k].settled)
    ensures PendingSound(r, o, w', p)
  {
  }

  lemma CheckSends(r: Router, o: QueryOptions, c: Config)
    requires Validated(r.rules) && Kept(r, o, c) && Sending(r, o, c) && c.control.Checking? && ArmedInRange(r, c.walk.armed)
    ensures Sending(r, o, CheckMove(r, c))
  {
    var w1 := Settle(r, c.walk, c.done);
    var c' := CheckMove(r, c);
    SettleKeeps(r, c.walk, c.done, |c.walk.futures|);
    assert c'.walk.futures == w1.futures;
    SettledQueries(r, o, c.walk, c'.walk);
    if c.control.suspension.Pend? {
      PendingSettles(r, o, c.walk, c'.walk, c.control.suspension.pending);
    } else {
      CheckMoveLevel(r, o, c);
      if Sweep(r, w1, c.done, c.walk.armed).winner.Some? { WinnerSound(r, o, w1, c.done, c.walk.armed, c'.walk); }
    }
  }

  lemma WalkSends(r: Router, o: QueryOptions, c: Config)
    requires Validated(r.rules) && Kept(r, o, c) && Sending(r, o, c) && c.control.Walking? && ArmedInRange(r, c.walk.armed)
    ensures Sending(r, o, WalkMove(r, c))
  {
    RuleQueries(r, o, c.walk, c.done);
    RuleSound(r, o, c.walk, c.done);
  }

  lemma NextSends(r: Router, o: QueryOptions, c: Config, c': Config)
    requires Validated(r.rules) && Kept(r, o, c) && Sending(r, o, c) && NextStep(r, c, c')
    ensures Sending(r, o, c')
  {
    if CanMove(r, c) && c' == Move(r, c) {
      if c.control.Walking? { WalkSends(r, o, c); } else if c.control.Checking? { CheckSends(r, o, c); }
    } else {
      assert c'.walk == c.walk && (c'.control == c.control || c'.control.Cancelled?);
    }
  }

  lemma {:induction false} RunSends(r: Router, o: QueryOptions, run: seq<Config>)
    requires Validated(r.rules) && IsRun(r, o, run)
    ensures Sending(r, o, run[|run| - 1])
  {
    if |run| > 1 {
      PrefixIsRun(r, o, run);
      RunSends(r, o, run[..|run| - 1]);
      RunKept(r, o, run[..|run| - 1]);
      NextSends(r, o, run[|run| - 2], run[|run| - 1]);
    }
  }

  // ----- whom an exchange asks -----

  /** In every run: a rule asks only servers it may use, an `evaluate` known ones and a route permitted ones, and
      nothing that comes from a server of fake addresses by a route is cached. */
  lemma OnlyPermittedServers(r: Router, o: QueryOptions, run: seq<Config>)
    requires Validated(r.rules) && IsRun(r, o, run)
    ensures var c := run[|run| - 1];
            && (forall f | f in c.walk.futures ::
                  && f.server in r.servers
                  && (f.terminal ==> (r.servers[f.server] ==> r.allowFakeIP && f.options.disableCache)))
            && (forall p | AboutToAsk(c, p) && p.index < |r.rules| ::
                  && p.server in r.servers && (r.servers[p.server] ==> r.allowFakeIP)
                  && (p.future.None? && r.servers[p.server] ==> p.options.disableCache))
  {
    RunSends(r, o, run);
    forall f | f in run[|run| - 1].walk.futures
      ensures f.server in r.servers && (f.terminal ==> (r.servers[f.server] ==> r.allowFakeIP && f.options.disableCache))
    {
      assert QueryOk(r, o, f);
    }
  }

  ghost predicate AboutToAsk(c: Config, p: Pending) {
    c.control == Finishing(p) || c.control == Checking(Pend(p))
  }

  /** In every run: a query carries the options of the query asked, overlaid by the option actions met before its
      rule and by its own; and what is sent has a strategy if the query or the router has one. */
  lemma QueriesCarryTheirOptions(r: Router, o: QueryOptions, run: seq<Config>, f: Future)
    requires Validated(r.rules) && IsRun(r, o, run) && f in run[|run| - 1].walk.futures
    ensures f.index < |r.rules|
    ensures match r.rules[f.index].action
            case Evaluate(server, _, _, a) =>
              ReplyOf(r, f) == r.exchange(f.index, server, Dispatched(r, o, Overlaid(o, OptionsBefore(r, o, f.index) + [a])))
            case Route(server, _, a) =>
              ReplyOf(r, f) == r.exchange(f.index, server, Dispatched(r, o, RoutedOptions(r, o, f.index)))
            case _ => false
  {
    RunSends(r, o, run);
    assert QueryOk(r, o, f);
    SentReply(r, o, f.index, f.server, f.options);
  }

  /** A route that is met with nothing armed and its bindings answered decides exactly if its server is permitted;
      otherwise it is passed. */
  lemma RouteDecidesIff(r: Router, o: QueryOptions, run: seq<Config>)
    requires Validated(r.rules) && IsRun(r, o, run)
    requires var c := run[|run| - 1];
             && c.control.Walking? && c.walk.armed == [] && Met(r, o, c.walk.index) && r.rules[c.walk.index].action.Route?
             && BindsAt(r, o, c.walk.index) <= Asked(c.walk, c.done)
    ensures var c := run[|run| - 1];
            && CanMove(r, c)
            && (Move(r, c).decider == ByRule(c.walk.index) <==> Permitted(r, r.rules[c.walk.index].action.server))
            && (!Permitted(r, r.rules[c.walk.index].action.server) ==> Move(r, c).control.Walking? && Move(r, c).walk.index == c.walk.index + 1)
  {
    var c := run[|run| - 1];
    RunKept(r, o, run);
    ArmedRulesInRange(r, c.walk, c.done);
    RouteDecides(r, o, c.walk, c.done);
  }

  lemma RouteDecides(r: Router, o: QueryOptions, w: Walk, done: set<nat>)
    requires Validated(r.rules) && WalkOk(r, w, done) && Level(r, o, w, Asked(w, done)) && w.armed == []
    requires Met(r, o, w.index) && r.rules[w.index].action.Route? && BindsAt(r, o, w.index) <= Asked(w, done)
    ensures var st := RuleStep(r, w, done);
            && (st.decider == ByRule(w.index) <==> Permitted(r, r.rules[w.index].action.server))
            && (!Permitted(r, r.rules[w.index].action.server) ==> st.effect.Continue? && st.walk.index == w.index + 1)
  {
    RouteResolves(r, o, w.index);
    JudgedAsMet(r, w, done);
  }

  /** With nothing armed a rule decides exactly if it commits. */
  lemma JudgedAsMet(r: Router, w: Walk, done: set<nat>)
    requires Validated(r.rules) && WalkOk(r, w, done) && w.armed == [] && w.index < |r.rules| && !r.rules[w.index].Races()
    requires r.rules[w.index].action.Route? && Binds(r.rules[w.index], SourcesOf(w)) <= Asked(w, done)
    ensures var st := RuleStep(r, w, done);
            && (Judge(r, w.index, ScopeOf(r, w)).Commit? ==> st.decider == ByRule(w.index))
            && (Judge(r, w.index, ScopeOf(r, w)).Miss? ==> st.effect.Continue? && st.decider == Nobody && st.walk.index == w.index + 1)
  {
    var rule, w1 := r.rules[w.index], Settle(r, w, done);
    if !rule.HasBindings() {
      MatchRuns(r, w, done);
      RouteGoes(r, w, done);
    } else {
      SettleKeepsOk(r, w, done);
      SettlingKeepsSources(r, w, done);
      NothingPends(r, w1, rule, done);
      PendingFirst(w1, rule, done);
      MatchRuns(r, w1, done);
      RouteGoes(r, w1, done);
    }
  }

  lemma RouteGoes(r: Router, w: Walk, done: set<nat>)
    requires w.armed == [] && w.index < |r.rules| && r.rules[w.index].action.Route?
    ensures var st := MatchStep(r, w, done);
            if st.effect.Continue? then st.decider == Nobody && st.walk.index == w.index + 1
            else st.effect.Suspend? && st.effect.suspension.Pend?
  {
  }

  // ----- what an exchange answers -----

  ghost predicate EndsAs(out: Outcome, server: string, reply: Reply) {
    && out.server == Some(server) && !out.rejected
    && match reply
       case Reply(m) => out.response == Some(m) && out.error == None
       case Failed(e) => out.response == None && out.error == Some(ExchangeFailed(e))
  }

  /** The rule that asked for the answer a `respond` rule returns. */
  function Asker(r: Router, o: QueryOptions, i: nat): Option<nat>
    requires i < |r.rules|
  {
    var q, t := CourseAt(r, o, i).sources, r.rules[i].respondTag;
    if t == "" then q.anonymous else if t in q.named then Some(q.named[t]) else None
  }

  /** `respond` returns what the evaluated query answered, with its server, and fails if there is no response. */
  ghost predicate RespondsWith(r: Router, o: QueryOptions, i: nat, out: Outcome)
    requires i < |r.rules|
  {
    var m := Asker(r, o, i);
    && !out.rejected
    && if m.None? then out == Outcome(None, None, false, Some(MissingResponse))
       else
         && m.value < i && r.rules[m.value].action.Evaluate?
         && var server := r.rules[m.value].action.server;
            match r.exchange(m.value, server, Dispatched(r, o, EvaluateOptions(r, o, m.value)))
            case Reply(response) => out == Outcome(Some(response), Some(server), false, None)
            case Failed(_) => out == Outcome(None, None, false, Some(MissingResponse))
  }

  /** What a rule that decides answers, by its action. */
  ghost predicate AnswersBy(r: Router, o: QueryOptions, i: nat, out: Outcome)
    requires i < |r.rules|
  {
    match r.rules[i].action
    case Reject(Default) => out.rejected && out.response == Some(Refused) && out.error == None && out.server == None
    case Reject(Drop) => out.rejected && out.response == None && out.error == Some(Dropped) && out.server == None
    case Predefined => !out.rejected && out.response == Some(Canned(i)) && out.error == None && out.server == None
    case Route(server, _, _) =>
      Permitted(r, server) && EndsAs(out, server, r.exchange(i, server, Dispatched(r, o, RoutedOptions(r, o, i))))
    case Respond => RespondsWith(r, o, i, out)
    case _ => false
  }

  ghost predicate Answers(r: Router, o: QueryOptions, d: Decider, out: Outcome) {
    match d
    case Nobody => false
    case ByRace(i) => i < |r.rules| && AnswersBy(r, o, i, out)
    case ByRule(i) => i < |r.rules| && AnswersBy(r, o, i, out)
    case ByDefault =>
      EndsAs(out, r.defaultServer, r.exchange(|r.rules|, r.defaultServer, Dispatched(r, o, Overlaid(o, OptionsBefore(r, o, |r.rules|)))))
  }

  /** An answer on the course is that of the rule that asked for it. */
  ghost predicate HeldFrom(r: Router, o: QueryOptions, i: nat, m: nat, h: Held) {
    && m < i && m < |r.rules| && r.rules[m].action.Evaluate? && h.server == r.rules[m].action.server
    && h.reply == r.exchange(m, h.server, Dispatched(r, o, EvaluateOptions(r, o, m)))
  }

  ghost predicate HeldAll(r: Router, o: QueryOptions, i: nat, s: Scope, q: Sources) {
    && s.named.Keys == q.named.Keys && (forall t | t in q.named :: HeldFrom(r, o, i, q.named[t], s.named[t]))
    && s.anonymous.Some? == q.anonymous.Some? && (q.anonymous.Some? ==> HeldFrom(r, o, i, q.anonymous.value, s.anonymous.value))
  }

  /** What a rule does to the answers held: nothing, it forgets the anonymous one, or it asks. */
  lemma PassAsks(r: Router, i: nat, c: Course)
    requires i < |r.rules|
    ensures var c' := Pass(r, i, c);
            || (c'.scope.named == c.scope.named && c'.scope.anonymous == c.scope.anonymous && c'.sources == c.sources)
            || (c'.scope == c.scope.(anonymous := None) && c'.sources == c.sources.(anonymous := None))
            || (r.rules[i].action.Evaluate?
                && var Evaluate(server, tag, _, a) := r.rules[i].action;
                   var h := Held(server, Ask(r, i, server, ApplyRouteOptions(c.scope.options, a)));
                   if tag == "" then c'.scope == c.scope.(anonymous := Some(h)) && c'.sources == c.sources.(anonymous := Some(i))
                   else c'.scope == c.scope.(named := c.scope.named[tag := h]) && c'.sources == c.sources.(named := c.sources.named[tag := i]))
  {
  }

  lemma HeldLater(r: Router, o: QueryOptions, i: nat, s: Scope, q: Sources)
    requires HeldAll(r, o, i, s, q)
    ensures HeldAll(r, o, i + 1, s, q) && HeldAll(r, o, i + 1, s.(anonymous := None), q.(anonymous := None))
  {
    forall t | t in q.named ensures HeldFrom(r, o, i + 1, q.named[t], s.named[t]) { assert HeldFrom(r, o, i, q.named[t], s.named[t]); }
  }

  lemma HeldAnonymous(r: Router, o: QueryOptions, i: nat, s: Scope, q: Sources, h: Held)
    requires HeldAll(r, o, i + 1, s, q) && HeldFrom(r, o, i + 1, i, h)
    ensures HeldAll(r, o, i + 1, s.(anonymous := Some(h)), q.(anonymous := Some(i)))
  {
  }

  lemma HeldNamed(r: Router, o: QueryOptions, i: nat, s: Scope, q: Sources, h: Held, tag: string)
    requires HeldAll(r, o, i + 1, s, q) && HeldFrom(r, o, i + 1, i, h)
    ensures HeldAll(r, o, i + 1, s.(named := s.named[tag := h]), q.(named := q.named[tag := i]))
  {
    var named, sources := s.named[tag := h], q.named[tag := i];
    forall t | t in sources ensures HeldFrom(r, o, i + 1, sources[t], named[t]) {
      if t != tag { assert HeldFrom(r, o, i + 1, q.named[t], s.named[t]); }
    }
  }

  /** What an `evaluate` on the course is answered is what the list says it asks. */
  lemma AskHolds(r: Router, o: QueryOptions, i: nat)
    requires i < |r.rules| && r.rules[i].action.Evaluate?
    ensures var Evaluate(server, _, _, a) := r.rules[i].action;
            HeldFrom(r, o, i + 1, i, Held(server, Ask(r, i, server, ApplyRouteOptions(CourseAt(r, o, i).scope.options, a))))
  {
    var Evaluate(server, _, _, a) := r.rules[i].action;
    ActionOptions(r, o, i, a);
    SentReply(r, o, i, server, ApplyRouteOptions(CourseAt(r, o, i).scope.options, a));
  }

  lemma HeldOn(r: Router, o: QueryOptions, i: nat)
    requires i < |r.rules| && HeldAll(r, o, i, CourseAt(r, o, i).scope, CourseAt(r, o, i).sources)
    ensures HeldAll(r, o, i + 1, CourseAt(r, o, i + 1).scope, CourseAt(r, o, i + 1).sources)
  {
    var c := CourseAt(r, o, i);
    assert CourseAt(r, o, i + 1) == Pass(r, i, c);
    PassAsks(r, i, c);
    HeldLater(r, o, i, c.scope, c.sources);
    if r.rules[i].action.Evaluate? {
      var Evaluate(server, tag, _, a) := r.rules[i].action;
      var h := Held(server, Ask(r, i, server, ApplyRouteOptions(c.scope.options, a)));
      AskHolds(r, o, i);
      HeldAnonymous(r, o, i, c.scope, c.sources, h);
      HeldNamed(r, o, i, c.scope, c.sources, h, tag);
    }
  }

  lemma {:induction false} CourseHolds(r: Router, o: QueryOptions, i: nat)
    requires i <= |r.rules|
    ensures HeldAll(r, o, i, CourseAt(r, o, i).scope, CourseAt(r, o, i).sources)
  {
    if i > 0 {
      CourseHolds(r, o, i - 1);
      HeldOn(r, o, i - 1);
    }
  }

  lemma JudgeAnswers(r: Router, o: QueryOptions, i: nat)
    requires i < |r.rules| && Judge(r, i, CourseAt(r, o, i).scope).Commit?
    ensures AnswersBy(r, o, i, Judge(r, i, CourseAt(r, o, i).scope).outcome)
  {
    if r.rules[i].action.Route? {
      RouteResolves(r, o, i);
      SentReply(r, o, i, r.rules[i].action.server, RoutedOptions(r, o, i));
    } else if r.rules[i].action.Respond? {
      CourseHolds(r, o, i);
    }
  }

  /** However a run ends, it ends with what the action of the rule that decided it says. */
  lemma EndAnswers(r: Router, o: QueryOptions, run: seq<Config>)
    requires Validated(r.rules) && IsRun(r, o, run) && run[|run| - 1].control.Finished?
    ensures Answers(r, o, run[|run| - 1].decider, run[|run| - 1].control.outcome)
  {
    EndIsListed(r, o, run);
    var d := run[|run| - 1].decider;
    if d.ByDefault? {
      CourseOptions(r, o, |r.rules|);
      LastWriterWins(o, OptionsBefore(r, o, |r.rules|));
      SentReply(r, o, |r.rules|, r.defaultServer, CourseAt(r, o, |r.rules|).scope.options);
    } else {
      JudgeAnswers(r, o, Place(r, d));
    }
  }
}
