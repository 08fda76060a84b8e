/** What every step of the rule walk keeps, and how a walk relates to the blocking evaluation
    that would have reached the same rule. */
module WalkInvariant {
  import opened Optional
  import opened DnsRules
  import opened RuleWalk

  // ----- the blocking scope a walk stands for -----

  function HeldAt(r: Router, w: Walk, k: nat): Held {
    if k < |w.futures| then Held(w.futures[k].server, ReplyOf(r, w.futures[k])) else Held("", Failed(""))
  }

  function HeldOption(r: Router, w: Walk, f: Option<nat>): Option<Held> {
    if f.Some? then Some(HeldAt(r, w, f.value)) else None
  }

  function NamedHeld(r: Router, w: Walk): map<string, Held> {
    map t | t in w.namedFutures :: HeldAt(r, w, w.namedFutures[t])
  }

  /** Every launched query counts as answered. */
  function ScopeOf(r: Router, w: Walk): Scope {
    Scope(w.options, HeldOption(r, w, w.anonymous), NamedHeld(r, w))
  }

  /** The scope in which a race rule was armed. */
  function ArmedScope(r: Router, w: Walk, a: Armed): Scope {
    Scope(a.options, HeldOption(r, w, a.anonymous), NamedHeld(r, w))
  }

  function VerdictOf(r: Router, w: Walk, a: Armed): Verdict {
    if a.index < |r.rules| then Judge(r, a.index, ArmedScope(r, w, a)) else Miss
  }

  function WinnersOf(r: Router, w: Walk, armed: seq<Armed>): set<Outcome> {
    set a | a in armed && VerdictOf(r, w, a).Commit? :: VerdictOf(r, w, a).outcome
  }

  function PendingOutcome(r: Router, w: Walk, p: Pending): Outcome {
    if p.future.Some? then ExchangeOutcome(HeldAt(r, w, p.future.value).server, HeldAt(r, w, p.future.value).reply)
    else ExchangeOutcome(p.server, Ask(r, p.index, p.server, p.options))
  }

  function DecisionOutcome(r: Router, w: Walk, d: Decision): Outcome {
    if d.Return? then d.outcome else PendingOutcome(r, w, d.pending)
  }

  // ----- the invariant -----

  ghost predicate FuturesOk(r: Router, w: Walk, done: set<nat>) {
    && (forall k | k in done :: k < |w.futures|)
    && (forall k | 0 <= k < |w.futures| :: FutureOk(r, w, done, k))
    && (forall j, k | 0 <= j < k < |w.futures| :: w.futures[j].index < w.futures[k].index)
  }

  ghost predicate FutureOk(r: Router, w: Walk, done: set<nat>, k: nat)
    requires k < |w.futures|
  {
    var f := w.futures[k];
    && (f.settled ==> k in done)
    && f.index < |r.rules|
    && (if f.terminal then f.tag == "" && f.index == w.index && w.terminal == Some(k)
        else f.index < w.index && r.rules[f.index].action.Evaluate? && r.rules[f.index].action.tag == f.tag)
  }

  ghost predicate NamesOk(r: Router, w: Walk) {
    && TagsOk(w)
    && PublicationsOk(r, w)
    && (w.anonymous.Some? ==> w.anonymous.value < |w.futures|)
  }

  /** Tags and tagged queries correspond one to one. */
  ghost predicate TagsOk(w: Walk) {
    && (forall t | t in w.namedFutures ::
          t != "" && w.namedFutures[t] < |w.futures| && w.futures[w.namedFutures[t]].tag == t)
    && (forall k | 0 <= k < |w.futures| && w.futures[k].tag != "" ::
          w.futures[k].tag in w.namedFutures && w.namedFutures[w.futures[k].tag] == k)
  }

  ghost predicate PublicationsOk(r: Router, w: Walk) {
    && (forall t | t in w.named :: PublicationOk(r, w, t))
    && (forall k | 0 <= k < |w.futures| && w.futures[k].settled && w.futures[k].tag != "" :: w.futures[k].tag in w.named)
  }

  /** A published response is the answer of the one query with that tag. */
  ghost predicate PublicationOk(r: Router, w: Walk, t: string) {
    && t in w.named && t in w.namedFutures && w.namedFutures[t] < |w.futures|
    && var f := w.futures[w.namedFutures[t]];
       f.settled && w.named[t] == Published(Reading(ReplyOf(r, f)), f.server)
  }

  ghost predicate ArmedOk(r: Router, w: Walk, done: set<nat>, a: Armed) {
    && a.index < |r.rules|
    && r.rules[a.index].Races()
    && a.bindsAnonymous == r.rules[a.index].anonymous
    && (!a.bindsAnonymous ==> a.anonymous.None?)
    && (a.anonymous.Some? ==> a.anonymous.value < |w.futures| && (a.anonymous.value in done || a.anonymous.value in a.futures))
    && (forall f | f in a.futures :: f < |w.futures|)
    && (forall t | t in r.rules[a.index].tags && t in w.namedFutures ::
          w.namedFutures[t] in done || w.namedFutures[t] in a.futures)
  }

  /** An armed rule that is kept from one step to the next still waits for something. */
  ghost predicate Waiting(r: Router, a: Armed)
    requires a.index < |r.rules|
  {
    a.futures != [] && (r.rules[a.index].RespondsUntagged() ==> a.anonymous.Some?)
  }

  ghost predicate Ascending(armed: seq<Armed>) {
    forall j, k | 0 <= j < k < |armed| :: armed[j].index < armed[k].index
  }

  ghost predicate AllArmedOk(r: Router, w: Walk, done: set<nat>) {
    && (forall a | a in w.armed :: ArmedOk(r, w, done, a) && a.index < w.index && Waiting(r, a))
    && Ascending(w.armed)
  }

  ghost predicate BindingsDone(r: Router, w: Walk, done: set<nat>, rule: Rule) {
    && (forall t | t in rule.tags && t in w.namedFutures :: w.namedFutures[t] in done)
    && (rule.anonymous && w.anonymous.Some? ==> w.anonymous.value in done)
  }

  /** A speculative terminal query is the very query its rule would make, and the walk stays there. */
  ghost predicate TerminalOk(r: Router, w: Walk, done: set<nat>) {
    w.terminal.Some? ==>
      && w.terminal.value < |w.futures|
      && w.terminalIndex == w.index < |r.rules|
      && !r.rules[w.index].Races()
      && BindingsDone(r, w, done, r.rules[w.index])
      && Matched(r, w.index, ScopeOf(r, w))
      && r.rules[w.index].action.Route?
      && var f := w.futures[w.terminal.value];
         && f.terminal && f.index == w.index
         && f.server == r.rules[w.index].action.server
         && ResolveRoute(r, f.server, w.options, r.rules[w.index].action.options) == Some(f.options)
  }

  ghost predicate WalkOk(r: Router, w: Walk, done: set<nat>) {
    && w.index <= |r.rules|
    && FuturesOk(r, w, done)
    && NamesOk(r, w)
    && AllArmedOk(r, w, done)
    && TerminalOk(r, w, done)
  }

  ghost predicate AllSettled(w: Walk, done: set<nat>) {
    forall k | 0 <= k < |w.futures| && k in done :: w.futures[k].settled
  }

  lemma InitialOk(r: Router, o: QueryOptions)
    ensures WalkOk(r, InitialWalk(o), {})
    ensures ScopeOf(r, InitialWalk(o)) == Scope(o, None, map[])
  {
  }

  /** An answer arriving between steps disturbs nothing. */
  lemma ArrivalKeepsOk(r: Router, w: Walk, done: set<nat>, f: nat)
    requires WalkOk(r, w, done) && f < |w.futures|
    ensures WalkOk(r, w, done + {f})
  {
    forall k | 0 <= k < |w.futures| ensures FutureOk(r, w, done + {f}, k) {
      assert FutureOk(r, w, done, k);
    }
  }

  // ----- settling -----

  lemma SettleOneFutures(r: Router, w: Walk, done: set<nat>, k: nat)
    requires k < |w.futures| && FuturesOk(r, w, done)
    ensures FuturesOk(r, SettleOne(r, w, done, k), done)
  {
    var w' := SettleOne(r, w, done, k);
    forall j | 0 <= j < |w'.futures| ensures FutureOk(r, w', done, j) { assert FutureOk(r, w, done, j); }
  }

  lemma SettleOneNames(r: Router, w: Walk, done: set<nat>, k: nat)
    requires k < |w.futures| && FuturesOk(r, w, done) && NamesOk(r, w)
    ensures NamesOk(r, SettleOne(r, w, done, k))
  {
    var w' := SettleOne(r, w, done, k);
    var f := w.futures[k];
    if !f.settled && k in done {
      assert FutureOk(r, w, done, k);
      assert ReplyOf(r, w'.futures[k]) == ReplyOf(r, f);
      forall t | t in w'.named ensures PublicationOk(r, w', t) {
        if t != f.tag { assert PublicationOk(r, w, t); }
      }
    }
  }

  lemma SettleOneKeeps(r: Router, w: Walk, done: set<nat>, k: nat)
    requires k < |w.futures| && FuturesOk(r, w, done) && NamesOk(r, w)
    ensures var w' := SettleOne(r, w, done, k);
            && FuturesOk(r, w', done) && NamesOk(r, w') && (k in done ==> w'.futures[k].settled)
            && |w'.futures| == |w.futures|
            && forall j | 0 <= j < |w.futures| && w.futures[j].settled :: w'.futures[j].settled
  {
    SettleOneFutures(r, w, done, k);
    SettleOneNames(r, w, done, k);
  }

  lemma {:induction false} SettleFirstKeeps(r: Router, w: Walk, done: set<nat>, n: nat)
    requires n <= |w.futures| && FuturesOk(r, w, done) && NamesOk(r, w)
    ensures var w' := SettleFirst(r, w, done, n);
            && FuturesOk(r, w', done) && NamesOk(r, w')
            && forall k | 0 <= k < n && k in done :: w'.futures[k].settled
  {
    if n > 0 {
      SettleFirstKeeps(r, w, done, n - 1);
      var w1 := SettleFirst(r, w, done, n - 1);
      SettleOneKeeps(r, w1, done, n - 1);
      var w2 := SettleOne(r, w1, done, n - 1);
      forall k | 0 <= k < n && k in done ensures w2.futures[k].settled {
        assert k == n - 1 || w1.futures[k].settled;
      }
    }
  }

  lemma HeldIgnoresSettling(r: Router, w: Walk, w': Walk)
    requires w' == w.(named := w'.named, futures := w'.futures, armed := w'.armed, index := w'.index)
    requires |w'.futures| == |w.futures|
    requires forall k | 0 <= k < |w.futures| :: w'.futures[k] == w.futures[k].(settled := w'.futures[k].settled)
    ensures NamedHeld(r, w') == NamedHeld(r, w)
    ensures ScopeOf(r, w') == ScopeOf(r, w)
    ensures forall f :: HeldOption(r, w', f) == HeldOption(r, w, f)
    ensures forall a :: VerdictOf(r, w', a) == VerdictOf(r, w, a)
    ensures forall armed :: WinnersOf(r, w', armed) == WinnersOf(r, w, armed)
  {
    forall k: nat ensures HeldAt(r, w', k) == HeldAt(r, w, k) {
      if k < |w.futures| { assert ReplyOf(r, w'.futures[k]) == ReplyOf(r, w.futures[k]); }
    }
    assert NamedHeld(r, w') == NamedHeld(r, w);
    forall a ensures VerdictOf(r, w', a) == VerdictOf(r, w, a) {
      assert ArmedScope(r, w', a) == ArmedScope(r, w, a);
    }
  }

  /** Settling publishes every arrived answer and keeps the invariant, the scope and all verdicts. */
  lemma SettleKeepsOk(r: Router, w: Walk, done: set<nat>)
    requires WalkOk(r, w, done)
    ensures var w' := Settle(r, w, done);
            && WalkOk(r, w', done) && AllSettled(w', done)
            && w' == w.(named := w'.named, futures := w'.futures) && |w'.futures| == |w.futures|
            && (forall k | 0 <= k < |w.futures| :: w'.futures[k] == w.futures[k].(settled := w'.futures[k].settled))
            && ScopeOf(r, w') == ScopeOf(r, w)
            && (forall a :: VerdictOf(r, w', a) == VerdictOf(r, w, a))
            && (forall armed :: WinnersOf(r, w', armed) == WinnersOf(r, w, armed))
  {
    SettleKeeps(r, w, done, |w.futures|);
    SettleFirstKeeps(r, w, done, |w.futures|);
    HeldIgnoresSettling(r, w, Settle(r, w, done));
  }

  // ----- what a rule sees is what a blocking evaluation would have shown it -----

  /** For a bound tag whose query was answered and settled, the published response is the answer. */
  ghost predicate TagAgrees(w: Walk, s: Scope, t: string) {
    && (t in w.named <==> t in s.named)
    && (t in w.named ==> w.named[t] == Published(Reading(s.named[t].reply), s.named[t].server))
  }

  lemma PublishedTagAgrees(r: Router, w: Walk, done: set<nat>, s: Scope, t: string)
    requires FuturesOk(r, w, done) && NamesOk(r, w) && AllSettled(w, done)
    requires t in w.namedFutures ==> w.namedFutures[t] in done
    requires s.named == NamedHeld(r, w)
    ensures TagAgrees(w, s, t)
  {
    assert t in w.named ==> PublicationOk(r, w, t);
    if t in w.namedFutures {
      assert w.futures[w.namedFutures[t]].settled && w.futures[w.namedFutures[t]].tag == t;
    }
  }

  lemma AgreeingTagsLookAlike(rule: Rule, w: Walk, s: Scope, response: Option<Message>)
    requires forall t | t in rule.tags :: TagAgrees(w, s, t)
    requires rule.anonymous ==> response == HeldReading(s.anonymous)
    ensures Observe(rule, response, w) == SeenBy(rule, s)
    ensures forall t | t in rule.tags ::
              PublishedReading(w, t) == HeldReading(Named(s, t)) && PublishedServer(w, t) == HeldServer(Named(s, t))
  {
    var m, m' := Observe(rule, response, w).named, SeenBy(rule, s).named;
    forall t ensures (t in m <==> t in m') && (t in m ==> m[t] == m'[t]) {
      if t in rule.tags { assert TagAgrees(w, s, t); }
    }
    assert m == m';
    forall t | t in rule.tags
      ensures PublishedReading(w, t) == HeldReading(Named(s, t)) && PublishedServer(w, t) == HeldServer(Named(s, t))
    {
      assert TagAgrees(w, s, t);
    }
  }

  lemma ObserveIsSeenBy(r: Router, w: Walk, done: set<nat>, rule: Rule, s: Scope, response: Option<Message>)
    requires FuturesOk(r, w, done) && NamesOk(r, w)
    requires rule.tags != [] ==> AllSettled(w, done)
    requires forall t | t in rule.tags && t in w.namedFutures :: w.namedFutures[t] in done
    requires s.named == NamedHeld(r, w)
    requires rule.anonymous ==> response == HeldReading(s.anonymous)
    ensures Observe(rule, response, w) == SeenBy(rule, s)
    ensures forall t | t in rule.tags ::
              PublishedReading(w, t) == HeldReading(Named(s, t)) && PublishedServer(w, t) == HeldServer(Named(s, t))
  {
    forall t | t in rule.tags ensures TagAgrees(w, s, t) {
      PublishedTagAgrees(r, w, done, s, t);
    }
    AgreeingTagsLookAlike(rule, w, s, response);
  }

  /** A ready race rule decides exactly what a blocking evaluation in its own scope would. */
  lemma JudgeArmedIsJudge(r: Router, w: Walk, done: set<nat>, a: Armed)
    requires Validated(r.rules)
    requires FuturesOk(r, w, done) && NamesOk(r, w) && AllSettled(w, done)
    requires ArmedOk(r, w, done, a) && Ready(a, done)
    requires r.rules[a.index].RespondsUntagged() ==> a.anonymous.Some? || w.anonymous.None?
    ensures match JudgeArmed(r, w, done, a)
            case None => VerdictOf(r, w, a) == Miss
            case Some(d) => VerdictOf(r, w, a) == Commit(DecisionOutcome(r, w, d))
  {
    var rule := r.rules[a.index];
    var s := ArmedScope(r, w, a);
    var response := if a.bindsAnonymous then ViewOfOption(r, w, done, a.anonymous) else ViewOfOption(r, w, done, w.anonymous);
    assert WellShaped(rule);
    ObserveIsSeenBy(r, w, done, rule, s, response);
    if rule.action.Respond? && rule.respondTag != "" { assert rule.respondTag in rule.tags; }
  }
}
