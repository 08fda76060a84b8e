/** The suspendable rule walk: its state, and the settle, sweep and per-rule steps as functions
    on values.  `done` is the set of launched queries whose answers have arrived; it belongs to
    the environment and is a parameter of every step. */
module RuleWalk {
  import opened Optional
  import opened DnsRules

  /** A launched query.  Its answer is `Ask` of the launch; `settled` says it was published. */
  datatype Future = Future(index: nat, tag: string, terminal: bool, server: string, options: QueryOptions, settled: bool)

  datatype Published = Published(response: Option<Message>, server: string)

  /** A race rule that was passed; `futures` are the bound queries still pending when it was. */
  datatype Armed = Armed(index: nat, futures: seq<nat>, anonymous: Option<nat>, bindsAnonymous: bool, options: QueryOptions)

  datatype Walk = Walk(
    index: nat,
    options: QueryOptions,
    anonymous: Option<nat>,
    namedFutures: map<string, nat>,
    named: map<string, Published>,
    futures: seq<Future>,
    armed: seq<Armed>,
    terminal: Option<nat>,
    terminalIndex: nat)

  datatype Pending = Pending(index: nat, server: string, options: QueryOptions, future: Option<nat>)

  datatype Decision = Return(outcome: Outcome) | Exchange(pending: Pending)

  datatype Suspension = Await(future: nat) | Drain | Pend(pending: Pending)

  datatype Effect = Continue | Finish(outcome: Outcome) | Suspend(suspension: Suspension)

  /** Who decided: a race rule, another rule, the default server, or nobody yet. */
  datatype Decider = Nobody | ByRace(index: nat) | ByRule(index: nat) | ByDefault

  /** One step of the walk.  `missed` are the race rules judged in it without deciding. */
  datatype Step = Step(walk: Walk, effect: Effect, missed: seq<Armed>, decider: Decider)

  datatype Swept = Swept(rest: seq<Armed>, missed: seq<Armed>, winner: Option<(Armed, Decision)>)

  function InitialWalk(o: QueryOptions): Walk {
    Walk(0, o, None, map[], map[], [], [], None, 0)
  }

  function ReplyOf(r: Router, f: Future): Reply { Ask(r, f.index, f.server, f.options) }

  /** The response of a query as far as it is known: nil until it arrives, and nil if it failed. */
  function ViewOf(r: Router, w: Walk, done: set<nat>, f: nat): Option<Message> {
    if f < |w.futures| && f in done then Reading(ReplyOf(r, w.futures[f])) else None
  }

  function ServerOf(w: Walk, f: nat): string { if f < |w.futures| then w.futures[f].server else "" }

  function ViewOfOption(r: Router, w: Walk, done: set<nat>, f: Option<nat>): Option<Message> {
    if f.Some? then ViewOf(r, w, done, f.value) else None
  }

  function PublishedReading(w: Walk, t: string): Option<Message> {
    if t in w.named then w.named[t].response else None
  }

  function PublishedServer(w: Walk, t: string): Option<string> {
    if t in w.named then Some(w.named[t].server) else None
  }

  /** What a rule's matcher sees, given the current anonymous response and the published ones. */
  function Observe(rule: Rule, response: Option<Message>, w: Walk): View {
    View(if rule.anonymous then response else None,
         map t | t in rule.tags && t in w.named && w.named[t].response.Some? :: w.named[t].response.value)
  }

  // ----- settle -----

  /** Publishes one arrived answer. */
  function SettleOne(r: Router, w: Walk, done: set<nat>, k: nat): Walk
    requires k < |w.futures|
  {
    var f := w.futures[k];
    if f.settled || k !in done then w
    else
      var w1 := w.(futures := w.futures[k := f.(settled := true)]);
      if f.tag == "" then w1
      else w1.(named := w.named[f.tag := Published(ViewOf(r, w, done, k), f.server)])
  }

  function SettleFirst(r: Router, w: Walk, done: set<nat>, n: nat): (w': Walk)
    requires n <= |w.futures|
    ensures |w'.futures| == |w.futures|
    decreases n
  {
    if n == 0 then w else SettleOne(r, SettleFirst(r, w, done, n - 1), done, n - 1)
  }

  function Settle(r: Router, w: Walk, done: set<nat>): Walk {
    SettleFirst(r, w, done, |w.futures|)
  }

  // ----- sweep -----

  predicate Ready(a: Armed, done: set<nat>) {
    forall f | f in a.futures :: f in done
  }

  /** What a ready race rule decides on the published responses; None if it does not decide. */
  function JudgeArmed(r: Router, w: Walk, done: set<nat>, a: Armed): Option<Decision>
    requires a.index < |r.rules|
  {
    var rule := r.rules[a.index];
    var response := if a.bindsAnonymous then ViewOfOption(r, w, done, a.anonymous)
                    else ViewOfOption(r, w, done, w.anonymous);
    if !r.matches(a.index, Observe(rule, response, w)) then None else
    match rule.action
    case Respond =>
      if rule.respondTag != "" then
        Some(Return(RespondOutcome(PublishedReading(w, rule.respondTag), PublishedServer(w, rule.respondTag))))
      else
        var f := if a.anonymous.Some? then a.anonymous else w.anonymous;
        if f.None? then Some(Return(RespondOutcome(None, None)))
        else Some(Return(RespondOutcome(ViewOf(r, w, done, f.value), Some(ServerOf(w, f.value)))))
    case Route(server, _, o) =>
      var q := ResolveRoute(r, server, a.options, o);
      if q.None? then None else Some(Exchange(Pending(a.index, server, q.value, None)))
    case Reject(Default) => Some(Return(REFUSED_OUTCOME))
    case Reject(Drop) => Some(Return(DROPPED_OUTCOME))
    case Predefined => Some(Return(CannedOutcome(a.index)))
    case _ => None
  }

  predicate ArmedInRange(r: Router, armed: seq<Armed>) {
    forall k | 0 <= k < |armed| :: armed[k].index < |r.rules|
  }

  /** Judges the ready rules in order until one decides. */
  function Sweep(r: Router, w: Walk, done: set<nat>, armed: seq<Armed>): Swept
    requires ArmedInRange(r, armed)
  {
    if armed == [] then Swept([], [], None)
    else
      var a := armed[0];
      if !Ready(a, done) then
        var s := Sweep(r, w, done, armed[1..]);
        s.(rest := [a] + s.rest)
      else
        var d := JudgeArmed(r, w, done, a);
        if d.Some? then Swept(armed[1..], [], Some((a, d.value)))
        else
          var s := Sweep(r, w, done, armed[1..]);
          s.(missed := [a] + s.missed)
  }

  // ----- one rule -----

  function Launch(w: Walk, f: Future): Walk { w.(futures := w.futures + [f]) }

  function Next(w: Walk): Walk { w.(index := w.index + 1) }

  /** The bound queries that have not been answered, in binding order. */
  function PendingTags(w: Walk, tags: seq<string>, done: set<nat>): seq<nat> {
    if tags == [] then []
    else
      var rest := PendingTags(w, tags[1..], done);
      if tags[0] in w.namedFutures && w.namedFutures[tags[0]] !in done then [w.namedFutures[tags[0]]] + rest else rest
  }

  function PendingBindings(w: Walk, rule: Rule, done: set<nat>): seq<nat> {
    PendingTags(w, rule.tags, done) +
    (if rule.anonymous && w.anonymous.Some? && w.anonymous.value !in done then [w.anonymous.value] else [])
  }

  function NewArmed(w: Walk, rule: Rule, done: set<nat>): Armed {
    Armed(w.index, PendingBindings(w, rule, done), if rule.anonymous then w.anonymous else None, rule.anonymous, w.options)
  }

  /** Arms the race rule; if nothing it binds is pending, all armed rules are swept at once. */
  function ArmStep(r: Router, w: Walk, done: set<nat>): Step
    requires w.index < |r.rules| && ArmedInRange(r, w.armed)
  {
    var a := NewArmed(w, r.rules[w.index], done);
    var armed := w.armed + [a];
    if a.futures != [] then Step(Next(w.(armed := armed)), Continue, [], Nobody)
    else
      var s := Sweep(r, w, done, armed);
      if s.winner.None? then Step(Next(w.(armed := s.rest)), Continue, s.missed, Nobody)
      else
        match s.winner.value.1
        case Return(o) => Step(w.(armed := s.rest), Finish(o), s.missed, ByRace(s.winner.value.0.index))
        case Exchange(p) => Step(w.(armed := []), Suspend(Pend(p)), s.missed, ByRace(s.winner.value.0.index))
  }

  function Stay(w: Walk, s: Suspension): Step { Step(w, Suspend(s), [], Nobody) }

  function Go(w: Walk): Step { Step(Next(w), Continue, [], Nobody) }

  function Decide(w: Walk, e: Effect): Step { Step(w, e, [], ByRule(w.index)) }

  function RespondStep(r: Router, w: Walk, done: set<nat>): Step
    requires w.index < |r.rules|
  {
    var rule := r.rules[w.index];
    if w.armed != [] then Stay(w, Drain)
    else if rule.respondTag != "" then
      Decide(w, Finish(RespondOutcome(PublishedReading(w, rule.respondTag), PublishedServer(w, rule.respondTag))))
    else if !rule.HasBindings() && w.anonymous.Some? && w.anonymous.value !in done then Stay(w, Await(w.anonymous.value))
    else if w.anonymous.None? then Decide(w, Finish(RespondOutcome(None, None)))
    else Decide(w, Finish(RespondOutcome(ViewOf(r, w, done, w.anonymous.value), Some(ServerOf(w, w.anonymous.value)))))
  }

  function EvaluateStep(r: Router, w: Walk, server: string, tag: string, speculative: bool, a: RouteOptions): Step {
    if server !in r.servers then Go(if tag == "" then w.(anonymous := None) else w)
    else if !speculative && w.armed != [] then Stay(w, Drain)
    else
      var w1 := Launch(w, Future(w.index, tag, false, server, ApplyRouteOptions(w.options, a), false));
      Go(if tag == "" then w1.(anonymous := Some(|w.futures|))
         else w1.(namedFutures := w.namedFutures[tag := |w.futures|]))
  }

  function RouteStep(r: Router, w: Walk, server: string, speculative: bool, a: RouteOptions): Step {
    var q := ResolveRoute(r, server, w.options, a);
    if q.None? then Go(w)
    else if w.armed != [] then
      if speculative && w.terminal.None? then
        var w1 := Launch(w, Future(w.index, "", true, server, q.value, false));
        Stay(w1.(terminal := Some(|w.futures|), terminalIndex := w.index), Drain)
      else Stay(w, Drain)
    else if w.terminal.Some? && w.terminalIndex == w.index then
      Decide(w, Suspend(Pend(Pending(w.index, ServerOf(w, w.terminal.value), w.options, w.terminal))))
    else Decide(w, Suspend(Pend(Pending(w.index, server, q.value, None))))
  }

  function ActStep(r: Router, w: Walk, done: set<nat>): Step
    requires w.index < |r.rules|
  {
    match r.rules[w.index].action
    case NoAction => Go(w)
    case RouteOptionsAction(a) => Go(w.(options := ApplyRouteOptions(w.options, a)))
    case Evaluate(server, tag, speculative, a) => EvaluateStep(r, w, server, tag, speculative, a)
    case Respond => RespondStep(r, w, done)
    case Route(server, speculative, a) => RouteStep(r, w, server, speculative, a)
    case Reject(m) =>
      if w.armed != [] then Stay(w, Drain)
      else if m.Default? then Decide(w, Finish(REFUSED_OUTCOME))
      else if m.Drop? then Decide(w, Finish(DROPPED_OUTCOME))
      else Go(w)
    case Predefined =>
      if w.armed != [] then Stay(w, Drain) else Decide(w, Finish(CannedOutcome(w.index)))
  }

  function MatchStep(r: Router, w: Walk, done: set<nat>): Step
    requires w.index < |r.rules|
  {
    if r.matches(w.index, Observe(r.rules[w.index], ViewOfOption(r, w, done, w.anonymous), w)) then ActStep(r, w, done)
    else Go(w)
  }

  function EndStep(r: Router, w: Walk): Step {
    if w.armed != [] then Stay(w, Drain)
    else Step(w, Suspend(Pend(Pending(|r.rules|, r.defaultServer, w.options, None))), [], ByDefault)
  }

  /** One iteration of the rule loop, or what follows the loop. */
  function RuleStep(r: Router, w: Walk, done: set<nat>): Step
    requires ArmedInRange(r, w.armed)
  {
    if w.index >= |r.rules| then EndStep(r, w)
    else
      var rule := r.rules[w.index];
      if !rule.HasBindings() then MatchStep(r, w, done)
      else
        var w1 := Settle(r, w, done);
        SettleKeeps(r, w, done, |w.futures|);
        if rule.race then ArmStep(r, w1, done)
        else
          var pending := PendingBindings(w1, rule, done);
          if pending != [] then Stay(w1, Await(pending[0])) else MatchStep(r, w1, done)
  }

  /** Settling only publishes: nothing else of the walk changes. */
  lemma {:induction false} SettleKeeps(r: Router, w: Walk, done: set<nat>, n: nat)
    requires n <= |w.futures|
    ensures var w' := SettleFirst(r, w, done, n);
            && w' == w.(named := w'.named, futures := w'.futures)
            && |w'.futures| == |w.futures|
            && forall k | 0 <= k < |w.futures| :: w'.futures[k] == w.futures[k].(settled := w'.futures[k].settled)
  {
    if n > 0 { SettleKeeps(r, w, done, n - 1); }
  }
}
