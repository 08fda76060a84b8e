/** The vocabulary of DNS rule evaluation, and two reference interpreters for a rule list:
    `Blocking`, in which every `evaluate` waits for its answer, and `Allowed`, a bound on the
    outcomes a list with `race` rules may produce.  Neither mentions futures, arming or waking. */
module DnsRules {
  import opened Optional

  datatype Strategy = AsIs | PreferIPv4 | PreferIPv6 | IPv4Only | IPv6Only

  datatype QueryOptions = QueryOptions(
    strategy: Strategy,
    disableCache: bool,
    disableOptimisticCache: bool,
    rewriteTTL: Option<nat>,
    timeout: int,
    clientSubnet: Option<string>,
    removeClientSubnet: bool)

  /** The options a rule action carries; they overlay the options of the query. */
  datatype RouteOptions = RouteOptions(
    strategy: Strategy,
    disableCache: bool,
    disableOptimisticCache: bool,
    rewriteTTL: Option<nat>,
    timeout: int,
    clientSubnet: Option<string>,
    removeClientSubnet: bool)

  /** The strategy of the action is skipped on purpose; `LegacyMode` proves that it is unset
      whenever this code is reachable. */
  function ApplyRouteOptions(o: QueryOptions, a: RouteOptions): (q: QueryOptions)
    ensures q.strategy == o.strategy
    ensures !(o.clientSubnet.Some? && o.removeClientSubnet) ==> !(q.clientSubnet.Some? && q.removeClientSubnet)
    ensures o.disableCache ==> q.disableCache
  {
    var q1 := o.(disableCache := o.disableCache || a.disableCache,
                 disableOptimisticCache := o.disableOptimisticCache || a.disableOptimisticCache,
                 rewriteTTL := if a.rewriteTTL.Some? then a.rewriteTTL else o.rewriteTTL,
                 timeout := if a.timeout > 0 then a.timeout else o.timeout);
    var q2 := if a.clientSubnet.Some? then q1.(clientSubnet := a.clientSubnet, removeClientSubnet := false) else q1;
    if a.removeClientSubnet then q2.(clientSubnet := None, removeClientSubnet := true) else q2
  }

  datatype RejectMethod = Default | Drop | Other

  datatype Action =
    | NoAction
    | RouteOptionsAction(options: RouteOptions)
    | Evaluate(server: string, tag: string, speculative: bool, options: RouteOptions)
    | Respond
    | Route(server: string, speculative: bool, options: RouteOptions)
    | Reject(rejectMethod: RejectMethod)
    | Predefined

  /** A rule as the walker sees it: the evaluated responses it binds, whether it races, its action. */
  datatype Rule = Rule(tags: seq<string>, anonymous: bool, respondTag: string, race: bool, action: Action) {
    predicate HasBindings() { |tags| > 0 || anonymous }
    predicate Races() { race && HasBindings() }
    predicate Defines(t: string) { action.Evaluate? && action.tag == t && t != "" }
    predicate RespondsUntagged() { action.Respond? && respondTag == "" }
  }

  datatype Message = Answered(content: string) | Refused | Canned(ruleIndex: nat)

  datatype Reply = Reply(message: Message) | Failed(error: string)

  datatype Error = MissingResponse | Dropped | ExchangeFailed(reason: string)

  datatype Outcome = Outcome(response: Option<Message>, server: Option<string>, rejected: bool, error: Option<Error>)

  /** The responses a rule binds, as its matcher sees them. */
  datatype View = View(anonymous: Option<Message>, named: map<string, Message>)

  /** A router: its rules, its servers (flagged when they hand out fake addresses), and the two
      oracles.  `matches` sees only the responses the rule binds.  `exchange` is the answer of the
      query launched by the rule at the given index, to the given server, with the given options. */
  datatype Router = Router(
    rules: seq<Rule>,
    servers: map<string, bool>,
    defaultServer: string,
    defaultStrategy: Strategy,
    allowFakeIP: bool,
    matches: (nat, View) -> bool,
    exchange: (nat, string, QueryOptions) -> Reply)

  function Ask(r: Router, index: nat, server: string, o: QueryOptions): Reply {
    r.exchange(index, server, if o.strategy == AsIs then o.(strategy := r.defaultStrategy) else o)
  }

  function Reading(reply: Reply): Option<Message> {
    if reply.Reply? then Some(reply.message) else None
  }

  function ExchangeOutcome(server: string, reply: Reply): Outcome {
    Outcome(Reading(reply), Some(server), false,
            if reply.Failed? then Some(ExchangeFailed(reply.error)) else None)
  }

  function RespondOutcome(response: Option<Message>, server: Option<string>): Outcome {
    if response.None? then Outcome(None, None, false, Some(MissingResponse))
    else Outcome(response, server, false, None)
  }

  const REFUSED_OUTCOME := Outcome(Some(Refused), None, true, None)
  const DROPPED_OUTCOME := Outcome(None, None, true, Some(Dropped))

  function CannedOutcome(index: nat): Outcome { Outcome(Some(Canned(index)), None, false, None) }

  /** None when the server is missing or is a fake-address server the query may not use. */
  function ResolveRoute(r: Router, server: string, o: QueryOptions, a: RouteOptions): Option<QueryOptions> {
    if server !in r.servers || (r.servers[server] && !r.allowFakeIP) then None
    else
      var q := ApplyRouteOptions(o, a);
      Some(if r.servers[server] then q.(disableCache := true) else q)
  }

  /** The facts that validation establishes about a rule list (see module `RuleValidation`). */
  ghost predicate Validated(rules: seq<Rule>) {
    && (forall i, t | 0 <= i < |rules| && t in rules[i].tags ::
          t != "" && exists j :: 0 <= j < i && rules[j].Defines(t))
    && (forall i, j, t | 0 <= i < j < |rules| && rules[i].Defines(t) :: !rules[j].Defines(t))
    && (forall i | 0 <= i < |rules| :: WellShaped(rules[i]))
  }

  predicate WellShaped(rule: Rule) {
    && (rule.respondTag != "" ==> rule.tags == [rule.respondTag] && !rule.anonymous)
    && (rule.RespondsUntagged() ==> rule.tags == [])
  }

  // ----- reference interpreters -----

  datatype Held = Held(server: string, reply: Reply)

  /** What a blocking evaluation has accumulated on reaching a rule. */
  datatype Scope = Scope(options: QueryOptions, anonymous: Option<Held>, named: map<string, Held>)

  function HeldReading(h: Option<Held>): Option<Message> {
    if h.Some? then Reading(h.value.reply) else None
  }

  function HeldServer(h: Option<Held>): Option<string> {
    if h.Some? then Some(h.value.server) else None
  }

  function Named(s: Scope, t: string): Option<Held> {
    if t in s.named then Some(s.named[t]) else None
  }

  function SeenBy(rule: Rule, s: Scope): View {
    View(if rule.anonymous then HeldReading(s.anonymous) else None,
         map t | t in rule.tags && t in s.named && s.named[t].reply.Reply? :: s.named[t].reply.message)
  }

  datatype Verdict = Miss | Commit(outcome: Outcome)

  predicate Matched(r: Router, i: nat, s: Scope)
    requires i < |r.rules|
  {
    r.matches(i, SeenBy(r.rules[i], s))
  }

  /** What the rule decides, all the answers it binds being known. */
  function Judge(r: Router, i: nat, s: Scope): Verdict
    requires i < |r.rules|
  {
    if !Matched(r, i, s) then Miss else
    match r.rules[i].action
    case Respond =>
      var h := if r.rules[i].respondTag != "" then Named(s, r.rules[i].respondTag) else s.anonymous;
      Commit(RespondOutcome(HeldReading(h), HeldServer(h)))
    case Route(server, _, a) =>
      var q := ResolveRoute(r, server, s.options, a);
      if q.None? then Miss else Commit(ExchangeOutcome(server, Ask(r, i, server, q.value)))
    case Reject(Default) => Commit(REFUSED_OUTCOME)
    case Reject(Drop) => Commit(DROPPED_OUTCOME)
    case Predefined => Commit(CannedOutcome(i))
    case _ => Miss
  }

  /** The scope after a rule that did not decide. */
  function Advance(r: Router, i: nat, s: Scope): Scope
    requires i < |r.rules|
  {
    if r.rules[i].Races() || !Matched(r, i, s) then s else
    match r.rules[i].action
    case RouteOptionsAction(a) => s.(options := ApplyRouteOptions(s.options, a))
    case Evaluate(server, tag, _, a) =>
      if server !in r.servers then (if tag == "" then s.(anonymous := None) else s)
      else
        var h := Held(server, Ask(r, i, server, ApplyRouteOptions(s.options, a)));
        if tag == "" then s.(anonymous := Some(h)) else s.(named := s.named[tag := h])
    case _ => s
  }

  function DefaultOutcome(r: Router, s: Scope): Outcome {
    ExchangeOutcome(r.defaultServer, Ask(r, |r.rules|, r.defaultServer, s.options))
  }

  /** Every `evaluate` waits for its answer and rules decide in listed order. */
  function Blocking(r: Router, i: nat, s: Scope): Outcome
    decreases |r.rules| - i
  {
    if i >= |r.rules| then DefaultOutcome(r, s)
    else
      match Judge(r, i, s)
      case Commit(o) => o
      case Miss => Blocking(r, i + 1, Advance(r, i, s))
  }

  /** A matched `evaluate` that may not overtake undecided race rules. */
  predicate IsBarrier(r: Router, i: nat, s: Scope)
    requires i < |r.rules|
  {
    && Matched(r, i, s)
    && r.rules[i].action.Evaluate?
    && !r.rules[i].action.speculative
    && r.rules[i].action.server in r.servers
  }

  /** A bound on the outcomes that server speed may choose between.  `winners` are the outcomes of the race
      rules passed so far that decide; once there is one, the next rule that would take effect in
      listed order is held back, so the winners are all there is to choose from. */
  function Allowed(r: Router, i: nat, s: Scope, winners: set<Outcome>): set<Outcome>
    decreases |r.rules| - i
  {
    if i >= |r.rules| then (if winners == {} then {DefaultOutcome(r, s)} else winners)
    else if r.rules[i].Races() then
      var v := Judge(r, i, s);
      Allowed(r, i + 1, s, if v.Commit? then winners + {v.outcome} else winners)
    else
      match Judge(r, i, s)
      case Commit(o) => if winners == {} then {o} else winners
      case Miss =>
        if winners != {} && IsBarrier(r, i, s) then winners
        else Allowed(r, i + 1, Advance(r, i, s), winners)
  }

  /** Without race rules there is exactly one allowed outcome: the blocking one. */
  lemma {:induction false} NoRaceMeansBlocking(r: Router, i: nat, s: Scope)
    requires forall k | 0 <= k < |r.rules| :: !r.rules[k].Races()
    ensures Allowed(r, i, s, {}) == {Blocking(r, i, s)}
    decreases |r.rules| - i
  {
    if i < |r.rules| && Judge(r, i, s).Miss? {
      NoRaceMeansBlocking(r, i + 1, Advance(r, i, s));
    }
  }

  /** A race rule that decides stays a possible outcome whatever comes after it. */
  lemma {:induction false} WinnersStayAllowed(r: Router, i: nat, s: Scope, winners: set<Outcome>)
    ensures winners <= Allowed(r, i, s, winners)
    ensures Allowed(r, i, s, winners) != {}
    decreases |r.rules| - i
  {
    if i < |r.rules| {
      if r.rules[i].Races() {
        var v := Judge(r, i, s);
        WinnersStayAllowed(r, i + 1, s, if v.Commit? then winners + {v.outcome} else winners);
      } else if Judge(r, i, s).Miss? && !(winners != {} && IsBarrier(r, i, s)) {
        WinnersStayAllowed(r, i + 1, Advance(r, i, s), winners);
      }
    }
  }

  /** Every race rule that a blocking evaluation passes misses in the scope it is met in. */
  predicate RacesMiss(r: Router, i: nat, s: Scope)
    decreases |r.rules| - i
  {
    i < |r.rules| ==>
      if r.rules[i].Races() then Judge(r, i, s).Miss? && RacesMiss(r, i + 1, s)
      else Judge(r, i, s).Commit? || RacesMiss(r, i + 1, Advance(r, i, s))
  }

  /** Speed only chooses among race rules: if those that are met miss on the answers of this query,
      the outcome is the blocking one, whatever the `speculative` flags say. */
  lemma {:induction false} LosingRacesMeanBlocking(r: Router, i: nat, s: Scope)
    requires RacesMiss(r, i, s)
    ensures Allowed(r, i, s, {}) == {Blocking(r, i, s)}
    decreases |r.rules| - i
  {
    if i < |r.rules| && Judge(r, i, s).Miss? {
      LosingRacesMeanBlocking(r, i + 1, Advance(r, i, s));
    }
  }

  /** Without race rules there is none to miss. */
  lemma {:induction false} NoRaceMisses(r: Router, i: nat, s: Scope)
    requires forall k | 0 <= k < |r.rules| :: !r.rules[k].Races()
    ensures RacesMiss(r, i, s)
    decreases |r.rules| - i
  {
    if i < |r.rules| { NoRaceMisses(r, i + 1, Advance(r, i, s)); }
  }

  /** `Judge` reads nothing of a scope but its options, the anonymous answer and the bound tags. */
  lemma JudgeFrame(r: Router, i: nat, s: Scope, s': Scope)
    requires i < |r.rules| && WellShaped(r.rules[i])
    requires s.options == s'.options && s.anonymous == s'.anonymous
    requires forall t | t in r.rules[i].tags :: Named(s, t) == Named(s', t)
    ensures SeenBy(r.rules[i], s) == SeenBy(r.rules[i], s')
    ensures Judge(r, i, s) == Judge(r, i, s')
  {
    assert forall t | t in r.rules[i].tags :: (t in s.named <==> t in s'.named) && (t in s.named ==> s.named[t] == s'.named[t]) by {
      forall t | t in r.rules[i].tags
        ensures (t in s.named <==> t in s'.named) && (t in s.named ==> s.named[t] == s'.named[t])
      {
        assert Named(s, t) == Named(s', t);
      }
    }
    assert SeenBy(r.rules[i], s).named == SeenBy(r.rules[i], s').named;
  }

  // ----- speculation -----

  function Unspeculative(a: Action): Action {
    if a.Evaluate? || a.Route? then a.(speculative := false) else a
  }

  /** Two routers that differ at most in `speculative` flags. */
  ghost predicate SameButSpeculation(r: Router, r': Router) {
    && r' == r.(rules := r'.rules) && |r.rules| == |r'.rules|
    && forall i | 0 <= i < |r.rules| ::
         r.rules[i].(action := NoAction) == r'.rules[i].(action := NoAction)
         && Unspeculative(r.rules[i].action) == Unspeculative(r'.rules[i].action)
  }

  lemma SpeculationIsNotJudged(r: Router, r': Router, i: nat, s: Scope)
    requires SameButSpeculation(r, r') && i < |r.rules|
    ensures r.rules[i].Races() == r'.rules[i].Races()
    ensures Judge(r, i, s) == Judge(r', i, s) && Advance(r, i, s) == Advance(r', i, s)
  {
    var rule, rule' := r.rules[i], r'.rules[i];
    assert rule.(action := NoAction) == rule'.(action := NoAction);
    assert SeenBy(rule, s) == SeenBy(rule', s);
  }

  lemma {:induction false} BlockingIgnoresSpeculation(r: Router, r': Router, i: nat, s: Scope)
    requires SameButSpeculation(r, r')
    ensures Blocking(r, i, s) == Blocking(r', i, s)
    ensures RacesMiss(r, i, s) == RacesMiss(r', i, s)
    decreases |r.rules| - i
  {
    if i < |r.rules| {
      SpeculationIsNotJudged(r, r', i, s);
      BlockingIgnoresSpeculation(r, r', i + 1, Advance(r, i, s));
    }
  }
}
