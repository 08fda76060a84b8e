/** Configured DNS rules: trees of conditions and actions, and how a rule is built from its options. */
module RuleOptions {
  import opened Optional
  import opened DnsRules

  /** `match_response`: off, or on with the tag of the response it binds ("" is the anonymous one). */
  datatype MatchResponse = Off | On(tag: string) {
    function Tag(): string { if On? then tag else "" }
  }

  datatype ActionKind = Unset | RouteKind | EvaluateKind | RespondKind | RouteOptionsKind | RejectKind | PredefinedKind

  datatype RouteFields = RouteFields(server: string, speculative: bool, options: RouteOptions)

  datatype EvaluateFields = EvaluateFields(server: string, tag: string, speculative: bool, options: RouteOptions)

  datatype ActionOptions = ActionOptions(
    kind: ActionKind,
    race: bool,
    route: RouteFields,
    evaluate: EvaluateFields,
    routeOptions: RouteOptions,
    rejectMethod: RejectMethod)

  /** The conditions that matter here; a list-valued option is represented by whether it is non-empty. */
  datatype Conditions = Conditions(
    matchResponse: MatchResponse,
    ipVersion: bool,
    queryType: bool,
    ipCIDR: bool,
    ipIsPrivate: bool,
    ipAcceptAny: bool,
    responseFields: bool,
    ruleSets: seq<string>,
    ruleSetMatchSource: bool,
    ruleSetAcceptEmpty: bool)

  datatype RuleOption =
    | DefaultRule(conditions: Conditions, action: ActionOptions)
    | LogicalRule(rules: seq<RuleOption>, action: ActionOptions)
    | UnknownRule

  datatype RuleSetMetadata = RuleSetMetadata(containsIPCIDR: bool, containsNonIPCIDR: bool, containsQueryType: bool)

  /** The metadata of the known rule-sets, by tag. */
  type RuleSets = map<string, RuleSetMetadata>

  /** A rule without an action routes. */
  function KindOf(rule: RuleOption): ActionKind {
    if rule.UnknownRule? then Unset
    else if rule.action.kind.Unset? then RouteKind else rule.action.kind
  }

  predicate DefinesTag(rule: RuleOption, t: string) {
    !rule.UnknownRule? && rule.action.kind.EvaluateKind? && rule.action.evaluate.tag == t && t != ""
  }

  predicate DefinesAnonymous(rule: RuleOption) {
    !rule.UnknownRule? && rule.action.kind.EvaluateKind? && rule.action.evaluate.tag == ""
  }

  // ----- trees -----

  /** All rules of a tree, itself included. */
  function Nodes(rule: RuleOption): seq<RuleOption>
    decreases rule, 1
  {
    [rule] + (if rule.LogicalRule? then AllNodes(rule.rules) else [])
  }

  function AllNodes(rules: seq<RuleOption>): seq<RuleOption>
    decreases rules, 0
  {
    if rules == [] then [] else Nodes(rules[0]) + AllNodes(rules[1..])
  }

  /** The node matches on the response with this tag. */
  predicate WantsTag(n: RuleOption, t: string) { n.DefaultRule? && n.conditions.matchResponse == On(t) && t != "" }

  /** The node matches on the anonymous response. */
  predicate MatchesAnonymous(n: RuleOption) { n.DefaultRule? && n.conditions.matchResponse == On("") }

  // ----- building -----

  function BuildAction(a: ActionOptions): Action {
    match a.kind
    case Unset => NoAction
    case RouteKind => Route(a.route.server, a.route.speculative, a.route.options)
    case EvaluateKind => Evaluate(a.evaluate.server, a.evaluate.tag, a.evaluate.speculative, a.evaluate.options)
    case RespondKind => Respond
    case RouteOptionsKind => RouteOptionsAction(a.routeOptions)
    case RejectKind => Reject(a.rejectMethod)
    case PredefinedKind => Predefined
  }

  /** Removes repeated elements, keeping first occurrences. */
  function Uniq(s: seq<string>): (u: seq<string>)
    ensures forall t :: t in u <==> t in s
    ensures forall i, j | 0 <= i < j < |u| :: u[i] != u[j]
  {
    if s == [] then []
    else
      var u := Uniq(s[..|s| - 1]);
      assert s == s[..|s| - 1] + [s[|s| - 1]];
      if s[|s| - 1] in u then u else u + [s[|s| - 1]]
  }

  function BoundTags(rule: RuleOption): seq<string>
    decreases rule, 1
  {
    match rule
    case DefaultRule(c, _) => if c.matchResponse.Tag() == "" then [] else [c.matchResponse.Tag()]
    case LogicalRule(rules, _) => Uniq(AllBoundTags(rules))
    case UnknownRule => []
  }

  function AllBoundTags(rules: seq<RuleOption>): seq<string>
    decreases rules, 0
  {
    if rules == [] then [] else BoundTags(rules[0]) + AllBoundTags(rules[1..])
  }

  predicate BindsAnonymous(rule: RuleOption)
    decreases rule, 1
  {
    match rule
    case DefaultRule(c, _) => c.matchResponse.On? && c.matchResponse.tag == ""
    case LogicalRule(rules, _) => exists k :: 0 <= k < |rules| && BindsAnonymous(rules[k])
    case UnknownRule => false
  }

  function Build(rule: RuleOption): Rule {
    if rule.UnknownRule? then Rule([], false, "", false, NoAction)
    else Rule(BoundTags(rule), BindsAnonymous(rule),
              if rule.DefaultRule? then rule.conditions.matchResponse.Tag() else "",
              rule.action.race, BuildAction(rule.action))
  }

  function BuildAll(rules: seq<RuleOption>): seq<Rule> {
    seq(|rules|, i requires 0 <= i < |rules| => Build(rules[i]))
  }

  // ----- what is built -----

  lemma {:induction false} BoundTagsMean(rule: RuleOption, t: string)
    ensures t in BoundTags(rule) <==> exists n | n in Nodes(rule) :: WantsTag(n, t)
    decreases rule, 1
  {
    match rule
    case DefaultRule(_, _) => assert Nodes(rule) == [rule] && rule in Nodes(rule);
    case LogicalRule(rules, _) =>
      AllBoundTagsMean(rules, t);
      assert forall n :: n in Nodes(rule) <==> n == rule || n in AllNodes(rules);
    case UnknownRule => assert Nodes(rule) == [rule] && rule in Nodes(rule);
  }

  lemma {:induction false} AllBoundTagsMean(rules: seq<RuleOption>, t: string)
    ensures t in AllBoundTags(rules) <==> exists n | n in AllNodes(rules) :: WantsTag(n, t)
    decreases rules, 0
  {
    if rules != [] {
      BoundTagsMean(rules[0], t);
      AllBoundTagsMean(rules[1..], t);
      assert forall n :: n in AllNodes(rules) <==> n in Nodes(rules[0]) || n in AllNodes(rules[1..]);
    }
  }

  lemma {:induction false} NodesOfAll(rules: seq<RuleOption>, n: RuleOption)
    ensures n in AllNodes(rules) <==> exists i :: 0 <= i < |rules| && n in Nodes(rules[i])
  {
    if rules != [] {
      NodesOfAll(rules[1..], n);
      if i :| 0 <= i < |rules| && n in Nodes(rules[i]) { assert i == 0 || n in Nodes(rules[1..][i - 1]); }
      if j :| 0 <= j < |rules[1..]| && n in Nodes(rules[1..][j]) { assert n in Nodes(rules[j + 1]); }
    }
  }

  lemma {:induction false} BindsAnonymousMeans(rule: RuleOption)
    ensures BindsAnonymous(rule) <==> exists n | n in Nodes(rule) :: MatchesAnonymous(n)
    decreases rule
  {
    if rule.LogicalRule? {
      var rules := rule.rules;
      forall k | 0 <= k < |rules| ensures BindsAnonymous(rules[k]) <==> exists n | n in Nodes(rules[k]) :: MatchesAnonymous(n) {
        BindsAnonymousMeans(rules[k]);
      }
      forall n ensures n in Nodes(rule) <==> n == rule || exists i :: 0 <= i < |rules| && n in Nodes(rules[i]) { NodesOfAll(rules, n); }
    } else {
      assert Nodes(rule) == [rule] && rule in Nodes(rule);
    }
  }

  /** What a rule is built to do, by its configured fields. */
  ghost predicate BuiltAction(a: ActionOptions, built: Action) {
    match built
    case NoAction => a.kind.Unset?
    case Route(server, speculative, o) => a.kind.RouteKind? && RouteFields(server, speculative, o) == a.route
    case Evaluate(server, tag, speculative, o) => a.kind.EvaluateKind? && EvaluateFields(server, tag, speculative, o) == a.evaluate
    case Respond => a.kind.RespondKind?
    case RouteOptionsAction(o) => a.kind.RouteOptionsKind? && o == a.routeOptions
    case Reject(m) => a.kind.RejectKind? && m == a.rejectMethod
    case Predefined => a.kind.PredefinedKind?
  }

  /** A built rule binds exactly the responses that nodes of its tree match on, and races and acts as configured. */
  lemma BuildMeans(rule: RuleOption)
    ensures var b := Build(rule);
            if rule.UnknownRule? then !b.HasBindings() && !b.race && b.respondTag == "" && b.action.NoAction? else
            && (forall t :: t in b.tags <==> exists n | n in Nodes(rule) :: WantsTag(n, t))
            && (forall i, j | 0 <= i < j < |b.tags| :: b.tags[i] != b.tags[j])
            && (b.anonymous <==> exists n | n in Nodes(rule) :: MatchesAnonymous(n))
            && (forall t | t != "" :: b.respondTag == t <==> WantsTag(rule, t))
            && b.race == rule.action.race && BuiltAction(rule.action, b.action)
  {
    forall t ensures t in BoundTags(rule) <==> exists n | n in Nodes(rule) :: WantsTag(n, t) { BoundTagsMean(rule, t); }
    BindsAnonymousMeans(rule);
  }
}
