/** Legacy mode: when a rule list needs it, when it rules it out, and what holds across every run
    of rule-set metadata updates that the router accepts. */
module LegacyMode {
  import opened Optional
  import opened DnsRules
  import opened RuleOptions
  import opened RuleValidation

  datatype ModeFlags = ModeFlags(disabled: bool, needed: bool, neededFromStrategy: bool)

  const NO_FLAGS := ModeFlags(false, false, false)

  function Merge(f: ModeFlags, g: ModeFlags): ModeFlags {
    ModeFlags(f.disabled || g.disabled, f.needed || g.needed, f.neededFromStrategy || g.neededFromStrategy)
  }

  predicate HasStrategy(a: ActionOptions) {
    match a.kind
    case Unset => !a.route.options.strategy.AsIs?
    case RouteKind => !a.route.options.strategy.AsIs?
    case EvaluateKind => !a.evaluate.options.strategy.AsIs?
    case RouteOptionsKind => !a.routeOptions.strategy.AsIs?
    case _ => false
  }

  predicate ActionDisables(a: ActionOptions) {
    a.race ||
    match a.kind
    case Unset => a.route.options.disableOptimisticCache || a.route.speculative
    case RouteKind => a.route.options.disableOptimisticCache || a.route.speculative
    case EvaluateKind => a.evaluate.options.disableOptimisticCache || a.evaluate.speculative
    case RouteOptionsKind => a.routeOptions.disableOptimisticCache
    case _ => false
  }

  function RuleSetFlags(tags: seq<string>, matchSource: bool, sets: RuleSets): Option<ModeFlags> {
    if tags == [] then Some(NO_FLAGS)
    else if tags[0] !in sets then None
    else
      var rest := RuleSetFlags(tags[1..], matchSource, sets);
      if rest.None? then None
      else Some(Merge(ModeFlags(sets[tags[0]].containsQueryType, !matchSource && sets[tags[0]].containsIPCIDR, false), rest.value))
  }

  function OwnFlags(rule: RuleOption): ModeFlags {
    match rule
    case DefaultRule(c, a) =>
      ModeFlags(c.matchResponse.On? || c.responseFields || a.kind.EvaluateKind? || a.kind.RespondKind?
                || c.ipVersion || c.queryType || ActionDisables(a),
                c.ruleSetAcceptEmpty || (c.matchResponse.Off? && (c.ipAcceptAny || c.ipCIDR || c.ipIsPrivate)) || HasStrategy(a),
                HasStrategy(a))
    case LogicalRule(_, a) =>
      ModeFlags(a.kind.EvaluateKind? || a.kind.RespondKind? || ActionDisables(a), HasStrategy(a), HasStrategy(a))
    case UnknownRule => NO_FLAGS
  }

  /** None when a rule-set is missing. */
  function RuleFlags(rule: RuleOption, sets: RuleSets): Option<ModeFlags>
    decreases rule, 1
  {
    var more := match rule
                case DefaultRule(c, _) => RuleSetFlags(c.ruleSets, c.ruleSetMatchSource, sets)
                case LogicalRule(rules, _) => RulesFlags(rules, sets)
                case UnknownRule => Some(NO_FLAGS);
    if more.None? then None else Some(Merge(OwnFlags(rule), more.value))
  }

  function RulesFlags(rules: seq<RuleOption>, sets: RuleSets): Option<ModeFlags>
    decreases rules, 0
  {
    if rules == [] then Some(NO_FLAGS)
    else
      var f, fs := RuleFlags(rules[0], sets), RulesFlags(rules[1..], sets);
      if f.None? || fs.None? then None else Some(Merge(f.value, fs.value))
  }

  datatype Mode = ModeError | Mode(legacy: bool, flags: ModeFlags)

  function ResolveMode(rules: seq<RuleOption>, sets: RuleSets): Mode {
    var f := RulesFlags(rules, sets);
    if f.None? || (f.value.disabled && f.value.neededFromStrategy) then ModeError
    else Mode(!f.value.disabled && f.value.needed, f.value)
  }

  // ----- what the flags mean -----

  predicate Routes(a: ActionOptions) { a.kind.Unset? || a.kind.RouteKind? }

  /** The action of the node sets a strategy. */
  predicate NodeHasStrategy(n: RuleOption) {
    !n.UnknownRule? &&
    (|| (Routes(n.action) && n.action.route.options.strategy != AsIs)
     || (n.action.kind == EvaluateKind && n.action.evaluate.options.strategy != AsIs)
     || (n.action.kind == RouteOptionsKind && n.action.routeOptions.strategy != AsIs))
  }

  /** The node uses what legacy mode does not have: evaluated responses, races, speculation, and the conditions
      and options that came with them. */
  predicate NodeDisables(n: RuleOption, sets: RuleSets) {
    || (n.DefaultRule? &&
        (|| n.conditions.matchResponse.On? || n.conditions.responseFields || n.conditions.ipVersion || n.conditions.queryType
         || exists t :: t in n.conditions.ruleSets && t in sets && sets[t].containsQueryType))
    || (!n.UnknownRule? &&
        (|| n.action.kind == EvaluateKind || n.action.kind == RespondKind || n.action.race
         || (Routes(n.action) && (n.action.route.speculative || n.action.route.options.disableOptimisticCache))
         || (n.action.kind == RouteOptionsKind && n.action.routeOptions.disableOptimisticCache)))
  }

  /** The node uses what only legacy mode has: conditions on the addresses of an answer without a response to
      match, and strategies. */
  predicate NodeNeeds(n: RuleOption, sets: RuleSets) {
    || NodeHasStrategy(n)
    || (n.DefaultRule? &&
        (|| n.conditions.ruleSetAcceptEmpty
         || (n.conditions.matchResponse.Off? && (n.conditions.ipCIDR || n.conditions.ipIsPrivate || n.conditions.ipAcceptAny))
         || (!n.conditions.ruleSetMatchSource && exists t :: t in n.conditions.ruleSets && t in sets && sets[t].containsIPCIDR)))
  }

  predicate NodeMissesSet(n: RuleOption, sets: RuleSets) {
    n.DefaultRule? && exists t :: t in n.conditions.ruleSets && t !in sets
  }

  /** The flags of a forest say what is to be found somewhere in it. */
  ghost predicate FlagsMean(f: Option<ModeFlags>, nodes: seq<RuleOption>, sets: RuleSets) {
    && (f.None? <==> exists n :: n in nodes && NodeMissesSet(n, sets))
    && (f.Some? ==>
          && (f.value.disabled <==> exists n :: n in nodes && NodeDisables(n, sets))
          && (f.value.needed <==> exists n :: n in nodes && NodeNeeds(n, sets))
          && (f.value.neededFromStrategy <==> exists n :: n in nodes && NodeHasStrategy(n)))
  }

  lemma {:induction false} RuleSetFlagsMean(tags: seq<string>, matchSource: bool, sets: RuleSets)
    ensures var f := RuleSetFlags(tags, matchSource, sets);
            && (f.None? <==> exists t :: t in tags && t !in sets)
            && (f.Some? ==>
                  && !f.value.neededFromStrategy
                  && (f.value.disabled <==> exists t :: t in tags && t in sets && sets[t].containsQueryType)
                  && (f.value.needed <==> !matchSource && exists t :: t in tags && t in sets && sets[t].containsIPCIDR))
  {
    if tags != [] {
      RuleSetFlagsMean(tags[1..], matchSource, sets);
      assert tags == [tags[0]] + tags[1..];
      assert forall t :: t in tags <==> t == tags[0] || t in tags[1..];
    }
  }

  lemma MergeMeans(f: Option<ModeFlags>, ns: seq<RuleOption>, g: Option<ModeFlags>, ms: seq<RuleOption>, sets: RuleSets)
    requires FlagsMean(f, ns, sets) && FlagsMean(g, ms, sets)
    ensures FlagsMean(if f.None? || g.None? then None else Some(Merge(f.value, g.value)), ns + ms, sets)
  {
    assert forall n :: n in ns + ms <==> n in ns || n in ms;
  }

  lemma SingleRuleMeans(f: Option<ModeFlags>, rule: RuleOption, sets: RuleSets)
    requires f.None? <==> NodeMissesSet(rule, sets)
    requires f.Some? ==>
               && (f.value.disabled <==> NodeDisables(rule, sets))
               && (f.value.needed <==> NodeNeeds(rule, sets))
               && (f.value.neededFromStrategy <==> NodeHasStrategy(rule))
    ensures FlagsMean(f, [rule], sets)
  {
    assert rule in [rule];
  }

  lemma {:induction false} RuleFlagsMean(rule: RuleOption, sets: RuleSets)
    ensures FlagsMean(RuleFlags(rule, sets), Nodes(rule), sets)
    decreases rule, 1
  {
    match rule
    case DefaultRule(c, _) =>
      RuleSetFlagsMean(c.ruleSets, c.ruleSetMatchSource, sets);
      SingleRuleMeans(RuleFlags(rule, sets), rule, sets);
    case LogicalRule(rules, _) =>
      RulesFlagsMean(rules, sets);
      SingleRuleMeans(Some(OwnFlags(rule)), rule, sets);
      MergeMeans(Some(OwnFlags(rule)), [rule], RulesFlags(rules, sets), AllNodes(rules), sets);
    case UnknownRule =>
      SingleRuleMeans(Some(NO_FLAGS), rule, sets);
  }

  lemma {:induction false} RulesFlagsMean(rules: seq<RuleOption>, sets: RuleSets)
    ensures FlagsMean(RulesFlags(rules, sets), AllNodes(rules), sets)
    decreases rules, 0
  {
    if rules != [] {
      RuleFlagsMean(rules[0], sets);
      RulesFlagsMean(rules[1..], sets);
      MergeMeans(RuleFlags(rules[0], sets), Nodes(rules[0]), RulesFlags(rules[1..], sets), AllNodes(rules[1..]), sets);
    }
  }

  /** A list is legacy exactly if some node of it needs that and none rules it out; it is in error exactly if a
      rule-set cannot be read, or some node rules legacy mode out and some node has a strategy. */
  lemma ModeMeans(rules: seq<RuleOption>, sets: RuleSets)
    ensures var mode, nodes := ResolveMode(rules, sets), AllNodes(rules);
            && (mode.ModeError? <==>
                  || (exists n | n in nodes :: NodeMissesSet(n, sets))
                  || ((exists n | n in nodes :: NodeDisables(n, sets)) && (exists n | n in nodes :: NodeHasStrategy(n))))
            && (!mode.ModeError? ==>
                  && (mode.legacy <==> (exists n | n in nodes :: NodeNeeds(n, sets)) && !exists n | n in nodes :: NodeDisables(n, sets))
                  && (mode.flags.disabled <==> exists n | n in nodes :: NodeDisables(n, sets)))
  {
    RulesFlagsMean(rules, sets);
  }

  // ----- the router across metadata updates -----

  datatype RouterState = RouterState(rules: seq<RuleOption>, started: bool, legacy: bool, closing: bool, sets: RuleSets)

  /** Whether the router accepts that the rule-set `tag` now has this metadata. */
  ghost predicate AcceptsUpdate(s: RouterState, tag: string, metadata: RuleSetMetadata) {
    if s.rules == [] || s.closing then true
    else
      var sets := s.sets[tag := metadata];
      var mode := ResolveMode(s.rules, sets);
      if mode.ModeError? then false
      else if !s.started then mode.legacy || WellScoped(s.rules, sets)
      else if s.legacy then !(!mode.legacy && mode.flags.disabled)
      else !mode.legacy && WellScoped(s.rules, sets)
  }

  /** Starting resolves the mode, and validates the list unless it is legacy. */
  ghost predicate Starts(s: RouterState, s': RouterState) {
    var mode := ResolveMode(s.rules, s.sets);
    && !s.started && !mode.ModeError?
    && (!mode.legacy ==> WellScoped(s.rules, s.sets))
    && s' == s.(started := true, legacy := mode.legacy)
  }

  ghost predicate RouterNext(s: RouterState, s': RouterState) {
    || Starts(s, s')
    || s' == s.(closing := true)
    || exists tag, metadata :: AcceptsUpdate(s, tag, metadata) && s' == s.(sets := s.sets[tag := metadata])
  }

  ghost predicate IsRouterRun(run: seq<RouterState>) {
    && run != [] && !run[0].started
    && forall i | 0 <= i < |run| - 1 :: RouterNext(run[i], run[i + 1])
  }

  /** The rule list fits the mode the router started in. */
  ghost predicate ModeFits(s: RouterState) {
    var mode := ResolveMode(s.rules, s.sets);
    && !mode.ModeError?
    && if s.legacy then !mode.flags.disabled else !mode.legacy && WellScoped(s.rules, s.sets)
  }

  lemma EmptyListFits(sets: RuleSets)
    ensures ResolveMode([], sets) == Mode(false, NO_FLAGS) && WellScoped([], sets)
  {
  }

  /** A started router accepts exactly the updates after which its list still fits its mode. */
  lemma UpdateAcceptedIffModeFits(s: RouterState, tag: string, metadata: RuleSetMetadata)
    requires s.started && !s.closing
    ensures AcceptsUpdate(s, tag, metadata) <==> ModeFits(s.(sets := s.sets[tag := metadata]))
  {
    EmptyListFits(s.sets[tag := metadata]);
  }

  lemma {:induction false} ModeFitsInEveryRun(run: seq<RouterState>)
    requires IsRouterRun(run)
    ensures var s := run[|run| - 1]; s.started && !s.closing ==> ModeFits(s)
  {
    if |run| > 1 {
      var n := |run| - 1;
      ModeFitsInEveryRun(run[..n]);
      var s, s' := run[n - 1], run[n];
      assert RouterNext(s, s');
      if s'.started && !s'.closing && s.started && s' != s.(closing := true) {
        var tag, metadata :| AcceptsUpdate(s, tag, metadata) && s' == s.(sets := s.sets[tag := metadata]);
        UpdateAcceptedIffModeFits(s, tag, metadata);
      }
    }
  }

  /** A router that started out of legacy mode stays out of it, stays valid for the walker, and has
      no strategy anywhere in its rules: skipping the strategy in `ApplyRouteOptions` loses nothing. */
  lemma NonLegacyStaysSound(run: seq<RouterState>)
    requires IsRouterRun(run)
    requires var s := run[|run| - 1]; s.started && !s.closing && !s.legacy
    ensures var s := run[|run| - 1];
            && !ResolveMode(s.rules, s.sets).ModeError? && !ResolveMode(s.rules, s.sets).legacy
            && Validated(BuildAll(s.rules))
            && forall n | n in AllNodes(s.rules) :: !NodeHasStrategy(n)
  {
    var s := run[|run| - 1];
    ModeFitsInEveryRun(run);
    WellScopedIsValidated(s.rules, s.sets);
    RulesFlagsMean(s.rules, s.sets);
    forall n | n in AllNodes(s.rules) ensures !NodeHasStrategy(n) {
      assert NodeHasStrategy(n) ==> NodeNeeds(n, s.sets);
    }
  }

  /** A router that started in legacy mode never acquires a rule that rules legacy mode out. */
  lemma LegacyStaysLegacy(run: seq<RouterState>)
    requires IsRouterRun(run)
    requires var s := run[|run| - 1]; s.started && !s.closing && s.legacy
    ensures var s := run[|run| - 1]; forall n | n in AllNodes(s.rules) :: !NodeDisables(n, s.sets)
  {
    var s := run[|run| - 1];
    ModeFitsInEveryRun(run);
    RulesFlagsMean(s.rules, s.sets);
  }

  /** In a list without strategies no action of a built rule carries one. */
  lemma NoStrategyInActions(rules: seq<RuleOption>, i: nat)
    requires i < |rules| && forall n | n in AllNodes(rules) :: !NodeHasStrategy(n)
    ensures match Build(rules[i]).action
            case Route(_, _, a) => a.strategy.AsIs?
            case Evaluate(_, _, _, a) => a.strategy.AsIs?
            case RouteOptionsAction(a) => a.strategy.AsIs?
            case _ => true
  {
    TopRuleIsNode(rules, i);
  }

  lemma {:induction false} TopRuleIsNode(rules: seq<RuleOption>, i: nat)
    requires i < |rules|
    ensures rules[i] in AllNodes(rules)
    decreases i
  {
    if i > 0 { TopRuleIsNode(rules[1..], i - 1); }
  }

  // ----- checking and applying apart -----

  datatype Update = Update(tag: string, metadata: RuleSetMetadata)

  function Apply(s: RouterState, u: Update): RouterState { s.(sets := s.sets[u.tag := u.metadata]) }

  /** The router, with the updates that were accepted and are not applied yet: nothing is locked between. */
  datatype Racing = Racing(router: RouterState, accepted: multiset<Update>)

  ghost predicate Applies(s: Racing, s': Racing, u: Update) {
    u in s.accepted && s' == Racing(Apply(s.router, u), s.accepted - multiset{u})
  }

  ghost predicate RacingNext(s: Racing, s': Racing) {
    || (Starts(s.router, s'.router) && s'.accepted == s.accepted)
    || s' == s.(router := s.router.(closing := true))
    || (exists u: Update :: AcceptsUpdate(s.router, u.tag, u.metadata) && s' == s.(accepted := s.accepted + multiset{u}))
    || (exists u :: Applies(s, s', u))
  }

  ghost predicate IsRacingRun(run: seq<Racing>) {
    && run != [] && !run[0].router.started
    && forall i | 0 <= i < |run| - 1 :: RacingNext(run[i], run[i + 1])
  }

  predicate Live(s: RouterState) { s.started && !s.closing }

  // ----- when racing updates misfit -----

  predicate Uses(rules: seq<RuleOption>, tag: string) {
    exists n | n in AllNodes(rules) :: n.DefaultRule? && tag in n.conditions.ruleSets
  }

  /** Some rule matches on the set before there is a response. */
  predicate UsesEarly(rules: seq<RuleOption>, tag: string) {
    exists n | n in AllNodes(rules) :: n.DefaultRule? && n.conditions.matchResponse.Off? && tag in n.conditions.ruleSets
  }

  ghost predicate NoneMisses(rules: seq<RuleOption>, sets: RuleSets) { forall n | n in AllNodes(rules) :: !NodeMissesSet(n, sets) }

  ghost predicate NoneDisables(rules: seq<RuleOption>, sets: RuleSets) { forall n | n in AllNodes(rules) :: !NodeDisables(n, sets) }

  ghost predicate SomeNeeds(rules: seq<RuleOption>, sets: RuleSets) { exists n | n in AllNodes(rules) :: NodeNeeds(n, sets) }

  ghost predicate AllUsable(rules: seq<RuleOption>, sets: RuleSets) {
    forall n | n in AllNodes(rules) && n.DefaultRule? && n.conditions.matchResponse.Off? :: RuleSetsUsable(n.conditions.ruleSets, sets)
  }

  /** A list fits legacy mode exactly if no set is missing and nothing in it disables the mode. */
  lemma LegacyFitsIff(s: RouterState)
    requires s.legacy
    ensures ModeFits(s) <==> NoneMisses(s.rules, s.sets) && NoneDisables(s.rules, s.sets)
  {
    RulesFlagsMean(s.rules, s.sets);
  }

  /** Whether a tree is accepted depends on the sets only through those matched before a response. */
  lemma {:induction false} TreeUseDepends(rule: RuleOption, sets: RuleSets, sets': RuleSets)
    requires TreeUse(rule, sets).Some?
    ensures forall n | n in Nodes(rule) && n.DefaultRule? && n.conditions.matchResponse.Off? :: RuleSetsUsable(n.conditions.ruleSets, sets)
    ensures TreeUse(rule, sets').Some? <==>
              forall n | n in Nodes(rule) && n.DefaultRule? && n.conditions.matchResponse.Off? :: RuleSetsUsable(n.conditions.ruleSets, sets')
    ensures TreeUse(rule, sets').Some? ==> TreeUse(rule, sets') == TreeUse(rule, sets)
    decreases rule, 1
  {
    match rule
    case DefaultRule(c, a) => assert Nodes(rule) == [rule];
    case LogicalRule(rules, a) => {
      TreesUseDepend(rules, sets, sets');
      assert forall n :: n in Nodes(rule) <==> n == rule || n in AllNodes(rules);
    }
    case UnknownRule => assert Nodes(rule) == [rule];
  }

  lemma {:induction false} TreesUseDepend(rules: seq<RuleOption>, sets: RuleSets, sets': RuleSets)
    requires TreesUse(rules, sets).Some?
    ensures AllUsable(rules, sets) && (TreesUse(rules, sets').Some? <==> AllUsable(rules, sets'))
    ensures TreesUse(rules, sets').Some? ==> TreesUse(rules, sets') == TreesUse(rules, sets)
    decreases rules, 0
  {
    if rules != [] {
      TreeUseDepends(rules[0], sets, sets');
      TreesUseDepend(rules[1..], sets, sets');
      assert forall n :: n in AllNodes(rules) <==> n in Nodes(rules[0]) || n in AllNodes(rules[1..]);
    }
  }

  /** Once a list is well scoped under some metadata, it is so exactly where its early sets are usable. */
  lemma WellScopedDepends(rules: seq<RuleOption>, sets: RuleSets, sets': RuleSets)
    requires WellScoped(rules, sets)
    ensures AllUsable(rules, sets) && (WellScoped(rules, sets') <==> AllUsable(rules, sets'))
  {
    forall i | 0 <= i < |rules|
      ensures forall n | n in Nodes(rules[i]) && n.DefaultRule? && n.conditions.matchResponse.Off? :: RuleSetsUsable(n.conditions.ruleSets, sets)
      ensures ScopedAt(rules, sets', i) <==>
                forall n | n in Nodes(rules[i]) && n.DefaultRule? && n.conditions.matchResponse.Off? :: RuleSetsUsable(n.conditions.ruleSets, sets')
    {
      assert ScopedAt(rules, sets, i);
      TreeUseDepends(rules[i], sets, sets');
    }
    forall n ensures n in AllNodes(rules) <==> exists i :: 0 <= i < |rules| && n in Nodes(rules[i]) { NodesOfAll(rules, n); }
  }

  /** A list that was well scoped and holds no strategy fits the mode out of legacy exactly if something in it
      disables legacy mode or nothing needs it, and its early sets are usable. */
  lemma NonLegacyFitsIff(s: RouterState, sets: RuleSets)
    requires !s.legacy && WellScoped(s.rules, sets) && NoneMisses(s.rules, s.sets)
    requires forall n | n in AllNodes(s.rules) :: !NodeHasStrategy(n)
    ensures ModeFits(s) <==> (!NoneDisables(s.rules, s.sets) || !SomeNeeds(s.rules, s.sets)) && AllUsable(s.rules, s.sets)
  {
    RulesFlagsMean(s.rules, s.sets);
    WellScopedDepends(s.rules, sets, s.sets);
  }

  // ----- racing runs -----

  /** No update that is accepted and not applied can do harm on its own. */
  ghost predicate PendingHarmless(s: Racing) {
    forall u | u in s.accepted ::
      if s.router.legacy then Uses(s.router.rules, u.tag) ==> !u.metadata.containsQueryType
      else UsesEarly(s.router.rules, u.tag) ==> !PureIP(u.metadata)
  }

  ghost predicate Shaped(rules: seq<RuleOption>) { exists sets: RuleSets :: WellScoped(rules, sets) }

  ghost predicate RacingOk(s: Racing) {
    Live(s.router) ==>
      && NoneMisses(s.router.rules, s.router.sets) && PendingHarmless(s)
      && (s.router.legacy ==> NoneDisables(s.router.rules, s.router.sets))
      && (!s.router.legacy ==>
            && Shaped(s.router.rules) && (forall n | n in AllNodes(s.router.rules) :: !NodeHasStrategy(n))
            && AllUsable(s.router.rules, s.router.sets))
  }

  /** What is pending when the router starts is harmless; with nothing pending it is. */
  ghost predicate StartsClean(s: Racing, s': Racing) { !s.router.started && s'.router.started ==> PendingHarmless(s') }

  ghost predicate CleanRun(run: seq<Racing>) { forall i | 0 <= i < |run| - 1 :: StartsClean(run[i], run[i + 1]) }

  lemma AcceptedIsHarmless(s: RouterState, u: Update)
    requires Live(s) && AcceptsUpdate(s, u.tag, u.metadata)
    ensures if s.legacy then Uses(s.rules, u.tag) ==> !u.metadata.containsQueryType
            else UsesEarly(s.rules, u.tag) ==> !PureIP(u.metadata)
  {
    UpdateAcceptedIffModeFits(s, u.tag, u.metadata);
    var s' := Apply(s, u);
    if s.legacy {
      LegacyFitsIff(s');
    } else {
      WellScopedDepends(s'.rules, s'.sets, s'.sets);
    }
  }

  lemma ApplyKeepsOk(s: Racing, s': Racing, u: Update)
    requires RacingOk(s) && Applies(s, s', u)
    ensures RacingOk(s')
  {
    if Live(s'.router) {
      var rules, sets, sets' := s.router.rules, s.router.sets, s'.router.sets;
      forall n | n in AllNodes(rules) ensures !NodeMissesSet(n, sets') { assert !NodeMissesSet(n, sets); }
      if s.router.legacy {
        forall n | n in AllNodes(rules) ensures !NodeDisables(n, sets') { assert !NodeDisables(n, sets); }
      } else {
        forall n | n in AllNodes(rules) && n.DefaultRule? && n.conditions.matchResponse.Off?
          ensures RuleSetsUsable(n.conditions.ruleSets, sets')
        {
          assert RuleSetsUsable(n.conditions.ruleSets, sets);
        }
      }
    }
  }

  lemma StartKeepsOk(s: Racing, s': Racing)
    requires Starts(s.router, s'.router) && s'.accepted == s.accepted && StartsClean(s, s')
    ensures RacingOk(s')
  {
    RulesFlagsMean(s.router.rules, s.router.sets);
    if !s'.router.legacy {
      StartIsSound(s.router, s'.router);
      WellScopedDepends(s.router.rules, s.router.sets, s.router.sets);
    }
  }

  lemma RacingNextOk(s: Racing, s': Racing)
    requires RacingOk(s) && RacingNext(s, s') && StartsClean(s, s')
    ensures RacingOk(s')
  {
    if Starts(s.router, s'.router) && s'.accepted == s.accepted {
      StartKeepsOk(s, s');
    } else if u :| Applies(s, s', u) {
      ApplyKeepsOk(s, s', u);
    } else if s' != s.(router := s.router.(closing := true)) && Live(s.router) {
      var u: Update :| AcceptsUpdate(s.router, u.tag, u.metadata) && s' == s.(accepted := s.accepted + multiset{u});
      AcceptedIsHarmless(s.router, u);
    }
  }

  lemma {:induction false} RacingRunOk(run: seq<Racing>)
    requires IsRacingRun(run) && CleanRun(run)
    ensures RacingOk(run[|run| - 1])
  {
    if |run| > 1 {
      var n := |run| - 1;
      var before := run[..n];
      assert IsRacingRun(before) && CleanRun(before) && before[n - 1] == run[n - 1];
      RacingRunOk(before);
      assert RacingNext(run[n - 1], run[n]) && StartsClean(run[n - 1], run[n]);
      RacingNextOk(run[n - 1], run[n]);
    }
  }

  /** However updates race, a router that started in legacy mode stays fit for it, unless an update that was
      accepted before the start gives a used set query types. */
  lemma LegacyRacingFits(run: seq<Racing>)
    requires IsRacingRun(run) && CleanRun(run) && Live(run[|run| - 1].router) && run[|run| - 1].router.legacy
    ensures ModeFits(run[|run| - 1].router)
  {
    RacingRunOk(run);
    LegacyFitsIff(run[|run| - 1].router);
  }

  /** A router that started out of legacy mode misfits exactly when nothing in its list disables legacy mode any
      more and something needs it. */
  lemma NonLegacyRacingFitsIff(run: seq<Racing>)
    requires IsRacingRun(run) && CleanRun(run) && Live(run[|run| - 1].router) && !run[|run| - 1].router.legacy
    ensures var s := run[|run| - 1].router; ModeFits(s) <==> !(NoneDisables(s.rules, s.sets) && SomeNeeds(s.rules, s.sets))
  {
    RacingRunOk(run);
    var s := run[|run| - 1].router;
    var sets: RuleSets :| WellScoped(s.rules, sets);
    NonLegacyFitsIff(s, sets);
  }

  /** The condition on the start is needed: a pending update that is not harmless can be applied next, and
      then the list does not fit. */
  lemma HarmfulPendingMisfits(s: Racing, u: Update) returns (s': Racing)
    requires Live(s.router) && u in s.accepted
    requires if s.router.legacy then Uses(s.router.rules, u.tag) && u.metadata.containsQueryType
             else UsesEarly(s.router.rules, u.tag) && PureIP(u.metadata)
    ensures Applies(s, s', u) && RacingNext(s, s') && Live(s'.router) && !ModeFits(s'.router)
  {
    s' := Racing(Apply(s.router, u), s.accepted - multiset{u});
    assert Applies(s, s', u);
    var rules, sets := s'.router.rules, s'.router.sets;
    if s.router.legacy {
      var n :| n in AllNodes(rules) && n.DefaultRule? && u.tag in n.conditions.ruleSets;
      assert NodeDisables(n, sets);
      LegacyFitsIff(s'.router);
    } else {
      var n :| n in AllNodes(rules) && n.DefaultRule? && n.conditions.matchResponse.Off? && u.tag in n.conditions.ruleSets;
      assert !RuleSetsUsable(n.conditions.ruleSets, sets);
      if WellScoped(rules, sets) { WellScopedDepends(rules, sets, sets); }
    }
  }

  /** What starting out of legacy mode establishes about the rules; no rule-set matters to it. */
  ghost predicate SoundRules(rules: seq<RuleOption>) {
    Validated(BuildAll(rules)) && forall n | n in AllNodes(rules) :: !NodeHasStrategy(n)
  }

  lemma StartIsSound(s: RouterState, s': RouterState)
    requires Starts(s, s') && !s'.legacy
    ensures SoundRules(s'.rules)
  {
    WellScopedIsValidated(s.rules, s.sets);
    RulesFlagsMean(s.rules, s.sets);
    forall n | n in AllNodes(s.rules) ensures !NodeHasStrategy(n) {
      assert NodeHasStrategy(n) ==> NodeNeeds(n, s.sets);
    }
  }

  /** However updates race, a router that started out of legacy mode keeps what the walker relies on: its list
      is valid for the walk and holds no strategy. */
  lemma {:induction false} RacingStaysSound(run: seq<Racing>)
    requires IsRacingRun(run)
    ensures var s := run[|run| - 1].router; s.started && !s.legacy ==> SoundRules(s.rules)
  {
    if |run| > 1 {
      var n := |run| - 1;
      RacingStaysSound(run[..n]);
      assert RacingNext(run[n - 1], run[n]);
      if Starts(run[n - 1].router, run[n].router) && !run[n].router.legacy {
        StartIsSound(run[n - 1].router, run[n].router);
      }
    }
  }

  const TYPES := RuleSetMetadata(false, true, true)
  const PLAIN := RuleSetMetadata(false, true, false)
  const ADDRESSES := RuleSetMetadata(true, true, false)

  /** A router with one rule, on two rule-sets. */
  function Example(reject: ActionOptions, started: bool, a: RuleSetMetadata, b: RuleSetMetadata): RouterState {
    RouterState([DefaultRule(Conditions(Off, false, false, false, false, false, false, ["a", "b"], false, false), reject)],
                started, false, false, map["a" := a, "b" := b])
  }

  lemma ExampleMode(reject: ActionOptions, started: bool, a: RuleSetMetadata, b: RuleSetMetadata)
    requires reject.kind == RejectKind && !reject.race && a.containsNonIPCIDR && b.containsNonIPCIDR
    ensures var s := Example(reject, started, a, b);
            var flags := ModeFlags(a.containsQueryType || b.containsQueryType, a.containsIPCIDR || b.containsIPCIDR, false);
            ResolveMode(s.rules, s.sets) == Mode(!flags.disabled && flags.needed, flags) && WellScoped(s.rules, s.sets)
  {
    var s := Example(reject, started, a, b);
    var rule := s.rules[0];
    var tags := ["a", "b"];
    assert tags[1..] == ["b"] && tags[1..][1..] == [];
    assert RuleSetFlags(tags[1..], false, s.sets) == Some(ModeFlags(b.containsQueryType, b.containsIPCIDR, false));
    assert RuleSetFlags(tags, false, s.sets).Some?;
    assert OwnFlags(rule) == NO_FLAGS;
    assert s.rules[1..] == [] && RulesFlags(s.rules[1..], s.sets) == Some(NO_FLAGS);
    assert RulesFlags(s.rules, s.sets) == RuleFlags(rule, s.sets);
    assert RuleSetsUsable(tags, s.sets);
    assert TreeUse(rule, s.sets) == Some(Use(false, []));
  }

  /** Each of the two updates would be accepted on its own. */
  lemma ExampleAccepts(reject: ActionOptions)
    requires reject.kind == RejectKind && !reject.race
    ensures Starts(Example(reject, false, TYPES, PLAIN), Example(reject, true, TYPES, PLAIN))
    ensures AcceptsUpdate(Example(reject, true, TYPES, PLAIN), "a", PLAIN)
    ensures AcceptsUpdate(Example(reject, true, TYPES, PLAIN), "b", ADDRESSES)
  {
    var s := Example(reject, true, TYPES, PLAIN);
    ExampleMode(reject, false, TYPES, PLAIN);
    ExampleMode(reject, true, PLAIN, PLAIN);
    ExampleMode(reject, true, TYPES, ADDRESSES);
    assert s.sets["a" := PLAIN] == Example(reject, true, PLAIN, PLAIN).sets;
    assert s.sets["b" := ADDRESSES] == Example(reject, true, TYPES, ADDRESSES).sets;
  }

  /** Two updates that race: one set loses its query types while another gains addresses.  Each is accepted,
      and the list ends up asking for legacy mode in a router that started without it. */
  lemma RacingUpdatesMisfit(reject: ActionOptions) returns (run: seq<Racing>)
    requires reject.kind == RejectKind && !reject.race
    ensures IsRacingRun(run)
    ensures var s := run[|run| - 1].router; Live(s) && !s.legacy && ResolveMode(s.rules, s.sets).Mode? && ResolveMode(s.rules, s.sets).legacy
  {
    var s0, s1 := Example(reject, false, TYPES, PLAIN), Example(reject, true, TYPES, PLAIN);
    var s2, s3 := Example(reject, true, PLAIN, PLAIN), Example(reject, true, PLAIN, ADDRESSES);
    var u, v := Update("a", PLAIN), Update("b", ADDRESSES);
    ExampleAccepts(reject);
    ExampleMode(reject, true, PLAIN, ADDRESSES);
    assert Apply(s1, u) == s2 by { assert s1.sets["a" := PLAIN] == s2.sets; }
    assert Apply(s2, v) == s3 by { assert s2.sets["b" := ADDRESSES] == s3.sets; }
    run := RaceThem(s0, s1, s2, s3, u, v);
  }

  /** Both checked, then both applied. */
  lemma RaceThem(s0: RouterState, s1: RouterState, s2: RouterState, s3: RouterState, u: Update, v: Update) returns (run: seq<Racing>)
    requires !s0.started && Starts(s0, s1) && AcceptsUpdate(s1, u.tag, u.metadata) && AcceptsUpdate(s1, v.tag, v.metadata)
    requires Apply(s1, u) == s2 && Apply(s2, v) == s3
    ensures IsRacingRun(run) && run[|run| - 1].router == s3
  {
    var r0, r1 := Racing(s0, multiset{}), Racing(s1, multiset{});
    var r2, r3 := Racing(s1, multiset{u}), Racing(s1, multiset{u, v});
    var r4, r5 := Racing(s2, multiset{v}), Racing(s3, multiset{});
    assert r2 == r1.(accepted := r1.accepted + multiset{u}) && r3 == r2.(accepted := r2.accepted + multiset{v});
    assert Applies(r3, r4, u) && Applies(r4, r5, v);
    run := [r0, r1, r2, r3, r4, r5];
  }

  /** An update accepted before the start and applied after it: the router starts in legacy mode, and then a set
      of its list gets query types. */
  lemma PendingAtStartMisfits(reject: ActionOptions) returns (run: seq<Racing>)
    requires reject.kind == RejectKind && !reject.race
    ensures IsRacingRun(run)
    ensures var s := run[|run| - 1].router; Live(s) && s.legacy && !NoneDisables(s.rules, s.sets) && !ModeFits(s)
  {
    var s0 := Example(reject, false, ADDRESSES, PLAIN);
    var s1 := s0.(started := true, legacy := true);
    var u := Update("b", TYPES);
    ExampleMode(reject, false, ADDRESSES, PLAIN);
    ExampleMode(reject, false, ADDRESSES, TYPES);
    assert s0.sets["b" := TYPES] == Example(reject, false, ADDRESSES, TYPES).sets;
    assert Starts(s0, s1) && AcceptsUpdate(s0, u.tag, u.metadata);
    var r0, r1, r2 := Racing(s0, multiset{}), Racing(s0, multiset{u}), Racing(s1, multiset{u});
    assert r1 == r0.(accepted := r0.accepted + multiset{u});
    ExampleUses(reject);
    var r3 := HarmfulPendingMisfits(r2, u);
    run := [r0, r1, r2, r3];
    LegacyFitsIff(r3.router);
    var n := s0.rules[0];
    assert NodeDisables(n, r3.router.sets);
  }

  lemma ExampleUses(reject: ActionOptions)
    ensures var rules := Example(reject, false, ADDRESSES, PLAIN).rules; Uses(rules, "b") && rules[0] in AllNodes(rules)
  {
    var rules := Example(reject, false, ADDRESSES, PLAIN).rules;
    TopRuleIsNode(rules, 0);
    assert rules[0].DefaultRule? && "b" in rules[0].conditions.ruleSets;
  }
}
