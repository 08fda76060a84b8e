/** Validation of a non-legacy rule list, proved sound for the walker. */
module RuleValidation {
  import opened Optional
  import opened DnsRules
  import opened RuleOptions

  /** The evaluated responses a rule tree uses. */
  datatype Use = Use(needsAnonymous: bool, tags: seq<string>)

  /** A set of addresses only: it matches nothing before there is a response. */
  predicate PureIP(m: RuleSetMetadata) { m.containsIPCIDR && !m.containsNonIPCIDR }

  predicate RuleSetsUsable(tags: seq<string>, sets: RuleSets) {
    forall t | t in tags :: t in sets && !PureIP(sets[t])
  }

  /** None when the tree is rejected. */
  function TreeUse(rule: RuleOption, sets: RuleSets): Option<Use>
    decreases rule, 1
  {
    match rule
    case DefaultRule(c, a) =>
      if (c.responseFields || c.ipCIDR || c.ipIsPrivate || c.ipAcceptAny) && c.matchResponse.Off? then None
      else if c.matchResponse.Off? && !RuleSetsUsable(c.ruleSets, sets) then None
      else if c.ruleSetAcceptEmpty then None
      else Some(Use((c.matchResponse.On? && c.matchResponse.tag == "") || (a.kind.RespondKind? && c.matchResponse.Tag() == ""),
                    if c.matchResponse.Tag() != "" then [c.matchResponse.Tag()] else []))
    case LogicalRule(rules, a) =>
      var u := TreesUse(rules, sets);
      if u.None? then None
      else if a.kind.RespondKind? then
        (if u.value.tags != [] then None else Some(u.value.(needsAnonymous := true)))
      else u
    case UnknownRule => Some(Use(false, []))
  }

  function TreesUse(rules: seq<RuleOption>, sets: RuleSets): Option<Use>
    decreases rules, 0
  {
    if rules == [] then Some(Use(false, []))
    else
      var u, us := TreeUse(rules[0], sets), TreesUse(rules[1..], sets);
      if u.None? || us.None? then None
      else Some(Use(u.value.needsAnonymous || us.value.needsAnonymous, u.value.tags + us.value.tags))
  }

  // ----- what is accepted, field by field -----

  /** The node needs the anonymous response: it matches on it, or answers with it. */
  predicate WantsAnonymous(n: RuleOption) {
    MatchesAnonymous(n) || (!n.UnknownRule? && n.action.kind.RespondKind? && (n.DefaultRule? ==> n.conditions.matchResponse.Off?))
  }

  /** A node that is no ground for refusing the list. */
  predicate NodeAcceptable(n: RuleOption, sets: RuleSets) {
    && (n.DefaultRule? ==> !n.conditions.ruleSetAcceptEmpty)
    && (n.DefaultRule? && n.conditions.matchResponse.Off? ==>
          && !n.conditions.responseFields && !n.conditions.ipCIDR && !n.conditions.ipIsPrivate && !n.conditions.ipAcceptAny
          && forall t | t in n.conditions.ruleSets :: t in sets && (sets[t].containsIPCIDR ==> sets[t].containsNonIPCIDR))
    && (n.LogicalRule? && n.action.kind.RespondKind? ==>
          forall m | m in AllNodes(n.rules) && m.DefaultRule? && m.conditions.matchResponse.On? :: m.conditions.matchResponse.tag == "")
  }

  /** The responses a node needs are evaluated before the rule at `i`. */
  ghost predicate NodeServed(rules: seq<RuleOption>, i: nat, n: RuleOption)
    requires i <= |rules|
  {
    && (WantsAnonymous(n) ==> exists j :: 0 <= j < i && DefinesAnonymous(rules[j]))
    && forall t | WantsTag(n, t) :: exists j :: 0 <= j < i && DefinesTag(rules[j], t)
  }

  ghost predicate Acceptable(rules: seq<RuleOption>, sets: RuleSets) {
    && (forall i, n | 0 <= i < |rules| && n in Nodes(rules[i]) :: NodeAcceptable(n, sets) && NodeServed(rules, i, n))
    && (forall i, j, t | 0 <= j < i < |rules| && DefinesTag(rules[j], t) :: !DefinesTag(rules[i], t))
  }

  /** The use of a forest says what is to be found somewhere in it. */
  ghost predicate UseMeans(u: Option<Use>, nodes: seq<RuleOption>, sets: RuleSets) {
    && (u.Some? <==> forall n | n in nodes :: NodeAcceptable(n, sets))
    && (u.Some? ==>
          && (u.value.needsAnonymous <==> exists n | n in nodes :: WantsAnonymous(n))
          && forall t :: t in u.value.tags <==> exists n | n in nodes :: WantsTag(n, t))
  }

  lemma {:induction false} TreeUseMeans(rule: RuleOption, sets: RuleSets)
    ensures UseMeans(TreeUse(rule, sets), Nodes(rule), sets)
    decreases rule, 1
  {
    match rule
    case DefaultRule(_, _) => DefaultUseMeans(rule, sets);
    case LogicalRule(rules, _) =>
      TreesUseMean(rules, sets);
      LogicalUseMeans(rule, sets);
    case UnknownRule => assert Nodes(rule) == [rule] && rule in Nodes(rule);
  }

  lemma DefaultUseMeans(rule: RuleOption, sets: RuleSets)
    requires rule.DefaultRule?
    ensures UseMeans(TreeUse(rule, sets), Nodes(rule), sets)
  {
    assert Nodes(rule) == [rule] && rule in [rule];
    if TreeUse(rule, sets).Some? {
      forall t ensures t in TreeUse(rule, sets).value.tags <==> WantsTag(rule, t) { }
    }
  }

  /** A bound tag below is a tag in use. */
  lemma NoTagBelow(nodes: seq<RuleOption>, u: Use, sets: RuleSets)
    requires UseMeans(Some(u), nodes, sets)
    ensures u.tags == [] <==> forall m | m in nodes && m.DefaultRule? && m.conditions.matchResponse.On? :: m.conditions.matchResponse.tag == ""
  {
    if u.tags != [] {
      assert u.tags[0] in u.tags;
    } else {
      forall m | m in nodes && m.DefaultRule? && m.conditions.matchResponse.On? ensures m.conditions.matchResponse.tag == "" {
        assert m.conditions.matchResponse.tag !in u.tags;
        assert !WantsTag(m, m.conditions.matchResponse.tag);
      }
    }
  }

  lemma LogicalUseMeans(rule: RuleOption, sets: RuleSets)
    requires rule.LogicalRule? && UseMeans(TreesUse(rule.rules, sets), AllNodes(rule.rules), sets)
    ensures UseMeans(TreeUse(rule, sets), Nodes(rule), sets)
  {
    var nodes, u := AllNodes(rule.rules), TreesUse(rule.rules, sets);
    assert Nodes(rule) == [rule] + nodes;
    assert rule in Nodes(rule) && forall n | n in nodes :: n in Nodes(rule);
    assert forall n | n in Nodes(rule) :: n == rule || n in nodes;
    assert forall t :: !WantsTag(rule, t);
    if u.Some? { NoTagBelow(nodes, u.value, sets); }
  }

  lemma {:induction false} TreesUseMean(rules: seq<RuleOption>, sets: RuleSets)
    ensures UseMeans(TreesUse(rules, sets), AllNodes(rules), sets)
    decreases rules, 0
  {
    if rules != [] {
      TreeUseMeans(rules[0], sets);
      TreesUseMean(rules[1..], sets);
      UsesJoin(TreeUse(rules[0], sets), Nodes(rules[0]), TreesUse(rules[1..], sets), AllNodes(rules[1..]), sets);
    }
  }

  lemma UsesJoin(u: Option<Use>, ns: seq<RuleOption>, v: Option<Use>, ms: seq<RuleOption>, sets: RuleSets)
    requires UseMeans(u, ns, sets) && UseMeans(v, ms, sets)
    ensures UseMeans(if u.None? || v.None? then None else Some(Use(u.value.needsAnonymous || v.value.needsAnonymous, u.value.tags + v.value.tags)),
                     ns + ms, sets)
  {
    assert forall n :: n in ns + ms <==> n in ns || n in ms;
  }

  /** The rule at `i` uses only responses that an earlier rule defines, and defines no tag twice. */
  ghost predicate ScopedAt(rules: seq<RuleOption>, sets: RuleSets, i: nat)
    requires i < |rules|
  {
    var u := TreeUse(rules[i], sets);
    && u.Some?
    && (u.value.needsAnonymous ==> exists j :: 0 <= j < i && DefinesAnonymous(rules[j]))
    && (forall t | t in u.value.tags :: exists j :: 0 <= j < i && DefinesTag(rules[j], t))
    && (forall t | DefinesTag(rules[i], t) :: !exists j :: 0 <= j < i && DefinesTag(rules[j], t))
  }

  ghost predicate WellScoped(rules: seq<RuleOption>, sets: RuleSets) {
    forall i | 0 <= i < |rules| :: ScopedAt(rules, sets, i)
  }

  lemma ScopedAtIff(rules: seq<RuleOption>, sets: RuleSets, i: nat)
    requires i < |rules|
    ensures ScopedAt(rules, sets, i) <==>
              && (forall n | n in Nodes(rules[i]) :: NodeAcceptable(n, sets) && NodeServed(rules, i, n))
              && (forall j, t | 0 <= j < i && DefinesTag(rules[j], t) :: !DefinesTag(rules[i], t))
  {
    TreeUseMeans(rules[i], sets);
    var u, nodes := TreeUse(rules[i], sets), Nodes(rules[i]);
    if u.Some? {
      forall n | n in nodes && NodeServed(rules, i, n) && WantsAnonymous(n) ensures exists j :: 0 <= j < i && DefinesAnonymous(rules[j]) { }
      forall n, t | n in nodes && WantsTag(n, t) ensures t in u.value.tags { }
    }
  }

  /** A list is accepted exactly if no node is a ground for refusing it, the responses every node needs are
      evaluated before its rule, and no tag is defined twice. */
  lemma WellScopedIffAcceptable(rules: seq<RuleOption>, sets: RuleSets)
    ensures WellScoped(rules, sets) <==> Acceptable(rules, sets)
  {
    forall i | 0 <= i < |rules|
      ensures ScopedAt(rules, sets, i) <==>
                && (forall n | n in Nodes(rules[i]) :: NodeAcceptable(n, sets) && NodeServed(rules, i, n))
                && (forall j, t | 0 <= j < i && DefinesTag(rules[j], t) :: !DefinesTag(rules[i], t))
    {
      ScopedAtIff(rules, sets, i);
    }
  }

  /** The validation loop accepts exactly the acceptable lists. */
  method ValidateRules(rules: seq<RuleOption>, sets: RuleSets) returns (ok: bool)
    ensures ok <==> WellScoped(rules, sets)
    ensures ok <==> Acceptable(rules, sets)
  {
    WellScopedIffAcceptable(rules, sets);
    var seenAnonymous := false;
    var definedTags: set<string> := {};
    for i := 0 to |rules|
      invariant seenAnonymous <==> exists j :: 0 <= j < i && DefinesAnonymous(rules[j])
      invariant forall t :: t in definedTags <==> exists j :: 0 <= j < i && DefinesTag(rules[j], t)
      invariant forall j | 0 <= j < i :: ScopedAt(rules, sets, j)
    {
      var use := TreeUse(rules[i], sets);
      if use.None? || (use.value.needsAnonymous && !seenAnonymous) {
        assert !ScopedAt(rules, sets, i);
        return false;
      }
      var tags := use.value.tags;
      for k := 0 to |tags|
        invariant forall n | 0 <= n < k :: tags[n] in definedTags
      {
        if tags[k] !in definedTags {
          assert tags[k] in tags;
          assert !ScopedAt(rules, sets, i);
          return false;
        }
      }
      if KindOf(rules[i]).EvaluateKind? {
        var tag := rules[i].action.evaluate.tag;
        if tag == "" {
          seenAnonymous := true;
        } else {
          if tag in definedTags {
            assert DefinesTag(rules[i], tag);
            assert !ScopedAt(rules, sets, i);
            return false;
          }
          assert forall t :: DefinesTag(rules[i], t) <==> t == tag;
          definedTags := definedTags + {tag};
        }
      }
      assert ScopedAt(rules, sets, i);
    }
    return true;
  }

  // ----- soundness for the walker -----

  lemma {:induction false} BoundTagsAreUsed(rule: RuleOption, sets: RuleSets)
    requires TreeUse(rule, sets).Some?
    ensures forall t | t in BoundTags(rule) :: t != "" && t in TreeUse(rule, sets).value.tags
    decreases rule, 1
  {
    if rule.LogicalRule? { AllBoundTagsAreUsed(rule.rules, sets); }
  }

  lemma {:induction false} AllBoundTagsAreUsed(rules: seq<RuleOption>, sets: RuleSets)
    requires TreesUse(rules, sets).Some?
    ensures forall t | t in AllBoundTags(rules) :: t != "" && t in TreesUse(rules, sets).value.tags
    decreases rules, 0
  {
    if rules != [] {
      BoundTagsAreUsed(rules[0], sets);
      AllBoundTagsAreUsed(rules[1..], sets);
    }
  }

  /** In an accepted list every bound tag is defined by exactly one rule, an earlier one, and every
      rule has the shape the walker relies on. */
  lemma WellScopedIsValidated(rules: seq<RuleOption>, sets: RuleSets)
    requires WellScoped(rules, sets)
    ensures Validated(BuildAll(rules))
  {
    var built := BuildAll(rules);
    forall i | 0 <= i < |rules| ensures forall t :: built[i].Defines(t) <==> DefinesTag(rules[i], t) { }
    forall i, t | 0 <= i < |built| && t in built[i].tags
      ensures t != "" && exists j :: 0 <= j < i && built[j].Defines(t)
    {
      assert ScopedAt(rules, sets, i);
      BoundTagsAreUsed(rules[i], sets);
      var j :| 0 <= j < i && DefinesTag(rules[j], t);
      assert built[j].Defines(t);
    }
    forall i, j, t | 0 <= i < j < |built| && built[i].Defines(t) ensures !built[j].Defines(t) {
      assert ScopedAt(rules, sets, j);
      assert DefinesTag(rules[i], t);
    }
    forall i | 0 <= i < |built| ensures WellShaped(built[i]) {
      assert ScopedAt(rules, sets, i);
      if rules[i].LogicalRule? && rules[i].action.kind.RespondKind? {
        BoundTagsAreUsed(rules[i], sets);
      }
    }
  }
}
