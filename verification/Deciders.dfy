/** Which rules can decide an exchange, and with which outcome, said of the rule list alone: an answer is named by
    the rule that asked for it, and nothing is said of futures, arming or waking. */
module Deciders {
  import opened Optional
  import opened DnsRules
  import opened RuleWalk

  /** The rules that asked for the anonymous answer and for the tagged ones. */
  datatype Sources = Sources(anonymous: Option<nat>, named: map<string, nat>)

  /** What every exchange that gets to a rule has behind it: its scope and who asked for that, the answers it had
      to wait for, and the answers that race rules bound. */
  datatype Course = Course(scope: Scope, sources: Sources, needed: set<nat>, raced: set<nat>)

  function Binds(rule: Rule, q: Sources): set<nat> {
    (set t | t in rule.tags && t in q.named :: q.named[t]) +
    (if rule.anonymous && q.anonymous.Some? then {q.anonymous.value} else {})
  }

  /** A matched rule that does not decide, and yet waits for the race rules before it. */
  predicate HoldsBack(r: Router, i: nat, s: Scope)
    requires i < |r.rules|
  {
    IsBarrier(r, i, s) || (Matched(r, i, s) && r.rules[i].action == Reject(Other))
  }

  function Requery(r: Router, i: nat, s: Scope, q: Sources): Sources
    requires i < |r.rules|
  {
    if r.rules[i].Races() || !Matched(r, i, s) || !r.rules[i].action.Evaluate? then q
    else
      var Evaluate(server, tag, _, _) := r.rules[i].action;
      if server !in r.servers then (if tag == "" then q.(anonymous := None) else q)
      else if tag == "" then q.(anonymous := Some(i)) else q.(named := q.named[tag := i])
  }

  function Pass(r: Router, i: nat, c: Course): Course
    requires i < |r.rules|
  {
    var b := Binds(r.rules[i], c.sources);
    if r.rules[i].Races() then c.(raced := c.raced + b)
    else Course(Advance(r, i, c.scope), Requery(r, i, c.scope, c.sources),
                c.needed + b + (if HoldsBack(r, i, c.scope) then c.raced else {}), c.raced)
  }

  function CourseAt(r: Router, o: QueryOptions, i: nat): Course
    requires i <= |r.rules|
  {
    if i == 0 then Course(Scope(o, None, map[]), Sources(None, map[]), {}, {}) else Pass(r, i - 1, CourseAt(r, o, i - 1))
  }

  predicate Deciding(r: Router, o: QueryOptions, i: nat) { i < |r.rules| && Judge(r, i, CourseAt(r, o, i).scope).Commit? }

  predicate DecidingRace(r: Router, o: QueryOptions, k: nat) { Deciding(r, o, k) && r.rules[k].Races() }

  function BindsAt(r: Router, o: QueryOptions, k: nat): set<nat>
    requires k < |r.rules|
  {
    Binds(r.rules[k], CourseAt(r, o, k).sources)
  }

  /** No race rule before this one decides. */
  predicate Unrivalled(r: Router, o: QueryOptions, i: nat) { forall k | 0 <= k < i :: !DecidingRace(r, o, k) }

  predicate Passable(r: Router, o: QueryOptions, m: nat) {
    && m < |r.rules|
    && (!r.rules[m].Races() ==> !Deciding(r, o, m) && (HoldsBack(r, m, CourseAt(r, o, m).scope) ==> Unrivalled(r, o, m)))
  }

  predicate Reaches(r: Router, o: QueryOptions, i: nat) { i <= |r.rules| && forall m | 0 <= m < i :: Passable(r, o, m) }

  /** An earlier race rule decides on these answers. */
  predicate Beaten(r: Router, o: QueryOptions, j: nat, answers: set<nat>) {
    exists k | 0 <= k < j :: DecidingRace(r, o, k) && BindsAt(r, o, k) <= answers
  }

  predicate CanDecide(r: Router, o: QueryOptions, d: Decider) {
    match d
    case Nobody => false
    case ByRace(j) => DecidingRace(r, o, j) && Reaches(r, o, j) && !Beaten(r, o, j, CourseAt(r, o, j).needed + BindsAt(r, o, j))
    case ByRule(i) => Deciding(r, o, i) && !r.rules[i].Races() && Reaches(r, o, i) && Unrivalled(r, o, i)
    case ByDefault => Reaches(r, o, |r.rules|) && Unrivalled(r, o, |r.rules|)
  }

  function DecidedOutcome(r: Router, o: QueryOptions, d: Decider): Outcome
    requires CanDecide(r, o, d)
  {
    match d
    case ByRace(j) => Judge(r, j, CourseAt(r, o, j).scope).outcome
    case ByRule(i) => Judge(r, i, CourseAt(r, o, i).scope).outcome
    case ByDefault => DefaultOutcome(r, CourseAt(r, o, |r.rules|).scope)
  }

  // ----- courses -----

  lemma {:induction false} NeededGrows(r: Router, o: QueryOptions, i: nat, j: nat)
    requires i <= j <= |r.rules|
    ensures CourseAt(r, o, i).needed <= CourseAt(r, o, j).needed
    decreases j
  {
    if i < j { NeededGrows(r, o, i, j - 1); }
  }

  lemma {:induction false} RacedIsBound(r: Router, o: QueryOptions, i: nat, x: nat) returns (k: nat)
    requires i <= |r.rules| && x in CourseAt(r, o, i).raced
    ensures k < i && r.rules[k].Races() && x in BindsAt(r, o, k)
  {
    if r.rules[i - 1].Races() && x in BindsAt(r, o, i - 1) { k := i - 1; } else { k := RacedIsBound(r, o, i - 1, x); }
  }

  lemma {:induction false} BoundIsRaced(r: Router, o: QueryOptions, k: nat, i: nat)
    requires k < i <= |r.rules| && r.rules[k].Races()
    ensures BindsAt(r, o, k) <= CourseAt(r, o, i).raced
    decreases i
  {
    if k < i - 1 { BoundIsRaced(r, o, k, i - 1); }
  }

  function Place(r: Router, d: Decider): nat {
    match d case ByRace(j) => j case ByRule(i) => i case _ => |r.rules|
  }

  /** Without a deciding race rule in reach only one rule, or the default server, can decide. */
  lemma RuleDecidesAlone(r: Router, o: QueryOptions, d: Decider, d': Decider)
    requires CanDecide(r, o, d) && CanDecide(r, o, d') && !d.ByRace?
    ensures d' == d
  {
    var i, i' := Place(r, d), Place(r, d');
    assert i' < i ==> Passable(r, o, i') && !DecidingRace(r, o, i');
    assert i < i' ==> Passable(r, o, i);
  }
}
