/** The theorems about whole exchanges. */
module WalkTheorems {
  import opened Optional
  import opened Sets
  import opened DnsRules
  import opened RuleWalk
  import opened WalkInvariant
  import opened WalkSteps
  import opened WalkMachine
  import opened WalkRuns

  // ----- counting -----

  predicate Suspended(c: Config) {
    (c.control.Checking? || c.control.Blocked?) && !c.control.suspension.Pend?
  }

  predicate Awaiting(c: Config) {
    Suspended(c) && c.control.suspension.Await?
  }

  /** Every await names a new query, every drain a new rule index, and each is re-entered once. */
  ghost predicate Counted(c: Config) {
    && (forall f | f in c.awaited :: f < |c.walk.futures|)
    && (forall d | d in c.drained :: d <= c.walk.index)
    && c.wakes + (if c.token then 1 else 0) <= |c.signalled|
    && c.reentries + (if Suspended(c) then 1 else 0) <= |c.awaited| + |c.drained|
    && (c.control.Walking? || Suspended(c) ==>
          forall f | f in c.awaited :: f in c.done || (Awaiting(c) && c.control.suspension.future == f))
    && (c.control.Walking? || Awaiting(c) ==> c.walk.index in c.drained ==> c.walk.armed == [])
  }

  /** What one rule does to the record, whatever it does to the walk. */
  ghost predicate Walked(c: Config, c': Config) {
    && c.control.Walking?
    && c'.done == c.done && c'.signalled == c.signalled && c'.wakes == c.wakes && c'.token == c.token
    && c'.reentries == c.reentries && |c.walk.futures| <= |c'.walk.futures|
    && match c'.control
       case Walking => c'.walk.index == c.walk.index + 1 && c'.awaited == c.awaited && c'.drained == c.drained
       case Checking(s) =>
         && c'.walk.index == c.walk.index
         && c'.awaited == (if s.Await? then c.awaited + {s.future} else c.awaited)
         && c'.drained == (if s.Drain? then c.drained + {c.walk.index} else c.drained)
         && (s.Await? ==> s.future < |c'.walk.futures| && s.future !in c.done && c'.walk.armed == c.walk.armed)
         && (s.Drain? ==> c.walk.armed != [])
       case Finished(_) => c'.walk.index == c.walk.index && c'.awaited == c.awaited && c'.drained == c.drained
       case _ => false
  }

  lemma WalkMoveWalks(r: Router, o: QueryOptions, c: Config)
    requires Validated(r.rules) && Safe(r, o, c) && c.control.Walking? && ArmedInRange(r, c.walk.armed)
    ensures Walked(c, WalkMove(r, c))
  {
    RuleStepOk(r, c.walk, c.done);
    RuleStepGrows(r, c.walk, c.done);
    RuleStepRecorded(r, c.walk, c.done);
  }

  lemma WalkedCounts(c: Config, c': Config)
    requires Counted(c) && Walked(c, c')
    ensures Counted(c')
    ensures Suspended(c') ==> |c'.awaited| + |c'.drained| == |c.awaited| + |c.drained| + 1
  {
    if c'.control.Checking? { SuspendedCounts(c, c'); } else { assert !Suspended(c') && !Awaiting(c'); }
  }

  lemma SuspendedCounts(c: Config, c': Config)
    requires Counted(c) && Walked(c, c') && c'.control.Checking?
    ensures Counted(c')
    ensures Suspended(c') ==> |c'.awaited| + |c'.drained| == |c.awaited| + |c.drained| + 1
  {
    var s := c'.control.suspension;
    if s.Await? {
      assert s.future !in c.awaited && |c'.awaited| == |c.awaited| + 1;
    } else if s.Drain? {
      assert c.walk.index !in c.drained && |c'.drained| == |c.drained| + 1;
    }
  }

  /** What the top of the resume loop does to the record, whatever it decides. */
  ghost predicate Checked(c: Config, c': Config) {
    && c.control.Checking?
    && c'.done == c.done && c'.signalled == c.signalled && c'.wakes == c.wakes && c'.token == c.token
    && c'.awaited == c.awaited && c'.drained == c.drained
    && c'.walk.index == c.walk.index && |c'.walk.futures| == |c.walk.futures|
    && c'.reentries == c.reentries + (if c'.control.Walking? then 1 else 0)
    && (c.walk.armed == [] ==> c'.walk.armed == [])
    && match c'.control
       case Walking => !c.control.suspension.Pend? && !MustWait(c.control.suspension, c.done, c'.walk.armed)
       case Blocked(s) => s == c.control.suspension && !s.Pend?
       case Checking(_) => false
       case _ => true
  }

  /** The counters and the control after the top of the resume loop. */
  lemma CheckMoveRecord(r: Router, c: Config)
    requires c.control.Checking? && ArmedInRange(r, c.walk.armed)
    ensures var c' := CheckMove(r, c);
            && c'.done == c.done && c'.signalled == c.signalled && c'.wakes == c.wakes && c'.token == c.token
            && c'.awaited == c.awaited && c'.drained == c.drained
            && c'.reentries == c.reentries + (if c'.control.Walking? then 1 else 0)
            && (c.control.suspension.Pend? ==> c'.control.Finishing? || c'.control.Finished?)
            && match c'.control
               case Walking => !c.control.suspension.Pend? && !MustWait(c.control.suspension, c.done, c'.walk.armed)
               case Blocked(s) => s == c.control.suspension && !s.Pend?
               case Checking(_) => false
               case _ => true
  {
  }

  lemma CheckMoveChecks(r: Router, o: QueryOptions, c: Config)
    requires Validated(r.rules) && Safe(r, o, c) && c.control.Checking? && ArmedInRange(r, c.walk.armed)
    ensures Checked(c, CheckMove(r, c))
    ensures c.control.suspension.Pend? ==> CheckMove(r, c).control.Finishing? || CheckMove(r, c).control.Finished?
  {
    CheckMoveRecord(r, c);
    SweepMoveKeeps(r, c.walk, c.done);
    var w1 := Settle(r, c.walk, c.done);
    var s := Sweep(r, w1, c.done, c.walk.armed);
    assert CheckMove(r, c).walk == w1.(armed := s.rest);
    assert c.walk.armed == [] ==> s.rest == [];
  }

  lemma CheckedCounts(c: Config, c': Config)
    requires Counted(c) && Checked(c, c')
    ensures Counted(c')
  {
  }

  lemma NextCounted(r: Router, o: QueryOptions, c: Config, c': Config)
    requires Validated(r.rules) && Safe(r, o, c) && Counted(c) && NextStep(r, c, c')
    ensures Counted(c')
  {
    if CanMove(r, c) && c' == Move(r, c) {
      MoveCounted(r, o, c);
    } else {
      EnvironmentCounted(r, c, c');
    }
  }

  lemma MoveCounted(r: Router, o: QueryOptions, c: Config)
    requires Validated(r.rules) && Safe(r, o, c) && Counted(c) && CanMove(r, c)
    ensures Counted(Move(r, c))
  {
    match c.control
    case Walking => { WalkMoveWalks(r, o, c); WalkedCounts(c, WalkMove(r, c)); }
    case Checking(_) => { CheckMoveChecks(r, o, c); CheckedCounts(c, CheckMove(r, c)); }
    case Blocked(_) =>
    case Finishing(_) =>
  }

  lemma EnvironmentCounted(r: Router, c: Config, c': Config)
    requires Counted(c) && ((exists f :: Arrives(c, c', f)) || (exists f :: Signals(c, c', f)) || Cancels(c, c'))
    ensures Counted(c')
  {
    if f :| Arrives(c, c', f) {
      ArrivalCounted(c, c', f);
    } else if f :| Signals(c, c', f) {
      SignalCounted(c, c', f);
    } else {
      CancelCounted(c, c');
    }
  }

  lemma ArrivalCounted(c: Config, c': Config, f: nat)
    requires Counted(c) && Arrives(c, c', f)
    ensures Counted(c')
  {
    assert Suspended(c') == Suspended(c) && Awaiting(c') == Awaiting(c);
  }

  lemma SignalCounted(c: Config, c': Config, f: nat)
    requires Counted(c) && Signals(c, c', f)
    ensures Counted(c')
  {
    assert |c'.signalled| == |c.signalled| + 1 && Suspended(c') == Suspended(c) && Awaiting(c') == Awaiting(c);
  }

  lemma CancelCounted(c: Config, c': Config)
    requires Counted(c) && Cancels(c, c')
    ensures Counted(c')
  {
    assert c' == c.(control := Cancelled);
  }

  /** Each rule launches at most one query. */
  lemma {:induction false} LaunchesFit(r: Router, w: Walk, done: set<nat>, k: nat)
    requires FuturesOk(r, w, done) && k < |w.futures|
    ensures k <= w.futures[k].index < |r.rules|
  {
    assert FutureOk(r, w, done, k);
    if k > 0 { LaunchesFit(r, w, done, k - 1); }
  }

  lemma CountsFit(r: Router, o: QueryOptions, c: Config)
    requires Validated(r.rules) && Safe(r, o, c) && Counted(c)
    ensures |c.walk.futures| <= |r.rules|
    ensures |c.awaited| <= |r.rules|
    ensures |c.signalled| <= |c.done| <= |r.rules|
    ensures c.walk.index <= |r.rules| ==> |c.drained| <= |r.rules| + 1
  {
    if c.walk.futures != [] { LaunchesFit(r, c.walk, c.done, |c.walk.futures| - 1); }
    BoundedSize(c.awaited, |c.walk.futures|);
    BoundedSize(c.done, |c.walk.futures|);
    SubsetSize(c.signalled, c.done);
    if c.walk.index <= |r.rules| { BoundedSize(c.drained, |r.rules| + 1); }
  }

  // ----- bounded runs -----

  function LoopRank(n: nat, c: Config): int {
    4 * (2 * n + 1 - |c.awaited| - |c.drained|) + 4 * (n - c.wakes) + (n - c.walk.index)
  }

  function WalkerRank(n: nat, c: Config): int {
    match c.control
    case Finished(_) => 0
    case Cancelled => 0
    case Finishing(_) => 1
    case Walking => LoopRank(n, c) + 3
    case Checking(s) => if s.Pend? then 2 else LoopRank(n, c) + 5
    case Blocked(_) => LoopRank(n, c) + 4
  }

  function Rank(r: Router, c: Config): int {
    2 * |r.rules| - |c.done| - |c.signalled| + WalkerRank(|r.rules|, c)
  }

  lemma RankBounds(r: Router, o: QueryOptions, c: Config)
    requires Validated(r.rules) && Safe(r, o, c) && Counted(c)
    ensures c.control.Walking? || Suspended(c) ==> LoopRank(|r.rules|, c) >= 0
    ensures 0 <= WalkerRank(|r.rules|, c) && 0 <= Rank(r, c)
  {
    CountsFit(r, o, c);
  }

  /** Every step of a run, of the walker or of a callback, uses up rank. */
  lemma NextRank(r: Router, o: QueryOptions, c: Config, c': Config)
    requires Validated(r.rules) && Safe(r, o, c) && Counted(c) && NextStep(r, c, c')
    ensures Rank(r, c') < Rank(r, c)
  {
    if CanMove(r, c) && c' == Move(r, c) {
      MoveRank(r, o, c);
    } else if f :| Arrives(c, c', f) {
      CallbackRank(r, c, c', f);
    } else if f :| Signals(c, c', f) {
      CallbackRank(r, c, c', f);
    } else {
      CancelRank(r, o, c, c');
    }
  }

  lemma CallbackRank(r: Router, c: Config, c': Config, f: nat)
    requires Arrives(c, c', f) || Signals(c, c', f)
    ensures Rank(r, c') < Rank(r, c)
  {
    assert c'.control == c.control && LoopRank(|r.rules|, c') == LoopRank(|r.rules|, c);
    assert |c'.done| + |c'.signalled| == |c.done| + |c.signalled| + 1;
  }

  lemma CancelRank(r: Router, o: QueryOptions, c: Config, c': Config)
    requires Validated(r.rules) && Safe(r, o, c) && Counted(c) && Cancels(c, c')
    ensures Rank(r, c') < Rank(r, c)
  {
    RankBounds(r, o, c);
  }

  lemma MoveRank(r: Router, o: QueryOptions, c: Config)
    requires Validated(r.rules) && Safe(r, o, c) && Counted(c) && CanMove(r, c)
    ensures Move(r, c).done == c.done && Move(r, c).signalled == c.signalled
    ensures WalkerRank(|r.rules|, Move(r, c)) < WalkerRank(|r.rules|, c)
  {
    RankBounds(r, o, c);
    if c.control.Walking? {
      var c' := WalkMove(r, c);
      WalkMoveWalks(r, o, c);
      WalkedCounts(c, c');
      WalkMoveRank(|r.rules|, c, c');
    } else if c.control.Checking? {
      CheckMoveChecks(r, o, c);
      var c' := CheckMove(r, c);
      CheckMoveRank(|r.rules|, c, c');
    }
  }

  lemma WalkMoveRank(n: nat, c: Config, c': Config)
    requires c.control.Walking? && LoopRank(n, c) >= 0 && c'.wakes == c.wakes
    requires !c'.control.Cancelled? && !c'.control.Blocked?
    requires c'.control.Walking? ==> c'.walk.index == c.walk.index + 1 && c'.awaited == c.awaited && c'.drained == c.drained
    requires Suspended(c') ==> c'.walk.index == c.walk.index && |c'.awaited| + |c'.drained| == |c.awaited| + |c.drained| + 1
    ensures WalkerRank(n, c') < WalkerRank(n, c)
  {
  }

  lemma CheckMoveRank(n: nat, c: Config, c': Config)
    requires c.control.Checking? && (!c.control.suspension.Pend? ==> LoopRank(n, c) >= 0)
    requires c'.wakes == c.wakes && c'.awaited == c.awaited && c'.drained == c.drained && c'.walk.index == c.walk.index
    requires !c'.control.Checking?
    requires c.control.suspension.Pend? ==> c'.control.Finishing? || c'.control.Finished?
    ensures WalkerRank(n, c') < WalkerRank(n, c)
  {
  }

  // ----- the commit gate -----

  ghost predicate Decided(c: Config) {
    c.control.Finishing? || c.control.Finished? || (c.control.Checking? && c.control.suspension.Pend?)
  }

  ghost predicate Gated(r: Router, c: Config) {
    && (forall a | a in c.missed :: Lost(r, c.walk, c.done, a) && (c.decider.ByRace? || a.index < c.walk.index))
    && (c.control.Walking? || Suspended(c) ==> c.decider == Nobody)
    && (Decided(c) ==> c.decider != Nobody)
    && (!c.decider.ByRace? ==>
          forall j | 0 <= j < c.walk.index && j < |r.rules| && r.rules[j].Races() :: Accounted(c.walk.armed, c.missed, j))
    && (c.decider.ByRule? || c.decider.ByDefault? ==> c.walk.armed == [])
    && (c.decider.ByRule? ==> c.decider.index == c.walk.index)
    && (c.decider.ByDefault? ==> c.walk.index >= |r.rules|)
  }

  lemma AccountedCarries(armed: seq<Armed>, missed: seq<Armed>, armed': seq<Armed>, more: seq<Armed>, j: nat)
    requires Accounted(armed, missed, j) && forall a | a in armed :: Disposed(armed', more, a)
    ensures Accounted(armed', missed + more, j)
  {
    if a :| a in armed && a.index == j {
      assert Disposed(armed', more, a);
      if a in more { assert a in missed + more; }
    } else {
      var a :| a in missed && a.index == j;
      assert a in missed + more;
    }
  }

  lemma WalkMoveLosers(r: Router, o: QueryOptions, c: Config)
    requires Validated(r.rules) && Safe(r, o, c) && Gated(r, c) && c.control.Walking?
    requires ArmedInRange(r, c.walk.armed)
    ensures var st := RuleStep(r, c.walk, c.done);
            forall a | a in c.missed + st.missed :: Lost(r, st.walk, c.done, a) && a.index <= c.walk.index && (a in c.missed ==> a.index < c.walk.index)
  {
    var st := RuleStep(r, c.walk, c.done);
    RuleStepLosers(r, c.walk, c.done);
    RuleStepGrows(r, c.walk, c.done);
    forall a | a in c.missed ensures Lost(r, st.walk, c.done, a) { GrowthKeepsLost(r, c.walk, st.walk, c.done, a); }
  }

  lemma WalkMoveAccounted(r: Router, w: Walk, missed: seq<Armed>, st: Step)
    requires StepRecorded(r, w, st) && st.effect.Continue? && st.walk.index == w.index + 1
    requires forall j | 0 <= j < w.index && j < |r.rules| && r.rules[j].Races() :: Accounted(w.armed, missed, j)
    ensures forall j | 0 <= j < st.walk.index && j < |r.rules| && r.rules[j].Races() :: Accounted(st.walk.armed, missed + st.missed, j)
  {
    forall j | 0 <= j < st.walk.index && j < |r.rules| && r.rules[j].Races()
      ensures Accounted(st.walk.armed, missed + st.missed, j)
    {
      if j < w.index {
        AccountedCarries(w.armed, missed, st.walk.armed, st.missed, j);
      } else if a :| a in st.missed && a.index == j {
        assert a in missed + st.missed;
      }
    }
  }

  lemma WalkMoveGated(r: Router, o: QueryOptions, c: Config)
    requires Validated(r.rules) && Safe(r, o, c) && Gated(r, c) && c.control.Walking?
    requires ArmedInRange(r, c.walk.armed)
    ensures Gated(r, WalkMove(r, c))
  {
    var st := RuleStep(r, c.walk, c.done);
    RuleStepOk(r, c.walk, c.done);
    assert st.effect.Continue? ==> st.walk.index == c.walk.index + 1;
    assert !st.effect.Continue? ==> st.walk.index == c.walk.index;
    RuleStepRecorded(r, c.walk, c.done);
    WalkMoveLosers(r, o, c);
    if st.effect.Continue? {
      WalkMoveAccounted(r, c.walk, c.missed, st);
    } else if !st.decider.ByRace? {
      assert c.missed + st.missed == c.missed;
    }
    GatedFromStep(r, c, st, WalkMove(r, c));
  }

  lemma GatedFromStep(r: Router, c: Config, st: Step, c': Config)
    requires c'.walk == st.walk && c'.missed == c.missed + st.missed && c'.decider == st.decider && c'.done == c.done
    requires StepRecorded(r, c.walk, st)
    requires st.walk.index == if st.effect.Continue? then c.walk.index + 1 else c.walk.index
    requires forall a | a in c'.missed :: Lost(r, st.walk, c.done, a) && a.index <= c.walk.index && (a in c.missed ==> a.index < c.walk.index)
    requires !st.decider.ByRace? ==>
               forall j | 0 <= j < st.walk.index && j < |r.rules| && r.rules[j].Races() :: Accounted(st.walk.armed, c'.missed, j)
    requires match st.effect
             case Continue => c'.control == Walking
             case Finish(o) => c'.control == Finished(o)
             case Suspend(s) => c'.control == Checking(s)
    ensures Gated(r, c')
  {
  }

  lemma CheckMoveLosers(r: Router, o: QueryOptions, c: Config)
    requires Validated(r.rules) && Safe(r, o, c) && Gated(r, c) && c.control.Checking?
    requires ArmedInRange(r, c.walk.armed)
    ensures var c' := CheckMove(r, c);
            forall a | a in c'.missed :: Lost(r, c'.walk, c.done, a) && (a in c.missed || a in c.walk.armed)
  {
    var c' := CheckMove(r, c);
    SweepMoveKeeps(r, c.walk, c.done);
    SweepMoveMisses(r, c.walk, c.done);
    forall a | a in c.missed ensures Lost(r, c'.walk, c.done, a) { GrowthKeepsLost(r, c.walk, c'.walk, c.done, a); }
  }

  lemma CheckMoveAccounted(r: Router, o: QueryOptions, c: Config)
    requires Validated(r.rules) && Safe(r, o, c) && Gated(r, c) && c.control.Checking?
    requires ArmedInRange(r, c.walk.armed) && !CheckMove(r, c).decider.ByRace?
    ensures var c' := CheckMove(r, c);
            forall j | 0 <= j < c.walk.index && j < |r.rules| && r.rules[j].Races() :: Accounted(c'.walk.armed, c'.missed, j)
  {
    var w1 := Settle(r, c.walk, c.done);
    var s := Sweep(r, w1, c.done, c.walk.armed);
    var c' := CheckMove(r, c);
    assert s.winner.None? && c'.walk.armed == s.rest && c'.missed == c.missed + s.missed && c'.decider == c.decider;
    SettleKeeps(r, c.walk, c.done, |c.walk.futures|);
    SweepDisposes(r, w1, c.done, c.walk.armed);
    forall j | 0 <= j < c.walk.index && j < |r.rules| && r.rules[j].Races() ensures Accounted(c'.walk.armed, c'.missed, j) {
      assert Accounted(c.walk.armed, c.missed, j);
      AccountedCarries(c.walk.armed, c.missed, s.rest, s.missed, j);
    }
  }

  lemma CheckMoveGated(r: Router, o: QueryOptions, c: Config)
    requires Validated(r.rules) && Safe(r, o, c) && Gated(r, c) && c.control.Checking?
    requires ArmedInRange(r, c.walk.armed)
    ensures Gated(r, CheckMove(r, c))
  {
    var c' := CheckMove(r, c);
    CheckMoveLosers(r, o, c);
    CheckMoveChecks(r, o, c);
    if !c'.decider.ByRace? { CheckMoveAccounted(r, o, c); }
    ArmedBelowIndex(r, o, c);
    CheckMoveDecides(r, c);
    GatedFromCheck(r, c, c');
  }

  lemma CheckMoveDecides(r: Router, c: Config)
    requires c.control.Checking? && ArmedInRange(r, c.walk.armed) && Gated(r, c)
    ensures var c' := CheckMove(r, c);
            && (c'.decider.ByRace? || (c'.decider == c.decider && (c'.control.Finishing? || c'.control.Finished? ==> c.control.suspension.Pend?)))
            && (c'.control.Walking? || c'.control.Blocked? ==> c'.decider == c.decider)
  {
  }

  lemma GatedFromCheck(r: Router, c: Config, c': Config)
    requires Gated(r, c) && Checked(c, c')
    requires forall a | a in c'.missed :: Lost(r, c'.walk, c.done, a) && (a in c.missed || a in c.walk.armed)
    requires forall a | a in c.walk.armed :: a.index < c.walk.index
    requires c'.decider.ByRace? || (c'.decider == c.decider && (c'.control.Finishing? || c'.control.Finished? ==> c.control.suspension.Pend?))
    requires c'.control.Walking? || c'.control.Blocked? ==> c'.decider == c.decider
    requires !c'.decider.ByRace? ==>
               forall j | 0 <= j < c.walk.index && j < |r.rules| && r.rules[j].Races() :: Accounted(c'.walk.armed, c'.missed, j)
    ensures Gated(r, c')
  {
  }

  lemma ArmedBelowIndex(r: Router, o: QueryOptions, c: Config)
    requires Validated(r.rules) && Safe(r, o, c) && c.control.Checking?
    ensures forall a | a in c.walk.armed :: a.index < c.walk.index
  {
    forall a | a in c.walk.armed ensures a.index < c.walk.index { assert ArmedOk(r, c.walk, c.done, a); }
  }

  lemma EnvironmentGated(r: Router, c: Config, c': Config)
    requires Gated(r, c) && ((exists f :: Arrives(c, c', f)) || (exists f :: Signals(c, c', f)) || Cancels(c, c'))
    ensures Gated(r, c')
  {
  }

  lemma NextGated(r: Router, o: QueryOptions, c: Config, c': Config)
    requires Validated(r.rules) && Safe(r, o, c) && Gated(r, c) && NextStep(r, c, c')
    ensures Gated(r, c')
  {
    if CanMove(r, c) && c' == Move(r, c) {
      MoveGated(r, o, c);
    } else {
      EnvironmentGated(r, c, c');
    }
  }

  lemma MoveGated(r: Router, o: QueryOptions, c: Config)
    requires Validated(r.rules) && Safe(r, o, c) && Gated(r, c) && CanMove(r, c)
    ensures Gated(r, Move(r, c))
  {
    match c.control
    case Walking => WalkMoveGated(r, o, c);
    case Checking(_) => CheckMoveGated(r, o, c);
    case Blocked(_) =>
    case Finishing(_) =>
  }

  // ----- the theorems -----

  ghost predicate Invariant(r: Router, o: QueryOptions, c: Config) {
    Safe(r, o, c) && Wakeable(c) && Counted(c) && Gated(r, c)
  }

  /** The invariant, and that the run so far has used up rank. */
  ghost predicate Underway(r: Router, o: QueryOptions, c: Config, steps: int) {
    Invariant(r, o, c) && steps + Rank(r, c) <= Rank(r, Initial(o))
  }

  lemma NextUnderway(r: Router, o: QueryOptions, c: Config, c': Config, steps: int)
    requires Validated(r.rules) && Underway(r, o, c, steps) && NextStep(r, c, c')
    ensures Underway(r, o, c', steps + 1)
  {
    NextInvariant(r, o, c, c');
  }

  lemma PrefixIsRun(r: Router, o: QueryOptions, run: seq<Config>)
    requires IsRun(r, o, run) && |run| > 1
    ensures IsRun(r, o, run[..|run| - 1]) && NextStep(r, run[|run| - 2], run[|run| - 1])
  {
  }

  lemma {:induction false} RunUnderway(r: Router, o: QueryOptions, run: seq<Config>)
    requires Validated(r.rules) && IsRun(r, o, run)
    ensures Underway(r, o, run[|run| - 1], |run| - 1)
  {
    if |run| == 1 {
      InitialInvariant(r, o);
    } else {
      PrefixIsRun(r, o, run);
      RunUnderway(r, o, run[..|run| - 1]);
      NextUnderway(r, o, run[|run| - 2], run[|run| - 1], |run| - 2);
    }
  }

  lemma RunInvariant(r: Router, o: QueryOptions, run: seq<Config>)
    requires Validated(r.rules) && IsRun(r, o, run)
    ensures Invariant(r, o, run[|run| - 1])
    ensures |run| - 1 + Rank(r, run[|run| - 1]) <= Rank(r, Initial(o))
  {
    RunUnderway(r, o, run);
  }

  lemma InitialInvariant(r: Router, o: QueryOptions)
    requires Validated(r.rules)
    ensures Invariant(r, o, Initial(o))
  {
    InitialSafe(r, o);
  }

  lemma NextInvariant(r: Router, o: QueryOptions, c: Config, c': Config)
    requires Validated(r.rules) && Invariant(r, o, c) && NextStep(r, c, c')
    ensures Invariant(r, o, c') && Rank(r, c') < Rank(r, c)
  {
    NextSafe(r, o, c, c');
    NextWakeable(r, o, c, c');
    NextCounted(r, o, c, c');
    NextGated(r, o, c, c');
    NextRank(r, o, c, c');
  }

  /** Whatever order the answers arrive in, an exchange that is not cancelled ends with an outcome
      the rule list allows. */
  lemma ExchangeIsAllowed(r: Router, o: QueryOptions, run: seq<Config>)
    requires Validated(r.rules) && IsRun(r, o, run) && run[|run| - 1].control.Finished?
    ensures run[|run| - 1].control.outcome in AllowedOutcomes(r, o)
  {
    RunInvariant(r, o, run);
  }

  /** If the race rules that are met miss on the answers of this query, the suspendable walk is the
      blocking interpreter. */
  lemma LostRacesLeaveBlocking(r: Router, o: QueryOptions, run: seq<Config>)
    requires Validated(r.rules) && IsRun(r, o, run) && run[|run| - 1].control.Finished?
    requires RacesMiss(r, 0, Scope(o, None, map[]))
    ensures run[|run| - 1].control.outcome == Blocking(r, 0, Scope(o, None, map[]))
  {
    RunInvariant(r, o, run);
    LosingRacesMeanBlocking(r, 0, Scope(o, None, map[]));
  }

  /** Without race rules the suspendable walk is the blocking interpreter. */
  lemma ExchangeIsBlocking(r: Router, o: QueryOptions, run: seq<Config>)
    requires Validated(r.rules) && IsRun(r, o, run) && run[|run| - 1].control.Finished?
    requires forall i | 0 <= i < |r.rules| :: !r.rules[i].Races()
    ensures run[|run| - 1].control.outcome == Blocking(r, 0, Scope(o, None, map[]))
  {
    NoRaceMisses(r, 0, Scope(o, None, map[]));
    LostRacesLeaveBlocking(r, o, run);
  }

  /** As long as the race rules miss, `speculative` flags change no outcome: two lists that differ only
      in them answer alike, in any two runs. */
  lemma SpeculationHasNoEffect(r: Router, r': Router, o: QueryOptions, run: seq<Config>, run': seq<Config>)
    requires Validated(r.rules) && Validated(r'.rules) && SameButSpeculation(r, r')
    requires IsRun(r, o, run) && run[|run| - 1].control.Finished?
    requires IsRun(r', o, run') && run'[|run'| - 1].control.Finished?
    requires RacesMiss(r, 0, Scope(o, None, map[]))
    ensures run[|run| - 1].control.outcome == run'[|run'| - 1].control.outcome
  {
    BlockingIgnoresSpeculation(r, r', 0, Scope(o, None, map[]));
    LostRacesLeaveBlocking(r, o, run);
    LostRacesLeaveBlocking(r', o, run');
  }

  /** A rule without `race`, or the default server, decides only after every race rule listed
      before it was judged on all the answers it bound, and missed. */
  lemma CommitGate(r: Router, o: QueryOptions, run: seq<Config>, i: nat)
    requires Validated(r.rules) && IsRun(r, o, run)
    requires var c := run[|run| - 1];
             c.decider == ByRule(i) || (c.decider == ByDefault && i == |r.rules|)
    ensures var c := run[|run| - 1];
            forall j | 0 <= j < i && j < |r.rules| && r.rules[j].Races() ::
              exists a :: a in c.missed && a.index == j && Lost(r, c.walk, c.done, a)
  {
    RunInvariant(r, o, run);
    var c := run[|run| - 1];
    forall j | 0 <= j < i && j < |r.rules| && r.rules[j].Races()
      ensures exists a :: a in c.missed && a.index == j && Lost(r, c.walk, c.done, a)
    {
      assert Accounted(c.walk.armed, c.missed, j);
    }
  }

  /** Whoever ends an exchange is on record. */
  lemma EveryEndHasADecider(r: Router, o: QueryOptions, run: seq<Config>)
    requires Validated(r.rules) && IsRun(r, o, run) && run[|run| - 1].control.Finished?
    ensures run[|run| - 1].decider != Nobody
  {
    RunInvariant(r, o, run);
  }

  /** A judged race rule had every answer it bound. */
  lemma LostRulesSawEverything(r: Router, w: Walk, done: set<nat>, a: Armed)
    requires Lost(r, w, done, a)
    ensures forall t | t in r.rules[a.index].tags && t in w.namedFutures :: w.namedFutures[t] in done
    ensures a.anonymous.Some? ==> a.anonymous.value in done
  {
    assert ArmedOk(r, w, done, a);
  }

  /** No deadlock and no lost wakeup: an exchange that has not ended can move, or the callback of
      one of its queries has not finished; in particular the loop is never blocked without a wake
      channel, nor once every callback has finished. */
  lemma AlwaysProgress(r: Router, o: QueryOptions, run: seq<Config>)
    requires Validated(r.rules) && IsRun(r, o, run) && !run[|run| - 1].control.Final()
    ensures var c := run[|run| - 1];
            && (c.control.Blocked? ==> c.walk.futures != [])
            && ((forall f | 0 <= f < |c.walk.futures| :: f in c.signalled) ==>
                  CanMove(r, c) && NextStep(r, c, Move(r, c)))
  {
    RunInvariant(r, o, run);
    var c := run[|run| - 1];
    if c.control.Walking? || c.control.Checking? || c.control.Blocked? {
      ArmedRulesInRange(r, c.walk, c.done);
    }
    if forall f | 0 <= f < |c.walk.futures| :: f in c.signalled {
      assert !exists f :: CallbackRunning(c, f);
      assert Enabled(c);
    }
  }

  /** Runs are short: each await uses up a query of its own and each rule index drains at most once,
      so re-entries, wake-ups and the whole run are linear in the number of rules. */
  lemma RunsAreBounded(r: Router, o: QueryOptions, run: seq<Config>)
    requires Validated(r.rules) && IsRun(r, o, run)
    ensures |run| <= 15 * |r.rules| + 8
    ensures var c := run[|run| - 1];
            && c.wakes <= |r.rules|
            && (c.control.Walking? || Suspended(c) ==> c.reentries <= 2 * |r.rules| + 1)
  {
    RunInvariant(r, o, run);
    RankBounds(r, o, run[|run| - 1]);
    CountsFit(r, o, run[|run| - 1]);
  }

  /** A returned exchange is final: no armed rule is left that could override it, and the only
      moves left lead to its own answer. */
  lemma PendingIsFinal(r: Router, o: QueryOptions, run: seq<Config>)
    requires Validated(r.rules) && IsRun(r, o, run)
    requires var c := run[|run| - 1]; c.control.Checking? && c.control.suspension.Pend?
    ensures var c := run[|run| - 1];
            var p := c.control.suspension.pending;
            && c.walk.armed == [] && CanMove(r, c)
            && Move(r, c).control == Finishing(p)
            && PendingOutcome(r, Move(r, c).walk, p) == PendingOutcome(r, c.walk, p)
  {
    RunInvariant(r, o, run);
    var c := run[|run| - 1];
    var w1 := Settle(r, c.walk, c.done);
    SettleKeeps(r, c.walk, c.done, |c.walk.futures|);
    HeldIgnoresSettling(r, c.walk, w1);
    var p := c.control.suspension.pending;
    assert Move(r, c).walk == w1;
    assert p.future.Some? ==> HeldOption(r, w1, p.future) == HeldOption(r, c.walk, p.future);
  }

  /** At most one speculative terminal query is ever launched. */
  lemma SpeculationIsUnique(r: Router, o: QueryOptions, run: seq<Config>, j: nat, k: nat)
    requires Validated(r.rules) && IsRun(r, o, run)
    requires var futures := run[|run| - 1].walk.futures; j < |futures| && k < |futures| && futures[j].terminal && futures[k].terminal
    ensures j == k
  {
    RunInvariant(r, o, run);
    var c := run[|run| - 1];
    assert FutureOk(r, c.walk, c.done, j) && FutureOk(r, c.walk, c.done, k);
  }

  /** Until somebody decides, it is exactly the query the rule at which the walk stands would make. */
  lemma SpeculationIsThePlainQuery(r: Router, o: QueryOptions, run: seq<Config>, k: nat)
    requires Validated(r.rules) && IsRun(r, o, run)
    requires var c := run[|run| - 1]; k < |c.walk.futures| && c.walk.futures[k].terminal && (c.control.Walking? || Suspended(c))
    ensures var c := run[|run| - 1];
            var f := c.walk.futures[k];
            && f.index == c.walk.index < |r.rules|
            && r.rules[f.index].action.Route? && f.server == r.rules[f.index].action.server
            && ResolveRoute(r, f.server, c.walk.options, r.rules[f.index].action.options) == Some(f.options)
  {
    RunInvariant(r, o, run);
    var c := run[|run| - 1];
    assert FutureOk(r, c.walk, c.done, k) && TerminalOk(r, c.walk, c.done);
  }

  /** Once every armed rule has missed, the speculative query is consumed at its own rule, and its
      answer is the outcome the plain route would have had. */
  lemma SpeculationIsConsumed(r: Router, o: QueryOptions, run: seq<Config>)
    requires Validated(r.rules) && IsRun(r, o, run)
    requires var c := run[|run| - 1]; c.control.Walking? && c.walk.terminal.Some? && c.walk.armed == []
    ensures var c := run[|run| - 1];
            && CanMove(r, c) && c.walk.index < |r.rules|
            && Move(r, c).control.Checking? && Move(r, c).control.suspension.Pend?
            && Move(r, c).decider == ByRule(c.walk.index)
            && var p := Move(r, c).control.suspension.pending;
               && p.future == c.walk.terminal
               && Judge(r, c.walk.index, ScopeOf(r, c.walk)) == Commit(PendingOutcome(r, Move(r, c).walk, p))
  {
    RunInvariant(r, o, run);
    var c := run[|run| - 1];
    ConsumeStep(r, c.walk, c.done);
  }

  lemma ConsumeStep(r: Router, w: Walk, done: set<nat>)
    requires Validated(r.rules) && WalkOk(r, w, done) && w.terminal.Some? && w.armed == []
    ensures var st := RuleStep(r, w, done);
            && st.decider == ByRule(w.index)
            && st.effect == Suspend(Pend(Pending(w.index, ServerOf(w, w.terminal.value), w.options, w.terminal)))
            && Judge(r, w.index, ScopeOf(r, w)) == Commit(PendingOutcome(r, st.walk, st.effect.suspension.pending))
  {
    var rule := r.rules[w.index];
    if !rule.HasBindings() {
      ConsumeMatch(r, w, done);
    } else {
      var w1 := Settle(r, w, done);
      SettleKeepsOk(r, w, done);
      NothingPending(r, w1, done, rule);
      ConsumeMatch(r, w1, done);
      assert RuleStep(r, w, done) == MatchStep(r, w1, done);
      assert ServerOf(w1, w.terminal.value) == ServerOf(w, w.terminal.value);
    }
  }

  lemma NothingPending(r: Router, w: Walk, done: set<nat>, rule: Rule)
    requires BindingsDone(r, w, done, rule)
    ensures PendingBindings(w, rule, done) == []
  {
    NoPendingTags(w, rule.tags, done);
  }

  lemma {:induction false} NoPendingTags(w: Walk, tags: seq<string>, done: set<nat>)
    requires forall t | t in tags && t in w.namedFutures :: w.namedFutures[t] in done
    ensures PendingTags(w, tags, done) == []
  {
    if tags != [] { NoPendingTags(w, tags[1..], done); }
  }

  lemma ConsumeMatch(r: Router, w: Walk, done: set<nat>)
    requires WalkOk(r, w, done) && w.terminal.Some? && w.armed == []
    requires r.rules[w.index].tags != [] ==> AllSettled(w, done)
    ensures MatchStep(r, w, done) == Decide(w, Suspend(Pend(Pending(w.index, ServerOf(w, w.terminal.value), w.options, w.terminal))))
    ensures Judge(r, w.index, ScopeOf(r, w)) ==
            Commit(ExchangeOutcome(HeldAt(r, w, w.terminal.value).server, HeldAt(r, w, w.terminal.value).reply))
  {
    ObserveIsSeenBy(r, w, done, r.rules[w.index], ScopeOf(r, w), ViewOfOption(r, w, done, w.anonymous));
  }

  /** A published response is the answer, already arrived, of the only query with that tag. */
  lemma PublishedIsTheOnlyAnswer(r: Router, o: QueryOptions, run: seq<Config>, t: string)
    requires Validated(r.rules) && IsRun(r, o, run)
    requires var c := run[|run| - 1]; (c.control.Walking? || Suspended(c)) && t in c.walk.named
    ensures var c := run[|run| - 1];
            exists k: nat ::
              && k < |c.walk.futures| && k in c.done
              && c.walk.futures[k].tag == t
              && (forall j | 0 <= j < |c.walk.futures| && c.walk.futures[j].tag == t :: j == k)
              && c.walk.named[t] == Published(Reading(ReplyOf(r, c.walk.futures[k])), c.walk.futures[k].server)
  {
    RunInvariant(r, o, run);
    var c := run[|run| - 1];
    assert PublicationOk(r, c.walk, t);
    var k := c.walk.namedFutures[t];
    assert FutureOk(r, c.walk, c.done, k);
    forall j | 0 <= j < |c.walk.futures| && c.walk.futures[j].tag == t ensures j == k { }
    assert k < |c.walk.futures| && k in c.done && c.walk.futures[k].tag == t;
  }

  /** Before its answer arrives a query shows nothing, and settling publishes nothing of it. */
  lemma UnansweredIsUnseen(r: Router, w: Walk, done: set<nat>, k: nat)
    requires k !in done && k < |w.futures|
    ensures ViewOf(r, w, done, k).None? && SettleOne(r, w, done, k) == w
  {
  }

  /** `respond` never reads a query that has not been answered. */
  lemma RespondReadsArrivedAnswers(r: Router, o: QueryOptions, run: seq<Config>)
    requires Validated(r.rules) && IsRun(r, o, run)
    requires var c := run[|run| - 1];
             && c.control.Walking? && c.walk.index < |r.rules| && r.rules[c.walk.index].action.Respond?
             && CanMove(r, c) && Move(r, c).decider == ByRule(c.walk.index)
    ensures var c := run[|run| - 1];
            var rule := r.rules[c.walk.index];
            if rule.respondTag != "" then rule.respondTag in c.walk.namedFutures ==> c.walk.namedFutures[rule.respondTag] in c.done
            else c.walk.anonymous.Some? ==> c.walk.anonymous.value in c.done
  {
    RunInvariant(r, o, run);
    RespondWaits(r, run[|run| - 1].walk, run[|run| - 1].done);
  }

  lemma RespondWaits(r: Router, w: Walk, done: set<nat>)
    requires Validated(r.rules) && WalkOk(r, w, done) && ArmedInRange(r, w.armed)
    requires w.index < |r.rules| && r.rules[w.index].action.Respond? && RuleStep(r, w, done).decider == ByRule(w.index)
    ensures var rule := r.rules[w.index];
            if rule.respondTag != "" then rule.respondTag in w.namedFutures ==> w.namedFutures[rule.respondTag] in done
            else w.anonymous.Some? ==> w.anonymous.value in done
  {
    var rule := r.rules[w.index];
    assert WellShaped(rule);
    if rule.HasBindings() {
      var w1 := Settle(r, w, done);
      SettleKeepsOk(r, w, done);
      PendingFirst(w1, rule, done);
      if rule.race { ArmStepDecider(r, w1, done); }
    }
  }

  lemma ArmStepDecider(r: Router, w: Walk, done: set<nat>)
    requires w.index < |r.rules| && ArmedInRange(r, w.armed)
    ensures !ArmStep(r, w, done).decider.ByRule?
  {
  }

  /** Settling and sweeping must be one step.  An answer that arrives after the settling and before
      the sweep is not published, so a race rule that responds with it reports a missing response;
      settled first, the same rule responds with the answer. */
  lemma SweepMissesUnsettledAnswers(r: Router, w: Walk, done: set<nat>, a: Armed, k: nat)
    requires Validated(r.rules) && WalkOk(r, w, done) && a in w.armed && Ready(a, done)
    requires k < |w.futures| && !w.futures[k].settled && ReplyOf(r, w.futures[k]).Reply?
    requires a.index < |r.rules| && r.rules[a.index].action.Respond? && r.rules[a.index].tags == [w.futures[k].tag]
    requires r.rules[a.index].respondTag == w.futures[k].tag
    requires forall v :: r.matches(a.index, v)
    ensures JudgeArmed(r, w, done, a) == Some(Return(RespondOutcome(None, None)))
    ensures JudgeArmed(r, Settle(r, w, done), done, a) ==
            Some(Return(RespondOutcome(Some(ReplyOf(r, w.futures[k]).message), Some(w.futures[k].server))))
  {
    assert ArmedOk(r, w, done, a);
    SettlingPublishes(r, w, done, k);
  }

  lemma SettlingPublishes(r: Router, w: Walk, done: set<nat>, k: nat)
    requires WalkOk(r, w, done) && k < |w.futures| && !w.futures[k].settled && w.futures[k].tag != ""
    ensures var t := w.futures[k].tag;
            && t !in w.named && t in w.namedFutures && w.namedFutures[t] == k
            && (k in done ==>
                  var w1 := Settle(r, w, done);
                  && PublishedReading(w1, t) == Reading(ReplyOf(r, w.futures[k]))
                  && PublishedServer(w1, t) == Some(w.futures[k].server))
  {
    var t := w.futures[k].tag;
    assert t in w.named ==> PublicationOk(r, w, t);
    if k in done {
      var w1 := Settle(r, w, done);
      SettleKeepsOk(r, w, done);
      assert w1.futures[k] == w.futures[k].(settled := true);
      assert PublicationOk(r, w1, t);
      assert ReplyOf(r, w1.futures[k]) == ReplyOf(r, w.futures[k]);
    }
  }
}
