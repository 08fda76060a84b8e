/** Two calls back of one exchange that release its lock at the same time. */
module OverlappingRelease {

  /** The steps of `release`: look whether the release function is set, delete, close, clear it. */
  datatype Stage = Guard | Delete | Close | Clear | Over

  /** Two calls back of one exchange, each at its stage of `release`. */
  datatype Pair = Pair(first: Stage, second: Stage, armed: bool, closes: nat) {
    function At(two: bool): Stage { if two then second else first }
    function With(two: bool, s: Stage): Pair { if two then this.(second := s) else this.(first := s) }
  }

  const BOTH_CALLED_BACK := Pair(Guard, Guard, true, 0)

  function ReleaseStep(p: Pair, two: bool): Pair {
    match p.At(two)
    case Guard => p.With(two, if p.armed then Delete else Over)
    case Delete => p.With(two, Close)
    case Close => p.With(two, Clear).(closes := p.closes + 1)
    case Clear => p.With(two, Over).(armed := false)
    case Over => p
  }

  /** A schedule says which of the two moves at each step. */
  function Released(schedule: seq<bool>): Pair {
    if schedule == [] then BOTH_CALLED_BACK
    else ReleaseStep(Released(schedule[..|schedule| - 1]), schedule[|schedule| - 1])
  }

  // ----- what a schedule says -----

  function Steps(schedule: seq<bool>, two: bool): nat {
    if schedule == [] then 0
    else Steps(schedule[..|schedule| - 1], two) + if schedule[|schedule| - 1] == two then 1 else 0
  }

  predicate BeginsAt(schedule: seq<bool>, i: nat)
    requires i < |schedule|
  {
    Steps(schedule[..i], schedule[i]) == 0
  }

  /** One call makes its first step when the other has made between one and three of its four. */
  predicate Overlaps(schedule: seq<bool>) {
    exists i | 0 <= i < |schedule| :: BeginsAt(schedule, i) && 1 <= Steps(schedule[..i], !schedule[i]) <= 3
  }

  lemma OverlapsMore(rest: seq<bool>, two: bool)
    ensures Overlaps(rest + [two]) <==> Overlaps(rest) || (Steps(rest, two) == 0 && 1 <= Steps(rest, !two) <= 3)
  {
    var schedule, n := rest + [two], |rest|;
    forall i | 0 <= i < n ensures schedule[..i] == rest[..i] && schedule[i] == rest[i] { }
    assert schedule[..n] == rest;
    if i :| 0 <= i < n && BeginsAt(rest, i) && 1 <= Steps(rest[..i], !rest[i]) <= 3 {
      assert BeginsAt(schedule, i) && 1 <= Steps(schedule[..i], !schedule[i]) <= 3;
    }
    if Steps(rest, two) == 0 && 1 <= Steps(rest, !two) <= 3 { assert BeginsAt(schedule, n); }
    forall i | 0 <= i < n && BeginsAt(schedule, i) && 1 <= Steps(schedule[..i], !schedule[i]) <= 3 ensures Overlaps(rest) {
      assert BeginsAt(rest, i);
    }
  }

  /** A schedule in figures: the steps of each call, and whether it began when the other had made all four. */
  datatype Tally = Tally(first: nat, second: nat, firstLate: bool, secondLate: bool, overlaps: bool) {
    function Steps(two: bool): nat { if two then second else first }
    predicate Late(two: bool) { if two then secondLate else firstLate }
  }

  function Count(t: Tally, two: bool): Tally {
    var begins := t.Steps(two) == 0;
    Tally(if two then t.first else t.first + 1,
          if two then t.second + 1 else t.second,
          t.firstLate || (!two && begins && t.second >= 4),
          t.secondLate || (two && begins && t.first >= 4),
          t.overlaps || (begins && 1 <= t.Steps(!two) <= 3))
  }

  function TallyOf(schedule: seq<bool>): Tally {
    if schedule == [] then Tally(0, 0, false, false, false)
    else Count(TallyOf(schedule[..|schedule| - 1]), schedule[|schedule| - 1])
  }

  lemma {:induction false} TallyMeans(schedule: seq<bool>)
    ensures var t := TallyOf(schedule);
            t.first == Steps(schedule, false) && t.second == Steps(schedule, true) && (t.overlaps <==> Overlaps(schedule))
  {
    if schedule != [] {
      var rest, two := schedule[..|schedule| - 1], schedule[|schedule| - 1];
      assert schedule == rest + [two];
      TallyMeans(rest);
      OverlapsMore(rest, two);
    }
  }

  // ----- what becomes of the two -----

  function StageAfter(steps: nat): Stage {
    if steps == 0 then Guard else if steps == 1 then Delete else if steps == 2 then Close
    else if steps == 3 then Clear else Over
  }

  /** Steps decide the stage, except that a late call is over at once. */
  function StageOf(t: Tally, two: bool): Stage { if t.Late(two) then Over else StageAfter(t.Steps(two)) }

  function ClosesOf(t: Tally, two: bool): nat { if !t.Late(two) && t.Steps(two) >= 3 then 1 else 0 }

  ghost predicate Follows(p: Pair, t: Tally) {
    && p.first == StageOf(t, false) && p.second == StageOf(t, true)
    && (p.armed <==> (t.firstLate || t.first < 4) && (t.secondLate || t.second < 4))
    && p.closes == ClosesOf(t, false) + ClosesOf(t, true)
  }

  /** When both have begun, they overlap or one of them is late, and not both. */
  ghost predicate OneOrTheOther(t: Tally) {
    && (t.firstLate ==> t.first >= 1 && t.second >= 4 && !t.secondLate && !t.overlaps)
    && (t.secondLate ==> t.second >= 1 && t.first >= 4 && !t.overlaps)
    && (t.overlaps ==> t.first >= 1 && t.second >= 1)
    && (t.first >= 1 && t.second >= 1 ==> t.overlaps || t.firstLate || t.secondLate)
  }

  lemma CountSeparates(t: Tally, two: bool)
    requires OneOrTheOther(t)
    ensures OneOrTheOther(Count(t, two))
  {
  }

  /** What a step does to the one that makes it, to the other, to the flag and to the closes. */
  lemma StepEffect(p: Pair, t: Tally, two: bool)
    requires Follows(p, t) && OneOrTheOther(t)
    ensures var p', t' := ReleaseStep(p, two), Count(t, two);
            && p'.At(!two) == p.At(!two) && t'.Steps(!two) == t.Steps(!two) && t'.Late(!two) == t.Late(!two)
            && t'.Steps(two) == t.Steps(two) + 1
            && t'.Late(two) == (t.Late(two) || (t.Steps(two) == 0 && t.Steps(!two) >= 4))
            && (p'.armed <==> p.armed && !p.At(two).Clear?)
            && p'.closes == p.closes + (if p.At(two).Close? then 1 else 0)
  {
  }

  lemma StepStage(p: Pair, t: Tally, two: bool)
    requires Follows(p, t) && OneOrTheOther(t)
    ensures ReleaseStep(p, two).At(two) == StageOf(Count(t, two), two)
  {
    if t.Steps(two) == 0 {
      assert !t.Late(two) && p.armed == (t.Late(!two) || t.Steps(!two) < 4) && !t.Late(!two);
    }
  }
  lemma StepFollows(p: Pair, t: Tally, two: bool)
    requires Follows(p, t) && OneOrTheOther(t)
    ensures Follows(ReleaseStep(p, two), Count(t, two)) && OneOrTheOther(Count(t, two))
  {
    CountSeparates(t, two);
    StepEffect(p, t, two);
    StepStage(p, t, two);
  }

  lemma {:induction false} ReleasedFollows(schedule: seq<bool>)
    ensures Follows(Released(schedule), TallyOf(schedule)) && OneOrTheOther(TallyOf(schedule))
  {
    if schedule != [] {
      var rest := schedule[..|schedule| - 1];
      ReleasedFollows(rest);
      StepFollows(Released(rest), TallyOf(rest), schedule[|schedule| - 1]);
    }
  }

  /** However two calls back of one exchange interleave, once both are over the channel was closed twice if one
      began while the other was inside, and exactly once if not. */
  lemma ClosedOnceIffNotOverlapping(schedule: seq<bool>)
    requires var p := Released(schedule); p.first.Over? && p.second.Over?
    ensures var p := Released(schedule); p.closes == if Overlaps(schedule) then 2 else 1
  {
    ReleasedFollows(schedule);
    TallyMeans(schedule);
  }

  /** Such an interleaving: both look before either clears. */
  lemma OverlapClosesTwice()
    ensures var p := Released([false, true, false, false, false, true, true, true]);
            p.first.Over? && p.second.Over? && p.closes == 2
  {
    var s := [false, true, false, false, false, true, true, true];
    assert s[..1] == [false] && s[..2] == [false, true] && s[..2][..1] == s[..1];
    assert Released(s[..1]) == Pair(Delete, Guard, true, 0);
    assert Released(s[..2]) == Pair(Delete, Delete, true, 0);
    assert s[..3][..2] == s[..2] && s[..4][..3] == s[..3] && s[..5][..4] == s[..4];
    assert Released(s[..3]) == Pair(Close, Delete, true, 0);
    assert Released(s[..4]) == Pair(Clear, Delete, true, 1);
    assert Released(s[..5]) == Pair(Over, Delete, false, 1);
    assert s[..6][..5] == s[..5] && s[..7][..6] == s[..6] && s[..8] == s && s[..8][..7] == s[..7];
    assert Released(s[..6]) == Pair(Over, Close, false, 1);
    assert Released(s[..7]) == Pair(Over, Clear, false, 2);
  }
}
