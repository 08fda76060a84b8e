/** The close reason of a connection: a register that concurrent callers raise by compare-and-swap.
    Every swap installs a new state object, so a swap succeeds exactly if none succeeded since the load. */
module CloseReason {

  type Reason = string

  const FAILURES: set<Reason> :=
    {"dial_timeout", "dial_error", "handshake_error", "handshake_timeout", "idle_timeout", "remote_rst"}

  const ENDINGS: set<Reason> := {"client_eof", "remote_eof"}

  function Priority(r: Reason): nat { if r in FAILURES then 3 else if r in ENDINGS then 1 else 0 }

  /** `Loaded(version)` has read the register after `version` swaps and is about to swap. */
  datatype Pc = Loading | Loaded(version: nat) | Finished

  /** `failures` counts swaps that failed, `steps` all loads and swaps of the call. */
  datatype Call = Call(reason: Reason, pc: Pc, failures: nat, steps: nat)

  /** `installed` lists every reason a swap put into the register; the last is its value. */
  datatype Register = Register(installed: seq<Reason>, calls: map<nat, Call>) {
    function Read(): Reason { if installed == [] then "" else installed[|installed| - 1] }

    predicate Beats(r: Reason) { installed == [] || Priority(r) > Priority(Read()) }
  }

  const UNSET := Register([], map[])

  function Begin(r: Register, id: nat, reason: Reason): Register {
    r.(calls := r.calls[id := Call(reason, if reason == "" then Finished else Loading, 0, 0)])
  }

  predicate Enabled(r: Register, id: nat) { id in r.calls && !r.calls[id].pc.Finished? }

  function Advance(r: Register, id: nat): Register
    requires Enabled(r, id)
  {
    var c := r.calls[id].(steps := r.calls[id].steps + 1);
    match c.pc
    case Loading =>
      r.(calls := r.calls[id := c.(pc := if r.Beats(c.reason) then Loaded(|r.installed|) else Finished)])
    case Loaded(version) =>
      if |r.installed| == version then Register(r.installed + [c.reason], r.calls[id := c.(pc := Finished)])
      else r.(calls := r.calls[id := c.(pc := Loading, failures := c.failures + 1)])
  }

  ghost predicate RegisterNext(r: Register, r': Register) {
    || (exists id, reason :: id !in r.calls && r' == Begin(r, id, reason))
    || (exists id :: Enabled(r, id) && r' == Advance(r, id))
  }

  ghost predicate IsRegisterRun(run: seq<Register>) {
    && run != [] && run[0] == UNSET
    && forall i | 0 <= i < |run| - 1 :: RegisterNext(run[i], run[i + 1])
  }

  // ----- invariant -----

  predicate Rising(installed: seq<Reason>) {
    forall i, j | 0 <= i < j < |installed| :: Priority(installed[i]) < Priority(installed[j])
  }

  ghost predicate CallOk(r: Register, id: nat)
    requires id in r.calls
  {
    var c := r.calls[id];
    match c.pc
    case Loading => c.reason != "" && c.failures <= |r.installed| && c.steps == 2 * c.failures
    case Loaded(version) =>
      && c.reason != "" && c.failures <= version <= |r.installed| && c.steps == 2 * c.failures + 1
      && (version > 0 ==> Priority(c.reason) > Priority(r.installed[version - 1]))
    case Finished =>
      && (c.reason != "" ==> !r.Beats(c.reason))
      && c.failures <= |r.installed| && c.steps <= 2 * c.failures + 2
  }

  /** A reason in the register was proposed by a call. */
  ghost predicate Proposed(r: Register, reason: Reason) {
    exists id :: id in r.calls && r.calls[id].reason == reason
  }

  ghost predicate RegisterOk(r: Register) {
    && Rising(r.installed)
    && (forall id | id in r.calls :: CallOk(r, id))
    && (forall i | 0 <= i < |r.installed| :: r.installed[i] != "" && Proposed(r, r.installed[i]))
  }

  lemma BeginOk(r: Register, id: nat, reason: Reason)
    requires RegisterOk(r) && id !in r.calls
    ensures RegisterOk(Begin(r, id, reason))
  {
    var r' := Begin(r, id, reason);
    forall i | i in r'.calls ensures CallOk(r', i) {
      if i != id { assert CallOk(r, i); }
    }
    forall i | 0 <= i < |r'.installed| ensures r'.installed[i] != "" && Proposed(r', r'.installed[i]) {
      var proposer :| proposer in r.calls && r.calls[proposer].reason == r.installed[i];
      assert proposer in r'.calls && r'.calls[proposer].reason == r.installed[i];
    }
  }

  /** What the register must do for a call to stay in order: keep its history, and only rise. */
  lemma CallStaysOk(r: Register, r': Register, id: nat)
    requires id in r.calls && CallOk(r, id) && id in r'.calls && r'.calls[id] == r.calls[id]
    requires r.installed <= r'.installed
    requires r.installed != [] ==> r'.installed != [] && Priority(r.Read()) <= Priority(r'.Read())
    ensures CallOk(r', id)
  {
    assert forall i | 0 <= i < |r.installed| :: r'.installed[i] == r.installed[i];
  }

  lemma AdvanceRises(r: Register, id: nat)
    requires Enabled(r, id) && CallOk(r, id)
    ensures var r' := Advance(r, id);
            && r.installed <= r'.installed
            && (r.installed != [] ==> r'.installed != [] && Priority(r.Read()) <= Priority(r'.Read()))
  {
  }

  lemma AdvanceKeepsOther(r: Register, id: nat, other: nat)
    requires RegisterOk(r) && Enabled(r, id) && other in r.calls && other != id
    ensures CallOk(Advance(r, id), other)
  {
    assert CallOk(r, id) && CallOk(r, other);
    AdvanceRises(r, id);
    CallStaysOk(r, Advance(r, id), other);
  }

  lemma RisesOn(installed: seq<Reason>, reason: Reason)
    requires Rising(installed) && (installed != [] ==> Priority(installed[|installed| - 1]) < Priority(reason))
    ensures Rising(installed + [reason])
  {
    var more, n := installed + [reason], |installed|;
    forall i, j | 0 <= i < j < |more| ensures Priority(more[i]) < Priority(more[j]) {
      assert i < n - 1 ==> Priority(installed[i]) < Priority(installed[n - 1]);
    }
  }

  lemma AdvanceKeepsOwn(r: Register, id: nat)
    requires RegisterOk(r) && Enabled(r, id)
    ensures CallOk(Advance(r, id), id)
  {
    assert CallOk(r, id);
  }

  lemma AdvanceKeepsRising(r: Register, id: nat)
    requires RegisterOk(r) && Enabled(r, id)
    ensures Rising(Advance(r, id).installed)
  {
    assert CallOk(r, id);
    var c := r.calls[id];
    if c.pc == Loaded(|r.installed|) { RisesOn(r.installed, c.reason); }
  }

  lemma AdvanceOk(r: Register, id: nat)
    requires RegisterOk(r) && Enabled(r, id)
    ensures RegisterOk(Advance(r, id))
  {
    var r' := Advance(r, id);
    assert CallOk(r, id);
    assert r'.calls.Keys == r.calls.Keys;
    AdvanceKeepsOwn(r, id);
    AdvanceKeepsRising(r, id);
    forall i | i in r'.calls ensures CallOk(r', i) {
      if i != id { AdvanceKeepsOther(r, id, i); }
    }
    forall i | 0 <= i < |r'.installed| ensures r'.installed[i] != "" && Proposed(r', r'.installed[i]) {
      var proposer := id;
      if i < |r.installed| {
        assert Proposed(r, r.installed[i]);
        proposer :| proposer in r.calls && r.calls[proposer].reason == r.installed[i];
      }
      assert proposer in r'.calls && r'.calls[proposer].reason == r'.installed[i];
    }
  }

  lemma RegisterNextOk(r: Register, r': Register)
    requires RegisterOk(r) && RegisterNext(r, r')
    ensures RegisterOk(r') && r.installed <= r'.installed
  {
    if id, reason :| id !in r.calls && r' == Begin(r, id, reason) {
      BeginOk(r, id, reason);
    } else {
      var id :| Enabled(r, id) && r' == Advance(r, id);
      AdvanceOk(r, id);
    }
  }

  lemma {:induction false} RegisterRunOk(run: seq<Register>)
    requires IsRegisterRun(run)
    ensures RegisterOk(run[|run| - 1])
  {
    if |run| > 1 {
      RegisterRunOk(run[..|run| - 1]);
      RegisterNextOk(run[|run| - 2], run[|run| - 1]);
    }
  }

  // ----- theorems -----

  /** The priorities in use are 0, 1 and 3: the `i`-th rising one is at least at level `i`. */
  lemma {:induction false} LevelAtLeast(installed: seq<Reason>, i: nat)
    requires Rising(installed) && i < |installed|
    ensures i <= if Priority(installed[i]) == 3 then 2 else Priority(installed[i])
  {
    if i > 0 { LevelAtLeast(installed, i - 1); }
  }

  /** Every load and every swap of a call counts as a step of it, and of nobody else. */
  lemma AdvanceCounts(r: Register, id: nat)
    requires Enabled(r, id)
    ensures var r' := Advance(r, id);
            && r'.calls.Keys == r.calls.Keys && r'.calls[id].steps == r.calls[id].steps + 1
            && r'.calls[id].reason == r.calls[id].reason
            && forall other | other in r.calls && other != id :: r'.calls[other] == r.calls[other]
  {
  }

  lemma RisingIsShort(installed: seq<Reason>)
    requires Rising(installed)
    ensures |installed| <= 3
  {
    if installed != [] { LevelAtLeast(installed, |installed| - 1); }
  }

  /** At most three swaps ever succeed, so a call has at most three failed swaps and takes at most
      eight steps, whatever the others do: while it has not returned it can take one, and that one counts. */
  lemma CallsAreWaitFree(run: seq<Register>, id: nat)
    requires IsRegisterRun(run) && id in run[|run| - 1].calls
    ensures var r := run[|run| - 1];
            && |r.installed| <= 3 && r.calls[id].failures <= 3 && r.calls[id].steps <= 8
            && (!r.calls[id].pc.Finished? ==>
                  Enabled(r, id) && RegisterNext(r, Advance(r, id)) && Advance(r, id).calls[id].steps == r.calls[id].steps + 1 <= 8)
  {
    RegisterRunOk(run);
    var r := run[|run| - 1];
    RisingIsShort(r.installed);
    assert CallOk(r, id);
    if Enabled(r, id) {
      AdvanceCounts(r, id);
      AdvanceOk(r, id);
      RisingIsShort(Advance(r, id).installed);
      assert CallOk(Advance(r, id), id);
    }
  }

  /** Between any two moments of a run the priority of the register does not fall, and it changes only
      by rising. */
  lemma {:induction false} PriorityNeverFalls(run: seq<Register>, i: nat)
    requires IsRegisterRun(run) && i < |run|
    ensures var r, r' := run[i], run[|run| - 1];
            && r.installed <= r'.installed
            && (r.installed != [] ==> r'.installed != [] && Priority(r.Read()) <= Priority(r'.Read()))
            && (r.installed != [] && r.Read() != r'.Read() ==> Priority(r.Read()) < Priority(r'.Read()))
  {
    RegisterRunOk(run);
    if i < |run| - 1 {
      var before := run[..|run| - 1];
      PriorityNeverFalls(before, i);
      RegisterRunOk(before);
      RegisterNextOk(run[|run| - 2], run[|run| - 1]);
    }
  }

  /** Once every call has returned, the register holds a proposed reason of the highest priority any
      call proposed, and the first of that priority to be installed; it is empty only if none was. */
  lemma FirstOfTheHighestWins(run: seq<Register>)
    requires IsRegisterRun(run) && AllFinished(run[|run| - 1])
    ensures var r := run[|run| - 1];
            && (forall id | id in r.calls && r.calls[id].reason != "" ::
                  r.installed != [] && Priority(r.calls[id].reason) <= Priority(r.Read()))
            && (r.installed != [] ==> r.Read() != "" && Proposed(r, r.Read()))
            && (forall i | 0 <= i < |r.installed| && Priority(r.installed[i]) >= Priority(r.Read()) :: i == |r.installed| - 1)
  {
    RegisterRunOk(run);
    var r := run[|run| - 1];
    forall id | id in r.calls && r.calls[id].reason != ""
      ensures r.installed != [] && Priority(r.calls[id].reason) <= Priority(r.Read())
    {
      assert CallOk(r, id);
    }
  }

  predicate AllFinished(r: Register) { forall id | id in r.calls :: r.calls[id].pc.Finished? }

  // ----- failures and clean ends -----

  /** The connection failed. */
  predicate Broken(r: Reason) {
    || r == "dial_timeout" || r == "dial_error" || r == "handshake_error"
    || r == "handshake_timeout" || r == "idle_timeout" || r == "remote_rst"
  }

  /** One side ended it. */
  predicate Clean(r: Reason) { r == "client_eof" || r == "remote_eof" }

  /** Once every call has returned: a failure is the final reason exactly if one was proposed, and a clean end exactly
      if one was and no failure was. */
  lemma FailuresPrevail(run: seq<Register>)
    requires IsRegisterRun(run) && AllFinished(run[|run| - 1])
    ensures var r := run[|run| - 1];
            && (Broken(r.Read()) <==> exists id :: id in r.calls && Broken(r.calls[id].reason))
            && (Clean(r.Read()) <==>
                  (exists id :: id in r.calls && Clean(r.calls[id].reason)) && !exists id :: id in r.calls && Broken(r.calls[id].reason))
            && (r.Read() == "" <==> forall id | id in r.calls :: r.calls[id].reason == "")
  {
    FirstOfTheHighestWins(run);
    var r := run[|run| - 1];
    forall x: Reason ensures (Broken(x) <==> Priority(x) == 3) && (Clean(x) <==> Priority(x) == 1) && Priority(x) <= 3 { Levels(x); }
    if r.installed != [] {
      var id :| id in r.calls && r.calls[id].reason == r.Read();
    }
  }

  lemma Levels(x: Reason)
    ensures (Broken(x) <==> Priority(x) == 3) && (Clean(x) <==> Priority(x) == 1) && Priority(x) <= 3
  {
  }
}
