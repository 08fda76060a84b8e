/** How long answers live, over every run of stores, loads, flushes and losses. */
module CacheTheorems {
  import opened Optional
  import opened ResponseCache

  // ----- one entry -----

  /** Rewriting TTLs sets every record outside OPT, and changes nothing else. */
  lemma NormalizedRecords(c: Content, ttl: nat, i: nat)
    requires i < |c.All()|
    ensures |Normalized(c, ttl).All()| == |c.All()|
    ensures var r := Normalized(c, ttl).All()[i];
            && (r.kind != Opt ==> r.ttl == ttl)
            && (r.kind == Opt ==> r == c.All()[i])
            && r.kind == c.All()[i].kind && r.data == c.All()[i].data
  {
  }

  /** Serving and storing again what was served keeps only the last TTL. */
  lemma NormalizedTwice(c: Content, a: nat, b: nat)
    ensures Normalized(Normalized(c, a), b) == Normalized(c, b)
  {
    var x, y := Normalized(Normalized(c, a), b), Normalized(c, b);
    assert x.answer == y.answer && x.ns == y.ns && x.extra == y.extra;
  }

  /** A fresh answer cannot outlive its entry; a stale one is served strictly inside the window. */
  lemma ServedInTime(s: Saved, now: nat, optimistic: nat)
    ensures var served := Serve(Some(s), now, optimistic);
            && (served.Fresh? ==> now + served.ttl * SECOND <= s.expireAt < now + (served.ttl + 1) * SECOND
                                  && served.content == Normalized(s.content, served.ttl))
            && (served.Stale? ==> s.expireAt < now < s.expireAt + optimistic
                                  && served.content == Normalized(s.content, 1))
            && (served.Fresh? <==> now <= s.expireAt)
            && (served.Stale? <==> s.expireAt < now < s.expireAt + optimistic)
  {
  }

  /** From the response an upstream sent to what is served fresh later: it ends within the lifetime of the
      response, hence within every positive TTL a record arrived with, or, for an empty answer, within the
      SOA bound. */
  lemma NeverOutlivesUpstream(upstream: Content, ttl: nat, at: nat, now: nat, optimistic: nat)
    requires IsLifetime(ttl, upstream) && ttl > 0
    ensures var served := ServeFrom(upstream, ttl, at, now, optimistic);
            served.Fresh? ==>
              && now + served.ttl * SECOND <= at + ttl * SECOND
              && served.content == Normalized(upstream, served.ttl)
              && (upstream.answer != [] || FirstSoa(upstream.ns).None? ==>
                    forall r | r in upstream.All() && Counts(r) :: now + served.ttl * SECOND <= at + r.ttl * SECOND)
              && (upstream.answer == [] && FirstSoa(upstream.ns).Some? ==>
                    var soa := FirstSoa(upstream.ns).value;
                    now + served.ttl * SECOND <= at + Min(soa.ttl, soa.kind.minimum) * SECOND)
  {
    var s := Saved(Normalized(upstream, ttl), at + ttl * SECOND);
    ServedInTime(s, now, optimistic);
    var served := Serve(Some(s), now, optimistic);
    if served.Fresh? { NormalizedTwice(upstream, ttl, served.ttl); }
  }

  /** What is served of a response that was kept on arrival. */
  function ServeFrom(upstream: Content, ttl: nat, at: nat, now: nat, optimistic: nat): Served {
    Serve(Get(Put(map[], "", Normalized(upstream, ttl), ttl, at), ""), now, optimistic)
  }

  /** No record is ever served fresh past the end of its own positive TTL. */
  ghost predicate EndsInTime(upstream: Content, ttl: nat, at: nat, optimistic: nat) {
    forall now: nat, r | now >= at && r in upstream.All() && Counts(r) && ServeFrom(upstream, ttl, at, now, optimistic).Fresh? ::
      now + ServeFrom(upstream, ttl, at, now, optimistic).ttl * SECOND <= at + r.ttl * SECOND
  }

  /** That holds exactly if the lifetime is at most every positive TTL: always when there is an answer, and for
      an empty answer exactly if the SOA bound is. */
  lemma EndsInTimeIff(upstream: Content, ttl: nat, at: nat, optimistic: nat)
    requires IsLifetime(ttl, upstream) && ttl > 0
    ensures EndsInTime(upstream, ttl, at, optimistic) <==> forall r | r in upstream.All() && Counts(r) :: ttl <= r.ttl
    ensures upstream.answer != [] || FirstSoa(upstream.ns).None? ==> EndsInTime(upstream, ttl, at, optimistic)
  {
    var served := ServeFrom(upstream, ttl, at, at, optimistic);
    assert served.Fresh? && served.ttl == ttl;
    forall now: nat | now >= at && ServeFrom(upstream, ttl, at, now, optimistic).Fresh?
      ensures now + ServeFrom(upstream, ttl, at, now, optimistic).ttl * SECOND <= at + ttl * SECOND
    {
      NeverOutlivesUpstream(upstream, ttl, at, now, optimistic);
    }
    if EndsInTime(upstream, ttl, at, optimistic) {
      forall r | r in upstream.All() && Counts(r) ensures ttl <= r.ttl {
        assert at + served.ttl * SECOND <= at + r.ttl * SECOND;
      }
    }
  }

  // ----- flushing -----

  lemma TruncatedBounds(s: Saved)
    ensures Truncated(s).expireAt <= s.expireAt < Truncated(s).expireAt + SECOND
    ensures Truncated(s).expireAt % SECOND == 0
  {
  }

  /** Writing an entry to disk never lengthens its life, and costs at most one second of TTL. */
  lemma FlushShortens(s: Saved, now: nat, optimistic: nat)
    ensures var before := Serve(Some(s), now, optimistic); var after := Serve(Some(Truncated(s)), now, optimistic);
            && (after.Fresh? ==> before.Fresh? && before.ttl - 1 <= after.ttl <= before.ttl)
            && (after.Stale? ==> !before.Miss?)
  {
    TruncatedBounds(s);
    var t := Truncated(s);
    ServedInTime(s, now, optimistic);
    ServedInTime(t, now, optimistic);
  }

  /** The written entry is served like the exact one at all times if and only if it expires on a whole second. */
  lemma FlushIsExactIffWholeSecond(s: Saved, optimistic: nat)
    ensures (forall now: nat :: Serve(Some(Truncated(s)), now, optimistic) == Serve(Some(s), now, optimistic))
            <==> s.expireAt % SECOND == 0
  {
    TruncatedBounds(s);
    if s.expireAt % SECOND != 0 {
      assert Serve(Some(s), s.expireAt, optimistic).Fresh?;
      assert !Serve(Some(Truncated(s)), s.expireAt, optimistic).Fresh?;
    }
  }

  // ----- runs -----

  datatype Op =
    | Keep(key: Key, content: Content, ttl: nat, at: nat)
    | Ask(key: Key, at: nat)
    | Flush(key: Key, at: nat)

  predicate Ordered(ops: seq<Op>) { forall i, j | 0 <= i < j < |ops| :: ops[i].at <= ops[j].at }

  /** What a store would serve if it kept the last answer with a positive TTL for ever. */
  function LastKept(ops: seq<Op>, key: Key): Option<Saved> {
    if ops == [] then None
    else
      var op := ops[|ops| - 1];
      if op.Keep? && op.key == key && op.ttl > 0 then Some(Saved(op.content, op.at + op.ttl * SECOND))
      else LastKept(ops[..|ops| - 1], key)
  }

  function MemoryStep(m: map<Key, Saved>, op: Op, optimistic: nat): map<Key, Saved> {
    match op
    case Keep(key, content, ttl, at) => Put(m, key, content, ttl, at)
    case Ask(key, at) => Purge(m, key, at, optimistic)
    case Flush(_, _) => m
  }

  function MemoryAfter(ops: seq<Op>, optimistic: nat): map<Key, Saved> {
    if ops == [] then map[]
    else MemoryStep(MemoryAfter(ops[..|ops| - 1], optimistic), ops[|ops| - 1], optimistic)
  }

  function StoreAfter(ops: seq<Op>): Store {
    if ops == [] then Store.Store(map[], map[])
    else
      var s, op := StoreAfter(ops[..|ops| - 1]), ops[|ops| - 1];
      match op
      case Keep(key, content, ttl, at) => Queue(s, key, content, ttl, at)
      case Ask(_, _) => s
      case Flush(key, _) => Settled(Write(s, key), key)
  }

  /** The entry in memory is the last one kept, unless that can never be served again. */
  lemma {:induction false} MemoryServesLastKept(ops: seq<Op>, optimistic: nat, key: Key, now: nat)
    requires Ordered(ops) && (ops != [] ==> ops[|ops| - 1].at <= now)
    ensures Serve(Get(MemoryAfter(ops, optimistic), key), now, optimistic) == Serve(LastKept(ops, key), now, optimistic)
    ensures Get(MemoryAfter(ops, optimistic), key).Some? ==> Get(MemoryAfter(ops, optimistic), key) == LastKept(ops, key)
  {
    if ops != [] {
      var rest, op := ops[..|ops| - 1], ops[|ops| - 1];
      MemoryServesLastKept(rest, optimistic, key, now);
      MemoryServesLastKept(rest, optimistic, key, op.at);
    }
  }

  lemma {:induction false} StoreServesLastKept(ops: seq<Op>, key: Key)
    ensures var found := StoreAfter(ops).Find(key); var kept := LastKept(ops, key);
            && (found.None? <==> kept.None?)
            && (kept.Some? ==> found == kept || found == Some(Truncated(kept.value)))
    ensures key in StoreAfter(ops).pending ==> StoreAfter(ops).Find(key) == LastKept(ops, key)
    ensures (forall op | op in ops :: !op.Flush?) ==> StoreAfter(ops).disk == map[]
  {
    if ops != [] {
      var rest, op := ops[..|ops| - 1], ops[|ops| - 1];
      StoreServesLastKept(rest, key);
      assert forall x | x in rest :: x in ops;
      assert op in ops;
    }
  }

  /** Until something is flushed, both stores give the same answer to every question, and it is the one
      the last positive-TTL answer deserves: dropping expired entries from memory is never visible. */
  lemma StoresAgree(ops: seq<Op>, optimistic: nat, key: Key, now: nat)
    requires Ordered(ops) && (ops != [] ==> ops[|ops| - 1].at <= now)
    ensures var kept := LastKept(ops, key);
            var memory := Serve(Get(MemoryAfter(ops, optimistic), key), now, optimistic);
            var persistent := Serve(StoreAfter(ops).Find(key), now, optimistic);
            && memory == Serve(kept, now, optimistic)
            && (key in StoreAfter(ops).pending || kept.None? ==> persistent == memory)
            && (kept.Some? ==> persistent == memory || persistent == Serve(Some(Truncated(kept.value)), now, optimistic))
            && (kept.Some? && kept.value.expireAt % SECOND == 0 ==> persistent == memory)
            && (persistent.Fresh? ==> memory.Fresh? && memory.ttl - 1 <= persistent.ttl <= memory.ttl)
  {
    MemoryServesLastKept(ops, optimistic, key, now);
    StoreServesLastKept(ops, key);
    var kept := LastKept(ops, key);
    if kept.Some? {
      FlushShortens(kept.value, now, optimistic);
      TruncatedBounds(kept.value);
    }
  }

  /** After a flush they can differ: an answer kept for one second at half past is, at the next
      half second, still fresh in memory and gone from disk. */
  lemma FlushedStoresDiffer(c: Content)
    ensures var half := SECOND / 2;
            var ops := [Keep("k", c, 1, half), Flush("k", half)];
            var now := SECOND + half;
            && Ordered(ops)
            && Serve(Get(MemoryAfter(ops, 0), "k"), now, 0) == Fresh(Normalized(c, 0), 0)
            && Serve(StoreAfter(ops).Find("k"), now, 0) == Miss
  {
    var half := SECOND / 2;
    var ops := [Keep("k", c, 1, half), Flush("k", half)];
    assert ops[..1] == [Keep("k", c, 1, half)];
    assert ops[..1][..0] == [];
    assert MemoryAfter(ops[..1], 0) == map["k" := Saved(c, SECOND + half)];
    assert StoreAfter(ops[..1]) == Store.Store(map["k" := Saved(c, SECOND + half)], map[]);
  }

  // ----- runs with losses -----

  /** The persistent store with everything that can go wrong: a write that fails is reported and then
      forgotten, a finished write may be overtaken by a newer answer, and cleanup deletes entries. */
  ghost predicate StoreNext(s: Store, op: Op, s': Store) {
    match op
    case Keep(key, content, ttl, at) => s' == Queue(s, key, content, ttl, at)
    case Ask(_, _) => s' == s
    case Flush(key, _) =>
      s' == Write(s, key) || s' == Settled(s, key) || s' == Settled(Write(s, key), key) || s' == s.(disk := s.disk - {key})
  }

  ghost predicate IsStoreRun(run: seq<Store>, ops: seq<Op>) {
    && |run| == |ops| + 1 && run[0] == Store.Store(map[], map[])
    && forall i | 0 <= i < |ops| :: StoreNext(run[i], ops[i], run[i + 1])
  }

  /** `s` is what some earlier answer with a positive TTL left, exactly or cut to whole seconds. */
  ghost predicate FromKept(ops: seq<Op>, key: Key, s: Saved) {
    exists op: Op :: op in ops && op.Keep? && op.key == key && op.ttl > 0 && KeptAs(op, s)
  }

  predicate KeptAs(op: Op, s: Saved)
    requires op.Keep?
  {
    var exact := Saved(op.content, op.at + op.ttl * SECOND);
    s == exact || s == Truncated(exact)
  }

  lemma TruncatedTwice(s: Saved)
    ensures Truncated(Truncated(s)) == Truncated(s)
  {
  }

  lemma FromKeptGrows(ops: seq<Op>, op: Op, key: Key, s: Saved)
    requires FromKept(ops, key, s)
    ensures FromKept(ops + [op], key, s) && FromKept(ops + [op], key, Truncated(s))
  {
    var k: Op :| k in ops && k.Keep? && k.key == key && k.ttl > 0 && KeptAs(k, s);
    assert k in ops + [op];
    TruncatedTwice(s);
    TruncatedTwice(Saved(k.content, k.at + k.ttl * SECOND));
    assert KeptAs(k, Truncated(s));
  }

  ghost predicate AllKept(ops: seq<Op>, s: Store) {
    && (forall key | key in s.pending :: FromKept(ops, key, s.pending[key]))
    && (forall key | key in s.disk :: FromKept(ops, key, s.disk[key]))
  }

  lemma StoreNextKept(ops: seq<Op>, s: Store, op: Op, s': Store)
    requires AllKept(ops, s) && StoreNext(s, op, s')
    ensures AllKept(ops + [op], s')
  {
    forall key | key in s'.pending ensures FromKept(ops + [op], key, s'.pending[key]) {
      if key in s.pending && s'.pending[key] == s.pending[key] {
        FromKeptGrows(ops, op, key, s.pending[key]);
      } else {
        assert op in ops + [op] && KeptAs(op, s'.pending[key]);
      }
    }
    forall key | key in s'.disk ensures FromKept(ops + [op], key, s'.disk[key]) {
      if key in s.disk && s'.disk[key] == s.disk[key] {
        FromKeptGrows(ops, op, key, s.disk[key]);
      } else {
        FromKeptGrows(ops, op, key, s.pending[key]);
      }
    }
  }

  lemma {:induction false} StoreRunKept(run: seq<Store>, ops: seq<Op>)
    requires IsStoreRun(run, ops)
    ensures AllKept(ops, run[|ops|])
  {
    if ops != [] {
      var n := |ops| - 1;
      StoreRunKept(run[..|ops|], ops[..n]);
      assert StoreNext(run[n], ops[n], run[n + 1]);
      StoreNextKept(ops[..n], run[n], ops[n], run[n + 1]);
      assert ops[..n] + [ops[n]] == ops;
    }
  }

  /** The time bound over every run, losses included: whatever is served goes back to an answer really
      kept under that key, a fresh one ends no later than that answer's lifetime, and a stale one is
      served before the optimistic window of that answer closes and less than a second before it opens. */
  lemma AnswersEndInTime(run: seq<Store>, ops: seq<Op>, key: Key, now: nat, optimistic: nat)
    requires IsStoreRun(run, ops)
    ensures var served := Serve(run[|ops|].Find(key), now, optimistic);
            served != Miss ==> exists op: Op :: op in ops && op.Keep? && op.key == key && op.ttl > 0 && InTime(op, served, now, optimistic)
  {
    StoreRunKept(run, ops);
    var found := run[|ops|].Find(key);
    if found.Some? {
      assert FromKept(ops, key, found.value);
      var op: Op :| op in ops && op.Keep? && op.key == key && op.ttl > 0 && KeptAs(op, found.value);
      TruncatedBounds(Saved(op.content, op.at + op.ttl * SECOND));
      ServedInTime(found.value, now, optimistic);
    }
  }

  predicate InTime(op: Op, served: Served, now: nat, optimistic: nat)
    requires op.Keep?
  {
    var end := op.at + op.ttl * SECOND;
    match served
    case Miss => true
    case Fresh(content, ttl) => now + ttl * SECOND <= end && content == Normalized(op.content, ttl)
    case Stale(content) => end < now + SECOND && now < end + optimistic && content == Normalized(op.content, 1)
  }

  // ----- memory with eviction -----

  /** The bounded memory store may evict any entries at any step. */
  ghost predicate MemoryNext(m: map<Key, Saved>, op: Op, m': map<Key, Saved>, optimistic: nat) {
    var full := MemoryStep(m, op, optimistic);
    forall key | key in m' :: key in full && m'[key] == full[key]
  }

  ghost predicate IsMemoryRun(run: seq<map<Key, Saved>>, ops: seq<Op>, optimistic: nat) {
    && |run| == |ops| + 1 && run[0] == map[]
    && forall i | 0 <= i < |ops| :: MemoryNext(run[i], ops[i], run[i + 1], optimistic)
  }

  ghost predicate ExactlyKept(ops: seq<Op>, key: Key, s: Saved) {
    exists op: Op :: op in ops && op.Keep? && op.key == key && op.ttl > 0 && s == Saved(op.content, op.at + op.ttl * SECOND)
  }

  lemma {:induction false} MemoryRunKept(run: seq<map<Key, Saved>>, ops: seq<Op>, optimistic: nat)
    requires IsMemoryRun(run, ops, optimistic)
    ensures forall key | key in run[|ops|] :: ExactlyKept(ops, key, run[|ops|][key])
  {
    if ops != [] {
      var n := |ops| - 1;
      MemoryRunKept(run[..|ops|], ops[..n], optimistic);
      var m, m' := run[n], run[n + 1];
      assert MemoryNext(m, ops[n], m', optimistic);
      forall key | key in m' ensures ExactlyKept(ops, key, m'[key]) {
        if key in m && m'[key] == m[key] {
          var op: Op :| op in ops[..n] && op.Keep? && op.key == key && op.ttl > 0
                        && m[key] == Saved(op.content, op.at + op.ttl * SECOND);
          assert op in ops;
        } else {
          assert ops[n] in ops;
        }
      }
    }
  }

  /** The time bound for memory, evictions included: a fresh answer ends within the lifetime of an
      answer kept under that key, and a stale one is served strictly inside its optimistic window. */
  lemma MemoryAnswersEndInTime(run: seq<map<Key, Saved>>, ops: seq<Op>, key: Key, now: nat, optimistic: nat)
    requires IsMemoryRun(run, ops, optimistic)
    ensures var served := Serve(Get(run[|ops|], key), now, optimistic);
            served != Miss ==> exists op: Op :: op in ops && op.Keep? && op.key == key && op.ttl > 0
                                                && InTime(op, served, now, optimistic)
                                                && (served.Stale? ==> op.at + op.ttl * SECOND < now)
  {
    MemoryRunKept(run, ops, optimistic);
    if key in run[|ops|] {
      var s := run[|ops|][key];
      var op: Op :| op in ops && op.Keep? && op.key == key && op.ttl > 0 && s == Saved(op.content, op.at + op.ttl * SECOND);
      ServedInTime(s, now, optimistic);
    }
  }
}
