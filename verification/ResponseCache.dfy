/** Response lifetimes: the TTL computed for a response, the in-place rewriting of record TTLs, and the
    two stores a client serves answers from, memory and persistent.  Times count nanoseconds. */
module ResponseCache {
  import opened Optional

  const SECOND := 1_000_000_000

  type Key = string

  datatype Kind = Opt | Soa(minimum: nat) | Plain

  datatype Record = Record(kind: Kind, ttl: nat, data: string)

  datatype Content = Content(answer: seq<Record>, ns: seq<Record>, extra: seq<Record>) {
    function All(): seq<Record> { answer + ns + extra }
  }

  // ----- the lifetime of a response -----

  /** A record whose TTL counts. */
  predicate Counts(r: Record) { r.kind != Opt && r.ttl > 0 }

  /** The least positive TTL outside OPT records; zero exactly when there is none. */
  ghost predicate LeastPositive(ttl: nat, records: seq<Record>) {
    && (forall r | r in records && Counts(r) :: 0 < ttl <= r.ttl)
    && (ttl > 0 ==> exists r :: r in records && Counts(r) && r.ttl == ttl)
  }

  function FirstSoa(ns: seq<Record>): (soa: Option<Record>)
    ensures soa.Some? ==> soa.value in ns && soa.value.kind.Soa?
    ensures soa.None? <==> forall r | r in ns :: !r.kind.Soa?
  {
    if ns == [] then None else if ns[0].kind.Soa? then Some(ns[0]) else FirstSoa(ns[1..])
  }

  function Min(a: nat, b: nat): nat { if a < b then a else b }

  /** What the lifetime must be: the bound of section 5 of RFC 2308 when there is no answer but an
      SOA record, the least positive TTL otherwise. */
  ghost predicate IsLifetime(ttl: nat, c: Content) {
    if c.answer == [] && FirstSoa(c.ns).Some? then
      var soa := FirstSoa(c.ns).value;
      ttl == Min(soa.ttl, soa.kind.minimum)
    else LeastPositive(ttl, c.All())
  }

  function WithTtl(r: Record, ttl: nat): Record { if r.kind == Opt then r else r.(ttl := ttl) }

  function WithTtls(records: seq<Record>, ttl: nat): (out: seq<Record>)
    ensures |out| == |records| && forall i | 0 <= i < |out| :: out[i] == WithTtl(records[i], ttl)
  {
    seq(|records|, i requires 0 <= i < |records| => WithTtl(records[i], ttl))
  }

  function Normalized(c: Content, ttl: nat): Content {
    Content(WithTtls(c.answer, ttl), WithTtls(c.ns, ttl), WithTtls(c.extra, ttl))
  }

  lemma LifetimeIsUnique(a: nat, b: nat, c: Content)
    requires IsLifetime(a, c) && IsLifetime(b, c)
    ensures a == b
  {
  }

  class Message {
    var answer: seq<Record>
    var ns: seq<Record>
    var extra: seq<Record>

    constructor (c: Content)
      ensures Value() == c
    {
      answer, ns, extra := c.answer, c.ns, c.extra;
    }

    function Value(): Content
      reads this
    {
      Content(answer, ns, extra)
    }

    method Copy() returns (copy: Message)
      ensures fresh(copy) && copy.Value() == Value()
    {
      copy := new Message(Content(answer, ns, extra));
    }

    method NegativeLifetime() returns (ttl: nat, found: bool)
      ensures found == FirstSoa(ns).Some?
      ensures found ==> ttl == Min(FirstSoa(ns).value.ttl, FirstSoa(ns).value.kind.minimum)
      ensures !found ==> ttl == 0
    {
      for i := 0 to |ns|
        invariant FirstSoa(ns) == FirstSoa(ns[i..])
      {
        assert ns[i..][1..] == ns[i + 1..];
        if ns[i].kind.Soa? {
          if ns[i].ttl < ns[i].kind.minimum {
            return ns[i].ttl, true;
          }
          return ns[i].kind.minimum, true;
        }
      }
      return 0, false;
    }

    method Lifetime() returns (ttl: nat)
      ensures IsLifetime(ttl, Value())
    {
      if |answer| == 0 {
        var negative, found := NegativeLifetime();
        if found {
          return negative;
        }
      }
      ttl := 0;
      ghost var seen: seq<Record> := [];
      var lists := [answer, ns, extra];
      for l := 0 to |lists|
        invariant LeastPositive(ttl, seen)
        invariant seen == if l == 0 then [] else if l == 1 then answer else if l == 2 then answer + ns else Value().All()
      {
        ghost var before := seen;
        for i := 0 to |lists[l]|
          invariant seen == before + lists[l][..i] && LeastPositive(ttl, seen)
        {
          var record := lists[l][i];
          ghost var longer := seen + [record];
          assert forall r :: r in longer <==> r in seen || r == record;
          seen := longer;
          if record.kind == Opt {
            continue;
          }
          if ttl == 0 || (record.ttl > 0 && record.ttl < ttl) {
            ttl := record.ttl;
          }
          assert record in seen;
        }
        assert lists[l][..|lists[l]|] == lists[l];
      }
    }

    static method Rewrite(records: seq<Record>, ttl: nat) returns (out: seq<Record>)
      ensures out == WithTtls(records, ttl)
    {
      out := records;
      for i := 0 to |records|
        invariant |out| == |records|
        invariant forall k | 0 <= k < i :: out[k] == WithTtl(records[k], ttl)
        invariant forall k | i <= k < |records| :: out[k] == records[k]
      {
        if out[i].kind == Opt {
          continue;
        }
        out := out[i := out[i].(ttl := ttl)];
      }
    }

    method Normalize(ttl: nat)
      modifies this
      ensures Value() == Normalized(old(Value()), ttl)
    {
      answer := Rewrite(answer, ttl);
      ns := Rewrite(ns, ttl);
      extra := Rewrite(extra, ttl);
    }

    /** Finishing an exchange: the lifetime, unless options fix one, is written to every record. */
    method Finish(rewrite: Option<nat>) returns (ttl: nat)
      modifies this
      ensures if rewrite.Some? then ttl == rewrite.value else IsLifetime(ttl, old(Value()))
      ensures Value() == Normalized(old(Value()), ttl)
    {
      ttl := Lifetime();
      if rewrite.Some? {
        ttl := rewrite.value;
      }
      Normalize(ttl);
    }
  }

  // ----- serving -----

  datatype Saved = Saved(content: Content, expireAt: nat)

  datatype Served = Miss | Fresh(content: Content, ttl: nat) | Stale(content: Content)

  function Serve(s: Option<Saved>, now: nat, optimistic: nat): Served {
    if s.None? then Miss
    else if now > s.value.expireAt then
      if optimistic > 0 && now < s.value.expireAt + optimistic then Stale(Normalized(s.value.content, 1)) else Miss
    else
      var ttl := (s.value.expireAt - now) / SECOND;
      Fresh(Normalized(s.value.content, ttl), ttl)
  }

  function Get(m: map<Key, Saved>, key: Key): Option<Saved> { if key in m then Some(m[key]) else None }

  function Put(m: map<Key, Saved>, key: Key, c: Content, ttl: nat, now: nat): map<Key, Saved> {
    if ttl == 0 then m else m[key := Saved(c, now + ttl * SECOND)]
  }

  /** An answer that can no longer be served leaves the memory store. */
  function Purge(m: map<Key, Saved>, key: Key, now: nat, optimistic: nat): map<Key, Saved> {
    if Serve(Get(m, key), now, optimistic) == Miss then m - {key} else m
  }

  datatype Entry = Entry(message: Message, expireAt: nat)

  /** The memory store holds messages of its own: a caller never shares one with it. */
  class MemoryCache {
    var entries: map<Key, Entry>
    const optimistic: nat

    constructor (optimistic: nat)
      ensures Value() == map[] && this.optimistic == optimistic
    {
      entries := map[];
      this.optimistic := optimistic;
    }

    ghost function Messages(): set<Message>
      reads this
    {
      set key | key in entries :: entries[key].message
    }

    ghost function Value(): map<Key, Saved>
      reads this, Messages()
    {
      map key | key in entries :: Saved(entries[key].message.Value(), entries[key].expireAt)
    }

    method Store(key: Key, message: Message, ttl: nat, now: nat)
      modifies this
      ensures Value() == Put(old(Value()), key, message.Value(), ttl, now)
      ensures forall m | m in Messages() - old(Messages()) :: fresh(m)
    {
      if ttl == 0 {
        return;
      }
      var copy := message.Copy();
      entries := entries[key := Entry(copy, now + ttl * SECOND)];
    }

    method Load(key: Key, now: nat) returns (response: Message?, ttl: nat, stale: bool)
      modifies this
      ensures Value() == Purge(old(Value()), key, now, optimistic) && Messages() <= old(Messages())
      ensures response != null ==> fresh(response)
      ensures response == null || stale ==> ttl == 0
      ensures response == null ==> !stale
      ensures Answer(response, ttl, stale) == Serve(Get(old(Value()), key), now, optimistic)
    {
      if key !in entries {
        return null, 0, false;
      }
      var entry := entries[key];
      if now > entry.expireAt {
        if optimistic > 0 && now < entry.expireAt + optimistic {
          response := entry.message.Copy();
          response.Normalize(1);
          return response, 0, true;
        }
        entries := entries - {key};
        return null, 0, false;
      }
      ttl := (entry.expireAt - now) / SECOND;
      response := entry.message.Copy();
      response.Normalize(ttl);
      stale := false;
    }
  }

  function Answer(response: Message?, ttl: nat, stale: bool): Served
    reads response
  {
    if response == null then Miss else if stale then Stale(response.Value()) else Fresh(response.Value(), ttl)
  }

  /** The persistent store keeps unwritten answers in a queue with their exact expiry; the written form
      keeps whole seconds.  A packed message is taken as its content. */
  datatype Store = Store(pending: map<Key, Saved>, disk: map<Key, Saved>) {
    function Find(key: Key): Option<Saved> {
      if key in pending then Some(pending[key]) else Get(disk, key)
    }
  }

  function Truncated(s: Saved): Saved { s.(expireAt := s.expireAt / SECOND * SECOND) }

  function Queue(s: Store, key: Key, c: Content, ttl: nat, now: nat): Store {
    s.(pending := Put(s.pending, key, c, ttl, now))
  }

  function Write(s: Store, key: Key): Store {
    if key in s.pending then s.(disk := s.disk[key := Truncated(s.pending[key])]) else s
  }

  function Settled(s: Store, key: Key): Store { s.(pending := s.pending - {key}) }

  /** An answer waiting to be written, numbered so that a writer sees whether a newer one came. */
  datatype Queued = Queued(saved: Saved, sequence: nat)

  /** One attempt to write: whether it succeeds, and the answers queued under that key meanwhile. */
  datatype Attempt = Attempt(written: bool, newer: seq<Saved>)

  /** The answer that is queued last. */
  function Latest(s: Saved, attempts: seq<Attempt>): Saved {
    if attempts == [] then s
    else
      var newer := attempts[|attempts| - 1].newer;
      if newer != [] then newer[|newer| - 1] else Latest(s, attempts[..|attempts| - 1])
  }

  class PersistentCache {
    var queue: map<Key, Queued>
    var disk: map<Key, Saved>
    const optimistic: nat

    constructor (optimistic: nat)
      ensures Value() == Store.Store(map[], map[]) && this.optimistic == optimistic
    {
      queue, disk := map[], map[];
      this.optimistic := optimistic;
    }

    function Value(): Store
      reads this
    {
      Store.Store(map key | key in queue :: queue[key].saved, disk)
    }

    method Enqueue(key: Key, saved: Saved)
      modifies this`queue
      ensures Value() == old(Value()).(pending := old(Value()).pending[key := saved])
      ensures queue == old(queue)[key := Queued(saved, if key in old(queue) then old(queue)[key].sequence + 1 else 1)]
    {
      var sequence := if key in queue then queue[key].sequence else 0;
      queue := queue[key := Queued(saved, sequence + 1)];
    }

    /** What is saved with a positive lifetime is found at once under its key, with its exact expiry, whatever
        is on disk; nothing else changes. */
    method Save(key: Key, message: Message, ttl: nat, now: nat)
      modifies this`queue
      ensures ttl > 0 ==> Value().Find(key) == Some(Saved(message.Value(), now + ttl * SECOND))
      ensures forall k | k != key || ttl == 0 :: Value().Find(k) == old(Value()).Find(k)
      ensures Value() == Queue(old(Value()), key, message.Value(), ttl, now)
    {
      if ttl == 0 {
        return;
      }
      var packed := Content(message.answer, message.ns, message.extra);
      Enqueue(key, Saved(packed, now + ttl * SECOND));
    }

    method Load(key: Key, now: nat) returns (response: Message?, ttl: nat, stale: bool)
      ensures response != null ==> fresh(response)
      ensures response == null || stale ==> ttl == 0
      ensures response == null ==> !stale
      ensures Answer(response, ttl, stale) == Serve(Value().Find(key), now, optimistic)
    {
      var found := if key in queue then Some(queue[key].saved) else if key in disk then Some(disk[key]) else None;
      if found.None? {
        return null, 0, false;
      }
      var saved := found.value;
      response := new Message(saved.content);
      if now > saved.expireAt {
        if optimistic > 0 && now < saved.expireAt + optimistic {
          response.Normalize(1);
          return response, 0, true;
        }
        return null, 0, false;
      }
      ttl := (saved.expireAt - now) / SECOND;
      response.Normalize(ttl);
      stale := false;
    }

    /** Others queue answers while one is being written. */
    method Meanwhile(key: Key, newer: seq<Saved>)
      requires key in queue
      modifies this`queue
      ensures key in queue && queue == old(queue)[key := queue[key]]
      ensures queue[key].saved == if newer == [] then old(queue)[key].saved else newer[|newer| - 1]
      ensures queue[key].sequence == old(queue)[key].sequence + |newer|
    {
      for i := 0 to |newer|
        invariant key in queue && queue == old(queue)[key := queue[key]]
        invariant queue[key].saved == if i == 0 then old(queue)[key].saved else newer[i - 1]
        invariant queue[key].sequence == old(queue)[key].sequence + i
      {
        Enqueue(key, newer[i]);
      }
    }

    /** Writes a queued answer, again as long as newer ones come.  No answer queued meanwhile is lost: once
        done, the disk holds the latest one if the last write succeeded, and the queue holds none. */
    method Flush(key: Key, attempts: seq<Attempt>) returns (done: bool, made: nat)
      modifies this`queue, this`disk
      ensures made <= |attempts|
      ensures queue - {key} == old(queue) - {key} && disk - {key} == old(disk) - {key}
      ensures key !in old(queue) ==> done && made == 0 && Value() == old(Value())
      ensures key in old(queue) ==> (done <==> made > 0 && attempts[made - 1].newer == [])
      ensures key in old(queue) ==> forall i | 0 <= i < made - 1 :: attempts[i].newer != []
      ensures key in old(queue) && done ==> key !in queue
      ensures key in old(queue) && done && attempts[made - 1].written ==>
                key in disk && disk[key] == Truncated(Latest(old(queue)[key].saved, attempts[..made]))
      ensures key in old(queue) && !done ==>
                made == |attempts| && key in queue && queue[key].saved == Latest(old(queue)[key].saved, attempts)
    {
      made := 0;
      if key !in queue {
        return true, 0;
      }
      while made < |attempts|
        invariant made <= |attempts| && key in queue && key in old(queue)
        invariant queue - {key} == old(queue) - {key} && disk - {key} == old(disk) - {key}
        invariant queue[key].saved == Latest(old(queue)[key].saved, attempts[..made])
        invariant forall i | 0 <= i < made :: attempts[i].newer != []
      {
        var entry := queue[key];
        if attempts[made].written {
          disk := disk[key := entry.saved.(expireAt := entry.saved.expireAt / SECOND * SECOND)];
        }
        Meanwhile(key, attempts[made].newer);
        assert attempts[..made + 1][..made] == attempts[..made];
        made := made + 1;
        if queue[key].sequence == entry.sequence {
          queue := queue - {key};
          return true, made;
        }
      }
      assert attempts[..made] == attempts;
      done := false;
    }
  }

  /** The client's two entry points.  With a persistent store memory is not used; with neither, nothing is. */
  class Client {
    const memory: MemoryCache?
    const persistent: PersistentCache?
    const optimistic: nat

    constructor (memory: MemoryCache?, persistent: PersistentCache?, optimistic: nat)
      requires (memory != null ==> memory.optimistic == optimistic) && (persistent != null ==> persistent.optimistic == optimistic)
      ensures this.memory == memory && this.persistent == persistent && Valid()
    {
      this.memory, this.persistent, this.optimistic := memory, persistent, optimistic;
    }

    ghost predicate Valid() {
      (memory != null ==> memory.optimistic == optimistic) && (persistent != null ==> persistent.optimistic == optimistic)
    }

    ghost function Kept(key: Key): Option<Saved>
      reads memory, if memory != null then memory.Messages() else {}, persistent
    {
      if persistent != null then persistent.Value().Find(key)
      else if memory != null then Get(memory.Value(), key)
      else None
    }

    /** Whatever the store, an answer with a positive lifetime is kept from then on until its expiry, and no
        other key is touched. */
    method Store(key: Key, message: Message, ttl: nat, now: nat)
      modifies memory, persistent
      ensures ttl > 0 && (memory != null || persistent != null) ==> Kept(key) == Some(Saved(message.Value(), now + ttl * SECOND))
      ensures forall k | k != key || ttl == 0 :: Kept(k) == old(Kept(k))
    {
      if persistent != null {
        persistent.Save(key, message, ttl, now);
      } else if memory != null {
        memory.Store(key, message, ttl, now);
      }
    }

    /** Whatever the store, what is kept is served by the same rule, from a message of the caller's own; what can
        no longer be served may be forgotten, and nothing else is. */
    method Load(key: Key, now: nat) returns (response: Message?, ttl: nat, stale: bool)
      requires Valid()
      modifies memory
      ensures response != null ==> fresh(response)
      ensures response == null || stale ==> ttl == 0
      ensures response == null ==> !stale
      ensures Answer(response, ttl, stale) == Serve(old(Kept(key)), now, optimistic)
      ensures forall k | k != key :: Kept(k) == old(Kept(k))
      ensures Kept(key) == old(Kept(key)) || Serve(old(Kept(key)), now, optimistic).Miss?
    {
      if persistent != null {
        response, ttl, stale := persistent.Load(key, now);
      } else if memory != null {
        response, ttl, stale := memory.Load(key, now);
      } else {
        return null, 0, false;
      }
    }
  }
}
