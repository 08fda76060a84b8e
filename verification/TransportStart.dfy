/** Starting DNS servers in dependency order: repeated passes start whatever has all its dependencies
    started, and when a pass starts nothing the dependency that is in the way is diagnosed. */
module TransportStart {
  import opened Optional
  import opened Sets

  type Tag = string

  datatype Transport = Transport(tag: Tag, dependencies: seq<Tag>)

  /** `path` is a chain of servers, each depending on the next; the last depends on `tag`. */
  datatype Failure = StartFailed(tag: Tag) | Circular(path: seq<Tag>, tag: Tag) | Missing(path: seq<Tag>, tag: Tag)

  function Tags(ts: seq<Transport>): set<Tag> { set t | t in ts :: t.tag }

  predicate Distinct(ts: seq<Transport>) { forall i, j | 0 <= i < j < |ts| :: ts[i].tag != ts[j].tag }

  /** The tag index the manager keeps beside the list. */
  ghost predicate Indexes(index: map<Tag, Transport>, ts: seq<Transport>) {
    && index.Keys == Tags(ts)
    && forall t | t in ts :: t.tag in index && index[t.tag] == t
  }

  predicate DependsOn(ts: seq<Transport>, a: Tag, b: Tag) { exists t | t in ts :: t.tag == a && b in t.dependencies }

  ghost predicate AllExist(ts: seq<Transport>) { forall a, b | DependsOn(ts, a, b) :: b in Tags(ts) }

  ghost predicate IsPath(ts: seq<Transport>, path: seq<Tag>) {
    forall i | 0 <= i < |path| - 1 :: DependsOn(ts, path[i], path[i + 1])
  }

  ghost predicate IsCycle(ts: seq<Transport>, path: seq<Tag>) {
    |path| >= 2 && IsPath(ts, path) && path[0] == path[|path| - 1]
  }

  ghost predicate Acyclic(ts: seq<Transport>) { forall path :: !IsCycle(ts, path) }

  /** Each server is started at most once, and after everything it depends on. */
  ghost predicate InOrder(ts: seq<Transport>, order: seq<Tag>) {
    && (forall i, j | 0 <= i < j < |order| :: order[i] != order[j])
    && (forall i | 0 <= i < |order| :: order[i] in Tags(ts))
    && (forall i, d | 0 <= i < |order| && DependsOn(ts, order[i], d) :: d in order[..i])
  }

  ghost predicate Genuine(ts: seq<Transport>, f: Failure) {
    match f
    case StartFailed(_) => true
    case Circular(path, tag) => path != [] && IsPath(ts, path + [tag]) && tag in path
    case Missing(path, tag) => path != [] && IsPath(ts, path + [tag]) && tag !in Tags(ts)
  }

  // ----- order and cycles -----

  function IndexOf(order: seq<Tag>, tag: Tag): (i: nat)
    requires tag in order
    ensures i < |order| && order[i] == tag
  {
    if order[0] == tag then 0 else 1 + IndexOf(order[1..], tag)
  }

  lemma DependencyIsEarlier(ts: seq<Transport>, order: seq<Tag>, a: Tag, b: Tag)
    requires InOrder(ts, order) && a in order && DependsOn(ts, a, b)
    ensures b in order && IndexOf(order, b) < IndexOf(order, a)
  {
    var i := IndexOf(order, a);
    assert b in order[..i];
    var k :| 0 <= k < i && order[k] == b;
    assert IndexOf(order, b) == k;
  }

  lemma {:induction false} PathDescends(ts: seq<Transport>, order: seq<Tag>, path: seq<Tag>)
    requires InOrder(ts, order) && IsPath(ts, path) && |path| >= 2 && path[0] in order
    ensures path[|path| - 1] in order && IndexOf(order, path[|path| - 1]) < IndexOf(order, path[0])
  {
    var n := |path| - 1;
    if n == 1 {
      DependencyIsEarlier(ts, order, path[0], path[1]);
    } else {
      assert IsPath(ts, path[..n]);
      PathDescends(ts, order, path[..n]);
      DependencyIsEarlier(ts, order, path[n - 1], path[n]);
    }
  }

  /** A complete order shows that nothing is missing and nothing is circular. */
  lemma CompleteOrderIsSound(ts: seq<Transport>, order: seq<Tag>)
    requires InOrder(ts, order) && Tags(ts) <= (set tag | tag in order)
    ensures AllExist(ts) && Acyclic(ts)
  {
    forall a, b | DependsOn(ts, a, b) ensures b in Tags(ts) {
      assert a in Tags(ts);
      DependencyIsEarlier(ts, order, a, b);
    }
    forall path ensures !IsCycle(ts, path) {
      if IsCycle(ts, path) {
        assert DependsOn(ts, path[0], path[1]);
        assert path[0] in Tags(ts);
        PathDescends(ts, order, path);
      }
    }
  }

  /** A diagnosis shows that something is missing or circular. */
  lemma DiagnosisIsSound(ts: seq<Transport>, f: Failure)
    requires Genuine(ts, f) && !f.StartFailed?
    ensures !(AllExist(ts) && Acyclic(ts))
  {
    var whole := f.path + [f.tag];
    assert DependsOn(ts, whole[|whole| - 2], whole[|whole| - 1]);
    if f.Circular? {
      var i :| 0 <= i < |f.path| && f.path[i] == f.tag;
      var cycle := whole[i..];
      forall k | 0 <= k < |cycle| - 1 ensures DependsOn(ts, cycle[k], cycle[k + 1]) {
        assert DependsOn(ts, whole[i + k], whole[i + k + 1]);
      }
      assert IsCycle(ts, cycle);
    }
  }

  // ----- counting -----

  lemma TagsOfAll(rest: seq<Transport>, t: Transport)
    ensures Tags(rest + [t]) == Tags(rest) + {t.tag}
  {
    assert t in rest + [t];
    forall x | x in rest ensures x in rest + [t] { }
    forall tag | tag in Tags(rest) ensures tag in Tags(rest + [t]) {
      var x :| x in rest && x.tag == tag;
      assert x in rest + [t];
    }
  }

  lemma {:induction false} AsManyTags(ts: seq<Transport>)
    requires Distinct(ts)
    ensures |Tags(ts)| == |ts|
  {
    if ts != [] {
      var rest, last := ts[..|ts| - 1], ts[|ts| - 1];
      assert ts == rest + [last];
      AsManyTags(rest);
      TagsOfAll(rest, last);
      assert last.tag !in Tags(rest);
    }
  }

  // ----- the algorithm -----

  predicate Ready(t: Transport, started: set<Tag>) { forall d | d in t.dependencies :: d in started }

  /** In a list without duplicates, what one server depends on is what it declares. */
  lemma DeclaredIsAll(ts: seq<Transport>, i: nat, d: Tag)
    requires Distinct(ts) && i < |ts| && DependsOn(ts, ts[i].tag, d)
    ensures d in ts[i].dependencies
  {
    var t :| t in ts && t.tag == ts[i].tag && d in t.dependencies;
    var k :| 0 <= k < |ts| && ts[k] == t;
  }

  lemma OneMoreInOrder(ts: seq<Transport>, order: seq<Tag>, started: set<Tag>, i: nat)
    requires Distinct(ts) && i < |ts| && InOrder(ts, order) && started == (set tag | tag in order)
    requires ts[i].tag !in started && Ready(ts[i], started)
    ensures InOrder(ts, order + [ts[i].tag]) && started + {ts[i].tag} == (set tag | tag in order + [ts[i].tag])
  {
    var longer := order + [ts[i].tag];
    assert ts[i] in ts;
    forall k, d | 0 <= k < |longer| && DependsOn(ts, longer[k], d) ensures d in longer[..k] {
      if k < |order| {
        assert DependsOn(ts, order[k], d) && longer[..k] == order[..k];
      } else {
        DeclaredIsAll(ts, i, d);
        assert longer[..k] == order;
      }
    }
  }

  method IsReady(t: Transport, started: set<Tag>) returns (ready: bool)
    ensures ready == Ready(t, started)
  {
    for k := 0 to |t.dependencies|
      invariant forall d | d in t.dependencies[..k] :: d in started
    {
      if t.dependencies[k] !in started {
        return false;
      }
    }
    return true;
  }

  /** One pass over the list.  `fails` says which servers refuse to start. */
  method Pass(ts: seq<Transport>, fails: Tag -> bool, started0: set<Tag>, order0: seq<Tag>)
      returns (failure: Option<Failure>, started: set<Tag>, order: seq<Tag>, progress: bool)
    requires Distinct(ts) && InOrder(ts, order0) && started0 == (set tag | tag in order0)
    requires forall tag | tag in order0 :: !fails(tag)
    ensures InOrder(ts, order) && started == (set tag | tag in order)
    ensures failure.None? ==> forall tag | tag in order :: !fails(tag)
    ensures failure.Some? ==> order != [] && failure.value == StartFailed(order[|order| - 1]) && fails(order[|order| - 1])
                              && forall tag | tag in order[..|order| - 1] :: !fails(tag)
    ensures failure.None? && progress ==> |started| > |started0|
    ensures failure.None? && !progress ==> started == started0 && forall t | t in ts && t.tag !in started :: !Ready(t, started)
  {
    failure, started, order, progress := None, started0, order0, false;
    for i := 0 to |ts|
      invariant InOrder(ts, order) && started == (set tag | tag in order)
      invariant forall tag | tag in order :: !fails(tag)
      invariant if progress then |started| > |started0| else started == started0
      invariant !progress ==> forall k | 0 <= k < i && ts[k].tag !in started :: !Ready(ts[k], started)
    {
      var t := ts[i];
      if t.tag in started {
        continue;
      }
      var ready := IsReady(t, started);
      if !ready {
        continue;
      }
      OneMoreInOrder(ts, order, started, i);
      started := started + {t.tag};
      progress := true;
      order := order + [t.tag];
      if fails(t.tag) {
        assert order[..|order| - 1] + [t.tag] == order;
        return Some(StartFailed(t.tag)), started, order, progress;
      }
    }
  }

  /** The first dependency that is not started. */
  method FirstBlocked(t: Transport, started: set<Tag>) returns (tag: Tag)
    requires !Ready(t, started)
    ensures tag in t.dependencies && tag !in started
  {
    for k := 0 to |t.dependencies|
      invariant forall d | d in t.dependencies[..k] :: d in started
    {
      if t.dependencies[k] !in started {
        return t.dependencies[k];
      }
    }
    assert false;
    tag := "";
  }

  /** A chain of servers that are all stuck, none of them twice. */
  ghost predicate Chain(ts: seq<Transport>, path: seq<Tag>) {
    && path != [] && IsPath(ts, path)
    && (forall i | 0 <= i < |path| :: path[i] in Tags(ts))
    && (forall i, j | 0 <= i < j < |path| :: path[i] != path[j])
  }

  ghost function Unvisited(ts: seq<Transport>, path: seq<Tag>): set<Tag> { Tags(ts) - (set tag | tag in path) }

  lemma PathGrows(ts: seq<Transport>, path: seq<Tag>, tag: Tag)
    requires path != [] && IsPath(ts, path) && DependsOn(ts, path[|path| - 1], tag)
    ensures IsPath(ts, path + [tag])
  {
    var longer := path + [tag];
    forall i | 0 <= i < |longer| - 1 ensures DependsOn(ts, longer[i], longer[i + 1]) {
      if i < |path| - 1 { assert DependsOn(ts, path[i], path[i + 1]); }
    }
  }

  lemma FewerUnvisited(ts: seq<Transport>, path: seq<Tag>, tag: Tag)
    requires tag !in path && tag in Tags(ts)
    ensures |Unvisited(ts, path + [tag])| < |Unvisited(ts, path)|
  {
    assert tag in path + [tag];
    SubsetSize(Unvisited(ts, path + [tag]), Unvisited(ts, path) - {tag});
  }

  lemma IndexedIsListed(ts: seq<Transport>, index: map<Tag, Transport>, tag: Tag)
    requires Indexes(index, ts) && tag in index
    ensures index[tag] in ts && index[tag].tag == tag
  {
    assert tag in Tags(ts);
    var t :| t in ts && t.tag == tag;
  }

  /** Following what is in the way, from server to server, until it is missing or seen before. */
  method Lint(ts: seq<Transport>, index: map<Tag, Transport>, started: set<Tag>, path: seq<Tag>, current: Transport)
      returns (f: Failure)
    requires Indexes(index, ts) && Chain(ts, path)
    requires forall t | t in ts && t.tag !in started :: !Ready(t, started)
    requires current in ts && current.tag == path[|path| - 1] && current.tag !in started
    ensures Genuine(ts, f) && !f.StartFailed?
    decreases |Unvisited(ts, path)|
  {
    var problem := FirstBlocked(current, started);
    assert DependsOn(ts, current.tag, problem);
    PathGrows(ts, path, problem);
    if problem in path {
      return Circular(path, problem);
    }
    if problem !in index {
      return Missing(path, problem);
    }
    IndexedIsListed(ts, index, problem);
    FewerUnvisited(ts, path, problem);
    f := Lint(ts, index, started, path + [problem], index[problem]);
  }

  /** Starting all servers.  `order` lists the calls made. */
  method StartTransports(ts: seq<Transport>, index: map<Tag, Transport>, fails: Tag -> bool)
      returns (failure: Option<Failure>, order: seq<Tag>)
    requires Distinct(ts) && Indexes(index, ts)
    ensures InOrder(ts, order)
    ensures failure.None? ==> |order| == |ts| && (set tag | tag in order) == Tags(ts) && forall tag | tag in order :: !fails(tag)
    ensures failure.Some? ==> Genuine(ts, failure.value)
    ensures failure.Some? && failure.value.StartFailed? ==>
              order != [] && failure.value.tag == order[|order| - 1] && fails(failure.value.tag)
    ensures (forall tag | tag in Tags(ts) :: !fails(tag)) ==> (failure.None? <==> AllExist(ts) && Acyclic(ts))
  {
    var started: set<Tag> := {};
    order := [];
    AsManyTags(ts);
    while true
      invariant InOrder(ts, order) && started == (set tag | tag in order)
      invariant forall tag | tag in order :: !fails(tag)
      decreases |Tags(ts) - started|
    {
      ghost var before := started;
      var progress;
      failure, started, order, progress := Pass(ts, fails, started, order);
      assert started <= Tags(ts);
      if failure.Some? {
        return;
      }
      SubsetSize(started, Tags(ts));
      if |started| == |ts| {
        OrderLength(order);
        CompleteOrderIsSound(ts, order);
        return;
      }
      if progress {
        MoreStarted(before, started, Tags(ts));
        continue;
      }
      var current := FindUnstarted(ts, started);
      var f := Lint(ts, index, started, [current.tag], current);
      DiagnosisIsSound(ts, f);
      return Some(f), order;
    }
  }

  lemma {:induction false} OrderLength(order: seq<Tag>)
    requires forall i, j | 0 <= i < j < |order| :: order[i] != order[j]
    ensures |set tag | tag in order| == |order|
  {
    if order != [] {
      var rest, last := order[..|order| - 1], order[|order| - 1];
      OrderLength(rest);
      assert (set tag | tag in order) == (set tag | tag in rest) + {last};
    }
  }

  lemma MoreStarted(before: set<Tag>, after: set<Tag>, all: set<Tag>)
    requires before <= all && after <= all && |before| < |after|
    ensures |all - after| < |all - before|
  {
    assert |all - after| == |all| - |after| by { Parts(after, all); }
    assert |all - before| == |all| - |before| by { Parts(before, all); }
  }

  lemma {:induction false} Parts(a: set<Tag>, all: set<Tag>)
    requires a <= all
    ensures |all - a| == |all| - |a|
  {
    assert all == a + (all - a);
  }

  method FindUnstarted(ts: seq<Transport>, started: set<Tag>) returns (t: Transport)
    requires started <= Tags(ts) && started != Tags(ts)
    ensures t in ts && t.tag !in started
  {
    for i := 0 to |ts|
      invariant forall k | 0 <= k < i :: ts[k].tag in started
    {
      if ts[i].tag !in started {
        return ts[i];
      }
    }
    assert false;
    t := Transport("", []);
  }
}
