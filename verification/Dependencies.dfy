/** validateDependencies: a three-colour depth-first search over the applications. */
module Dependencies {
  import opened Config

  type Apps = map<string, App>

  datatype Verdict =
    | Fine
    | UnknownDependency(name: string)
    | DependencyCycle(name: string)
    | ScheduledDependency(name: string, dependency: string)

  // ------------------------------------------------------- what is required

  /** `app` depends on `dependency`. */
  predicate Edge(apps: Apps, name: string, dependency: string) {
    name in apps && dependency in apps[name].dependencies
  }

  ghost predicate Resolved(apps: Apps) {
    forall n, d | Edge(apps, n, d) :: d in apps
  }

  /** No scheduled application is anybody's dependency. */
  ghost predicate Continuous(apps: Apps) {
    forall n, d | Edge(apps, n, d) :: d in apps ==> !apps[d].Scheduled()
  }

  /** Each application of the path depends on the next. */
  ghost predicate Walk(apps: Apps, path: seq<string>) {
    forall i | 0 <= i < |path| - 1 :: Edge(apps, path[i], path[i + 1])
  }

  ghost predicate OnCycle(apps: Apps, name: string) {
    exists path: seq<string> :: |path| >= 2 && path[0] == name && path[|path| - 1] == name && Walk(apps, path)
  }

  ghost predicate Acyclic(apps: Apps) {
    forall n :: !OnCycle(apps, n)
  }

  /** What Load promises of the dependencies of a snapshot. */
  ghost predicate Sound(apps: Apps) {
    Resolved(apps) && Continuous(apps) && Acyclic(apps)
  }

  /** Every application stands after everything that it depends on. */
  ghost predicate Ranked(apps: Apps, rank: map<string, nat>) {
    forall n, d | Edge(apps, n, d) :: n in rank && d in rank && rank[d] < rank[n]
  }

  // ------------------------------------------------------------- the search

  /** Everything that `name` depends on comes before it and runs continuously. */
  ghost predicate Settled(apps: Apps, before: seq<string>, name: string) {
    name in apps && forall d <- apps[name].dependencies :: d in before && d in apps && !apps[d].Scheduled()
  }

  /** `order` lists the finished applications, dependencies first. */
  ghost predicate Finished(apps: Apps, order: seq<string>) {
    && (forall i, j | 0 <= i < j < |order| :: order[i] != order[j])
    && (forall i | 0 <= i < |order| :: Settled(apps, order[..i], order[i]))
  }

  ghost predicate Searching(apps: Apps, grey: set<string>, black: set<string>, stack: seq<string>, order: seq<string>) {
    && grey !! black && grey <= apps.Keys && black <= apps.Keys
    && (forall n :: n in grey <==> n in stack)
    && (forall n :: n in black <==> n in order)
    && Walk(apps, stack)
    && Finished(apps, order)
  }

  /** A verdict other than Fine names an application that is really at fault. */
  ghost predicate Justified(apps: Apps, verdict: Verdict) {
    match verdict
    case Fine => true
    case UnknownDependency(n) => n !in apps && exists m :: Edge(apps, m, n)
    case DependencyCycle(n) => OnCycle(apps, n)
    case ScheduledDependency(n, d) => Edge(apps, n, d) && d in apps && apps[d].Scheduled()
  }

  method Visit(apps: Apps, name: string, grey: set<string>, black: set<string>, ghost stack: seq<string>,
            ghost order: seq<string>)
    returns (verdict: Verdict, black': set<string>, ghost order': seq<string>)
    requires Searching(apps, grey, black, stack, order)
    requires stack == [] ==> name in apps
    requires stack != [] ==> Edge(apps, stack[|stack| - 1], name)
    ensures Justified(apps, verdict)
    ensures verdict.Fine? ==> Searching(apps, grey, black', stack, order') && black <= black' && name in black'
    decreases apps.Keys - grey
  {
    black', order' := black, order;
    if name !in apps {
      return UnknownDependency(name), black, order;
    }
    if name in grey {
      CycleOnStack(apps, stack, name);
      return DependencyCycle(name), black, order;
    }
    if name in black {
      return Fine, black, order;
    }
    ghost var stack' := stack + [name];
    Push(apps, stack, name);
    assert forall n :: n in grey + {name} <==> n in stack';
    var todo := apps[name].dependencies.Keys;
    while todo != {}
      invariant todo <= apps[name].dependencies.Keys
      invariant Searching(apps, grey + {name}, black', stack', order') && black <= black'
      invariant forall d <- apps[name].dependencies :: d in todo || (d in black' && d in apps && !apps[d].Scheduled())
      decreases |todo|
    {
      var dependency :| dependency in todo;
      todo := todo - {dependency};
      if dependency in apps && apps[dependency].Scheduled() {
        return ScheduledDependency(name, dependency), black, order;
      }
      verdict, black', order' := Visit(apps, dependency, grey + {name}, black', stack', order');
      if !verdict.Fine? {
        return;
      }
    }
    Finish(apps, order', name);
    verdict, black', order' := Fine, black' + {name}, order' + [name];
  }

  lemma Push(apps: Apps, stack: seq<string>, name: string)
    requires Walk(apps, stack) && (stack != [] ==> Edge(apps, stack[|stack| - 1], name))
    ensures Walk(apps, stack + [name])
  {
  }

  lemma Finish(apps: Apps, order: seq<string>, name: string)
    requires Finished(apps, order) && name !in order && Settled(apps, order, name)
    ensures Finished(apps, order + [name])
  {
    var longer := order + [name];
    forall i | 0 <= i < |longer| ensures Settled(apps, longer[..i], longer[i]) {
      assert longer[..i] == order[..i];
      assert i == |order| ==> longer[..i] == order;
    }
  }

  lemma CycleOnStack(apps: Apps, stack: seq<string>, name: string)
    requires Walk(apps, stack) && name in stack && Edge(apps, stack[|stack| - 1], name)
    ensures OnCycle(apps, name)
  {
    var i :| 0 <= i < |stack| && stack[i] == name;
    var path := stack[i..] + [name];
    forall k | 0 <= k < |path| - 1 ensures Edge(apps, path[k], path[k + 1]) {
      if k < |path| - 2 { assert Edge(apps, stack[i + k], stack[i + k + 1]); }
    }
    assert Walk(apps, path);
  }

  method ValidateDependencies(apps: Apps) returns (verdict: Verdict)
    ensures verdict.Fine? <==> Sound(apps)
    ensures Justified(apps, verdict)
  {
    var todo, black := apps.Keys, {};
    ghost var order: seq<string> := [];
    while todo != {}
      invariant todo <= apps.Keys
      invariant Searching(apps, {}, black, [], order)
      invariant apps.Keys - todo <= black
      decreases |todo|
    {
      var name :| name in todo;
      todo := todo - {name};
      verdict, black, order := Visit(apps, name, {}, black, [], order);
      if !verdict.Fine? {
        FaultRefutes(apps, verdict);
        return;
      }
    }
    verdict := Fine;
    FinishedSound(apps, order);
  }

  lemma FaultRefutes(apps: Apps, verdict: Verdict)
    requires Justified(apps, verdict) && !verdict.Fine?
    ensures !Sound(apps)
  {
  }

  function IndexOf(order: seq<string>, name: string): (i: nat)
    requires name in order
    ensures i < |order| && order[i] == name
  {
    if order[0] == name then 0 else 1 + IndexOf(order[1..], name)
  }

  ghost function RankIn(order: seq<string>): map<string, nat> {
    map n | n in order :: IndexOf(order, n)
  }

  lemma FinishedRanks(apps: Apps, order: seq<string>)
    requires Finished(apps, order) && (forall n <- apps :: n in order)
    ensures Ranked(apps, RankIn(order))
  {
    forall n, d | Edge(apps, n, d)
        ensures n in RankIn(order) && d in RankIn(order) && RankIn(order)[d] < RankIn(order)[n] {
      var i := IndexOf(order, n);
      assert Settled(apps, order[..i], order[i]) && d in order[..i];
      var j :| 0 <= j < i && order[j] == d;
      assert order[IndexOf(order, d)] == order[j];
    }
  }

  /** A rank leaves no room for a cycle: it falls along every walk. */
  lemma {:induction false} RankFalls(apps: Apps, rank: map<string, nat>, path: seq<string>)
    requires Ranked(apps, rank) && Walk(apps, path) && |path| >= 2
    ensures path[0] in rank && path[|path| - 1] in rank && rank[path[|path| - 1]] < rank[path[0]]
    decreases |path|
  {
    assert Edge(apps, path[0], path[1]);
    if |path| > 2 {
      assert Walk(apps, path[1..]) by {
        forall i | 0 <= i < |path[1..]| - 1 ensures Edge(apps, path[1..][i], path[1..][i + 1]) {
          assert Edge(apps, path[i + 1], path[i + 2]);
        }
      }
      RankFalls(apps, rank, path[1..]);
    }
  }

  lemma RankedAcyclic(apps: Apps, rank: map<string, nat>)
    requires Ranked(apps, rank)
    ensures Acyclic(apps)
  {
    forall n ensures !OnCycle(apps, n) {
      if OnCycle(apps, n) {
        var path: seq<string> :| |path| >= 2 && path[0] == n && path[|path| - 1] == n && Walk(apps, path);
        RankFalls(apps, rank, path);
        assert false;
      }
    }
  }

  lemma FinishedSound(apps: Apps, order: seq<string>)
    requires Finished(apps, order) && (forall n <- apps :: n in order)
    ensures Sound(apps)
  {
    forall n, d | Edge(apps, n, d) ensures d in apps && !apps[d].Scheduled() {
      var i := IndexOf(order, n);
      assert Settled(apps, order[..i], order[i]);
    }
    FinishedRanks(apps, order);
    RankedAcyclic(apps, RankIn(order));
  }

  // ------------------------------------------ no cycle leaves room for a rank

  /** A walk of any length that stays among `names`. */
  ghost predicate WalkIn(apps: Apps, names: set<string>, path: seq<string>) {
    Walk(apps, path) && forall i | 0 <= i < |path| :: path[i] in names
  }

  lemma {:induction false} Pigeonhole(names: set<string>, path: seq<string>)
    requires (forall i | 0 <= i < |path| :: path[i] in names) && |path| > |names|
    ensures exists i, j :: 0 <= i < j < |path| && path[i] == path[j]
    decreases |path|
  {
    var last := |path| - 1;
    if j :| 0 <= j < last && path[j] == path[last] {
    } else {
      Pigeonhole(names - {path[last]}, path[..last]);
    }
  }

  ghost predicate DependsWithin(apps: Apps, names: set<string>, n: string) {
    exists d <- names :: Edge(apps, n, d)
  }

  ghost predicate NoSink(apps: Apps, names: set<string>) {
    forall n {:trigger DependsWithin(apps, names, n)} :: n in names ==> DependsWithin(apps, names, n)
  }

  /** Without a sink there are walks of every length. */
  lemma {:induction false} LongWalk(apps: Apps, names: set<string>, length: nat) returns (path: seq<string>)
    requires names != {} && NoSink(apps, names)
    ensures |path| == length + 1 && WalkIn(apps, names, path)
  {
    if length == 0 {
      var n :| n in names;
      path := [n];
    } else {
      var shorter := LongWalk(apps, names, length - 1);
      assert DependsWithin(apps, names, shorter[length - 1]);
      var d :| d in names && Edge(apps, shorter[length - 1], d);
      path := shorter + [d];
      Push(apps, shorter, d);
    }
  }

  lemma LoopOnWalk(apps: Apps, path: seq<string>, i: nat, j: nat)
    requires Walk(apps, path) && i < j < |path| && path[i] == path[j]
    ensures OnCycle(apps, path[i])
  {
    var loop := path[i..j + 1];
    forall k | 0 <= k < |loop| - 1 ensures Edge(apps, loop[k], loop[k + 1]) {
      assert Edge(apps, path[i + k], path[i + k + 1]);
    }
    assert Walk(apps, loop) && loop[0] == path[i] && loop[|loop| - 1] == path[j];
  }

  lemma SinkExists(apps: Apps, names: set<string>) returns (n: string)
    requires Acyclic(apps) && names != {}
    ensures n in names && !DependsWithin(apps, names, n)
  {
    if NoSink(apps, names) {
      var path := LongWalk(apps, names, |names|);
      Pigeonhole(names, path);
      var i, j :| 0 <= i < j < |path| && path[i] == path[j];
      LoopOnWalk(apps, path, i, j);
      assert false;
    } else {
      n :| n in names && !DependsWithin(apps, names, n);
    }
  }

  /** A rank of all names but `names` that grows by putting a sink of `names` on top. */
  lemma {:induction false} RankRest(apps: Apps, names: set<string>, rank: map<string, nat>, top: nat)
    returns (full: map<string, nat>)
    requires Acyclic(apps) && Resolved(apps) && names <= apps.Keys && rank.Keys == apps.Keys - names
    requires forall n <- rank :: rank[n] < top
    requires forall n, d | n in rank && Edge(apps, n, d) :: d in rank && rank[d] < rank[n]
    ensures Ranked(apps, full)
    decreases |names|
  {
    if names == {} {
      full := rank;
    } else {
      var n := SinkExists(apps, names);
      full := RankRest(apps, names - {n}, rank[n := top], top + 1);
    }
  }

  /** The dependencies are sound exactly when all of them are known and continuous and
      the applications can be ranked. */
  lemma SoundIffRanked(apps: Apps)
    ensures Sound(apps) <==> Resolved(apps) && Continuous(apps) && exists rank: map<string, nat> :: Ranked(apps, rank)
  {
    if Sound(apps) {
      var rank := RankRest(apps, apps.Keys, map[], 0);
    }
    if rank: map<string, nat> :| Ranked(apps, rank) {
      RankedAcyclic(apps, rank);
    }
  }
}
