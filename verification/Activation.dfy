/** The virtual activation of a tick: which services are wanted because of the
    demand for others, and which are wanted as dependencies. */
module Activation {
  import opened Dependencies

  /** A chain of dependencies leads from `root` to `name`, all of them configured. */
  ghost predicate Chain(apps: Apps, root: string, name: string, path: seq<string>) {
    && |path| >= 1 && path[0] == root && path[|path| - 1] == name
    && (forall i | 0 <= i < |path| :: path[i] in apps)
    && Walk(apps, path)
  }

  ghost predicate Needed(apps: Apps, root: string, name: string) {
    exists path :: Chain(apps, root, name, path)
  }

  lemma NeededSelf(apps: Apps, name: string)
    requires name in apps
    ensures Needed(apps, name, name)
  {
    assert Chain(apps, name, name, [name]);
  }

  lemma NeededNext(apps: Apps, root: string, name: string, dependency: string)
    requires Needed(apps, root, name) && Edge(apps, name, dependency) && dependency in apps
    ensures Needed(apps, root, dependency)
  {
    var path :| Chain(apps, root, name, path);
    var longer := path + [dependency];
    forall i | 0 <= i < |longer| - 1 ensures Edge(apps, longer[i], longer[i + 1]) {
      if i < |path| - 1 { assert Edge(apps, path[i], path[i + 1]); }
    }
    assert Chain(apps, root, dependency, longer);
  }

  lemma NeededFirst(apps: Apps, root: string, first: string, name: string)
    requires root in apps && Edge(apps, root, first) && Needed(apps, first, name)
    ensures Needed(apps, root, name)
  {
    var path :| Chain(apps, first, name, path);
    var longer := [root] + path;
    forall i | 0 <= i < |longer| - 1 ensures Edge(apps, longer[i], longer[i + 1]) {
      if i > 0 { assert Edge(apps, path[i - 1], path[i]); }
    }
    assert Chain(apps, root, name, longer);
  }

  /** The dependencies of `name` were all followed. */
  ghost predicate Followed(apps: Apps, name: string, wanted: set<string>, required: set<string>) {
    name in apps && forall d <- apps[name].dependencies :: d in required && (d in apps ==> d in wanted)
  }

  ghost predicate Claimed(apps: Apps, names: set<string>, d: string) {
    exists n <- names :: Edge(apps, n, d)
  }

  /** The recursive `activate`; names on the way to `name` need not be finished. */
  method Activate(apps: Apps, name: string, wanted: set<string>, required: set<string>)
    returns (wanted': set<string>, required': set<string>)
    requires wanted <= apps.Keys
    ensures wanted <= wanted' <= apps.Keys && required <= required'
    ensures name in apps ==> name in wanted'
    ensures forall n <- wanted' - wanted :: Needed(apps, name, n) && Followed(apps, n, wanted', required')
    ensures forall d <- required' :: d in required || Claimed(apps, wanted' - wanted, d)
    decreases apps.Keys - wanted
  {
    wanted', required' := wanted, required;
    if name in wanted || name !in apps {
      return;
    }
    wanted' := wanted' + {name};
    NeededSelf(apps, name);
    var todo := apps[name].dependencies.Keys;
    while todo != {}
      invariant todo <= apps[name].dependencies.Keys
      invariant wanted + {name} <= wanted' <= apps.Keys && required <= required'
      invariant forall d <- apps[name].dependencies.Keys - todo :: d in required' && (d in apps ==> d in wanted')
      invariant forall n <- wanted' - wanted :: Needed(apps, name, n)
      invariant forall n <- wanted' - wanted :: n != name ==> Followed(apps, n, wanted', required')
      invariant forall d <- required' :: d in required || Claimed(apps, wanted' - wanted, d)
      decreases |todo|
    {
      var dependency :| dependency in todo;
      todo := todo - {dependency};
      ghost var before, claimed := wanted', required';
      required' := required' + {dependency};
      assert Edge(apps, name, dependency);
      wanted', required' := Activate(apps, dependency, wanted', required');
      forall n <- wanted' - wanted ensures Needed(apps, name, n) {
        if n !in before { NeededFirst(apps, name, dependency, n); }
      }
      forall n <- wanted' - wanted | n != name ensures Followed(apps, n, wanted', required') {
        if n in before { assert Followed(apps, n, before, claimed); }
      }
      forall d <- required' ensures d in required || Claimed(apps, wanted' - wanted, d) {
        assert d in claimed ==> d in required || Claimed(apps, before - wanted, d);
      }
    }
  }

  /** A set of services that contains everything it depends on. */
  ghost predicate Closed(apps: Apps, names: set<string>) {
    forall n <- names :: n in apps ==> forall d <- apps[n].dependencies :: d in apps ==> d in names
  }

  lemma {:induction false} ClosedHoldsChain(apps: Apps, names: set<string>, path: seq<string>, i: nat)
    requires Closed(apps, names) && i < |path| && path[0] in names && Walk(apps, path)
    requires forall k | 0 <= k < |path| :: path[k] in apps
    ensures path[i] in names
  {
    if i > 0 {
      ClosedHoldsChain(apps, names, path, i - 1);
      assert Edge(apps, path[i - 1], path[i]);
    }
  }

  /** What the activation of a set of roots has computed. */
  ghost predicate Activated(apps: Apps, roots: set<string>, wanted: set<string>, required: set<string>) {
    && (forall n :: n in wanted <==> exists root <- roots :: Needed(apps, root, n))
    && (forall d :: d in required <==> Claimed(apps, wanted, d))
  }

  lemma NothingActivated(apps: Apps)
    ensures Activated(apps, {}, {}, {})
  {
  }

  lemma ActivatedClosed(apps: Apps, roots: set<string>, wanted: set<string>, required: set<string>)
    requires Activated(apps, roots, wanted, required)
    ensures Closed(apps, wanted) && wanted <= apps.Keys
  {
    forall n <- wanted ensures n in apps {
      var root :| root in roots && Needed(apps, root, n);
      var path :| Chain(apps, root, n, path);
    }
    forall n <- wanted, d <- apps[n].dependencies | d in apps ensures d in wanted {
      var root :| root in roots && Needed(apps, root, n);
      assert Edge(apps, n, d);
      NeededNext(apps, root, n, d);
    }
  }

  /** Activating one more root computes exactly the services it can reach. */
  method ActivateRoot(apps: Apps, root: string, ghost roots: set<string>, wanted: set<string>, required: set<string>)
    returns (wanted': set<string>, required': set<string>)
    requires Activated(apps, roots, wanted, required)
    ensures Activated(apps, roots + {root}, wanted', required')
  {
    ActivatedClosed(apps, roots, wanted, required);
    wanted', required' := Activate(apps, root, wanted, required);
    assert forall n <- wanted :: Followed(apps, n, wanted', required') by {
      forall n <- wanted, d <- apps[n].dependencies ensures d in required' { assert Edge(apps, n, d); }
    }
    assert Closed(apps, wanted') by { forall n <- wanted' ensures Followed(apps, n, wanted', required') { } }
    forall n ensures n in wanted' <==> exists r <- roots + {root} :: Needed(apps, r, n) {
      if n in wanted' {
        if n in wanted { var r :| r in roots && Needed(apps, r, n); assert r in roots + {root}; } else {
          assert Needed(apps, root, n);
        }
      }
      if Needed(apps, root, n) {
        var path :| Chain(apps, root, n, path);
        ClosedHoldsChain(apps, wanted', path, |path| - 1);
      }
    }
    forall d ensures d in required' <==> Claimed(apps, wanted', d) {
      assert d in required' ==> d in required || Claimed(apps, wanted' - wanted, d);
      if Claimed(apps, wanted', d) {
        var n :| n in wanted' && Edge(apps, n, d);
        assert Followed(apps, n, wanted', required');
      }
    }
  }
}
