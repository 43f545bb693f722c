/** Names map injectively to slugs, and so to everything a slug names, over every sequence of store calls. */
module Identity {
  import opened Wrappers
  import opened Slugs
  import opened Specs
  import opened Paths
  import opened Tables
  import opened Images

  datatype Call = Register(config: AppConfig) | Store(name: string, spec: WorkloadSpec)

  /** One call, with no effect when the store refuses it. */
  function Take(t: Tables, call: Call): Tables {
    var u := match call
             case Register(config) => RegisterApp(t, config)
             case Store(name, spec) => PutSpec(t, name, Slug(name), spec);
    if u.Some? then u.value else t
  }

  function TakeAll(t: Tables, calls: seq<Call>): Tables {
    if calls == [] then t else Take(TakeAll(t, calls[..|calls| - 1]), calls[|calls| - 1])
  }

  /**
   * What a caller can look up before storing a spec: the name has a slug, and no other registered name
   * has it.
   */
  ghost predicate Free(t: Tables, name: string) {
    Slug(name) != "" && forall n | n in t.configs && n != name :: Slug(n) != Slug(name)
  }

  /** A spec the store accepts is of a free name. Registering is always fine. */
  ghost predicate Allowed(t: Tables, call: Call) {
    call.Store? && !SlugTaken(t, call.name, Slug(call.name)) ==> Free(t, call.name)
  }

  ghost predicate AllAllowed(t: Tables, calls: seq<Call>) {
    forall i | 0 <= i < |calls| :: Allowed(TakeAll(t, calls[..i]), calls[i])
  }

  /** A name somebody registered or deployed. */
  predicate Taken(t: Tables, name: string) {
    name in t.configs || name in t.apps
  }

  /** Different names have different, non-empty slugs. */
  ghost predicate Apart(t: Tables) {
    && (forall n | Taken(t, n) :: Slug(n) != "")
    && (forall n, m | Taken(t, n) && Taken(t, m) && Slug(n) == Slug(m) :: n == m)
  }

  /** Rows are stored under their own name and slug, and a registered checkout is an absolute path. */
  ghost predicate Filed(t: Tables) {
    && (forall n | n in t.apps :: t.apps[n].slug == Slug(n))
    && (forall n | n in t.configs :: t.configs[n].name == n && "/" <= t.configs[n].repoPath)
  }

  ghost predicate Distinct(t: Tables) {
    Apart(t) && Filed(t)
  }

  /** Registered names are free, so deploys of registered names are always allowed. */
  lemma RegisteredIsFree(t: Tables, name: string)
    requires Distinct(t) && name in t.configs
    ensures Free(t, name)
  {
    assert Taken(t, name);
  }

  /** Registering a taken name again replaces what it was registered with, and nothing else. */
  lemma RegisteringAgain(t: Tables, config: AppConfig)
    requires Distinct(t) && Taken(t, config.name) && "/" <= config.repoPath
    ensures RegisterApp(t, config) == Some(t.(configs := t.configs[config.name := config]))
  {
    assert forall other | other in t.configs.Keys + t.apps.Keys :: Taken(t, other);
  }

  /** A name is refused only for having no slug of its own, a path only for not being absolute. */
  lemma RefusedFor(t: Tables, config: AppConfig)
    requires RegisterApp(t, config).None? && "/" <= config.repoPath
    ensures Slug(config.name) == "" || exists n | Taken(t, n) :: n != config.name && Slug(n) == Slug(config.name)
  {
    if NameCollides(t, config.name) {
      var n :| n in t.configs.Keys + t.apps.Keys && n != config.name && Slug(n) == Slug(config.name);
      assert Taken(t, n);
    }
  }

  lemma RegisterKeepsDistinct(t: Tables, config: AppConfig)
    requires Distinct(t)
    ensures Distinct(Take(t, Register(config)))
  {
    var u := Take(t, Register(config));
    if RegisterApp(t, config).Some? {
      forall n, m | Taken(u, n) && Taken(u, m) && Slug(n) == Slug(m) ensures n == m {
        var names := t.configs.Keys + t.apps.Keys;
        assert n in names || n == config.name;
        assert m in names || m == config.name;
      }
    }
  }

  /** An accepted spec keeps names apart if and only if its name is free. */
  lemma StoreKeepsDistinct(t: Tables, name: string, spec: WorkloadSpec)
    requires Distinct(t) && PutSpec(t, name, Slug(name), spec).Some?
    ensures Distinct(PutSpec(t, name, Slug(name), spec).value) <==> Free(t, name)
  {
    var u := PutSpec(t, name, Slug(name), spec).value;
    if Free(t, name) {
      forall n, m | Taken(u, n) && Taken(u, m) && Slug(n) == Slug(m) ensures n == m {
        assert n == name || Taken(t, n);
        assert m == name || Taken(t, m);
      }
    } else if Slug(name) == "" {
      assert Taken(u, name);
    } else {
      var n :| n in t.configs && n != name && Slug(n) == Slug(name);
      assert Taken(u, n) && Taken(u, name);
    }
  }

  /** One call keeps names apart if and only if it is allowed. */
  lemma TakeKeepsDistinct(t: Tables, call: Call)
    requires Distinct(t)
    ensures Distinct(Take(t, call)) <==> Allowed(t, call)
  {
    match call {
      case Register(config) => RegisterKeepsDistinct(t, config);
      case Store(name, spec) =>
        if PutSpec(t, name, Slug(name), spec).Some? {
          StoreKeepsDistinct(t, name, spec);
        }
    }
  }

  /** Names are never given up, so two that clash clash ever after. */
  lemma ClashesStay(t: Tables, call: Call)
    requires Filed(t)
    ensures Filed(Take(t, call)) && (!Apart(t) ==> !Apart(Take(t, call)))
  {
    var u := Take(t, call);
    assert forall n | Taken(t, n) :: Taken(u, n);
  }

  lemma {:induction false} StaysFiled(t: Tables, calls: seq<Call>)
    requires Filed(t)
    ensures Filed(TakeAll(t, calls))
  {
    if calls != [] {
      StaysFiled(t, calls[..|calls| - 1]);
      ClashesStay(TakeAll(t, calls[..|calls| - 1]), calls[|calls| - 1]);
    }
  }

  lemma AllowedFront(t: Tables, calls: seq<Call>)
    requires calls != []
    ensures var front := calls[..|calls| - 1];
            AllAllowed(t, calls) <==> AllAllowed(t, front) && Allowed(TakeAll(t, front), calls[|calls| - 1])
  {
    hide Allowed;
    hide TakeAll;
    var front := calls[..|calls| - 1];
    assert forall i | 0 <= i < |front| :: front[..i] == calls[..i] && front[i] == calls[i];
    assert calls[..|front|] == front;
  }

  /**
   * Over every sequence of registrations and deploys: names are kept apart if and only if every call
   * is allowed.
   */
  lemma {:induction false} NamesStayDistinct(t: Tables, calls: seq<Call>)
    requires Distinct(t)
    ensures Distinct(TakeAll(t, calls)) <==> AllAllowed(t, calls)
  {
    hide Apart;
    hide Filed;
    hide Take;
    hide Allowed;
    if calls != [] {
      var front, last := calls[..|calls| - 1], calls[|calls| - 1];
      NamesStayDistinct(t, front);
      StaysFiled(t, front);
      AllowedFront(t, calls);
      if Distinct(TakeAll(t, front)) {
        TakeKeepsDistinct(TakeAll(t, front), last);
      } else {
        ClashesStay(TakeAll(t, front), last);
      }
    }
  }

  /** So no two apps share a unit file, a fragment or an image repository. */
  lemma DistinctPlaces(t: Tables, n: string, m: string)
    requires Distinct(t) && Taken(t, n) && Taken(t, m) && n != m
    ensures UnitFile(Slug(n)) != UnitFile(Slug(m)) && Fragment(Slug(n)) != Fragment(Slug(m))
    ensures forall a, b :: ImageReference(Slug(n), a) != ImageReference(Slug(m), b)
  {
    UnitNameInjective(Slug(n), Slug(m));
    SlugIsWellFormed(n);
    SlugIsWellFormed(m);
    forall a, b ensures ImageReference(Slug(n), a) != ImageReference(Slug(m), b) {
      if ImageReference(Slug(n), a) == ImageReference(Slug(m), b) {
        ImageIsExact(Slug(n), a, Slug(m), b);
      }
    }
  }

  /**
   * Deploying a name that was never registered can take a slug that a registered app is about to
   * use: the unique slug column only looks at deployed apps.
   */
  lemma UnregisteredBreaksIt() returns (t: Tables, calls: seq<Call>)
    ensures Distinct(t) && !Distinct(TakeAll(t, calls))
  {
    var spec := WorkloadSpec("A", "", None, [], [], [], [], None, None, No, None, []);
    t := Tables(map[], 1, map[], [], 1, map[], map["a" := AppConfig("a", "/srv/a", None)]);
    calls := [Store("A", spec)];
    SlugOfLetter();
    assert calls[..0] == [] && TakeAll(t, []) == t;
    var u := Take(t, calls[0]);
    assert TakeAll(t, calls) == u;
    assert Taken(u, "a") && Taken(u, "A");
  }
}
