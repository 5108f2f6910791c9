/**
 * ActionFactoryManager: the list of job-action factories the GUI asks for
 * the actions it can offer on a job. Factories are objects the manager owns;
 * adding one hands it the manager's server, asking for factories by flags
 * keeps the list's order, and removing one schedules it for deletion.
 *
 * Both revisions share this code; the older one names the queries
 * getFactories and getInstance. The server is an opaque handle (a Server
 * pointer, None for NULL).
 */
module ActionFactories {
  import opened Wrappers
  import ListOps

  /**
   * JobActionFactory::Flags, as the set of bit positions it holds:
   * `(have & want) == want` is `want <= have`, and `a | b` is `a + b`.
   */
  type Flags = set<nat>

  /** A JobActionFactory, as the manager sees it. */
  class Factory {
    var flags: Flags
    var server: Option<nat>

    constructor (flags: Flags)
      ensures this.flags == flags && server == None
    {
      this.flags := flags;
      server := None;
    }
  }

  /** The factory's flags hold every requested bit. */
  predicate Offers(f: Factory, flags: Flags)
    reads f
  {
    flags <= f.flags
  }

  /** The factories, in order, whose flags hold every requested bit. */
  function Matching(fs: seq<Factory>, flags: Flags): seq<Factory>
    reads fs
  {
    if fs == [] then []
    else Matching(fs[..|fs| - 1], flags) + (if Offers(fs[|fs| - 1], flags) then [fs[|fs| - 1]] else [])
  }

  /** The query holds exactly the factories that offer every requested bit. */
  lemma {:induction false} MatchingMembers(fs: seq<Factory>, flags: Flags)
    ensures forall f :: f in Matching(fs, flags) <==> f in fs && Offers(f, flags)
  {
    if fs != [] {
      MatchingMembers(fs[..|fs| - 1], flags);
      assert fs == fs[..|fs| - 1] + [fs[|fs| - 1]];
    }
  }

  /** Asking for no bits returns every factory. */
  lemma {:induction false} MatchingNothing(fs: seq<Factory>)
    ensures Matching(fs, {}) == fs
  {
    if fs != [] {
      MatchingNothing(fs[..|fs| - 1]);
      assert fs == fs[..|fs| - 1] + [fs[|fs| - 1]];
    }
  }

  /** Narrowing a query by more bits is the query for all the bits at once. */
  lemma {:induction false} MatchingTwice(fs: seq<Factory>, a: Flags, b: Flags)
    ensures Matching(Matching(fs, a), b) == Matching(fs, a + b)
  {
    if fs != [] {
      var init, last := fs[..|fs| - 1], fs[|fs| - 1];
      MatchingTwice(init, a, b);
      var m := Matching(init, a);
      if Offers(last, a) {
        var ma := m + [last];
        assert ma[..|ma| - 1] == m;
      } else {
        assert Matching(fs, a) == m;
      }
    }
  }

  class Manager {
    var server: Option<nat>
    var factories: seq<Factory>
    /** The factories handed to deleteLater. */
    var deleted: set<Factory>

    /** The manager never holds a factory twice. */
    ghost predicate Valid()
      reads this
    {
      ListOps.Distinct(factories)
    }

    constructor ()
      ensures server == None && factories == [] && deleted == {} && Valid()
    {
      server, factories, deleted := None, [], {};
    }

    /** setServer: the server later factories are given. */
    method SetServer(s: Option<nat>)
      modifies this
      ensures server == s && factories == old(factories) && deleted == old(deleted)
    {
      server := s;
    }

    /** addFactory: a factory already held is ignored; a new one gets the server and goes last. */
    method AddFactory(f: Factory)
      requires Valid()
      modifies this, f
      ensures Valid() && server == old(server) && deleted == old(deleted) && f.flags == old(f.flags)
      ensures f in old(factories) ==> factories == old(factories) && f.server == old(f.server)
      ensures f !in old(factories) ==> factories == old(factories) + [f] && f.server == server
    {
      if f !in factories {
        f.server := server;
        factories := factories + [f];
      }
    }

    /** factories(flags), getFactories(flags) in the older revision. */
    method FactoriesWith(flags: Flags) returns (result: seq<Factory>)
      ensures result == Matching(factories, flags)
    {
      result := [];
      var i := 0;
      while i < |factories|
        invariant 0 <= i <= |factories|
        invariant result == Matching(factories[..i], flags)
      {
        assert factories[..i + 1][..i] == factories[..i];
        if flags <= factories[i].flags {
          result := result + [factories[i]];
        }
        i := i + 1;
      }
      assert factories[..i] == factories;
    }

    /** removeFactory: the factory leaves the list and is scheduled for deletion, held or not. */
    method RemoveFactory(f: Factory)
      requires Valid()
      modifies this
      ensures factories == ListOps.RemoveFirst(old(factories), f)
      ensures Valid() && f !in factories
      ensures forall g :: g in factories <==> g in old(factories) && g != f
      ensures deleted == old(deleted) + {f} && server == old(server)
    {
      ListOps.RemoveFirstDistinct(factories, f);
      factories := ListOps.RemoveFirst(factories, f);
      deleted := deleted + {f};
    }
  }

  /** The static m_instance pointer. */
  class Registry {
    var instance: Option<Manager>

    constructor ()
      ensures instance == None
    {
      instance := None;
    }

    /** instance(), getInstance() in the older revision: made on first use, the same one after. */
    method Instance() returns (m: Manager)
      modifies this
      ensures old(instance).Some? ==> m == old(instance).value && instance == old(instance)
      ensures old(instance).None? ==> fresh(m) && instance == Some(m)
      ensures old(instance).None? ==> m.factories == [] && m.server == None && m.Valid()
    {
      if instance.None? {
        m := new Manager();
        instance := Some(m);
      } else {
        m := instance.value;
      }
    }
  }
}
