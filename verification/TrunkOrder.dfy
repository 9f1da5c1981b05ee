/** The order in which a route's trunks are tried. */
module TrunkOrder {
  import opened PyStrings
  import opened ExtensionsConf

  /** No later link has the smaller key. */
  predicate InOrder(links: seq<RouteTrunk>) {
    forall i, j | 0 <= i < j < |links| :: !Earlier(links[j], links[i])
  }

  predicate HasKey(link: RouteTrunk, priority: int, name: string) {
    link.priority == priority && link.trunk.name == name
  }

  /** The links with this key, in order; only the active ones if `active` says so. */
  function WithKey(links: seq<RouteTrunk>, active: bool, priority: int, name: string): seq<RouteTrunk> {
    if links == [] then []
    else
      var last := links[|links| - 1];
      WithKey(links[..|links| - 1], active, priority, name)
      + (if HasKey(last, priority, name) && (active ==> last.trunk.active) then [last] else [])
  }

  lemma {:induction false} WithKeyJoins(a: seq<RouteTrunk>, b: seq<RouteTrunk>, priority: int, name: string)
    ensures WithKey(a + b, false, priority, name)
              == WithKey(a, false, priority, name) + WithKey(b, false, priority, name)
  {
    if b == [] {
      assert a + b == a;
    } else {
      assert (a + b)[..|a + b| - 1] == a + b[..|b| - 1];
      WithKeyJoins(a, b[..|b| - 1], priority, name);
    }
  }

  lemma EarlierOrders(a: RouteTrunk, b: RouteTrunk, c: RouteTrunk)
    ensures !Earlier(a, a)
    ensures Earlier(a, b) ==> !Earlier(b, a)
    ensures !Earlier(b, a) && !Earlier(c, b) ==> !Earlier(c, a)
    ensures Earlier(a, b) && !Earlier(c, b) ==> Earlier(a, c)
  {
    BelowIsTotal(a.trunk.name, a.trunk.name);
    BelowIsTotal(a.trunk.name, b.trunk.name);
    BelowIsTotal(b.trunk.name, c.trunk.name);
    BelowIsTotal(a.trunk.name, c.trunk.name);
    if Below(a.trunk.name, b.trunk.name) && Below(b.trunk.name, c.trunk.name) {
      BelowIsTransitive(a.trunk.name, b.trunk.name, c.trunk.name);
    }
  }

  lemma {:induction false} InsertKeepsOrder(link: RouteTrunk, sorted: seq<RouteTrunk>)
    requires InOrder(sorted)
    ensures InOrder(InsertLink(link, sorted))
    ensures forall l | l in InsertLink(link, sorted) :: l == link || l in sorted
  {
    if sorted == [] {
    } else if Earlier(link, sorted[0]) {
      forall j | 0 <= j < |sorted| ensures !Earlier(sorted[j], link) {
        EarlierOrders(link, sorted[0], sorted[j]);
        EarlierOrders(link, sorted[j], link);
        if j == 0 { EarlierOrders(link, sorted[0], link); }
      }
    } else {
      InsertKeepsOrder(link, sorted[1..]);
      var rest := InsertLink(link, sorted[1..]);
      forall j | 0 <= j < |rest| ensures !Earlier(rest[j], sorted[0]) {
        assert rest[j] in rest;
        if rest[j] != link {
          var k :| 0 <= k < |sorted[1..]| && sorted[1..][k] == rest[j];
          assert rest[j] == sorted[k + 1];
        }
      }
    }
  }

  /** Inserting puts the link behind those with the same key, and moves nobody else. */
  lemma {:induction false} InsertIsStable(link: RouteTrunk, sorted: seq<RouteTrunk>, priority: int, name: string)
    requires InOrder(sorted)
    ensures WithKey(InsertLink(link, sorted), false, priority, name)
              == WithKey(sorted, false, priority, name) + (if HasKey(link, priority, name) then [link] else [])
  {
    One(link, priority, name);
    if sorted == [] {
      assert InsertLink(link, sorted) == [link];
    } else if Earlier(link, sorted[0]) {
      WithKeyJoins([link], sorted, priority, name);
      if HasKey(link, priority, name) { NoneFollows(link, sorted, priority, name); }
    } else {
      InsertIsStable(link, sorted[1..], priority, name);
      assert [sorted[0]] + sorted[1..] == sorted;
      FirstStays(link, sorted[0], sorted[1..], InsertLink(link, sorted[1..]), priority, name);
    }
  }

  /** What holds of the links behind the first holds with the first before them. */
  lemma FirstStays(link: RouteTrunk, first: RouteTrunk, rest: seq<RouteTrunk>, into: seq<RouteTrunk>, priority: int,
                   name: string)
    requires WithKey(into, false, priority, name)
               == WithKey(rest, false, priority, name) + (if HasKey(link, priority, name) then [link] else [])
    ensures WithKey([first] + into, false, priority, name)
              == WithKey([first] + rest, false, priority, name) + (if HasKey(link, priority, name) then [link] else [])
  {
    SplitsFirst(first, rest, priority, name);
    SplitsFirst(first, into, priority, name);
    Regroups(if HasKey(first, priority, name) then [first] else [], WithKey(rest, false, priority, name),
             if HasKey(link, priority, name) then [link] else []);
  }

  lemma Regroups<T>(a: seq<T>, b: seq<T>, c: seq<T>)
    ensures a + (b + c) == (a + b) + c
  {
  }

  lemma SplitsFirst(first: RouteTrunk, rest: seq<RouteTrunk>, priority: int, name: string)
    ensures WithKey([first] + rest, false, priority, name)
              == (if HasKey(first, priority, name) then [first] else []) + WithKey(rest, false, priority, name)
  {
    WithKeyJoins([first], rest, priority, name);
    One(first, priority, name);
  }

  /** Nothing behind an earlier link has its key. */
  lemma NoneFollows(link: RouteTrunk, sorted: seq<RouteTrunk>, priority: int, name: string)
    requires InOrder(sorted) && sorted != [] && Earlier(link, sorted[0]) && HasKey(link, priority, name)
    ensures WithKey(sorted, false, priority, name) == []
  {
    forall j | 0 <= j < |sorted| ensures !HasKey(sorted[j], priority, name) {
      EarlierOrders(link, sorted[0], sorted[j]);
      EarlierOrders(sorted[j], sorted[j], sorted[j]);
      BelowIsTotal(name, name);
    }
    NoneWithKey(sorted, priority, name);
  }

  lemma One(link: RouteTrunk, priority: int, name: string)
    ensures WithKey([link], false, priority, name) == if HasKey(link, priority, name) then [link] else []
  {
    assert [link][..0] == [];
  }

  lemma {:induction false} NoneWithKey(links: seq<RouteTrunk>, priority: int, name: string)
    requires forall l | l in links :: !HasKey(l, priority, name)
    ensures WithKey(links, false, priority, name) == []
  {
    if links != [] { NoneWithKey(links[..|links| - 1], priority, name); }
  }

  /** The order spelled out: smaller priorities first, then smaller names. */
  lemma TrunksByPriority(links: seq<RouteTrunk>, i: nat, j: nat)
    requires i < j < |ActiveRouteTrunks(links)|
    ensures var a, b := ActiveRouteTrunks(links)[i], ActiveRouteTrunks(links)[j];
            a.priority < b.priority || (a.priority == b.priority && (a.trunk.name == b.trunk.name
                                                                     || Below(a.trunk.name, b.trunk.name)))
  {
    TrunksAreSorted(links);
    var a, b := ActiveRouteTrunks(links)[i], ActiveRouteTrunks(links)[j];
    assert !Earlier(b, a);
    BelowIsTotal(a.trunk.name, b.trunk.name);
  }

  /** Exactly the active links are tried. */
  lemma {:induction false} TrunksAreActive(links: seq<RouteTrunk>)
    ensures forall l :: l in ActiveRouteTrunks(links) <==> l in links && l.trunk.active
  {
    if links != [] {
      var init, last := links[..|links| - 1], links[|links| - 1];
      TrunksAreActive(init);
      InsertHolds(last, ActiveRouteTrunks(init));
      assert links == init + [last];
    }
  }

  lemma {:induction false} InsertHolds(link: RouteTrunk, sorted: seq<RouteTrunk>)
    ensures forall l :: l in InsertLink(link, sorted) <==> l == link || l in sorted
  {
    if sorted != [] && !Earlier(link, sorted[0]) {
      InsertHolds(link, sorted[1..]);
      assert sorted == [sorted[0]] + sorted[1..];
    }
  }

  /** The trunks are tried in the order of priority, then name; exactly the active links are tried; and
      links that tie keep the order in which the route lists them. */
  lemma {:induction false} TrunksAreSorted(links: seq<RouteTrunk>)
    ensures InOrder(ActiveRouteTrunks(links))
    ensures forall priority, name ::
              WithKey(ActiveRouteTrunks(links), false, priority, name) == WithKey(links, true, priority, name)
  {
    if links != [] {
      var init := links[..|links| - 1];
      var last := links[|links| - 1];
      TrunksAreSorted(init);
      if last.trunk.active {
        InsertKeepsOrder(last, ActiveRouteTrunks(init));
        forall priority, name
          ensures WithKey(ActiveRouteTrunks(links), false, priority, name) == WithKey(links, true, priority, name)
        {
          InsertIsStable(last, ActiveRouteTrunks(init), priority, name);
        }
      }
    }
  }
}
