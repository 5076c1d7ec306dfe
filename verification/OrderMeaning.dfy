/** What _ordered_ids returns, said about the manifests alone. */
module OrderMeaning {
  import opened Ordering
  import opened PluginGraph
  import opened PluginOrder

  ghost predicate Active(listing: seq<Manifest>, m: Manifest) {
    m in listing && m.enabled
  }

  /** No enabled plugin names a capability twice, and no two name the same. */
  ghost predicate Unambiguous(listing: seq<Manifest>) {
    && (forall m, i, j | Active(listing, m) && 0 <= i < j < |m.offers| :: m.offers[i] != m.offers[j])
    && (forall m, n, c | Active(listing, m) && Active(listing, n) && c in m.offers && c in n.offers :: m == n)
  }

  /** An enabled plugin requires a capability that is not there and that no enabled plugin provides. */
  ghost predicate Lacking(listing: seq<Manifest>, services: set<string>) {
    exists m, c :: Active(listing, m) && Needed(services, m, c) && Unprovided(listing, c)
  }

  ghost predicate Unprovided(listing: seq<Manifest>, c: string) {
    forall n | Active(listing, n) :: c !in n.offers
  }

  ghost predicate Provides(listing: seq<Manifest>, y: string, c: string) {
    exists n :: Active(listing, n) && n.id == y && c in n.offers
  }

  /** x requires something that is not there and that y provides. */
  ghost predicate Waits(listing: seq<Manifest>, services: set<string>, x: string, y: string) {
    exists m, c :: Active(listing, m) && m.id == x && Needed(services, m, c) && Provides(listing, y, c)
  }

  /** Each waits for the next, and the last for the first. */
  ghost predicate Circular(listing: seq<Manifest>, services: set<string>, p: seq<string>) {
    && p != [] && (forall i | 0 < i < |p| :: Waits(listing, services, p[i - 1], p[i]))
    && Waits(listing, services, p[|p| - 1], p[0])
  }

  /** Every enabled plugin once, after everything it waits for. */
  ghost predicate StartOrder(listing: seq<Manifest>, services: set<string>, o: seq<string>) {
    && Distinct(o) && (forall x :: x in o <==> exists m :: Active(listing, m) && m.id == x)
    && forall k, y | 0 <= k < |o| && Waits(listing, services, o[k], y) :: exists j :: 0 <= j < k && o[j] == y
  }

  lemma {:induction false} EnabledAre(listing: seq<Manifest>)
    ensures forall m :: m in Enabled(listing) <==> Active(listing, m)
  {
    if listing != [] {
      EnabledAre(listing[..|listing| - 1]);
      assert listing == listing[..|listing| - 1] + [listing[|listing| - 1]];
    }
  }

  lemma UnambiguousIff(listing: seq<Manifest>)
    requires DistinctIds(listing)
    ensures Distinct(Claims(Enabled(listing))) <==> Unambiguous(listing)
    ensures Distinct(Claims(Enabled(listing))) <==> ProvidedOnce(Enabled(listing))
  {
    EnabledAre(listing);
    EnabledDistinct(listing);
    DistinctClaimsIff(Enabled(listing));
    hide Claims, Enabled;
  }

  lemma LackingIff(listing: seq<Manifest>, services: set<string>)
    ensures Missing(Enabled(listing), services) <==> Lacking(listing, services)
  {
    hide Enabled, OwnerOf, Needed;
    var ms := Enabled(listing);
    EnabledAre(listing);
    forall c ensures OwnerOf(ms, c).None? <==> Unprovided(listing, c) {
      OwnerIs(ms, c);
    }
  }

  /** An edge of the graph is a plugin waiting for another. */
  lemma EdgesAre(listing: seq<Manifest>, services: set<string>, deps: Graph)
    requires DistinctIds(listing) && ProvidedOnce(Enabled(listing)) && IsGraph(Enabled(listing), services, deps)
    ensures forall x :: x in deps <==> exists m :: Active(listing, m) && m.id == x
    ensures forall x, y :: (x in deps && y in deps[x]) <==> Waits(listing, services, x, y)
  {
    hide Enabled, DistinctIds, Distinct;
    var ms := Enabled(listing);
    EnabledAre(listing);
    EnabledDistinct(listing);
    forall x, y ensures (x in deps && y in deps[x]) <==> Waits(listing, services, x, y) {
      if x in deps && y in deps[x] {
        var m :| m in ms && m.id == x;
        EdgeWaits(listing, services, m, y);
      }
      if Waits(listing, services, x, y) {
        var m, c :| Active(listing, m) && m.id == x && Needed(services, m, c) && Provides(listing, y, c);
        WaitIsEdge(listing, services, m, c, y);
      }
    }
  }

  lemma EdgeWaits(listing: seq<Manifest>, services: set<string>, m: Manifest, y: string)
    requires y in Owners(Enabled(listing), services, m) && Active(listing, m)
    ensures Waits(listing, services, m.id, y)
  {
    hide Enabled, OwnerOf;
    EnabledAre(listing);
    var c :| c in m.requirements && c !in services && OwnerOf(Enabled(listing), c).Some?
             && OwnerOf(Enabled(listing), c).value == y;
    OwnerIs(Enabled(listing), c);
    assert Needed(services, m, c) && Provides(listing, y, c);
  }

  lemma WaitIsEdge(listing: seq<Manifest>, services: set<string>, m: Manifest, c: string, y: string)
    requires ProvidedOnce(Enabled(listing))
    requires Active(listing, m) && Needed(services, m, c) && Provides(listing, y, c)
    ensures y in Owners(Enabled(listing), services, m)
  {
    hide Enabled, OwnerOf, Distinct;
    EnabledAre(listing);
    OwnerIs(Enabled(listing), c);
    var n :| Active(listing, n) && n.id == y && c in n.offers;
    assert n in Enabled(listing);
    var o :| o in Enabled(listing) && c in o.offers && o.id == OwnerOf(Enabled(listing), c).value;
    assert o == n;
  }

  lemma CyclesAre(listing: seq<Manifest>, services: set<string>, deps: Graph)
    requires forall x, y :: (x in deps && y in deps[x]) <==> Waits(listing, services, x, y)
    ensures HasCycle(deps) <==> exists p :: Circular(listing, services, p)
  {
    hide Waits;
    if p :| IsCycle(deps, p) {
      forall i | 0 < i < |p| ensures Waits(listing, services, p[i - 1], p[i]) {
        assert Edge(deps, p[i - 1], p[i]);
      }
      assert Circular(listing, services, p);
    }
    if p :| Circular(listing, services, p) {
      forall i | 0 <= i < |p| ensures p[i] in deps {
        if i < |p| - 1 {
          assert Waits(listing, services, p[i + 1 - 1], p[i + 1]);
        }
      }
      assert IsCycle(deps, p);
    }
  }

  lemma OrdersAre(listing: seq<Manifest>, services: set<string>, deps: Graph, o: seq<string>)
    requires forall x :: x in deps <==> exists m :: Active(listing, m) && m.id == x
    requires forall x, y :: (x in deps && y in deps[x]) <==> Waits(listing, services, x, y)
    ensures IsOrder(deps, o) <==> StartOrder(listing, services, o)
  {
    hide Waits, Active, Distinct;
    if IsOrder(deps, o) {
      forall x ensures x in o <==> exists m :: Active(listing, m) && m.id == x {
        assert x in o <==> x in Elements(o);
      }
      forall k, y | 0 <= k < |o| && Waits(listing, services, o[k], y) ensures exists j :: 0 <= j < k && o[j] == y {
        assert y in Elements(o[..k]);
      }
    }
    if StartOrder(listing, services, o) {
      forall x ensures x in Elements(o) <==> x in deps {
      }
      forall k | 0 <= k < |o| ensures o[k] in deps && deps[o[k]] <= Elements(o[..k]) {
        assert o[k] in o;
        forall y | y in deps[o[k]] ensures y in Elements(o[..k]) {
          var j :| 0 <= j < k && o[j] == y;
          assert o[..k][j] == y;
        }
      }
    }
  }

  /** MAIN RESULT. _ordered_ids fails because of a capability provided twice, then because of one that is missing, then
      exactly when enabled plugins wait for one another in a circle; otherwise its order is the least, plugin by plugin,
      of the orders in which every enabled plugin comes after those it waits for. */
  lemma OrderingMeans(listing: seq<Manifest>, services: set<string>, r: Outcome)
    requires DistinctIds(listing) && OrderingOf(listing, services, r)
    ensures r == Failed(DuplicateCapability) <==> !Unambiguous(listing)
    ensures r == Failed(MissingCapability) <==> Unambiguous(listing) && Lacking(listing, services)
    ensures r.Failed? && r.error.DependencyCycle?
            <==> Unambiguous(listing) && !Lacking(listing, services) && exists p :: Circular(listing, services, p)
    ensures r.Ordered? ==>
              StartOrder(listing, services, r.order)
              && forall o | StartOrder(listing, services, o) :: LexLeq(r.order, o)
  {
    hide Unambiguous, Lacking, Enabled, Claims, Missing, IsGraph, Distinct, ProvidedOnce, Circular, StartOrder,
         HasCycle, IsOrder, LexLeq, DistinctIds, IsGreatestStuck, Closed, Waits, Active;
    UnambiguousIff(listing);
    LackingIff(listing, services);
    if Unambiguous(listing) && !Lacking(listing, services) {
      var deps := GraphOf(listing, services, r);
      EdgesAre(listing, services, deps);
      CyclesAre(listing, services, deps);
      forall o ensures IsOrder(deps, o) <==> StartOrder(listing, services, o) {
        OrdersAre(listing, services, deps, o);
      }
    }
  }
}
