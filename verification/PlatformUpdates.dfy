/** The two writing calls on services: storage, which recomputes the summaries, and resources, which does not
    (mock-server/app/store/json_store.py). */
module PlatformUpdates {
  import opened Wrappers
  import opened PlatformTree
  import opened PlatformLaws
  import opened PlatformStore

  datatype UpdateResult = ServiceNotFound | ChildServiceTypeNotFound | Updated

  function OrElse(o: Option<real>, x: real): real { if o.Some? then o.value else x }

  /** What an update asks for; what is None stays as it is. */
  datatype Change = Storage(data: Option<real>, log: Option<real>) | Resources(cpu: Option<real>, memory: Option<real>)

  function Changed(u: Unit, c: Change): Unit
  {
    match c
    case Storage(data, log) =>
      u.(data := u.data.(size := OrElse(data, u.data.size)), log := u.log.(size := OrElse(log, u.log.size)))
    case Resources(cpu, memory) => u.(cpu := OrElse(cpu, u.cpu), memory := OrElse(memory, u.memory))
  }

  /** The second unit is the first one but for the fields asked for. */
  predicate AsAsked(u: Unit, v: Unit, c: Change)
  {
    match c
    case Storage(data, log) =>
      && v == u.(data := v.data, log := v.log) && v.data.disk == u.data.disk && v.log.disk == u.log.disk
      && (if data.Some? then v.data.size == data.value else v.data.size == u.data.size)
      && (if log.Some? then v.log.size == log.value else v.log.size == u.log.size)
    case Resources(cpu, memory) =>
      && v == u.(cpu := v.cpu, memory := v.memory)
      && (if cpu.Some? then v.cpu == cpu.value else v.cpu == u.cpu)
      && (if memory.Some? then v.memory == memory.value else v.memory == u.memory)
  }

  function UnitsChanged(units: seq<Unit>, c: Change): seq<Unit>
  {
    seq(|units|, k requires 0 <= k < |units| => Changed(units[k], c))
  }

  function ChildChanged(child: Child, kind: string, c: Change): Child
  {
    if child.kind == kind then child.(units := UnitsChanged(child.units, c)) else child
  }

  function ServiceChanged(s: Service, name: string, kind: string, c: Change): Service
  {
    if s.name != name then s
    else s.(children := seq(|s.children|, j requires 0 <= j < |s.children| => ChildChanged(s.children[j], kind, c)))
  }

  /** Every unit of the service's children of this kind has the new sizes, and nothing else is different. */
  function ServicesChanged(services: seq<Service>, name: string, kind: string, c: Change): seq<Service>
  {
    seq(|services|, i requires 0 <= i < |services| => ServiceChanged(services[i], name, kind, c))
  }

  lemma ChangedAsAsked(u: Unit, c: Change)
    ensures AsAsked(u, Changed(u, c), c)
  {
  }

  /** Unit by unit: those of the service's children of this kind are as asked, and the others as they were. */
  lemma EachUnit(services: seq<Service>, name: string, kind: string, c: Change, i: nat, j: nat, k: nat)
    requires i < |services| && j < |services[i].children| && k < |services[i].children[j].units|
    ensures var r := ServicesChanged(services, name, kind, c);
            && |r| == |services| && |r[i].children| == |services[i].children|
            && r[i] == services[i].(children := r[i].children)
            && r[i].children[j].kind == services[i].children[j].kind
            && |r[i].children[j].units| == |services[i].children[j].units|
            && var u, v := services[i].children[j].units[k], r[i].children[j].units[k];
               if services[i].name == name && services[i].children[j].kind == kind then AsAsked(u, v, c) else v == u
  {
    hide Changed, AsAsked;
    ChangedAsAsked(services[i].children[j].units[k], c);
  }

  predicate HasKind(s: Service, kind: string) { exists j :: 0 <= j < |s.children| && s.children[j].kind == kind }

  method ChangeUnits(units: seq<Unit>, c: Change) returns (r: seq<Unit>)
    ensures r == UnitsChanged(units, c)
  {
    r := units;
    for k := 0 to |units|
      invariant |r| == |units| && forall i :: 0 <= i < |units| ==>
                          r[i] == if i < k then Changed(units[i], c) else units[i]
    {
      var u := r[k];
      match c {
        case Storage(data, log) =>
          if data.Some? {
            u := u.(data := u.data.(size := data.value));
          }
          if log.Some? {
            u := u.(log := u.log.(size := log.value));
          }
        case Resources(cpu, memory) =>
          if cpu.Some? {
            u := u.(cpu := cpu.value);
          }
          if memory.Some? {
            u := u.(memory := memory.value);
          }
      }
      r := r[k := u];
    }
  }

  method ChangeChildren(s: Service, kind: string, c: Change) returns (r: Service)
    ensures r == ServiceChanged(s, s.name, kind, c)
  {
    var children := s.children;
    for j := 0 to |children|
      invariant |children| == |s.children|
      invariant forall i :: 0 <= i < |children| ==>
                              children[i] == if i < j then ChildChanged(s.children[i], kind, c) else s.children[i]
    {
      if children[j].kind == kind {
        var units := ChangeUnits(children[j].units, c);
        children := children[j := children[j].(units := units)];
      }
    }
    r := s.(children := children);
  }

  method FindService(services: seq<Service>, name: string) returns (i: nat)
    ensures i <= |services| && (i < |services| ==> services[i].name == name)
    ensures forall j :: 0 <= j < i ==> services[j].name != name
  {
    i := 0;
    while i < |services| && services[i].name != name
      invariant i <= |services| && forall j :: 0 <= j < i ==> services[j].name != name
    {
      i := i + 1;
    }
  }

  /** The part both calls share: find the service and its children of the kind, and change their units. */
  method ChangeService(store: Store, name: string, kind: string, c: Change) returns (r: UpdateResult)
    requires WellFormed(store.T())
    modifies store`services
    ensures r.ServiceNotFound? <==> forall i :: 0 <= i < |old(store.services)| ==> old(store.services)[i].name != name
    ensures r.ChildServiceTypeNotFound? <==>
              exists i :: 0 <= i < |old(store.services)| && old(store.services)[i].name == name
                          && !HasKind(old(store.services)[i], kind)
    ensures store.services == if r.Updated? then ServicesChanged(old(store.services), name, kind, c)
                              else old(store.services)
  {
    var i := FindService(store.services, name);
    if i == |store.services| {
      return ServiceNotFound;
    }
    var service := store.services[i];
    assert forall j :: 0 <= j < |store.services| && store.services[j].name == name ==> j == i;
    if forall j :: 0 <= j < |service.children| ==> service.children[j].kind != kind {
      return ChildServiceTypeNotFound;
    }
    service := ChangeChildren(service, kind, c);
    store.services := store.services[i := service];
    assert store.services == ServicesChanged(old(store.services), name, kind, c);
    r := Updated;
  }

  /** `update_service_storage`: the summaries agree with the tree afterwards, whatever they were before. */
  method UpdateServiceStorage(store: Store, name: string, kind: string, data: Option<real>, log: Option<real>)
    returns (r: UpdateResult)
    requires WellFormed(store.T())
    modifies store
    ensures WellFormed(store.T())
    ensures !r.Updated? ==> store.T() == old(store.T())
    ensures r.Updated? ==> Agrees(store.T()) && SameTree(old(store.T()).(services := store.services), store.T())
                           && store.services == ServicesChanged(old(store.services), name, kind, Storage(data, log))
    ensures Agrees(old(store.T())) ==> Agrees(store.T())
  {
    hide WellFormed, Agrees, SameTree, Refreshed, ServicesChanged, HasKind;
    ghost var before := store.T();
    r := ChangeService(store, name, kind, Storage(data, log));
    if r.Updated? {
      ChangeKeepsForm(before, name, kind, Storage(data, log));
      ServicesSurvive(before, store.services);
      store.RefreshPlatformAggregates();
    }
  }

  lemma ServicesSurvive(t: Platform, services: seq<Service>)
    ensures forall t' :: SameTree(t.(services := services), t') ==> t'.services == services
  {
  }

  /** `update_service_resources`, which leaves the summaries alone. */
  method UpdateServiceResources(store: Store, name: string, kind: string, cpu: Option<real>, memory: Option<real>)
    returns (r: UpdateResult)
    requires WellFormed(store.T())
    modifies store`services
    ensures WellFormed(store.T())
    ensures !r.Updated? ==> store.T() == old(store.T())
    ensures r.Updated? ==>
              store.T() == old(store.T()).(services := ServicesChanged(old(store.services), name, kind,
                                                                       Resources(cpu, memory)))
  {
    ghost var before := store.T();
    r := ChangeService(store, name, kind, Resources(cpu, memory));
    if r.Updated? {
      ChangeKeepsForm(before, name, kind, Resources(cpu, memory));
    }
  }

  // ---------------------------------------------------------------- what a change keeps

  /** The same unit as far as its place is concerned. */
  predicate SamePlace(u: Unit, v: Unit) { u.host == v.host && u.data.disk == v.data.disk && u.log.disk == v.log.disk }

  predicate SamePlacesInOrder(us: seq<Unit>, vs: seq<Unit>)
  {
    |us| == |vs| && forall k :: 0 <= k < |us| ==> SamePlace(us[k], vs[k])
  }

  lemma {:induction false} ChildrenKeepPlaces(a: seq<Child>, b: seq<Child>, kind: string, c: Change)
    requires |a| == |b| && forall j :: 0 <= j < |a| ==> b[j] == ChildChanged(a[j], kind, c)
    ensures SamePlacesInOrder(UnitsOfChildren(a), UnitsOfChildren(b))
  {
    hide ChildChanged, SamePlacesInOrder;
    var n := |a| - 1;
    if a == [] {
      NoPlaces();
    } else {
      ChildrenKeepPlaces(a[..n], b[..n], kind, c);
      ChildKeepsPlaces(a[n], kind, c);
      PlacesJoin(UnitsOfChildren(a[..n]), UnitsOfChildren(b[..n]), a[n].units, b[n].units);
    }
  }

  lemma NoPlaces()
    ensures SamePlacesInOrder([], [])
  {
  }

  lemma ChildKeepsPlaces(child: Child, kind: string, c: Change)
    ensures SamePlacesInOrder(child.units, ChildChanged(child, kind, c).units)
  {
  }

  lemma PlacesJoin(us: seq<Unit>, vs: seq<Unit>, more: seq<Unit>, more': seq<Unit>)
    requires SamePlacesInOrder(us, vs) && SamePlacesInOrder(more, more')
    ensures SamePlacesInOrder(us + more, vs + more')
  {
  }

  lemma {:induction false} ServicesKeepPlaces(services: seq<Service>, name: string, kind: string, c: Change)
    ensures SamePlacesInOrder(UnitsOf(services), UnitsOf(ServicesChanged(services, name, kind, c)))
  {
    if services == [] {
    } else {
      hide ChildChanged, ServiceChanged;
      var n := |services| - 1;
      ServicesKeepPlaces(services[..n], name, kind, c);
      assert ServicesChanged(services, name, kind, c)[..n] == ServicesChanged(services[..n], name, kind, c);
      ServiceKeepsPlaces(services[n], name, kind, c);
    }
  }

  lemma ServiceKeepsPlaces(s: Service, name: string, kind: string, c: Change)
    ensures SamePlacesInOrder(UnitsOfChildren(s.children), UnitsOfChildren(ServiceChanged(s, name, kind, c).children))
  {
    if s.name == name {
      ChildrenKeepPlaces(s.children, ServiceChanged(s, name, kind, c).children, kind, c);
    }
  }

  lemma ChangeKeepsForm(t: Platform, name: string, kind: string, c: Change)
    requires WellFormed(t)
    ensures WellFormed(t.(services := ServicesChanged(t.services, name, kind, c)))
  {
    var t' := t.(services := ServicesChanged(t.services, name, kind, c));
    ServicesKeepPlaces(t.services, name, kind, c);
    var us, vs := UnitsOf(t.services), UnitsOf(t'.services);
    forall v | v in vs ensures UnitOk(v, t') {
      var k :| 0 <= k < |vs| && vs[k] == v;
      assert us[k] in us && UnitOk(us[k], t);
    }
  }

  // ---------------------------------------------------------------- resources and summaries

  /** The same volumes at the same places. */
  predicate SameVolumes(us: seq<Unit>, vs: seq<Unit>)
  {
    |us| == |vs| && forall k :: 0 <= k < |us| ==>
            us[k].host == vs[k].host && us[k].data == vs[k].data && us[k].log == vs[k].log
  }

  lemma {:induction false} ChildrenKeepVolumes(a: seq<Child>, b: seq<Child>, kind: string, c: Change)
    requires c.Resources? && |a| == |b| && forall j :: 0 <= j < |a| ==> b[j] == ChildChanged(a[j], kind, c)
    ensures SameVolumes(UnitsOfChildren(a), UnitsOfChildren(b))
  {
    hide ChildChanged, SameVolumes;
    var n := |a| - 1;
    if a == [] {
      NoVolumes();
    } else {
      ChildrenKeepVolumes(a[..n], b[..n], kind, c);
      ChildKeepsVolumes(a[n], kind, c);
      VolumesJoin(UnitsOfChildren(a[..n]), UnitsOfChildren(b[..n]), a[n].units, b[n].units);
    }
  }

  lemma NoVolumes()
    ensures SameVolumes([], [])
  {
  }

  lemma ChildKeepsVolumes(child: Child, kind: string, c: Change)
    requires c.Resources?
    ensures SameVolumes(child.units, ChildChanged(child, kind, c).units)
  {
  }

  lemma VolumesJoin(us: seq<Unit>, vs: seq<Unit>, more: seq<Unit>, more': seq<Unit>)
    requires SameVolumes(us, vs) && SameVolumes(more, more')
    ensures SameVolumes(us + more, vs + more')
  {
  }

  lemma ServiceKeepsVolumes(s: Service, name: string, kind: string, c: Change)
    requires c.Resources?
    ensures SameVolumes(UnitsOfChildren(s.children), UnitsOfChildren(ServiceChanged(s, name, kind, c).children))
  {
    if s.name == name {
      ChildrenKeepVolumes(s.children, ServiceChanged(s, name, kind, c).children, kind, c);
    }
  }

  lemma {:induction false} ServicesKeepVolumes(services: seq<Service>, name: string, kind: string, c: Change)
    requires c.Resources?
    ensures SameVolumes(UnitsOf(services), UnitsOf(ServicesChanged(services, name, kind, c)))
  {
    if services == [] {
    } else {
      var n := |services| - 1;
      ServicesKeepVolumes(services[..n], name, kind, c);
      assert ServicesChanged(services, name, kind, c)[..n] == ServicesChanged(services[..n], name, kind, c);
      ServiceKeepsVolumes(services[n], name, kind, c);
    }
  }

  lemma {:induction false} VolumesGiveSizes(us: seq<Unit>, vs: seq<Unit>, h: string, d: string)
    requires SameVolumes(us, vs)
    ensures CountOn(us, h) == CountOn(vs, h) && SizesOn(us, h, d) == SizesOn(vs, h, d)
  {
    if us == [] {
    } else {
      VolumesGiveSizes(us[..|us| - 1], vs[..|vs| - 1], h, d);
    }
  }

  lemma {:induction false} VolumesGiveCounts(us: seq<Unit>, vs: seq<Unit>, hosts: map<string, Host>, c: string)
    requires SameVolumes(us, vs)
    ensures CountIn(us, hosts, c) == CountIn(vs, hosts, c)
  {
    if us == [] {
    } else {
      VolumesGiveCounts(us[..|us| - 1], vs[..|vs| - 1], hosts, c);
    }
  }

  lemma VolumesGiveTouches(s: Service, s': Service, hosts: map<string, Host>, c: string)
    requires SameVolumes(UnitsOfChildren(s.children), UnitsOfChildren(s'.children))
    ensures Touches(s, hosts, c) <==> Touches(s', hosts, c)
  {
    var us, vs := UnitsOfChildren(s.children), UnitsOfChildren(s'.children);
    if Touches(s, hosts, c) {
      var u :| u in us && u.host in hosts && hosts[u.host].cluster == c;
      var k :| 0 <= k < |us| && us[k] == u;
      assert vs[k] in vs && vs[k].host == u.host;
    }
    if Touches(s', hosts, c) {
      var v :| v in vs && v.host in hosts && hosts[v.host].cluster == c;
      var k :| 0 <= k < |vs| && vs[k] == v;
      assert us[k] in us && us[k].host == v.host;
    }
  }

  lemma {:induction false} ServicesInSame(a: seq<Service>, b: seq<Service>, hosts: map<string, Host>, c: string)
    requires |a| == |b| && forall i :: 0 <= i < |a| ==>
               a[i].health == b[i].health && (Touches(a[i], hosts, c) <==> Touches(b[i], hosts, c))
    ensures ServicesIn(a, hosts, c) == ServicesIn(b, hosts, c)
  {
    if a == [] {
    } else {
      hide Touches;
      ServicesInSame(a[..|a| - 1], b[..|b| - 1], hosts, c);
    }
  }

  lemma {:induction false} ServicesAtSame(a: seq<Service>, b: seq<Service>, s: string)
    requires |a| == |b| && forall i :: 0 <= i < |a| ==> a[i].health == b[i].health && a[i].site == b[i].site
    ensures ServicesAt(a, s) == ServicesAt(b, s)
  {
    if a == [] {
    } else {
      ServicesAtSame(a[..|a| - 1], b[..|b| - 1], s);
    }
  }

  lemma ServicesStay(t: Platform, name: string, kind: string, c: Change, cluster: string)
    requires c.Resources?
    ensures var services := ServicesChanged(t.services, name, kind, c);
            ServicesIn(services, t.hosts, cluster) == ServicesIn(t.services, t.hosts, cluster)
            && NamesIn(services, t.hosts, cluster) == NamesIn(t.services, t.hosts, cluster)
  {
    hide Touches, UnitsOfChildren;
    var services := ServicesChanged(t.services, name, kind, c);
    forall i | 0 <= i < |services|
      ensures Touches(services[i], t.hosts, cluster) <==> Touches(t.services[i], t.hosts, cluster)
    {
      ServiceKeepsVolumes(t.services[i], name, kind, c);
      VolumesGiveTouches(t.services[i], services[i], t.hosts, cluster);
    }
    ServicesInSame(services, t.services, t.hosts, cluster);
  }

  lemma ClusterStays(t: Platform, name: string, kind: string, c: Change, cluster: string)
    requires c.Resources? && cluster in t.clusters
    ensures var t' := t.(services := ServicesChanged(t.services, name, kind, c));
            ClusterSummary(t', cluster) == ClusterSummary(t, cluster)
                && ClusterHealth(t', cluster) == ClusterHealth(t, cluster)
  {
    hide Touches, UnitsOfChildren, UnitsOf, ServicesChanged, ServicesIn, NamesIn, CountIn, TallyOf, TallyOfSet,
         HostHealths, Aggregate, Plus;
    ServicesStay(t, name, kind, c, cluster);
    ServicesKeepVolumes(t.services, name, kind, c);
    VolumesGiveCounts(UnitsOf(t.services), UnitsOf(ServicesChanged(t.services, name, kind, c)), t.hosts, cluster);
  }

  lemma SiteStays(t: Platform, name: string, kind: string, c: Change, site: string)
    requires c.Resources? && site in t.sites
    ensures SiteSummary(t.(services := ServicesChanged(t.services, name, kind, c)), site) == SiteSummary(t, site)
  {
    hide TallyOf, TallyOfSet, Aggregate, Plus, ServicesAt, ClusterHealth, ClusterSummary;
    var t' := t.(services := ServicesChanged(t.services, name, kind, c));
    ServicesAtSame(t'.services, t.services, site);
    forall cluster | cluster in t.clusters ensures ClusterHealth(t', cluster) == ClusterHealth(t, cluster) {
      ClusterStays(t, name, kind, c, cluster);
    }
    assert ClusterHealths(t', site) == ClusterHealths(t, site);
    assert ClustersAt(t', site) == ClustersAt(t, site) && HostsAt(t', site) == HostsAt(t, site);
    assert NamesAt(t'.services, site) == NamesAt(t.services, site);
  }

  /** The host's summary after a change of resources differs at most in what is derived from CPU and memory. */
  lemma HostAfterResources(t: Platform, name: string, kind: string, c: Change, h: string)
    requires c.Resources? && h in t.hosts && t.hosts[h] == HostSummary(t, h)
    ensures var t' := t.(services := ServicesChanged(t.services, name, kind, c));
            t.hosts[h] == HostSummary(t', h)
            <==> CpuOn(UnitsOf(t'.services), h) == CpuOn(UnitsOf(t.services), h)
                 && MemoryOn(UnitsOf(t'.services), h) == MemoryOn(UnitsOf(t.services), h)
  {
    hide ServicesChanged, UnitsOf, CountOn, CpuOn, MemoryOn, SizesOn, Saturate, Shown;
    var t' := t.(services := ServicesChanged(t.services, name, kind, c));
    var us, vs := UnitsOf(t.services), UnitsOf(t'.services);
    ServicesKeepVolumes(t.services, name, kind, c);
    forall d ensures CountOn(us, h) == CountOn(vs, h) && SizesOn(us, h, d) == SizesOn(vs, h, d) {
      VolumesGiveSizes(us, vs, h, d);
    }
    VolumesGiveSizes(us, vs, h, "");
    assert Counted(t.hosts[h], h, us).disks == Counted(t.hosts[h], h, vs).disks;
    var x, y := WithCapacity(Counted(t.hosts[h], h, us)), WithCapacity(Counted(t.hosts[h], h, vs));
    assert t.hosts[h] == x && x.cpu == CpuOn(us, h) && x.memory == MemoryOn(us, h);
    assert y == HostSummary(t', h) && y.cpu == CpuOn(vs, h) && y.memory == MemoryOn(vs, h);
    if x.cpu == y.cpu && x.memory == y.memory {
      assert Counted(t.hosts[h], h, us) == Counted(t.hosts[h], h, vs);
    }
  }

  /** A change of resources leaves the summaries right exactly if no host's CPU or memory total moves, as the
      call does not recompute them. */
  lemma ResourcesLeaveAgreement(t: Platform, name: string, kind: string, c: Change)
    requires Agrees(t) && c.Resources?
    ensures var t' := t.(services := ServicesChanged(t.services, name, kind, c));
            Agrees(t') <==> forall h :: h in t.hosts ==>
                              CpuOn(UnitsOf(t'.services), h) == CpuOn(UnitsOf(t.services), h)
                              && MemoryOn(UnitsOf(t'.services), h) == MemoryOn(UnitsOf(t.services), h)
  {
    hide HostSummary, ClusterSummary, SiteSummary, ServicesChanged, UnitsOf, CpuOn, MemoryOn;
    forall h | h in t.hosts
      ensures var t' := t.(services := ServicesChanged(t.services, name, kind, c));
              t'.hosts[h] == HostSummary(t', h)
              <==> CpuOn(UnitsOf(t'.services), h) == CpuOn(UnitsOf(t.services), h)
                   && MemoryOn(UnitsOf(t'.services), h) == MemoryOn(UnitsOf(t.services), h)
    {
      HostAfterResources(t, name, kind, c, h);
    }
    forall cluster | cluster in t.clusters
      ensures ClusterSummary(t.(services := ServicesChanged(t.services, name, kind, c)), cluster)
              == ClusterSummary(t, cluster)
    {
      ClusterStays(t, name, kind, c, cluster);
    }
    forall site | site in t.sites
      ensures SiteSummary(t.(services := ServicesChanged(t.services, name, kind, c)), site) == SiteSummary(t, site)
    {
      SiteStays(t, name, kind, c, site);
    }
  }
}
