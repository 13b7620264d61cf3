/** The platform of the mock DBAAS server: sites, clusters, hosts with their devices, services with their
    units, and what the summary fields mean (mock-server/app/store/json_store.py). Amounts are exact reals. */
module PlatformTree {

  datatype Health = Healthy | Warn | Unhealthy | OtherHealth(text: string)

  datatype Volume = Volume(disk: string, size: real)

  datatype Unit = Unit(name: string, host: string, cpu: real, memory: real, data: Volume, log: Volume,
                       image: string, version: string)

  datatype Child = Child(kind: string, units: seq<Unit>)

  datatype Service = Service(name: string, site: string, health: Health, children: seq<Child>)

  /** A device: its size, what it holds besides volumes, and the derived fields. */
  datatype Disk = Disk(capacity: real, base: real, used: real, shownUsed: real, shownAvailable: real)

  datatype Host = Host(
    cluster: string, health: Health, cpuCapacity: real, memoryCapacity: real, disks: map<string, Disk>,
    unitCount: nat, cpu: real, memory: real,
    cpuAllocated: real, cpuAvailable: real, memoryAllocated: real, memoryAvailable: real)

  datatype Cluster = Cluster(site: string, health: Health, hostCount: nat, unitCount: nat, serviceGroupCount: nat)

  datatype Site = Site(health: Health, clusterCount: nat, hostCount: nat, serviceGroupCount: nat)

  datatype Platform = Platform(
    sites: map<string, Site>, clusters: map<string, Cluster>, hosts: map<string, Host>, services: seq<Service>)

  // ---------------------------------------------------------------- the tree itself

  function UnitsOfChildren(children: seq<Child>): seq<Unit>
  {
    if children == [] then [] else UnitsOfChildren(children[..|children| - 1]) + children[|children| - 1].units
  }

  function UnitsOf(services: seq<Service>): seq<Unit>
  {
    if services == [] then []
    else UnitsOf(services[..|services| - 1]) + UnitsOfChildren(services[|services| - 1].children)
  }

  predicate UnitOk(u: Unit, t: Platform)
  {
    u.host in t.hosts && u.data.disk in t.hosts[u.host].disks && u.log.disk in t.hosts[u.host].disks
  }

  /** What loading checks (`_validate_relationships`), as far as summaries depend on it. */
  predicate WellFormed(t: Platform)
  {
    && (forall c :: c in t.clusters ==> t.clusters[c].site in t.sites)
    && (forall h :: h in t.hosts ==> t.hosts[h].cluster in t.clusters)
    && (forall i :: 0 <= i < |t.services| ==> t.services[i].site in t.sites)
    && (forall u :: u in UnitsOf(t.services) ==> UnitOk(u, t))
    && (forall i, j :: 0 <= i < j < |t.services| ==> t.services[i].name != t.services[j].name)
  }

  // ---------------------------------------------------------------- hosts

  function CountOn(units: seq<Unit>, host: string): nat
  {
    if units == [] then 0
    else CountOn(units[..|units| - 1], host) + if units[|units| - 1].host == host then 1 else 0
  }

  function CpuOn(units: seq<Unit>, host: string): real
  {
    if units == [] then 0.0
    else CpuOn(units[..|units| - 1], host) + if units[|units| - 1].host == host then units[|units| - 1].cpu else 0.0
  }

  function MemoryOn(units: seq<Unit>, host: string): real
  {
    if units == [] then 0.0
    else
      var u := units[|units| - 1];
      MemoryOn(units[..|units| - 1], host) + if u.host == host then u.memory else 0.0
  }

  /** The sizes of the volumes on one device, data before log, unit by unit. */
  function SizesOn(units: seq<Unit>, host: string, disk: string): seq<real>
  {
    if units == [] then []
    else
      var u := units[|units| - 1];
      SizesOn(units[..|units| - 1], host, disk)
      + (if u.host == host && u.data.disk == disk then [u.data.size] else [])
      + (if u.host == host && u.log.disk == disk then [u.log.size] else [])
  }

  function Min(a: real, b: real): real { if a <= b then a else b }

  function AtLeastZero(a: real): real { if a < 0.0 then 0.0 else a }

  /** Adding the sizes one at a time, never beyond the capacity. */
  function Saturate(capacity: real, used: real, sizes: seq<real>): real
  {
    if sizes == [] then used else Min(capacity, Saturate(capacity, used, sizes[..|sizes| - 1]) + sizes[|sizes| - 1])
  }

  /** A host once the units have been counted in, before the shown fields are filled. */
  function Counted(h: Host, id: string, units: seq<Unit>): (r: Host)
    ensures r.disks.Keys == h.disks.Keys && r.cluster == h.cluster && r.health == h.health
  {
    h.(unitCount := CountOn(units, id), cpu := CpuOn(units, id), memory := MemoryOn(units, id),
       disks := map d | d in h.disks ::
                  h.disks[d].(used := Saturate(h.disks[d].capacity, h.disks[d].base, SizesOn(units, id, d))))
  }

  function Shown(d: Disk): Disk
  {
    var used := Min(d.capacity, d.used);
    d.(shownUsed := used, shownAvailable := AtLeastZero(d.capacity - used))
  }

  /** `_refresh_host_capacity_fields`, without rounding. */
  function WithCapacity(h: Host): Host
  {
    var cpu, memory := Min(h.cpuCapacity, h.cpu), Min(h.memoryCapacity, h.memory);
    h.(cpuAllocated := cpu, cpuAvailable := AtLeastZero(h.cpuCapacity - cpu),
       memoryAllocated := memory, memoryAvailable := AtLeastZero(h.memoryCapacity - memory),
       disks := map d | d in h.disks :: Shown(h.disks[d]))
  }

  function HostSummary(t: Platform, id: string): Host
    requires id in t.hosts
  {
    WithCapacity(Counted(t.hosts[id], id, UnitsOf(t.services)))
  }

  // ---------------------------------------------------------------- clusters and sites

  function HostsIn(hosts: map<string, Host>, cluster: string): set<string>
  {
    set h | h in hosts && hosts[h].cluster == cluster
  }

  function CountIn(units: seq<Unit>, hosts: map<string, Host>, cluster: string): nat
  {
    if units == [] then 0
    else
      var u := units[|units| - 1];
      CountIn(units[..|units| - 1], hosts, cluster)
      + if u.host in hosts && hosts[u.host].cluster == cluster then 1 else 0
  }

  predicate Touches(s: Service, hosts: map<string, Host>, cluster: string)
  {
    exists u :: u in UnitsOfChildren(s.children) && u.host in hosts && hosts[u.host].cluster == cluster
  }

  /** The names of the services with a unit in the cluster. */
  function NamesIn(services: seq<Service>, hosts: map<string, Host>, cluster: string): set<string>
  {
    set i | 0 <= i < |services| && Touches(services[i], hosts, cluster) :: services[i].name
  }

  function NamesAt(services: seq<Service>, site: string): set<string>
  {
    set i | 0 <= i < |services| && services[i].site == site :: services[i].name
  }

  datatype Tally = Tally(total: nat, unhealthy: nat, warn: nat)

  function Plus(a: Tally, b: Tally): Tally
  {
    Tally(a.total + b.total, a.unhealthy + b.unhealthy, a.warn + b.warn)
  }

  function One(h: Health): Tally
  {
    Tally(1, if h == Unhealthy then 1 else 0, if h == Warn then 1 else 0)
  }

  function TallyOf(list: seq<Health>): Tally
  {
    if list == [] then Tally(0, 0, 0) else Plus(TallyOf(list[..|list| - 1]), One(list[|list| - 1]))
  }

  /** The tally counts the list. */
  lemma {:induction false} TallyCounts(list: seq<Health>)
    ensures TallyOf(list) == Tally(|list|, multiset(list)[Unhealthy], multiset(list)[Warn])
  {
    if list == [] {
    } else {
      TallyCounts(list[..|list| - 1]);
      assert list == list[..|list| - 1] + [list[|list| - 1]];
    }
  }

  /** `_aggregate_health_status`, which only looks at how many there are of each. */
  function Aggregate(t: Tally): Health
  {
    if t.total == 0 then Healthy
    else if t.unhealthy == 0 && t.warn == 0 then Healthy
    else if t.unhealthy * 2 >= t.total then Unhealthy
    else Warn
  }

  /** All is well if none is unhealthy and none gives a warning; it is unhealthy if at least half are. */
  lemma HealthOf(list: seq<Health>)
    ensures var m, r := multiset(list), Aggregate(TallyOf(list));
            && (r.Healthy? <==> m[Unhealthy] == m[Warn] == 0)
            && (r.Unhealthy? <==> m[Unhealthy] > 0 && 2 * m[Unhealthy] >= |list|)
            && (r.Warn? <==> m[Unhealthy] + m[Warn] > 0 && 2 * m[Unhealthy] < |list|)
  {
    TallyCounts(list);
    if list == [] {
    } else {
      Occurs(list, Unhealthy);
      Occurs(list, Warn);
    }
  }

  lemma Occurs(list: seq<Health>, h: Health)
    ensures 0 <= multiset(list)[h] <= |list|
  {
    var m := multiset(list);
    assert m[h := 0] + multiset{}[h := m[h]] == m;
  }

  function Having(m: map<string, Health>, h: Health): set<string> { set k | k in m && m[k] == h }

  function TallyOfSet(m: map<string, Health>): Tally
  {
    Tally(|m.Keys|, |Having(m, Unhealthy)|, |Having(m, Warn)|)
  }

  function HostHealths(hosts: map<string, Host>, cluster: string): map<string, Health>
  {
    map h | h in hosts && hosts[h].cluster == cluster :: hosts[h].health
  }

  function ServicesIn(services: seq<Service>, hosts: map<string, Host>, cluster: string): seq<Health>
  {
    if services == [] then []
    else
      var s := services[|services| - 1];
      ServicesIn(services[..|services| - 1], hosts, cluster) + if Touches(s, hosts, cluster) then [s.health] else []
  }

  function ServicesAt(services: seq<Service>, site: string): seq<Health>
  {
    if services == [] then []
    else
      var s := services[|services| - 1];
      ServicesAt(services[..|services| - 1], site) + if s.site == site then [s.health] else []
  }

  function ClusterHealth(t: Platform, id: string): Health
  {
    Aggregate(Plus(TallyOfSet(HostHealths(t.hosts, id)), TallyOf(ServicesIn(t.services, t.hosts, id))))
  }

  function ClusterSummary(t: Platform, id: string): Cluster
    requires id in t.clusters
  {
    t.clusters[id].(
      hostCount := |HostsIn(t.hosts, id)|, unitCount := CountIn(UnitsOf(t.services), t.hosts, id),
      serviceGroupCount := |NamesIn(t.services, t.hosts, id)|, health := ClusterHealth(t, id))
  }

  function ClustersAt(t: Platform, site: string): set<string> { set c | c in t.clusters && t.clusters[c].site == site }

  function HostsAt(t: Platform, site: string): set<string>
  {
    set h | h in t.hosts && t.hosts[h].cluster in t.clusters && t.clusters[t.hosts[h].cluster].site == site
  }

  function ClusterHealths(t: Platform, site: string): map<string, Health>
  {
    map c | c in t.clusters && t.clusters[c].site == site :: ClusterHealth(t, c)
  }

  function SiteSummary(t: Platform, id: string): Site
    requires id in t.sites
  {
    Site(Aggregate(Plus(TallyOf(ServicesAt(t.services, id)), TallyOfSet(ClusterHealths(t, id)))),
         |ClustersAt(t, id)|, |HostsAt(t, id)|, |NamesAt(t.services, id)|)
  }

  /** Every summary field says what the tree says. */
  predicate Agrees(t: Platform)
  {
    && (forall h :: h in t.hosts ==> t.hosts[h] == HostSummary(t, h))
    && (forall c :: c in t.clusters ==> t.clusters[c] == ClusterSummary(t, c))
    && (forall s :: s in t.sites ==> t.sites[s] == SiteSummary(t, s))
  }

  // ---------------------------------------------------------------- what is not summary

  predicate SameHost(a: Host, b: Host)
  {
    && a.cluster == b.cluster && a.health == b.health && a.cpuCapacity == b.cpuCapacity
    && a.memoryCapacity == b.memoryCapacity && a.disks.Keys == b.disks.Keys
    && forall d :: d in a.disks ==> a.disks[d].capacity == b.disks[d].capacity && a.disks[d].base == b.disks[d].base
  }

  /** The two platforms differ in summary fields at most. */
  predicate SameTree(a: Platform, b: Platform)
  {
    && a.services == b.services && a.sites.Keys == b.sites.Keys && a.clusters.Keys == b.clusters.Keys
    && a.hosts.Keys == b.hosts.Keys
    && (forall c :: c in a.clusters ==> a.clusters[c].site == b.clusters[c].site)
    && (forall h :: h in a.hosts ==> SameHost(a.hosts[h], b.hosts[h]))
  }
}
