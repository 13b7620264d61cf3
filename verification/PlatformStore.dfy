/** The mutable index of the mock server: recomputing the summaries, and the updates of a service
    (mock-server/app/store/json_store.py). */
module PlatformStore {
  import opened PlatformTree
  import opened PlatformLaws

  // ---------------------------------------------------------------- one unit more

  function CountedAll(hosts: map<string, Host>, units: seq<Unit>): map<string, Host>
  {
    map h | h in hosts :: Counted(hosts[h], h, units)
  }

  function Filled(d: Disk, size: real): Disk { d.(used := Min(d.capacity, d.used + size)) }

  function WithUnit(h: Host, u: Unit): Host
    requires u.data.disk in h.disks && u.log.disk in h.disks
  {
    var disks := h.disks[u.data.disk := Filled(h.disks[u.data.disk], u.data.size)];
    h.(unitCount := h.unitCount + 1, cpu := h.cpu + u.cpu, memory := h.memory + u.memory,
       disks := disks[u.log.disk := Filled(disks[u.log.disk], u.log.size)])
  }

  function Optional(give: bool, size: real): seq<real> { if give then [size] else [] }

  lemma SaturateMore(capacity: real, base: real, sizes: seq<real>, give: bool, size: real)
    ensures Saturate(capacity, base, sizes + Optional(give, size))
            == if give then Min(capacity, Saturate(capacity, base, sizes) + size) else Saturate(capacity, base, sizes)
  {
    assert sizes + [] == sizes && (sizes + [size])[..|sizes|] == sizes;
  }

  lemma SizesMore(units: seq<Unit>, u: Unit, host: string, disk: string)
    ensures SizesOn(units + [u], host, disk)
            == SizesOn(units, host, disk)
               + Optional(u.host == host && u.data.disk == disk, u.data.size)
               + Optional(u.host == host && u.log.disk == disk, u.log.size)
  {
    assert (units + [u])[..|units|] == units;
  }

  lemma UsedMore(capacity: real, base: real, units: seq<Unit>, u: Unit, host: string, disk: string)
    ensures var before := Saturate(capacity, base, SizesOn(units, host, disk));
            var afterData := if u.host == host && u.data.disk == disk then Min(capacity, before + u.data.size)
                             else before;
            Saturate(capacity, base, SizesOn(units + [u], host, disk))
            == if u.host == host && u.log.disk == disk then Min(capacity, afterData + u.log.size) else afterData
  {
    hide *;
    var sizes := SizesOn(units, host, disk);
    var withData := sizes + Optional(u.host == host && u.data.disk == disk, u.data.size);
    SizesMore(units, u, host, disk);
    SaturateMore(capacity, base, sizes, u.host == host && u.data.disk == disk, u.data.size);
    SaturateMore(capacity, base, withData, u.host == host && u.log.disk == disk, u.log.size);
  }

  lemma CountsMore(units: seq<Unit>, u: Unit, host: string)
    ensures CountOn(units + [u], host) == CountOn(units, host) + if u.host == host then 1 else 0
    ensures CpuOn(units + [u], host) == CpuOn(units, host) + if u.host == host then u.cpu else 0.0
    ensures MemoryOn(units + [u], host) == MemoryOn(units, host) + if u.host == host then u.memory else 0.0
  {
    assert (units + [u])[..|units|] == units;
  }

  lemma CountedMore(h: Host, id: string, units: seq<Unit>, u: Unit)
    requires u.host == id ==> u.data.disk in h.disks && u.log.disk in h.disks
    ensures Counted(h, id, units + [u])
            == if u.host == id then WithUnit(Counted(h, id, units), u) else Counted(h, id, units)
  {
    hide SizesOn, Saturate, CountOn, CpuOn, MemoryOn;
    CountsMore(units, u, id);
    var before, after := Counted(h, id, units), Counted(h, id, units + [u]);
    forall d | d in h.disks
      ensures after.disks[d] == if u.host == id then WithUnit(before, u).disks[d] else before.disks[d]
    {
      UsedMore(h.disks[d].capacity, h.disks[d].base, units, u, id, d);
    }
    assert after.disks == if u.host == id then WithUnit(before, u).disks else before.disks;
  }

  lemma CountedAllMore(hosts: map<string, Host>, units: seq<Unit>, u: Unit)
    requires u.host in hosts && u.data.disk in hosts[u.host].disks && u.log.disk in hosts[u.host].disks
    ensures var before := CountedAll(hosts, units);
            CountedAll(hosts, units + [u]) == before[u.host := WithUnit(before[u.host], u)]
  {
    hide Counted, WithUnit;
    forall h | h in hosts
      ensures CountedAll(hosts, units + [u])[h] == if h == u.host then WithUnit(CountedAll(hosts, units)[h], u)
                                                   else CountedAll(hosts, units)[h]
    {
      CountedMore(hosts[h], h, units, u);
    }
  }

  // ---------------------------------------------------------------- what the loops build up

  function WithUnits(clusters: map<string, Cluster>, hosts: map<string, Host>, units: seq<Unit>): map<string, Cluster>
  {
    map c | c in clusters :: clusters[c].(unitCount := CountIn(units, hosts, c))
  }

  lemma WithUnitsMore(clusters: map<string, Cluster>, hosts: map<string, Host>, units: seq<Unit>, u: Unit)
    requires u.host in hosts && hosts[u.host].cluster in clusters
    ensures var before, c := WithUnits(clusters, hosts, units), hosts[u.host].cluster;
            WithUnits(clusters, hosts, units + [u]) == before[c := before[c].(unitCount := before[c].unitCount + 1)]
  {
    assert (units + [u])[..|units|] == units;
  }

  function TouchedBy(units: seq<Unit>, hosts: map<string, Host>): set<string>
  {
    set u | u in units && u.host in hosts :: hosts[u.host].cluster
  }

  function AddName(names: map<string, set<string>>, touched: set<string>, name: string): map<string, set<string>>
  {
    map c | c in names :: names[c] + if c in touched then {name} else {}
  }

  function AddInput(inputs: map<string, seq<Health>>, touched: set<string>, health: Health): map<string, seq<Health>>
  {
    map c | c in inputs :: inputs[c] + if c in touched then [health] else []
  }

  function ResetSite(s: Site): Site { Site(s.health, 0, 0, 0) }

  function ResetCluster(c: Cluster): Cluster { c.(hostCount := 0, unitCount := 0, serviceGroupCount := 0) }

  function WithCapacities(hosts: map<string, Host>): map<string, Host> { map h | h in hosts :: WithCapacity(hosts[h]) }

  function SitesReset(sites: map<string, Site>): map<string, Site> { map s | s in sites :: ResetSite(sites[s]) }

  function ClustersReset(clusters: map<string, Cluster>): map<string, Cluster>
  {
    map c | c in clusters :: ResetCluster(clusters[c])
  }

  predicate UnitsFit(units: seq<Unit>, hosts: map<string, Host>, clusters: map<string, Cluster>)
  {
    forall u :: u in units ==> u.host in hosts && hosts[u.host].cluster in clusters
                               && u.data.disk in hosts[u.host].disks && u.log.disk in hosts[u.host].disks
  }

  lemma CountedKeeps(hosts: map<string, Host>, units: seq<Unit>, h: string)
    requires h in hosts
    ensures var c := CountedAll(hosts, units);
            h in c && c[h].cluster == hosts[h].cluster && c[h].disks.Keys == hosts[h].disks.Keys
  {
    hide Counted;
  }

  lemma WithUnitsKeeps(clusters: map<string, Cluster>, hosts: map<string, Host>, units: seq<Unit>)
    ensures WithUnits(clusters, hosts, units).Keys == clusters.Keys
  {
  }

  /** Counts one unit in, and its data volume before its log volume. */
  method CountUnit(h: Host, u: Unit) returns (host: Host)
    requires u.data.disk in h.disks && u.log.disk in h.disks
    ensures host == WithUnit(h, u) && host.cluster == h.cluster
  {
    host := h.(unitCount := h.unitCount + 1, cpu := h.cpu + u.cpu, memory := h.memory + u.memory);
    for v := 0 to 2
      invariant host.disks.Keys == h.disks.Keys
      invariant host == WithUnit(h, u).(disks := host.disks)
      invariant host.disks == if v == 0 then h.disks
                              else if v == 1 then h.disks[u.data.disk := Filled(h.disks[u.data.disk], u.data.size)]
                              else WithUnit(h, u).disks
    {
      var volume := if v == 0 then u.data else u.log;
      var disk := host.disks[volume.disk];
      host := host.(disks := host.disks[volume.disk := disk.(used := Min(disk.capacity, disk.used + volume.size))]);
    }
  }

  class Store {
    var sites: map<string, Site>
    var clusters: map<string, Cluster>
    var hosts: map<string, Host>
    var services: seq<Service>

    function T(): Platform
      reads this
    {
      Platform(sites, clusters, hosts, services)
    }

    constructor (t: Platform)
      ensures T() == t
    {
      sites, clusters, hosts, services := t.sites, t.clusters, t.hosts, t.services;
    }

    method ResetSites()
      modifies this`sites
      ensures sites == SitesReset(old(sites))
    {
      ghost var before := sites;
      var rest := sites.Keys;
      while rest != {}
        invariant rest <= before.Keys
        invariant sites == map s | s in before :: if s in rest then before[s] else ResetSite(before[s])
        decreases |rest|
      {
        var s :| s in rest;
        sites := sites[s := sites[s].(clusterCount := 0, hostCount := 0, serviceGroupCount := 0)];
        rest := rest - {s};
      }
    }

    method ResetClusters()
      modifies this`clusters
      ensures clusters == ClustersReset(old(clusters))
    {
      ghost var before := clusters;
      var rest := clusters.Keys;
      while rest != {}
        invariant rest <= before.Keys
        invariant clusters == map c | c in before :: if c in rest then before[c] else ResetCluster(before[c])
        decreases |rest|
      {
        var c :| c in rest;
        clusters := clusters[c := clusters[c].(hostCount := 0, unitCount := 0, serviceGroupCount := 0)];
        rest := rest - {c};
      }
    }

    method ResetHosts()
      modifies this`hosts
      ensures hosts == CountedAll(old(hosts), [])
    {
      ghost var before := hosts;
      var rest := hosts.Keys;
      while rest != {}
        invariant rest <= before.Keys
        invariant hosts == map h | h in before :: if h in rest then before[h] else Counted(before[h], h, [])
        decreases |rest|
      {
        var h :| h in rest;
        var host := hosts[h];
        var disks := ResetDisks(host.disks);
        assert disks == Counted(host, h, []).disks;
        hosts := hosts[h := host.(unitCount := 0, cpu := 0.0, memory := 0.0, disks := disks)];
        rest := rest - {h};
      }
    }

    method ResetDisks(before: map<string, Disk>) returns (disks: map<string, Disk>)
      ensures disks == map d | d in before :: before[d].(used := before[d].base)
    {
      disks := before;
      var rest := disks.Keys;
      while rest != {}
        invariant rest <= before.Keys
        invariant disks == map d | d in before :: if d in rest then before[d] else before[d].(used := before[d].base)
        decreases |rest|
      {
        var d :| d in rest;
        disks := disks[d := disks[d].(used := disks[d].base)];
        rest := rest - {d};
      }
    }

    /** The innermost loop body: one unit, with its host, its cluster and its two volumes. */
    method PlaceUnit(u: Unit, ghost base: map<string, Host>, ghost plain: map<string, Cluster>, ghost placed: seq<Unit>)
      requires hosts == CountedAll(base, placed) && clusters == WithUnits(plain, base, placed)
      requires UnitsFit([u], base, plain)
      modifies this`hosts, this`clusters
      ensures hosts == CountedAll(base, placed + [u]) && clusters == WithUnits(plain, base, placed + [u])
    {
      hide WithUnit, CountedAll, WithUnits;
      assert u in [u];
      CountedKeeps(base, placed, u.host);
      CountedAllMore(base, placed, u);
      WithUnitsMore(plain, base, placed, u);
      WithUnitsKeeps(plain, base, placed);
      var host := CountUnit(hosts[u.host], u);
      clusters := clusters[host.cluster := clusters[host.cluster].(unitCount := clusters[host.cluster].unitCount + 1)];
      hosts := hosts[u.host := host];
    }

    method PlaceChild(child: Child, name: string, names: map<string, set<string>>, ids: set<string>,
                      ghost base: map<string, Host>, ghost plain: map<string, Cluster>, ghost placed: seq<Unit>)
      returns (names': map<string, set<string>>, ids': set<string>)
      requires hosts == CountedAll(base, placed) && clusters == WithUnits(plain, base, placed)
      requires UnitsFit(child.units, base, plain) && names.Keys == plain.Keys
      modifies this`hosts, this`clusters
      ensures hosts == CountedAll(base, placed + child.units)
              && clusters == WithUnits(plain, base, placed + child.units)
      ensures ids' == ids + TouchedBy(child.units, base)
      ensures names' == AddName(names, TouchedBy(child.units, base), name)
    {
      hide CountedAll, WithUnits;
      names', ids' := names, ids;
      assert placed + child.units[..0] == placed;
      assert TouchedBy(child.units[..0], base) == {};
      NoName(names, name);
      for k := 0 to |child.units|
        invariant hosts == CountedAll(base, placed + child.units[..k])
        invariant clusters == WithUnits(plain, base, placed + child.units[..k])
        invariant ids' == ids + TouchedBy(child.units[..k], base)
        invariant names' == AddName(names, TouchedBy(child.units[..k], base), name)
      {
        var u := child.units[k];
        assert u in child.units;
        ghost var soFar := placed + child.units[..k];
        CountedKeeps(base, soFar, u.host);
        var cluster := hosts[u.host].cluster;
        PlaceUnit(u, base, plain, soFar);
        assert soFar + [u] == placed + child.units[..k + 1];
        TouchedMore(child.units, k, base);
        NameMore(names, TouchedBy(child.units[..k], base), cluster, name);
        names' := names'[cluster := names'[cluster] + {name}];
        ids' := ids' + {cluster};
      }
      assert child.units[..|child.units|] == child.units;
    }

    /** The loop over the child services of one service. */
    method PlaceService(service: Service, names: map<string, set<string>>,
                        ghost base: map<string, Host>, ghost plain: map<string, Cluster>, ghost placed: seq<Unit>)
      returns (names': map<string, set<string>>, ids: set<string>)
      requires hosts == CountedAll(base, placed) && clusters == WithUnits(plain, base, placed)
      requires UnitsFit(UnitsOfChildren(service.children), base, plain) && names.Keys == plain.Keys
      modifies this`hosts, this`clusters
      ensures var units := UnitsOfChildren(service.children);
              hosts == CountedAll(base, placed + units) && clusters == WithUnits(plain, base, placed + units)
              && ids == TouchedBy(units, base) && names' == AddName(names, TouchedBy(units, base), service.name)
    {
      hide CountedAll, WithUnits, AddName;
      names', ids := names, {};
      var children := service.children;
      assert placed + UnitsOfChildren(children[..0]) == placed;
      assert TouchedBy(UnitsOfChildren(children[..0]), base) == {};
      NoName(names, service.name);
      for j := 0 to |children|
        invariant hosts == CountedAll(base, placed + UnitsOfChildren(children[..j]))
        invariant clusters == WithUnits(plain, base, placed + UnitsOfChildren(children[..j]))
        invariant ids == TouchedBy(UnitsOfChildren(children[..j]), base)
        invariant names' == AddName(names, TouchedBy(UnitsOfChildren(children[..j]), base), service.name)
      {
        ghost var before := UnitsOfChildren(children[..j]);
        OneMoreChild(children, j);
        ChildFits(children, j, base, plain);
        AddNameKeys(names, TouchedBy(before, base), service.name);
        names', ids := PlaceChild(children[j], service.name, names', ids, base, plain, placed + before);
        assert placed + before + children[j].units == placed + (before + children[j].units);
        TouchedTogether(before, children[j].units, base);
        NamesTogether(names, TouchedBy(before, base), TouchedBy(children[j].units, base), service.name);
      }
      assert children[..|children|] == children;
    }

    /** Counts every cluster at its site. */
    method CountClusters()
      requires forall c :: c in clusters ==> clusters[c].site in sites
      modifies this`sites
      ensures sites == WithClusters(old(sites), clusters.Keys, SiteOfCluster(clusters))
    {
      hide SiteOfCluster, WithClusters;
      ghost var before, siteOf := sites, SiteOfCluster(clusters);
      var rest := clusters.Keys;
      ghost var done: set<string> := {};
      NoClusters(before, siteOf);
      SiteOfEach(clusters);
      while rest != {}
        invariant rest !! done && rest + done == clusters.Keys
        invariant sites == WithClusters(before, done, siteOf) && sites.Keys == before.Keys
        decreases |rest|
      {
        var c :| c in rest;
        WithClustersMore(before, done, siteOf, c);
        assert siteOf[c] == clusters[c].site;
        var site := clusters[c].site;
        sites := sites[site := sites[site].(clusterCount := sites[site].clusterCount + 1)];
        rest, done := rest - {c}, done + {c};
      }
      assert done == clusters.Keys;
    }

    /** Counts one host in its cluster and at its cluster's site. */
    method CountHost(h: string, ghost base: map<string, Cluster>, ghost plain: map<string, Site>,
                     ghost done: set<string>,
                     ghost clusterOf: map<string, string>, ghost siteOf: map<string, string>)
      requires done <= clusterOf.Keys && done <= siteOf.Keys && h in clusterOf && h in siteOf && h !in done
      requires h in hosts && hosts[h].cluster == clusterOf[h] && clusterOf[h] in base
               && siteOf[h] == base[clusterOf[h]].site
      requires siteOf[h] in plain
      requires clusters == WithHosts(base, done, clusterOf) && sites == SitesWithHosts(plain, done, siteOf)
      modifies this`sites, this`clusters
      ensures clusters == WithHosts(base, done + {h}, clusterOf) && sites == SitesWithHosts(plain, done + {h}, siteOf)
    {
      hide WithHosts, SitesWithHosts;
      WithHostsMore(base, done, clusterOf, h);
      SitesWithHostsMore(plain, done, siteOf, h);
      WithHostsKeeps(base, done, clusterOf, hosts[h].cluster);
      SitesKeep(plain, done, siteOf);
      var id := hosts[h].cluster;
      var cluster := clusters[id];
      clusters := clusters[id := cluster.(hostCount := cluster.hostCount + 1)];
      sites := sites[cluster.site := sites[cluster.site].(hostCount := sites[cluster.site].hostCount + 1)];
    }

    /** Counts every host, and notes its health in its cluster. */
    method CountHosts(inputs: map<string, seq<Health>>) returns (inputs': map<string, seq<Health>>)
      requires Located(hosts, clusters, sites) && NoInputs(inputs, clusters.Keys)
      modifies this`sites, this`clusters
      ensures clusters == WithHosts(old(clusters), hosts.Keys, ClusterOf(hosts))
      ensures sites == SitesWithHosts(old(sites), hosts.Keys, SiteOfHost(hosts, old(clusters)))
      ensures Located(hosts, old(clusters), old(sites))
      ensures NotedIn(inputs', hosts, hosts.Keys, old(clusters).Keys)
    {
      hide *;
      HostMaps(hosts, clusters, sites);
      ghost var base, plain, clusterOf, siteOf := clusters, sites, ClusterOf(hosts), SiteOfHost(hosts, clusters);
      var rest := hosts.Keys;
      inputs' := inputs;
      NoHosts(clusters, clusterOf, sites, siteOf);
      NothingNoted(inputs, hosts, clusters.Keys);
      AllTaken(hosts.Keys);
      while rest != {}
        invariant rest <= hosts.Keys
        invariant clusters == WithHosts(base, Taken(hosts.Keys, rest), clusterOf)
        invariant sites == SitesWithHosts(plain, Taken(hosts.Keys, rest), siteOf)
        invariant NotedIn(inputs', hosts, Taken(hosts.Keys, rest), base.Keys)
        decreases |rest|
      {
        var h :| h in rest;
        ghost var done := Taken(hosts.Keys, rest);
        OneTaken(hosts.Keys, rest, h);
        HostLocated(hosts, base, plain, h);
        CountHost(h, base, plain, done, clusterOf, siteOf);
        NotedMore(inputs', hosts, done, base.Keys, h);
        NotedKeys(inputs', hosts, done, base.Keys);
        var id := hosts[h].cluster;
        inputs' := inputs'[id := inputs'[id] + [hosts[h].health]];
        rest := rest - {h};
      }
    }

    /** The loop over the services: units and volumes onto hosts, names and healths to clusters and sites. */
    method CountServices(names: map<string, set<string>>, inputs: map<string, seq<Health>>,
                         siteNames: map<string, set<string>>, siteInputs: map<string, seq<Health>>,
                         ghost base: map<string, Host>, ghost plain: map<string, Cluster>)
      returns (names': map<string, set<string>>, inputs': map<string, seq<Health>>,
               siteNames': map<string, set<string>>, siteInputs': map<string, seq<Health>>)
      requires hosts == CountedAll(base, []) && clusters == WithUnits(plain, base, [])
      requires ServicesFit(services, base, plain, sites.Keys)
      requires names == NamesMap([], base, plain.Keys) && inputs.Keys == plain.Keys
      requires siteNames == SiteNamesMap([], sites.Keys) && siteInputs == SiteInputsMap([], sites.Keys)
      modifies this`hosts, this`clusters
      ensures hosts == CountedAll(base, UnitsOf(services)) && clusters == WithUnits(plain, base, UnitsOf(services))
      ensures names' == NamesMap(services, base, plain.Keys) && inputs' == InputsMap(inputs, services, base)
      ensures siteNames' == SiteNamesMap(services, sites.Keys) && siteInputs' == SiteInputsMap(services, sites.Keys)
    {
      hide *;
      names', inputs', siteNames', siteInputs' := names, inputs, siteNames, siteInputs;
      FirstServices(inputs, services, base);
      for i := 0 to |services|
        invariant hosts == CountedAll(base, UnitsOf(services[..i]))
        invariant clusters == WithUnits(plain, base, UnitsOf(services[..i]))
        invariant names' == NamesMap(services[..i], base, plain.Keys)
        invariant inputs' == InputsMap(inputs, services[..i], base)
        invariant siteNames' == SiteNamesMap(services[..i], sites.Keys)
        invariant siteInputs' == SiteInputsMap(services[..i], sites.Keys)
      {
        var service := services[i];
        ServiceFits(services, i, base, plain, sites.Keys);
        UnitsMore(services, i);
        NamesMapMore(services, i, base, plain.Keys);
        InputsMapMore(inputs, services, i, base);
        SiteMapsMore(services, i, sites.Keys);
        MapKeys(inputs, services[..i], base, plain.Keys, sites.Keys);
        var ids: set<string>;
        names', ids := PlaceService(service, names', base, plain, UnitsOf(services[..i]));
        inputs' := NoteHealth(inputs', ids, service.health);
        siteNames' := siteNames'[service.site := siteNames'[service.site] + {service.name}];
        siteInputs' := siteInputs'[service.site := siteInputs'[service.site] + [service.health]];
      }
      assert services[..|services|] == services;
    }

    /** `_refresh_host_capacity_fields`. */
    method RefreshHostCapacityFields(before: Host) returns (host: Host)
      ensures host == WithCapacity(before)
    {
      var cpu, memory := Min(before.cpuCapacity, before.cpu), Min(before.memoryCapacity, before.memory);
      host := before.(cpuAllocated := cpu, cpuAvailable := AtLeastZero(before.cpuCapacity - cpu),
                      memoryAllocated := memory, memoryAvailable := AtLeastZero(before.memoryCapacity - memory));
      var disks := ShowDisks(host.disks);
      host := host.(disks := disks);
    }

    /** Calls it for every host. */
    method FillCapacity()
      modifies this`hosts
      ensures hosts == WithCapacities(old(hosts))
    {
      hide WithCapacity;
      ghost var before := hosts;
      var rest := hosts.Keys;
      while rest != {}
        invariant rest <= before.Keys
        invariant hosts == map h | h in before :: if h in rest then before[h] else WithCapacity(before[h])
        decreases |rest|
      {
        var h :| h in rest;
        var host := RefreshHostCapacityFields(hosts[h]);
        hosts := hosts[h := host];
        rest := rest - {h};
      }
    }

    method ShowDisks(before: map<string, Disk>) returns (disks: map<string, Disk>)
      ensures disks == map d | d in before :: Shown(before[d])
    {
      disks := before;
      var rest := disks.Keys;
      while rest != {}
        invariant rest <= before.Keys
        invariant disks == map d | d in before :: if d in rest then before[d] else Shown(before[d])
        decreases |rest|
      {
        var d :| d in rest;
        var used := Min(disks[d].capacity, disks[d].used);
        disks := disks[d := disks[d].(shownUsed := used, shownAvailable := AtLeastZero(disks[d].capacity - used))];
        rest := rest - {d};
      }
    }

    /** Fills the summaries of every cluster, and hands its health on to its site. */
    method SummariseClusters(names: map<string, set<string>>, inputs: map<string, seq<Health>>,
                             siteInputs: map<string, seq<Health>>)
      returns (siteInputs': map<string, seq<Health>>)
      requires names.Keys == inputs.Keys == clusters.Keys && siteInputs.Keys == sites.Keys
      requires forall c :: c in clusters ==> clusters[c].site in sites
      modifies this`clusters
      ensures clusters == Summarised(old(clusters), names, inputs)
      ensures PassedOn(siteInputs, siteInputs', clusters, clusters.Keys)
    {
      hide *;
      ghost var before, after := clusters, Summarised(clusters, names, inputs);
      siteInputs' := siteInputs;
      var rest := clusters.Keys;
      AllTaken(clusters.Keys);
      SummarisedKeys(clusters, names, inputs);
      MixedEnds(before, after);
      NothingPassedOn(siteInputs, after);
      while rest != {}
        invariant rest <= before.Keys
        invariant clusters == Mixed(before, after, rest)
        invariant PassedOn(siteInputs, siteInputs', after, Taken(before.Keys, rest))
        decreases |rest|
      {
        var c :| c in rest;
        OneTaken(before.Keys, rest, c);
        SummarisedAt(before, names, inputs, c);
        MixedMore(before, after, rest, c);
        PassedOnMore(siteInputs, siteInputs', after, Taken(before.Keys, rest), c);
        var cluster := clusters[c].(serviceGroupCount := |names[c]|, health := Aggregate(TallyOf(inputs[c])));
        clusters := clusters[c := cluster];
        siteInputs' := siteInputs'[cluster.site := siteInputs'[cluster.site] + [cluster.health]];
        rest := rest - {c};
      }
    }

    method SummariseSites(siteNames: map<string, set<string>>, siteInputs: map<string, seq<Health>>)
      requires siteNames.Keys == siteInputs.Keys == sites.Keys
      modifies this`sites
      ensures sites == SitesSummarised(old(sites), siteNames, siteInputs)
    {
      ghost var before := sites;
      ghost var after := SitesSummarised(sites, siteNames, siteInputs);
      var rest := sites.Keys;
      while rest != {}
        invariant rest <= before.Keys
        invariant sites == map s | s in before :: if s in rest then before[s] else after[s]
        decreases |rest|
      {
        var s :| s in rest;
        sites := sites[s := sites[s].(serviceGroupCount := |siteNames[s]|,
                                      health := Aggregate(TallyOf(siteInputs[s])))];
        rest := rest - {s};
      }
    }

    /** Counters to zero, then clusters and hosts counted in. */
    method CountInfrastructure(ghost t: Platform) returns (inputs: map<string, seq<Health>>)
      requires sites == t.sites && clusters == t.clusters && hosts == t.hosts && WellFormed(t)
      modifies this`sites, this`clusters, this`hosts
      ensures hosts == CountedAll(t.hosts, []) && clusters == HostsCounted(t) && sites == SitesCounted(t)
      ensures NotedIn(inputs, t.hosts, t.hosts.Keys, t.clusters.Keys)
    {
      hide *;
      ResetSites();
      ResetClusters();
      ResetHosts();
      ghost var s1, c1, h1 := sites, clusters, hosts;
      ResetLocated(t);
      CountClusters();
      ghost var s2 := sites;
      LocatedStill(h1, c1, s1, s2);
      inputs := map c | c in clusters :: [];
      assert NoInputs(inputs, clusters.Keys) by { NoInputsYet(inputs, clusters); }
      inputs := CountHosts(inputs);
      HostsCountedIn(t);
      SitesCountedIn(t);
      NotedSame(inputs, t);
    }

    method RefreshAll(ghost t: Platform)
      requires sites == t.sites && clusters == t.clusters && hosts == t.hosts && services == t.services && WellFormed(t)
      modifies this`sites, this`clusters, this`hosts
      ensures hosts == RefreshedHosts(t) && clusters == RefreshedClusters(t) && sites == RefreshedSites(t)
    {
      hide *;
      var inputs := CountInfrastructure(t);
      ghost var noted := inputs;
      var names: map<string, set<string>> := map c | c in clusters :: {};
      var siteNames: map<string, set<string>> := map s | s in sites :: {};
      var siteInputs: map<string, seq<Health>> := map s | s in sites :: [];
      ServicesReady(t, names, inputs, siteNames, siteInputs);
      names, inputs, siteNames, siteInputs :=
        CountServices(names, inputs, siteNames, siteInputs, t.hosts, HostsCounted(t));
      FillCapacity();
      HostsDone(t);
      ClustersReady(t, noted, inputs);
      ClustersDone(t, names, inputs);
      ghost var before := siteInputs;
      MapKeys(noted, services, t.hosts, clusters.Keys, sites.Keys);
      siteInputs := SummariseClusters(names, inputs, siteInputs);
      SitesDone(t, siteNames, before, siteInputs);
      SummariseSites(siteNames, siteInputs);
    }

    /** `_refresh_platform_aggregates`, on a platform whose references have been checked. */
    method RefreshPlatformAggregates()
      requires WellFormed(T())
      modifies this
      ensures T() == Refreshed(old(T())) && Agrees(T()) && WellFormed(T()) && SameTree(old(T()), T())
    {
      ghost var t := T();
      RefreshAll(t);
      RefreshOnce(t);
      RefreshedSameTree(t);
      StillWellFormed(t, T());
    }
  }

  lemma StillWellFormed(a: Platform, b: Platform)
    requires WellFormed(a) && SameTree(a, b)
    ensures WellFormed(b)
  {
    assert forall u :: u in UnitsOf(a.services) ==> UnitOk(u, a);
  }

  lemma ServicesReady(t: Platform, names: map<string, set<string>>, inputs: map<string, seq<Health>>,
                      siteNames: map<string, set<string>>, siteInputs: map<string, seq<Health>>)
    requires WellFormed(t) && NotedIn(inputs, t.hosts, t.hosts.Keys, t.clusters.Keys)
    requires names == map c | c in HostsCounted(t) :: {}
    requires siteNames == map s | s in SitesCounted(t) :: {}
    requires siteInputs == map s | s in SitesCounted(t) :: []
    ensures HostsCounted(t) == WithUnits(HostsCounted(t), t.hosts, [])
    ensures ServicesFit(t.services, t.hosts, HostsCounted(t), SitesCounted(t).Keys)
    ensures names == NamesMap([], t.hosts, HostsCounted(t).Keys) && inputs.Keys == HostsCounted(t).Keys
    ensures siteNames == SiteNamesMap([], SitesCounted(t).Keys) && siteInputs == SiteInputsMap([], SitesCounted(t).Keys)
  {
    hide UnitsOf, HostsIn, HostsAt, ClustersAt, TallyOf, TallyOfSet;
    assert forall u :: u in UnitsOf(t.services) ==> UnitOk(u, t);
    assert forall s :: NamesAt([], s) == {};
    assert forall c :: NamesIn([], t.hosts, c) == {};
  }

  predicate Tallied(inputs: map<string, seq<Health>>, t: Platform)
  {
    inputs.Keys == t.clusters.Keys
    && forall c :: c in t.clusters ==>
         TallyOf(inputs[c]) == Plus(TallyOfSet(HostHealths(t.hosts, c)), TallyOf(ServicesIn(t.services, t.hosts, c)))
  }

  lemma TallyNothing(a: seq<Health>)
    ensures TallyOf(a + []) == Plus(TallyOf(a), TallyOf([]))
  {
    assert a + [] == a;
  }

  lemma PlusAssociates(a: Tally, b: Tally, c: Tally)
    ensures Plus(Plus(a, b), c) == Plus(a, Plus(b, c))
  {
  }

  lemma {:induction false} TallyTogether(a: seq<Health>, b: seq<Health>)
    ensures TallyOf(a + b) == Plus(TallyOf(a), TallyOf(b))
    decreases |b|
  {
    hide TallyOf, Plus, One;
    if b == [] {
      TallyNothing(a);
    } else {
      var n := |b| - 1;
      assert a + b == a + b[..n] + [b[n]] && b == b[..n] + [b[n]];
      TallyTogether(a, b[..n]);
      TallyMore(a + b[..n], b[n]);
      TallyMore(b[..n], b[n]);
      PlusAssociates(TallyOf(a), TallyOf(b[..n]), One(b[n]));
    }
  }

  lemma HostsDone(t: Platform)
    ensures WithCapacities(CountedAll(t.hosts, UnitsOf(t.services))) == RefreshedHosts(t)
  {
    hide UnitsOf, Counted, WithCapacity;
  }

  lemma ClustersReady(t: Platform, noted: map<string, seq<Health>>, inputs: map<string, seq<Health>>)
    requires WellFormed(t) && NotedIn(noted, t.hosts, t.hosts.Keys, t.clusters.Keys)
    requires inputs == InputsMap(noted, t.services, t.hosts)
    ensures Tallied(inputs, t)
    ensures forall c :: c in WithUnits(HostsCounted(t), t.hosts, UnitsOf(t.services)) ==>
              WithUnits(HostsCounted(t), t.hosts, UnitsOf(t.services))[c].site in SitesCounted(t)
  {
    hide TallyOf, TallyOfSet, ServicesIn, UnitsOf, Plus, HostsIn, HostsAt, ClustersAt, CountIn;
    forall c | c in t.clusters ensures HealthsOf(t.hosts, t.hosts.Keys, c) == HostHealths(t.hosts, c) {
    }
    forall c | c in t.clusters
      ensures TallyOf(inputs[c]) == Plus(TallyOf(noted[c]), TallyOf(ServicesIn(t.services, t.hosts, c)))
    {
      TallyTogether(noted[c], ServicesIn(t.services, t.hosts, c));
    }
  }

  lemma ClustersDone(t: Platform, names: map<string, set<string>>, inputs: map<string, seq<Health>>)
    requires names == NamesMap(t.services, t.hosts, HostsCounted(t).Keys) && Tallied(inputs, t)
    ensures names.Keys == inputs.Keys == WithUnits(HostsCounted(t), t.hosts, UnitsOf(t.services)).Keys
    ensures Summarised(WithUnits(HostsCounted(t), t.hosts, UnitsOf(t.services)), names, inputs) == RefreshedClusters(t)
    ensures RefreshedClusters(t).Keys == t.clusters.Keys
  {
    hide TallyOf, TallyOfSet, ServicesIn, HostHealths, UnitsOf, Plus, HostsIn, CountIn, NamesIn, Aggregate;
  }

  lemma SitesDone(t: Platform, siteNames: map<string, set<string>>, before: map<string, seq<Health>>,
                  after: map<string, seq<Health>>)
    requires siteNames == SiteNamesMap(t.services, SitesCounted(t).Keys)
    requires before == SiteInputsMap(t.services, SitesCounted(t).Keys)
    requires PassedOn(before, after, RefreshedClusters(t), RefreshedClusters(t).Keys)
    ensures siteNames.Keys == after.Keys == SitesCounted(t).Keys
    ensures SitesSummarised(SitesCounted(t), siteNames, after) == RefreshedSites(t)
  {
    hide TallyOf, TallyOfSet, ServicesAt, NamesAt, Plus, HostsAt, ClustersAt, Aggregate, ClusterHealth, UnitsOf,
         CountIn, HostsIn,
         NamesIn;
    forall s | s in t.sites
      ensures HealthsAt(RefreshedClusters(t), RefreshedClusters(t).Keys, s) == ClusterHealths(t, s)
    {
    }
  }

  function HostsCounted(t: Platform): map<string, Cluster>
  {
    map c | c in t.clusters :: ResetCluster(t.clusters[c]).(hostCount := |HostsIn(t.hosts, c)|)
  }

  function SitesCounted(t: Platform): map<string, Site>
  {
    map s | s in t.sites :: Site(t.sites[s].health, |ClustersAt(t, s)|, |HostsAt(t, s)|, 0)
  }

  lemma ResetLocated(t: Platform)
    requires WellFormed(t)
    ensures Located(CountedAll(t.hosts, []), ClustersReset(t.clusters), SitesReset(t.sites))
    ensures forall c :: c in ClustersReset(t.clusters) ==> ClustersReset(t.clusters)[c].site in SitesReset(t.sites)
  {
    hide Counted, UnitsOf;
  }

  lemma LocatedStill(hosts: map<string, Host>, clusters: map<string, Cluster>, sites: map<string, Site>,
                     sites': map<string, Site>)
    requires Located(hosts, clusters, sites) && sites' == WithClusters(sites, clusters.Keys, SiteOfCluster(clusters))
    ensures Located(hosts, clusters, sites')
  {
  }

  lemma NoInputsYet(inputs: map<string, seq<Health>>, clusters: map<string, Cluster>)
    requires inputs == map c | c in clusters :: []
    ensures NoInputs(inputs, clusters.Keys)
  {
  }

  lemma CountedHostsSame(hosts: map<string, Host>, units: seq<Unit>)
    ensures CountedAll(hosts, units).Keys == hosts.Keys && ClusterOf(CountedAll(hosts, units)) == ClusterOf(hosts)
    ensures forall h :: h in hosts ==> CountedAll(hosts, units)[h].health == hosts[h].health
                                       && CountedAll(hosts, units)[h].cluster == hosts[h].cluster
  {
    hide Counted;
  }

  lemma HostsCountedIn(t: Platform)
    ensures var h1 := CountedAll(t.hosts, []);
            ClusterOf(h1).Keys == h1.Keys
            && WithHosts(ClustersReset(t.clusters), h1.Keys, ClusterOf(h1)) == HostsCounted(t)
  {
    hide CountedAll;
    CountedHostsSame(t.hosts, []);
    forall c | c in t.clusters ensures HostsIn(t.hosts, c) == PartOf(t.hosts.Keys, ClusterOf(t.hosts), c) {
    }
  }

  lemma SiteOfHostSame(t: Platform)
    requires WellFormed(t)
    ensures forall h :: h in t.hosts ==> t.hosts[h].cluster in t.clusters
    ensures var h1, c1 := CountedAll(t.hosts, []), ClustersReset(t.clusters);
            (forall h :: h in h1 ==> h1[h].cluster in c1)
            && SiteOfHost(h1, c1) == SiteOfHost(t.hosts, t.clusters) && h1.Keys == t.hosts.Keys
            && SiteOfCluster(c1) == SiteOfCluster(t.clusters) && c1.Keys == t.clusters.Keys
  {
    hide CountedAll, UnitsOf;
    CountedHostsSame(t.hosts, []);
  }

  lemma SitesCountedIn(t: Platform)
    requires WellFormed(t)
    ensures var h1, c1, s1 := CountedAll(t.hosts, []), ClustersReset(t.clusters), SitesReset(t.sites);
            (forall h :: h in h1 ==> h1[h].cluster in c1)
            && h1.Keys <= SiteOfHost(h1, c1).Keys && c1.Keys <= SiteOfCluster(c1).Keys
            && SitesWithHosts(WithClusters(s1, c1.Keys, SiteOfCluster(c1)), h1.Keys, SiteOfHost(h1, c1))
               == SitesCounted(t)
  {
    hide CountedAll, ClustersReset, SiteOfHost, SiteOfCluster, PartOf, WellFormed, ClustersAt, HostsAt;
    SiteOfHostSame(t);
    SiteOfHostKeys(t.hosts, t.clusters);
    SiteOfClusterKeys(t.clusters);
    forall s | s in t.sites
      ensures HostsAt(t, s) == PartOf(t.hosts.Keys, SiteOfHost(t.hosts, t.clusters), s)
      ensures ClustersAt(t, s) == PartOf(t.clusters.Keys, SiteOfCluster(t.clusters), s)
    {
      PartsAtSite(t, s);
    }
  }

  lemma NotedSame(inputs: map<string, seq<Health>>, t: Platform)
    requires var h1 := CountedAll(t.hosts, []); NotedIn(inputs, h1, h1.Keys, ClustersReset(t.clusters).Keys)
    ensures NotedIn(inputs, t.hosts, t.hosts.Keys, t.clusters.Keys)
  {
    hide CountedAll, TallyOf, TallyOfSet;
    CountedHostsSame(t.hosts, []);
    var h1 := CountedAll(t.hosts, []);
    forall c | c in t.clusters ensures HealthsOf(h1, h1.Keys, c) == HealthsOf(t.hosts, t.hosts.Keys, c) {
    }
  }

  /** A map of which the entries outside rest have been replaced. */
  function Mixed<V>(before: map<string, V>, after: map<string, V>, rest: set<string>): map<string, V>
    requires before.Keys == after.Keys
  {
    map k | k in before :: if k in rest then before[k] else after[k]
  }

  lemma MixedEnds<V>(before: map<string, V>, after: map<string, V>)
    requires before.Keys == after.Keys
    ensures Mixed(before, after, before.Keys) == before && Mixed(before, after, {}) == after
  {
  }

  lemma MixedMore<V>(before: map<string, V>, after: map<string, V>, rest: set<string>, k: string)
    requires before.Keys == after.Keys && k in rest && k in before
    ensures k in Mixed(before, after, rest) && Mixed(before, after, rest)[k] == before[k]
    ensures Mixed(before, after, rest - {k}) == Mixed(before, after, rest)[k := after[k]]
  {
  }

  lemma SummarisedKeys(clusters: map<string, Cluster>, names: map<string, set<string>>,
                       inputs: map<string, seq<Health>>)
    requires names.Keys == inputs.Keys == clusters.Keys
    ensures Summarised(clusters, names, inputs).Keys == clusters.Keys
  {
  }

  function Summarised(clusters: map<string, Cluster>, names: map<string, set<string>>, inputs: map<string, seq<Health>>)
    : map<string, Cluster>
    requires names.Keys == inputs.Keys == clusters.Keys
  {
    map c | c in clusters :: clusters[c].(serviceGroupCount := |names[c]|, health := Aggregate(TallyOf(inputs[c])))
  }

  function SitesSummarised(sites: map<string, Site>, names: map<string, set<string>>, inputs: map<string, seq<Health>>)
    : map<string, Site>
    requires names.Keys == inputs.Keys == sites.Keys
  {
    map s | s in sites :: sites[s].(serviceGroupCount := |names[s]|, health := Aggregate(TallyOf(inputs[s])))
  }

  lemma SummarisedAt(clusters: map<string, Cluster>, names: map<string, set<string>>,
                     inputs: map<string, seq<Health>>, c: string)
    requires names.Keys == inputs.Keys == clusters.Keys && c in clusters
    ensures var after := Summarised(clusters, names, inputs);
            after.Keys == clusters.Keys && after[c].site == clusters[c].site
            && after[c] == clusters[c].(serviceGroupCount := |names[c]|, health := Aggregate(TallyOf(inputs[c])))
  {
  }

  function HealthsAt(clusters: map<string, Cluster>, done: set<string>, site: string): map<string, Health>
  {
    map c | c in clusters && c in done && clusters[c].site == site :: clusters[c].health
  }

  /** Each site's inputs have grown by the healths of its clusters, in some order. */
  predicate PassedOn(before: map<string, seq<Health>>, after: map<string, seq<Health>>,
                     clusters: map<string, Cluster>, done: set<string>)
  {
    after.Keys == before.Keys
    && forall s :: s in before ==>
           TallyOf(after[s]) == Plus(TallyOf(before[s]), TallyOfSet(HealthsAt(clusters, done, s)))
  }

  lemma NothingPassedOn(inputs: map<string, seq<Health>>, clusters: map<string, Cluster>)
    ensures PassedOn(inputs, inputs, clusters, {})
  {
    EmptyTally();
    forall s | s in inputs ensures HealthsAt(clusters, {}, s) == map[] {
    }
  }

  lemma HealthsAtMore(clusters: map<string, Cluster>, done: set<string>, c: string, s: string)
    requires c in clusters && c !in done
    ensures c !in HealthsAt(clusters, done, s)
    ensures HealthsAt(clusters, done + {c}, s)
            == if clusters[c].site == s then HealthsAt(clusters, done, s)[c := clusters[c].health]
               else HealthsAt(clusters, done, s)
  {
  }

  lemma PassedOnMore(before: map<string, seq<Health>>, after: map<string, seq<Health>>, clusters: map<string, Cluster>,
                     done: set<string>, c: string)
    requires PassedOn(before, after, clusters, done) && c in clusters && c !in done && clusters[c].site in before
    ensures var s := clusters[c].site;
            s in after && PassedOn(before, after[s := after[s] + [clusters[c].health]], clusters, done + {c})
  {
    hide TallyOf, TallyOfSet, HealthsAt;
    var site := clusters[c].site;
    HealthsAtMore(clusters, done, c, site);
    TallyMore(after[site], clusters[c].health);
    TallySetMore(HealthsAt(clusters, done, site), c, clusters[c].health);
    forall s | s in before && s != site ensures HealthsAt(clusters, done + {c}, s) == HealthsAt(clusters, done, s) {
      HealthsAtMore(clusters, done, c, s);
    }
  }

  method NoteHealth(before: map<string, seq<Health>>, ids: set<string>, health: Health)
    returns (inputs: map<string, seq<Health>>)
    requires ids <= before.Keys
    ensures inputs == AddInput(before, ids, health)
  {
    inputs := before;
    var rest := ids;
    assert forall c :: c in before ==> before[c] + [] == before[c];
    while rest != {}
      invariant rest <= ids
      invariant inputs == map c | c in before :: before[c] + if c in ids && c !in rest then [health] else []
      decreases |rest|
    {
      var c :| c in rest;
      inputs := inputs[c := inputs[c] + [health]];
      rest := rest - {c};
    }
  }

  // ---------------------------------------------------------------- services, one more

  function NamesMap(services: seq<Service>, hosts: map<string, Host>, clusters: set<string>): map<string, set<string>>
  {
    map c | c in clusters :: NamesIn(services, hosts, c)
  }

  function InputsMap(inputs: map<string, seq<Health>>, services: seq<Service>, hosts: map<string, Host>)
    : map<string, seq<Health>>
  {
    map c | c in inputs :: inputs[c] + ServicesIn(services, hosts, c)
  }

  function SiteNamesMap(services: seq<Service>, sites: set<string>): map<string, set<string>>
  {
    map s | s in sites :: NamesAt(services, s)
  }

  function SiteInputsMap(services: seq<Service>, sites: set<string>): map<string, seq<Health>>
  {
    map s | s in sites :: ServicesAt(services, s)
  }

  predicate ServicesFit(services: seq<Service>, hosts: map<string, Host>, clusters: map<string, Cluster>,
                        sites: set<string>)
  {
    UnitsFit(UnitsOf(services), hosts, clusters) && forall i :: 0 <= i < |services| ==> services[i].site in sites
  }

  lemma {:induction false} ServiceUnits(services: seq<Service>, i: nat)
    requires i < |services|
    ensures forall u :: u in UnitsOfChildren(services[i].children) ==> u in UnitsOf(services)
  {
    var n := |services| - 1;
    if i == n {
    } else {
      ServiceUnits(services[..n], i);
    }
  }

  lemma ServiceFits(services: seq<Service>, i: nat, hosts: map<string, Host>, clusters: map<string, Cluster>,
                    sites: set<string>)
    requires i < |services| && ServicesFit(services, hosts, clusters, sites)
    ensures UnitsFit(UnitsOfChildren(services[i].children), hosts, clusters) && services[i].site in sites
    ensures TouchedBy(UnitsOfChildren(services[i].children), hosts) <= clusters.Keys
  {
    ServiceUnits(services, i);
  }

  lemma UnitsMore(services: seq<Service>, i: nat)
    requires i < |services|
    ensures UnitsOf(services[..i + 1]) == UnitsOf(services[..i]) + UnitsOfChildren(services[i].children)
  {
    assert services[..i + 1][..i] == services[..i];
  }

  lemma TouchesMeans(s: Service, hosts: map<string, Host>, c: string)
    ensures Touches(s, hosts, c) <==> c in TouchedBy(UnitsOfChildren(s.children), hosts)
  {
  }

  lemma NamesInMore(services: seq<Service>, i: nat, hosts: map<string, Host>, c: string)
    requires i < |services|
    ensures NamesIn(services[..i + 1], hosts, c)
            == NamesIn(services[..i], hosts, c) + if Touches(services[i], hosts, c) then {services[i].name} else {}
  {
    hide Touches;
    var before, after := services[..i], services[..i + 1];
    assert after[i] == services[i] && forall j :: 0 <= j < i ==> after[j] == before[j];
    forall name | name in NamesIn(before, hosts, c) ensures name in NamesIn(after, hosts, c) {
      var j :| 0 <= j < i && Touches(before[j], hosts, c) && before[j].name == name;
      assert Touches(after[j], hosts, c) && after[j].name == name;
    }
  }

  lemma NamesMapMore(services: seq<Service>, i: nat, hosts: map<string, Host>, clusters: set<string>)
    requires i < |services|
    ensures NamesMap(services[..i + 1], hosts, clusters)
            == AddName(NamesMap(services[..i], hosts, clusters),
                       TouchedBy(UnitsOfChildren(services[i].children), hosts),
                       services[i].name)
  {
    hide NamesIn, TouchedBy, Touches;
    forall c | c in clusters
      ensures NamesIn(services[..i + 1], hosts, c)
              == NamesIn(services[..i], hosts, c)
                 + if c in TouchedBy(UnitsOfChildren(services[i].children), hosts) then {services[i].name} else {}
    {
      NamesInMore(services, i, hosts, c);
      TouchesMeans(services[i], hosts, c);
    }
  }

  lemma ServicesInMore(services: seq<Service>, i: nat, hosts: map<string, Host>, c: string)
    requires i < |services|
    ensures ServicesIn(services[..i + 1], hosts, c)
            == ServicesIn(services[..i], hosts, c)
               + if c in TouchedBy(UnitsOfChildren(services[i].children), hosts) then [services[i].health] else []
  {
    TouchesMeans(services[i], hosts, c);
    assert services[..i + 1][..i] == services[..i];
  }

  lemma InputsMapMore(inputs: map<string, seq<Health>>, services: seq<Service>, i: nat, hosts: map<string, Host>)
    requires i < |services|
    ensures InputsMap(inputs, services[..i + 1], hosts)
            == AddInput(InputsMap(inputs, services[..i], hosts),
                        TouchedBy(UnitsOfChildren(services[i].children), hosts),
                        services[i].health)
  {
    hide ServicesIn, TouchedBy;
    forall c | c in inputs
      ensures InputsMap(inputs, services[..i + 1], hosts)[c]
              == InputsMap(inputs, services[..i], hosts)[c]
                 + if c in TouchedBy(UnitsOfChildren(services[i].children), hosts) then [services[i].health] else []
    {
      ServicesInMore(services, i, hosts, c);
    }
  }

  lemma NamesAtMore(services: seq<Service>, i: nat, s: string)
    requires i < |services|
    ensures NamesAt(services[..i + 1], s)
            == if services[i].site == s then NamesAt(services[..i], s) + {services[i].name}
               else NamesAt(services[..i], s)
    ensures ServicesAt(services[..i + 1], s)
            == if services[i].site == s then ServicesAt(services[..i], s) + [services[i].health]
               else ServicesAt(services[..i], s)
  {
    var before, after := services[..i], services[..i + 1];
    assert after[..i] == before && after[i] == services[i] && forall j :: 0 <= j < i ==> after[j] == before[j];
    forall name | name in NamesAt(before, s) ensures name in NamesAt(after, s) {
      var j :| 0 <= j < i && before[j].site == s && before[j].name == name;
      assert after[j].site == s && after[j].name == name;
    }
  }

  lemma SiteMapsMore(services: seq<Service>, i: nat, sites: set<string>)
    requires i < |services| && services[i].site in sites
    ensures var s := services[i].site;
            var names, inputs := SiteNamesMap(services[..i], sites), SiteInputsMap(services[..i], sites);
            SiteNamesMap(services[..i + 1], sites) == names[s := names[s] + {services[i].name}]
            && SiteInputsMap(services[..i + 1], sites) == inputs[s := inputs[s] + [services[i].health]]
  {
    hide NamesAt, ServicesAt;
    forall s | s in sites
      ensures NamesAt(services[..i + 1], s)
              == if services[i].site == s then NamesAt(services[..i], s) + {services[i].name}
                 else NamesAt(services[..i], s)
      ensures ServicesAt(services[..i + 1], s)
              == if services[i].site == s then ServicesAt(services[..i], s) + [services[i].health]
                 else ServicesAt(services[..i], s)
    {
      NamesAtMore(services, i, s);
    }
  }

  lemma MapKeys(inputs: map<string, seq<Health>>, services: seq<Service>, hosts: map<string, Host>,
                clusters: set<string>,
                sites: set<string>)
    ensures NamesMap(services, hosts, clusters).Keys == clusters
            && InputsMap(inputs, services, hosts).Keys == inputs.Keys
    ensures SiteNamesMap(services, sites).Keys == sites == SiteInputsMap(services, sites).Keys
  {
  }

  lemma FirstServices(inputs: map<string, seq<Health>>, services: seq<Service>, hosts: map<string, Host>)
    ensures services[..0] == [] && UnitsOf([]) == [] && InputsMap(inputs, [], hosts) == inputs
  {
    assert forall c :: c in inputs ==> InputsMap(inputs, [], hosts)[c] == inputs[c];
  }

  /** The keys a loop has dealt with when rest are left. */
  function Taken<K>(keys: set<K>, rest: set<K>): (r: set<K>)
    ensures r <= keys
  {
    keys - rest
  }

  lemma AllTaken<K>(keys: set<K>)
    ensures Taken(keys, keys) == {} && Taken(keys, {}) == keys
  {
  }

  lemma OneTaken<K>(keys: set<K>, rest: set<K>, k: K)
    requires rest <= keys && k in rest
    ensures k !in Taken(keys, rest) && k in keys && Taken(keys, rest - {k}) == Taken(keys, rest) + {k}
  {
  }

  lemma SitesKeep(sites: map<string, Site>, done: set<string>, siteOf: map<string, string>)
    requires done <= siteOf.Keys
    ensures SitesWithHosts(sites, done, siteOf).Keys == sites.Keys
  {
  }

  lemma NotedKeys(inputs: map<string, seq<Health>>, hosts: map<string, Host>, done: set<string>, clusters: set<string>)
    requires NotedIn(inputs, hosts, done, clusters)
    ensures inputs.Keys == clusters
  {
  }

  function WithHosts(clusters: map<string, Cluster>, done: set<string>, clusterOf: map<string, string>)
    : map<string, Cluster>
    requires done <= clusterOf.Keys
  {
    map c | c in clusters :: clusters[c].(hostCount := clusters[c].hostCount + |PartOf(done, clusterOf, c)|)
  }

  function SitesWithHosts(sites: map<string, Site>, done: set<string>, siteOf: map<string, string>): map<string, Site>
    requires done <= siteOf.Keys
  {
    map s | s in sites :: sites[s].(hostCount := sites[s].hostCount + |PartOf(done, siteOf, s)|)
  }

  function HealthsOf(hosts: map<string, Host>, done: set<string>, cluster: string): map<string, Health>
  {
    map h | h in hosts && h in done && hosts[h].cluster == cluster :: hosts[h].health
  }

  /** The inputs of each cluster are the healths of its hosts, in some order. */
  predicate NotedIn(inputs: map<string, seq<Health>>, hosts: map<string, Host>, done: set<string>,
                    clusters: set<string>)
  {
    inputs.Keys == clusters && forall c :: c in clusters ==> TallyOf(inputs[c]) == TallyOfSet(HealthsOf(hosts, done, c))
  }

  predicate Located(hosts: map<string, Host>, clusters: map<string, Cluster>, sites: map<string, Site>)
    ensures Located(hosts, clusters, sites) ==> forall h :: h in hosts ==> hosts[h].cluster in clusters
  {
    && (forall h :: h in hosts ==> hosts[h].cluster in clusters)
    && (forall c :: c in clusters ==> clusters[c].site in sites)
  }

  lemma HostMaps(hosts: map<string, Host>, clusters: map<string, Cluster>, sites: map<string, Site>)
    requires Located(hosts, clusters, sites)
    ensures ClusterOf(hosts).Keys == hosts.Keys == SiteOfHost(hosts, clusters).Keys
  {
  }

  lemma HostLocated(hosts: map<string, Host>, clusters: map<string, Cluster>, sites: map<string, Site>, h: string)
    requires Located(hosts, clusters, sites) && h in hosts
    ensures hosts[h].cluster in clusters && clusters[hosts[h].cluster].site in sites
    ensures h in ClusterOf(hosts) && ClusterOf(hosts)[h] == hosts[h].cluster
    ensures h in SiteOfHost(hosts, clusters) && SiteOfHost(hosts, clusters)[h] == clusters[hosts[h].cluster].site
  {
  }

  lemma NoHosts(clusters: map<string, Cluster>, clusterOf: map<string, string>, sites: map<string, Site>,
                siteOf: map<string, string>)
    ensures WithHosts(clusters, {}, clusterOf) == clusters && SitesWithHosts(sites, {}, siteOf) == sites
  {
    assert forall c :: PartOf({}, clusterOf, c) == {} && PartOf({}, siteOf, c) == {};
  }

  lemma WithHostsMore(clusters: map<string, Cluster>, done: set<string>, clusterOf: map<string, string>, h: string)
    requires done <= clusterOf.Keys && h in clusterOf && h !in done && clusterOf[h] in clusters
    ensures var before, c := WithHosts(clusters, done, clusterOf), clusterOf[h];
            WithHosts(clusters, done + {h}, clusterOf) == before[c := before[c].(hostCount := before[c].hostCount + 1)]
  {
    hide PartOf;
    PartMore(done, clusterOf, h);
  }

  lemma WithHostsKeeps(clusters: map<string, Cluster>, done: set<string>, clusterOf: map<string, string>, c: string)
    requires done <= clusterOf.Keys && c in clusters
    ensures WithHosts(clusters, done, clusterOf).Keys == clusters.Keys
    ensures WithHosts(clusters, done, clusterOf)[c].site == clusters[c].site
  {
  }

  lemma SitesWithHostsMore(sites: map<string, Site>, done: set<string>, siteOf: map<string, string>, h: string)
    requires done <= siteOf.Keys && h in siteOf && h !in done && siteOf[h] in sites
    ensures var before, s := SitesWithHosts(sites, done, siteOf), siteOf[h];
            SitesWithHosts(sites, done + {h}, siteOf) == before[s := before[s].(hostCount := before[s].hostCount + 1)]
  {
    hide PartOf;
    PartMore(done, siteOf, h);
  }

  lemma TallyMore(list: seq<Health>, h: Health)
    ensures TallyOf(list + [h]) == Plus(TallyOf(list), One(h))
  {
    assert (list + [h])[..|list|] == list;
  }

  lemma HavingMore(m: map<string, Health>, k: string, h: Health, x: Health)
    requires k !in m
    ensures |Having(m[k := h], x)| == |Having(m, x)| + if h == x then 1 else 0
  {
    assert Having(m[k := h], x) == Having(m, x) + if h == x then {k} else {};
  }

  lemma KeysMore(m: map<string, Health>, k: string, h: Health)
    requires k !in m
    ensures |m[k := h].Keys| == |m.Keys| + 1
  {
    assert m[k := h].Keys == m.Keys + {k};
  }

  lemma TallySetMore(m: map<string, Health>, k: string, h: Health)
    requires k !in m
    ensures TallyOfSet(m[k := h]) == Plus(TallyOfSet(m), One(h))
  {
    hide Having;
    HavingMore(m, k, h, Unhealthy);
    HavingMore(m, k, h, Warn);
    KeysMore(m, k, h);
  }

  predicate NoInputs(inputs: map<string, seq<Health>>, keys: set<string>)
  {
    inputs.Keys == keys && forall c :: c in keys ==> inputs[c] == []
  }

  lemma NothingNoted(inputs: map<string, seq<Health>>, hosts: map<string, Host>, clusters: set<string>)
    requires NoInputs(inputs, clusters)
    ensures NotedIn(inputs, hosts, {}, clusters)
  {
    forall c | c in clusters ensures TallyOf(inputs[c]) == TallyOfSet(HealthsOf(hosts, {}, c)) {
      assert HealthsOf(hosts, {}, c) == map[];
      EmptyTally();
    }
  }

  lemma EmptyTally()
    ensures TallyOfSet(map[]) == Tally(0, 0, 0)
  {
    assert forall x :: Having(map[], x) == {};
  }

  lemma HealthsMore(hosts: map<string, Host>, done: set<string>, h: string, c: string)
    requires h in hosts && h !in done
    ensures HealthsOf(hosts, done + {h}, c)
            == if hosts[h].cluster == c then HealthsOf(hosts, done, c)[h := hosts[h].health]
               else HealthsOf(hosts, done, c)
  {
  }

  lemma NotedMore(inputs: map<string, seq<Health>>, hosts: map<string, Host>, done: set<string>,
                  clusters: set<string>, h: string)
    requires NotedIn(inputs, hosts, done, clusters) && h in hosts && h !in done && hosts[h].cluster in clusters
    ensures var c := hosts[h].cluster;
            NotedIn(inputs[c := inputs[c] + [hosts[h].health]], hosts, done + {h}, clusters)
  {
    hide TallyOf, TallyOfSet, HealthsOf, Plus, One;
    var id := hosts[h].cluster;
    NotYetNoted(hosts, done, h);
    TallyMore(inputs[id], hosts[h].health);
    TallySetMore(HealthsOf(hosts, done, id), h, hosts[h].health);
    forall c | c in clusters
      ensures HealthsOf(hosts, done + {h}, c) == if c == id then HealthsOf(hosts, done, c)[h := hosts[h].health]
                                                 else HealthsOf(hosts, done, c)
    {
      HealthsMore(hosts, done, h, c);
    }
  }

  lemma NotYetNoted(hosts: map<string, Host>, done: set<string>, h: string)
    requires h !in done
    ensures forall c :: h !in HealthsOf(hosts, done, c)
  {
  }

  function WithClusters(sites: map<string, Site>, done: set<string>, siteOf: map<string, string>): map<string, Site>
    requires done <= siteOf.Keys
  {
    map s | s in sites :: sites[s].(clusterCount := sites[s].clusterCount + |PartOf(done, siteOf, s)|)
  }

  lemma SiteOfEach(clusters: map<string, Cluster>)
    ensures SiteOfCluster(clusters).Keys == clusters.Keys
    ensures forall c :: c in clusters ==> SiteOfCluster(clusters)[c] == clusters[c].site
  {
  }

  lemma NoClusters(sites: map<string, Site>, siteOf: map<string, string>)
    ensures WithClusters(sites, {}, siteOf) == sites
  {
    assert forall s :: PartOf({}, siteOf, s) == {};
  }

  lemma WithClustersMore(sites: map<string, Site>, done: set<string>, siteOf: map<string, string>, c: string)
    requires done <= siteOf.Keys && c in siteOf && c !in done && siteOf[c] in sites
    ensures var before, s := WithClusters(sites, done, siteOf), siteOf[c];
            WithClusters(sites, done + {c}, siteOf)
                == before[s := before[s].(clusterCount := before[s].clusterCount + 1)]
  {
    hide PartOf;
    PartMore(done, siteOf, c);
  }

  lemma TouchedMore(units: seq<Unit>, k: nat, hosts: map<string, Host>)
    requires k < |units| && units[k].host in hosts
    ensures TouchedBy(units[..k + 1], hosts) == TouchedBy(units[..k], hosts) + {hosts[units[k].host].cluster}
  {
    assert units[..k + 1] == units[..k] + [units[k]];
  }

  lemma NameMore(names: map<string, set<string>>, touched: set<string>, c: string, name: string)
    requires c in names
    ensures var before := AddName(names, touched, name);
            AddName(names, touched + {c}, name) == before[c := before[c] + {name}]
  {
    var before, after := AddName(names, touched, name), AddName(names, touched + {c}, name);
    assert forall k :: k in names ==> after[k] == if k == c then before[k] + {name} else before[k];
  }

  lemma NoName(names: map<string, set<string>>, name: string)
    ensures AddName(names, {}, name) == names
  {
    assert forall k :: k in names ==> AddName(names, {}, name)[k] == names[k];
  }

  lemma OneMoreChild(children: seq<Child>, j: nat)
    requires j < |children|
    ensures UnitsOfChildren(children[..j + 1]) == UnitsOfChildren(children[..j]) + children[j].units
  {
    assert children[..j + 1][..j] == children[..j];
  }

  lemma {:induction false} ChildUnits(children: seq<Child>, j: nat)
    requires j < |children|
    ensures forall u :: u in children[j].units ==> u in UnitsOfChildren(children)
  {
    var n := |children| - 1;
    if j == n {
    } else {
      ChildUnits(children[..n], j);
    }
  }

  lemma ChildFits(children: seq<Child>, j: nat, hosts: map<string, Host>, clusters: map<string, Cluster>)
    requires j < |children| && UnitsFit(UnitsOfChildren(children), hosts, clusters)
    ensures UnitsFit(children[j].units, hosts, clusters)
  {
    ChildUnits(children, j);
  }

  lemma AddNameKeys(names: map<string, set<string>>, touched: set<string>, name: string)
    ensures AddName(names, touched, name).Keys == names.Keys
  {
  }

  lemma TouchedTogether(a: seq<Unit>, b: seq<Unit>, hosts: map<string, Host>)
    ensures TouchedBy(a + b, hosts) == TouchedBy(a, hosts) + TouchedBy(b, hosts)
  {
  }

  lemma NamesTogether(names: map<string, set<string>>, a: set<string>, b: set<string>, name: string)
    ensures AddName(AddName(names, a, name), b, name) == AddName(names, a + b, name)
  {
    var left, right := AddName(AddName(names, a, name), b, name), AddName(names, a + b, name);
    assert forall c :: c in names ==> left[c] == right[c];
  }

  lemma PartMore<K(!new), G(!new)>(done: set<K>, f: map<K, G>, k: K)
    requires done <= f.Keys && k in f && k !in done
    ensures forall g :: |PartOf(done + {k}, f, g)| == |PartOf(done, f, g)| + if g == f[k] then 1 else 0
  {
    forall g ensures |PartOf(done + {k}, f, g)| == |PartOf(done, f, g)| + if g == f[k] then 1 else 0 {
      assert PartOf(done + {k}, f, g) == PartOf(done, f, g) + if g == f[k] then {k} else {};
    }
  }
}
