/** What summaries that agree with the tree amount to: saturation, conservation, and that there is only one
    way to agree. */
module PlatformLaws {
  import opened PlatformTree

  // ---------------------------------------------------------------- saturation

  function SumOf(sizes: seq<real>): real
  {
    if sizes == [] then 0.0 else SumOf(sizes[..|sizes| - 1]) + sizes[|sizes| - 1]
  }

  /** What a device shows as used. */
  function ShownUsed(capacity: real, base: real, sizes: seq<real>): real
  {
    Min(capacity, Saturate(capacity, base, sizes))
  }

  predicate TailsNonNegative(sizes: seq<real>)
  {
    forall k :: 0 < k < |sizes| ==> SumOf(sizes[k..]) >= 0.0
  }

  /** Saturation never exceeds the plain sum, and falls short of it only by what some tail could not take. */
  lemma {:induction false} SaturateBounds(capacity: real, base: real, sizes: seq<real>) returns (k: nat)
    ensures Saturate(capacity, base, sizes) <= base + SumOf(sizes)
    ensures forall j :: 0 < j <= |sizes| ==> Saturate(capacity, base, sizes) <= capacity + SumOf(sizes[j..])
    ensures k <= |sizes| && Saturate(capacity, base, sizes) == (if k == 0 then base else capacity) + SumOf(sizes[k..])
  {
    if sizes == [] {
      return 0;
    }
    var n := |sizes| - 1;
    var before := sizes[..n];
    k := SaturateBounds(capacity, base, before);
    assert sizes[n + 1..] == [];
    forall j | 0 < j <= |sizes|
      ensures Saturate(capacity, base, sizes) <= capacity + SumOf(sizes[j..])
    {
      if j <= n {
        TailStep(sizes, j);
        assert Saturate(capacity, base, before) <= capacity + SumOf(before[j..]);
      }
    }
    if Saturate(capacity, base, before) + sizes[n] < capacity {
      TailStep(sizes, k);
    } else {
      k := |sizes|;
    }
  }

  lemma TailStep(sizes: seq<real>, j: nat)
    requires j < |sizes|
    ensures SumOf(sizes[j..]) == SumOf(sizes[..|sizes| - 1][j..]) + sizes[|sizes| - 1]
  {
    var tail := sizes[j..];
    assert tail[..|tail| - 1] == sizes[..|sizes| - 1][j..];
  }

  /** A device shows the smaller of its capacity and base plus sizes, whatever capacity and base are, exactly
      if no proper tail of the sizes sums to less than nothing. */
  lemma ShownUsedExactly(sizes: seq<real>)
    ensures TailsNonNegative(sizes)
            <==> forall capacity, base :: ShownUsed(capacity, base, sizes) == Min(capacity, base + SumOf(sizes))
  {
    if TailsNonNegative(sizes) {
      forall capacity, base ensures ShownUsed(capacity, base, sizes) == Min(capacity, base + SumOf(sizes)) {
        var k := SaturateBounds(capacity, base, sizes);
        if k == 0 {
          assert sizes[0..] == sizes;
        } else if k < |sizes| {
          assert SumOf(sizes[k..]) >= 0.0;
        } else {
          assert sizes[k..] == [];
        }
      }
    } else {
      var k :| 0 < k < |sizes| && SumOf(sizes[k..]) < 0.0;
      var base := AtLeastZero(-SumOf(sizes)) + 1.0;
      var _ := SaturateBounds(0.0, base, sizes);
      assert ShownUsed(0.0, base, sizes) < Min(0.0, base + SumOf(sizes));
    }
  }

  /** In particular if no volume has a negative size, which the interface for changing them enforces. */
  lemma SizesNonNegative(sizes: seq<real>)
    requires forall i :: 0 <= i < |sizes| ==> sizes[i] >= 0.0
    ensures TailsNonNegative(sizes)
  {
    forall k | 0 < k < |sizes| ensures SumOf(sizes[k..]) >= 0.0 {
      SumNonNegative(sizes[k..]);
    }
  }

  lemma {:induction false} SumNonNegative(sizes: seq<real>)
    requires forall i :: 0 <= i < |sizes| ==> sizes[i] >= 0.0
    ensures SumOf(sizes) >= 0.0
  {
    if sizes == [] {
    } else {
      SumNonNegative(sizes[..|sizes| - 1]);
    }
  }

  lemma HostIsSummary(t: Platform, h: string)
    requires Agrees(t) && h in t.hosts
    ensures t.hosts[h] == HostSummary(t, h)
  {
  }

  lemma DiskSummary(t: Platform, h: string, d: string)
    requires Agrees(t) && h in t.hosts && d in t.hosts[h].disks
    ensures var disk := t.hosts[h].disks[d];
            disk.shownUsed == ShownUsed(disk.capacity, disk.base, SizesOn(UnitsOf(t.services), h, d))
            && disk.shownAvailable == AtLeastZero(disk.capacity - disk.shownUsed)
  {
    hide Agrees, UnitsOf, SizesOn, Saturate, CountOn, CpuOn, MemoryOn;
    HostIsSummary(t, h);
  }

  /** What a device shows as used is the smaller of its capacity and what it holds, and the rest is available. */
  lemma DeviceShowsUse(t: Platform, h: string, d: string)
    requires Agrees(t) && h in t.hosts && d in t.hosts[h].disks
    requires forall i :: 0 <= i < |SizesOn(UnitsOf(t.services), h, d)| ==> SizesOn(UnitsOf(t.services), h, d)[i] >= 0.0
    ensures var disk := t.hosts[h].disks[d];
            var held := disk.base + SumOf(SizesOn(UnitsOf(t.services), h, d));
            && disk.shownUsed == (if held <= disk.capacity then held else disk.capacity)
            && disk.shownAvailable == (if held <= disk.capacity then disk.capacity - held else 0.0)
  {
    hide *;
    DiskSummary(t, h, d);
    var disk := t.hosts[h].disks[d];
    ShownUsedWithin(disk.capacity, disk.base, SizesOn(UnitsOf(t.services), h, d));
    SmallerAndRest(disk.capacity, disk.base + SumOf(SizesOn(UnitsOf(t.services), h, d)));
  }

  lemma SmallerAndRest(capacity: real, held: real)
    ensures Min(capacity, held) == if held <= capacity then held else capacity
    ensures AtLeastZero(capacity - Min(capacity, held)) == if held <= capacity then capacity - held else 0.0
  {
  }

  lemma ShownUsedWithin(capacity: real, base: real, sizes: seq<real>)
    requires forall i :: 0 <= i < |sizes| ==> sizes[i] >= 0.0
    ensures ShownUsed(capacity, base, sizes) == Min(capacity, base + SumOf(sizes))
  {
    hide ShownUsed, SumOf, TailsNonNegative, Min;
    SizesNonNegative(sizes);
    ShownUsedExactly(sizes);
  }

  // ---------------------------------------------------------------- conservation

  ghost function Total<K(!new)>(m: map<K, nat>): nat
  {
    if m.Keys == {} then 0
    else
      var k :| k in m;
      m[k] + Total(m - {k})
  }

  lemma {:induction false} TotalWithout<K(!new)>(m: map<K, nat>, k: K)
    requires k in m
    ensures Total(m) == m[k] + Total(m - {k})
    decreases |m|
  {
    var first :| first in m && Total(m) == m[first] + Total(m - {first});
    if first != k {
      TotalWithout(m - {first}, k);
      TotalWithout(m - {k}, first);
      assert m - {first} - {k} == m - {k} - {first};
    }
  }

  /** Adding one to one entry adds one to the total. */
  lemma TotalPlusOne<K(!new)>(m: map<K, nat>, m': map<K, nat>, k: K)
    requires k in m && m' == m[k := m[k] + 1]
    ensures Total(m') == Total(m) + 1
  {
    TotalWithout(m, k);
    TotalWithout(m', k);
    assert m' - {k} == m - {k};
  }

  lemma {:induction false} TotalOfZeros<K(!new)>(m: map<K, nat>)
    requires forall k :: k in m ==> m[k] == 0
    ensures Total(m) == 0
    decreases |m|
  {
    if m.Keys != {} {
      var k :| k in m && Total(m) == m[k] + Total(m - {k});
      TotalOfZeros(m - {k});
    }
  }

  function PartOf<K(!new), G(==, !new)>(ks: set<K>, f: map<K, G>, g: G): set<K>
    requires ks <= f.Keys
  {
    set k | k in ks && f[k] == g
  }

  /** The parts into which a function divides a set, counted. */
  function Parts<K(!new), G(==, !new)>(ks: set<K>, gs: set<G>, f: map<K, G>): map<G, nat>
    requires ks <= f.Keys
  {
    map g | g in gs :: |PartOf(ks, f, g)|
  }

  /** One more element makes one part larger by one. */
  lemma OneMorePart<K(!new), G(!new)>(ks: set<K>, gs: set<G>, f: map<K, G>, k: K)
    requires k in f && ks <= f.Keys && k !in ks && f[k] in gs
    ensures var m := Parts(ks, gs, f); Parts(ks + {k}, gs, f) == m[f[k] := m[f[k]] + 1]
  {
    forall g | g in gs
      ensures |PartOf(ks + {k}, f, g)| == |PartOf(ks, f, g)| + if g == f[k] then 1 else 0
    {
      var with, without := PartOf(ks + {k}, f, g), PartOf(ks, f, g);
      assert with == if g == f[k] then without + {k} else without;
    }
  }

  lemma {:induction false} PartsAddUp<K(!new), G(!new)>(ks: set<K>, gs: set<G>, f: map<K, G>)
    requires ks <= f.Keys && forall k :: k in ks ==> f[k] in gs
    ensures Total(Parts(ks, gs, f)) == |ks|
    decreases |ks|
  {
    if ks == {} {
      assert forall g :: g in gs ==> PartOf(ks, f, g) == {};
      TotalOfZeros(Parts(ks, gs, f));
    } else {
      var k :| k in ks;
      var rest := ks - {k};
      assert rest + {k} == ks;
      PartsAddUp(rest, gs, f);
      OneMorePart(rest, gs, f, k);
      TotalPlusOne(Parts(rest, gs, f), Parts(ks, gs, f), f[k]);
    }
  }

  function HostCounts(t: Platform): map<string, nat> { map h | h in t.hosts :: t.hosts[h].unitCount }

  function ClusterUnitCounts(t: Platform): map<string, nat> { map c | c in t.clusters :: t.clusters[c].unitCount }

  function ClusterHostCounts(t: Platform): map<string, nat> { map c | c in t.clusters :: t.clusters[c].hostCount }

  function SiteClusterCounts(t: Platform): map<string, nat> { map s | s in t.sites :: t.sites[s].clusterCount }

  function SiteHostCounts(t: Platform): map<string, nat> { map s | s in t.sites :: t.sites[s].hostCount }

  function SiteServiceCounts(t: Platform): map<string, nat> { map s | s in t.sites :: t.sites[s].serviceGroupCount }

  function CountMap(units: seq<Unit>, hosts: set<string>): map<string, nat> { map h | h in hosts :: CountOn(units, h) }

  function CountInMap(units: seq<Unit>, hosts: map<string, Host>, clusters: set<string>): map<string, nat>
  {
    map c | c in clusters :: CountIn(units, hosts, c)
  }

  lemma {:induction false} CountsOnHosts(units: seq<Unit>, hosts: set<string>)
    requires forall u :: u in units ==> u.host in hosts
    ensures Total(CountMap(units, hosts)) == |units|
  {
    var m := CountMap(units, hosts);
    if units == [] {
      TotalOfZeros(m);
    } else {
      var n := |units| - 1;
      CountsOnHosts(units[..n], hosts);
      var before := CountMap(units[..n], hosts);
      assert units[n] in units;
      assert m == before[units[n].host := before[units[n].host] + 1];
      TotalPlusOne(before, m, units[n].host);
    }
  }

  lemma {:induction false} CountsInClusters(units: seq<Unit>, hosts: map<string, Host>, clusters: set<string>)
    requires forall u :: u in units ==> u.host in hosts && hosts[u.host].cluster in clusters
    ensures Total(CountInMap(units, hosts, clusters)) == |units|
  {
    var m := CountInMap(units, hosts, clusters);
    if units == [] {
      TotalOfZeros(m);
    } else {
      var n := |units| - 1;
      CountsInClusters(units[..n], hosts, clusters);
      var before := CountInMap(units[..n], hosts, clusters);
      assert units[n] in units;
      var c := hosts[units[n].host].cluster;
      assert m == before[c := before[c] + 1];
      TotalPlusOne(before, m, c);
    }
  }

  lemma HostAgrees(t: Platform, h: string)
    requires Agrees(t) && h in t.hosts
    ensures t.hosts[h].unitCount == CountOn(UnitsOf(t.services), h)
  {
    assert t.hosts[h] == HostSummary(t, h);
  }

  lemma ClusterAgrees(t: Platform, c: string)
    requires Agrees(t) && c in t.clusters
    ensures t.clusters[c].unitCount == CountIn(UnitsOf(t.services), t.hosts, c)
    ensures t.clusters[c].hostCount == |HostsIn(t.hosts, c)|
  {
    assert t.clusters[c] == ClusterSummary(t, c);
  }

  lemma SiteAgrees(t: Platform, s: string)
    requires Agrees(t) && s in t.sites
    ensures t.sites[s].clusterCount == |ClustersAt(t, s)| && t.sites[s].hostCount == |HostsAt(t, s)|
    ensures t.sites[s].serviceGroupCount == |NamesAt(t.services, s)|
  {
    assert t.sites[s] == SiteSummary(t, s);
  }

  lemma UnitsPlaced(t: Platform)
    requires WellFormed(t)
    ensures forall u :: u in UnitsOf(t.services) ==> u.host in t.hosts && t.hosts[u.host].cluster in t.clusters
  {
    assert forall u :: u in UnitsOf(t.services) ==> UnitOk(u, t);
  }

  lemma CountsAgree(t: Platform)
    requires Agrees(t)
    ensures HostCounts(t) == CountMap(UnitsOf(t.services), t.hosts.Keys)
    ensures ClusterUnitCounts(t) == CountInMap(UnitsOf(t.services), t.hosts, t.clusters.Keys)
  {
    hide Agrees, UnitsOf, CountOn, CountIn;
    var units := UnitsOf(t.services);
    forall h | h in t.hosts ensures HostCounts(t)[h] == CountMap(units, t.hosts.Keys)[h] {
      HostAgrees(t, h);
    }
    assert HostCounts(t) == CountMap(units, t.hosts.Keys);
    forall c | c in t.clusters ensures ClusterUnitCounts(t)[c] == CountInMap(units, t.hosts, t.clusters.Keys)[c] {
      ClusterAgrees(t, c);
    }
    assert ClusterUnitCounts(t) == CountInMap(units, t.hosts, t.clusters.Keys);
  }

  /** No unit is lost or counted twice, per host and per cluster ... */
  lemma UnitsConserved(t: Platform)
    requires WellFormed(t) && Agrees(t)
    ensures Total(HostCounts(t)) == |UnitsOf(t.services)| == Total(ClusterUnitCounts(t))
  {
    hide *;
    UnitsPlaced(t);
    CountsAgree(t);
    CountsOnHosts(UnitsOf(t.services), t.hosts.Keys);
    CountsInClusters(UnitsOf(t.services), t.hosts, t.clusters.Keys);
  }

  function ClusterOf(hosts: map<string, Host>): map<string, string> { map h | h in hosts :: hosts[h].cluster }

  function SiteOfHost(hosts: map<string, Host>, clusters: map<string, Cluster>): map<string, string>
    requires forall h :: h in hosts ==> hosts[h].cluster in clusters
  {
    map h | h in hosts :: clusters[hosts[h].cluster].site
  }

  function SiteOfCluster(clusters: map<string, Cluster>): map<string, string>
  {
    map c | c in clusters :: clusters[c].site
  }

  lemma WellFormedMeans(t: Platform)
    requires WellFormed(t)
    ensures forall h :: h in t.hosts ==> t.hosts[h].cluster in t.clusters
  {
  }

  lemma HostsPerCluster(t: Platform)
    requires WellFormed(t) && Agrees(t)
    ensures ClusterHostCounts(t) == Parts(t.hosts.Keys, t.clusters.Keys, ClusterOf(t.hosts))
  {
    hide Agrees, WellFormed;
    forall c | c in t.clusters
      ensures ClusterHostCounts(t)[c] == Parts(t.hosts.Keys, t.clusters.Keys, ClusterOf(t.hosts))[c]
    {
      ClusterAgrees(t, c);
      assert HostsIn(t.hosts, c) == PartOf(t.hosts.Keys, ClusterOf(t.hosts), c);
    }
  }

  lemma PartsAtSite(t: Platform, s: string)
    requires WellFormed(t)
    ensures HostsAt(t, s) == PartOf(t.hosts.Keys, SiteOfHost(t.hosts, t.clusters), s)
    ensures ClustersAt(t, s) == PartOf(t.clusters.Keys, SiteOfCluster(t.clusters), s)
  {
    hide WellFormed;
    WellFormedMeans(t);
  }

  lemma HostsPerSite(t: Platform)
    requires WellFormed(t) && Agrees(t)
    ensures SiteHostCounts(t) == Parts(t.hosts.Keys, t.sites.Keys, SiteOfHost(t.hosts, t.clusters))
  {
    hide Agrees, WellFormed, HostsAt, ClustersAt, PartOf, SiteOfHost, SiteOfCluster;
    WellFormedMeans(t);
    SiteOfHostKeys(t.hosts, t.clusters);
    forall s | s in t.sites
      ensures t.sites[s].hostCount == |PartOf(t.hosts.Keys, SiteOfHost(t.hosts, t.clusters), s)|
    {
      SiteAgrees(t, s);
      PartsAtSite(t, s);
    }
  }

  lemma ClustersPerSite(t: Platform)
    requires WellFormed(t) && Agrees(t)
    ensures SiteClusterCounts(t) == Parts(t.clusters.Keys, t.sites.Keys, SiteOfCluster(t.clusters))
  {
    hide Agrees, WellFormed, HostsAt, ClustersAt, PartOf, SiteOfHost, SiteOfCluster;
    WellFormedMeans(t);
    SiteOfClusterKeys(t.clusters);
    forall s | s in t.sites
      ensures t.sites[s].clusterCount == |PartOf(t.clusters.Keys, SiteOfCluster(t.clusters), s)|
    {
      SiteAgrees(t, s);
      PartsAtSite(t, s);
    }
  }

  lemma SiteOfHostKeys(hosts: map<string, Host>, clusters: map<string, Cluster>)
    requires forall h :: h in hosts ==> hosts[h].cluster in clusters
    ensures SiteOfHost(hosts, clusters).Keys == hosts.Keys
  {
  }

  lemma SiteOfClusterKeys(clusters: map<string, Cluster>)
    ensures SiteOfCluster(clusters).Keys == clusters.Keys
  {
  }

  /** ... nor is a host or a cluster, per cluster and per site ... */
  lemma HostsAndClustersConserved(t: Platform)
    requires WellFormed(t) && Agrees(t)
    ensures Total(ClusterHostCounts(t)) == |t.hosts| == Total(SiteHostCounts(t))
    ensures Total(SiteClusterCounts(t)) == |t.clusters|
  {
    HostsPerCluster(t);
    HostsPerSite(t);
    ClustersPerSite(t);
    PartsAddUp(t.hosts.Keys, t.clusters.Keys, ClusterOf(t.hosts));
    PartsAddUp(t.hosts.Keys, t.sites.Keys, SiteOfHost(t.hosts, t.clusters));
    PartsAddUp(t.clusters.Keys, t.sites.Keys, SiteOfCluster(t.clusters));
  }

  function ServiceNames(services: seq<Service>): set<string> { set i | 0 <= i < |services| :: services[i].name }

  lemma {:induction false} NamesCount(services: seq<Service>)
    requires forall i, j :: 0 <= i < j < |services| ==> services[i].name != services[j].name
    ensures |ServiceNames(services)| == |services|
  {
    if services == [] {
    } else {
      var n := |services| - 1;
      NamesCount(services[..n]);
      assert ServiceNames(services) == ServiceNames(services[..n]) + {services[n].name} by {
        forall x | x in ServiceNames(services) ensures x in ServiceNames(services[..n]) + {services[n].name} {
          var i :| 0 <= i < |services| && services[i].name == x;
          assert i < n ==> services[..n][i].name == x;
        }
        forall x | x in ServiceNames(services[..n]) ensures x in ServiceNames(services) {
          var i :| 0 <= i < n && services[..n][i].name == x;
          assert services[i].name == x;
        }
      }
    }
  }

  function SiteOfName(services: seq<Service>): map<string, string>
  {
    map name | name in ServiceNames(services) :: SiteOfService(services, name)
  }

  lemma NamesAreParts(services: seq<Service>, s: string)
    requires forall i, j :: 0 <= i < j < |services| ==> services[i].name != services[j].name
    ensures NamesAt(services, s) == PartOf(ServiceNames(services), SiteOfName(services), s)
  {
    forall i | 0 <= i < |services| ensures SiteOfService(services, services[i].name) == services[i].site {
      SiteOfServiceAt(services, i);
    }
  }

  lemma SitesOfNames(t: Platform)
    requires WellFormed(t)
    ensures forall name :: name in ServiceNames(t.services) ==> SiteOfName(t.services)[name] in t.sites
  {
    forall i | 0 <= i < |t.services| ensures SiteOfService(t.services, t.services[i].name) == t.services[i].site {
      SiteOfServiceAt(t.services, i);
    }
  }

  lemma NamesDiffer(t: Platform)
    requires WellFormed(t)
    ensures forall i, j :: 0 <= i < j < |t.services| ==> t.services[i].name != t.services[j].name
  {
  }

  /** ... nor a service group per site. */
  lemma ServicesConserved(t: Platform)
    requires WellFormed(t) && Agrees(t)
    ensures Total(SiteServiceCounts(t)) == |t.services|
  {
    hide Agrees, WellFormed, NamesAt, ServiceNames, SiteOfName;
    NamesDiffer(t);
    var names, siteOf := ServiceNames(t.services), SiteOfName(t.services);
    NamesCount(t.services);
    SitesOfNames(t);
    SiteOfNameKeys(t.services);
    PartsAddUp(names, t.sites.Keys, siteOf);
    forall s | s in t.sites ensures SiteServiceCounts(t)[s] == Parts(names, t.sites.Keys, siteOf)[s] {
      NamesAreParts(t.services, s);
      SiteAgrees(t, s);
    }
    assert SiteServiceCounts(t) == Parts(names, t.sites.Keys, siteOf);
  }

  lemma SiteOfNameKeys(services: seq<Service>)
    ensures SiteOfName(services).Keys == ServiceNames(services)
  {
  }

  function SiteOfService(services: seq<Service>, name: string): string
  {
    if services == [] then ""
    else if services[0].name == name then services[0].site
    else SiteOfService(services[1..], name)
  }

  lemma {:induction false} SiteOfServiceAt(services: seq<Service>, i: nat)
    requires i < |services| && forall j, k :: 0 <= j < k < |services| ==> services[j].name != services[k].name
    ensures SiteOfService(services, services[i].name) == services[i].site
  {
    if i == 0 {
    } else {
      SiteOfServiceAt(services[1..], i - 1);
    }
  }

  // ---------------------------------------------------------------- one way to agree

  function RefreshedHosts(t: Platform): map<string, Host> { map h | h in t.hosts :: HostSummary(t, h) }

  function RefreshedClusters(t: Platform): map<string, Cluster> { map c | c in t.clusters :: ClusterSummary(t, c) }

  function RefreshedSites(t: Platform): map<string, Site> { map s | s in t.sites :: SiteSummary(t, s) }

  /** The platform with every summary field filled from the tree. */
  function Refreshed(t: Platform): Platform
  {
    Platform(RefreshedSites(t), RefreshedClusters(t), RefreshedHosts(t), t.services)
  }

  lemma DiskDepends(a: Host, b: Host, id: string, units: seq<Unit>)
    requires SameHost(a, b)
    ensures WithCapacity(Counted(a, id, units)).disks == WithCapacity(Counted(b, id, units)).disks
  {
    hide CountOn, CpuOn, MemoryOn, SizesOn, Saturate;
    var x, y := WithCapacity(Counted(a, id, units)).disks, WithCapacity(Counted(b, id, units)).disks;
    forall d | d in a.disks ensures x[d] == y[d] {
    }
  }

  lemma HostDepends(a: Host, b: Host, id: string, units: seq<Unit>)
    requires SameHost(a, b)
    ensures WithCapacity(Counted(a, id, units)) == WithCapacity(Counted(b, id, units))
  {
    hide CountOn, CpuOn, MemoryOn, SizesOn, Saturate, Shown;
    DiskDepends(a, b, id, units);
  }

  /** Hosts are in the same clusters. */
  predicate SamePlaces(a: map<string, Host>, b: map<string, Host>)
  {
    a.Keys == b.Keys && forall h :: h in a ==> a[h].cluster == b[h].cluster && a[h].health == b[h].health
  }

  lemma {:induction false} CountInDepends(units: seq<Unit>, a: map<string, Host>, b: map<string, Host>, c: string)
    requires SamePlaces(a, b)
    ensures CountIn(units, a, c) == CountIn(units, b, c)
  {
    if units == [] {
    } else {
      CountInDepends(units[..|units| - 1], a, b, c);
    }
  }

  lemma TouchesDepends(s: Service, a: map<string, Host>, b: map<string, Host>, c: string)
    requires SamePlaces(a, b)
    ensures Touches(s, a, c) <==> Touches(s, b, c)
  {
  }

  lemma {:induction false} ServicesInDepends(services: seq<Service>, a: map<string, Host>, b: map<string, Host>,
                                             c: string)
    requires SamePlaces(a, b)
    ensures ServicesIn(services, a, c) == ServicesIn(services, b, c)
  {
    if services == [] {
    } else {
      ServicesInDepends(services[..|services| - 1], a, b, c);
      TouchesDepends(services[|services| - 1], a, b, c);
    }
  }

  lemma NamesInDepends(services: seq<Service>, a: map<string, Host>, b: map<string, Host>, c: string)
    requires SamePlaces(a, b)
    ensures NamesIn(services, a, c) == NamesIn(services, b, c)
  {
    hide Touches;
    forall i | 0 <= i < |services| ensures Touches(services[i], a, c) <==> Touches(services[i], b, c) {
      TouchesDepends(services[i], a, b, c);
    }
  }

  lemma ClusterHealthDepends(a: Platform, b: Platform, c: string)
    requires a.services == b.services && SamePlaces(a.hosts, b.hosts)
    ensures ClusterHealth(a, c) == ClusterHealth(b, c)
  {
    hide TallyOfSet, TallyOf, ServicesIn, Aggregate, Plus;
    ServicesInDepends(a.services, a.hosts, b.hosts, c);
    assert HostHealths(a.hosts, c) == HostHealths(b.hosts, c);
  }

  lemma ClusterDepends(a: Platform, b: Platform, c: string)
    requires a.services == b.services && SamePlaces(a.hosts, b.hosts) && c in a.clusters && c in b.clusters
    requires a.clusters[c].site == b.clusters[c].site
    ensures ClusterSummary(a, c) == ClusterSummary(b, c)
  {
    hide ClusterHealth, NamesIn, CountIn, UnitsOf;
    CountInDepends(UnitsOf(a.services), a.hosts, b.hosts, c);
    NamesInDepends(a.services, a.hosts, b.hosts, c);
    ClusterHealthDepends(a, b, c);
    assert HostsIn(a.hosts, c) == HostsIn(b.hosts, c);
  }

  lemma SiteDepends(a: Platform, b: Platform, s: string)
    requires a.services == b.services && SamePlaces(a.hosts, b.hosts) && s in a.sites && s in b.sites
    requires a.clusters.Keys == b.clusters.Keys && forall c :: c in a.clusters ==>
                       a.clusters[c].site == b.clusters[c].site
    ensures SiteSummary(a, s) == SiteSummary(b, s)
  {
    hide TallyOfSet, TallyOf, Aggregate, Plus, ServicesAt, NamesAt, ClusterHealth;
    forall c | c in a.clusters ensures ClusterHealth(a, c) == ClusterHealth(b, c) {
      ClusterHealthDepends(a, b, c);
    }
    assert ClusterHealths(a, s) == ClusterHealths(b, s);
    assert HostsAt(a, s) == HostsAt(b, s);
    assert ClustersAt(a, s) == ClustersAt(b, s);
  }

  /** The summaries depend on the tree only. */
  lemma RefreshedDepends(a: Platform, b: Platform)
    requires SameTree(a, b)
    ensures Refreshed(a) == Refreshed(b)
  {
    hide HostSummary, ClusterSummary, SiteSummary, SameHost;
    forall h | h in a.hosts ensures HostSummary(a, h) == HostSummary(b, h) {
      HostDependsOnTree(a, b, h);
    }
    assert RefreshedHosts(a) == RefreshedHosts(b);
    TreePlaces(a, b);
    forall c | c in a.clusters ensures ClusterSummary(a, c) == ClusterSummary(b, c) {
      ClusterDepends(a, b, c);
    }
    assert RefreshedClusters(a) == RefreshedClusters(b);
    forall s | s in a.sites ensures SiteSummary(a, s) == SiteSummary(b, s) {
      SiteDepends(a, b, s);
    }
    assert RefreshedSites(a) == RefreshedSites(b);
  }

  lemma HostDependsOnTree(a: Platform, b: Platform, h: string)
    requires SameTree(a, b) && h in a.hosts
    ensures HostSummary(a, h) == HostSummary(b, h)
  {
    hide Counted, WithCapacity, UnitsOf;
    HostDepends(a.hosts[h], b.hosts[h], h, UnitsOf(a.services));
  }

  lemma TreePlaces(a: Platform, b: Platform)
    requires SameTree(a, b)
    ensures SamePlaces(a.hosts, b.hosts)
  {
  }

  lemma SummarySameHost(h: Host, id: string, units: seq<Unit>)
    ensures SameHost(h, WithCapacity(Counted(h, id, units)))
  {
    hide CountOn, CpuOn, MemoryOn, SizesOn, Saturate;
  }

  lemma RefreshedSameTree(t: Platform)
    ensures SameTree(t, Refreshed(t))
  {
    hide Counted, WithCapacity, UnitsOf, ClusterHealth, NamesIn, CountIn, HostsIn, SiteSummary, SameHost;
    forall h | h in t.hosts ensures SameHost(t.hosts[h], Refreshed(t).hosts[h]) {
      SummarySameHost(t.hosts[h], h, UnitsOf(t.services));
    }
  }

  /** Agreeing is being refreshed, so a refresh makes a platform agree and a second one changes nothing ... */
  lemma RefreshOnce(t: Platform)
    ensures Agrees(t) <==> t == Refreshed(t)
    ensures Refreshed(Refreshed(t)) == Refreshed(t) && Agrees(Refreshed(t))
  {
    AgreesIsRefreshed(t);
    AgreesIsRefreshed(Refreshed(t));
    RefreshedSameTree(t);
    RefreshedDepends(t, Refreshed(t));
  }

  lemma AgreesIsRefreshed(t: Platform)
    ensures Agrees(t) <==> t == Refreshed(t)
  {
    hide HostSummary, ClusterSummary, SiteSummary;
  }

  /** ... and two platforms with the same tree that both agree with it are the same. */
  lemma AgreesOnlyOnce(a: Platform, b: Platform)
    requires Agrees(a) && Agrees(b) && SameTree(a, b)
    ensures a == b
  {
    RefreshOnce(a);
    RefreshOnce(b);
    RefreshedDepends(a, b);
  }
}
