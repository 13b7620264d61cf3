/** When one cleaning is enough (dbaas/metric_cleanup.py): exactly if the file names of a directory pair off. */
module MetricCleanupLaws {
  import opened Wrappers
  import opened MetricCleanup

  /** Every meta that has its data file beside it is also the meta of that data file. Keys that end in ".meta",
      and the empty key, break this. */
  predicate Tidy(names: set<string>)
  {
    forall m :: m in names && IsMeta(m) && DataFor(m) in names ==> IsData(DataFor(m)) && MetaFor(DataFor(m)) == m
  }

  predicate Takes(v: Verdict) { v.Bad? || v.ExpiredPair? }

  predicate Doomed(files: Files, done: set<string>, n: string, now: Time)
  {
    (IsMeta(n) && n in done && !Judge(files, n, now).Healthy?)
    || (IsData(n) && MetaFor(n) in done && DataFor(MetaFor(n)) == n && Takes(Judge(files, MetaFor(n), now)))
  }

  function Elements(order: seq<string>): set<string> { set m | m in order }

  /** What is left when these metas have been looked at. */
  function Left(files: Files, done: set<string>, now: Time): Files
  {
    map n | n in files && !Doomed(files, done, n, now) :: files[n]
  }

  lemma MetaAndData(name: string)
    ensures !(IsMeta(name) && IsData(name))
    ensures EndsWith(name, DATA) ==> IsMeta(MetaFor(name))
  {
  }

  lemma JudgedAsAtFirst(files: Files, done: set<string>, m: string, now: Time)
    requires Tidy(files.Keys) && m in files && IsMeta(m) && m !in done
    ensures Judge(Left(files, done, now), m, now) == Judge(files, m, now)
    ensures m in Left(files, done, now)
  {
    var d := DataFor(m);
    if d in files {
      assert IsData(d) && MetaFor(d) == m;
    }
  }

  lemma ScrubLeft(files: Files, done: set<string>, m: string, now: Time)
    requires Tidy(files.Keys) && m in files && IsMeta(m) && m !in done
    ensures Scrub(Left(files, done, now), m, now) == Left(files, done + {m}, now)
  {
    JudgedAsAtFirst(files, done, m, now);
    var before, after := Left(files, done, now), Left(files, done + {m}, now);
    var d, v := DataFor(m), Judge(files, m, now);
    if d in files {
      assert IsData(d) && MetaFor(d) == m;
    }
    forall n | n in files
      ensures Doomed(files, done + {m}, n, now)
              <==> Doomed(files, done, n, now) || (n == m && !v.Healthy?) || (n == d && Takes(v))
    {
    }
  }

  lemma {:induction false} ScrubAllLeft(files: Files, order: seq<string>, now: Time)
    requires Tidy(files.Keys) && (forall m :: m in order ==> m in files && IsMeta(m))
    requires forall i, j :: 0 <= i < j < |order| ==> order[i] != order[j]
    ensures ScrubAll(files, order, now) == Left(files, Elements(order), now)
  {
    if order == [] {
      assert Left(files, {}, now) == files;
      assert Elements(order) == {};
    } else {
      var n := |order| - 1;
      ScrubAllLeft(files, order[..n], now);
      ScrubLeft(files, Elements(order[..n]), order[n], now);
      assert Elements(order) == Elements(order[..n]) + {order[n]} by {
        assert order == order[..n] + [order[n]];
      }
    }
  }

  /** The meta can be read, names the data file beside it, which is there, and has not expired. */
  predicate Sound(files: Files, m: string, now: Time)
    requires |m| >= 10
  {
    && m in files && files[m].Doc? && files[m].dataPath == Some(m[..|m| - 10] + ".json")
    && m[..|m| - 10] + ".json" in files && files[m].expiresAt.Some? && files[m].expiresAt.value >= now
  }

  /** The verdicts, in terms of what stands in the directory. */
  lemma VerdictExactly(files: Files, m: string, now: Time)
    requires IsMeta(m)
    ensures var data := m[..|m| - 10] + ".json";
            var v, readable := Judge(files, m, now), m in files && files[m].Doc? && files[m].dataPath == Some(data);
            && (v.Healthy? <==> Sound(files, m, now)) && (v.Bad? <==> !readable)
            && (v.MissingData? <==> readable && data !in files)
            && (v.ExpiredPair? <==> readable && data in files
                                    && (files[m].expiresAt.None? || files[m].expiresAt.value < now))
  {
  }

  /** Every meta is healthy and every data file has its meta. */
  predicate AllWell(files: Files, now: Time)
  {
    && (forall m :: m in files && IsMeta(m) ==> Judge(files, m, now).Healthy?)
    && (forall d :: d in files && IsData(d) ==> MetaFor(d) in files)
  }

  lemma CleanedIsLeft(files: Files, order: seq<string>, now: Time)
    requires Tidy(files.Keys) && Enumerates(order, MetasOf(files))
    ensures forall m :: m in order ==> m in files && IsMeta(m)
    ensures Cleaned(files, order, now) == Sweep(Left(files, MetasOf(files), now))
  {
    forall m | m in order ensures m in files && IsMeta(m) {
      assert m in MetasOf(files);
    }
    ScrubAllLeft(files, order, now);
    assert Elements(order) == MetasOf(files);
  }

  /** In a directory whose names pair off, cleaning leaves exactly the healthy metas with their data, and
      touches nothing else. */
  lemma CleanedWell(files: Files, order: seq<string>, now: Time)
    requires Tidy(files.Keys) && Enumerates(order, MetasOf(files))
    ensures forall m :: m in order ==> IsMeta(m)
    ensures var f := Cleaned(files, order, now);
            && AllWell(f, now) && (forall n :: n in f ==> n in files && f[n] == files[n])
            && (forall m :: m in files && IsMeta(m) && Judge(files, m, now).Healthy? ==> m in f && DataFor(m) in f)
            && (forall m :: IsMeta(m) ==> (m in f <==> Sound(files, m, now)))
            && (forall n :: n in files && !EndsWith(n, DATA) ==> n in f)
  {
    CleanedIsLeft(files, order, now);
    var left := Left(files, MetasOf(files), now);
    var f := Sweep(left);
    forall m | m in files && IsMeta(m) && Judge(files, m, now).Healthy?
      ensures m in f && DataFor(m) in f
    {
      HealthyStays(files, m, now);
    }
    forall m | m in f && IsMeta(m) ensures Judge(f, m, now).Healthy? && Sound(files, m, now) {
      assert m in MetasOf(files);
      HealthyStays(files, m, now);
      VerdictExactly(files, m, now);
    }
    forall m | IsMeta(m) && Sound(files, m, now) ensures m in f {
      VerdictExactly(files, m, now);
      HealthyStays(files, m, now);
    }
    forall d | d in f && IsData(d) ensures MetaFor(d) in f {
      MetaAndData(d);
    }
    forall n | n in files && !EndsWith(n, DATA) ensures n in f {
      NeitherMetaNorData(n);
    }
  }

  lemma MetaEndsLikeData(n: string)
    requires IsMeta(n)
    ensures EndsWith(n, DATA)
  {
    assert n[|n| - 5..] == n[|n| - 10..][5..];
  }

  lemma NeitherMetaNorData(n: string)
    requires !EndsWith(n, DATA)
    ensures !IsMeta(n) && !IsData(n)
  {
    if IsMeta(n) {
      MetaEndsLikeData(n);
    }
  }

  lemma HealthyStays(files: Files, m: string, now: Time)
    requires Tidy(files.Keys) && m in files && IsMeta(m) && Judge(files, m, now).Healthy?
    ensures var f := Sweep(Left(files, MetasOf(files), now));
            m in f && DataFor(m) in f && Judge(f, m, now).Healthy?
  {
    var d := DataFor(m);
    assert IsData(d) && MetaFor(d) == m;
    var left := Left(files, MetasOf(files), now);
    assert m in left && d in left;
    assert !Orphan(left, d) && !Orphan(left, m);
  }

  lemma {:induction false} NothingToScrub(files: Files, order: seq<string>, now: Time)
    requires AllWell(files, now) && forall m :: m in order ==> m in files && IsMeta(m)
    ensures ScrubAll(files, order, now) == files
  {
    if order == [] {
    } else {
      NothingToScrub(files, order[..|order| - 1], now);
      assert order[|order| - 1] in order;
    }
  }

  /** A second cleaning at the same time finds nothing to do. */
  lemma WellStaysWell(files: Files, order: seq<string>, now: Time)
    requires AllWell(files, now) && Enumerates(order, MetasOf(files))
    ensures forall m :: m in order ==> IsMeta(m)
    ensures Cleaned(files, order, now) == files
  {
    forall m | m in order ensures m in files && IsMeta(m) {
      assert m in MetasOf(files);
    }
    NothingToScrub(files, order, now);
    assert forall n :: n in files ==> !Orphan(files, n);
  }

  function Judged(files: Files, order: seq<string>, now: Time, v: Verdict): set<string>
    requires Metas(order)
  {
    set m | m in order && Judge(files, m, now) == v
  }

  lemma JudgedMore(files: Files, order: seq<string>, now: Time, v: Verdict)
    requires order != [] && Metas(order) && forall i :: 0 <= i < |order| - 1 ==> order[i] != order[|order| - 1]
    ensures Metas(order[..|order| - 1])
    ensures |Judged(files, order, now, v)|
            == |Judged(files, order[..|order| - 1], now, v)|
               + if Judge(files, order[|order| - 1], now) == v then 1 else 0
  {
    hide Judge, IsMeta, EndsWith, DataFor;
    var before, last := order[..|order| - 1], order[|order| - 1];
    assert order == before + [last];
    assert last in order && last !in before;
    var all, fewer := Judged(files, order, now, v), Judged(files, before, now, v);
    if Judge(files, last, now) == v {
      assert all == fewer + {last} && last !in fewer;
    } else {
      assert all == fewer;
    }
  }

  /** The counters say how many metas of each kind there were. */
  lemma {:induction false} CountersMatch(files: Files, order: seq<string>, now: Time, v: Verdict)
    requires Tidy(files.Keys) && Metas(order) && (forall m :: m in order ==> m in files)
    requires forall i, j :: 0 <= i < j < |order| ==> order[i] != order[j]
    ensures CountOf(files, order, now, v) == |Judged(files, order, now, v)|
  {
    hide Judge, IsMeta, Judged, Tidy, Left, ScrubAll;
    if order == [] {
      NothingJudged(files, now, v);
    } else {
      var n := |order| - 1;
      CountersMatch(files, order[..n], now, v);
      ScrubAllLeft(files, order[..n], now);
      JudgedAsAtFirst(files, Elements(order[..n]), order[n], now);
      JudgedMore(files, order, now, v);
    }
  }

  lemma NothingJudged(files: Files, now: Time, v: Verdict)
    ensures Judged(files, [], now, v) == {}
  {
  }

  /** Metas and data files then correspond one to one, unless there is a data file without a key. */
  lemma WellIsPaired(files: Files, now: Time)
    requires AllWell(files, now) && Tidy(files.Keys)
    ensures forall m :: m in files && IsMeta(m) ==>
                      DataFor(m) in files && IsData(DataFor(m)) && MetaFor(DataFor(m)) == m
    ensures (forall d :: d in files && IsData(d) ==>
                      MetaFor(d) in files && IsMeta(MetaFor(d)) && DataFor(MetaFor(d)) == d)
            <==> DATA !in files
  {
    forall d | d in files && IsData(d) ensures MetaFor(d) in files && (DataFor(MetaFor(d)) == d <==> d != DATA) {
      KeyBack(d);
    }
    if DATA in files {
      assert IsData(DATA);
    }
  }

  lemma KeyBack(d: string)
    requires IsData(d)
    ensures IsMeta(MetaFor(d)) && (DataFor(MetaFor(d)) == d <==> d != DATA)
  {
    var key := if d == DATA then d else d[..|d| - |DATA|];
    assert MetaFor(d)[..|MetaFor(d)| - |META|] == key;
    assert d == d[..|d| - |DATA|] + DATA;
  }

  // ---------------------------------------------------------------- names that do not pair off

  /** For whatever contents, one cleaning is enough. */
  ghost predicate OnceIsEnough(names: set<string>)
  {
    forall files: Files, now: Time, order: seq<string>, again: seq<string> ::
      (files.Keys == names && Metas(order) && Metas(again) && Enumerates(order, MetasOf(files))
       && Enumerates(again, MetasOf(Cleaned(files, order, now)))) ==>
        Cleaned(Cleaned(files, order, now), again, now) == Cleaned(files, order, now)
  }

  predicate Metas(order: seq<string>) { forall m :: m in order ==> IsMeta(m) }

  lemma {:induction false} ScrubbedWithin(files: Files, order: seq<string>, now: Time)
    requires Metas(order)
    ensures ScrubAll(files, order, now).Keys <= files.Keys
    ensures forall n :: n in ScrubAll(files, order, now) ==> ScrubAll(files, order, now)[n] == files[n]
  {
    if order == [] {
    } else {
      ScrubbedWithin(files, order[..|order| - 1], now);
    }
  }

  /** All metas point where they should and have not expired, but this one cannot be read. */
  function Spoilt(names: set<string>, bad: string): Files
  {
    map n | n in names :: if IsMeta(n) && n != bad then Doc(Some(DataFor(n)), Some(0)) else Raw
  }

  /** A name that may be taken along when the unreadable meta, or one taken along before, is removed. */
  predicate Exposed(bad: string, n: string) { IsMeta(bad) && IsMeta(DataFor(bad)) && |n| < |bad| }

  /** The directory in the middle of the first loop: what was looked at first is there, and so is every meta
      still to come that is not exposed. */
  predicate Midway(names: set<string>, bad: string, done: set<string>, kept: string, g: Files)
  {
    && g.Keys <= names && (forall n :: n in g ==> g[n] == Spoilt(names, bad)[n])
    && kept in g && kept in done
    && (forall m :: m in names && IsMeta(m) && m !in done ==> m in g || Exposed(bad, m))
    && (IsMeta(bad) && bad in done ==> bad !in g)
  }

  lemma MidwayStep(names: set<string>, bad: string, done: set<string>, kept: string, g: Files, m: string)
    requires Midway(names, bad, done, kept, g) && IsMeta(m) && m in names && m !in done
    requires IsMeta(bad) ==> DataFor(bad) != kept
    requires !Exposed(bad, kept)
    ensures Midway(names, bad, done + {m}, kept, Scrub(g, m, 0))
  {
    var v := Judge(g, m, 0);
    if v.Bad? {
      assert m == bad || m !in g;
      if m != bad {
        assert Exposed(bad, m) && Exposed(bad, DataFor(m));
      }
      forall n | n in names && IsMeta(n) && n == DataFor(m) ensures Exposed(bad, n) {
      }
    }
  }

  lemma {:induction false} FirstStays(names: set<string>, bad: string, order: seq<string>)
    requires Metas(order) && order != [] && DataFor(order[0]) in names && order[0] != bad
    requires forall i, j :: 0 <= i < j < |order| ==> order[i] != order[j]
    requires forall n :: n in order ==> n in names
    requires (IsMeta(bad) ==> DataFor(bad) != order[0]) && !Exposed(bad, order[0])
    ensures Midway(names, bad, Elements(order), order[0], ScrubAll(Spoilt(names, bad), order, 0))
  {
    var files := Spoilt(names, bad);
    var n := |order| - 1;
    assert order[n] in order;
    assert order == order[..n] + [order[n]];
    if n == 0 {
      assert order[..0] == [] && Elements(order) == {order[0]};
    } else {
      hide Midway, Scrub, Spoilt, EndsWith, Exposed, DataFor;
      assert Elements(order) == Elements(order[..n]) + {order[n]} && order[n] !in Elements(order[..n]);
      FirstStays(names, bad, order[..n]);
      MidwayStep(names, bad, Elements(order[..n]), order[0], ScrubAll(files, order[..n], 0), order[n]);
    }
  }

  /** Any finite set of names can be listed, starting with a given one. */
  lemma {:induction false} Listing(names: set<string>, first: string) returns (order: seq<string>)
    requires first in names
    ensures Enumerates(order, names) && order != [] && order[0] == first
    decreases |names|
  {
    if names == {first} {
      order := [first];
    } else {
      var n :| n in names && n != first;
      order := Listing(names - {n}, first);
      order := order + [n];
    }
  }

  lemma {:induction false} ListingAny(names: set<string>) returns (order: seq<string>)
    ensures Enumerates(order, names)
  {
    if names == {} {
      order := [];
    } else {
      var n :| n in names;
      order := Listing(names, n);
    }
  }

  /** Without its data file a meta does not survive its turn. */
  lemma {:induction false} LonelyMetaGoes(files: Files, order: seq<string>, m: string, now: Time)
    requires Metas(order) && m in order && IsMeta(m) && DataFor(m) !in files
    ensures m !in ScrubAll(files, order, now)
  {
    var n := |order| - 1;
    ScrubbedWithin(files, order[..n], now);
    if order[n] != m {
      assert m in order[..n];
      LonelyMetaGoes(files, order[..n], m, now);
    }
  }

  /** The meta whose data file is at once something else, and the file to spoil for it to lose its data. */
  function Spoiler(m: string): string
    requires IsMeta(m)
  {
    if IsMeta(DataFor(m)) then DataFor(m) else MetaFor(DataFor(m))
  }

  lemma SpoilerFits(m: string)
    requires IsMeta(m) && !(IsData(DataFor(m)) && MetaFor(DataFor(m)) == m)
    ensures IsMeta(Spoiler(m)) && Spoiler(m) != m && DataFor(Spoiler(m)) != m && !Exposed(Spoiler(m), m)
  {
    var d := DataFor(m);
    MetaAndData(d);
    if !IsMeta(d) {
      assert IsData(d);
      KeyBack(d);
      KeylessPair(m, d);
    }
  }

  lemma KeylessPair(m: string, d: string)
    requires IsMeta(m) && d == DataFor(m) && IsData(d) && MetaFor(d) != m
    ensures d == DATA && m == META
    ensures !IsMeta(DataFor(MetaFor(d)))
  {
    KeyBack(d);
    if d != DATA {
      DataForInjective(m, MetaFor(d));
      assert false;
    }
    assert m[..|m| - |META|] == DataFor(m)[..|m| - |META|] == "";
    assert m == m[..|m| - |META|] + META;
    var both := DataFor(MetaFor(DATA));
    assert MetaFor(DATA)[..5] == DATA && both == DATA + DATA && both[1] != META[1];
  }

  /** Names that do not pair off can be given contents for which the first cleaning leaves a meta without its
      data file, to be found by the second. */
  lemma OnceIsNotEnough(names: set<string>, m: string)
    requires m in names && IsMeta(m) && DataFor(m) in names && !(IsData(DataFor(m)) && MetaFor(DataFor(m)) == m)
    ensures !OnceIsEnough(names)
  {
    var bad := Spoiler(m);
    SpoilerFits(m);
    var files := Spoilt(names, bad);
    assert files.Keys == names && m in MetasOf(files);
    var order := Listing(MetasOf(files), m);
    assert Metas(order) by {
      assert forall n :: n in order ==> n in MetasOf(files);
    }
    assert forall n :: n in order ==> n in names by {
      assert forall n :: n in order ==> n in MetasOf(files);
    }
    FirstStays(names, bad, order);
    var scrubbed := ScrubAll(files, order, 0);
    var f := Cleaned(files, order, 0);
    DataLost(names, bad, order, m, scrubbed);
    var again := ListingAny(MetasOf(f));
    assert Metas(again) by {
      assert forall n :: n in again ==> n in MetasOf(f);
    }
    assert m in f && m in MetasOf(f) && m in again;
    LonelyMetaGoes(f, again, m, 0);
    assert m !in Cleaned(f, again, 0);
  }

  lemma DataLost(names: set<string>, bad: string, order: seq<string>, m: string, scrubbed: Files)
    requires IsMeta(m) && bad == Spoiler(m) && IsMeta(bad) && Enumerates(order, MetasOf(Spoilt(names, bad)))
    requires Midway(names, bad, Elements(order), m, scrubbed)
    requires !(IsData(DataFor(m)) && MetaFor(DataFor(m)) == m)
    ensures DataFor(m) !in Sweep(scrubbed) && m in Sweep(scrubbed)
  {
    if bad in names {
      assert bad in MetasOf(Spoilt(names, bad));
      assert bad in order && bad in Elements(order);
    }
    assert bad !in scrubbed;
    MetaAndData(DataFor(m));
    MetaAndData(m);
  }

  /** One cleaning is enough, for whatever contents, exactly if the names pair off. */
  lemma OnceIsEnoughExactlyIfTidy(names: set<string>)
    ensures OnceIsEnough(names) <==> Tidy(names)
  {
    if Tidy(names) {
      forall files: Files, now: Time, order: seq<string>, again: seq<string>
        | files.Keys == names && Metas(order) && Metas(again) && Enumerates(order, MetasOf(files))
          && Enumerates(again, MetasOf(Cleaned(files, order, now)))
        ensures Cleaned(Cleaned(files, order, now), again, now) == Cleaned(files, order, now)
      {
        CleanedWell(files, order, now);
        WellStaysWell(Cleaned(files, order, now), again, now);
      }
    } else {
      var m :| m in names && IsMeta(m) && DataFor(m) in names && !(IsData(DataFor(m)) && MetaFor(DataFor(m)) == m);
      OnceIsNotEnough(names, m);
    }
  }

  /** No key that ends in ".meta" and no empty key is all it takes. */
  lemma OrdinaryKeysAreTidy(names: set<string>)
    requires forall m :: m in names && IsMeta(m) ==>
               var key := m[..|m| - |META|]; key != "" && !EndsWith(key, ".meta")
    ensures Tidy(names)
  {
    forall m | m in names && IsMeta(m) && DataFor(m) in names ensures IsData(DataFor(m)) && MetaFor(DataFor(m)) == m {
      var key := m[..|m| - |META|];
      var d := DataFor(m);
      assert m == key + META && d == key + DATA && d[..|d| - |DATA|] == key;
      if IsMeta(d) {
        KeyOfBoth(key);
      }
    }
  }

  lemma KeyOfBoth(key: string)
    requires IsMeta(key + DATA)
    ensures EndsWith(key, ".meta")
  {
    var d := key + DATA;
    assert key[|key| - 5..] == d[|d| - 10..][..5];
  }
}
