/** The cleaner of the metric snapshot directories (dbaas/metric_cleanup.py). A directory maps file names to
    contents; metas and data files are told apart by their names alone. */
module MetricCleanup {
  import opened Wrappers

  type Time = int

  /** What a file holds when it is read as a meta. Paths are given by the file name. */
  datatype File = Raw | Doc(dataPath: Option<string>, expiresAt: Option<Time>)

  type Files = map<string, File>

  const META := ".meta.json"
  const DATA := ".json"

  predicate EndsWith(s: string, suffix: string) { |s| >= |suffix| && s[|s| - |suffix|..] == suffix }

  predicate IsMeta(name: string) { EndsWith(name, META) }

  predicate IsData(name: string) { EndsWith(name, DATA) && !IsMeta(name) }

  /** `_data_path_for_meta`. */
  function DataFor(meta: string): (r: string)
    requires IsMeta(meta)
    ensures EndsWith(r, DATA) && |r| + 5 == |meta|
  {
    meta[..|meta| - |META|] + DATA
  }

  /** `_meta_path_for_data`: the stem of a name that consists of its suffix only is the whole name. */
  function MetaFor(data: string): string
    requires EndsWith(data, DATA)
  {
    (if data == DATA then data else data[..|data| - |DATA|]) + META
  }

  lemma DataForInjective(a: string, b: string)
    requires IsMeta(a) && IsMeta(b) && DataFor(a) == DataFor(b)
    ensures a == b
  {
    var k := |a| - |META|;
    assert DataFor(a)[..k] == a[..k] && DataFor(b)[..k] == b[..k];
    assert a == a[..k] + META && b == b[..k] + META;
  }

  predicate Expired(f: File, now: Time)
  {
    f.Raw? || f.expiresAt.None? || f.expiresAt.value < now
  }

  datatype Verdict = Bad | MissingData | ExpiredPair | Healthy

  function Judge(files: Files, meta: string, now: Time): Verdict
    requires IsMeta(meta)
  {
    if meta !in files || files[meta].Raw? || files[meta].dataPath != Some(DataFor(meta)) then Bad
    else if DataFor(meta) !in files then MissingData
    else if Expired(files[meta], now) then ExpiredPair
    else Healthy
  }

  /** One turn of the loop over the metas. */
  function Scrub(files: Files, meta: string, now: Time): Files
    requires IsMeta(meta)
  {
    match Judge(files, meta, now)
    case Healthy => files
    case MissingData => files - {meta}
    case _ => files - {meta, DataFor(meta)}
  }

  function ScrubAll(files: Files, metas: seq<string>, now: Time): Files
    requires forall m :: m in metas ==> IsMeta(m)
  {
    if metas == [] then files else Scrub(ScrubAll(files, metas[..|metas| - 1], now), metas[|metas| - 1], now)
  }

  function CountOf(files: Files, metas: seq<string>, now: Time, v: Verdict): nat
    requires forall m :: m in metas ==> IsMeta(m)
  {
    if metas == [] then 0
    else
      var before := metas[..|metas| - 1];
      CountOf(files, before, now, v)
      + if Judge(ScrubAll(files, before, now), metas[|metas| - 1], now) == v then 1 else 0
  }

  predicate Orphan(files: Files, name: string) { IsData(name) && MetaFor(name) !in files }

  /** The loop over the data files: metas stay, so the order does not matter. */
  function Sweep(files: Files): Files { map n | n in files && !Orphan(files, n) :: files[n] }

  function MetasOf(files: Files): set<string> { set n | n in files && IsMeta(n) }

  function DatasOf(files: Files): set<string> { set n | n in files && IsData(n) }

  ghost predicate Enumerates(order: seq<string>, names: set<string>)
  {
    && (forall n :: n in order <==> n in names)
    && (forall i, j :: 0 <= i < j < |order| ==> order[i] != order[j])
  }

  function Cleaned(files: Files, order: seq<string>, now: Time): Files
    requires forall m :: m in order ==> IsMeta(m)
  {
    Sweep(ScrubAll(files, order, now))
  }

  datatype Report = Report(expiredPairs: nat, badMeta: nat, missingDataMeta: nat, orphanData: nat)

  class Directory {
    var files: Files

    constructor (files: Files)
      ensures this.files == files
    {
      this.files := files;
    }

    method DeleteIfExists(name: string)
      modifies this
      ensures files == old(files) - {name}
    {
      files := files - {name};
    }

    /** One turn of the first loop. */
    method ScrubOne(meta: string, now: Time) returns (v: Verdict)
      requires IsMeta(meta)
      modifies this
      ensures v == Judge(old(files), meta, now) && files == Scrub(old(files), meta, now)
    {
      var data := DataFor(meta);
      if meta !in files || files[meta].Raw? {
        DeleteIfExists(meta);
        DeleteIfExists(data);
        return Bad;
      }
      if files[meta].dataPath != Some(data) {
        DeleteIfExists(meta);
        DeleteIfExists(data);
        return Bad;
      }
      if data !in files {
        DeleteIfExists(meta);
        return MissingData;
      }
      if Expired(files[meta], now) {
        DeleteIfExists(data);
        DeleteIfExists(meta);
        return ExpiredPair;
      }
      return Healthy;
    }

    /** `_cleanup_dir`; the order in which the directory lists its metas is not known. */
    method CleanupDir(now: Time) returns (r: Report, ghost order: seq<string>)
      modifies this
      ensures Enumerates(order, MetasOf(old(files)))
      ensures files == Cleaned(old(files), order, now)
      ensures r == Report(CountOf(old(files), order, now, ExpiredPair), CountOf(old(files), order, now, Bad),
                          CountOf(old(files), order, now, MissingData),
                          |set d | d in DatasOf(ScrubAll(old(files), order, now))
                              && Orphan(ScrubAll(old(files), order, now), d)|)
    {
      r := Report(0, 0, 0, 0);
      order := [];
      var rest := set n | n in files && IsMeta(n);
      while rest != {}
        invariant rest <= MetasOf(old(files)) && Enumerates(order, MetasOf(old(files)) - rest)
        invariant files == ScrubAll(old(files), order, now)
        invariant r == Report(CountOf(old(files), order, now, ExpiredPair), CountOf(old(files), order, now, Bad),
                              CountOf(old(files), order, now, MissingData), 0)
        decreases |rest|
      {
        var meta :| meta in rest;
        assert (order + [meta])[..|order|] == order;
        var v := ScrubOne(meta, now);
        match v {
          case Bad => r := r.(badMeta := r.badMeta + 1);
          case MissingData => r := r.(missingDataMeta := r.missingDataMeta + 1);
          case ExpiredPair => r := r.(expiredPairs := r.expiredPairs + 1);
          case Healthy =>
        }
        order, rest := order + [meta], rest - {meta};
      }
      var orphans := SweepFiles();
      r := r.(orphanData := orphans);
    }

    /** The second loop. */
    method SweepFiles() returns (orphans: nat)
      modifies this
      ensures files == Sweep(old(files))
      ensures orphans == |set d | d in DatasOf(old(files)) && Orphan(old(files), d)|
    {
      ghost var before := files;
      orphans := 0;
      var rest := DatasOf(files);
      ghost var gone: set<string> := {};
      while rest != {}
        invariant rest <= DatasOf(before) && gone == set d | d in DatasOf(before) - rest && Orphan(before, d)
        invariant files == before - gone && orphans == |gone|
        decreases |rest|
      {
        var data :| data in rest;
        assert MetaFor(data) in files <==> MetaFor(data) in before by {
          MetaForIsMeta(data);
        }
        if MetaFor(data) !in files {
          DeleteIfExists(data);
          orphans := orphans + 1;
          gone := gone + {data};
        }
        rest := rest - {data};
      }
      assert files == Sweep(before);
      assert gone == set d | d in DatasOf(before) && Orphan(before, d);
    }
  }

  lemma MetaForIsMeta(data: string)
    requires EndsWith(data, DATA)
    ensures IsMeta(MetaFor(data))
  {
  }
}
