/** The append-only logs of a chat session and the "latest record per id" fold through which
    every reader sees them (append_log_store.py). */
module AppendLog {

  /** The dictionary a reader ends with: each id maps to the last record appended under it. */
  function Latest<K(!new), V(!new)>(log: seq<V>, id: V -> K): (m: map<K, V>)
    ensures forall k :: k in m ==> id(m[k]) == k && m[k] in log
    ensures forall v :: v in log ==> id(v) in m
  {
    if log == [] then map[]
    else
      var last := log[|log| - 1];
      assert forall v :: v in log ==> v == last || v in log[..|log| - 1];
      Latest(log[..|log| - 1], id)[id(last) := last]
  }

  /** The ids of a log in the order in which they first appear. */
  function Ids<K(==, !new), V(!new)>(log: seq<V>, id: V -> K): (ks: seq<K>)
    ensures forall k :: k in ks <==> k in Latest(log, id)
    ensures forall i, j :: 0 <= i < j < |ks| ==> ks[i] != ks[j]
  {
    if log == [] then []
    else
      var before := Ids(log[..|log| - 1], id);
      var last := id(log[|log| - 1]);
      if last in before then before else before + [last]
  }

  function Values<K, V>(ks: seq<K>, m: map<K, V>): (r: seq<V>)
    requires forall k :: k in ks ==> k in m
    ensures |r| == |ks| && forall i :: 0 <= i < |ks| ==> r[i] == m[ks[i]]
  {
    seq(|ks|, i requires 0 <= i < |ks| => m[ks[i]])
  }

  /** What `fold_latest_by_id` returns: one record per id, first-occurrence order. */
  function Fold<K(==, !new), V(!new)>(log: seq<V>, id: V -> K): (r: seq<V>)
    ensures |r| == |Ids(log, id)|
    ensures forall i :: 0 <= i < |r| ==> id(r[i]) == Ids(log, id)[i]
    ensures forall v :: v in r <==> id(v) in Latest(log, id) && Latest(log, id)[id(v)] == v
  {
    var ks, m := Ids(log, id), Latest(log, id);
    var r := Values(ks, m);
    assert forall v :: id(v) in m && m[id(v)] == v ==> id(v) in ks && v in r;
    r
  }

  /** Every id of the log has its place in the fold. */
  lemma Listed<K(!new), V(!new)>(log: seq<V>, id: V -> K, k: K) returns (i: nat)
    requires k in Latest(log, id)
    ensures i < |Fold(log, id)| && Fold(log, id)[i] == Latest(log, id)[k] && id(Fold(log, id)[i]) == k
  {
    assert Latest(log, id)[k] in Fold(log, id);
    i :| i < |Fold(log, id)| && Fold(log, id)[i] == Latest(log, id)[k];
  }

  /** The fold as the source computes it: one pass that updates an insertion-ordered dictionary. */
  method FoldLatestById<K(==, !new), V(!new)>(records: seq<V>, id: V -> K) returns (r: seq<V>)
    ensures r == Fold(records, id)
  {
    var keys: seq<K>, latest: map<K, V> := [], map[];
    for i := 0 to |records|
      invariant keys == Ids(records[..i], id) && latest == Latest(records[..i], id)
    {
      assert records[..i + 1][..i] == records[..i];
      var k := id(records[i]);
      if k !in keys {
        keys := keys + [k];
      }
      latest := latest[k := records[i]];
    }
    assert records[..|records|] == records;
    r := Values(keys, latest);
  }

  /** Appending to the log is updating the map it stands for. */
  lemma LatestAppend<K(!new), V(!new)>(log: seq<V>, r: V, id: V -> K)
    ensures Latest(log + [r], id) == Latest(log, id)[id(r) := r]
  {
    assert (log + [r])[..|log|] == log;
  }

  /** A reader sees, under each id, the record that no later record of that id follows. */
  lemma {:induction false} LatestIsLast<K(!new), V(!new)>(log: seq<V>, id: V -> K, i: nat)
    requires i < |log| && forall j :: i < j < |log| ==> id(log[j]) != id(log[i])
    ensures id(log[i]) in Latest(log, id) && Latest(log, id)[id(log[i])] == log[i]
  {
    hide Latest;
    var n := |log| - 1;
    if i == n {
    } else {
      assert log[..n][i] == log[i];
      LatestIsLast(log[..n], id, i);
    }
    LatestOf(log, id);
  }

  /** What a reader sees under an id after more was appended is what he saw before, or was appended. */
  lemma {:induction false} LatestFromTail<K(!new), V(!new)>(log: seq<V>, longer: seq<V>, id: V -> K, k: K)
    requires log <= longer && k in Latest(longer, id)
    ensures (k in Latest(log, id) && Latest(longer, id)[k] == Latest(log, id)[k])
            || exists j :: |log| <= j < |longer| && longer[j] == Latest(longer, id)[k]
    decreases |longer|
  {
    hide Latest;
    if |log| == |longer| {
      assert log == longer;
    } else {
      var n := |longer| - 1;
      LatestOf(longer, id);
      if k != id(longer[n]) {
        LatestFromTail(log, longer[..n], id, k);
      }
    }
  }

  /** The fold of a log, from that of the log without its last record. */
  lemma LatestOf<K(!new), V(!new)>(log: seq<V>, id: V -> K)
    requires log != []
    ensures Latest(log, id) == Latest(log[..|log| - 1], id)[id(log[|log| - 1]) := log[|log| - 1]]
  {
  }

  lemma IdsAppend<K(!new), V(!new)>(log: seq<V>, r: V, id: V -> K)
    ensures Ids(log + [r], id) == if id(r) in Latest(log, id) then Ids(log, id) else Ids(log, id) + [id(r)]
  {
    assert (log + [r])[..|log|] == log;
  }

  /** The list form of an append: replace in place, or add at the end. */
  lemma FoldAppend<K(!new), V(!new)>(log: seq<V>, r: V, id: V -> K)
    ensures id(r) !in Latest(log, id) ==> Fold(log + [r], id) == Fold(log, id) + [r]
    ensures forall i :: 0 <= i < |Fold(log, id)| && id(Fold(log, id)[i]) == id(r) ==>
                          Fold(log + [r], id) == Fold(log, id)[i := r]
  {
    hide Latest, Ids;
    IdsAppend(log, r, id);
    LatestAppend(log, r, id);
  }

  /** First-occurrence order: reading more of the log never reorders or drops an id already listed. */
  lemma {:induction false} IdsOfPrefix<K(!new), V(!new)>(log: seq<V>, id: V -> K, m: nat)
    requires m <= |log|
    ensures Ids(log[..m], id) <= Ids(log, id)
  {
    if m == |log| {
      assert log[..m] == log;
    } else {
      var n := |log| - 1;
      assert log[..n][..m] == log[..m];
      IdsOfPrefix(log[..n], id, m);
    }
  }

  lemma FoldOfNothing<K(!new), V(!new)>(id: V -> K)
    ensures Fold([], id) == []
  {
  }

  /** A log in which no id repeats reads as it stands. */
  lemma {:induction false} DistinctIds<K(!new), V(!new)>(log: seq<V>, id: V -> K)
    requires forall i, j :: 0 <= i < j < |log| ==> id(log[i]) != id(log[j])
    ensures Fold(log, id) == log
  {
    hide Latest, Ids, Values, Fold;
    if log == [] {
      FoldOfNothing(id);
    } else {
      var n := |log| - 1;
      DistinctIds(log[..n], id);
      FoldAppend(log[..n], log[n], id);
      assert log[..n] + [log[n]] == log;
    }
  }

  /** Two logs that read the same still do after the same append. */
  lemma FoldDetermines<K(!new), V(!new)>(c: seq<V>, d: seq<V>, r: V, id: V -> K)
    requires Fold(c, id) == Fold(d, id)
    ensures Fold(c + [r], id) == Fold(d + [r], id)
  {
    FoldAppend(c, r, id);
    FoldAppend(d, r, id);
    if id(r) in Latest(c, id) {
      var v := Latest(c, id)[id(r)];
      assert v in Fold(c, id);
      var i :| 0 <= i < |Fold(c, id)| && Fold(c, id)[i] == v;
    }
  }

  lemma NoTail<V>(c: seq<V>, b: seq<V>)
    requires b == []
    ensures c + b == c
  {
  }

  lemma HeadFirst<V>(c: seq<V>, b: seq<V>)
    requires b != []
    ensures c + [b[0]] + b[1..] == c + b
  {
  }

  lemma {:induction false} FoldDeterminesAll<K(!new), V(!new)>(c: seq<V>, d: seq<V>, b: seq<V>, id: V -> K)
    requires Fold(c, id) == Fold(d, id)
    ensures Fold(c + b, id) == Fold(d + b, id)
    decreases |b|
  {
    if b == [] {
      NoTail(c, b);
      NoTail(d, b);
    } else {
      FoldDetermines(c, d, b[0], id);
      FoldDeterminesAll(c + [b[0]], d + [b[0]], b[1..], id);
      HeadFirst(c, b);
      HeadFirst(d, b);
    }
  }

  /** A compacted log reads exactly like the log it was compacted from, whatever is appended later. */
  lemma FoldCompacts<K(!new), V(!new)>(a: seq<V>, b: seq<V>, id: V -> K)
    ensures Fold(Fold(a, id) + b, id) == Fold(a + b, id)
  {
    DistinctIds(Fold(a, id), id);
    FoldDeterminesAll(Fold(a, id), a, b, id);
  }
}
