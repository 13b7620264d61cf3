/** Whole runs over one snapshot directory: any readers and refreshers, any interleaving, write failures,
    and a death of the server at any point, which loses the lock and keeps the files. */
module SnapshotRuns {
  import opened Wrappers
  import opened SnapshotProtocol

  datatype Event = By(p: Pid, step: Step) | Died

  predicate Possible(s: State, e: Event) { e.By? ==> Enabled(e.p, s, e.step) }

  function After(s: State, e: Event): State
    requires Possible(s, e)
  {
    match e
    case By(p, step) => Apply(p, s, step)
    case Died => s.(turn := None)
  }

  function Empty(ttl: nat, owners: set<Owner>, forcing: bool): State
  {
    State(None, None, None, 0, [], map[], [], 0, 0, ttl, owners, forcing)
  }

  /** A run in a directory that these owners share. */
  predicate IsRun(ttl: nat, owners: set<Owner>, forcing: bool, ss: seq<State>, es: seq<Event>)
  {
    && |ss| == |es| + 1 && ss[0] == Empty(ttl, owners, forcing)
    && forall i :: 0 <= i < |es| ==> Possible(ss[i], es[i]) && ss[i + 1] == After(ss[i], es[i])
  }

  lemma DeathKeepsInv(s: State)
    requires Inv(s)
    ensures Inv(s.(turn := None)) && Evolves(s, s.(turn := None))
  {
    var s' := s.(turn := None);
    if OneOwner(s) && !s.forcing {
      forall i | 0 <= i < |s'.stored| ensures StillOnDisk(s', i) {
        assert StillOnDisk(s, i);
      }
    }
  }

  lemma {:induction false} InvAt(ttl: nat, owners: set<Owner>, forcing: bool, ss: seq<State>, es: seq<Event>, i: nat)
    requires IsRun(ttl, owners, forcing, ss, es) && i < |ss|
    ensures Inv(ss[i]) && ss[i].owners == owners && ss[i].forcing == forcing && ss[i].ttl == ttl
  {
    if i == 0 {
    } else {
      InvAt(ttl, owners, forcing, ss, es, i - 1);
      if es[i - 1].By? {
        StepKeepsInv(es[i - 1].p, ss[i - 1], es[i - 1].step);
      } else {
        DeathKeepsInv(ss[i - 1]);
      }
    }
  }

  /** Whenever a fresh meta is on disk, it describes an answered fetch of its owner, and a data file beside it
      holds the answer of a fetch that is not older. */
  predicate Faithful(s: State)
  {
    s.meta.Some? && s.meta.value.FreshMeta? ==>
      && s.metaFrom < |s.fetches| && s.metaFrom in s.answers && s.fetches[s.metaFrom].owner == s.meta.value.owner
      && (s.data.Some? ==> s.metaFrom <= s.dataFrom < |s.fetches| && s.dataFrom in s.answers
                           && s.data.value == s.answers[s.dataFrom])
  }

  lemma DataNotOlderThanMeta(ttl: nat, owners: set<Owner>, forcing: bool, ss: seq<State>, es: seq<Event>, i: nat)
    requires IsRun(ttl, owners, forcing, ss, es) && i < |ss|
    ensures Faithful(ss[i])
  {
    InvAt(ttl, owners, forcing, ss, es, i);
  }

  ghost predicate NeverMixed(ttl: nat, owners: set<Owner>)
  {
    forall forcing, ss, es, i :: IsRun(ttl, owners, forcing, ss, es) && 0 <= i < |ss| ==> OwnersAgree(ss[i])
  }

  predicate Alone(owners: set<Owner>) { forall a, b :: a in owners && b in owners ==> a == b }

  /** p takes the lock for the owner, fetches, and replaces the data file. */
  function HalfRefresh(p: Pid, owner: Owner, t: Time, payload: Payload): seq<Event>
  {
    [By(p, LockTaken(owner, false)), By(p, FetchBegan(t)), By(p, FetchAnswered(payload)), By(p, DataReplaced)]
  }

  predicate Follows(s: State, e: Event, s': State) { Possible(s, e) && s' == After(s, e) }

  lemma HalfRefreshed(s: State, p: Pid, owner: Owner, payload: Payload)
    returns (s1: State, s2: State, s3: State, s4: State)
    requires s.turn.None? && owner in s.owners && !FreshAt(owner, s.data, s.meta, s.now)
    ensures var es := HalfRefresh(p, owner, s.now, payload);
            Follows(s, es[0], s1) && Follows(s1, es[1], s2) && Follows(s2, es[2], s3) && Follows(s3, es[3], s4)
    ensures var n := |s.fetches|;
            s4 == s.(turn := Some(Turn(p, owner, false, s.now, HalfStored(n))), data := Some(payload), dataFrom := n,
                     fetches := s.fetches + [Fetch(owner, false, s.now, p)], answers := s.answers[n := payload])
  {
    s1 := s.(turn := Some(Turn(p, owner, false, s.now, Begun)));
    s2 := At(s1.(fetches := s.fetches + [Fetch(owner, false, s.now, p)]), Asked(|s.fetches|));
    s3 := At(s2.(answers := s.answers[|s.fetches| := payload]), Answered(|s.fetches|));
    s4 := At(s3.(data := Some(payload), dataFrom := |s.fetches|), HalfStored(|s.fetches|));
  }

  lemma Extended(ttl: nat, owners: set<Owner>, ss: seq<State>, es: seq<Event>, e: Event, s': State)
    returns (ss': seq<State>, es': seq<Event>)
    requires IsRun(ttl, owners, false, ss, es) && Follows(ss[|es|], e, s')
    ensures IsRun(ttl, owners, false, ss', es') && |es'| == |es| + 1 && ss'[|es'|] == s'
  {
    hide Enabled, Apply, After;
    ss', es' := ss + [s'], es + [e];
  }

  /** The run goes on with half a refresh. */
  lemma ExtendedByHalf(ttl: nat, owners: set<Owner>, ss: seq<State>, es: seq<Event>, p: Pid, owner: Owner,
                       payload: Payload)
    returns (ss': seq<State>, es': seq<Event>)
    requires IsRun(ttl, owners, false, ss, es)
    requires var s := ss[|es|]; s.turn.None? && owner in s.owners && !FreshAt(owner, s.data, s.meta, s.now)
    ensures IsRun(ttl, owners, false, ss', es')
    ensures var s, n := ss[|es|], |ss[|es|].fetches|;
            ss'[|es'|] == s.(turn := Some(Turn(p, owner, false, s.now, HalfStored(n))), data := Some(payload),
                             dataFrom := n,
                             fetches := s.fetches + [Fetch(owner, false, s.now, p)], answers := s.answers[n := payload])
  {
    var s1, s2, s3, s4 := HalfRefreshed(ss[|es|], p, owner, payload);
    hide IsRun, Follows;
    var half := HalfRefresh(p, owner, ss[|es|].now, payload);
    ss', es' := Extended(ttl, owners, ss, es, half[0], s1);
    ss', es' := Extended(ttl, owners, ss', es', half[1], s2);
    ss', es' := Extended(ttl, owners, ss', es', half[2], s3);
    ss', es' := Extended(ttl, owners, ss', es', half[3], s4);
  }

  /** A run in which the data of one owner lies beside the fresh meta of another: a refreshes, then b refreshes
      and has replaced the data file but not yet the meta file. */
  lemma MixedRun(ttl: nat, owners: set<Owner>, a: Owner, b: Owner) returns (ss: seq<State>, es: seq<Event>)
    requires a in owners && b in owners && a != b
    ensures IsRun(ttl, owners, false, ss, es) && !OwnersAgree(ss[|es|])
  {
    ss, es := [Empty(ttl, owners, false)], [];
    ss, es := ExtendedByHalf(ttl, owners, ss, es, 1, a, "a");
    var s5 := After(ss[|es|], By(1, MetaReplaced(0)));
    ss, es := Extended(ttl, owners, ss, es, By(1, MetaReplaced(0)), s5);
    var s6 := After(s5, By(1, LockReleased));
    ss, es := Extended(ttl, owners, ss, es, By(1, LockReleased), s6);
    ss, es := ExtendedByHalf(ttl, owners, ss, es, 2, b, "b");
  }

  /** Data and meta always belong to the same owner exactly if one owner at most uses the directory. */
  lemma NeverMixedExactlyIfAlone(ttl: nat, owners: set<Owner>)
    ensures NeverMixed(ttl, owners) <==> Alone(owners)
  {
    if Alone(owners) {
      forall forcing, ss, es, i | IsRun(ttl, owners, forcing, ss, es) && 0 <= i < |ss| ensures OwnersAgree(ss[i]) {
        InvAt(ttl, owners, forcing, ss, es, i);
        assert OneOwner(ss[i]);
      }
    } else {
      var a, b :| a in owners && b in owners && a != b;
      var ss, es := MixedRun(ttl, owners, a, b);
      assert 0 <= |es| < |ss|;
    }
  }

  // ---------------------------------------------------------------- how often the server is asked

  /** With one owner and without forced refreshes, whatever the number of callers, a fetch made after a
      snapshot was stored, successful or not, starts strictly after that snapshot's expiry. */
  lemma FetchOnlyAfterExpiry(ttl: nat, owners: set<Owner>, ss: seq<State>, es: seq<Event>, k: nat, i: nat, n: nat)
    requires IsRun(ttl, owners, false, ss, es) && Alone(owners) && k < |ss|
    requires i < |ss[k].stored| && ss[k].stored[i].fetch < n < |ss[k].fetches|
    ensures ss[k].stored[i].expiresAt < ss[k].fetches[n].start
  {
    InvAt(ttl, owners, false, ss, es, k);
    assert OneOwner(ss[k]);
  }

  /** When the fetch of the i-th stored snapshot began. */
  function StartOf(s: State, i: nat): Time
    requires i < |s.stored|
  {
    if s.stored[i].fetch < |s.fetches| then s.fetches[s.stored[i].fetch].start else 0
  }

  lemma {:induction false} StartsApart(s: State, i: nat, j: nat)
    requires HistoryOk(s) && FetchesSpaced(s) && i <= j < |s.stored|
    ensures StartOf(s, j) - StartOf(s, i) >= (j - i) * s.ttl
    decreases j
  {
    if i == j {
    } else {
      StartsApart(s, i, j - 1);
      assert s.stored[j - 1].fetch < s.stored[j].fetch;
      assert (j - i) * s.ttl == (j - 1 - i) * s.ttl + s.ttl;
    }
  }

  /** So the snapshots stored by fetches that start within a window of length w number w / ttl + 1 at most. */
  lemma FetchBound(ttl: nat, owners: set<Owner>, ss: seq<State>, es: seq<Event>, k: nat, i: nat, j: nat, w: nat)
    requires IsRun(ttl, owners, false, ss, es) && Alone(owners) && k < |ss| && ttl > 0
    requires i <= j < |ss[k].stored|
    requires StartOf(ss[k], j) - StartOf(ss[k], i) <= w
    ensures j - i + 1 <= w / ttl + 1
  {
    InvAt(ttl, owners, false, ss, es, k);
    assert OneOwner(ss[k]);
    StartsApart(ss[k], i, j);
    Quotient(j - i, ttl, w);
  }

  /** One round in which the server answers and the answer cannot be stored: the data goes, the error is noted. */
  function FailedRound(p: Pid, owner: Owner, t: Time, payload: Payload): seq<Event>
  {
    [By(p, LockTaken(owner, false)), By(p, FetchBegan(t)), By(p, FetchAnswered(payload)), By(p, DataDeleted(t)),
     By(p, ErrorMetaWritten("cannot store")), By(p, LockReleased)]
  }

  lemma FailedRoundSteps(s: State, p: Pid, owner: Owner, payload: Payload)
    returns (s1: State, s2: State, s3: State, s4: State, s5: State, s6: State)
    requires s.turn.None? && owner in s.owners && s.data.None?
    ensures var es := FailedRound(p, owner, s.now, payload);
            && Follows(s, es[0], s1) && Follows(s1, es[1], s2) && Follows(s2, es[2], s3)
            && Follows(s3, es[3], s4) && Follows(s4, es[4], s5) && Follows(s5, es[5], s6)
    ensures s6 == s.(meta := Some(ErrorMeta(owner, "cannot store")), answers := s.answers[|s.fetches| := payload],
                     fetches := s.fetches + [Fetch(owner, false, s.now, p)])
  {
    var n := |s.fetches|;
    s1 := s.(turn := Some(Turn(p, owner, false, s.now, Begun)));
    s2 := At(s1.(fetches := s.fetches + [Fetch(owner, false, s.now, p)]), Asked(n));
    s3 := At(s2.(answers := s.answers[n := payload]), Answered(n));
    s4 := At(s3.(data := None), Discarded);
    s5 := At(s4.(meta := Some(ErrorMeta(owner, "cannot store"))), Finished);
    s6 := s5.(turn := None);
  }

  /** The bound is one on stored snapshots, not on answers: without it the server can answer any number of
      fetches at one moment, each of them for a caller that then fails to store the answer. */
  lemma {:induction false} AnswersUnbounded(ttl: nat, owners: set<Owner>, owner: Owner, n: nat)
    returns (ss: seq<State>, es: seq<Event>)
    requires owner in owners
    ensures IsRun(ttl, owners, false, ss, es)
    ensures var s := ss[|es|];
            && |s.fetches| == n && (forall i :: 0 <= i < n ==> i in s.answers && s.fetches[i].start == 0)
            && s.stored == [] && s.turn.None? && s.data.None? && s.now == 0 && s.owners == owners
  {
    if n == 0 {
      ss, es := [Empty(ttl, owners, false)], [];
    } else {
      ss, es := AnswersUnbounded(ttl, owners, owner, n - 1);
      var round := FailedRound(1, owner, 0, "x");
      var s1, s2, s3, s4, s5, s6 := FailedRoundSteps(ss[|es|], 1, owner, "x");
      hide IsRun, Follows;
      ss, es := Extended(ttl, owners, ss, es, round[0], s1);
      ss, es := Extended(ttl, owners, ss, es, round[1], s2);
      ss, es := Extended(ttl, owners, ss, es, round[2], s3);
      ss, es := Extended(ttl, owners, ss, es, round[3], s4);
      ss, es := Extended(ttl, owners, ss, es, round[4], s5);
      ss, es := Extended(ttl, owners, ss, es, round[5], s6);
    }
  }

  lemma TimesMonotone(a: int, b: int, d: nat)
    requires a <= b
    ensures a * d <= b * d
  {
  }

  lemma Quotient(n: nat, d: nat, w: nat)
    requires d > 0 && n * d <= w
    ensures n <= w / d
  {
    var q := w / d;
    assert w < (q + 1) * d;
    if q + 1 <= n {
      TimesMonotone(q + 1, n, d);
      assert false;
    }
  }

  /** Any number of steps by other processes stays within what p relies on. */
  lemma {:induction false} OthersStayWithinRely(p: Pid, ss: seq<State>, es: seq<Event>)
    requires |ss| == |es| + 1 && Inv(ss[0])
    requires forall i :: 0 <= i < |es| ==>
               es[i].By? && es[i].p != p && Possible(ss[i], es[i]) && ss[i + 1] == After(ss[i], es[i])
    ensures Rely(p, ss[0], ss[|es|])
  {
    if es == [] {
    } else {
      var n := |es| - 1;
      OthersStayWithinRely(p, ss[..n + 1], es[..n]);
      assert ss[..n + 1][n] == ss[n];
      OtherStepIsRely(p, es[n].p, ss[n], es[n].step);
      RelyTransitive(p, ss[0], ss[n], ss[n + 1]);
    }
  }
}
