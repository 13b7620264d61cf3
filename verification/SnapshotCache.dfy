/** The synchroniser of one snapshot directory (dbaas/backup_sync.py): unlocked readers, refreshes under the
    lock of the path, files replaced atomically and in a fixed order. */
module SnapshotCache {
  import opened Wrappers
  import opened SnapshotProtocol

  datatype Outcome =
    | Available(meta: Meta)
    | NoIdentity
    | Busy             // waited for the lock in vain
    | RefreshFailed    // the failure is noted in the meta file
    | Raised           // noting the failure failed as well

  /** How a refresh fares: what the server answers, if it is of any use; which writes fail; and what is then said
      to be the matter. */
  datatype Luck = Luck(answer: Option<Payload>, tempsFail: bool, dataFails: bool, metaFails: bool, noteFails: bool,
                       message: string)

  predicate Succeeds(luck: Luck) { luck.answer.Some? && !luck.tempsFail && !luck.dataFails && !luck.metaFails }

  /** The outcome of a refresh that was not spared. */
  predicate FollowsLuck(r: Outcome, luck: Luck)
  {
    && (r.Available? <==> Succeeds(luck))
    && (r.RefreshFailed? <==> !Succeeds(luck) && !luck.noteFails)
    && (r.Raised? <==> !Succeeds(luck) && luck.noteFails)
  }

  /** p sent at most one request in between. */
  predicate AtMostOneFetch(p: Pid, s: State, s': State)
  {
    forall m, n :: |s.fetches| <= m < n < |s'.fetches| ==> s'.fetches[m].sender != p || s'.fetches[n].sender != p
  }

  predicate NoFetch(p: Pid, s: State, s': State)
  {
    s.fetches <= s'.fetches && forall n :: |s.fetches| <= n < |s'.fetches| ==> s'.fetches[n].sender != p
  }

  /** p sent exactly one request in between, on behalf of this owner. */
  predicate OneFetch(p: Pid, owner: Owner, forced: bool, s: State, s': State)
  {
    && AtMostOneFetch(p, s, s')
    && exists n :: |s.fetches| <= n < |s'.fetches| && s'.fetches[n].sender == p && s'.fetches[n].owner == owner
                   && s'.fetches[n].forced == forced
  }

  lemma OneFetchThen(p: Pid, owner: Owner, forced: bool, a: State, b: State, c: State)
    requires NoFetch(p, a, b) && OneFetch(p, owner, forced, b, c) && b.fetches <= c.fetches
    ensures OneFetch(p, owner, forced, a, c)
  {
    NoFetchThen(p, a, b, c);
    var n :| |b.fetches| <= n < |c.fetches| && c.fetches[n].sender == p && c.fetches[n].owner == owner
             && c.fetches[n].forced == forced;
    assert |a.fetches| <= n;
  }

  lemma NotBoth(p: Pid, owner: Owner, forced: bool, s: State, s': State)
    requires NoFetch(p, s, s')
    ensures !OneFetch(p, owner, forced, s, s')
  {
  }

  lemma NoFetchThen(p: Pid, a: State, b: State, c: State)
    requires NoFetch(p, a, b) && b.fetches <= c.fetches
    ensures NoFetch(p, b, c) ==> NoFetch(p, a, c)
    ensures AtMostOneFetch(p, b, c) ==> AtMostOneFetch(p, a, c)
  {
  }

  lemma SameFetches(p: Pid, a: State, b: State)
    requires b.fetches == a.fetches
    ensures NoFetch(p, a, b)
  {
  }

  lemma RelyMeans(p: Pid, s: State, s': State)
    requires Rely(p, s, s')
    ensures Inv(s') && Evolves(s, s') && NoFetch(p, s, s')
    ensures Holds(p, s) <==> Holds(p, s')
    ensures Holds(p, s) ==> s' == s.(now := s'.now) && s.now <= s'.now
  {
  }

  /** The meta describes fetch number k, made for this owner and answered; the data on disk, if there is any,
      is not older, and it is this owner's if nobody else uses the directory. */
  predicate Describes(meta: Meta, owner: Owner, k: nat, s: State)
  {
    && meta.FreshMeta? && meta.owner == owner
    && k < |s.fetches| && k in s.answers && s.fetches[k].owner == owner
    && (s.data.Some? ==> k <= s.dataFrom && s.dataFrom in s.answers && s.answers[s.dataFrom] == s.data.value)
    && (s.data.Some? && s.dataFrom < |s.fetches| && OneOwner(s) ==> s.fetches[s.dataFrom].owner == owner)
  }

  /** A reader may look at the data file later than at the meta file. */
  lemma DescribesLater(meta: Meta, owner: Owner, s: State, s': State)
    requires Inv(s) && s.meta == Some(meta) && meta.FreshMeta? && meta.owner == owner && Inv(s') && Evolves(s, s')
    ensures Describes(meta, owner, s.metaFrom, s')
  {
    assert meta.owner in s.owners;
    if s'.data.Some? && s'.dataFrom < |s'.fetches| && OneOwner(s') {
      assert s'.fetches[s'.dataFrom] in s'.fetches;
    }
  }

  class Directory {
    const ttl: nat
    var data: Option<Payload>
    var meta: Option<Meta>
    var lock: Option<Pid>
    var now: Time
    ghost var s: State  // the state after the last complete step of the protocol

    ghost predicate Settled()
      reads this
    {
      && s.data == data && s.meta == meta && s.now == now && s.ttl == ttl
      && lock == (if s.turn.Some? then Some(s.turn.value.holder) else None)
      && Inv(s)
    }

    constructor (ttl: nat, ghost owners: set<Owner>, ghost forcing: bool)
      ensures Settled() && s == State(None, None, None, 0, [], map[], [], 0, 0, ttl, owners, forcing)
    {
      this.ttl := ttl;
      data, meta, lock, now := None, None, None, 0;
      s := State(None, None, None, 0, [], map[], [], 0, 0, ttl, owners, forcing);
    }

    /** Lets every other process run for as long as it likes. The body does nothing; callers learn only that
        the others took steps of the protocol. */
    method Interfere(p: Pid)
      requires Settled()
      modifies this
      ensures Settled() && Rely(p, old(s), s)
    {
    }

    /** Declares what the caller has just done to be one step of the protocol. */
    ghost method Commit(p: Pid, step: Step)
      requires Inv(s) && Enabled(p, s, step)
      requires var s' := Apply(p, s, step);
               && s'.data == data && s'.meta == meta && s'.now == now && s.ttl == ttl
               && lock == (if s'.turn.Some? then Some(s'.turn.value.holder) else None)
      modifies this`s
      ensures s == Apply(p, old(s), step) && Settled() && Evolves(old(s), s)
    {
      StepKeepsInv(p, s, step);
      s := Apply(p, s, step);
    }

    method TryAcquire(p: Pid, owner: Owner, forced: bool) returns (acquired: bool)
      requires Settled() && !Holds(p, s) && owner in s.owners && (forced ==> s.forcing)
      modifies this
      ensures Settled() && Evolves(old(s), s) && NoFetch(p, old(s), s)
      ensures acquired ==> s.turn == Some(Turn(p, owner, forced, now, Begun))
      ensures !acquired ==> !Holds(p, s) && s.turn.Some?
    {
      hide Inv, Evolves, Rely, NoFetch;
      ghost var before := s;
      Interfere(p);
      RelyMeans(p, before, s);
      acquired := lock.None?;
      if acquired {
        ghost var waited := s;
        lock := Some(p);
        Commit(p, LockTaken(owner, forced));
        EvolvesTransitive(before, waited, s);
        SameFetches(p, waited, s);
        FetchesGrow(waited, s);
        NoFetchThen(p, before, waited, s);
      }
    }

    method Release(p: Pid)
      requires Settled() && Holds(p, s)
      modifies this
      ensures Settled() && Evolves(old(s), s) && !Holds(p, s) && s == old(s).(turn := None)
    {
      lock := None;
      Commit(p, LockReleased);
    }

    /** Time passes while p holds the lock. */
    method Wait(p: Pid)
      requires Settled() && Holds(p, s)
      modifies this
      ensures Settled() && s == old(s).(now := now) && old(now) <= now
    {
      hide Inv, Evolves, Rely, NoFetch;
      ghost var before := s;
      Interfere(p);
      RelyMeans(p, before, s);
    }

    /** Sends the request; None stands for no answer, a refusal, or an answer of the wrong shape. */
    method Ask(p: Pid, answer: Option<Payload>, ghost checkedAt: Time)
      requires Settled() && Holds(p, s) && s.turn.value.phase.Begun? && s.turn.value.since <= checkedAt <= s.now
      requires s.turn.value.forced || !FreshAt(s.turn.value.owner, s.data, s.meta, checkedAt)
      modifies this
      ensures Settled() && old(now) <= now && Evolves(old(s), s)
      ensures var n := |old(s).fetches|;
              var turn := old(s).turn.value;
              var fetched := old(s).(now := now, fetches := s.fetches);
              && |s.fetches| == n + 1 && s.fetches[..n] == old(s).fetches
              && s.fetches[n] == Fetch(turn.owner, turn.forced, s.fetches[n].start, p)
              && old(now) <= s.fetches[n].start <= now
              && s == match answer {
                        case None => At(fetched, Asked(n))
                        case Some(v) => At(fetched.(answers := old(s).answers[n := v]), Answered(n))
                      }
    {
      AnswersBefore(s);
      hide Inv;
      Wait(p);
      Commit(p, FetchBegan(checkedAt));
      Wait(p);
      if answer.Some? {
        Commit(p, FetchAnswered(answer.value));
      }
    }

    /** The writing half of `_refresh_backups`: both temporary files, the data file, the meta file. Any write
        may fail. */
    method Store(p: Pid, owner: Owner, payload: Payload, luck: Luck) returns (r: Option<Meta>)
      requires Settled() && Holds(p, s) && s.turn.value.phase.Answered? && s.turn.value.owner == owner
      requires s.turn.value.phase.n in s.answers && s.answers[s.turn.value.phase.n] == payload
      requires s.turn.value.phase.n < |s.fetches| && s.fetches[s.turn.value.phase.n].start <= now
      modifies this
      ensures Settled() && Evolves(old(s), s) && Holds(p, s) && s.fetches == old(s).fetches
      ensures s.turn == Some(old(s).turn.value.(phase := s.turn.value.phase))
      ensures r.Some? <==> !luck.tempsFail && !luck.dataFails && !luck.metaFails
      ensures data == if luck.tempsFail || luck.dataFails then old(data) else Some(payload)
      ensures r.None? ==> Underway(s.turn.value.phase) && meta == old(meta)
      ensures r.Some? ==> s.turn.value.phase.Finished? && meta == r && s.dataFrom == s.metaFrom
                          && r == Some(FreshMeta(owner, old(now) + ttl, None))
    {
      hide Inv, Evolves, Enabled, Apply;
      ghost var before := s;
      EvolvesReflexive(s);
      var synced := now;
      Wait(p);
      TimePassed(before, s);
      ghost var s1 := s;
      if luck.tempsFail || luck.dataFails {
        return None;
      }
      DataReplacedMeans(p, s1);
      data := Some(payload);
      Commit(p, DataReplaced);
      EvolvesTransitive(before, s1, s);
      ghost var s2 := s;
      Wait(p);
      TimePassed(s2, s);
      EvolvesTransitive(before, s2, s);
      ghost var s3 := s;
      if luck.metaFails {
        return None;
      }
      MetaReplacedMeans(p, s3, synced);
      meta := Some(FreshMeta(owner, synced + ttl, None));
      Commit(p, MetaReplaced(synced));
      EvolvesTransitive(before, s3, s);
      return meta;
    }

    /** `_refresh_backups`: None stands for a failure. */
    method RefreshBackups(p: Pid, owner: Owner, luck: Luck, ghost checkedAt: Time) returns (r: Option<Meta>)
      requires Settled() && Holds(p, s) && s.turn.value.phase.Begun? && s.turn.value.since <= checkedAt <= s.now
      requires s.turn.value.owner == owner && (s.turn.value.forced || !FreshAt(owner, s.data, s.meta, checkedAt))
      modifies this
      ensures Settled() && Evolves(old(s), s) && Holds(p, s)
      ensures Fetched(p, old(s), s) && (r.Some? <==> Succeeds(luck))
      ensures s.turn == Some(old(s).turn.value.(phase := s.turn.value.phase))
      // the data file may be the new one although the refresh fails
      ensures data == if luck.answer.None? || luck.tempsFail || luck.dataFails then old(data) else luck.answer
      ensures r.None? ==> Underway(s.turn.value.phase) && meta == old(meta)
      ensures r.Some? ==> s.turn.value.phase.Finished? && meta == r && s.dataFrom == s.metaFrom
                          && r.value.FreshMeta? && r == Some(FreshMeta(owner, r.value.expiresAt, None))
                          && old(now) + ttl <= r.value.expiresAt <= now + ttl
    {
      hide Inv, Evolves;
      ghost var before := s;
      Ask(p, luck.answer, checkedAt);
      ghost var asked := s;
      NowGrows(before, asked);
      if luck.answer.None? {
        return None;
      }
      r := Store(p, owner, luck.answer.value, luck);
      NowGrows(asked, s);
      EvolvesTransitive(before, asked, s);
    }

    /** The failure branch of `_refresh_under_lock`: after a forced refresh a snapshot that is still fresh is
        kept and only the error is noted; otherwise the data file goes first, then the meta says so. */
    method NoteFailure(p: Pid, owner: Owner, forced: bool, current: Option<Meta>, luck: Luck) returns (r: Outcome)
      requires Settled() && Holds(p, s) && Underway(s.turn.value.phase)
      requires s.turn.value.owner == owner && s.turn.value.forced == forced && current == meta
      modifies this
      ensures Settled() && Evolves(old(s), s) && Holds(p, s) && s.fetches == old(s).fetches && old(now) <= now
      ensures r == if luck.noteFails then Raised else RefreshFailed
      ensures Noted(owner, forced && FreshAt(owner, old(data), current, old(now)), luck, old(data), current, data, meta)
    {
      hide Inv;
      if forced && FreshAt(owner, data, current, now) {
        if luck.noteFails {
          return Raised;
        }
        ghost var checkedAt := now;
        meta := Some(current.value.(lastError := Some(luck.message)));
        SinceNotLater(s);
        Commit(p, MetaKept(checkedAt, luck.message));
        return RefreshFailed;
      }
      SinceNotLater(s);
      data := None;
      Commit(p, DataDeleted(now));
      Wait(p);
      if luck.noteFails {
        return Raised;
      }
      meta := Some(ErrorMeta(owner, luck.message));
      Commit(p, ErrorMetaWritten(luck.message));
      return RefreshFailed;
    }

    /** The part of `_refresh_under_lock` between taking and releasing the lock. */
    method RefreshLocked(p: Pid, owner: Owner, forced: bool, luck: Luck) returns (r: Outcome, ghost k: nat)
      requires Settled() && Holds(p, s) && s.turn == Some(Turn(p, owner, forced, s.turn.value.since, Begun))
      modifies this
      ensures Settled() && Evolves(old(s), s) && Holds(p, s)
      ensures r.Available? ==> Describes(r.meta, owner, k, s) && old(now) <= r.meta.expiresAt && data.Some?
      // a snapshot that is fresh spares the fetch
      ensures !forced && FreshAt(owner, old(data), old(meta), old(now)) ==>
                r == Available(old(meta).value) && s == old(s)
      // otherwise there is one, and the answer and the writes decide
      ensures forced || !FreshAt(owner, old(data), old(meta), old(now)) ==>
                && Fetched(p, old(s), s) && FollowsLuck(r, luck)
                && FailureKept(r, owner, forced, luck, old(s), s)
    {
      hide Inv, Evolves, Describes;
      ghost var locked := s;
      EvolvesReflexive(s);
      SinceNotLater(s);
      k := s.metaFrom;
      var current := meta;
      if !forced && FreshAt(owner, data, current, now) {
        DescribesNow(current.value, owner, s);
        return Available(current.value), k;
      }
      var refreshed := RefreshBackups(p, owner, luck, now);
      ghost var worked := s;
      NowGrows(locked, worked);
      k := s.metaFrom;
      if refreshed.Some? {
        DescribesNow(refreshed.value, owner, s);
        return Available(refreshed.value), k;
      }
      r := NoteFailure(p, owner, forced, current, luck);
      FailureIsKept(r, owner, forced, luck, locked, worked, s);
      EvolvesTransitive(locked, worked, s);
    }

    /** `_refresh_under_lock`. */
    method RefreshUnderLock(p: Pid, owner: Owner, forced: bool, luck: Luck) returns (r: Outcome, ghost k: nat)
      requires Settled() && !Holds(p, s) && owner in s.owners && (forced ==> s.forcing)
      modifies this
      ensures Settled() && Evolves(old(s), s) && !Holds(p, s)
      ensures r.Available? ==> Describes(r.meta, owner, k, s) && old(now) <= r.meta.expiresAt && data.Some?
      ensures RefreshMeans(p, owner, forced, luck, r, old(s), s)
    {
      hide Inv, Evolves, AtMostOneFetch, NoFetch, OneFetch, Describes, FreshAt, FollowsLuck, FailureKept, Fetched;
      k := 0;
      ghost var before := s;
      var acquired := TryAcquire(p, owner, forced);
      ghost var locked := s;
      NowGrows(before, locked);
      if !acquired {
        NotBoth(p, owner, forced, before, locked);
        return Busy, 0;
      }
      r, k := RefreshLocked(p, owner, forced, luck);
      ghost var worked := s;
      Release(p);
      EvolvesTransitive(before, locked, worked);
      EvolvesTransitive(before, worked, s);
      NowGrows(locked, worked);
      FetchedOrNot(p, owner, forced, before, locked, worked, s);
      KeptMeans(r, owner, forced, luck, locked, worked, s);
      if r.Available? {
        DescribesUnlocked(r.meta, owner, k, worked, s);
      }
    }

    /** `ensure_snapshot`; a missing owner stands for an identity without a visible range. Whoever is handed a
        snapshot got one that was fresh for its owner during the call. looked is the state in which the meta file,
        read before, was compared with the clock and the data file. */
    method EnsureSnapshot(p: Pid, owner: Option<Owner>, refresh: bool, luck: Luck)
      returns (r: Outcome, ghost k: nat, ghost looked: State)
      requires Settled() && !Holds(p, s) && (owner.Some? ==> owner.value in s.owners) && (refresh ==> s.forcing)
      modifies this
      ensures Settled() && Evolves(old(s), s) && !Holds(p, s)
      ensures r.NoIdentity? <==> owner.None?
      ensures r.NoIdentity? ==> s == old(s)
      ensures r.Available? ==> owner.Some? && Describes(r.meta, owner.value, k, s) && old(now) <= r.meta.expiresAt
      ensures Evolves(old(s), looked) && Evolves(looked, s) && NoFetch(p, old(s), looked)
      // a snapshot that is fresh at the first look is handed out at once, unless a refresh is asked for ...
      ensures owner.Some? && !refresh && FreshAt(owner.value, looked.data, old(meta), looked.now) ==>
                r == Available(old(meta).value) && s == looked
      // ... and otherwise the call waits for the lock
      ensures owner.Some? && (refresh || !FreshAt(owner.value, looked.data, old(meta), looked.now)) ==>
                RefreshMeans(p, owner.value, refresh, luck, r, old(s), s)
    {
      hide Inv, Evolves, AtMostOneFetch, NoFetch, OneFetch, Describes, Rely, RefreshMeans;
      ghost var before := s;
      k, looked := 0, before;
      EvolvesReflexive(s);
      SameFetches(p, s, s);
      if owner.None? {
        return NoIdentity, 0, before;
      }
      if refresh {
        r, k := RefreshUnderLock(p, owner.value, true, luck);
        NowGrows(before, s);
        RefreshSince(p, owner.value, true, luck, r, before, before, s);
        return;
      }
      var current := meta;
      Interfere(p);
      looked := s;
      RelyMeans(p, before, looked);
      NowGrows(before, looked);
      EvolvesReflexive(looked);
      if FreshAt(owner.value, data, current, now) {
        DescribesLater(current.value, owner.value, before, looked);
        return Available(current.value), before.metaFrom, looked;
      }
      r, k := RefreshUnderLock(p, owner.value, false, luck);
      EvolvesTransitive(before, looked, s);
      NowGrows(looked, s);
      RefreshSince(p, owner.value, false, luck, r, before, looked, s);
    }
  }

  /** One more request was sent, by p, the holder of the lock, as its turn says. */
  predicate Fetched(p: Pid, s: State, s': State)
    requires s.turn.Some?
  {
    var n := |s.fetches|;
    && |s'.fetches| == n + 1 && s'.fetches[..n] == s.fetches
    && s'.fetches[n] == Fetch(s.turn.value.owner, s.turn.value.forced, s'.fetches[n].start, p)
    && s.now <= s'.fetches[n].start <= s'.now
  }

  /** How a failure is left: keep says that the snapshot is fresh and outlives it. */
  predicate Noted(owner: Owner, keep: bool, luck: Luck, data: Option<Payload>, meta: Option<Meta>,
                  data': Option<Payload>, meta': Option<Meta>)
  {
    if keep then data' == data && (if luck.noteFails then meta' == meta
                                   else meta.Some? && meta.value.FreshMeta?
                                        && meta' == Some(meta.value.(lastError := Some(luck.message))))
    else data'.None? && meta' == if luck.noteFails then meta else Some(ErrorMeta(owner, luck.message))
  }

  /** A failed refresh leaves a snapshot that was forced and has not run out, with the data file as it was or as
      the server sent it, and clears away any other. */
  predicate FailureKept(r: Outcome, owner: Owner, forced: bool, luck: Luck, s: State, s': State)
  {
    var data := if luck.answer.None? || luck.tempsFail || luck.dataFails then s.data else luck.answer;
    && (r.RefreshFailed? || r.Raised? ==>
          || (forced && FreshAt(owner, data, s.meta, s.now) && Noted(owner, true, luck, data, s.meta, s'.data, s'.meta))
          || Noted(owner, false, luck, data, s.meta, s'.data, s'.meta))
    && ((r.RefreshFailed? || r.Raised?) && forced && FreshAt(owner, data, s.meta, s'.now) ==>
          Noted(owner, true, luck, data, s.meta, s'.data, s'.meta))
  }

  /** What a refresh comes to: a refusal means that another holds the lock; when forced it fetches exactly once,
      otherwise at most once; and when it fetches, the answer and the writes decide. */
  predicate RefreshMeans(p: Pid, owner: Owner, forced: bool, luck: Luck, r: Outcome, s: State, s': State)
  {
    && !r.NoIdentity? && (r.Busy? ==> s'.turn.Some? && NoFetch(p, s, s'))
    && (NoFetch(p, s, s') || OneFetch(p, owner, forced, s, s'))
    && (NoFetch(p, s, s') ==> r.Busy? || (r.Available? && !forced))
    && (OneFetch(p, owner, forced, s, s') ==> FollowsLuck(r, luck))
    && (r.RefreshFailed? && !forced ==> s'.data.None? && s'.meta == Some(ErrorMeta(owner, luck.message)))
    && (r.RefreshFailed? && forced && s'.data.Some? ==>
          s'.meta.Some? && s'.meta.value.FreshMeta? && s'.meta.value.owner == owner
          && s'.meta.value.lastError == Some(luck.message))
  }

  lemma RefreshSince(p: Pid, owner: Owner, forced: bool, luck: Luck, r: Outcome, a: State, b: State, c: State)
    requires RefreshMeans(p, owner, forced, luck, r, b, c) && NoFetch(p, a, b) && b.fetches <= c.fetches
    ensures RefreshMeans(p, owner, forced, luck, r, a, c) && !r.NoIdentity?
  {
    hide NoFetch, OneFetch, AtMostOneFetch, FollowsLuck;
    NoFetchThen(p, a, b, c);
    if OneFetch(p, owner, forced, b, c) {
      OneFetchThen(p, owner, forced, a, b, c);
    }
    if NoFetch(p, a, c) {
      NotBoth(p, owner, forced, a, c);
    }
  }

  /** A turn with the lock, from before it was taken until after it was given back. */
  lemma FetchedOrNot(p: Pid, owner: Owner, forced: bool, before: State, locked: State, worked: State, s: State)
    requires NoFetch(p, before, locked) && before.fetches <= locked.fetches <= worked.fetches
    requires s.fetches == worked.fetches && locked.turn.Some?
    requires locked.turn.value.owner == owner && locked.turn.value.forced == forced
    ensures worked.fetches == locked.fetches ==> NoFetch(p, before, s) && !OneFetch(p, owner, forced, before, s)
    ensures Fetched(p, locked, worked) ==> OneFetch(p, owner, forced, before, s) && !NoFetch(p, before, s)
  {
    if worked.fetches == locked.fetches {
      SameFetches(p, locked, s);
      NoFetchThen(p, before, locked, s);
      NotBoth(p, owner, forced, before, s);
    }
    if Fetched(p, locked, worked) {
      var n := |locked.fetches|;
      assert s.fetches[n].sender == p && s.fetches[n].owner == owner && s.fetches[n].forced == forced;
      OneFetchThen(p, owner, forced, before, locked, s);
    }
  }

  lemma FailureIsKept(r: Outcome, owner: Owner, forced: bool, luck: Luck, s: State, s1: State, s2: State)
    requires s.now <= s1.now <= s2.now && s1.meta == s.meta
    requires s1.data == if luck.answer.None? || luck.tempsFail || luck.dataFails then s.data else luck.answer
    requires Noted(owner, forced && FreshAt(owner, s1.data, s.meta, s1.now), luck, s1.data, s.meta, s2.data, s2.meta)
    ensures FailureKept(r, owner, forced, luck, s, s2)
  {
    hide Noted;
  }

  lemma KeptMeans(r: Outcome, owner: Owner, forced: bool, luck: Luck, s: State, s1: State, s2: State)
    requires s2 == s1.(turn := s2.turn)
    requires r.Available? || (FollowsLuck(r, luck) && FailureKept(r, owner, forced, luck, s, s1))
    ensures !r.NoIdentity? && !r.Busy?
    ensures r.RefreshFailed? && !forced ==> s2.data.None? && s2.meta == Some(ErrorMeta(owner, luck.message))
    ensures r.RefreshFailed? && forced && s2.data.Some? ==>
              s2.meta.Some? && s2.meta.value.FreshMeta? && s2.meta.value.owner == owner
              && s2.meta.value.lastError == Some(luck.message)
  {
  }

  lemma EvolvesReflexive(s: State)
    ensures Evolves(s, s)
  {
  }

  lemma DescribesUnlocked(meta: Meta, owner: Owner, k: nat, s: State, s': State)
    requires Describes(meta, owner, k, s) && s' == s.(turn := None)
    ensures Describes(meta, owner, k, s')
  {
  }

  lemma AnswersBefore(s: State)
    requires Inv(s)
    ensures |s.fetches| !in s.answers
  {
  }

  lemma TimePassed(s: State, s': State)
    requires s' == s.(now := s'.now) && s.now <= s'.now
    ensures Evolves(s, s')
  {
  }

  lemma DataReplacedMeans(p: Pid, s: State)
    requires Holds(p, s) && s.turn.value.phase.Answered? && s.turn.value.phase.n in s.answers
    ensures var n := s.turn.value.phase.n;
            Enabled(p, s, DataReplaced)
            && Apply(p, s, DataReplaced) == At(s.(data := Some(s.answers[n]), dataFrom := n), HalfStored(n))
  {
  }

  lemma MetaReplacedMeans(p: Pid, s: State, synced: Time)
    requires Holds(p, s) && s.turn.value.phase.HalfStored? && s.turn.value.phase.n < |s.fetches|
    requires s.fetches[s.turn.value.phase.n].start <= synced <= s.now
    ensures var n := s.turn.value.phase.n;
            Enabled(p, s, MetaReplaced(synced))
            && Apply(p, s, MetaReplaced(synced))
               == At(s.(meta := Some(FreshMeta(s.turn.value.owner, synced + s.ttl, None)), metaFrom := n,
                        stored := s.stored + [Stored(n, synced + s.ttl)]), Finished)
  {
  }

  lemma SinceNotLater(s: State)
    requires Inv(s) && s.turn.Some?
    ensures s.turn.value.since <= s.now
  {
  }

  lemma NowGrows(s: State, s': State)
    requires Evolves(s, s')
    ensures s.now <= s'.now && s.fetches <= s'.fetches && s'.owners == s.owners && s'.forcing == s.forcing
            && s'.ttl == s.ttl
  {
  }

  lemma DescribesNow(meta: Meta, owner: Owner, s: State)
    requires Inv(s) && s.meta == Some(meta) && meta.FreshMeta? && meta.owner == owner
    ensures Describes(meta, owner, s.metaFrom, s)
  {
    DescribesLater(meta, owner, s, s);
  }

  lemma FetchesGrow(s: State, s': State)
    requires Evolves(s, s')
    ensures s.fetches <= s'.fetches
  {
  }
}
