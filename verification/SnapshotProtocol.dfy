/** One snapshot directory of the DBAAS workspace as a transition system: a data file, a meta file, the
    refresh lock of the path, the clock, and the history of the fetches made for it
    (dbaas/backup_sync.py, dbaas/snapshot_meta.py). */
module SnapshotProtocol {
  import opened Wrappers

  type Time = int
  type Pid = nat
  type Payload = string

  /** Whose view of the backups a snapshot shows. */
  datatype Owner = Admin | User(name: string)

  datatype Meta = FreshMeta(owner: Owner, expiresAt: Time, lastError: Option<string>)
                | ErrorMeta(owner: Owner, message: string)

  /** How far the refresh under the lock has got; n numbers its fetch. */
  datatype Phase = Begun | Asked(n: nat) | Answered(n: nat) | HalfStored(n: nat) | Discarded | Finished

  datatype Turn = Turn(holder: Pid, owner: Owner, forced: bool, since: Time, phase: Phase)

  datatype Fetch = Fetch(owner: Owner, forced: bool, start: Time, sender: Pid)

  /** A snapshot that was stored completely. */
  datatype Stored = Stored(fetch: nat, expiresAt: Time)

  datatype State = State(
    data: Option<Payload>, meta: Option<Meta>, turn: Option<Turn>, now: Time,
    fetches: seq<Fetch>, answers: map<nat, Payload>, stored: seq<Stored>,
    dataFrom: nat, metaFrom: nat,               // the fetches that the data and the last fresh meta came from
    ttl: nat, owners: set<Owner>, forcing: bool) // who shares the directory, and whether anybody forces refreshes

  predicate Holds(p: Pid, s: State) { s.turn.Some? && s.turn.value.holder == p }

  /** `_is_snapshot_fresh` at a moment: `now <= expires_at` still counts as fresh. */
  predicate FreshAt(owner: Owner, data: Option<Payload>, meta: Option<Meta>, t: Time)
  {
    meta.Some? && meta.value.FreshMeta? && t <= meta.value.expiresAt && meta.value.owner == owner && data.Some?
  }

  predicate Underway(ph: Phase) { ph.Asked? || ph.Answered? || ph.HalfStored? }

  datatype Step =
    | Ticked(now: Time)
    | LockTaken(owner: Owner, forced: bool)
    | LockReleased
    | FetchBegan(checkedAt: Time)
    | FetchAnswered(payload: Payload)
    | DataReplaced
    | MetaReplaced(synced: Time)
    | MetaKept(checkedAt: Time, message: string)
    | DataDeleted(checkedAt: Time)
    | ErrorMetaWritten(message: string)

  predicate Enabled(p: Pid, s: State, step: Step)
  {
    match step
    case Ticked(now) => s.now <= now
    case LockTaken(owner, forced) => s.turn.None? && owner in s.owners && (forced ==> s.forcing)
    case LockReleased => Holds(p, s)
    case FetchBegan(checkedAt) =>
      && Holds(p, s) && s.turn.value.phase.Begun? && s.turn.value.since <= checkedAt <= s.now
      && (s.turn.value.forced || !FreshAt(s.turn.value.owner, s.data, s.meta, checkedAt))
    case FetchAnswered(_) => Holds(p, s) && s.turn.value.phase.Asked?
    case DataReplaced => Holds(p, s) && s.turn.value.phase.Answered? && s.turn.value.phase.n in s.answers
    case MetaReplaced(synced) =>
      && Holds(p, s) && s.turn.value.phase.HalfStored? && s.turn.value.phase.n < |s.fetches|
      && s.fetches[s.turn.value.phase.n].start <= synced <= s.now
    case MetaKept(checkedAt, _) =>
      && Holds(p, s) && Underway(s.turn.value.phase) && s.turn.value.since <= checkedAt <= s.now
      && s.turn.value.forced && FreshAt(s.turn.value.owner, s.data, s.meta, checkedAt)
    case DataDeleted(checkedAt) =>
      && Holds(p, s) && Underway(s.turn.value.phase) && s.turn.value.since <= checkedAt <= s.now
      && !(s.turn.value.forced && FreshAt(s.turn.value.owner, s.data, s.meta, checkedAt))
    case ErrorMetaWritten(_) => Holds(p, s) && s.turn.value.phase.Discarded?
  }

  function At(s: State, phase: Phase): State
    requires s.turn.Some?
  {
    s.(turn := Some(s.turn.value.(phase := phase)))
  }

  function Apply(p: Pid, s: State, step: Step): State
    requires Enabled(p, s, step)
  {
    match step
    case Ticked(now) => s.(now := now)
    case LockTaken(owner, forced) => s.(turn := Some(Turn(p, owner, forced, s.now, Begun)))
    case LockReleased => s.(turn := None)
    case FetchBegan(_) =>
      At(s.(fetches := s.fetches + [Fetch(s.turn.value.owner, s.turn.value.forced, s.now, p)]), Asked(|s.fetches|))
    case FetchAnswered(payload) =>
      At(s.(answers := s.answers[s.turn.value.phase.n := payload]), Answered(s.turn.value.phase.n))
    case DataReplaced =>
      var n := s.turn.value.phase.n;
      At(s.(data := Some(s.answers[n]), dataFrom := n), HalfStored(n))
    case MetaReplaced(synced) =>
      var n := s.turn.value.phase.n;
      At(s.(meta := Some(FreshMeta(s.turn.value.owner, synced + s.ttl, None)), metaFrom := n,
            stored := s.stored + [Stored(n, synced + s.ttl)]), Finished)
    case MetaKept(_, message) => At(s.(meta := Some(s.meta.value.(lastError := Some(message)))), Finished)
    case DataDeleted(_) => At(s.(data := None), Discarded)
    case ErrorMetaWritten(message) => At(s.(meta := Some(ErrorMeta(s.turn.value.owner, message))), Finished)
  }

  // ---------------------------------------------------------------- the invariant

  predicate TurnOk(t: Turn, s: State)
  {
    && t.since <= s.now && t.owner in s.owners && (t.forced ==> s.forcing)
    && (Underway(t.phase) ==>
          && t.phase.n + 1 == |s.fetches|
          && s.fetches[t.phase.n].owner == t.owner && s.fetches[t.phase.n].forced == t.forced
          && (t.phase.n in s.answers <==> !t.phase.Asked?)
          && (t.phase.HalfStored? ==> s.dataFrom == t.phase.n && s.data.Some?)
          && (forall i :: 0 <= i < |s.stored| ==> s.stored[i].fetch < t.phase.n))
  }

  predicate HistoryOk(s: State)
  {
    && (forall n :: n in s.answers ==> n < |s.fetches|)
    && (forall f :: f in s.fetches ==> f.start <= s.now && f.owner in s.owners)
    && (forall i, j :: 0 <= i < j < |s.fetches| ==> s.fetches[i].start <= s.fetches[j].start)
    && (forall i :: 0 <= i < |s.stored| ==> s.stored[i].fetch < |s.fetches|
                                            && s.fetches[s.stored[i].fetch].start + s.ttl <= s.stored[i].expiresAt)
    && (forall i, j :: 0 <= i < j < |s.stored| ==> s.stored[i].fetch < s.stored[j].fetch)
  }

  /** The data file holds the answer to one fetch, not older than the one the fresh meta describes. */
  predicate FilesOk(s: State)
  {
    && s.metaFrom <= s.dataFrom && (s.dataFrom == 0 || s.dataFrom < |s.fetches|)
    && (s.data.Some? ==> s.dataFrom in s.answers && s.answers[s.dataFrom] == s.data.value)
    && (s.meta.Some? && s.meta.value.FreshMeta? ==>
          s.metaFrom in s.answers && s.metaFrom < |s.fetches| && s.fetches[s.metaFrom].owner == s.meta.value.owner)
    && (s.meta.Some? ==> s.meta.value.owner in s.owners)
    && (forall i :: 0 <= i < |s.stored| ==> s.stored[i].fetch <= s.metaFrom)
  }

  predicate OneOwner(s: State) { forall a, b :: a in s.owners && b in s.owners ==> a == b }

  /** A fresh meta and the data beside it belong to the same owner. */
  predicate OwnersAgree(s: State)
  {
    s.meta.Some? && s.meta.value.FreshMeta? && s.data.Some? && s.dataFrom < |s.fetches| ==>
      s.fetches[s.dataFrom].owner == s.meta.value.owner
  }

  /** Either the expiry of a stored snapshot has passed, or it is still the one on disk. */
  predicate StillOnDisk(s: State, i: nat)
    requires i < |s.stored|
  {
    s.stored[i].expiresAt < s.now
    || (i == |s.stored| - 1 && s.data.Some? && s.meta.Some? && s.meta.value.FreshMeta?
        && s.meta.value.expiresAt == s.stored[i].expiresAt && (s.turn.Some? ==> !Underway(s.turn.value.phase)
                                                                                && !s.turn.value.phase.Discarded?))
  }

  predicate FetchesSpaced(s: State)
  {
    && (forall i :: 0 <= i < |s.stored| ==> StillOnDisk(s, i))
    && (forall i, n :: 0 <= i < |s.stored| && s.stored[i].fetch < n < |s.fetches| ==>
                         s.stored[i].expiresAt < s.fetches[n].start)
  }

  predicate Inv(s: State)
  {
    && (s.turn.Some? ==> TurnOk(s.turn.value, s))
    && HistoryOk(s) && FilesOk(s)
    && (OneOwner(s) ==> OwnersAgree(s))
    && (OneOwner(s) && !s.forcing ==> FetchesSpaced(s))
  }

  /** The clock and the history only grow, and later data comes from later fetches. */
  predicate Evolves(s: State, s': State)
  {
    && s.now <= s'.now && s.fetches <= s'.fetches && s.stored <= s'.stored
    && (forall n :: n in s.answers ==> n in s'.answers && s'.answers[n] == s.answers[n])
    && s.dataFrom <= s'.dataFrom && s.metaFrom <= s'.metaFrom
    && s'.ttl == s.ttl && s'.owners == s.owners && s'.forcing == s.forcing
  }

  lemma TurnStep(p: Pid, s: State, step: Step)
    requires Inv(s) && Enabled(p, s, step)
    ensures var s' := Apply(p, s, step); s'.turn.Some? ==> TurnOk(s'.turn.value, s')
  {
  }

  lemma HistoryStep(p: Pid, s: State, step: Step)
    requires Inv(s) && Enabled(p, s, step)
    ensures HistoryOk(Apply(p, s, step))
  {
    hide OneOwner, OwnersAgree, FetchesSpaced, FreshAt, FilesOk;
    var s' := Apply(p, s, step);
    if step.MetaReplaced? {
      assert s.stored <= s'.stored;
    }
  }

  lemma FilesStep(p: Pid, s: State, step: Step)
    requires Inv(s) && Enabled(p, s, step)
    ensures FilesOk(Apply(p, s, step))
  {
  }

  lemma OwnersStep(p: Pid, s: State, step: Step)
    requires Inv(s) && Enabled(p, s, step) && OneOwner(s)
    ensures OwnersAgree(Apply(p, s, step))
  {
    var s' := Apply(p, s, step);
    assert forall n :: 0 <= n < |s.fetches| ==> s.fetches[n] in s.fetches && s'.fetches[n] == s.fetches[n];
  }

  lemma OnDiskStep(p: Pid, s: State, step: Step, i: nat)
    requires Inv(s) && Enabled(p, s, step) && OneOwner(s) && !s.forcing && i < |Apply(p, s, step).stored|
    ensures StillOnDisk(Apply(p, s, step), i)
  {
    if i < |s.stored| {
      assert StillOnDisk(s, i);
    }
  }

  lemma SpacedStep(p: Pid, s: State, step: Step)
    requires Inv(s) && Enabled(p, s, step) && OneOwner(s) && !s.forcing
    ensures FetchesSpaced(Apply(p, s, step))
  {
    var s' := Apply(p, s, step);
    forall i | 0 <= i < |s'.stored| ensures StillOnDisk(s', i) {
      OnDiskStep(p, s, step, i);
    }
    forall i, n | 0 <= i < |s'.stored| && s'.stored[i].fetch < n < |s'.fetches|
      ensures s'.stored[i].expiresAt < s'.fetches[n].start
    {
      if i < |s.stored| {
        assert StillOnDisk(s, i);
      }
    }
  }

  lemma EvolvesStep(p: Pid, s: State, step: Step)
    requires Inv(s) && Enabled(p, s, step)
    ensures Evolves(s, Apply(p, s, step))
  {
    hide OneOwner, OwnersAgree, FetchesSpaced, FreshAt;
  }

  lemma SameSharing(p: Pid, s: State, step: Step)
    requires Enabled(p, s, step)
    ensures var s' := Apply(p, s, step); s'.forcing == s.forcing && (OneOwner(s') <==> OneOwner(s))
  {
  }

  lemma StepKeepsInv(p: Pid, s: State, step: Step)
    requires Inv(s) && Enabled(p, s, step)
    ensures Inv(Apply(p, s, step)) && Evolves(s, Apply(p, s, step))
  {
    hide Enabled, Apply, TurnOk, HistoryOk, FilesOk, OneOwner, OwnersAgree, FetchesSpaced, Evolves;
    TurnStep(p, s, step);
    HistoryStep(p, s, step);
    FilesStep(p, s, step);
    SameSharing(p, s, step);
    EvolvesStep(p, s, step);
    if OneOwner(s) {
      OwnersStep(p, s, step);
      if !s.forcing {
        SpacedStep(p, s, step);
      }
    }
  }

  lemma EvolvesTransitive(a: State, b: State, c: State)
    requires Evolves(a, b) && Evolves(b, c)
    ensures Evolves(a, c)
  {
  }

  /** What p may assume of any number of steps by others: under the lock only time passes. */
  predicate Rely(p: Pid, s: State, s': State)
  {
    && Inv(s') && Evolves(s, s') && (Holds(p, s) <==> Holds(p, s'))
    && (Holds(p, s) ==> s' == s.(now := s'.now))
    && forall n :: |s.fetches| <= n < |s'.fetches| ==> s'.fetches[n].sender != p
  }

  lemma OtherStepIsRely(p: Pid, q: Pid, s: State, step: Step)
    requires Inv(s) && p != q && Enabled(q, s, step)
    ensures Rely(p, s, Apply(q, s, step))
  {
    StepKeepsInv(q, s, step);
  }

  lemma RelyTransitive(p: Pid, a: State, b: State, c: State)
    requires Rely(p, a, b) && Rely(p, b, c)
    ensures Rely(p, a, c)
  {
    EvolvesTransitive(a, b, c);
  }
}
