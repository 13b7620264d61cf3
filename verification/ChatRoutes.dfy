/** Sending a message: the run lock, the clean-up, the check, the agent and the approval it may ask for
    (api/routes_chat.py). Before an approval the agent runs no write tool. */
module ChatRoutes {
  import opened Wrappers
  import opened SessionRecords
  import opened SessionProtocol
  import opened SessionStore
  import opened ApprovalService
  import opened ApprovalDecisions

  datatype Refusal = Busy | CleanupUnfinished | ApprovalWaiting

  /** The reason for which a message is refused, if it is, as the session stands under the lock. */
  predicate RefusalFollows(refused: Option<Refusal>, s: State)
  {
    && (refused == Some(CleanupUnfinished) <==> CleanupPending(s))
    && (refused == Some(ApprovalWaiting) <==> !CleanupPending(s) && !NoPending(s))
  }

  /** What the part of the handlers before the agent has seen to since s0. */
  predicate CleanedUp(p: Pid, s0: State, s: State, log0: seq<Approval>, log: seq<Approval>)
  {
    && log0 <= log && AllTried(p, s0, s, log0, log)
    && forall i :: i in s0.approvals && IsExpired(s0.approvals[i], s0.now) ==>
                     i in s.approvals && !s.approvals[i].status.Pending?
  }

  lemma CleanedUpStill(p: Pid, s0: State, s: State, s': State, log0: seq<Approval>, log: seq<Approval>,
                       log': seq<Approval>)
    requires CleanedUp(p, s0, s, log0, log) && Evolves(s, s') && log <= log'
    ensures CleanedUp(p, s0, s', log0, log')
  {
    hide AllTried, IsExpired;
    AllTriedStill(p, s0, s, s', log0, log, log');
  }

  lemma CleanedUpMeans(p: Pid, s: State, s0: State, s1: State, s2: State, log0: seq<Approval>, log: seq<Approval>)
    requires AllTried(p, s0, s1, log0, log) && OnlyExpired(s0, s1) && log0 <= log
    requires forall i :: i in s1.approvals && s1.approvals[i].status.Pending? ==> !IsExpired(s1.approvals[i], s0.now)
    requires s0 == s.(lock := s0.lock) && s2 == s1.(lock := s2.lock) && Evolves(s0, s1)
    ensures CleanedUp(p, s, s2, log0, log)
  {
    hide AllTried;
    TriedBetween(p, s, s0, s1, s2, log0, log);
  }

  /** The part both handlers share: take the lock, expire what has to expire, refuse if something waits.
      If the message is accepted, p holds the lock and nothing waits for an answer. */
  method Accept(session: Session, p: Pid, user: Identity, agent: nat -> AgentReply) returns (refused: Option<Refusal>)
    requires session.Settled() && !Holds(p, session.S())
    modifies session
    ensures session.Settled() && Evolves(old(session.S()), session.S()) && Quiet(p, old(session.S()), session.S())
    ensures refused.Some? <==> !Holds(p, session.S())
    ensures refused == Some(Busy) <==> old(session.S()).lock.Some?
    ensures refused == Some(Busy) ==> session.S() == old(session.S())
    ensures refused != Some(Busy) ==> RefusalFollows(refused, session.S())
                                      && CleanedUp(p, old(session.S()), session.S(), old(session.approvals),
                                                   session.approvals)
  {
    hide *;
    ghost var s, log := session.S(), session.approvals;
    EvolvesReflexive(s);
    QuietSame(p, s, s);
    var acquired := session.TryAcquireRunLock(p, s);
    if !acquired {
      return Some(Busy);
    }
    ghost var s1 := session.S();
    EvolvesReflexive(s1);
    var expired := ExpirePendingApprovals(session, p, user, agent, s1);
    ghost var s2 := session.S();
    HoldsToo(p, s1, s2);
    var unfinished := session.HasFailedExpiredResume();
    var waiting := session.HasPendingApproval();
    refused := if unfinished then Some(CleanupUnfinished) else if waiting then Some(ApprovalWaiting) else None;
    TheRefusal(refused, unfinished, waiting, s2);
    if refused.Some? {
      session.ReleaseRunLock(p, s1);
      TheRefusal(refused, unfinished, waiting, session.S());
    }
    CleanedUpMeans(p, s, s1, s2, session.S(), log, session.approvals);
    QuietSame(p, s, session.S());
    LockOnly(s, s1);
    EvolvesTransitive(s, s1, session.S());
  }

  lemma TheRefusal(refused: Option<Refusal>, unfinished: bool, waiting: bool, s: State)
    requires (unfinished <==> CleanupPending(s)) && (waiting <==> !NoPending(s))
    requires refused == if unfinished then Some(CleanupUnfinished) else if waiting then Some(ApprovalWaiting) else None
    ensures RefusalFollows(refused, s)
    ensures forall s': State :: s'.approvals == s.approvals ==>
                                  (CleanupPending(s') <==> unfinished) && (NoPending(s') <==> !waiting)
  {
  }

  datatype ChatOutcome = Refused(why: Refusal) | AgentFailed | ApprovalRefused | Paused(approval: Approval) | Answered

  /** What the sender is told is true of the log, and one approval at most waits when the call returns. */
  predicate ChatTruthful(r: ChatOutcome, s: State)
  {
    && (r.AgentFailed? || r.Answered? || r.ApprovalRefused? ==> NoPending(s))
    && (r.Paused? ==> r.approval.id in s.approvals && s.approvals[r.approval.id] == r.approval
                       && r.approval.status.Pending?)
  }

  /** What the sender of an accepted message is told follows from how the agent's turn ended. */
  predicate ChatFollows(r: ChatOutcome, reply: AgentReply, user: Identity, from: Time, to: Time)
  {
    match reply
    case AgentRaised(_) => r.AgentFailed?
    case Replied(None) => r.Answered?
    case Replied(Some(request)) =>
      if WellFormed(request, user) then r.Paused? && Requested(r.approval, request, from, to) else r.ApprovalRefused?
  }

  /** `send_message`. */
  method SendMessage(session: Session, p: Pid, user: Identity, agent: nat -> AgentReply, reply: AgentReply)
    returns (r: ChatOutcome)
    requires session.Settled() && !Holds(p, session.S())
    modifies session
    ensures session.Settled() && !Holds(p, session.S()) && Evolves(old(session.S()), session.S())
    ensures Quiet(p, old(session.S()), session.S()) && ChatTruthful(r, session.S())
    ensures r == Refused(Busy) <==> old(session.S()).lock.Some?
    ensures r == Refused(Busy) ==> session.S() == old(session.S())
    ensures r != Refused(Busy) ==>
              CleanedUp(p, old(session.S()), session.S(), old(session.approvals), session.approvals)
    ensures r.Refused? && r != Refused(Busy) ==> RefusalFollows(Some(r.why), session.S())
    ensures !r.Refused? ==> ChatFollows(r, reply, user, old(session.S()).now, session.S().now)
  {
    hide *;
    ghost var s, log := session.S(), session.approvals;
    var refused := Accept(session, p, user, agent);
    if refused.Some? {
      RefusedTruthful(refused.value, session.S());
      return Refused(refused.value);
    }
    ghost var s1, log1 := session.S(), session.approvals;
    NothingWaits(refused, s1);
    EvolvesReflexive(s1);
    r := TakeTurn(session, p, user, reply, s1);
    CleanedUpStill(p, s, s1, session.S(), log, log1, session.approvals);
    QuietThen(p, s, s1, session.S());
    EvolvesTransitive(s, s1, session.S());
    TimeGrows(s, s1);
    FollowsSince(r, reply, user, s.now, s1.now, session.S().now);
  }

  lemma RefusedTruthful(why: Refusal, s: State)
    ensures ChatTruthful(Refused(why), s)
  {
  }

  lemma NothingWaits(refused: Option<Refusal>, s: State)
    requires RefusalFollows(refused, s) && refused.None?
    ensures NoPending(s)
  {
  }

  lemma FollowsSince(r: ChatOutcome, reply: AgentReply, user: Identity, from: Time, later: Time, to: Time)
    requires ChatFollows(r, reply, user, later, to) && from <= later
    ensures ChatFollows(r, reply, user, from, to) && !r.Refused?
  {
    hide WellFormed;
  }

  /** The agent's turn, after which the lock is given back. */
  method TakeTurn(session: Session, p: Pid, user: Identity, reply: AgentReply, ghost s: State) returns (r: ChatOutcome)
    requires session.Settled() && s == session.S() && Holds(p, s) && NoPending(s)
    modifies session
    ensures session.Settled() && !Holds(p, session.S()) && Evolves(s, session.S()) && Quiet(p, s, session.S())
    ensures old(session.approvals) <= session.approvals
    ensures ChatTruthful(r, session.S()) && ChatFollows(r, reply, user, s.now, session.S().now)
  {
    hide *;
    EvolvesReflexive(s);
    session.Interfere(p, s);
    ghost var s1 := session.S();
    StillNonePending(p, s, s1);
    match reply {
      case AgentRaised(_) =>
        r := AgentFailed;
      case Replied(None) =>
        r := Answered;
      case Replied(Some(request)) =>
        var created := CreateApproval(session, p, user, request, s);
        r := if created.Some? then Paused(created.value) else ApprovalRefused;
        HoldsToo(p, s1, session.S());
        PausedTurn(r, created, request, user, s.now, s1, session.S());
    }
    PlainTurn(r, reply, user, s.now, session.S());
    ghost var s2 := session.S();
    session.ReleaseRunLock(p, s);
    ChatUnlocked(r, s2, session.S());
    QuietSame(p, s, session.S());
  }

  lemma ChatUnlocked(r: ChatOutcome, s: State, s': State)
    requires ChatTruthful(r, s) && s'.approvals == s.approvals
    ensures ChatTruthful(r, s')
  {
  }

  lemma PlainTurn(r: ChatOutcome, reply: AgentReply, user: Identity, from: Time, s: State)
    ensures reply.AgentRaised? && r.AgentFailed? ==> ChatFollows(r, reply, user, from, s.now)
    ensures reply == Replied(None) && r.Answered? ==> ChatFollows(r, reply, user, from, s.now)
    ensures (r.AgentFailed? || r.Answered?) && NoPending(s) ==> ChatTruthful(r, s)
  {
  }

  lemma PausedTurn(r: ChatOutcome, created: Option<Approval>, request: Interrupt, user: Identity, from: Time, s: State,
                   s': State)
    requires NoPending(s) && (created.Some? <==> NoPending(s) && WellFormed(request, user)) && from <= s.now
    requires r == if created.Some? then Paused(created.value) else ApprovalRefused
    requires created.None? ==> s' == s
    requires created.Some? ==> Requested(created.value, request, s.now, s'.now)
                               && created.value.id in s'.approvals && s'.approvals[created.value.id] == created.value
    ensures ChatTruthful(r, s') && ChatFollows(r, Replied(Some(request)), user, from, s'.now)
  {
    hide WellFormed;
  }

  // ---------------------------------------------------------------- streaming

  datatype AgentEvent = Token(content: string) | Note | ApprovalRequired(request: Interrupt)
    | RunPaused(content: string) | Completed(content: string)

  /** The text the tokens add up to. */
  function Spoken(events: seq<AgentEvent>): string
  {
    if events == [] then ""
    else
      var e := events[|events| - 1];
      Spoken(events[..|events| - 1]) + if e.Token? then e.content else ""
  }

  datatype StreamOutcome = StreamRefused(why: Refusal) | StreamFailed | StreamPaused(approval: Approval)
    | StreamAnswered(text: string)

  /** The request cannot be granted: it is ill formed, not for this user to make, or the second one. */
  predicate FailsAt(events: seq<AgentEvent>, k: nat, user: Identity)
    requires k < |events|
  {
    events[k].ApprovalRequired?
    && (!WellFormed(events[k].request, user) || exists j :: 0 <= j < k && events[j].ApprovalRequired?)
  }

  /** The loop over the events goes on until the first pause or the first request that cannot be granted; seen
      counts the events it has taken. */
  predicate TakenUntil(events: seq<AgentEvent>, seen: nat, user: Identity)
  {
    seen <= |events| && forall k :: 0 <= k < seen - 1 ==> !events[k].RunPaused? && !FailsAt(events, k, user)
  }

  predicate StopsAt(events: seq<AgentEvent>, seen: nat, user: Identity)
    requires seen <= |events|
  {
    seen > 0 && (events[seen - 1].RunPaused? || FailsAt(events, seen - 1, user))
  }

  /** The last of the events taken that closes the agent's turn. */
  predicate LastFinal(events: seq<AgentEvent>, seen: nat, k: nat)
    requires seen <= |events|
  {
    && k < seen && (events[k].RunPaused? || events[k].Completed?)
    && forall j :: k < j < seen ==> !events[j].RunPaused? && !events[j].Completed?
  }

  /** Nothing is answered: a request could not be granted, no event closed the turn, or the agent raised. */
  predicate StreamBreaks(events: seq<AgentEvent>, seen: nat, broken: bool, user: Identity)
    requires seen <= |events|
  {
    || (seen > 0 && FailsAt(events, seen - 1, user))
    || (forall k :: 0 <= k < seen ==> !LastFinal(events, seen, k))
    || (broken && (seen == 0 || !events[seen - 1].RunPaused?))
  }

  predicate StreamTruthful(r: StreamOutcome, s: State)
  {
    && (r.StreamPaused? ==> r.approval.id in s.approvals && s.approvals[r.approval.id] == r.approval
                            && r.approval.status.Pending?)
    && (r.StreamAnswered? ==> NoPending(s))
  }

  /** What the reader of an accepted message's stream is told last, for the events taken. */
  ghost predicate StreamFollows(r: StreamOutcome, events: seq<AgentEvent>, seen: nat, broken: bool, user: Identity,
                          from: Time, to: Time)
    requires seen <= |events|
  {
    && (r.StreamFailed? <==> StreamBreaks(events, seen, broken, user)) && !r.StreamRefused?
    && (!r.StreamFailed? ==> (r.StreamPaused? <==> exists k :: 0 <= k < seen && events[k].ApprovalRequired?))
    && (r.StreamPaused? ==> exists k :: 0 <= k < seen && events[k].ApprovalRequired?
                                        && Requested(r.approval, events[k].request, from, to))
    && (r.StreamAnswered? ==>
          exists k: nat :: k < seen && LastFinal(events, seen, k)
                           && r.text == if events[k].content != "" then events[k].content else Spoken(events[..seen]))
  }

  /** Where the loop has got to: what was said, the last final event, and the approval asked for. */
  predicate Progress(events: seq<AgentEvent>, user: Identity, seen: nat, content: string, final: Option<nat>,
                     asked: Option<nat>, failed: bool)
  {
    && TakenUntil(events, seen, user) && content == Spoken(events[..seen])
    && (final.Some? ==> LastFinal(events, seen, final.value))
    && (final.None? ==> forall k :: 0 <= k < seen ==> !events[k].RunPaused? && !events[k].Completed?)
    && (failed <==> seen > 0 && FailsAt(events, seen - 1, user))
    && (asked.Some? ==> asked.value < seen && events[asked.value].ApprovalRequired?)
    && (!failed ==> forall k :: 0 <= k < seen && events[k].ApprovalRequired? ==> asked == Some(k))
  }

  lemma NoEvents(events: seq<AgentEvent>, user: Identity)
    ensures Progress(events, user, 0, "", None, None, false)
  {
  }

  lemma OneMoreEvent(events: seq<AgentEvent>, user: Identity, seen: nat, content: string, final: Option<nat>,
                     asked: Option<nat>, failed: bool)
    requires Progress(events, user, seen, content, final, asked, false) && seen < |events|
    requires seen > 0 ==> !events[seen - 1].RunPaused?
    requires failed <==> events[seen].ApprovalRequired?
                         && (asked.Some? || !WellFormed(events[seen].request, user))
    ensures var e := events[seen];
            Progress(events, user, seen + 1, content + if e.Token? then e.content else "",
                     if e.RunPaused? || e.Completed? then Some(seen) else final,
                     if e.ApprovalRequired? && !failed then Some(seen) else asked, failed)
  {
    hide WellFormed;
    assert events[..seen + 1][..seen] == events[..seen];
    assert (exists j :: 0 <= j < seen && events[j].ApprovalRequired?) <==> asked.Some?;
  }

  /** The approval in hand, if any, is the one that was asked for, and nothing else waits. */
  predicate StreamState(paused: Option<Approval>, s: State)
  {
    && (paused.None? ==> NoPending(s))
    && (paused.Some? ==> paused.value.id in s.approvals && s.approvals[paused.value.id] == paused.value
                         && paused.value.status.Pending?)
  }

  predicate AskedFor(paused: Option<Approval>, events: seq<AgentEvent>, asked: Option<nat>, from: Time, to: Time)
  {
    && (paused.Some? <==> asked.Some?)
    && (paused.Some? ==> asked.value < |events| && events[asked.value].ApprovalRequired?
                         && Requested(paused.value, events[asked.value].request, from, to))
  }

  /** One event of the stream: a request for approval becomes an approval, or ends the stream. */
  method ReceiveEvent(session: Session, p: Pid, user: Identity, e: AgentEvent, paused: Option<Approval>, ghost s: State)
    returns (paused': Option<Approval>, failed: bool)
    requires session.Settled() && Evolves(s, session.S()) && Holds(p, session.S()) && Quiet(p, s, session.S())
    requires StreamState(paused, session.S())
    modifies session
    ensures session.Settled() && Evolves(s, session.S()) && Holds(p, session.S()) && Quiet(p, s, session.S())
    ensures StreamState(paused', session.S()) && old(session.approvals) <= session.approvals
    ensures old(session.S()).now <= session.S().now
    ensures failed <==> e.ApprovalRequired? && (paused.Some? || !WellFormed(e.request, user))
    ensures !e.ApprovalRequired? || failed ==> paused' == paused
    ensures e.ApprovalRequired? && !failed ==>
              paused'.Some? && Requested(paused'.value, e.request, old(session.S()).now, session.S().now)
  {
    hide *;
    ghost var s1 := session.S();
    session.Interfere(p, s);
    ghost var s2 := session.S();
    StreamStateKept(p, paused, s1, s2);
    QuietSame(p, s1, s2);
    QuietThen(p, s, s1, s2);
    paused', failed := paused, false;
    if e.ApprovalRequired? {
      var created := CreateApproval(session, p, user, e.request, s);
      QuietSame(p, s2, session.S());
      QuietThen(p, s, s2, session.S());
      HoldsToo(p, s2, session.S());
      AskedThen(paused, created, e.request, user, s1.now, s2, session.S());
      failed := created.None?;
      paused' := if failed then paused else created;
    }
  }

  lemma NothingPaused(s: State)
    requires NoPending(s)
    ensures StreamState(None, s)
  {
  }

  lemma AskedThen(paused: Option<Approval>, created: Option<Approval>, request: Interrupt, user: Identity, from: Time,
                  s: State, s': State)
    requires StreamState(paused, s) && (created.Some? <==> NoPending(s) && WellFormed(request, user)) && from <= s.now
    requires created.None? ==> s' == s
    requires created.Some? ==> Requested(created.value, request, s.now, s'.now)
                               && created.value.id in s'.approvals && s'.approvals[created.value.id] == created.value
    ensures created.None? <==> paused.Some? || !WellFormed(request, user)
    ensures StreamState(if created.Some? then created else paused, s')
    ensures created.Some? ==> Requested(created.value, request, from, s'.now)
  {
    hide WellFormed;
  }

  lemma StreamStateKept(p: Pid, paused: Option<Approval>, s: State, s': State)
    requires Holds(p, s) && Rely(p, s, s') && StreamState(paused, s)
    ensures StreamState(paused, s') && Holds(p, s') && s'.writes == s.writes && s.now <= s'.now
  {
    hide Inv;
  }

  /** The loop over the agent's events. */
  method ConsumeEvents(session: Session, p: Pid, user: Identity, events: seq<AgentEvent>, ghost s: State)
    returns (seen: nat, content: string, final: Option<nat>, paused: Option<Approval>, failed: bool,
             ghost asked: Option<nat>)
    requires session.Settled() && s == session.S() && Holds(p, s) && NoPending(s)
    modifies session
    ensures session.Settled() && Evolves(s, session.S()) && Holds(p, session.S()) && Quiet(p, s, session.S())
    ensures StreamState(paused, session.S()) && Progress(events, user, seen, content, final, asked, failed)
    ensures AskedFor(paused, events, asked, s.now, session.S().now) && old(session.approvals) <= session.approvals
    ensures seen <= |events| && (failed || seen == |events| || (seen > 0 && events[seen - 1].RunPaused?))
  {
    hide *;
    seen, content, final, paused, failed, asked := 0, "", None, None, false, None;
    NothingPaused(s);
    EvolvesReflexive(s);
    QuietSame(p, s, s);
    NoEvents(events, user);
    NoneAsked(events, s.now);
    while seen < |events| && !failed && !(seen > 0 && events[seen - 1].RunPaused?)
      invariant session.Settled() && Evolves(s, session.S()) && Holds(p, session.S()) && Quiet(p, s, session.S())
      invariant seen <= |events| && StreamState(paused, session.S()) && old(session.approvals) <= session.approvals
      invariant Progress(events, user, seen, content, final, asked, failed)
      invariant AskedFor(paused, events, asked, s.now, session.S().now)
    {
      var e := events[seen];
      var next: Option<Approval>;
      ghost var before := session.S();
      TimeGrows(s, before);
      next, failed := ReceiveEvent(session, p, user, e, paused, s);
      AskedNext(paused, next, events, asked, seen, failed, s.now, before.now, session.S().now);
      OneMoreEvent(events, user, seen, content, final, asked, failed);
      content := content + if e.Token? then e.content else "";
      final := if e.RunPaused? || e.Completed? then Some(seen) else final;
      asked := if e.ApprovalRequired? && !failed then Some(seen) else asked;
      paused, seen := next, seen + 1;
    }
  }

  lemma NoneAsked(events: seq<AgentEvent>, now: Time)
    ensures AskedFor(None, events, None, now, now)
  {
  }

  lemma AskedNext(paused: Option<Approval>, paused': Option<Approval>, events: seq<AgentEvent>, asked: Option<nat>,
                  seen: nat, failed: bool, from: Time, later: Time, to: Time)
    requires AskedFor(paused, events, asked, from, later) && seen < |events| && from <= later <= to
    requires !events[seen].ApprovalRequired? || failed ==> paused' == paused
    requires events[seen].ApprovalRequired? && !failed ==>
               paused'.Some? && Requested(paused'.value, events[seen].request, later, to)
    ensures (paused.Some? <==> asked.Some?)
    ensures AskedFor(paused', events, if events[seen].ApprovalRequired? && !failed then Some(seen) else asked, from, to)
  {
  }

  /** `stream_message`, with the run lock held for as long as the stream lasts. What the agent does ends up
      in events; broken says that it raised after the last of them, unless a pause had ended the loop. */
  method StreamMessage(session: Session, p: Pid, user: Identity, agent: nat -> AgentReply, events: seq<AgentEvent>,
                       broken: bool)
    returns (r: StreamOutcome, ghost seen: nat)
    requires session.Settled() && !Holds(p, session.S())
    modifies session
    ensures session.Settled() && !Holds(p, session.S()) && Evolves(old(session.S()), session.S())
    ensures Quiet(p, old(session.S()), session.S()) && StreamTruthful(r, session.S())
    ensures r == StreamRefused(Busy) <==> old(session.S()).lock.Some?
    ensures r == StreamRefused(Busy) ==> session.S() == old(session.S())
    ensures r != StreamRefused(Busy) ==>
              CleanedUp(p, old(session.S()), session.S(), old(session.approvals), session.approvals)
    ensures r.StreamRefused? && r != StreamRefused(Busy) ==> RefusalFollows(Some(r.why), session.S())
    ensures seen <= |events|
    ensures !r.StreamRefused? ==>
              && TakenUntil(events, seen, user) && (seen == |events| || StopsAt(events, seen, user))
              && StreamFollows(r, events, seen, broken, user, old(session.S()).now, session.S().now)
  {
    hide *;
    ghost var s, log := session.S(), session.approvals;
    seen := 0;
    var refused := Accept(session, p, user, agent);
    if refused.Some? {
      StreamRefusedTruthful(refused.value, session.S());
      return StreamRefused(refused.value), 0;
    }
    ghost var s1, log1 := session.S(), session.approvals;
    NothingWaits(refused, s1);
    var consumed, content, final, paused, failed;
    ghost var asked;
    consumed, content, final, paused, failed, asked := ConsumeEvents(session, p, user, events, s1);
    seen := consumed;
    ghost var s2 := session.S();
    FinalIndex(events, user, seen, content, final, asked, failed);
    r := if failed || final.None? || (broken && !events[final.value].RunPaused?) then StreamFailed
         else if paused.Some? then StreamPaused(paused.value)
         else StreamAnswered(if events[final.value].content != "" then events[final.value].content else content);
    StreamEnds(paused, r, s2);
    session.ReleaseRunLock(p, s1);
    StreamUnlocked(r, s2, session.S());
    QuietSame(p, s2, session.S());
    QuietThen(p, s1, s2, session.S());
    QuietThen(p, s, s1, session.S());
    EvolvesTransitive(s, s1, session.S());
    TimeGrows(s, s1);
    CleanedUpStill(p, s, s1, session.S(), log, log1, session.approvals);
    AskedSince(paused, events, asked, s.now, s1.now, s2.now);
    StreamTold(r, events, user, seen, content, final, asked, failed, broken, paused, s.now, s2.now);
  }

  lemma FinalIndex(events: seq<AgentEvent>, user: Identity, seen: nat, content: string, final: Option<nat>,
                   asked: Option<nat>, failed: bool)
    requires Progress(events, user, seen, content, final, asked, failed)
    ensures seen <= |events| && TakenUntil(events, seen, user)
    ensures final.Some? ==> final.value < |events| && (events[final.value].RunPaused? || events[final.value].Completed?)
  {
  }

  lemma AskedSince(paused: Option<Approval>, events: seq<AgentEvent>, asked: Option<nat>, from: Time, later: Time,
                   to: Time)
    requires AskedFor(paused, events, asked, later, to) && from <= later
    ensures AskedFor(paused, events, asked, from, to)
  {
  }

  /** The last word of the stream is what the events taken call for. */
  lemma StreamTold(r: StreamOutcome, events: seq<AgentEvent>, user: Identity, seen: nat, content: string,
                   final: Option<nat>, asked: Option<nat>, failed: bool, broken: bool, paused: Option<Approval>,
                   from: Time, to: Time)
    requires Progress(events, user, seen, content, final, asked, failed)
    requires failed || seen == |events| || (seen > 0 && events[seen - 1].RunPaused?)
    requires AskedFor(paused, events, asked, from, to)
    requires final.Some? ==> final.value < |events|
                             && (events[final.value].RunPaused? || events[final.value].Completed?)
    requires r == if failed || final.None? || (broken && !events[final.value].RunPaused?) then StreamFailed
                  else if paused.Some? then StreamPaused(paused.value)
                  else StreamAnswered(if events[final.value].content != "" then events[final.value].content
                                      else content)
    ensures seen == |events| || StopsAt(events, seen, user)
    ensures StreamFollows(r, events, seen, broken, user, from, to)
  {
    hide WellFormed, Requested, FailsAt;
    if final.Some? {
      PauseIsLast(events, user, seen, final.value);
    }
  }

  /** A pause is the last event taken. */
  lemma PauseIsLast(events: seq<AgentEvent>, user: Identity, seen: nat, k: nat)
    requires TakenUntil(events, seen, user) && LastFinal(events, seen, k)
    ensures events[k].RunPaused? <==> events[seen - 1].RunPaused?
  {
    hide FailsAt;
  }

  lemma StreamRefusedTruthful(why: Refusal, s: State)
    ensures StreamTruthful(StreamRefused(why), s)
  {
  }

  lemma StreamEnds(paused: Option<Approval>, r: StreamOutcome, s: State)
    requires StreamState(paused, s)
    requires r.StreamPaused? ==> paused == Some(r.approval)
    requires r.StreamAnswered? ==> paused.None?
    ensures StreamTruthful(r, s)
  {
  }

  lemma StreamUnlocked(r: StreamOutcome, s: State, s': State)
    requires StreamTruthful(r, s) && s'.approvals == s.approvals
    ensures StreamTruthful(r, s')
  {
  }
}
