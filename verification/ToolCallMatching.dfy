/** Matching the actions an approval asks for with the tool calls of the paused message
    (agent/runtime.py, `_find_interrupted_tool_call_ids`). */
module ToolCallMatching {
  import opened Wrappers

  type Args = map<string, string>

  datatype Action = Action(name: string, args: Args)

  datatype Call = Call(id: string, action: Action)

  /** The calls of the last message that has any. */
  method LastToolCalls(messages: seq<seq<Call>>) returns (calls: seq<Call>)
    ensures calls == [] <==> forall m :: m in messages ==> m == []
    ensures calls != [] ==> exists i :: 0 <= i < |messages| && messages[i] == calls
                                        && forall j :: i < j < |messages| ==> messages[j] == []
  {
    calls := [];
    var i := |messages|;
    while i > 0
      invariant 0 <= i <= |messages| && calls == [] && forall j :: i <= j < |messages| ==> messages[j] == []
    {
      i := i - 1;
      calls := calls + messages[i];
      if calls != [] {
        assert messages[i] in messages;
        return;
      }
    }
  }

  predicate Fits(call: Call, request: Action, exact: bool)
  {
    call.action.name == request.name && (exact ==> call.action.args == request.args)
  }

  /** `_find_matching_tool_call_index`: the first unused call that fits. */
  method FindMatching(calls: seq<Call>, request: Action, used: set<nat>, exact: bool) returns (r: Option<nat>)
    ensures r.Some? ==> r.value < |calls| && r.value !in used && Fits(calls[r.value], request, exact)
                        && forall j :: 0 <= j < r.value && Fits(calls[j], request, exact) ==> j in used
    ensures r.None? ==> forall j :: 0 <= j < |calls| && Fits(calls[j], request, exact) ==> j in used
  {
    for index := 0 to |calls|
      invariant forall j :: 0 <= j < index && Fits(calls[j], request, exact) ==> j in used
    {
      if index in used || calls[index].action.name != request.name {
        continue;
      }
      if exact && calls[index].action.args != request.args {
        continue;
      }
      return Some(index);
    }
    return None;
  }

  // ---------------------------------------------------------------- what a matching is

  predicate Injective(matched: seq<Option<nat>>)
  {
    forall i, j :: 0 <= i < j < |matched| && matched[i].Some? && matched[j].Some? ==> matched[i] != matched[j]
  }

  predicate NamesKept(calls: seq<Call>, requests: seq<Action>, matched: seq<Option<nat>>)
  {
    |matched| == |requests|
    && forall i :: 0 <= i < |matched| && matched[i].Some? ==>
                     matched[i].value < |calls| && calls[matched[i].value].action.name == requests[i].name
  }

  predicate AllExact(calls: seq<Call>, requests: seq<Action>, matched: seq<Option<nat>>)
  {
    |matched| == |requests|
    && forall i :: 0 <= i < |matched| ==>
                     matched[i].Some? && matched[i].value < |calls| && calls[matched[i].value].action == requests[i]
  }

  /** The first free call with the request's own arguments, or else the first free call of its name, or else none. */
  predicate Best(calls: seq<Call>, request: Action, used: set<nat>, m: Option<nat>)
  {
    && (m.None? ==> forall j :: 0 <= j < |calls| && calls[j].action.name == request.name ==> j in used)
    && (m.Some? ==>
          && m.value < |calls| && m.value !in used && calls[m.value].action.name == request.name
          && (forall j :: 0 <= j < m.value && calls[j].action == request ==> j in used)
          && (calls[m.value].action != request ==>
                && (forall j :: 0 <= j < |calls| && calls[j].action == request ==> j in used)
                && (forall j :: 0 <= j < m.value && calls[j].action.name == request.name ==> j in used)))
  }

  function Taken(matched: seq<Option<nat>>): set<nat>
  {
    set i | 0 <= i < |matched| && matched[i].Some? :: matched[i].value
  }

  /** Each request in turn gets the best of the calls that the earlier ones have left. */
  predicate InTurn(calls: seq<Call>, requests: seq<Action>, matched: seq<Option<nat>>)
  {
    |matched| <= |requests|
    && forall i :: 0 <= i < |matched| ==> Best(calls, requests[i], Taken(matched[..i]), matched[i])
  }

  lemma NextInTurn(calls: seq<Call>, requests: seq<Action>, matched: seq<Option<nat>>, m: Option<nat>)
    requires InTurn(calls, requests, matched) && |matched| < |requests|
    requires Best(calls, requests[|matched|], Taken(matched), m)
    ensures InTurn(calls, requests, matched + [m]) && Taken(matched + [m]) == Using(Taken(matched), m)
  {
    hide Best;
    var longer, n := matched + [m], |matched|;
    assert longer[..n] == matched;
    forall i | 0 <= i < n ensures Best(calls, requests[i], Taken(longer[..i]), longer[i]) {
      assert longer[..i] == matched[..i];
    }
    forall k ensures k in Taken(longer) <==> k in Using(Taken(matched), m) {
      if k in Taken(matched) {
        var i :| 0 <= i < n && matched[i] == Some(k);
        assert longer[i] == Some(k);
      }
      if m == Some(k) {
        assert longer[n] == Some(k);
      }
    }
  }

  function IdsOf(calls: seq<Call>, matched: seq<Option<nat>>): seq<string>
    requires forall i :: 0 <= i < |matched| && matched[i].Some? ==> matched[i].value < |calls|
  {
    seq(|matched|, i requires 0 <= i < |matched| => if matched[i].Some? then calls[matched[i].value].id else "")
  }

  function Actions(calls: seq<Call>): (r: seq<Action>)
    ensures |r| == |calls|
  {
    seq(|calls|, i requires 0 <= i < |calls| => calls[i].action)
  }

  function CountNamed(actions: seq<Action>, name: string): nat
  {
    if actions == [] then 0
    else CountNamed(actions[..|actions| - 1], name) + if actions[|actions| - 1].name == name then 1 else 0
  }

  /** The calls of this name among the used ones. */
  function UsedNamed(calls: seq<Call>, used: set<nat>, name: string): set<nat>
  {
    set i | i in used && i < |calls| && calls[i].action.name == name
  }

  function AllNamed(calls: seq<Call>, name: string): set<nat>
  {
    set i | 0 <= i < |calls| && calls[i].action.name == name
  }

  /** What the source promises of a matching: no call is given twice, names are kept, and a request is left
      without a call exactly if the earlier requests have used up its name. */
  predicate IsMatching(calls: seq<Call>, requests: seq<Action>, matched: seq<Option<nat>>)
  {
    && Injective(matched) && NamesKept(calls, requests, matched)
    && forall i :: 0 <= i < |requests| ==>
         (matched[i].None? <==> CountNamed(requests[..i], requests[i].name) >= |AllNamed(calls, requests[i].name)|)
  }

  function Min(a: nat, b: nat): nat { if a <= b then a else b }

  /** What the loop has used up: as many calls of every name as were asked for, or all there are. */
  ghost predicate UsedUp(calls: seq<Call>, requests: seq<Action>, used: set<nat>)
  {
    forall name :: |UsedNamed(calls, used, name)| == Min(CountNamed(requests, name), |AllNamed(calls, name)|)
  }

  lemma CountMore(requests: seq<Action>, i: nat, name: string)
    requires i < |requests|
    ensures CountNamed(requests[..i + 1], name)
            == CountNamed(requests[..i], name) + if requests[i].name == name then 1 else 0
  {
    assert requests[..i + 1][..i] == requests[..i];
  }

  lemma SubsetSizes(a: set<nat>, b: set<nat>)
    requires a <= b
    ensures |a| <= |b| && (|a| == |b| <==> a == b)
  {
    if a != b {
      var x :| x in b && x !in a;
      SubsetSizes(a, b - {x});
    }
  }

  lemma UsedMore(calls: seq<Call>, used: set<nat>, m: nat, name: string)
    requires m < |calls| && m !in used
    ensures |UsedNamed(calls, used + {m}, name)|
            == |UsedNamed(calls, used, name)| + if calls[m].action.name == name then 1 else 0
  {
    assert UsedNamed(calls, used + {m}, name)
           == UsedNamed(calls, used, name) + if calls[m].action.name == name then {m} else {};
  }

  lemma UsedWithin(calls: seq<Call>, used: set<nat>, name: string)
    ensures UsedNamed(calls, used, name) <= AllNamed(calls, name)
  {
  }

  lemma Matched(calls: seq<Call>, requests: seq<Action>, i: nat, used: set<nat>, m: nat)
    requires i < |requests| && UsedUp(calls, requests[..i], used) && m < |calls| && m !in used
    requires calls[m].action.name == requests[i].name
    ensures UsedUp(calls, requests[..i + 1], used + {m})
            && CountNamed(requests[..i], requests[i].name) < |AllNamed(calls, requests[i].name)|
  {
    var name := requests[i].name;
    UsedWithin(calls, used, name);
    assert m in AllNamed(calls, name) && m !in UsedNamed(calls, used, name);
    SubsetSizes(UsedNamed(calls, used, name), AllNamed(calls, name));
    hide UsedNamed, AllNamed, CountNamed;
    forall n ensures |UsedNamed(calls, used + {m}, n)| == Min(CountNamed(requests[..i + 1], n), |AllNamed(calls, n)|) {
      UsedMore(calls, used, m, n);
      CountMore(requests, i, n);
    }
  }

  lemma Unmatched(calls: seq<Call>, requests: seq<Action>, i: nat, used: set<nat>)
    requires i < |requests| && UsedUp(calls, requests[..i], used)
    requires forall j :: 0 <= j < |calls| && calls[j].action.name == requests[i].name ==> j in used
    ensures UsedUp(calls, requests[..i + 1], used)
            && CountNamed(requests[..i], requests[i].name) >= |AllNamed(calls, requests[i].name)|
  {
    var name := requests[i].name;
    assert UsedNamed(calls, used, name) == AllNamed(calls, name);
    hide UsedNamed, AllNamed, CountNamed;
    forall n ensures |UsedNamed(calls, used, n)| == Min(CountNamed(requests[..i + 1], n), |AllNamed(calls, n)|) {
      CountMore(requests, i, n);
    }
  }

  // ---------------------------------------------------------------- exact matches

  /** The actions of the calls that are still free. */
  function Free(calls: seq<Call>, used: set<nat>): multiset<Action>
  {
    if calls == [] then multiset{}
    else
      var n := |calls| - 1;
      Free(calls[..n], used) + if n in used then multiset{} else multiset{calls[n].action}
  }

  lemma {:induction false} FreeAll(calls: seq<Call>)
    ensures Free(calls, {}) == multiset(Actions(calls))
  {
    if calls == [] {
      assert Actions(calls) == [];
    } else {
      var n := |calls| - 1;
      FreeAll(calls[..n]);
      assert Actions(calls) == Actions(calls[..n]) + [calls[n].action];
    }
  }

  lemma {:induction false} FreeHas(calls: seq<Call>, used: set<nat>, a: Action) returns (j: nat)
    requires a in Free(calls, used)
    ensures j < |calls| && j !in used && calls[j].action == a
  {
    var n := |calls| - 1;
    if n !in used && calls[n].action == a {
      j := n;
    } else {
      j := FreeHas(calls[..n], used, a);
    }
  }

  lemma {:induction false} FreeUntouched(calls: seq<Call>, used: set<nat>, m: nat)
    requires m >= |calls|
    ensures Free(calls, used + {m}) == Free(calls, used)
  {
    if calls == [] {
    } else {
      FreeUntouched(calls[..|calls| - 1], used, m);
    }
  }

  lemma {:induction false} FreeTaken(calls: seq<Call>, used: set<nat>, m: nat)
    requires m < |calls| && m !in used
    ensures Free(calls, used) == Free(calls, used + {m}) + multiset{calls[m].action}
  {
    var n := |calls| - 1;
    if m == n {
      FreeUntouched(calls[..n], used, m);
    } else {
      FreeTaken(calls[..n], used, m);
    }
  }

  lemma {:induction false} FreeAfter(calls: seq<Call>, requests: seq<Action>, matched: seq<Option<nat>>, i: nat)
    returns (used: set<nat>)
    requires AllExact(calls, requests, matched) && Injective(matched) && i <= |requests|
    ensures multiset(requests[..i]) + Free(calls, used) == multiset(Actions(calls))
    ensures forall j :: i <= j < |matched| ==> matched[j].value !in used
  {
    hide Free, Actions;
    if i == 0 {
      used := {};
      FreeAll(calls);
    } else {
      used := FreeAfter(calls, requests, matched, i - 1);
      var m := matched[i - 1].value;
      FreeTaken(calls, used, m);
      assert requests[..i] == requests[..i - 1] + [requests[i - 1]];
      used := used + {m};
    }
  }

  /** Different calls with the requested arguments for all requests can only come from a cover. */
  lemma ExactIsCovered(calls: seq<Call>, requests: seq<Action>, matched: seq<Option<nat>>)
    requires AllExact(calls, requests, matched) && Injective(matched)
    ensures multiset(requests) <= multiset(Actions(calls))
  {
    hide Free, Actions, Injective, AllExact;
    var used := FreeAfter(calls, requests, matched, |requests|);
    assert requests[..|requests|] == requests;
  }

  lemma Remaining(requests: seq<Action>, i: nat)
    requires i < |requests|
    ensures multiset(requests[i..]) == multiset{requests[i]} + multiset(requests[i + 1..])
  {
    assert requests[i..] == [requests[i]] + requests[i + 1..];
  }

  // ---------------------------------------------------------------- the loop

  /** One request: an exact match if there is one, else any free call of the name. */
  method MatchOne(calls: seq<Call>, requests: seq<Action>, i: nat, used: set<nat>) returns (r: Option<nat>)
    requires i < |requests| && UsedUp(calls, requests[..i], used)
    ensures r.Some? ==> r.value < |calls| && r.value !in used && calls[r.value].action.name == requests[i].name
                        && UsedUp(calls, requests[..i + 1], used + {r.value})
    ensures r.None? ==> UsedUp(calls, requests[..i + 1], used)
    ensures r.None? <==> CountNamed(requests[..i], requests[i].name) >= |AllNamed(calls, requests[i].name)|
    ensures Best(calls, requests[i], used, r)
    ensures (exists j :: 0 <= j < |calls| && j !in used && calls[j].action == requests[i]) ==>
              r.Some? && calls[r.value].action == requests[i]
  {
    hide UsedUp, AllNamed, CountNamed;
    r := FindMatching(calls, requests[i], used, true);
    if r.None? {
      r := FindMatching(calls, requests[i], used, false);
    }
    if r.None? {
      Unmatched(calls, requests, i, used);
    } else {
      Matched(calls, requests, i, used, r.value);
    }
  }

  /** The requests so far have got different calls of their own names, and one has none only if there were
      no more. */
  predicate Sound(calls: seq<Call>, requests: seq<Action>, i: nat, used: set<nat>, matched: seq<Option<nat>>)
    requires i <= |requests|
  {
    && |matched| == i && Injective(matched) && NamesKept(calls, requests[..i], matched)
    && (forall j :: 0 <= j < i && matched[j].Some? ==> matched[j].value in used)
    && (forall j :: 0 <= j < i ==>
          (matched[j].None? <==> CountNamed(requests[..j], requests[j].name) >= |AllNamed(calls, requests[j].name)|))
  }

  function Using(used: set<nat>, m: Option<nat>): set<nat> { if m.Some? then used + {m.value} else used }

  lemma SoundMore(calls: seq<Call>, requests: seq<Action>, i: nat, used: set<nat>, matched: seq<Option<nat>>,
                  m: Option<nat>)
    requires i < |requests| && Sound(calls, requests, i, used, matched)
    requires m.Some? ==> m.value < |calls| && m.value !in used && calls[m.value].action.name == requests[i].name
    requires m.None? <==> CountNamed(requests[..i], requests[i].name) >= |AllNamed(calls, requests[i].name)|
    ensures Sound(calls, requests, i + 1, Using(used, m), matched + [m])
  {
    hide CountNamed, AllNamed;
    assert requests[..i + 1][..i] == requests[..i];
  }

  lemma IdsMore(calls: seq<Call>, matched: seq<Option<nat>>, m: Option<nat>)
    requires forall i :: 0 <= i < |matched| && matched[i].Some? ==> matched[i].value < |calls|
    requires m.Some? ==> m.value < |calls|
    ensures IdsOf(calls, matched + [m]) == IdsOf(calls, matched) + [if m.Some? then calls[m.value].id else ""]
  {
  }

  /** All requests so far are matched exactly, and the free calls still hold what the others ask for. */
  predicate OnTrack(calls: seq<Call>, requests: seq<Action>, i: nat, used: set<nat>, matched: seq<Option<nat>>)
    requires i <= |requests|
  {
    multiset(requests[i..]) <= Free(calls, used) && AllExact(calls, requests[..i], matched)
  }

  lemma StillOnTrack(calls: seq<Call>, requests: seq<Action>, i: nat, used: set<nat>, matched: seq<Option<nat>>, m: nat)
    requires i < |requests| && OnTrack(calls, requests, i, used, matched)
    requires m < |calls| && m !in used && calls[m].action == requests[i]
    ensures OnTrack(calls, requests, i + 1, used + {m}, matched + [Some(m)])
  {
    hide Free;
    Remaining(requests, i);
    FreeTaken(calls, used, m);
    LessOne(multiset(requests[i + 1..]), Free(calls, used + {m}), requests[i]);
    assert requests[..i + 1] == requests[..i] + [requests[i]];
  }

  lemma LessOne(a: multiset<Action>, b: multiset<Action>, x: Action)
    requires multiset{x} + a <= b + multiset{x}
    ensures a <= b
  {
    forall y ensures a[y] <= b[y] {
      assert (multiset{x} + a)[y] <= (b + multiset{x})[y];
    }
  }

  lemma ExactAvailable(calls: seq<Call>, requests: seq<Action>, i: nat, used: set<nat>, matched: seq<Option<nat>>)
    requires i < |requests| && OnTrack(calls, requests, i, used, matched)
    ensures exists j :: 0 <= j < |calls| && j !in used && calls[j].action == requests[i]
  {
    hide Free;
    Remaining(requests, i);
    assert requests[i] in multiset(requests[i..]);
    var j := FreeHas(calls, used, requests[i]);
  }

  /** `_find_interrupted_tool_call_ids`, on the calls of the paused message. No call is given to two requests
      and every request gets a call of its own name, as long as there are any; and all get calls with their own
      arguments exactly if every request is among the calls, as often as it is asked for, although an earlier
      request may fall back on any call of its name. */
  method FindInterruptedToolCallIds(calls: seq<Call>, requests: seq<Action>)
    returns (ids: seq<string>, ghost matched: seq<Option<nat>>)
    ensures |ids| == |requests| && forall i :: 0 <= i < |ids| && ids[i] != "" ==>
                      Offers(calls, ids[i], requests[i].name)
    ensures IsMatching(calls, requests, matched) && ids == IdsOf(calls, matched)
    ensures InTurn(calls, requests, matched)
    ensures AllExact(calls, requests, matched) <==> multiset(requests) <= multiset(Actions(calls))
  {
    hide InTurn, Best, Taken, UsedUp, AllNamed, CountNamed, Free, Actions, Sound, OnTrack, IdsOf, AllExact, IsMatching;
    ids, matched := [], [];
    var used: set<nat> := {};
    ghost var covered := multiset(requests) <= multiset(Actions(calls));
    NothingUsed(calls, requests);
    NoneInTurn(calls, requests);
    for i := 0 to |requests|
      invariant UsedUp(calls, requests[..i], used) && Sound(calls, requests, i, used, matched)
      invariant (forall j :: 0 <= j < |matched| && matched[j].Some? ==> matched[j].value < |calls|)
                && ids == IdsOf(calls, matched)
      invariant covered ==> OnTrack(calls, requests, i, used, matched)
      invariant |matched| == i && InTurn(calls, requests, matched) && used == Taken(matched)
    {
      if covered {
        ExactAvailable(calls, requests, i, used, matched);
      }
      var m := MatchOne(calls, requests, i, used);
      SoundMore(calls, requests, i, used, matched, m);
      NextInTurn(calls, requests, matched, m);
      IdsMore(calls, matched, m);
      if m.None? {
        ids := ids + [""];
      } else {
        if covered {
          StillOnTrack(calls, requests, i, used, matched, m.value);
        }
        used := used + {m.value};
        ids := ids + [calls[m.value].id];
      }
      matched := matched + [m];
    }
    Finished(calls, requests, used, matched);
    if !covered {
      NotCovered(calls, requests, matched);
    }
    IdsOffered(calls, requests, matched);
  }

  /** Some call of this name has the id. */
  predicate Offers(calls: seq<Call>, id: string, name: string)
  {
    exists c :: c in calls && c.id == id && c.action.name == name
  }

  lemma IdsOffered(calls: seq<Call>, requests: seq<Action>, matched: seq<Option<nat>>)
    requires NamesKept(calls, requests, matched)
    ensures var ids := IdsOf(calls, matched);
            |ids| == |requests| && forall i :: 0 <= i < |ids| && ids[i] != "" ==>
                    Offers(calls, ids[i], requests[i].name)
  {
    var ids := IdsOf(calls, matched);
    forall i | 0 <= i < |ids| && ids[i] != "" ensures Offers(calls, ids[i], requests[i].name) {
      assert calls[matched[i].value] in calls;
    }
  }

  lemma Finished(calls: seq<Call>, requests: seq<Action>, used: set<nat>, matched: seq<Option<nat>>)
    requires Sound(calls, requests, |requests|, used, matched)
    ensures IsMatching(calls, requests, matched) && NamesKept(calls, requests, matched)
    ensures OnTrack(calls, requests, |requests|, used, matched) ==> AllExact(calls, requests, matched)
  {
    hide CountNamed, AllNamed, Free;
    assert requests[..|requests|] == requests;
  }

  lemma NotCovered(calls: seq<Call>, requests: seq<Action>, matched: seq<Option<nat>>)
    requires IsMatching(calls, requests, matched) && !(multiset(requests) <= multiset(Actions(calls)))
    ensures !AllExact(calls, requests, matched)
  {
    if AllExact(calls, requests, matched) {
      ExactIsCovered(calls, requests, matched);
    }
  }

  lemma NoneInTurn(calls: seq<Call>, requests: seq<Action>)
    ensures InTurn(calls, requests, []) && Taken([]) == {}
  {
  }

  lemma NothingUsed(calls: seq<Call>, requests: seq<Action>)
    ensures UsedUp(calls, requests[..0], {}) && Sound(calls, requests, 0, {}, []) && IdsOf(calls, []) == []
    ensures multiset(requests) <= multiset(Actions(calls)) ==> OnTrack(calls, requests, 0, {}, [])
  {
    FreeAll(calls);
    assert requests[0..] == requests;
    forall name ensures UsedNamed(calls, {}, name) == {} {
    }
  }

  /** The fallback alone is not enough: asked for an action that no call has, and then for one that a call
      has, any such matching gives that call away to the first request. */
  lemma FallbackTakesAway(a: Action, b: Action, id: string, matched: seq<Option<nat>>)
    requires a.name == b.name && a.args != b.args
    requires IsMatching([Call(id, b)], [a, b], matched)
    ensures matched == [Some(0), None]
    ensures !(multiset([a, b]) <= multiset(Actions([Call(id, b)])))
  {
    var calls, requests := [Call(id, b)], [a, b];
    assert a in multiset(requests) && a !in multiset(Actions(calls));
    assert AllNamed(calls, a.name) == {0};
    assert requests[..0] == [] && requests[0] == a;
    assert matched[0].Some? && matched[0].value == 0;
  }
}
