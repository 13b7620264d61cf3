/** Which directory an owner's snapshot lives in (dbaas/workspace.py), and what that means for owners who
    end up in the same one. */
module SnapshotPaths {
  import opened Wrappers
  import opened SnapshotProtocol
  import opened SnapshotRuns

  predicate Allowed(c: char): (r: bool)
    ensures r <==> 'a' <= c <= 'z' || 'A' <= c <= 'Z' || '0' <= c <= '9' || c == '.' || c == '_' || c == '-'
  {
    'a' <= c <= 'z' || 'A' <= c <= 'Z' || '0' <= c <= '9' || c in "._-"
  }

  predicate Safe(s: string) { forall i :: 0 <= i < |s| ==> Allowed(s[i]) }

  function StripLeft(s: string): string { if s != "" && Blank(s[0]) then StripLeft(s[1..]) else s }

  function StripRight(s: string): string
  {
    if s != "" && Blank(s[|s| - 1]) then StripRight(s[..|s| - 1]) else s
  }

  function DropForbidden(s: string): (r: string)
    ensures |r| <= |s| && (r != "" ==> Allowed(r[0]))
  {
    if s != "" && !Allowed(s[0]) then DropForbidden(s[1..]) else s
  }

  /** Every run of forbidden characters becomes one underscore. */
  function Substitute(s: string): (r: string)
    ensures Safe(r)
    decreases |s|
  {
    if s == "" then ""
    else if Allowed(s[0]) then [s[0]] + Substitute(s[1..])
    else "_" + Substitute(DropForbidden(s[1..]))
  }

  const FALLBACK := "unknown"

  /** `safe_filename_part`. */
  function SafeFilenamePart(value: Option<string>): (r: string)
    ensures r != "" && Safe(r)
  {
    if value.None? then FALLBACK
    else
      var safe := Substitute(StripRight(StripLeft(value.value)));
      if safe == "" then FALLBACK else safe
  }

  /** A run of forbidden characters becomes one underscore, whatever stands before and after it. */
  lemma {:induction false} RunBecomesOne(before: string, run: string, after: string)
    requires Safe(before) && run != "" && (forall i :: 0 <= i < |run| ==> !Allowed(run[i]))
    requires after != "" ==> Allowed(after[0])
    ensures Substitute(before + run + after) == before + "_" + Substitute(after)
    decreases |before|
  {
    hide Allowed;
    var s := before + run + after;
    if before == "" {
      assert s[0] == run[0] && s[1..] == run[1..] + after;
      DropsRun(run[1..], after);
    } else {
      RunBecomesOne(before[1..], run, after);
      assert s[0] == before[0] && s[1..] == before[1..] + run + after;
      assert before == [before[0]] + before[1..];
    }
  }

  lemma {:induction false} DropsRun(run: string, after: string)
    requires (forall i :: 0 <= i < |run| ==> !Allowed(run[i])) && (after != "" ==> Allowed(after[0]))
    ensures DropForbidden(run + after) == after
  {
    hide Allowed;
    if run == "" {
      assert run + after == after;
    } else {
      assert (run + after)[1..] == run[1..] + after;
      DropsRun(run[1..], after);
    }
  }

  lemma {:induction false} SubstituteKeepsSafe(s: string)
    requires Safe(s)
    ensures Substitute(s) == s
  {
    if s != "" {
      SubstituteKeepsSafe(s[1..]);
      assert [s[0]] + s[1..] == s;
    }
  }

  lemma NothingToStrip(name: string)
    requires name != "" && Safe(name)
    ensures StripRight(StripLeft(name)) == name
  {
    assert Allowed(name[0]) && Allowed(name[|name| - 1]);
  }

  /** A name is its own safe name exactly if it is not empty and holds allowed characters only. */
  lemma FixedExactlyIfSafe(name: string)
    ensures SafeFilenamePart(Some(name)) == name <==> name != "" && Safe(name)
  {
    hide Substitute, StripLeft, StripRight, Allowed, Safe;
    if name != "" && Safe(name) {
      NothingToStrip(name);
      SubstituteKeepsSafe(name);
    }
  }

  /** So making a name safe twice is making it safe once. */
  lemma SafeTwice(value: Option<string>)
    ensures SafeFilenamePart(Some(SafeFilenamePart(value))) == SafeFilenamePart(value)
  {
    FixedExactlyIfSafe(SafeFilenamePart(value));
  }

  datatype Path = AdminDir | UserDir(name: string)

  function PathOf(owner: Owner): Path
  {
    match owner
    case Admin => AdminDir
    case User(name) => UserDir(SafeFilenamePart(Some(name)))
  }

  function Sharing(owners: set<Owner>, path: Path): set<Owner> { set o | o in owners && PathOf(o) == path }

  /** In no directory do data and meta of different owners ever lie side by side. */
  ghost predicate NowhereMixed(ttl: nat, owners: set<Owner>)
  {
    forall o :: o in owners ==> NeverMixed(ttl, Sharing(owners, PathOf(o)))
  }

  /** That holds exactly if no two of the owners have the same path ... */
  lemma NowhereMixedExactlyIfApart(ttl: nat, owners: set<Owner>)
    ensures NowhereMixed(ttl, owners)
            <==> forall a, b :: a in owners && b in owners && PathOf(a) == PathOf(b) ==> a == b
  {
    forall o | o in owners
      ensures NeverMixed(ttl, Sharing(owners, PathOf(o)))
              <==> forall a, b :: a in owners && b in owners && PathOf(a) == PathOf(b) == PathOf(o) ==> a == b
    {
      var shared := Sharing(owners, PathOf(o));
      NeverMixedExactlyIfAlone(ttl, shared);
      if Alone(shared) {
        forall a, b | a in owners && b in owners && PathOf(a) == PathOf(b) == PathOf(o) ensures a == b {
          assert a in shared && b in shared;
        }
      }
    }
  }

  /** ... in particular if all user names are safe ... */
  lemma SafeNamesStayApart(ttl: nat, owners: set<Owner>)
    requires forall o :: o in owners && o.User? ==> o.name != "" && Safe(o.name)
    ensures NowhereMixed(ttl, owners)
  {
    forall a, b | a in owners && b in owners && PathOf(a) == PathOf(b) ensures a == b {
      if a.User? && b.User? {
        FixedExactlyIfSafe(a.name);
        FixedExactlyIfSafe(b.name);
      }
    }
    NowhereMixedExactlyIfApart(ttl, owners);
  }

  /** ... and not for two users whose names differ in a forbidden character only. */
  lemma CollidingUsers(ttl: nat)
    ensures SafeFilenamePart(Some("a b")) == SafeFilenamePart(Some("a/b")) == "a_b"
    ensures !NowhereMixed(ttl, {User("a b"), User("a/b")})
  {
    SpacedName();
    SlashedName();
    NowhereMixedExactlyIfApart(ttl, {User("a b"), User("a/b")});
    assert PathOf(User("a b")) == PathOf(User("a/b"));
  }

  lemma SpacedName()
    ensures SafeFilenamePart(Some("a b")) == "a_b"
  {
    assert StripRight(StripLeft("a b")) == "a b";
    assert "a b"[1..] == " b" && " b"[1..] == "b" && "b"[1..] == "";
    assert Substitute("b") == "b" && DropForbidden("b") == "b";
    assert Substitute(" b") == "_b";
  }

  lemma SlashedName()
    ensures SafeFilenamePart(Some("a/b")) == "a_b"
  {
    assert StripRight(StripLeft("a/b")) == "a/b";
    assert "a/b"[1..] == "/b" && "/b"[1..] == "b" && "b"[1..] == "";
    assert Substitute("b") == "b" && DropForbidden("b") == "b";
    assert Substitute("/b") == "_b";
  }
}
