/** The session list of one user: a meta file per session and one index over all of them
    (sessions/service.py, sessions/repository.py). */
module SessionIndex {
  import opened Wrappers

  type Time = int

  datatype Status = Active | Archived | Deleted

  datatype Role = AdminRole | UserRole

  datatype Meta = Meta(role: Role, title: string, status: Status, createdAt: Time, updatedAt: Time,
                       lastMessageAt: Option<Time>, archivedAt: Option<Time>)

  datatype Speaker = FromUser | FromAssistant | FromAgent | FromSystem

  datatype Message = Message(speaker: Speaker, content: string, createdAt: Time)

  datatype Item = Item(id: nat, title: string, status: Status, updatedAt: Time, lastMessageAt: Option<Time>,
    preview: string)

  const DEFAULT_TITLE := "\U{65b0}\U{5bf9}\U{8bdd}"

  // ---------------------------------------------------------------- titles and previews

  function WordEnd(s: string): (k: nat)
    ensures k <= |s| && (k < |s| ==> Blank(s[k])) && forall i :: 0 <= i < k ==> !Blank(s[i])
  {
    if s == "" || Blank(s[0]) then 0 else 1 + WordEnd(s[1..])
  }

  predicate IsWord(w: string) { w != "" && forall i :: 0 <= i < |w| ==> !Blank(w[i]) }

  /** `split()`. */
  function Words(s: string): (r: seq<string>)
    ensures forall w :: w in r ==> IsWord(w)
    decreases |s|
  {
    if s == "" then []
    else if Blank(s[0]) then Words(s[1..])
    else [s[..WordEnd(s)]] + Words(s[WordEnd(s)..])
  }

  function Spaced(words: seq<string>): string
  {
    if words == [] then "" else if |words| == 1 then words[0] else words[0] + " " + Spaced(words[1..])
  }

  /** `" ".join(s.split())`. */
  function Compact(s: string): string { Spaced(Words(s)) }

  lemma FirstWord(w: string, rest: string)
    requires IsWord(w) && (rest == "" || rest[0] == ' ')
    ensures Words(w + rest) == [w] + Words(rest)
  {
    var s := w + rest;
    assert s[0] == w[0] && WordEnd(s) == |w| by {
      assert forall i :: 0 <= i < |w| ==> s[i] == w[i];
      assert rest != "" ==> s[|w|] == ' ';
    }
    assert s[..|w|] == w && s[|w|..] == rest;
  }

  /** Compacting keeps the words. */
  lemma {:induction false} WordsSpaced(words: seq<string>)
    requires forall w :: w in words ==> IsWord(w)
    ensures Words(Spaced(words)) == words
  {
    if words == [] {
    } else if |words| == 1 {
      assert words[0] in words;
      FirstWord(words[0], "");
      assert words[0] + "" == words[0] && words == [words[0]];
    } else {
      assert words[0] in words;
      var rest := " " + Spaced(words[1..]);
      WordsSpaced(words[1..]);
      FirstWord(words[0], rest);
      assert words[0] + rest == words[0] + " " + Spaced(words[1..]);
      assert rest[1..] == Spaced(words[1..]) && Words(rest) == Words(rest[1..]);
      assert words == [words[0]] + words[1..];
    }
  }

  lemma CompactTwice(s: string)
    ensures Words(Compact(s)) == Words(s) && Compact(Compact(s)) == Compact(s)
    ensures Compact(s) == "" <==> forall i :: 0 <= i < |s| ==> Blank(s[i])
  {
    WordsSpaced(Words(s));
    NoWords(s);
  }

  lemma {:induction false} NoWords(s: string)
    ensures Words(s) == [] <==> forall i :: 0 <= i < |s| ==> Blank(s[i])
    decreases |s|
  {
    if s == "" {
    } else if Blank(s[0]) {
      NoWords(s[1..]);
      assert forall i :: 1 <= i < |s| ==> s[i] == s[1..][i - 1];
    } else {
    }
  }

  function Take(s: string, n: nat): string { if |s| <= n then s else s[..n] }

  /** `_build_title_from_message`. */
  function TitleFrom(content: string): (r: string)
    ensures r != "" && (Words(content) == [] ==> r == DEFAULT_TITLE)
    ensures Words(content) != [] ==> r <= Compact(content) && (|r| == 24 || (|r| < 24 && r == Compact(content)))
  {
    CompactTwice(content);
    NoWords(content);
    if Compact(content) == "" then DEFAULT_TITLE else Take(Compact(content), 24)
  }

  /** `_truncate_preview`. */
  function Preview(content: string): (r: string)
    ensures r <= Compact(content) && (|r| == 80 || (|r| < 80 && r == Compact(content)))
  {
    Take(Compact(content), 80)
  }

  /** `strip()`. */
  function Strip(s: string): (r: string)
    ensures r != "" ==> !Blank(r[0]) && !Blank(r[|r| - 1])
    decreases |s|
  {
    if s != "" && Blank(s[0]) then Strip(s[1..])
    else if s != "" && Blank(s[|s| - 1]) then Strip(s[..|s| - 1])
    else s
  }

  /** Blanks are all that is cut off. */
  lemma {:induction false} StripCuts(s: string) returns (i: nat, j: nat)
    ensures i <= j <= |s| && Strip(s) == s[i..j]
    ensures forall k :: 0 <= k < i || j <= k < |s| ==> Blank(s[k])
    decreases |s|
  {
    hide Blank;
    i, j := 0, |s|;
    if s != "" && Blank(s[0]) {
      i, j := StripCuts(s[1..]);
      assert s[1..][i..j] == s[i + 1..j + 1];
      assert forall k :: 1 <= k < |s| ==> s[k] == s[1..][k - 1];
      i, j := i + 1, j + 1;
    } else if s != "" && Blank(s[|s| - 1]) {
      i, j := StripCuts(s[..|s| - 1]);
      assert s[..|s| - 1][i..j] == s[i..j];
      assert forall k :: 0 <= k < |s| - 1 ==> s[k] == s[..|s| - 1][k];
    }
  }

  /** The title a session is created with. */
  function FirstTitle(title: Option<string>): (r: string)
    ensures title.Some? && Strip(title.value) != "" ==> r == Strip(title.value)
    ensures title.None? || Strip(title.value) == "" ==> r == DEFAULT_TITLE
  {
    var given := if title.Some? && title.value != "" then title.value else DEFAULT_TITLE;
    if Strip(given) == "" then DEFAULT_TITLE else Strip(given)
  }

  // ---------------------------------------------------------------- recency

  /** The key by which sessions are listed. */
  function Recency(i: Item): (r: Time)
    ensures i.lastMessageAt.Some? ==> i.lastMessageAt == Some(r)
    ensures i.lastMessageAt.None? ==> i.updatedAt == r
  {
    if i.lastMessageAt.Some? then i.lastMessageAt.value else i.updatedAt
  }

  predicate Descending(items: seq<Item>)
  {
    forall i, j :: 0 <= i < j < |items| ==> Recency(items[i]) >= Recency(items[j])
  }

  function Insert(x: Item, items: seq<Item>): (r: seq<Item>)
    ensures |r| == |items| + 1 && forall y :: y in r <==> y == x || y in items
  {
    if items == [] then [x]
    else if Recency(items[0]) <= Recency(x) then [x] + items
    else [items[0]] + Insert(x, items[1..])
  }

  /** `sorted(items, key=recency, reverse=True)`: items of the same recency keep their order. */
  function ByRecency(items: seq<Item>): (r: seq<Item>)
    ensures |r| == |items| && forall y :: y in r <==> y in items
  {
    if items == [] then [] else Insert(items[0], ByRecency(items[1..]))
  }

  predicate IdsApart(items: seq<Item>) { forall i, j :: 0 <= i < j < |items| ==> items[i].id != items[j].id }

  lemma {:induction false} InsertSorted(x: Item, items: seq<Item>)
    requires Descending(items)
    ensures Descending(Insert(x, items))
  {
    if items == [] || Recency(items[0]) <= Recency(x) {
    } else {
      InsertSorted(x, items[1..]);
      var rest := Insert(x, items[1..]);
      forall k | 0 <= k < |rest| ensures Recency(items[0]) >= Recency(rest[k]) {
        assert rest[k] in rest;
      }
    }
  }

  lemma {:induction false} InsertApart(x: Item, items: seq<Item>)
    requires IdsApart(items) && forall y :: y in items ==> y.id != x.id
    ensures IdsApart(Insert(x, items))
  {
    if items == [] || Recency(items[0]) <= Recency(x) {
    } else {
      InsertApart(x, items[1..]);
      var rest := Insert(x, items[1..]);
      forall k | 0 <= k < |rest| ensures items[0].id != rest[k].id {
        assert rest[k] in rest;
      }
    }
  }

  /** The list comes out in order, with the same items once each. */
  lemma {:induction false} Sorted(items: seq<Item>)
    requires IdsApart(items)
    ensures Descending(ByRecency(items)) && IdsApart(ByRecency(items))
  {
    if items == [] {
    } else {
      Sorted(items[1..]);
      InsertSorted(items[0], ByRecency(items[1..]));
      InsertApart(items[0], ByRecency(items[1..]));
    }
  }

  lemma {:induction false} AlreadySorted(items: seq<Item>)
    requires Descending(items)
    ensures ByRecency(items) == items
  {
    if items == [] {
    } else {
      AlreadySorted(items[1..]);
    }
  }

  // ---------------------------------------------------------------- agreement

  /** The item shows what the meta says. */
  predicate Shows(i: Item, m: Meta)
  {
    i.title == m.title && i.status == m.status && i.updatedAt == m.updatedAt && i.lastMessageAt == m.lastMessageAt
  }

  /** One item for each stored session, showing its meta, the most recent first. */
  predicate Agrees(index: seq<Item>, metas: map<nat, Meta>)
  {
    && IdsApart(index) && Descending(index)
    && (forall i :: i in index ==> i.id in metas && Shows(i, metas[i.id]))
    && (forall id :: id in metas ==> Listed(index, id))
  }

  predicate Listed(index: seq<Item>, id: nat) { exists i :: i in index && i.id == id }

  // ---------------------------------------------------------------- the repository

  function Replaced(index: seq<Item>, item: Item): (r: seq<Item>)
    ensures |r| == |index|
  {
    seq(|index|, i requires 0 <= i < |index| => if index[i].id == item.id then item else index[i])
  }

  predicate Has(index: seq<Item>, id: nat) { exists i :: 0 <= i < |index| && index[i].id == id }

  /** The index after one item has been put in its place. */
  function Upserted(index: seq<Item>, item: Item): seq<Item>
  {
    ByRecency(if Has(index, item.id) then Replaced(index, item) else Replaced(index, item) + [item])
  }

  function Without(index: seq<Item>, id: nat): (r: seq<Item>)
    ensures forall y :: y in r <==> y in index && y.id != id
  {
    if index == [] then []
    else
      var n := |index| - 1;
      Without(index[..n], id) + if index[n].id == id then [] else [index[n]]
  }

  lemma ReplacedMembers(index: seq<Item>, item: Item)
    requires IdsApart(index)
    ensures var all := if Has(index, item.id) then Replaced(index, item) else Replaced(index, item) + [item];
            IdsApart(all) && forall i :: i in all <==> i == item || (i in index && i.id != item.id)
  {
    var kept := Replaced(index, item);
    var all := if Has(index, item.id) then kept else kept + [item];
    if Has(index, item.id) {
      var k :| 0 <= k < |index| && index[k].id == item.id;
      assert kept[k] == item;
    } else {
      assert all[|index|] == item;
    }
    forall i | i in index && i.id != item.id ensures i in all {
      var k :| 0 <= k < |index| && index[k] == i;
      assert kept[k] == i && all[k] == i;
    }
  }

  /** What agreement takes, for a list with these members. */
  lemma MembersAgree(index: seq<Item>, metas: map<nat, Meta>, item: Item, m: Meta, all: seq<Item>)
    requires Agrees(index, metas) && Shows(item, m) && IdsApart(all) && Descending(all)
    requires forall i :: i in all <==> i == item || (i in index && i.id != item.id)
    ensures Agrees(all, metas[item.id := m])
  {
    hide Shows, Descending, IdsApart;
    assert item in all;
    forall id | id in metas && id != item.id ensures Listed(all, id) {
      assert Listed(index, id);
      var i :| i in index && i.id == id;
      assert i in all;
    }
  }

  /** The items of all other sessions are as they were. */
  ghost predicate OthersKept(index: seq<Item>, index': seq<Item>, id: nat)
  {
    forall i: Item :: i.id != id ==> (i in index' <==> i in index)
  }

  lemma NoneChanged(index: seq<Item>, id: nat)
    ensures OthersKept(index, index, id)
  {
  }

  lemma OthersKeptThen(a: seq<Item>, b: seq<Item>, c: seq<Item>, id: nat)
    requires OthersKept(a, b, id) && OthersKept(b, c, id)
    ensures OthersKept(a, c, id)
  {
  }

  lemma UpsertAgrees(index: seq<Item>, metas: map<nat, Meta>, item: Item, m: Meta)
    requires Agrees(index, metas) && Shows(item, m)
    ensures Agrees(Upserted(index, item), metas[item.id := m]) && item in Upserted(index, item)
    ensures OthersKept(index, Upserted(index, item), item.id)
  {
    hide Shows, Descending, Replaced, Has, Listed;
    ReplacedMembers(index, item);
    Sorted(if Has(index, item.id) then Replaced(index, item) else Replaced(index, item) + [item]);
    MembersAgree(index, metas, item, m, Upserted(index, item));
  }

  lemma {:induction false} WithoutApart(index: seq<Item>, id: nat)
    requires IdsApart(index)
    ensures IdsApart(Without(index, id))
  {
    if index == [] {
    } else {
      var n := |index| - 1;
      WithoutApart(index[..n], id);
      var before := Without(index[..n], id);
      forall k | 0 <= k < |before| ensures before[k].id != index[n].id {
        assert before[k] in before && before[k] in index[..n];
      }
    }
  }

  lemma RemoveAgrees(index: seq<Item>, metas: map<nat, Meta>, id: nat)
    requires Agrees(index, metas)
    ensures Agrees(ByRecency(Without(index, id)), metas - {id})
  {
    WithoutApart(index, id);
    Sorted(Without(index, id));
    forall k | k in metas - {id} ensures Listed(ByRecency(Without(index, id)), k) {
      var i :| i in index && i.id == k;
      assert i in Without(index, id);
    }
  }

  datatype Answer<+T> = NotFound | IdentityChanged | Found(value: T)

  /** The files of one user: a meta and a message log for each session, and the index. */
  class Repository {
    var metas: map<nat, Meta>
    var messages: map<nat, seq<Message>>
    var index: seq<Item>

    ghost predicate Valid()
      reads this
    {
      Agrees(index, metas) && messages.Keys == metas.Keys && forall id :: id in metas ==> !metas[id].status.Deleted?
    }

    constructor ()
      ensures Valid() && metas == map[] && index == []
    {
      metas, messages, index := map[], map[], [];
    }

    /** `upsert_index_item`. */
    method UpsertIndexItem(item: Item)
      modifies this`index
      ensures index == Upserted(old(index), item)
    {
      var replaced := false;
      var items: seq<Item> := [];
      for k := 0 to |index|
        invariant index == old(index) && |items| == k
        invariant forall i :: 0 <= i < k ==> items[i] == Replaced(old(index), item)[i]
        invariant replaced <==> exists i :: 0 <= i < k && old(index)[i].id == item.id
      {
        if index[k].id == item.id {
          items := items + [item];
          replaced := true;
        } else {
          items := items + [index[k]];
        }
      }
      assert items == Replaced(index, item);
      if !replaced {
        items := items + [item];
      }
      index := ByRecency(items);
    }

    /** `remove_index_item`. */
    method RemoveIndexItem(id: nat)
      modifies this`index
      ensures index == ByRecency(Without(old(index), id))
    {
      var kept: seq<Item> := [];
      for k := 0 to |index|
        invariant index == old(index) && kept == Without(index[..k], id)
      {
        assert index[..k + 1][..k] == index[..k];
        if index[k].id != id {
          kept := kept + [index[k]];
        }
      }
      assert index[..|index|] == index;
      index := ByRecency(kept);
    }

    /** `_save_meta_and_index`. */
    method SaveMetaAndIndex(id: nat, meta: Meta, preview: string)
      requires Agrees(index, metas)
      modifies this`metas, this`index
      ensures metas == old(metas)[id := meta] && Agrees(index, metas) && OthersKept(old(index), index, id)
      ensures Item(id, meta.title, meta.status, meta.updatedAt, meta.lastMessageAt, Preview(preview)) in index
      ensures index == Upserted(old(index),
                                Item(id, meta.title, meta.status, meta.updatedAt, meta.lastMessageAt, Preview(preview)))
    {
      var item := Item(id, meta.title, meta.status, meta.updatedAt, meta.lastMessageAt, Preview(preview));
      UpsertAgrees(index, metas, item, meta);
      metas := metas[id := meta];
      UpsertIndexItem(item);
    }

    /** `create_session`, under a fresh id. */
    method CreateSession(id: nat, role: Role, title: Option<string>, now: Time)
      requires Valid() && id !in metas
      modifies this
      ensures Valid() && metas == old(metas)[id := Meta(role, FirstTitle(title), Active, now, now, None, None)]
      ensures messages == old(messages)[id := []] && OthersKept(old(index), index, id) && Previewed(index, id, "")
    {
      var meta := Meta(role, FirstTitle(title), Active, now, now, None, None);
      messages := messages[id := []];
      SaveMetaAndIndex(id, meta, "");
    }

    /** `get_session`. */
    method GetSession(role: Role, id: nat) returns (r: Answer<Meta>)
      requires Valid()
      ensures r == if id !in metas then NotFound else if metas[id].role != role then IdentityChanged
                   else Found(metas[id])
    {
      if id !in metas {
        return NotFound;
      }
      if metas[id].role != role {
        return IdentityChanged;
      }
      return Found(metas[id]);
    }

    function LatestPreview(id: nat): string
      reads this
      requires id in messages
    {
      if messages[id] == [] then "" else messages[id][|messages[id]| - 1].content
    }

    /** `archive_session` and `restore_session`. */
    method SetArchived(role: Role, id: nat, archived: bool, now: Time) returns (r: Answer<Meta>)
      requires Valid()
      modifies this
      ensures Valid() && messages == old(messages)
      ensures r.NotFound? <==> id !in old(metas)
      ensures r.IdentityChanged? <==> id in old(metas) && old(metas)[id].role != role
      ensures !r.Found? ==> metas == old(metas) && index == old(index)
      ensures r.Found? ==>
                r.value == old(metas)[id].(status := if archived then Archived else Active,
                                           archivedAt := if archived then Some(now) else None, updatedAt := now)
                && metas == old(metas)[id := r.value] && OthersKept(old(index), index, id)
                && Previewed(index, id, if messages[id] == [] then "" else messages[id][|messages[id]| - 1].content)
    {
      hide Agrees, Upserted, Preview, OthersKept;
      var found := GetSession(role, id);
      if !found.Found? {
        return found;
      }
      var meta := found.value.(status := if archived then Archived else Active,
                               archivedAt := if archived then Some(now) else None, updatedAt := now);
      SaveMetaAndIndex(id, meta, LatestPreview(id));
      r := Found(meta);
    }

    /** `ensure_active_session`, if restoring is wanted. */
    method EnsureActive(role: Role, id: nat, restore: bool, now: Time) returns (meta: Meta)
      requires Valid() && id in metas && metas[id].role == role
      modifies this
      ensures Valid() && messages == old(messages) && metas == old(metas)[id := meta]
      ensures meta == Revived(old(metas)[id], restore, now) && OthersKept(old(index), index, id)
    {
      meta := metas[id];
      if restore && meta.status.Archived? {
        var restored := SetArchived(role, id, false, now);
        meta := restored.value;
      }
    }

    /** `_has_recent_system_message`: only the latest of these messages counts. */
    method HasRecentSystemMessage(id: nat, content: string, now: Time, window: nat) returns (r: bool)
      requires id in messages
      ensures r <==> SaidRecently(messages[id], content, now, window)
    {
      var i := |messages[id]|;
      while i > 0
        invariant 0 <= i <= |messages[id]| && forall j :: i <= j < |messages[id]| ==> !Repeats(messages[id][j], content)
      {
        i := i - 1;
        if Repeats(messages[id][i], content) {
          return now - messages[id][i].createdAt <= window;
        }
      }
      return false;
    }

    /** The last part of appending: the message, the title, the times and the index. */
    method AddMessage(id: nat, found: Meta, speaker: Speaker, content: string, now: Time) returns (message: Message)
      requires Valid() && id in metas && !found.status.Deleted?
      modifies this
      ensures Valid() && message == Message(speaker, content, now)
      ensures messages == old(messages)[id := old(messages)[id] + [message]]
      ensures metas == old(metas)[id := Named(found, speaker, content).(updatedAt := now, lastMessageAt := Some(now))]
      ensures OthersKept(old(index), index, id) && Previewed(index, id, content)
    {
      hide Agrees, Upserted, Preview, TitleFrom, OthersKept;
      var meta := found;
      message := Message(speaker, content, now);
      messages := messages[id := messages[id] + [message]];
      if speaker.FromUser? && meta.title == DEFAULT_TITLE {
        meta := meta.(title := TitleFrom(content));
      }
      meta := meta.(updatedAt := now, lastMessageAt := Some(now));
      SaveMetaAndIndex(id, meta, content);
    }

    /** `append_user_message` and the other ways to append, of which only those for the system have a window
        in which a repeated message is dropped. An archived session comes back to life first, even for a
        message that is then dropped, and a user's message names a session that has no title yet. */
    method AppendMessage(role: Role, id: nat, speaker: Speaker, content: string, restore: bool, window: nat,
                         restoredAt: Time, now: Time)
      returns (r: Answer<Option<Message>>)
      requires Valid()
      modifies this
      ensures Valid()
      ensures r.NotFound? <==> id !in old(metas)
      ensures r.IdentityChanged? <==> id in old(metas) && old(metas)[id].role != role
      ensures !r.Found? ==> metas == old(metas) && index == old(index) && messages == old(messages)
      ensures OthersKept(old(index), index, id)
      ensures r == Found(None) <==> id in old(metas) && old(metas)[id].role == role
                                    && Dropped(old(messages)[id], speaker, content, now, window)
      ensures r == Found(None) ==> messages == old(messages)
                                   && metas == old(metas)[id := Revived(old(metas)[id], restore, restoredAt)]
      ensures r.Found? && r.value.Some? ==>
                && r.value.value == Message(speaker, content, now)
                && messages == old(messages)[id := old(messages)[id] + [r.value.value]]
                && metas == old(metas)[id := Named(Revived(old(metas)[id], restore, restoredAt), speaker, content)
                                               .(updatedAt := now, lastMessageAt := Some(now))]
                && Previewed(index, id, content)
    {
      hide Agrees, Upserted, Preview, TitleFrom, SaidRecently, OthersKept, Compact, Words, IsWord, Blank, Repeats,
           IdsApart, Descending;
      NoneChanged(index, id);
      var found := GetSession(role, id);
      if found.NotFound? {
        return NotFound;
      }
      if found.IdentityChanged? {
        return IdentityChanged;
      }
      var meta := EnsureActive(role, id, restore, restoredAt);
      if speaker.FromSystem? && window > 0 {
        var recent := HasRecentSystemMessage(id, content, now, window);
        if recent {
          return Found(None);
        }
      }
      ghost var before := index;
      var message := AddMessage(id, meta, speaker, content, now);
      OthersKeptThen(old(index), before, index, id);
      r := Found(Some(message));
    }

    /** `delete_session`: the index item, then the files; the last session takes the index with it. */
    method DeleteSession(role: Role, id: nat) returns (r: Answer<nat>)
      requires Valid()
      modifies this
      ensures Valid()
      ensures r.NotFound? <==> id !in old(metas)
      ensures r.IdentityChanged? <==> id in old(metas) && old(metas)[id].role != role
      ensures !r.Found? ==> metas == old(metas) && index == old(index)
      ensures r.Found? ==> metas == old(metas) - {id} && messages == old(messages) - {id}
                           && forall i :: i in index <==> i in old(index) && i.id != id
    {
      var found := GetSession(role, id);
      if found.NotFound? {
        return NotFound;
      }
      if found.IdentityChanged? {
        return IdentityChanged;
      }
      RemoveAgrees(index, metas, id);
      RemoveIndexItem(id);
      metas, messages := metas - {id}, messages - {id};
      if metas.Keys == {} {
        NothingIndexed(index, metas);
        index := [];
      }
      r := Found(id);
    }

    /** `list_sessions`: the sessions of the role in hand, in the order of the index. */
    method ListSessions(role: Role) returns (r: seq<Item>)
      requires Valid()
      ensures IdsApart(r) && Descending(r)
      ensures forall i :: i in r <==> i in index && metas[i.id].role == role
      ensures forall id :: id in metas && metas[id].role == role ==> Listed(r, id)
    {
      AlreadySorted(index);
      r := Select(ByRecency(index), metas, role);
      forall id | id in metas && metas[id].role == role ensures Listed(r, id) {
        var i :| i in index && i.id == id;
        assert i in r;
      }
    }
  }

  /** The filters of `list_index` and `list_sessions`. */
  method Select(index: seq<Item>, metas: map<nat, Meta>, role: Role) returns (r: seq<Item>)
    requires IdsApart(index) && Descending(index) && forall i :: i in index ==> i.id in metas
    ensures IdsApart(r) && Descending(r)
    ensures forall i :: i in r <==> i in index && !i.status.Deleted? && metas[i.id].role == role
  {
    r := [];
    for k := 0 to |index|
      invariant forall i ::
                  i in r <==> i in index[..k] && !i.status.Deleted? && i.id in metas && metas[i.id].role == role
      invariant IdsApart(r) && Descending(r)
    {
      OneMoreItem(index, k);
      if !index[k].status.Deleted? && metas[index[k].id].role == role {
        AfterAll(index, k, r);
        r := r + [index[k]];
      }
    }
    assert index[..|index|] == index;
  }

  lemma OneMoreItem(index: seq<Item>, k: nat)
    requires k < |index|
    ensures index[k] in index && forall i :: i in index[..k + 1] <==> i in index[..k] || i == index[k]
  {
  }

  lemma AfterAll(index: seq<Item>, k: nat, r: seq<Item>)
    requires k < |index| && IdsApart(index) && Descending(index) && IdsApart(r) && Descending(r)
    requires forall i :: i in r ==> i in index[..k]
    ensures IdsApart(r + [index[k]]) && Descending(r + [index[k]])
  {
    forall j | 0 <= j < |r| ensures r[j].id != index[k].id && Recency(r[j]) >= Recency(index[k]) {
      assert r[j] in r && r[j] in index[..k];
    }
  }

  predicate Previewed(index: seq<Item>, id: nat, content: string)
  {
    exists i :: i in index && i.id == id && i.preview == Preview(content)
  }

  predicate Repeats(m: Message, content: string) { m.speaker.FromSystem? && m.content == content }

  /** The latest system message with this text is not older than the window. */
  predicate SaidRecently(messages: seq<Message>, content: string, now: Time, window: nat)
  {
    exists i :: 0 <= i < |messages| && Repeats(messages[i], content) && now - messages[i].createdAt <= window
                && forall j :: i < j < |messages| ==> !Repeats(messages[j], content)
  }

  predicate Dropped(messages: seq<Message>, speaker: Speaker, content: string, now: Time, window: nat)
  {
    speaker.FromSystem? && window > 0 && SaidRecently(messages, content, now, window)
  }

  function Revived(m: Meta, restore: bool, at: Time): Meta
  {
    if restore && m.status.Archived? then m.(status := Active, archivedAt := None, updatedAt := at) else m
  }

  function Named(m: Meta, speaker: Speaker, content: string): Meta
  {
    if speaker.FromUser? && m.title == DEFAULT_TITLE then m.(title := TitleFrom(content)) else m
  }

  lemma NothingIndexed(index: seq<Item>, metas: map<nat, Meta>)
    requires Agrees(index, metas) && metas.Keys == {}
    ensures index == []
  {
    if index != [] {
      HasMember(index);
    }
  }

  lemma HasMember(index: seq<Item>)
    requires index != []
    ensures exists i :: i in index
  {
    assert index[0] in index;
  }
}
