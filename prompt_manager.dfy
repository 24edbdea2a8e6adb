/** The stacked prompts (`PromptManager` with its `PromptInstance`s): timed
    notifications and owner-keyed context prompts, each list laid out
    upwards from a base position.

    A prompt instance is a value with a fresh identity; its anchored
    position is `pos[id]`. Hiding a prompt runs the callback it was spawned
    with: it leaves its list and that list is laid out again from the base
    the prompt was spawned with; the destroyed instance joins `hidden`.
    Every hide removes its prompt from its list first, so the lists never
    hold a destroyed entry and their null checks never fire. The
    auto-hide timer of a notification is the call `Expire`. */
module Prompts {
  import opened GameData

  datatype PromptKind = Notification | Context

  /** A spawned prompt: its identity, owner (null for notifications), kind,
      text, the base its list is laid out from when it comes or goes, and
      whether it hides itself after its duration. */
  datatype Prompt = Prompt(id: nat, owner: Option<Owner>, kind: PromptKind, text: string,
                           base: Vec2, autoHide: bool)

  /** The anchored position of the `i`-th prompt of a list. */
  function Slot(base: Vec2, i: nat, spacing: real): Vec2
  {
    Vec2(base.x, base.y + (i as real) * spacing)
  }

  /** Prompt `i` of `list` sits `i` spacings above `base`. */
  ghost predicate LaidOut(list: seq<Prompt>, pos: map<nat, Vec2>, base: Vec2, spacing: real)
  {
    forall i :: 0 <= i < |list| ==> list[i].id in pos && pos[list[i].id] == Slot(base, i, spacing)
  }

  function Ids(list: seq<Prompt>): set<nat>
  {
    set p | p in list :: p.id
  }

  predicate UniqueIds(list: seq<Prompt>)
  {
    forall i, j :: 0 <= i < j < |list| ==> list[i].id != list[j].id
  }

  /** `List.Remove`: the first prompt with that identity leaves the list. */
  function RemoveFirst(list: seq<Prompt>, id: nat): (r: seq<Prompt>)
    ensures |r| <= |list|
  {
    if |list| == 0 then []
    else if list[0].id == id then list[1..]
    else [list[0]] + RemoveFirst(list[1..], id)
  }

  /** In a list without repeated identities, removing prompt `i` by its
      identity removes exactly position `i` and keeps the rest in order. */
  lemma {:induction false} RemoveFirstAt(list: seq<Prompt>, i: nat)
    requires UniqueIds(list) && i < |list|
    ensures RemoveFirst(list, list[i].id) == list[..i] + list[i + 1..]
  {
    if i == 0 {
      assert list[..0] + list[1..] == list[1..];
    } else {
      var tail := list[1..];
      assert tail[i - 1] == list[i];
      assert list[0].id != list[i].id;
      assert UniqueIds(tail) by {
        forall a, b | 0 <= a < b < |tail|
          ensures tail[a].id != tail[b].id
        {
          assert tail[a] == list[a + 1] && tail[b] == list[b + 1];
        }
      }
      RemoveFirstAt(tail, i - 1);
      assert list[..i] == [list[0]] + tail[..i - 1];
      assert list[i + 1..] == tail[i..];
    }
  }

  /** The prompts of `list` not owned by `owner`, in order. */
  function Others(list: seq<Prompt>, owner: Option<Owner>): (r: seq<Prompt>)
    ensures |r| <= |list|
  {
    if |list| == 0 then []
    else (if list[0].owner == owner then [] else [list[0]]) + Others(list[1..], owner)
  }

  /** The identities of the prompts of `list` owned by `owner`. */
  function OwnedIds(list: seq<Prompt>, owner: Option<Owner>): (r: set<nat>)
    ensures r <= Ids(list)
  {
    if |list| == 0 then {}
    else (if list[0].owner == owner then {list[0].id} else {}) + OwnedIds(list[1..], owner)
  }

  /** `Others` keeps exactly the prompts the owner does not own. */
  lemma {:induction false} OthersMembers(list: seq<Prompt>, owner: Option<Owner>)
    ensures forall p :: p in Others(list, owner) <==> p in list && p.owner != owner
  {
    if |list| > 0 {
      OthersMembers(list[1..], owner);
      assert list == [list[0]] + list[1..];
    }
  }

  /** Every prompt the owner owns is among `OwnedIds`. */
  lemma {:induction false} OwnedIdsCover(list: seq<Prompt>, owner: Option<Owner>)
    ensures forall i :: 0 <= i < |list| && list[i].owner == owner ==> list[i].id in OwnedIds(list, owner)
  {
    if |list| > 0 {
      OwnedIdsCover(list[1..], owner);
      assert forall i :: 1 <= i < |list| ==> list[i] == list[1..][i - 1];
    }
  }

  /** The index of the first prompt owned by `owner`, or `|list|`. */
  function FirstOwned(list: seq<Prompt>, owner: Option<Owner>): (k: nat)
    ensures k <= |list|
    ensures forall j :: 0 <= j < k ==> list[j].owner != owner
    ensures k < |list| ==> list[k].owner == owner
  {
    if |list| == 0 then 0
    else if list[0].owner == owner then 0
    else 1 + FirstOwned(list[1..], owner)
  }

  lemma {:induction false} FirstOwnedIs(list: seq<Prompt>, owner: Option<Owner>, k: nat)
    requires k <= |list|
    requires forall j :: 0 <= j < k ==> list[j].owner != owner
    requires k < |list| ==> list[k].owner == owner
    ensures FirstOwned(list, owner) == k
  {
    if |list| > 0 && k > 0 {
      FirstOwnedIs(list[1..], owner, k - 1);
    }
  }

  /** The `foreach` over `contexts` that stops at the first prompt of the
      owner. */
  method FindOwned(list: seq<Prompt>, owner: Option<Owner>) returns (k: nat)
    ensures k == FirstOwned(list, owner)
  {
    k := 0;
    while k < |list|
      invariant k <= |list|
      invariant forall j :: 0 <= j < k ==> list[j].owner != owner
    {
      if list[k].owner == owner {
        FirstOwnedIs(list, owner, k);
        return;
      }
      k := k + 1;
    }
    FirstOwnedIs(list, owner, k);
  }

  /** `Reposition(list, basePos)`: prompt `i` is moved to `i` spacings
      above the base; no other prompt moves. */
  method Reposition(list: seq<Prompt>, pos: map<nat, Vec2>, base: Vec2, spacing: real)
    returns (r: map<nat, Vec2>)
    ensures UniqueIds(list) ==> LaidOut(list, r, base, spacing)
    ensures forall id :: id in r <==> id in pos || id in Ids(list)
    ensures forall id :: id in pos && id !in Ids(list) ==> r[id] == pos[id]
  {
    r := pos;
    var i := 0;
    while i < |list|
      invariant 0 <= i <= |list|
      invariant UniqueIds(list) ==> LaidOut(list[..i], r, base, spacing)
      invariant forall id :: id in r <==> id in pos || id in Ids(list[..i])
      invariant forall id :: id in pos && id !in Ids(list[..i]) ==> r[id] == pos[id]
    {
      assert list[..i + 1] == list[..i] + [list[i]];
      IdsSnoc(list[..i], list[i]);
      r := r[list[i].id := Slot(base, i, spacing)];
      i := i + 1;
    }
    assert list[..i] == list;
  }

  lemma {:induction false} IdsSnoc(list: seq<Prompt>, p: Prompt)
    ensures Ids(list + [p]) == Ids(list) + {p.id}
  {
    if |list| > 0 {
      assert (list + [p])[1..] == list[1..] + [p];
      IdsSnoc(list[1..], p);
    } else {
      assert (list + [p])[1..] == [];
    }
  }

  /** At most one context prompt per owner. */
  predicate OnePerOwner(list: seq<Prompt>)
  {
    forall i, j :: 0 <= i < j < |list| ==> list[i].owner != list[j].owner
  }

  /** `ShowContext(msg, owner)` spawns only when the owner has no context
      prompt, so through it each owner keeps at most one; `HideContext`
      leaves the owner none. */
  lemma OwnerKeepsOneContext(contexts: seq<Prompt>, p: Prompt)
    requires OnePerOwner(contexts) && FirstOwned(contexts, p.owner) == |contexts|
    ensures OnePerOwner(contexts + [p])
    ensures OnePerOwner(Others(contexts, p.owner))
    ensures FirstOwned(Others(contexts, p.owner), p.owner) == |Others(contexts, p.owner)|
  {
    OthersKeepsOrder(contexts, p.owner);
    AppendUnowned(contexts, p);
    var rest := Others(contexts, p.owner);
    OthersMembers(contexts, p.owner);
    forall j | 0 <= j < |rest|
      ensures rest[j].owner != p.owner
    {
      assert rest[j] in rest;
    }
    FirstOwnedIs(rest, p.owner, |rest|);
  }

  /** Appending a prompt whose owner has none in the list keeps one prompt
      per owner. */
  lemma AppendUnowned(list: seq<Prompt>, p: Prompt)
    requires OnePerOwner(list) && FirstOwned(list, p.owner) == |list|
    ensures OnePerOwner(list + [p])
  {
    var r := list + [p];
    forall i, j | 0 <= i < j < |r|
      ensures r[i].owner != r[j].owner
    {
      if j == |list| {
        assert r[i] == list[i] && r[j] == p;
      } else {
        assert r[i] == list[i] && r[j] == list[j];
      }
    }
  }

  /** `Others` keeps its prompts in their relative order, so any property
      of pairs in order that holds of the list holds of it. */
  lemma {:induction false} OthersKeepsOrder(list: seq<Prompt>, owner: Option<Owner>)
    requires OnePerOwner(list)
    ensures OnePerOwner(Others(list, owner))
  {
    if |list| > 0 {
      OthersKeepsOrder(list[1..], owner);
      OthersMembers(list[1..], owner);
      var rest := Others(list[1..], owner);
      if list[0].owner != owner {
        var r := [list[0]] + rest;
        forall i, j | 0 <= i < j < |r| ensures r[i].owner != r[j].owner {
          if i == 0 {
            assert r[j] in rest;
            var m :| 0 <= m < |list[1..]| && list[1..][m] == r[j];
            assert list[m + 1] == r[j];
          }
        }
      }
    }
  }

  lemma UniqueTail(list: seq<Prompt>)
    requires UniqueIds(list) && |list| > 0
    ensures UniqueIds(list[1..])
    ensures forall q :: q in list[1..] ==> q.id != list[0].id
  {
    var tail := list[1..];
    forall a, b | 0 <= a < b < |tail| ensures tail[a].id != tail[b].id {
      assert tail[a] == list[a + 1] && tail[b] == list[b + 1];
    }
    forall q | q in tail ensures q.id != list[0].id {
      var m :| 0 <= m < |tail| && tail[m] == q;
      assert list[m + 1] == q;
    }
  }

  /** Filtering keeps identities unique, and no prompt kept has the
      identity of one filtered out. */
  lemma {:induction false} OthersUnique(list: seq<Prompt>, owner: Option<Owner>)
    requires UniqueIds(list)
    ensures UniqueIds(Others(list, owner))
    ensures forall q :: q in Others(list, owner) ==> q.id !in OwnedIds(list, owner)
  {
    if |list| > 0 {
      UniqueTail(list);
      OthersUnique(list[1..], owner);
      OthersMembers(list[1..], owner);
      if list[0].owner != owner {
        ConsUnique(list[0], Others(list[1..], owner));
      }
    }
  }

  lemma ConsUnique(p: Prompt, rest: seq<Prompt>)
    requires UniqueIds(rest) && forall q :: q in rest ==> q.id != p.id
    ensures UniqueIds([p] + rest)
  {
    var r := [p] + rest;
    forall a, b | 0 <= a < b < |r| ensures r[a].id != r[b].id {
      if a == 0 {
        assert r[b] == rest[b - 1];
        assert r[b] in rest;
      } else {
        assert r[a] == rest[a - 1] && r[b] == rest[b - 1];
      }
    }
  }

  /** `ClearAll` as written: its `foreach` over `notifications` hides the
      first prompt, whose removal callback changes the list, so the next
      step of the enumeration throws. Only that one prompt is hidden and
      neither list is cleared; when there is no notification the same
      happens to the first context prompt. The result is the two lists
      the exception leaves behind. */
  function ClearAllAsWritten(notifications: seq<Prompt>, contexts: seq<Prompt>)
    : (r: (seq<Prompt>, seq<Prompt>))
    ensures |notifications| > 0 ==> r == (RemoveFirst(notifications, notifications[0].id), contexts)
    ensures |notifications| == 0 && |contexts| > 0 ==> r == ([], RemoveFirst(contexts, contexts[0].id))
    ensures |notifications| == 0 && |contexts| == 0 ==> r == ([], [])
  {
    if |notifications| > 0 then (RemoveFirst(notifications, notifications[0].id), contexts)
    else if |contexts| > 0 then ([], RemoveFirst(contexts, contexts[0].id))
    else ([], [])
  }

  /** With two notifications shown, `ClearAll` as written leaves the second
      one on screen and every context prompt with it. */
  lemma ClearAllAsWrittenLeavesPrompts(notifications: seq<Prompt>, contexts: seq<Prompt>)
    requires UniqueIds(notifications) && |notifications| >= 2
    ensures var r := ClearAllAsWritten(notifications, contexts);
            r.0 == notifications[1..] && notifications[1] in r.0 && r.1 == contexts
  {
    RemoveFirstAt(notifications, 0);
    assert notifications[..0] + notifications[1..] == notifications[1..];
    assert notifications[1..][0] == notifications[1];
  }

  /** Prompt ids of one list: unique, of the list's kind, spawned before
      `nextId` and not destroyed. */
  ghost predicate Live(list: seq<Prompt>, kind: PromptKind, nextId: nat, hidden: set<nat>)
  {
    UniqueIds(list) && forall p :: p in list ==> p.kind == kind && p.id < nextId && p.id !in hidden
  }

  lemma UniqueWithout(list: seq<Prompt>, i: nat)
    requires UniqueIds(list) && i < |list|
    ensures var rest := list[..i] + list[i + 1..];
            UniqueIds(rest) && (forall q :: q in rest ==> q in list) && list[i].id !in Ids(rest)
  {
    var rest := list[..i] + list[i + 1..];
    forall a, b | 0 <= a < b < |rest| ensures rest[a].id != rest[b].id {
      var a' := if a < i then a else a + 1;
      var b' := if b < i then b else b + 1;
      assert rest[a] == list[a'] && rest[b] == list[b'];
    }
    forall q | q in rest ensures q in list && q.id != list[i].id {
      var m :| 0 <= m < |rest| && rest[m] == q;
      var m' := if m < i then m else m + 1;
      assert rest[m] == list[m'];
    }
  }

  /** Positions `r` are `pos` with at most the prompts `ids` moved or
      added. */
  ghost predicate Moved(pos: map<nat, Vec2>, r: map<nat, Vec2>, ids: set<nat>)
  {
    (forall id :: id in pos ==> id in r) &&
    (forall id :: id in r ==> id in pos || id in ids) &&
    (forall id :: id in pos && id !in ids ==> r[id] == pos[id])
  }

  lemma MovedTrans(a: map<nat, Vec2>, b: map<nat, Vec2>, c: map<nat, Vec2>, s: set<nat>, t: set<nat>)
    requires Moved(a, b, t) && Moved(b, c, s) && s <= t
    ensures Moved(a, c, t)
  {
  }

  /** A list keeps its layout when only positions of prompts outside it
      change. */
  lemma LaidOutKept(list: seq<Prompt>, pos: map<nat, Vec2>, r: map<nat, Vec2>, base: Vec2, spacing: real,
                    changed: set<nat>)
    requires LaidOut(list, pos, base, spacing) && Ids(list) !! changed && Moved(pos, r, changed)
    ensures LaidOut(list, r, base, spacing)
  {
    forall i | 0 <= i < |list| ensures list[i].id in r && r[list[i].id] == Slot(base, i, spacing) {
      assert list[i] in list;
    }
  }

  /** `PromptInstance.Hide` of prompt `p` seen from its list: the removal
      callback takes `p` out and lays the list out from `p`'s base. */
  method Withdraw(list: seq<Prompt>, pos: map<nat, Vec2>, p: Prompt, spacing: real)
    returns (rest: seq<Prompt>, r: map<nat, Vec2>)
    requires UniqueIds(list) && p in list
    ensures rest == RemoveFirst(list, p.id)
    ensures UniqueIds(rest) && (forall q :: q in rest ==> q in list) && p.id !in Ids(rest)
    ensures LaidOut(rest, r, p.base, spacing)
    ensures Moved(pos, r, Ids(list))
  {
    ghost var i :| 0 <= i < |list| && list[i] == p;
    RemoveFirstAt(list, i);
    UniqueWithout(list, i);
    rest := RemoveFirst(list, p.id);
    r := Reposition(rest, pos, p.base, spacing);
  }

  /** What `HideContext`'s loop over `list` has done by index `i`: the
      prompts below `i` are untouched, those from `i` on that the owner
      does not own are kept, the owned ones are `gone`; `lowest` is the
      last one hidden (or `|list|`). */
  ghost predicate Kept(list: seq<Prompt>, owner: Option<Owner>, i: nat, lowest: nat,
                       rest: seq<Prompt>, gone: set<nat>)
  {
    i <= lowest <= |list| &&
    rest == list[..i] + Others(list[i..], owner) && UniqueIds(rest) &&
    gone == OwnedIds(list[i..], owner) &&
    (forall j :: i <= j < lowest ==> list[j].owner != owner) &&
    (lowest < |list| ==> list[lowest].owner == owner)
  }

  /** Where the loop has put the kept prompts: laid out from the base of
      the last one hidden, or nowhere new if none was. */
  ghost predicate Placed(list: seq<Prompt>, spacing: real, pos: map<nat, Vec2>, lowest: nat,
                         rest: seq<Prompt>, r: map<nat, Vec2>)
  {
    (lowest < |list| ==> LaidOut(rest, r, list[lowest].base, spacing)) &&
    (lowest >= |list| ==> r == pos) &&
    Moved(pos, r, Ids(list))
  }

  lemma KeptAt(list: seq<Prompt>, owner: Option<Owner>, i: nat, lowest: nat, rest: seq<Prompt>, gone: set<nat>)
    requires Kept(list, owner, i, lowest, rest, gone) && 0 < i
    ensures i - 1 < |rest| && rest[i - 1] == list[i - 1] && rest[i - 1] in rest
  {
  }

  lemma AppendAssoc<T>(a: seq<T>, x: T, b: seq<T>)
    ensures (a + [x]) + b == a + ([x] + b)
  {
  }

  /** `Others` and `OwnedIds` of a suffix, one prompt at a time. */
  lemma SuffixStep(list: seq<Prompt>, owner: Option<Owner>, k: nat)
    requires k < |list|
    ensures Others(list[k..], owner) == (if list[k].owner == owner then [] else [list[k]]) + Others(list[k + 1..], owner)
    ensures OwnedIds(list[k..], owner) == (if list[k].owner == owner then {list[k].id} else {}) + OwnedIds(list[k + 1..], owner)
    ensures list[..k + 1] == list[..k] + [list[k]]
  {
    assert list[k..][0] == list[k];
    assert list[k..][1..] == list[k + 1..];
  }

  /** A prompt the owner does not own stays where it is. */
  lemma KeptKeep(list: seq<Prompt>, owner: Option<Owner>, i: nat, lowest: nat, rest: seq<Prompt>, gone: set<nat>)
    requires Kept(list, owner, i, lowest, rest, gone) && 0 < i
    requires list[i - 1].owner != owner
    ensures Kept(list, owner, i - 1, lowest, rest, gone)
  {
    SuffixStep(list, owner, i - 1);
    AppendAssoc(list[..i - 1], list[i - 1], Others(list[i..], owner));
  }

  lemma SplitAround<T>(a: seq<T>, x: T, b: seq<T>)
    ensures ((a + [x]) + b)[..|a|] + ((a + [x]) + b)[|a| + 1..] == a + b && ((a + [x]) + b)[|a|] == x
  {
    assert ((a + [x]) + b)[..|a|] == a && ((a + [x]) + b)[|a| + 1..] == b;
  }

  lemma IdsWithin(a: seq<Prompt>, b: seq<Prompt>)
    requires forall q :: q in a ==> q in b
    ensures Ids(a) <= Ids(b)
  {
  }

  /** What the loop keeps comes from the list. */
  lemma KeptWithin(list: seq<Prompt>, owner: Option<Owner>, i: nat)
    requires i <= |list|
    ensures Ids(list[..i] + Others(list[i..], owner)) <= Ids(list)
  {
    var rest := list[..i] + Others(list[i..], owner);
    OthersMembers(list[i..], owner);
    forall q | q in rest ensures q in list {
      if q in list[..i] {
        var m :| 0 <= m < i && list[..i][m] == q;
        assert list[m] == q;
      } else {
        assert q in list[i..];
        var m :| 0 <= m < |list| - i && list[i..][m] == q;
        assert list[i + m] == q;
      }
    }
    IdsWithin(rest, list);
  }

  /** A prompt the owner owns leaves the kept prompts and joins `gone`. */
  lemma KeptDrop(list: seq<Prompt>, owner: Option<Owner>, i: nat, lowest: nat, rest: seq<Prompt>, gone: set<nat>,
                 rest2: seq<Prompt>)
    requires Kept(list, owner, i, lowest, rest, gone) && 0 < i
    requires list[i - 1].owner == owner
    requires rest2 == RemoveFirst(rest, list[i - 1].id) && UniqueIds(rest2)
    ensures Kept(list, owner, i - 1, i - 1, rest2, gone + {list[i - 1].id})
    ensures Ids(rest) <= Ids(list)
  {
    SuffixStep(list, owner, i - 1);
    var a, x, b := list[..i - 1], list[i - 1], Others(list[i..], owner);
    assert rest == (a + [x]) + b;
    SplitAround(a, x, b);
    RemoveFirstAt(rest, i - 1);
    assert rest2 == a + b && [] + b == b;
    KeptWithin(list, owner, i);
  }

  /** Hiding prompt `i - 1` lays the kept prompts out from its base. */
  lemma PlacedDrop(list: seq<Prompt>, spacing: real, pos: map<nat, Vec2>, lowest: nat, rest: seq<Prompt>,
                   r: map<nat, Vec2>, i: nat, rest2: seq<Prompt>, r2: map<nat, Vec2>)
    requires Placed(list, spacing, pos, lowest, rest, r) && 0 < i <= |list|
    requires Ids(rest) <= Ids(list)
    requires LaidOut(rest2, r2, list[i - 1].base, spacing) && Moved(r, r2, Ids(rest))
    ensures Placed(list, spacing, pos, i - 1, rest2, r2)
  {
    MovedTrans(pos, r, r2, Ids(rest), Ids(list));
  }

  /** Before the loop of `HideContext`, nothing is hidden yet. */
  lemma HidingStart(list: seq<Prompt>, owner: Option<Owner>, spacing: real, pos: map<nat, Vec2>)
    requires UniqueIds(list)
    ensures Kept(list, owner, |list|, |list|, list, {})
    ensures Placed(list, spacing, pos, |list|, list, pos)
  {
    assert list[..|list|] == list && list[|list|..] == [];
  }

  /** After the loop, the others are left in order, laid out from the base
      of the owner's first prompt if there was one. */
  lemma HidingEnd(list: seq<Prompt>, owner: Option<Owner>, spacing: real, pos: map<nat, Vec2>,
                  lowest: nat, rest: seq<Prompt>, r: map<nat, Vec2>, gone: set<nat>)
    requires Kept(list, owner, 0, lowest, rest, gone) && Placed(list, spacing, pos, lowest, rest, r)
    ensures rest == Others(list, owner) && UniqueIds(rest)
    ensures gone == OwnedIds(list, owner)
    ensures var k := FirstOwned(list, owner);
            (k == |list| ==> r == pos) && (k < |list| ==> LaidOut(rest, r, list[k].base, spacing))
    ensures Moved(pos, r, Ids(list))
  {
    assert list[..0] == [] && list[0..] == list;
    FirstOwnedIs(list, owner, lowest);
  }

  /** One turn of `HideContext`'s loop: prompt `i - 1` is hidden if the
      owner owns it. */
  method HideOwnedStep(list: seq<Prompt>, owner: Option<Owner>, spacing: real, pos: map<nat, Vec2>,
                       i: nat, lowest: nat, rest: seq<Prompt>, r: map<nat, Vec2>, gone: set<nat>)
    returns (lowest': nat, rest': seq<Prompt>, r': map<nat, Vec2>, gone': set<nat>)
    requires Kept(list, owner, i, lowest, rest, gone) && Placed(list, spacing, pos, lowest, rest, r) && 0 < i
    ensures Kept(list, owner, i - 1, lowest', rest', gone') && Placed(list, spacing, pos, lowest', rest', r')
  {
    KeptAt(list, owner, i, lowest, rest, gone);
    if rest[i - 1].owner == owner {
      rest', r' := Withdraw(rest, r, rest[i - 1], spacing);
      KeptDrop(list, owner, i, lowest, rest, gone, rest');
      PlacedDrop(list, spacing, pos, lowest, rest, r, i, rest', r');
      lowest', gone' := i - 1, gone + {list[i - 1].id};
    } else {
      KeptKeep(list, owner, i, lowest, rest, gone);
      lowest', rest', r', gone' := lowest, rest, r, gone;
    }
  }

  /** The loop of `HideContext(owner)`: from the last prompt to the first,
      each one of the owner is hidden. What is left is the others in
      order, laid out from the base of the owner's first prompt (the last
      one hidden); `gone` are the hidden prompts. */
  method HideOwned(list: seq<Prompt>, pos: map<nat, Vec2>, owner: Option<Owner>, spacing: real)
    returns (rest: seq<Prompt>, r: map<nat, Vec2>, gone: set<nat>)
    requires UniqueIds(list)
    ensures rest == Others(list, owner) && UniqueIds(rest)
    ensures gone == OwnedIds(list, owner)
    ensures var k := FirstOwned(list, owner);
            (k == |list| ==> r == pos) && (k < |list| ==> LaidOut(rest, r, list[k].base, spacing))
    ensures Moved(pos, r, Ids(list))
  {
    rest, r, gone := list, pos, {};
    var lowest: nat := |list|;
    var i: nat := |list|;
    HidingStart(list, owner, spacing, pos);
    while i > 0
      invariant Kept(list, owner, i, lowest, rest, gone) && Placed(list, spacing, pos, lowest, rest, r)
    {
      lowest, rest, r, gone := HideOwnedStep(list, owner, spacing, pos, i, lowest, rest, r, gone);
      i := i - 1;
    }
    HidingEnd(list, owner, spacing, pos, lowest, rest, r, gone);
  }

  /** What `ClearAllContext`'s loop over `list` has done by index `i`:
      the prompts below `i` are left, those from `i` on are `gone`, and
      only listed prompts have moved. */
  ghost predicate Clearing(list: seq<Prompt>, pos: map<nat, Vec2>, i: nat, rest: seq<Prompt>,
                           r: map<nat, Vec2>, gone: set<nat>)
  {
    i <= |list| && rest == list[..i] && UniqueIds(rest) && gone == Ids(list[i..]) && Moved(pos, r, Ids(list))
  }

  lemma ClearingStart(list: seq<Prompt>, pos: map<nat, Vec2>)
    requires UniqueIds(list)
    ensures Clearing(list, pos, |list|, list, pos, {})
  {
    assert list[..|list|] == list && list[|list|..] == [];
  }

  lemma ClearingEnd(list: seq<Prompt>, pos: map<nat, Vec2>, rest: seq<Prompt>, r: map<nat, Vec2>, gone: set<nat>)
    requires Clearing(list, pos, 0, rest, r, gone)
    ensures gone == Ids(list) && Moved(pos, r, Ids(list))
  {
    assert list[0..] == list;
  }

  /** The last prompt left is the one at `i - 1`. */
  lemma ClearingAt(list: seq<Prompt>, pos: map<nat, Vec2>, i: nat, rest: seq<Prompt>, r: map<nat, Vec2>,
                   gone: set<nat>)
    requires Clearing(list, pos, i, rest, r, gone) && 0 < i
    ensures rest[i - 1] == list[i - 1] && rest[i - 1] in rest
    ensures RemoveFirst(rest, rest[i - 1].id) == list[..i - 1]
    ensures Ids(rest) <= Ids(list)
  {
    RemoveFirstAt(rest, i - 1);
    assert rest[i..] == [];
    assert rest[..i - 1] == list[..i - 1];
    assert forall q :: q in rest ==> q in list;
  }

  lemma ClearingDrop(list: seq<Prompt>, pos: map<nat, Vec2>, i: nat, rest: seq<Prompt>, r: map<nat, Vec2>,
                     gone: set<nat>, rest2: seq<Prompt>, r2: map<nat, Vec2>)
    requires Clearing(list, pos, i, rest, r, gone) && 0 < i
    requires rest2 == list[..i - 1] && UniqueIds(rest2) && Ids(rest) <= Ids(list) && Moved(r, r2, Ids(rest))
    ensures Clearing(list, pos, i - 1, rest2, r2, gone + {list[i - 1].id})
  {
    assert list[i - 1..] == [list[i - 1]] + list[i..];
    IdsCons(list[i - 1], list[i..]);
    MovedTrans(pos, r, r2, Ids(rest), Ids(list));
  }

  lemma IdsCons(p: Prompt, list: seq<Prompt>)
    ensures Ids([p] + list) == {p.id} + Ids(list)
  {
    assert forall q :: q in [p] + list <==> q == p || q in list;
  }

  /** One turn of `ClearAllContext`'s loop: the last prompt left is
      hidden. */
  method HideAllStep(list: seq<Prompt>, pos: map<nat, Vec2>, spacing: real, i: nat, rest: seq<Prompt>,
                     r: map<nat, Vec2>, gone: set<nat>)
    returns (rest': seq<Prompt>, r': map<nat, Vec2>, gone': set<nat>)
    requires Clearing(list, pos, i, rest, r, gone) && 0 < i
    ensures Clearing(list, pos, i - 1, rest', r', gone')
  {
    ClearingAt(list, pos, i, rest, r, gone);
    rest', r' := Withdraw(rest, r, rest[i - 1], spacing);
    ClearingDrop(list, pos, i, rest, r, gone, rest', r');
    gone' := gone + {list[i - 1].id};
  }

  /** The loop of `ClearAllContext`: from the last prompt to the first,
      each is hidden, so each is the last of the list when it goes; `gone`
      are all of them. */
  method HideAll(list: seq<Prompt>, pos: map<nat, Vec2>, spacing: real)
    returns (r: map<nat, Vec2>, gone: set<nat>)
    requires UniqueIds(list)
    ensures gone == Ids(list)
    ensures Moved(pos, r, Ids(list))
  {
    var rest := list;
    r, gone := pos, {};
    var i: nat := |list|;
    ClearingStart(list, pos);
    while i > 0
      invariant Clearing(list, pos, i, rest, r, gone)
    {
      rest, r, gone := HideAllStep(list, pos, spacing, i, rest, r, gone);
      i := i - 1;
    }
    ClearingEnd(list, pos, rest, r, gone);
  }

  /** The invariant of the two lists, stated for `list` and `other` so
      that each operation is proved once for either list: both are live,
      no identity is in both, every destroyed identity was spawned, and
      each list is laid out from its last base. */
  ghost predicate Pair(list: seq<Prompt>, kind: PromptKind, base: Vec2, other: seq<Prompt>, otherKind: PromptKind,
                       otherBase: Vec2, pos: map<nat, Vec2>, hidden: set<nat>, nextId: nat, spacing: real)
  {
    Live(list, kind, nextId, hidden) && Live(other, otherKind, nextId, hidden) &&
    Ids(list) !! Ids(other) &&
    (forall id :: id in hidden ==> id < nextId) &&
    LaidOut(list, pos, base, spacing) && LaidOut(other, pos, otherBase, spacing)
  }

  lemma PairSwap(list: seq<Prompt>, kind: PromptKind, base: Vec2, other: seq<Prompt>, otherKind: PromptKind,
                 otherBase: Vec2, pos: map<nat, Vec2>, hidden: set<nat>, nextId: nat, spacing: real)
    requires Pair(list, kind, base, other, otherKind, otherBase, pos, hidden, nextId, spacing)
    ensures Pair(other, otherKind, otherBase, list, kind, base, pos, hidden, nextId, spacing)
  {
  }

  /** A prompt with the next identity is new to a live list, and the list
      with it appended is live once the identity is used. */
  lemma SpawnFresh(list: seq<Prompt>, p: Prompt, kind: PromptKind, nextId: nat, hidden: set<nat>)
    requires Live(list, kind, nextId, hidden)
    requires p.id == nextId && (forall id :: id in hidden ==> id < nextId)
    ensures p.id !in Ids(list) && p.id !in hidden
    ensures p.kind == kind ==> Live(list + [p], kind, nextId + 1, hidden)
    ensures Live(list, kind, nextId + 1, hidden)
    ensures Ids(list + [p]) == Ids(list) + {p.id}
  {
    assert forall q :: q in list + [p] <==> q in list || q == p;
  }

  /** Spawning keeps the invariant: the new prompt joins the end of `list`,
      which `Reposition` has laid out from `base`. */
  lemma PairSpawn(list: seq<Prompt>, kind: PromptKind, lb: Vec2, other: seq<Prompt>, otherKind: PromptKind,
                  ob: Vec2, pos: map<nat, Vec2>, hidden: set<nat>, nextId: nat, spacing: real,
                  p: Prompt, base: Vec2, r: map<nat, Vec2>)
    requires Pair(list, kind, lb, other, otherKind, ob, pos, hidden, nextId, spacing)
    requires p.id == nextId && p.kind == kind
    requires UniqueIds(list + [p]) ==> LaidOut(list + [p], r, base, spacing)
    requires forall id :: id in r <==> id in pos || id in Ids(list + [p])
    requires forall id :: id in pos && id !in Ids(list + [p]) ==> r[id] == pos[id]
    ensures p.id !in Ids(list) && p.id !in Ids(other) && p.id !in hidden
    ensures Pair(list + [p], kind, base, other, otherKind, ob, r, hidden, nextId + 1, spacing)
  {
    SpawnFresh(list, p, kind, nextId, hidden);
    SpawnFresh(other, p, otherKind, nextId, hidden);
    LaidOutKept(other, pos, r, ob, spacing, Ids(list + [p]));
  }

  /** Both lists stay live when `p` leaves `list` and is destroyed. */
  lemma AfterHide(list: seq<Prompt>, rest: seq<Prompt>, other: seq<Prompt>, p: Prompt,
                  kind: PromptKind, otherKind: PromptKind, nextId: nat, hidden: set<nat>)
    requires Live(list, kind, nextId, hidden) && Live(other, otherKind, nextId, hidden) && Ids(list) !! Ids(other)
    requires p in list && UniqueIds(rest) && (forall q :: q in rest ==> q in list) && p.id !in Ids(rest)
    ensures Live(rest, kind, nextId, hidden + {p.id}) && Live(other, otherKind, nextId, hidden + {p.id})
    ensures Ids(rest) !! Ids(other)
  {
    forall q | q in rest ensures q.id != p.id {
      assert q.id in Ids(rest);
    }
    assert p.id in Ids(list);
    forall q | q in other ensures q.id != p.id {
      assert q.id in Ids(other);
    }
    forall id | id in Ids(rest) ensures id !in Ids(other) {
      var q :| q in rest && q.id == id;
      assert id in Ids(list);
    }
  }

  /** Hiding keeps the invariant: `p` leaves `list`, which `Withdraw` has
      laid out from `p`'s base, and is destroyed. */
  lemma PairHide(list: seq<Prompt>, kind: PromptKind, lb: Vec2, other: seq<Prompt>, otherKind: PromptKind,
                 ob: Vec2, pos: map<nat, Vec2>, hidden: set<nat>, nextId: nat, spacing: real,
                 p: Prompt, rest: seq<Prompt>, r: map<nat, Vec2>)
    requires Pair(list, kind, lb, other, otherKind, ob, pos, hidden, nextId, spacing)
    requires p in list && UniqueIds(rest) && (forall q :: q in rest ==> q in list) && p.id !in Ids(rest)
    requires LaidOut(rest, r, p.base, spacing) && Moved(pos, r, Ids(list))
    ensures Pair(rest, kind, p.base, other, otherKind, ob, r, hidden + {p.id}, nextId, spacing)
  {
    AfterHide(list, rest, other, p, kind, otherKind, nextId, hidden);
    LaidOutKept(other, pos, r, ob, spacing, Ids(list));
    assert p.id in Ids(list);
  }

  /** `SpawnPrompt` of a notification on the manager's state as values. */
  method AppendNotification(ns: seq<Prompt>, ghost nb: Vec2, cs: seq<Prompt>, ghost cb: Vec2,
                            pos: map<nat, Vec2>, ghost hidden: set<nat>, ghost nextId: nat, spacing: real,
                            p: Prompt, base: Vec2)
    returns (r: map<nat, Vec2>)
    requires Pair(ns, Notification, nb, cs, Context, cb, pos, hidden, nextId, spacing)
    requires p.id == nextId && p.kind == Notification
    ensures p.id !in Ids(ns) && p.id !in Ids(cs) && p.id !in hidden
    ensures Pair(ns + [p], Notification, base, cs, Context, cb, r, hidden, nextId + 1, spacing)
  {
    r := Reposition(ns + [p], pos, base, spacing);
    PairSpawn(ns, Notification, nb, cs, Context, cb, pos, hidden, nextId, spacing, p, base, r);
  }

  /** `SpawnPrompt` of a context prompt on the manager's state as values. */
  method AppendContext(ns: seq<Prompt>, ghost nb: Vec2, cs: seq<Prompt>, ghost cb: Vec2,
                       pos: map<nat, Vec2>, ghost hidden: set<nat>, ghost nextId: nat, spacing: real,
                       p: Prompt, base: Vec2)
    returns (r: map<nat, Vec2>)
    requires Pair(ns, Notification, nb, cs, Context, cb, pos, hidden, nextId, spacing)
    requires p.id == nextId && p.kind == Context
    ensures p.id !in Ids(ns) && p.id !in Ids(cs) && p.id !in hidden
    ensures Pair(ns, Notification, nb, cs + [p], Context, base, r, hidden, nextId + 1, spacing)
  {
    r := Reposition(cs + [p], pos, base, spacing);
    PairSwap(ns, Notification, nb, cs, Context, cb, pos, hidden, nextId, spacing);
    PairSpawn(cs, Context, cb, ns, Notification, nb, pos, hidden, nextId, spacing, p, base, r);
    PairSwap(cs + [p], Context, base, ns, Notification, nb, r, hidden, nextId + 1, spacing);
  }

  /** `Hide` of a notification on the manager's state as values: the
      notification leaves its list and the rest close up under its base. */
  method WithdrawNotification(ns: seq<Prompt>, ghost nb: Vec2, cs: seq<Prompt>, ghost cb: Vec2,
                              pos: map<nat, Vec2>, ghost hidden: set<nat>, ghost nextId: nat, spacing: real, p: Prompt)
    returns (rest: seq<Prompt>, r: map<nat, Vec2>)
    requires Pair(ns, Notification, nb, cs, Context, cb, pos, hidden, nextId, spacing) && p in ns
    ensures rest == RemoveFirst(ns, p.id)
    ensures Pair(rest, Notification, p.base, cs, Context, cb, r, hidden + {p.id}, nextId, spacing)
  {
    rest, r := Withdraw(ns, pos, p, spacing);
    PairHide(ns, Notification, nb, cs, Context, cb, pos, hidden, nextId, spacing, p, rest, r);
  }

  /** `Hide` of a context prompt on the manager's state as values. */
  method WithdrawContext(ns: seq<Prompt>, ghost nb: Vec2, cs: seq<Prompt>, ghost cb: Vec2,
                         pos: map<nat, Vec2>, ghost hidden: set<nat>, ghost nextId: nat, spacing: real, p: Prompt)
    returns (rest: seq<Prompt>, r: map<nat, Vec2>)
    requires Pair(ns, Notification, nb, cs, Context, cb, pos, hidden, nextId, spacing) && p in cs
    ensures rest == RemoveFirst(cs, p.id)
    ensures Pair(ns, Notification, nb, rest, Context, p.base, r, hidden + {p.id}, nextId, spacing)
  {
    PairSwap(ns, Notification, nb, cs, Context, cb, pos, hidden, nextId, spacing);
    rest, r := Withdraw(cs, pos, p, spacing);
    PairHide(cs, Context, cb, ns, Notification, nb, pos, hidden, nextId, spacing, p, rest, r);
    PairSwap(rest, Context, p.base, ns, Notification, nb, r, hidden + {p.id}, nextId, spacing);
  }

  /** `HideContext(owner)` on the manager's state as values. */
  method WithdrawOwned(ns: seq<Prompt>, ghost nb: Vec2, cs: seq<Prompt>, ghost cb: Vec2,
                       pos: map<nat, Vec2>, ghost hidden: set<nat>, ghost nextId: nat, spacing: real,
                       owner: Option<Owner>)
    returns (rest: seq<Prompt>, r: map<nat, Vec2>, gone: set<nat>, ghost base: Vec2)
    requires Pair(ns, Notification, nb, cs, Context, cb, pos, hidden, nextId, spacing)
    ensures rest == Others(cs, owner) && gone == OwnedIds(cs, owner)
    ensures FirstOwned(cs, owner) == |cs| ==> r == pos && base == cb
    ensures FirstOwned(cs, owner) < |cs| ==> base == cs[FirstOwned(cs, owner)].base
    ensures Pair(ns, Notification, nb, rest, Context, base, r, hidden + gone, nextId, spacing)
  {
    var k := FirstOwned(cs, owner);
    rest, r, gone := HideOwned(cs, pos, owner, spacing);
    PairSwap(ns, Notification, nb, cs, Context, cb, pos, hidden, nextId, spacing);
    PairHideOwned(cs, cb, ns, nb, pos, hidden, nextId, spacing, owner, rest, r, gone);
    base := if k < |cs| then cs[k].base else cb;
    PairSwap(rest, Context, base, ns, Notification, nb, r, hidden + gone, nextId, spacing);
  }

  /** With no prompt of the owner, `Others` is the whole list. */
  lemma {:induction false} OthersNone(list: seq<Prompt>, owner: Option<Owner>)
    requires forall j :: 0 <= j < |list| ==> list[j].owner != owner
    ensures Others(list, owner) == list
  {
    if |list| > 0 {
      OthersNone(list[1..], owner);
      assert list == [list[0]] + list[1..];
    }
  }

  /** Both lists stay live when the owner's context prompts leave and are
      destroyed. */
  lemma AfterHideOwned(contexts: seq<Prompt>, owner: Option<Owner>, notifications: seq<Prompt>,
                       nextId: nat, hidden: set<nat>)
    requires Live(contexts, Context, nextId, hidden) && Live(notifications, Notification, nextId, hidden)
    requires Ids(notifications) !! Ids(contexts)
    ensures var gone := OwnedIds(contexts, owner);
            var rest := Others(contexts, owner);
            Live(rest, Context, nextId, hidden + gone) && Live(notifications, Notification, nextId, hidden + gone) &&
            Ids(notifications) !! Ids(rest)
  {
    var gone := OwnedIds(contexts, owner);
    var rest := Others(contexts, owner);
    OthersUnique(contexts, owner);
    OthersMembers(contexts, owner);
    forall q | q in notifications ensures q.id !in gone {
      assert q.id in Ids(notifications);
    }
    forall id | id in Ids(rest) ensures id in Ids(contexts) {
      var q :| q in rest && q.id == id;
    }
  }

  /** `HideContext` keeps the invariant: the owner's prompts are destroyed,
      and the others are laid out from the base of the owner's first one,
      or stay where they were when the owner has none. */
  lemma PairHideOwned(contexts: seq<Prompt>, cb: Vec2, notifications: seq<Prompt>, nb: Vec2,
                      pos: map<nat, Vec2>, hidden: set<nat>, nextId: nat, spacing: real,
                      owner: Option<Owner>, rest: seq<Prompt>, r: map<nat, Vec2>, gone: set<nat>)
    requires Pair(contexts, Context, cb, notifications, Notification, nb, pos, hidden, nextId, spacing)
    requires rest == Others(contexts, owner) && gone == OwnedIds(contexts, owner)
    requires var k := FirstOwned(contexts, owner);
             (k == |contexts| ==> r == pos) && (k < |contexts| ==> LaidOut(rest, r, contexts[k].base, spacing))
    requires Moved(pos, r, Ids(contexts))
    ensures var k := FirstOwned(contexts, owner);
            var base := if k < |contexts| then contexts[k].base else cb;
            Pair(rest, Context, base, notifications, Notification, nb, r, hidden + gone, nextId, spacing)
  {
    AfterHideOwned(contexts, owner, notifications, nextId, hidden);
    LaidOutKept(notifications, pos, r, nb, spacing, Ids(contexts));
    if FirstOwned(contexts, owner) == |contexts| {
      OthersNone(contexts, owner);
    }
  }

  /** `HideAll` keeps the invariant: `list` is emptied and its prompts
      destroyed; the other list does not move. */
  lemma PairClear(list: seq<Prompt>, kind: PromptKind, lb: Vec2, other: seq<Prompt>, otherKind: PromptKind,
                  ob: Vec2, pos: map<nat, Vec2>, hidden: set<nat>, nextId: nat, spacing: real,
                  r: map<nat, Vec2>, gone: set<nat>)
    requires Pair(list, kind, lb, other, otherKind, ob, pos, hidden, nextId, spacing)
    requires gone == Ids(list) && Moved(pos, r, Ids(list))
    ensures Pair([], kind, lb, other, otherKind, ob, r, hidden + gone, nextId, spacing)
  {
    LaidOutKept(other, pos, r, ob, spacing, Ids(list));
    forall id | id in gone ensures id < nextId {
      var q :| q in list && q.id == id;
    }
    forall q | q in other ensures q.id !in gone {
      assert q.id in Ids(other);
    }
  }

  /** `SetText` on context prompt `k` changes no identity and moves
      nothing. */
  lemma PairRetext(contexts: seq<Prompt>, cb: Vec2, notifications: seq<Prompt>, nb: Vec2,
                   pos: map<nat, Vec2>, hidden: set<nat>, nextId: nat, spacing: real, k: nat, text: string)
    requires Pair(contexts, Context, cb, notifications, Notification, nb, pos, hidden, nextId, spacing)
    requires k < |contexts|
    ensures Pair(contexts[k := contexts[k].(text := text)], Context, cb, notifications, Notification, nb,
                 pos, hidden, nextId, spacing)
  {
    var r := contexts[k := contexts[k].(text := text)];
    assert forall i :: 0 <= i < |r| ==> r[i].id == contexts[i].id;
    forall id | id in Ids(r) ensures id in Ids(contexts) {
      var q :| q in r && q.id == id;
      var m :| 0 <= m < |r| && r[m] == q;
      assert contexts[m].id == id && contexts[m] in contexts;
    }
    forall q | q in r ensures q.kind == Context && q.id < nextId && q.id !in hidden {
      var m :| 0 <= m < |r| && r[m] == q;
      assert contexts[m] in contexts;
    }
  }

  class PromptManager {
    const verticalSpacing: real
    const notificationBasePos: Vec2
    const contextBasePos: Vec2
    var notifications: seq<Prompt>
    var contexts: seq<Prompt>
    var pos: map<nat, Vec2>
    var hidden: set<nat>
    var nextId: nat
    /** The base each list was last laid out from. */
    ghost var notificationLayout: Vec2
    ghost var contextLayout: Vec2

    /** Every listed prompt is alive, unique, of its list's kind and laid
        out from its list's last base. */
    ghost predicate Valid()
      reads this
    {
      Pair(notifications, Notification, notificationLayout, contexts, Context, contextLayout,
           pos, hidden, nextId, verticalSpacing)
    }

    constructor (verticalSpacing: real, notificationBasePos: Vec2, contextBasePos: Vec2)
      ensures Valid()
      ensures this.verticalSpacing == verticalSpacing && this.notificationBasePos == notificationBasePos &&
              this.contextBasePos == contextBasePos
      ensures notifications == [] && contexts == [] && hidden == {}
    {
      this.verticalSpacing := verticalSpacing;
      this.notificationBasePos := notificationBasePos;
      this.contextBasePos := contextBasePos;
      notifications := [];
      contexts := [];
      pos := map[];
      hidden := {};
      nextId := 0;
      notificationLayout := notificationBasePos;
      contextLayout := contextBasePos;
    }

    /** `SpawnPrompt`: a fresh prompt joins the end of its list, which is
        laid out from `base`; the other list does not move. */
    method SpawnPrompt(msg: string, owner: Option<Owner>, kind: PromptKind, duration: real, base: Vec2)
      returns (p: Prompt)
      requires Valid()
      modifies this`notifications, this`contexts, this`pos, this`nextId,
               this`notificationLayout, this`contextLayout
      ensures Valid() && hidden == old(hidden)
      ensures p == Prompt(old(nextId), owner, kind, msg, base, kind == Notification && duration > 0.0)
      ensures p.id !in Ids(old(notifications)) && p.id !in Ids(old(contexts)) && p.id !in hidden
      ensures kind == Notification ==>
                notifications == old(notifications) + [p] && contexts == old(contexts) &&
                notificationLayout == base && contextLayout == old(contextLayout)
      ensures kind == Context ==>
                contexts == old(contexts) + [p] && notifications == old(notifications) &&
                contextLayout == base && notificationLayout == old(notificationLayout)
    {
      p := Prompt(nextId, owner, kind, msg, base, kind == Notification && duration > 0.0);
      if kind == Notification {
        var r := AppendNotification(notifications, notificationLayout, contexts, contextLayout,
                                    pos, hidden, nextId, verticalSpacing, p, base);
        notifications, pos, nextId, notificationLayout := notifications + [p], r, nextId + 1, base;
      } else {
        var r := AppendContext(notifications, notificationLayout, contexts, contextLayout,
                               pos, hidden, nextId, verticalSpacing, p, base);
        contexts, pos, nextId, contextLayout := contexts + [p], r, nextId + 1, base;
      }
    }

    /** `Notify(msg, duration)` at the default base; a null owner and no
        check for an equal prompt. */
    method Notify(msg: string, duration: real) returns (p: Prompt)
      requires Valid()
      modifies this`notifications, this`contexts, this`pos, this`nextId,
               this`notificationLayout, this`contextLayout
      ensures Valid()
      ensures notifications == old(notifications) + [p] && contexts == old(contexts)
      ensures p.owner.None? && p.kind == Notification && p.text == msg && p.base == notificationBasePos &&
              p.id !in Ids(old(notifications)) && notificationLayout == notificationBasePos
    {
      p := SpawnPrompt(msg, None, Notification, duration, notificationBasePos);
    }

    /** `Notify(msg, customBasePos, duration)`. */
    method NotifyAt(msg: string, base: Vec2, duration: real) returns (p: Prompt)
      requires Valid()
      modifies this`notifications, this`contexts, this`pos, this`nextId,
               this`notificationLayout, this`contextLayout
      ensures Valid()
      ensures notifications == old(notifications) + [p] && contexts == old(contexts)
      ensures p.owner.None? && p.kind == Notification && p.text == msg && p.base == base &&
              p.id !in Ids(old(notifications)) && notificationLayout == base
    {
      p := SpawnPrompt(msg, None, Notification, duration, base);
    }

    /** `ShowContext(msg, owner, customBasePos)`: always spawns. */
    method ShowContextAt(msg: string, owner: Option<Owner>, base: Vec2) returns (p: Prompt)
      requires Valid()
      modifies this`notifications, this`contexts, this`pos, this`nextId,
               this`notificationLayout, this`contextLayout
      ensures Valid()
      ensures contexts == old(contexts) + [p] && notifications == old(notifications)
      ensures p.owner == owner && p.kind == Context && p.text == msg && p.base == base && !p.autoHide &&
              p.id !in Ids(old(contexts)) && contextLayout == base
    {
      p := SpawnPrompt(msg, owner, Context, -1.0, base);
    }

    /** `ShowContext(msg, owner)`: nothing if the owner already has a
        context prompt, otherwise one at the default base. */
    method ShowContext(msg: string, owner: Option<Owner>) returns (spawned: bool)
      requires Valid()
      modifies this`notifications, this`contexts, this`pos, this`nextId,
               this`notificationLayout, this`contextLayout
      ensures Valid()
      ensures spawned <==> FirstOwned(old(contexts), owner) == |old(contexts)|
      ensures !spawned ==> contexts == old(contexts) && pos == old(pos) && nextId == old(nextId)
      ensures spawned ==> |contexts| == |old(contexts)| + 1 && contexts == old(contexts) + [contexts[|old(contexts)|]] &&
                          var p := contexts[|old(contexts)|];
                          p.owner == owner && p.text == msg && p.base == contextBasePos
      ensures notifications == old(notifications)
    {
      var k := FindOwned(contexts, owner);
      if k < |contexts| {
        return false;
      }
      var p := ShowContextAt(msg, owner, contextBasePos);
      spawned := true;
    }

    /** `PromptInstance.Hide` of a listed prompt: it leaves its list, which
        is laid out again from the prompt's own base, and is destroyed. */
    method HidePrompt(p: Prompt)
      requires Valid() && (p.kind == Notification ==> p in notifications) && (p.kind == Context ==> p in contexts)
      modifies this`notifications, this`contexts, this`pos, this`hidden,
               this`notificationLayout, this`contextLayout
      ensures Valid()
      ensures hidden == old(hidden) + {p.id}
      ensures p.kind == Notification ==>
                notifications == RemoveFirst(old(notifications), p.id) && contexts == old(contexts) &&
                notificationLayout == p.base && contextLayout == old(contextLayout)
      ensures p.kind == Context ==>
                contexts == RemoveFirst(old(contexts), p.id) && notifications == old(notifications) &&
                contextLayout == p.base && notificationLayout == old(notificationLayout)
    {
      if p.kind == Notification {
        HideNotification(p);
      } else {
        HideContextPrompt(p);
      }
    }

    method HideNotification(p: Prompt)
      requires Valid() && p in notifications
      modifies this`notifications, this`pos, this`hidden, this`notificationLayout
      ensures Valid()
      ensures hidden == old(hidden) + {p.id}
      ensures notifications == RemoveFirst(old(notifications), p.id) && notificationLayout == p.base
    {
      var rest, r := WithdrawNotification(notifications, notificationLayout, contexts, contextLayout,
                                          pos, hidden, nextId, verticalSpacing, p);
      notifications, pos, hidden, notificationLayout := rest, r, hidden + {p.id}, p.base;
    }

    method HideContextPrompt(p: Prompt)
      requires Valid() && p in contexts
      modifies this`contexts, this`pos, this`hidden, this`contextLayout
      ensures Valid()
      ensures hidden == old(hidden) + {p.id}
      ensures contexts == RemoveFirst(old(contexts), p.id) && contextLayout == p.base
    {
      var rest, r := WithdrawContext(notifications, notificationLayout, contexts, contextLayout,
                                     pos, hidden, nextId, verticalSpacing, p);
      contexts, pos, hidden, contextLayout := rest, r, hidden + {p.id}, p.base;
    }

    /** The auto-hide timer of notification `i` runs out. */
    method Expire(i: nat)
      requires Valid() && i < |notifications| && notifications[i].autoHide
      modifies this`notifications, this`contexts, this`pos, this`hidden,
               this`notificationLayout, this`contextLayout
      ensures Valid()
      ensures notifications == old(notifications[..i] + notifications[i + 1..]) && contexts == old(contexts)
      ensures hidden == old(hidden) + {old(notifications[i].id)}
    {
      RemoveFirstAt(notifications, i);
      HidePrompt(notifications[i]);
    }

    /** `HideContext(owner)`: every context prompt of the owner is hidden;
        the others stay in order, laid out from the base of the owner's
        first prompt, which is hidden last. */
    method HideContext(owner: Option<Owner>)
      requires Valid()
      modifies this`pos, this`contexts, this`hidden, this`contextLayout
      ensures Valid()
      ensures contexts == Others(old(contexts), owner) && notifications == old(notifications)
      ensures hidden == old(hidden) + OwnedIds(old(contexts), owner)
      ensures var k := FirstOwned(old(contexts), owner);
              (k == |old(contexts)| ==> pos == old(pos) && contextLayout == old(contextLayout)) &&
              (k < |old(contexts)| ==> contextLayout == old(contexts)[k].base)
    {
      var rest, r, gone, base := WithdrawOwned(notifications, notificationLayout, contexts, contextLayout,
                                               pos, hidden, nextId, verticalSpacing, owner);
      contexts, pos, hidden := rest, r, hidden + gone;
      contextLayout := base;
    }

    /** `RefreshContext(owner, text)`: the owner's first context prompt is
        given the text; without one, `ShowContext` spawns it. */
    method RefreshContext(owner: Option<Owner>, newText: string)
      requires Valid()
      modifies this`notifications, this`contexts, this`pos, this`nextId,
               this`notificationLayout, this`contextLayout
      ensures Valid()
      ensures notifications == old(notifications)
      ensures var k := FirstOwned(old(contexts), owner);
              (k < |old(contexts)| ==> contexts == old(contexts)[k := old(contexts)[k].(text := newText)] &&
                                       pos == old(pos)) &&
              (k == |old(contexts)| ==> |contexts| == |old(contexts)| + 1 &&
                                        contexts[..|old(contexts)|] == old(contexts) &&
                                        contexts[|old(contexts)|].owner == owner &&
                                        contexts[|old(contexts)|].text == newText)
    {
      var k := FindOwned(contexts, owner);
      if k < |contexts| {
        PairSwap(notifications, Notification, notificationLayout, contexts, Context, contextLayout,
                 pos, hidden, nextId, verticalSpacing);
        PairRetext(contexts, contextLayout, notifications, notificationLayout, pos, hidden, nextId,
                   verticalSpacing, k, newText);
        PairSwap(contexts[k := contexts[k].(text := newText)], Context, contextLayout, notifications,
                 Notification, notificationLayout, pos, hidden, nextId, verticalSpacing);
        contexts := contexts[k := contexts[k].(text := newText)];
        return;
      }
      var spawned := ShowContext(newText, owner);
      assert contexts[..|old(contexts)|] == old(contexts);
    }

    /** `ClearAllContext`: every context prompt is hidden, from the last
        to the first, and the list is emptied. */
    method ClearAllContext()
      requires Valid()
      modifies this`pos, this`contexts, this`hidden
      ensures Valid()
      ensures contexts == [] && notifications == old(notifications)
      ensures hidden == old(hidden) + Ids(old(contexts))
    {
      var r, gone := HideAll(contexts, pos, verticalSpacing);
      PairSwap(notifications, Notification, notificationLayout, contexts, Context, contextLayout,
               pos, hidden, nextId, verticalSpacing);
      PairClear(contexts, Context, contextLayout, notifications, Notification, notificationLayout,
                pos, hidden, nextId, verticalSpacing, r, gone);
      PairSwap([], Context, contextLayout, notifications, Notification, notificationLayout,
               r, hidden + gone, nextId, verticalSpacing);
      contexts, pos, hidden := [], r, hidden + gone;
    }

    /** `ClearAll` as evidently intended: every notification and every
        context prompt is hidden and both lists are emptied. The
        notifications go from the last to the first, as `ClearAllContext`
        does for the context prompts. */
    method ClearAll()
      requires Valid()
      modifies this`pos, this`notifications, this`contexts, this`hidden
      ensures Valid()
      ensures notifications == [] && contexts == []
      ensures hidden == old(hidden) + Ids(old(notifications)) + Ids(old(contexts))
    {
      var r, gone := HideAll(notifications, pos, verticalSpacing);
      PairClear(notifications, Notification, notificationLayout, contexts, Context, contextLayout,
                pos, hidden, nextId, verticalSpacing, r, gone);
      notifications, pos, hidden := [], r, hidden + gone;
      ClearAllContext();
    }

    /** `ResetAll`. */
    method ResetAll()
      requires Valid()
      modifies this`pos, this`notifications, this`contexts, this`hidden
      ensures Valid()
      ensures notifications == [] && contexts == []
      ensures hidden == old(hidden) + Ids(old(notifications)) + Ids(old(contexts))
    {
      ClearAll();
    }
  }
}
