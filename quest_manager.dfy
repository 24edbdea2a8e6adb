/** Quest tracking (`QuestManager`): the progress dictionary keyed by quest,
    the `completed` and `failed` lists, and the two-phase `AddProgress`.

    The calls into the quest panels, the game manager and the save system
    are returned, in order, as `Call`s. The dictionary's keys are kept as
    the sequence `keys`, in insertion order; the enumeration order of a
    .NET `Dictionary` after a removal is not specified, so an order that
    depends on it is only modelled, not promised. */
module Quests {
  import opened GameData

  /** The goal filter of `AddProgress`: same goal type, and a wildcard or
      equal target. */
  predicate Matches(q: QuestData, target: string, goal: QuestGoalType)
  {
    q.goalType == goal && (q.targetName == AnyTarget || q.targetName == target)
  }

  /** The progress map after the first phase of `AddProgress`. */
  function Bumped(p: map<QuestData, int>, target: string, goal: QuestGoalType): (r: map<QuestData, int>)
    ensures r.Keys == p.Keys
  {
    map q | q in p :: if Matches(q, target, goal) then p[q] + 1 else p[q]
  }

  /** The quests of `ks`, in order, that match and have reached their
      required amount in `p`: the `toComplete` list. */
  function Reached(ks: seq<QuestData>, p: map<QuestData, int>, target: string, goal: QuestGoalType): (r: seq<QuestData>)
    requires forall k :: k in ks ==> k in p
    ensures |r| <= |ks|
    decreases |ks|
  {
    if ks == [] then []
    else
      var last := ks[|ks| - 1];
      Reached(ks[..|ks| - 1], p, target, goal)
        + (if Matches(last, target, goal) && p[last] >= last.requiredAmount then [last] else [])
  }

  /** The panel updates of the first phase, in key order. */
  function UpdateCalls(ks: seq<QuestData>, p: map<QuestData, int>, target: string, goal: QuestGoalType): (r: seq<Call>)
    requires forall k :: k in ks ==> k in p
    ensures |r| <= |ks|
    ensures forall c :: c in r ==> c.UpdateProgress?
    decreases |ks|
  {
    if ks == [] then []
    else
      var last := ks[|ks| - 1];
      UpdateCalls(ks[..|ks| - 1], p, target, goal)
        + (if Matches(last, target, goal) then [UpdateProgress(last, p[last], last.requiredAmount)] else [])
  }

  /** The calls of `CompleteQuest` for each quest of `qs`, in order. */
  function CompleteCalls(qs: seq<QuestData>): (r: seq<Call>)
    ensures |r| == 2 * |qs|
    ensures forall c :: c in r ==> c == SaveGame || (c.MarkCompleted? && c.completedQuest in qs)
    decreases |qs|
  {
    if qs == [] then []
    else CompleteCalls(qs[..|qs| - 1]) + [SaveGame, MarkCompleted(qs[|qs| - 1])]
  }

  /** `toComplete` holds exactly the scanned quests that match and have
      reached their required amount. */
  lemma {:induction false} ReachedMembers(ks: seq<QuestData>, p: map<QuestData, int>, target: string, goal: QuestGoalType)
    requires forall k :: k in ks ==> k in p
    ensures forall q :: q in Reached(ks, p, target, goal) <==> q in ks && Matches(q, target, goal) && p[q] >= q.requiredAmount
    decreases |ks|
  {
    if ks != [] {
      var init := ks[..|ks| - 1];
      ReachedMembers(init, p, target, goal);
      assert ks == init + [ks[|ks| - 1]];
    }
  }

  /** Scanning distinct keys puts each reached quest in `toComplete` once. */
  lemma {:induction false} ReachedDistinct(ks: seq<QuestData>, p: map<QuestData, int>, target: string, goal: QuestGoalType)
    requires forall k :: k in ks ==> k in p
    requires Distinct(ks)
    ensures Distinct(Reached(ks, p, target, goal))
    decreases |ks|
  {
    if ks != [] {
      var init := ks[..|ks| - 1];
      var last := ks[|ks| - 1];
      assert ks == init + [last];
      assert Distinct(init) && last !in init;
      ReachedDistinct(init, p, target, goal);
      ReachedMembers(init, p, target, goal);
    }
  }

  /** Every panel update of the first phase reports a matching scanned
      quest with its new count and its required amount. */
  lemma {:induction false} UpdateCallsSound(ks: seq<QuestData>, p: map<QuestData, int>, target: string, goal: QuestGoalType)
    requires forall k :: k in ks ==> k in p
    ensures forall c :: c in UpdateCalls(ks, p, target, goal) ==>
              c.UpdateProgress? && c.updated in ks && Matches(c.updated, target, goal)
              && c.now == p[c.updated] && c.max == c.updated.requiredAmount
    decreases |ks|
  {
    if ks != [] {
      var init := ks[..|ks| - 1];
      UpdateCallsSound(init, p, target, goal);
      assert ks == init + [ks[|ks| - 1]];
    }
  }

  /** Every matching tracked quest gets exactly its panel update. */
  lemma {:induction false} UpdateCallsCover(ks: seq<QuestData>, p: map<QuestData, int>, target: string,
                                            goal: QuestGoalType, q: QuestData)
    requires forall k :: k in ks ==> k in p
    requires q in ks && Matches(q, target, goal)
    ensures UpdateProgress(q, p[q], q.requiredAmount) in UpdateCalls(ks, p, target, goal)
    decreases |ks|
  {
    var last := ks[|ks| - 1];
    if q != last {
      assert q in ks[..|ks| - 1] by {
        var k :| 0 <= k < |ks| && ks[k] == q;
        assert ks[..|ks| - 1][k] == q;
      }
      UpdateCallsCover(ks[..|ks| - 1], p, target, goal, q);
    }
  }

  /** Each quest of `qs` is marked completed. */
  lemma {:induction false} CompleteCallsCover(qs: seq<QuestData>, q: QuestData)
    requires q in qs
    ensures MarkCompleted(q) in CompleteCalls(qs)
    decreases |qs|
  {
    if q != qs[|qs| - 1] {
      assert q in qs[..|qs| - 1] by {
        var k :| 0 <= k < |qs| && qs[k] == q;
        assert qs[..|qs| - 1][k] == q;
      }
      CompleteCallsCover(qs[..|qs| - 1], q);
    }
  }

  /** The two phases do not interleave: the panel updates are exactly the
      calls before the first completion. */
  lemma TwoPhase(ks: seq<QuestData>, p: map<QuestData, int>, target: string, goal: QuestGoalType)
    requires forall k :: k in ks ==> k in p
    ensures var u := UpdateCalls(ks, p, target, goal);
            var cs := u + CompleteCalls(Reached(ks, p, target, goal));
            forall k :: 0 <= k < |cs| ==> (cs[k].UpdateProgress? <==> k < |u|)
  {
    var u := UpdateCalls(ks, p, target, goal);
    var cs := u + CompleteCalls(Reached(ks, p, target, goal));
    forall k | 0 <= k < |cs|
      ensures cs[k].UpdateProgress? <==> k < |u|
    {
      if k < |u| {
        assert cs[k] in u;
      } else {
        assert cs[k] in CompleteCalls(Reached(ks, p, target, goal));
      }
    }
  }

  /** Extending the scanned prefix of the key list by one key. */
  lemma ScanStep(ks: seq<QuestData>, p: map<QuestData, int>, target: string, goal: QuestGoalType, i: nat)
    requires i < |ks| && forall k :: k in ks ==> k in p
    ensures Reached(ks[..i + 1], p, target, goal) == Reached(ks[..i], p, target, goal)
              + (if Matches(ks[i], target, goal) && p[ks[i]] >= ks[i].requiredAmount then [ks[i]] else [])
    ensures UpdateCalls(ks[..i + 1], p, target, goal) == UpdateCalls(ks[..i], p, target, goal)
              + (if Matches(ks[i], target, goal) then [UpdateProgress(ks[i], p[ks[i]], ks[i].requiredAmount)] else [])
  {
    assert ks[..i + 1][..i] == ks[..i];
  }

  /** A completed quest stays tracked until it is claimed, so the next
      matching event bumps it past its required amount and completes it
      again: progress is not clamped and `completed` can hold a quest
      twice. */
  lemma CompletedQuestCompletesAgain(ks: seq<QuestData>, p: map<QuestData, int>, q: QuestData,
                                     target: string, goal: QuestGoalType)
    requires forall k :: k in ks ==> k in p
    requires q in ks && Matches(q, target, goal) && p[q] >= q.requiredAmount
    ensures Bumped(p, target, goal)[q] == p[q] + 1 > q.requiredAmount
    ensures q in Reached(ks, Bumped(p, target, goal), target, goal)
  {
    ReachedMembers(ks, Bumped(p, target, goal), target, goal);
  }

  /** Extending the completed prefix of `toComplete` by one quest. */
  lemma CompleteStep(qs: seq<QuestData>, j: nat)
    requires j < |qs|
    ensures qs[..j + 1] == qs[..j] + [qs[j]]
    ensures CompleteCalls(qs[..j + 1]) == CompleteCalls(qs[..j]) + [SaveGame, MarkCompleted(qs[j])]
  {
    assert qs[..j + 1][..j] == qs[..j];
  }

  /** What the first loop of `AddProgress` has done after scanning `i` keys. */
  ghost predicate Scanned(ks: seq<QuestData>, p0: map<QuestData, int>, target: string, goal: QuestGoalType,
                          i: int, p: map<QuestData, int>, toComplete: seq<QuestData>, calls: seq<Call>)
    requires (forall k :: k in ks ==> k in p0) && (forall k :: k in p0 ==> k in ks)
  {
    && 0 <= i <= |ks|
    && p.Keys == p0.Keys
    && (forall k :: 0 <= k < |ks| ==> p[ks[k]] == if k < i && Matches(ks[k], target, goal) then p0[ks[k]] + 1 else p0[ks[k]])
    && toComplete == Reached(ks[..i], Bumped(p0, target, goal), target, goal)
    && calls == UpdateCalls(ks[..i], Bumped(p0, target, goal), target, goal)
  }

  /** One iteration of the first loop of `AddProgress` on a matching key:
      its count is bumped, its panel updated, and it is collected if it
      reached its required amount. */
  lemma ScanMatching(ks: seq<QuestData>, p0: map<QuestData, int>, target: string, goal: QuestGoalType, i: int,
                     p: map<QuestData, int>, toComplete: seq<QuestData>, calls: seq<Call>,
                     p': map<QuestData, int>, toComplete': seq<QuestData>, calls': seq<Call>)
    requires Distinct(ks) && (forall k :: k in ks ==> k in p0) && (forall k :: k in p0 ==> k in ks)
    requires Scanned(ks, p0, target, goal, i, p, toComplete, calls) && i < |ks| && Matches(ks[i], target, goal)
    requires var q := ks[i];
             && p' == p[q := p[q] + 1]
             && toComplete' == (if p'[q] >= q.requiredAmount then toComplete + [q] else toComplete)
             && calls' == calls + [UpdateProgress(q, p'[q], q.requiredAmount)]
    ensures Scanned(ks, p0, target, goal, i + 1, p', toComplete', calls')
  {
    ScanStep(ks, Bumped(p0, target, goal), target, goal, i);
    var q := ks[i];
    forall k | 0 <= k < |ks| && k != i
      ensures ks[k] != q
    {
    }
  }

  /** One iteration of the first loop of `AddProgress` on a key that does
      not match: nothing changes. */
  lemma ScanSkipping(ks: seq<QuestData>, p0: map<QuestData, int>, target: string, goal: QuestGoalType, i: int,
                     p: map<QuestData, int>, toComplete: seq<QuestData>, calls: seq<Call>)
    requires (forall k :: k in ks ==> k in p0) && (forall k :: k in p0 ==> k in ks)
    requires Scanned(ks, p0, target, goal, i, p, toComplete, calls) && i < |ks| && !Matches(ks[i], target, goal)
    ensures Scanned(ks, p0, target, goal, i + 1, p, toComplete, calls)
  {
    ScanStep(ks, Bumped(p0, target, goal), target, goal, i);
  }

  /** The first loop of `AddProgress`, over a snapshot of the keys: bump
      and report every matching quest, and collect those that reached their
      required amount. */
  method ScanKeys(ks: seq<QuestData>, p0: map<QuestData, int>, target: string, goal: QuestGoalType)
    returns (p: map<QuestData, int>, toComplete: seq<QuestData>, calls: seq<Call>)
    requires Distinct(ks) && (forall k :: k in ks ==> k in p0) && (forall k :: k in p0 ==> k in ks)
    ensures p == Bumped(p0, target, goal)
    ensures toComplete == Reached(ks, p, target, goal)
    ensures calls == UpdateCalls(ks, p, target, goal)
  {
    p := p0;
    toComplete := [];
    calls := [];
    var i := 0;
    while i < |ks|
      invariant Scanned(ks, p0, target, goal, i, p, toComplete, calls)
    {
      p, toComplete, calls := ScanOne(ks, p0, target, goal, i, p, toComplete, calls);
      i := i + 1;
    }
    assert ks[..i] == ks;
    BumpedByKeys(ks, p0, p, target, goal);
  }

  /** The body of the first loop of `AddProgress`, for key `i`. */
  method ScanOne(ks: seq<QuestData>, p0: map<QuestData, int>, target: string, goal: QuestGoalType, i: int,
                 p: map<QuestData, int>, toComplete: seq<QuestData>, calls: seq<Call>)
    returns (p': map<QuestData, int>, toComplete': seq<QuestData>, calls': seq<Call>)
    requires Distinct(ks) && (forall k :: k in ks ==> k in p0) && (forall k :: k in p0 ==> k in ks)
    requires Scanned(ks, p0, target, goal, i, p, toComplete, calls) && i < |ks|
    ensures Scanned(ks, p0, target, goal, i + 1, p', toComplete', calls')
  {
    var q := ks[i];
    if !Matches(q, target, goal) {
      ScanSkipping(ks, p0, target, goal, i, p, toComplete, calls);
      return p, toComplete, calls;
    }
    p' := p[q := p[q] + 1];
    calls' := calls + [UpdateProgress(q, p'[q], q.requiredAmount)];
    toComplete' := toComplete;
    if p'[q] >= q.requiredAmount {
      toComplete' := toComplete + [q];
    }
    ScanMatching(ks, p0, target, goal, i, p, toComplete, calls, p', toComplete', calls');
  }

  /** A map that bumped every listed key that matches, and nothing else, is
      `Bumped`. */
  lemma BumpedByKeys(ks: seq<QuestData>, p0: map<QuestData, int>, p: map<QuestData, int>, target: string, goal: QuestGoalType)
    requires (forall k :: k in ks ==> k in p0) && (forall k :: k in p0 ==> k in ks)
    requires p.Keys == p0.Keys
    requires forall k :: 0 <= k < |ks| ==> p[ks[k]] == if Matches(ks[k], target, goal) then p0[ks[k]] + 1 else p0[ks[k]]
    ensures p == Bumped(p0, target, goal)
  {
    forall q | q in p
      ensures p[q] == Bumped(p0, target, goal)[q]
    {
      var k :| 0 <= k < |ks| && ks[k] == q;
    }
  }

  class QuestManager {
    /** `progress.Keys` in enumeration order. */
    var keys: seq<QuestData>
    var progress: map<QuestData, int>
    var completed: seq<QuestData>
    var failed: seq<QuestData>

    ghost predicate Valid()
      reads this
    {
      Distinct(keys) && (forall q :: q in keys ==> q in progress) && (forall q :: q in progress ==> q in keys)
    }

    constructor ()
      ensures Valid() && keys == [] && progress == map[] && completed == [] && failed == []
    {
      keys := [];
      progress := map[];
      completed := [];
      failed := [];
    }

    function HasQuest(q: QuestData): (tracked: bool)
      reads this
      ensures tracked <==> q in progress
    {
      q in progress
    }

    function IsCompleted(q: QuestData): (done: bool)
      reads this
      ensures done <==> exists i :: 0 <= i < |completed| && completed[i] == q
    {
      q in completed
    }

    /** `StartQuest`: a save, then nothing for a quest already taken;
        otherwise the quest is tracked from 0 and its panel shown. The
        one-argument `ShowQuest` is the non-restoring one. */
    method StartQuest(q: QuestData) returns (calls: seq<Call>)
      requires Valid()
      modifies this
      ensures Valid()
      ensures completed == old(completed) && failed == old(failed)
      ensures old(q in progress) ==> keys == old(keys) && progress == old(progress) && calls == [SaveGame]
      ensures old(q !in progress) ==>
                keys == old(keys) + [q] && progress == old(progress)[q := 0] && calls == [SaveGame, ShowQuest(q)]
    {
      calls := [SaveGame];
      if q in progress {
        return;
      }
      progress := progress[q := 0];
      keys := keys + [q];
      calls := calls + [ShowQuest(q)];
    }

    /** `CompleteQuest`: a save, the quest appended to `completed`, its
        panel marked; the progress entry stays. */
    method CompleteQuest(q: QuestData) returns (calls: seq<Call>)
      modifies this`completed
      ensures completed == old(completed) + [q]
      ensures calls == [SaveGame, MarkCompleted(q)]
    {
      completed := completed + [q];
      calls := [SaveGame, MarkCompleted(q)];
    }

    /** The second loop of `AddProgress`: `CompleteQuest` on each quest of
        `qs`, in order. */
    method CompleteAll(qs: seq<QuestData>) returns (calls: seq<Call>)
      modifies this`completed
      ensures completed == old(completed) + qs
      ensures calls == CompleteCalls(qs)
    {
      calls := [];
      var j := 0;
      while j < |qs|
        invariant 0 <= j <= |qs|
        invariant completed == old(completed) + qs[..j]
        invariant calls == CompleteCalls(qs[..j])
      {
        CompleteStep(qs, j);
        var more := CompleteQuest(qs[j]);
        calls := calls + more;
        j := j + 1;
      }
      assert qs[..j] == qs;
    }

    /** `AddProgress`: first every matching tracked quest gains exactly 1
        and its panel is updated, then each one that reached its required
        amount is completed, in key order. */
    method AddProgress(target: string, goal: QuestGoalType) returns (calls: seq<Call>)
      requires Valid()
      modifies this`progress, this`completed
      ensures Valid() && keys == old(keys) && failed == old(failed)
      ensures progress == Bumped(old(progress), target, goal)
      ensures completed == old(completed) + Reached(keys, progress, target, goal)
      ensures calls == UpdateCalls(keys, progress, target, goal) + CompleteCalls(Reached(keys, progress, target, goal))
    {
      var p, toComplete, updates := ScanKeys(keys, progress, target, goal);
      progress := p;
      var more := CompleteAll(toComplete);
      calls := updates + more;
    }

    /** `ClaimQuest`: no status guard; a save, the two rewards, the panel
        marked claimed, and the progress entry removed. The pollution
        reward field it also reads is not declared on the quest template,
        so that call is not modelled. */
    method ClaimQuest(q: QuestData) returns (calls: seq<Call>)
      requires Valid()
      modifies this
      ensures Valid() && !HasQuest(q)
      ensures completed == old(completed) && failed == old(failed)
      ensures keys == Without(old(keys), q) && progress == old(progress) - {q}
      ensures calls == [SaveGame, AddXP(q.rewardXP), AddCoins(q.rewardCoins), MarkClaimed(q)]
    {
      calls := [SaveGame, AddXP(q.rewardXP), AddCoins(q.rewardCoins), MarkClaimed(q)];
      progress := progress - {q};
      keys := Without(keys, q);
    }

    /** `FailQuest`: a save first; an untracked quest is then left alone,
        a tracked one is appended to `failed`, its panel marked failed and
        its entry removed. */
    method FailQuest(q: QuestData) returns (calls: seq<Call>)
      requires Valid()
      modifies this
      ensures Valid() && !HasQuest(q) && completed == old(completed)
      ensures old(q !in progress) ==>
                keys == old(keys) && progress == old(progress) && failed == old(failed) && calls == [SaveGame]
      ensures old(q in progress) ==>
                keys == Without(old(keys), q) && progress == old(progress) - {q}
                && failed == old(failed) + [q] && calls == [SaveGame, MarkFailed(q)]
    {
      calls := [SaveGame];
      if q !in progress {
        return;
      }
      failed := failed + [q];
      calls := calls + [MarkFailed(q)];
      progress := progress - {q};
      keys := Without(keys, q);
    }
  }
}
