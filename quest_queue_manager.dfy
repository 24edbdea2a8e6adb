/** The quest queue dispatcher (`QuestQueueManager`): a fixed quest order,
    one spawn point per quest, at most one live quest NPC, and an index
    into the order.

    Instantiating the NPC prefab and calling `Setup` on it is the
    `NPCQuestController.Setup` constructor; destroying an NPC drops the
    manager's reference to it. A list indexer that would throw (an index
    below zero) or an `Instantiate` of a missing prefab ends the call at
    that point, so the model keeps the state reached there. The
    `OnNPCSpawned` and `OnNPCRemoved` events are the spawned NPC returned
    by `TrySpawnNext` and the change of `activeNPC` to null. */
module QuestQueue {
  import opened GameData
  import opened NpcQuest

  /** The inspector settings of the manager, fixed at run time. */
  datatype QueueConfig = QueueConfig(
    difficulty: QuestDifficulty,
    questOrder: seq<QuestData>,
    spawnPoints: seq<Option<TransformId>>,
    questPoint: TransformId,
    reuseSameNPC: bool)

  /** The mutable state: `currentIndex`, the live NPC if any, and
      `restoredFromSave`. */
  datatype QueueState = QueueState(index: int, npc: Option<NpcView>, restoring: bool)

  /** `CanSpawnByLevel`: Easy from level 1, Medium from 3, Hard from 5. */
  function CanSpawnByLevel(d: QuestDifficulty, level: int): (ok: bool)
    ensures ok ==> level >= 1
    ensures level >= 5 ==> ok
    ensures d == Easy ==> (ok <==> level >= 1)
    ensures d == Medium ==> (ok <==> level >= 3)
    ensures d == Hard ==> (ok <==> level >= 5)
  {
    match d
    case Easy => level >= 1
    case Medium => level >= 3
    case Hard => level >= 5
  }

  /** The gate only ever opens as the level rises, and a harder queue opens
      no earlier than an easier one. */
  lemma LevelGateMonotone(d: QuestDifficulty, level: int, higher: int)
    requires level <= higher && CanSpawnByLevel(d, level)
    ensures CanSpawnByLevel(d, higher)
    ensures CanSpawnByLevel(Hard, level) ==> CanSpawnByLevel(Medium, level)
    ensures CanSpawnByLevel(Medium, level) ==> CanSpawnByLevel(Easy, level)
  {
  }

  /** `CanReuseNPC` for the live NPC `v`: reuse switched on, the next quest
      not forcing a new NPC, and both quests naming the same NPC prefab. */
  function CanReuseNPC(c: QueueConfig, v: NpcView, next: QuestData): (ok: bool)
    ensures ok ==> c.reuseSameNPC && !next.forceNewNPC
    ensures ok <==> c.reuseSameNPC && !next.forceNewNPC && v.questToGive.npcPrefab == next.npcPrefab
  {
    c.reuseSameNPC && !next.forceNewNPC && v.questToGive.npcPrefab == next.npcPrefab
  }

  /** When `TrySpawnNext` returns without spawning: restoring, the level
      gate shut, an NPC live, the order exhausted, no spawn point for the
      index, or (the call throwing) an index below zero or a quest without
      an NPC prefab. */
  predicate SpawnBlocked(c: QueueConfig, s: QueueState, level: int)
  {
    s.restoring || !CanSpawnByLevel(c.difficulty, level) || s.npc.Some?
    || s.index >= |c.questOrder| || s.index >= |c.spawnPoints| || s.index < 0
    || c.spawnPoints[s.index].None? || c.questOrder[s.index].npcPrefab.None?
  }

  /** `TrySpawnNext`. */
  function SpawnNext(c: QueueConfig, s: QueueState, level: int): (r: QueueState)
    ensures SpawnBlocked(c, s, level) ==> r == s
    ensures !SpawnBlocked(c, s, level) ==>
              && 0 <= s.index < |c.questOrder|
              && r.index == s.index + 1 && r.restoring == s.restoring
              && r.npc == Some(SetupView(c.questOrder[s.index], c.questPoint, c.spawnPoints[s.index], false))
    // an NPC is only ever created while none is live
    ensures r.npc.Some? && r != s ==> s.npc.None?
    ensures s.npc.Some? || s.restoring ==> r == s
  {
    if SpawnBlocked(c, s, level) then s
    else
      QueueState(s.index + 1,
                 Some(SetupView(c.questOrder[s.index], c.questPoint, c.spawnPoints[s.index], false)),
                 s.restoring)
  }

  /** `OnQuestFinished`: with the order exhausted or the next quest needing
      a different NPC the live NPC leaves; otherwise it takes the next
      quest and the index moves on. */
  function QuestFinished(c: QueueConfig, s: QueueState): (r: QueueState)
    ensures r.restoring == s.restoring
    ensures s.npc.None? || s.index < 0 ==> r == s
    ensures s.npc.Some? && s.index >= |c.questOrder| ==>
              r == s.(npc := Some(Leave(s.npc.value)))
    ensures s.npc.Some? && 0 <= s.index < |c.questOrder| ==>
              var next := c.questOrder[s.index];
              if CanReuseNPC(c, s.npc.value, next)
              then r == QueueState(s.index + 1, Some(Reassign(s.npc.value, next)), s.restoring)
              else r == s.(npc := Some(Leave(s.npc.value)))
  {
    if s.npc.None? then s
    else if s.index >= |c.questOrder| then s.(npc := Some(Leave(s.npc.value)))
    else if s.index < 0 then s
    else
      var next := c.questOrder[s.index];
      if CanReuseNPC(c, s.npc.value, next) then
        QueueState(s.index + 1, Some(Reassign(s.npc.value, next)), s.restoring)
      else s.(npc := Some(Leave(s.npc.value)))
  }

  /** `OnNPCGone`. */
  function NPCGone(s: QueueState): (r: QueueState)
    ensures r.npc.None? && r.index == s.index && r.restoring == s.restoring
  {
    s.(npc := None)
  }

  /** `questOrder.Find`: the first quest with the given ID. */
  function FindQuest(qs: seq<QuestData>, id: string): (r: Option<QuestData>)
    ensures r.Some? ==> r.value in qs && r.value.questID == id
    ensures r.None? <==> forall q :: q in qs ==> q.questID != id
    ensures r.Some? ==> exists i :: 0 <= i < |qs| && qs[i] == r.value && forall j :: 0 <= j < i ==> qs[j].questID != id
  {
    if qs == [] then None
    else if qs[0].questID == id then
      Some(qs[0])
    else
      var r := FindQuest(qs[1..], id);
      if r.Some? then
        assert exists i :: 0 <= i < |qs| && qs[i] == r.value && forall j :: 0 <= j < i ==> qs[j].questID != id by {
          var i :| 0 <= i < |qs[1..]| && qs[1..][i] == r.value && forall j :: 0 <= j < i ==> qs[1..][j].questID != id;
          assert qs[i + 1] == r.value;
          forall j | 0 <= j < i + 1
            ensures qs[j].questID != id
          {
            if j > 0 {
              assert qs[j] == qs[1..][j - 1];
            }
          }
        }
        r
      else
        r
  }

  /** `List.IndexOf`: the first index holding `x`, or -1. */
  function IndexOf<T(==)>(s: seq<T>, x: T): (r: int)
    ensures -1 <= r < |s|
    ensures r == -1 <==> x !in s
    ensures r >= 0 ==> s[r] == x && x !in s[..r]
  {
    if s == [] then -1
    else if s[0] == x then 0
    else
      var r := IndexOf(s[1..], x);
      if r == -1 then -1
      else
        assert s[..r + 1] == [s[0]] + s[1..][..r];
        r + 1
  }

  /** The return point an NPC restored from a save walks back to: the
      recorded spawn point when the index is in range, else the quest
      point. */
  function ReturnPointFor(c: QueueConfig, returnIndex: int): (p: Option<TransformId>)
    ensures 0 <= returnIndex < |c.spawnPoints| ==> p == c.spawnPoints[returnIndex]
    ensures !(0 <= returnIndex < |c.spawnPoints|) ==> p == Some(c.questPoint)
  {
    if 0 <= returnIndex < |c.spawnPoints| then c.spawnPoints[returnIndex] else Some(c.questPoint)
  }

  /** `RestoreFromSave`: the live NPC is destroyed and the index taken from
      the save. Without a recorded NPC the flag is cleared; an ID naming no
      quest of the order returns with the flag still set; otherwise the NPC
      is recreated at the quest point, already arrived, and the flag is
      cleared. */
  function Restore(c: QueueConfig, index: int, questID: string, hasNPC: bool, returnIndex: int): (r: QueueState)
    ensures r.index == index
    ensures !hasNPC || questID == "" ==> r == QueueState(index, None, false)
    ensures hasNPC && questID != "" && FindQuest(c.questOrder, questID).None? ==> r == QueueState(index, None, true)
    ensures r.npc.Some? <==> (hasNPC && questID != "" && FindQuest(c.questOrder, questID).Some?
                              && FindQuest(c.questOrder, questID).value.npcPrefab.Some?)
    ensures r.npc.Some? ==> !r.restoring && r.npc.value.quest.questID == questID && Ready(r.npc.value)
                            && r.npc.value.returnPoint == ReturnPointFor(c, returnIndex)
  {
    if !hasNPC || questID == "" then QueueState(index, None, false)
    else
      var q := FindQuest(c.questOrder, questID);
      if q.None? || q.value.npcPrefab.None? then QueueState(index, None, true)
      else QueueState(index, Some(SetupView(q.value, c.questPoint, ReturnPointFor(c, returnIndex), true)), false)
  }

  /** `GetActiveReturnPointIndex`: -1 without a live NPC, else the first
      spawn point equal to its return point, or -1. */
  function ReturnPointIndex(c: QueueConfig, s: QueueState): (r: int)
    ensures s.npc.None? ==> r == -1
    ensures s.npc.Some? ==> (r == -1 <==> s.npc.value.returnPoint !in c.spawnPoints)
    ensures r >= 0 ==> s.npc.Some? && r < |c.spawnPoints| && c.spawnPoints[r] == s.npc.value.returnPoint
  {
    if s.npc.None? then -1 else IndexOf(c.spawnPoints, s.npc.value.returnPoint)
  }

  /** `ResetQueue`. */
  const Initial := QueueState(0, None, false)

  // ------------------------------------------------------------ runs

  /** What can happen to the queue between two saves: a spawn attempt at a
      player level, a finished quest, or a frame of the live NPC. */
  datatype QueueEvent = TrySpawn(level: int) | Finished | NpcFrame(arrived: bool)

  /** One event; an NPC frame that reports the NPC gone calls `OnNPCGone`. */
  function Step(c: QueueConfig, s: QueueState, e: QueueEvent): QueueState
  {
    match e
    case TrySpawn(level) => SpawnNext(c, s, level)
    case Finished => QuestFinished(c, s)
    case NpcFrame(arrived) =>
      if s.npc.None? then s
      else
        var (v, gone) := Frame(s.npc.value, arrived);
        if gone then NPCGone(s) else s.(npc := Some(v))
  }

  function Run(c: QueueConfig, s: QueueState, es: seq<QueueEvent>): QueueState
    decreases |es|
  {
    if es == [] then s else Run(c, Step(c, s, es[0]), es[1..])
  }

  /** The index is a position in the quest order or one past its end. */
  predicate InRange(c: QueueConfig, s: QueueState)
  {
    0 <= s.index <= |c.questOrder|
  }

  /** A single event moves the index by at most one, forward, and only
      from a position inside the order. */
  lemma StepIndex(c: QueueConfig, s: QueueState, e: QueueEvent)
    ensures var t := Step(c, s, e);
            && s.index <= t.index <= s.index + 1
            && (t.index == s.index + 1 ==> 0 <= s.index < |c.questOrder|)
            && t.restoring == s.restoring
            && (InRange(c, s) ==> InRange(c, t))
  {
  }

  /** Outside a restore the index never decreases, never passes the end of
      the order, and grows by at most one per event. */
  lemma {:induction false} RunIndex(c: QueueConfig, s: QueueState, es: seq<QueueEvent>)
    requires InRange(c, s)
    ensures InRange(c, Run(c, s, es))
    ensures s.index <= Run(c, s, es).index <= s.index + |es|
    decreases |es|
  {
    if es != [] {
      StepIndex(c, s, es[0]);
      RunIndex(c, Step(c, s, es[0]), es[1..]);
    }
  }

  /** A queue left restoring without an NPC ignores every later event. */
  lemma {:induction false} RestoringFreezes(c: QueueConfig, s: QueueState, es: seq<QueueEvent>)
    requires s.restoring && s.npc.None?
    ensures Run(c, s, es) == s
    decreases |es|
  {
    if es != [] {
      assert Step(c, s, es[0]) == s;
      RestoringFreezes(c, s, es[1..]);
    }
  }

  /** Restoring with an ID that names no quest of the order leaves the flag
      set, so no NPC is spawned again until `ResetQueue`. */
  lemma RestoreUnknownBlocks(c: QueueConfig, index: int, questID: string, returnIndex: int, es: seq<QueueEvent>)
    requires questID != "" && FindQuest(c.questOrder, questID).None?
    ensures var r := Restore(c, index, questID, true, returnIndex);
            r.restoring && Run(c, r, es) == r && Run(c, r, es).npc.None?
  {
    RestoringFreezes(c, Restore(c, index, questID, true, returnIndex), es);
  }

  /** Saving the index, the live NPC's quest ID and its return-point index,
      then restoring them, gives back the index and an NPC with the same
      quest and return point, standing ready at the quest point. */
  lemma SaveRestoreRoundTrip(c: QueueConfig, s: QueueState)
    requires s.npc.Some? && s.npc.value.questID != ""
    requires s.npc.value.questID == s.npc.value.quest.questID
    requires s.npc.value.quest in c.questOrder && s.npc.value.quest.npcPrefab.Some?
    requires forall q :: q in c.questOrder && q.questID == s.npc.value.questID ==> q == s.npc.value.quest
    requires s.npc.value.returnPoint in c.spawnPoints
    ensures var r := Restore(c, s.index, s.npc.value.questID, true, ReturnPointIndex(c, s));
            && r.index == s.index && !r.restoring && r.npc.Some?
            && r.npc.value.quest == s.npc.value.quest
            && r.npc.value.returnPoint == s.npc.value.returnPoint
            && Ready(r.npc.value)
  {
  }

  class QuestQueueManager {
    const difficulty: QuestDifficulty
    const questOrder: seq<QuestData>
    const spawnPoints: seq<Option<TransformId>>
    const questPoint: TransformId
    const reuseSameNPC: bool
    var restoredFromSave: bool
    var currentIndex: int
    var activeNPC: NPCQuestController?

    function Config(): QueueConfig
    {
      QueueConfig(difficulty, questOrder, spawnPoints, questPoint, reuseSameNPC)
    }

    function State(): QueueState
      reads this, activeNPC
    {
      QueueState(currentIndex, if activeNPC == null then None else Some(activeNPC.View()), restoredFromSave)
    }

    /** The manager as placed in the scene, with the inspector settings. */
    constructor (difficulty: QuestDifficulty, questOrder: seq<QuestData>, spawnPoints: seq<Option<TransformId>>,
                 questPoint: TransformId, reuseSameNPC: bool)
      ensures Config() == QueueConfig(difficulty, questOrder, spawnPoints, questPoint, reuseSameNPC)
      ensures State() == Initial
    {
      this.difficulty := difficulty;
      this.questOrder := questOrder;
      this.spawnPoints := spawnPoints;
      this.questPoint := questPoint;
      this.reuseSameNPC := reuseSameNPC;
      restoredFromSave := false;
      currentIndex := 0;
      activeNPC := null;
    }

    function HasActiveNPC(): (live: bool)
      reads this
      ensures live <==> activeNPC != null
    {
      activeNPC != null
    }

    /** `ActiveQuestID`: the live NPC's quest ID, or empty. */
    function ActiveQuestID(): (id: string)
      reads this, activeNPC
      ensures id == if State().npc.Some? then State().npc.value.questID else ""
    {
      if activeNPC != null then activeNPC.currentQuestID else ""
    }

    method TrySpawnNext(playerLevel: int) returns (spawned: NPCQuestController?)
      modifies this
      ensures State() == SpawnNext(Config(), old(State()), playerLevel)
      ensures spawned != null <==> !SpawnBlocked(Config(), old(State()), playerLevel)
      ensures spawned != null ==> fresh(spawned) && activeNPC == spawned
      ensures spawned == null ==> activeNPC == old(activeNPC)
    {
      spawned := null;
      if restoredFromSave {
        return;
      }
      if !CanSpawnByLevel(difficulty, playerLevel) {
        return;
      }
      if activeNPC != null {
        return;
      }
      if currentIndex >= |questOrder| {
        return;
      }
      if currentIndex >= |spawnPoints| {
        return;
      }
      if currentIndex < 0 {
        return;
      }
      var q := questOrder[currentIndex];
      var spawn := spawnPoints[currentIndex];
      if spawn.None? {
        return;
      }
      if q.npcPrefab.None? {
        return;
      }
      activeNPC := new NPCQuestController.Setup(q, questPoint, spawn, false);
      spawned := activeNPC;
      currentIndex := currentIndex + 1;
    }

    method OnQuestFinished()
      modifies this, activeNPC
      ensures activeNPC == old(activeNPC)
      ensures State() == QuestFinished(Config(), old(State()))
    {
      if activeNPC == null {
        return;
      }
      if currentIndex >= |questOrder| {
        activeNPC.LeaveAndDestroy();
        return;
      }
      if currentIndex < 0 {
        return;
      }
      var next := questOrder[currentIndex];
      if reuseSameNPC && !next.forceNewNPC && activeNPC.questToGive.npcPrefab == next.npcPrefab {
        activeNPC.AssignNextQuest(next);
        currentIndex := currentIndex + 1;
      } else {
        activeNPC.LeaveAndDestroy();
      }
    }

    method OnNPCGone()
      modifies this
      ensures State() == NPCGone(old(State()))
    {
      activeNPC := null;
    }

    method RestoreFromSave(index: int, questID: string, hasNPC: bool, returnIndex: int)
      modifies this
      ensures State() == Restore(Config(), index, questID, hasNPC, returnIndex)
      ensures activeNPC != null ==> fresh(activeNPC)
    {
      restoredFromSave := true;
      activeNPC := null;
      currentIndex := index;
      if !hasNPC || questID == "" {
        restoredFromSave := false;
        return;
      }
      var q := FindQuest(questOrder, questID);
      if q.None? {
        return;
      }
      var returnPoint := if 0 <= returnIndex < |spawnPoints| then spawnPoints[returnIndex] else Some(questPoint);
      if q.value.npcPrefab.None? {
        return;
      }
      activeNPC := new NPCQuestController.Setup(q.value, questPoint, returnPoint, true);
      restoredFromSave := false;
    }

    function GetActiveReturnPointIndex(): (r: int)
      reads this, activeNPC
      ensures activeNPC == null ==> r == -1
      ensures activeNPC != null ==> (r == -1 <==> activeNPC.returnPoint !in spawnPoints)
      ensures r >= 0 ==> activeNPC != null && r < |spawnPoints| && spawnPoints[r] == activeNPC.returnPoint
    {
      if activeNPC == null then -1 else IndexOf(spawnPoints, activeNPC.GetReturnPoint())
    }

    method ResetQueue()
      modifies this
      ensures State() == Initial
    {
      activeNPC := null;
      currentIndex := 0;
      restoredFromSave := false;
    }
  }
}
