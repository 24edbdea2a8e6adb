/** The quest-giver NPC (`NPCQuestController`): which quest it carries,
    where it returns to, and its two flags, arrived and leaving.

    Navigation is left to the engine: "the agent has reached its
    destination" (`!pathPending && remainingDistance <= stoppingDistance`)
    is the frame's `arrived` input. Animation and the turn towards the
    player are presentation. */
module NpcQuest {
  import opened GameData

  /** What the rest of the game can observe of an NPC. `questToGive` is
      the field of the `QuestTrigger` component next to the controller. */
  datatype NpcView = NpcView(
    questID: string,
    quest: QuestData,
    questToGive: QuestData,
    questPoint: TransformId,
    returnPoint: Option<TransformId>,
    leaving: bool,
    reached: bool)

  /** `IsReadyForInteraction`: standing at the quest point and not on the
      way out. */
  predicate Ready(v: NpcView)
  {
    v.reached && !v.leaving
  }

  /** A freshly instantiated NPC after `Setup`: it carries `q`, returns
      to `spawnPoint`, and has arrived only when placed at the point. */
  function SetupView(q: QuestData, questPoint: TransformId, spawnPoint: Option<TransformId>,
                     alreadyAtPoint: bool): (v: NpcView)
    ensures v.questID == q.questID && v.quest == q && v.questToGive == q
    ensures v.questPoint == questPoint && v.returnPoint == spawnPoint
    ensures !v.leaving
    ensures Ready(v) <==> alreadyAtPoint
  {
    NpcView(q.questID, q, q, questPoint, spawnPoint, false, alreadyAtPoint)
  }

  /** `ArriveAtQuestPoint`: the arrived flag is set, nothing else. */
  function Arrive(v: NpcView): (r: NpcView)
    ensures r.reached && r.leaving == v.leaving
    ensures Ready(r) <==> !v.leaving
    ensures r.(reached := v.reached) == v
  {
    v.(reached := true)
  }

  /** One `Update`: an NPC walking to the quest point arrives there; an NPC
      on its way out that has arrived is gone (the manager's `OnNPCGone`
      is called and the object destroyed). */
  function Frame(v: NpcView, arrived: bool): (r: (NpcView, bool))
    ensures r.1 <==> v.leaving && arrived
    ensures r.0.leaving == v.leaving
    ensures r.0.reached <==> v.reached || (!v.leaving && arrived)
    ensures r.0.(reached := v.reached) == v
    ensures !arrived ==> r == (v, false)
  {
    var v1 := if !v.leaving && !v.reached && arrived then Arrive(v) else v;
    (v1, v1.leaving && arrived)
  }

  /** `LeaveAndDestroy`: the NPC sets off to its return point and is no
      longer ready. */
  function Leave(v: NpcView): (r: NpcView)
    ensures r.leaving && !Ready(r)
    ensures r.(leaving := v.leaving) == v
  {
    v.(leaving := true)
  }

  /** `AssignNextQuest`: the NPC takes the next quest and walks back to the
      quest point, and a departure in progress is cancelled. */
  function Reassign(v: NpcView, next: QuestData): (r: NpcView)
    ensures r.questID == next.questID && r.quest == next && r.questToGive == next
    ensures !r.leaving && !r.reached && !Ready(r)
    ensures r.questPoint == v.questPoint && r.returnPoint == v.returnPoint
  {
    NpcView(next.questID, next, next, v.questPoint, v.returnPoint, false, false)
  }

  /** A reassigned NPC is never removed by the frame it arrives in: it
      becomes ready instead, even if it had been told to leave. */
  lemma ReassignedArrives(v: NpcView, next: QuestData)
    ensures var r := Frame(Reassign(Leave(v), next), true);
            !r.1 && Ready(r.0) && r.0.quest == next
  {
  }

  /** A departing NPC is gone exactly on the first frame it arrives. */
  lemma LeaveThenGone(v: NpcView, arrived: bool)
    ensures Frame(Leave(v), arrived).1 <==> arrived
    ensures !Ready(Frame(Leave(v), arrived).0)
  {
  }

  class NPCQuestController {
    var currentQuestID: string
    var quest: QuestData
    var questPoint: TransformId
    var returnPoint: Option<TransformId>
    var questToGive: QuestData
    var isLeaving: bool
    var hasReachedQuestPoint: bool

    function View(): NpcView
      reads this
    {
      NpcView(currentQuestID, quest, questToGive, questPoint, returnPoint, isLeaving, hasReachedQuestPoint)
    }

    /** The prefab instantiated and then `Setup`: both flags start at
        their defaults, and an NPC placed at the point arrives at once. */
    constructor Setup(q: QuestData, questPoint: TransformId, spawnPoint: Option<TransformId>, alreadyAtPoint: bool)
      ensures View() == SetupView(q, questPoint, spawnPoint, alreadyAtPoint)
    {
      currentQuestID := q.questID;
      quest := q;
      this.questPoint := questPoint;
      returnPoint := spawnPoint;
      questToGive := q;
      isLeaving := false;
      hasReachedQuestPoint := false;
      new;
      if alreadyAtPoint {
        ArriveAtQuestPoint();
      }
    }

    function IsReadyForInteraction(): (ready: bool)
      reads this
      ensures ready <==> Ready(View())
    {
      hasReachedQuestPoint && !isLeaving
    }

    /** The point the NPC walks back to when it leaves. */
    function GetReturnPoint(): (p: Option<TransformId>)
      reads this
      ensures p == View().returnPoint
    {
      returnPoint
    }

    /** `Update` on one frame; `gone` says the manager is told the NPC is
        gone and the NPC is destroyed. */
    method Update(arrived: bool) returns (gone: bool)
      modifies this
      ensures (View(), gone) == Frame(old(View()), arrived)
    {
      gone := false;
      if !isLeaving && !hasReachedQuestPoint {
        if arrived {
          ArriveAtQuestPoint();
        }
      }
      if isLeaving && arrived {
        gone := true;
      }
    }

    method ArriveAtQuestPoint()
      modifies this
      ensures View() == Arrive(old(View()))
    {
      hasReachedQuestPoint := true;
    }

    method LeaveAndDestroy()
      modifies this
      ensures View() == Leave(old(View()))
    {
      isLeaving := true;
    }

    method AssignNextQuest(nextQuest: QuestData)
      modifies this
      ensures View() == Reassign(old(View()), nextQuest)
    {
      quest := nextQuest;
      currentQuestID := nextQuest.questID;
      questToGive := nextQuest;
      hasReachedQuestPoint := false;
      isLeaving := false;
    }
  }
}
