/** One quest panel (`QuestItem`): the progress counter and the three
    status flags with their guards. Texts, colours and the fade are
    presentation. */
module QuestItems {
  import opened GameData

  /** The three status flags of a panel. */
  datatype ItemFlags = ItemFlags(claimed: bool, completed: bool, failed: bool)

  /** The status-changing calls a panel receives. */
  datatype ItemEvent = Complete | Claim | Fail

  const Cleared := ItemFlags(false, false, false)

  /** What `Setup` establishes and every guarded call keeps: a quest is never
      both completed and failed, and only a completed quest is claimed. */
  predicate Consistent(f: ItemFlags)
  {
    !(f.completed && f.failed) && (f.claimed ==> f.completed)
  }

  /** The guarded flag updates of `MarkCompleted`, `MarkClaimed` and
      `MarkFailed`. */
  function Apply(f: ItemFlags, e: ItemEvent): (r: ItemFlags)
    ensures Consistent(f) ==> Consistent(r)
    // completed and claimed are never taken back
    ensures f.completed ==> r.completed
    ensures f.claimed ==> r.claimed
    // a failed or a claimed quest is terminal
    ensures Consistent(f) && (f.failed || f.claimed) ==> r == f
    // each call sets its own flag exactly when its guard admits it
    ensures e == Complete ==> (r.completed <==> f.completed || !(f.claimed || f.failed))
    ensures e == Claim ==> (r.claimed <==> f.claimed || f.completed)
    ensures e == Fail ==> (r.failed <==> f.failed || !(f.completed || f.claimed))
  {
    match e
    case Complete => if f.claimed || f.failed then f else f.(completed := true)
    case Claim => if !f.completed || f.claimed then f else f.(claimed := true)
    case Fail => if f.completed || f.claimed then f else f.(failed := true)
  }

  function ApplyAll(f: ItemFlags, es: seq<ItemEvent>): ItemFlags
    decreases |es|
  {
    if es == [] then f else ApplyAll(Apply(f, es[0]), es[1..])
  }

  /** From a fresh `Setup`, any sequence of status calls keeps the panel
      consistent. */
  lemma {:induction false} ConsistentForever(f: ItemFlags, es: seq<ItemEvent>)
    requires Consistent(f)
    ensures Consistent(ApplyAll(f, es))
    decreases |es|
  {
    if es != [] {
      ConsistentForever(Apply(f, es[0]), es[1..]);
    }
  }

  /** Once failed, no later call can complete or claim the quest. */
  lemma {:induction false} FailedIsFinal(f: ItemFlags, es: seq<ItemEvent>)
    requires Consistent(f) && f.failed
    ensures ApplyAll(f, es) == f
    decreases |es|
  {
    if es != [] {
      FailedIsFinal(Apply(f, es[0]), es[1..]);
    }
  }

  /** The claim button's listener: it asks for `ClaimQuest` only on a
      completed, unclaimed quest. */
  function ClaimAllowed(f: ItemFlags): (allowed: bool)
    ensures allowed ==> f.completed && !f.claimed
    ensures Consistent(f) && allowed ==> !f.failed
    ensures f.completed && !f.claimed ==> allowed
  {
    !f.claimed && f.completed
  }

  /** What a panel holds: its progress counter and its status flags. */
  datatype Panel = Panel(progress: int, flags: ItemFlags)

  /** The panel prefab as instantiated, before `Setup`. */
  const Prefab := Panel(0, Cleared)

  /** `Setup`: the flags cleared, the counter reset unless restoring. */
  function SetupPanel(p: Panel, isRestore: bool): (r: Panel)
    ensures r.flags == Cleared && Consistent(r.flags)
    ensures r.progress == (if isRestore then p.progress else 0)
  {
    Panel(if isRestore then p.progress else 0, Cleared)
  }

  /** `UpdateProgress`: a completed or failed panel keeps its counter. */
  function ProgressPanel(p: Panel, now: int): (r: Panel)
    ensures r.flags == p.flags
    ensures p.flags.completed || p.flags.failed ==> r == p
    ensures !(p.flags.completed || p.flags.failed) ==> r.progress == now
  {
    if p.flags.completed || p.flags.failed then p else p.(progress := now)
  }

  /** `MarkCompleted`, `MarkClaimed` and `MarkFailed` on a panel whose
      quest needs `required`: the guarded flag update, and a completion
      that gets through fills the counter. */
  function StatusPanel(p: Panel, e: ItemEvent, required: int): (r: Panel)
    ensures r.flags == Apply(p.flags, e)
    ensures e != Complete ==> r.progress == p.progress
    ensures e == Complete && !(p.flags.claimed || p.flags.failed) ==> r.progress == required && r.flags.completed
    ensures e == Complete && (p.flags.claimed || p.flags.failed) ==> r == p
  {
    if e == Complete && !(p.flags.claimed || p.flags.failed) then Panel(required, Apply(p.flags, e))
    else p.(flags := Apply(p.flags, e))
  }

  /** Repeating a status call changes nothing more. */
  lemma StatusIdempotent(p: Panel, e: ItemEvent, required: int)
    ensures StatusPanel(StatusPanel(p, e, required), e, required) == StatusPanel(p, e, required)
  {
  }

  class QuestItem {
    var data: QuestData
    var progress: int
    var claimed: bool
    var completed: bool
    var failed: bool

    function Flags(): ItemFlags
      reads this
    {
      ItemFlags(claimed, completed, failed)
    }

    function Value(): Panel
      reads this
    {
      Panel(progress, Flags())
    }

    /** The instantiated prefab, before `Setup`: flags and progress at their
        defaults. */
    constructor (q: QuestData)
      ensures data == q && Value() == Prefab
    {
      data := q;
      progress := 0;
      claimed := false;
      completed := false;
      failed := false;
    }

    /** `Setup`: binds the quest and clears the flags; the progress counter
        is reset only when not restoring. */
    method Setup(q: QuestData, isRestore: bool)
      modifies this
      ensures data == q && Value() == SetupPanel(old(Value()), isRestore)
    {
      data := q;
      claimed := false;
      completed := false;
      failed := false;
      if !isRestore {
        progress := 0;
      }
    }

    /** `UpdateProgress`: ignored once completed or failed. */
    method UpdateProgress(now: int, max: int)
      modifies this
      ensures data == old(data) && Value() == ProgressPanel(old(Value()), now)
    {
      if completed || failed {
        return;
      }
      progress := now;
    }

    /** `MarkCompleted`: ignored once claimed or failed; otherwise the
        progress jumps to the required amount. */
    method MarkCompleted()
      modifies this
      ensures data == old(data) && Value() == StatusPanel(old(Value()), Complete, data.requiredAmount)
    {
      if claimed || failed {
        return;
      }
      completed := true;
      progress := data.requiredAmount;
    }

    /** `MarkClaimed`: acts only on a completed, unclaimed quest. */
    method MarkClaimed()
      modifies this
      ensures data == old(data) && Value() == StatusPanel(old(Value()), Claim, data.requiredAmount)
    {
      if !completed || claimed {
        return;
      }
      claimed := true;
    }

    /** `MarkFailed`: ignored once completed or claimed. */
    method MarkFailed()
      modifies this
      ensures data == old(data) && Value() == StatusPanel(old(Value()), Fail, data.requiredAmount)
    {
      if completed || claimed {
        return;
      }
      failed := true;
    }

    /** The claim button: whether a click calls `ClaimQuest` for the quest. */
    method ClaimClicked() returns (callsClaim: bool, requested: QuestData)
      ensures callsClaim == ClaimAllowed(Flags()) && requested == data
    {
      callsClaim := !claimed && completed;
      requested := data;
    }
  }
}
