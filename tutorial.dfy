/** The tutorial sequencer (`TutorialManager`): a closed set of steps, two
    remembered quest IDs, one guarded handler per tutorial event, and the
    save record round trip. The guide arrows and narrative panel that
    `StartStep` drives are presentation; only the narrative text is kept,
    as a pure function of the entered state. */
module Tutorial {
  import G = GameData

  datatype TutorialStep =
    | None | Move | OpenQuest | BuySeed | ReachPlot | Plant | Water | Refill
    | TreeGrow | TreeShake | PickupFruit | OpenInventory | SellFruit
    | ClaimQuest | InteractNPC | Finished

  /** The event alphabet of `TutorialEvents`; the two parameterised events
      carry the quest ID of the NPC talked to or the quest claimed. */
  datatype TutorialEvent =
    | OnMove | OnInteractNPC(npcQuestID: string) | OnClaimQuest(claimQuestID: string)
    | OnOpenQuest | OnBuySeed | OnReachPlot | OnPlant | OnWater | OnRefill
    | OnTreeGrow | OnTreeShake | OnPickupFruit | OnOpenInventory | OnSellFruit

  /** `currentStep` with the two remembered IDs (null is `None`). */
  datatype TutorialState = TutorialState(
    step: TutorialStep,
    expectedNPC: G.Option<string>,
    expectedClaim: G.Option<string>)

  /** The save record `TutorialSaveData`. */
  datatype TutorialSaveData = TutorialSaveData(
    currentStep: TutorialStep,
    expectedNPCQuestID: G.Option<string>,
    expectedClaimQuestID: G.Option<string>,
    isFinished: bool)

  /** The step each handler waits for before it does anything. */
  function AwaitedStep(e: TutorialEvent): TutorialStep
  {
    match e
    case OnMove => Move
    case OnInteractNPC(_) => InteractNPC
    case OnClaimQuest(_) => ClaimQuest
    case OnOpenQuest => OpenQuest
    case OnBuySeed => BuySeed
    case OnReachPlot => ReachPlot
    case OnPlant => Plant
    case OnWater => Water
    case OnRefill => Refill
    case OnTreeGrow => TreeGrow
    case OnTreeShake => TreeShake
    case OnPickupFruit => PickupFruit
    case OnOpenInventory => OpenInventory
    case OnSellFruit => SellFruit
  }

  /** The handler table: what each `Handle*` method does to the state. */
  function Transition(s: TutorialState, e: TutorialEvent): (r: TutorialState)
    // every handler is inert outside its own step
    ensures s.step != AwaitedStep(e) ==> r == s
    // the parameterised handlers also need the remembered ID
    ensures e.OnInteractNPC? && s.expectedNPC != G.Some(e.npcQuestID) ==> r == s
    ensures e.OnClaimQuest? && s.expectedClaim != G.Some(e.claimQuestID) ==> r == s
    // no handler leaves from Finished or None, and none enters None
    ensures s.step in {Finished, None} ==> r == s
    ensures r.step == None ==> s.step == None
    // only claiming E4 finishes the tutorial
    ensures r.step == Finished && s.step != Finished ==> e == OnClaimQuest("E4")
  {
    if s.step != AwaitedStep(e) then s
    else match e
      case OnMove => TutorialState(InteractNPC, G.Some("E1"), s.expectedClaim)
      case OnInteractNPC(id) =>
        if s.expectedNPC != G.Some(id) then s
        else if id == "E1" then s.(step := OpenQuest)
        else if id == "E2" then s.(step := ReachPlot)
        else if id == "E3" then s.(step := TreeShake)
        else if id == "E4" then s.(step := OpenInventory)
        else s
      case OnClaimQuest(id) =>
        if s.expectedClaim != G.Some(id) then s
        else if id == "E1" then TutorialState(InteractNPC, G.Some("E2"), s.expectedClaim)
        else if id == "E2" then TutorialState(InteractNPC, G.Some("E3"), s.expectedClaim)
        else if id == "E3" then TutorialState(InteractNPC, G.Some("E4"), s.expectedClaim)
        else if id == "E4" then s.(step := Finished)
        else s
      case OnOpenQuest => s.(step := BuySeed)
      case OnBuySeed => TutorialState(ClaimQuest, s.expectedNPC, G.Some("E1"))
      case OnReachPlot => s.(step := Plant)
      case OnPlant => s.(step := Water)
      case OnWater => s.(step := Refill)
      case OnRefill => s.(step := TreeGrow)
      case OnTreeGrow => TutorialState(ClaimQuest, s.expectedNPC, G.Some("E2"))
      case OnTreeShake => s.(step := PickupFruit)
      case OnPickupFruit => TutorialState(ClaimQuest, s.expectedNPC, G.Some("E3"))
      case OnOpenInventory => s.(step := SellFruit)
      case OnSellFruit => TutorialState(ClaimQuest, s.expectedNPC, G.Some("E4"))
  }

  /** Delivering a sequence of events in order. */
  function Run(s: TutorialState, es: seq<TutorialEvent>): TutorialState
    decreases |es|
  {
    if es == [] then s else Run(Transition(s, es[0]), es[1..])
  }

  lemma InteractBranches(s: TutorialState, id: string)
    requires s.step == InteractNPC && s.expectedNPC == G.Some(id)
    ensures id == "E1" ==> Transition(s, OnInteractNPC(id)).step == OpenQuest
    ensures id == "E2" ==> Transition(s, OnInteractNPC(id)).step == ReachPlot
    ensures id == "E3" ==> Transition(s, OnInteractNPC(id)).step == TreeShake
    ensures id == "E4" ==> Transition(s, OnInteractNPC(id)).step == OpenInventory
    ensures id !in {"E1", "E2", "E3", "E4"} ==> Transition(s, OnInteractNPC(id)) == s
  {
  }

  lemma ClaimBranches(s: TutorialState, id: string)
    requires s.step == ClaimQuest && s.expectedClaim == G.Some(id)
    ensures id == "E1" ==> Transition(s, OnClaimQuest(id)) == TutorialState(InteractNPC, G.Some("E2"), s.expectedClaim)
    ensures id == "E2" ==> Transition(s, OnClaimQuest(id)) == TutorialState(InteractNPC, G.Some("E3"), s.expectedClaim)
    ensures id == "E3" ==> Transition(s, OnClaimQuest(id)) == TutorialState(InteractNPC, G.Some("E4"), s.expectedClaim)
    ensures id == "E4" ==> Transition(s, OnClaimQuest(id)) == s.(step := Finished)
  {
  }

  /** The four claim-arming handlers and the move handler. */
  lemma ArmingHandlers(s: TutorialState)
    ensures s.step == BuySeed ==> Transition(s, OnBuySeed) == TutorialState(ClaimQuest, s.expectedNPC, G.Some("E1"))
    ensures s.step == TreeGrow ==> Transition(s, OnTreeGrow) == TutorialState(ClaimQuest, s.expectedNPC, G.Some("E2"))
    ensures s.step == PickupFruit ==> Transition(s, OnPickupFruit) == TutorialState(ClaimQuest, s.expectedNPC, G.Some("E3"))
    ensures s.step == SellFruit ==> Transition(s, OnSellFruit) == TutorialState(ClaimQuest, s.expectedNPC, G.Some("E4"))
    ensures s.step == Move ==> Transition(s, OnMove) == TutorialState(InteractNPC, G.Some("E1"), s.expectedClaim)
  {
  }

  /** Finished and None absorb every sequence of events. */
  lemma {:induction false} Absorbing(s: TutorialState, es: seq<TutorialEvent>)
    requires s.step == Finished || s.step == None
    ensures Run(s, es) == s
    decreases |es|
  {
    if es != [] {
      Absorbing(Transition(s, es[0]), es[1..]);
    }
  }

  /** An event delivered out of turn changes nothing, so replaying an
      event the sequencer already consumed is harmless: for instance a
      duplicate move while the sequencer waits for the first NPC. */
  lemma DuplicateMoveIgnored(s: TutorialState)
    requires s.step == Move
    ensures Run(s, [OnMove, OnMove]) == Transition(s, OnMove)
  {
    var t := Transition(s, OnMove);
    assert Run(t, [OnMove]) == Run(Transition(t, OnMove), []);
  }

  /** The twenty events of the complete tutorial, in order. */
  function HappyPath(): seq<TutorialEvent>
  {
    [OnMove, OnInteractNPC("E1"), OnOpenQuest, OnBuySeed, OnClaimQuest("E1"),
     OnInteractNPC("E2"), OnReachPlot, OnPlant, OnWater, OnRefill, OnTreeGrow, OnClaimQuest("E2"),
     OnInteractNPC("E3"), OnTreeShake, OnPickupFruit, OnClaimQuest("E3"),
     OnInteractNPC("E4"), OnOpenInventory, OnSellFruit, OnClaimQuest("E4")]
  }

  lemma {:induction false} RunAppend(s: TutorialState, a: seq<TutorialEvent>, b: seq<TutorialEvent>)
    ensures Run(s, a + b) == Run(Run(s, a), b)
    decreases |a|
  {
    if a == [] {
      assert a + b == b;
    } else {
      assert (a + b)[1..] == a[1..] + b;
      RunAppend(Transition(s, a[0]), a[1..], b);
    }
  }

  /** A run through states each of which the event before it leads to
      ends in the last of them. */
  lemma {:induction false} RunSteps(s: TutorialState, es: seq<TutorialEvent>, ts: seq<TutorialState>)
    requires |ts| == |es| > 0
    requires Transition(s, es[0]) == ts[0]
    requires forall i :: 0 < i < |es| ==> Transition(ts[i - 1], es[i]) == ts[i]
    ensures Run(s, es) == ts[|es| - 1]
    decreases |es|
  {
    if |es| > 1 {
      RunSteps(ts[0], es[1..], ts[1..]);
    }
  }

  /** Move through the first claim. */
  lemma FirstQuest(npc: G.Option<string>, claim: G.Option<string>)
    ensures Run(TutorialState(Move, npc, claim), [OnMove, OnInteractNPC("E1"), OnOpenQuest, OnBuySeed, OnClaimQuest("E1")]) == TutorialState(InteractNPC, G.Some("E2"), G.Some("E1"))
  {
    var s1 := TutorialState(InteractNPC, G.Some("E1"), claim);
    var s2 := s1.(step := OpenQuest);
    var s3 := s1.(step := BuySeed);
    var s4 := TutorialState(ClaimQuest, G.Some("E1"), G.Some("E1"));
    var s5 := TutorialState(InteractNPC, G.Some("E2"), G.Some("E1"));
    assert Transition(s1, OnInteractNPC("E1")) == s2;
    assert Transition(s4, OnClaimQuest("E1")) == s5;
    RunSteps(TutorialState(Move, npc, claim), [OnMove, OnInteractNPC("E1"), OnOpenQuest, OnBuySeed, OnClaimQuest("E1")],
             [s1, s2, s3, s4, s5]);
  }

  /** The second NPC sends the player to the plot to plant. */
  lemma PlotChapter()
    ensures Run(TutorialState(InteractNPC, G.Some("E2"), G.Some("E1")), [OnInteractNPC("E2"), OnReachPlot, OnPlant]) == TutorialState(Water, G.Some("E2"), G.Some("E1"))
  {
    var s0 := TutorialState(InteractNPC, G.Some("E2"), G.Some("E1"));
    assert Transition(s0, OnInteractNPC("E2")) == s0.(step := ReachPlot);
    RunSteps(s0, [OnInteractNPC("E2"), OnReachPlot, OnPlant],
             [s0.(step := ReachPlot), s0.(step := Plant), s0.(step := Water)]);
  }

  /** Watering, refilling and growing, up to the second claim. */
  lemma GrowChapter()
    ensures Run(TutorialState(Water, G.Some("E2"), G.Some("E1")), [OnWater, OnRefill, OnTreeGrow, OnClaimQuest("E2")]) == TutorialState(InteractNPC, G.Some("E3"), G.Some("E2"))
  {
    var s0 := TutorialState(Water, G.Some("E2"), G.Some("E1"));
    var s3 := TutorialState(ClaimQuest, G.Some("E2"), G.Some("E2"));
    var s4 := TutorialState(InteractNPC, G.Some("E3"), G.Some("E2"));
    assert Transition(s3, OnClaimQuest("E2")) == s4;
    RunSteps(s0, [OnWater, OnRefill, OnTreeGrow, OnClaimQuest("E2")],
             [s0.(step := Refill), s0.(step := TreeGrow), s3, s4]);
  }

  /** The harvesting chapter, up to the third claim. */
  lemma HarvestChapter()
    ensures Run(TutorialState(InteractNPC, G.Some("E3"), G.Some("E2")), [OnInteractNPC("E3"), OnTreeShake, OnPickupFruit, OnClaimQuest("E3")]) == TutorialState(InteractNPC, G.Some("E4"), G.Some("E3"))
  {
    var s0 := TutorialState(InteractNPC, G.Some("E3"), G.Some("E2"));
    var s3 := TutorialState(ClaimQuest, G.Some("E3"), G.Some("E3"));
    var s4 := TutorialState(InteractNPC, G.Some("E4"), G.Some("E3"));
    assert Transition(s0, OnInteractNPC("E3")) == s0.(step := TreeShake);
    assert Transition(s3, OnClaimQuest("E3")) == s4;
    RunSteps(s0, [OnInteractNPC("E3"), OnTreeShake, OnPickupFruit, OnClaimQuest("E3")],
             [s0.(step := TreeShake), s0.(step := PickupFruit), s3, s4]);
  }

  /** The selling chapter, up to the last claim. */
  lemma SellingChapter()
    ensures Run(TutorialState(InteractNPC, G.Some("E4"), G.Some("E3")), [OnInteractNPC("E4"), OnOpenInventory, OnSellFruit, OnClaimQuest("E4")]) == TutorialState(Finished, G.Some("E4"), G.Some("E4"))
  {
    var s0 := TutorialState(InteractNPC, G.Some("E4"), G.Some("E3"));
    var s3 := TutorialState(ClaimQuest, G.Some("E4"), G.Some("E4"));
    assert Transition(s0, OnInteractNPC("E4")) == s0.(step := OpenInventory);
    assert Transition(s3, OnClaimQuest("E4")) == s3.(step := Finished);
    RunSteps(s0, [OnInteractNPC("E4"), OnOpenInventory, OnSellFruit, OnClaimQuest("E4")],
             [s0.(step := OpenInventory), s0.(step := SellFruit), s3, s3.(step := Finished)]);
  }

  /** Starting at Move, whatever the remembered IDs, the complete event
      sequence finishes the tutorial. */
  lemma HappyPathFinishes(npc: G.Option<string>, claim: G.Option<string>)
    ensures |HappyPath()| == 20
    ensures Run(TutorialState(Move, npc, claim), HappyPath()) == TutorialState(Finished, G.Some("E4"), G.Some("E4"))
  {
    var p1 := [OnMove, OnInteractNPC("E1"), OnOpenQuest, OnBuySeed, OnClaimQuest("E1")];
    var p2 := [OnInteractNPC("E2"), OnReachPlot, OnPlant];
    var p3 := [OnWater, OnRefill, OnTreeGrow, OnClaimQuest("E2")];
    var p4 := [OnInteractNPC("E3"), OnTreeShake, OnPickupFruit, OnClaimQuest("E3")];
    var p5 := [OnInteractNPC("E4"), OnOpenInventory, OnSellFruit, OnClaimQuest("E4")];
    assert HappyPath() == p1 + (p2 + (p3 + (p4 + p5)));
    var s0 := TutorialState(Move, npc, claim);
    var s1 := TutorialState(InteractNPC, G.Some("E2"), G.Some("E1"));
    var s2 := TutorialState(Water, G.Some("E2"), G.Some("E1"));
    var s3 := TutorialState(InteractNPC, G.Some("E3"), G.Some("E2"));
    var s4 := TutorialState(InteractNPC, G.Some("E4"), G.Some("E3"));
    FirstQuest(npc, claim);
    PlotChapter();
    GrowChapter();
    HarvestChapter();
    SellingChapter();
    RunThrough(s3, p4, s4, p5);
    RunThrough(s2, p3, s3, p4 + p5);
    RunThrough(s1, p2, s2, p3 + (p4 + p5));
    RunThrough(s0, p1, s1, p2 + (p3 + (p4 + p5)));
  }

  /** Running `a` then `b` from `s`, when `a` alone leads to `mid`. */
  lemma RunThrough(s: TutorialState, a: seq<TutorialEvent>, mid: TutorialState, b: seq<TutorialEvent>)
    requires Run(s, a) == mid
    ensures Run(s, a + b) == Run(mid, b)
  {
    RunAppend(s, a, b);
  }

  /** `ExportState`: a pure copy of the state. */
  function Export(s: TutorialState): (d: TutorialSaveData)
    ensures d.isFinished <==> s.step == TutorialStep.Finished
    ensures d.currentStep == s.step
    ensures d.expectedNPCQuestID == s.expectedNPC && d.expectedClaimQuestID == s.expectedClaim
  {
    TutorialSaveData(s.step, s.expectedNPC, s.expectedClaim, s.step == TutorialStep.Finished)
  }

  /** `ImportState`: a missing record changes nothing; a finished record
      jumps straight to Finished; any other re-enters its saved step
      through `StartStep`, without checking that the step is reachable. */
  function Import(s: TutorialState, data: G.Option<TutorialSaveData>): (r: TutorialState)
    ensures data.None? ==> r == s
    ensures data.Some? ==>
              r.expectedNPC == data.value.expectedNPCQuestID && r.expectedClaim == data.value.expectedClaimQuestID
    ensures data.Some? && data.value.isFinished ==> r.step == Finished
    ensures data.Some? && !data.value.isFinished ==> r.step == data.value.currentStep
  {
    match data
    case None => s
    case Some(d) =>
      if d.isFinished then TutorialState(Finished, d.expectedNPCQuestID, d.expectedClaimQuestID)
      else TutorialState(d.currentStep, d.expectedNPCQuestID, d.expectedClaimQuestID)
  }

  /** Importing what was exported restores the state exactly, whatever the
      state was before the import, both through the Finished short-cut and
      through `StartStep`. */
  lemma RoundTrip(s: TutorialState, before: TutorialState)
    ensures Import(before, G.Some(Export(s))) == s
  {
  }

  /** `GetInteractNPCNarrative`; a null ID falls to the default arm. */
  function InteractNPCNarrative(id: G.Option<string>): (text: string)
    ensures id == G.Some("E1") ==> text == "Talk to the Mayor"
    ensures id == G.Some("E2") || id == G.Some("E3") ==> text == "Talk to the Mayor again"
    ensures id == G.Some("E4") ==> text == "Talk to the Merchant"
    ensures text == "Talk to the NPC" <==> !(id.Some? && id.value in {"E1", "E2", "E3", "E4"})
  {
    match id
    case Some(q) =>
      if q == "E1" then "Talk to the Mayor"
      else if q == "E2" || q == "E3" then "Talk to the Mayor again"
      else if q == "E4" then "Talk to the Merchant"
      else "Talk to the NPC"
    case None => "Talk to the NPC"
  }

  /** `GetClaimQuestNarrative`. */
  function ClaimQuestNarrative(id: G.Option<string>): (text: string)
    ensures text == "Claim the quest reward" <==> !(id.Some? && id.value in {"E1", "E2", "E3", "E4"})
  {
    match id
    case Some(q) =>
      if q == "E1" then "Claim your first quest reward"
      else if q == "E2" then "Claim the planting reward"
      else if q == "E3" then "Claim the harvesting reward"
      else if q == "E4" then "Claim the selling reward"
      else "Claim the quest reward"
    case None => "Claim the quest reward"
  }

  /** The narrative line `StartStep` shows on entering a state (None and
      Finished show none). */
  function EntryNarrative(s: TutorialState): (text: G.Option<string>)
    ensures text.None? <==> s.step in {None, Finished}
    ensures s.step == InteractNPC ==> text == G.Some(InteractNPCNarrative(s.expectedNPC))
    ensures s.step == ClaimQuest ==> text == G.Some(ClaimQuestNarrative(s.expectedClaim))
  {
    match s.step
    case None => G.None
    case Move => G.Some("Use WASD to move")
    case InteractNPC => G.Some(InteractNPCNarrative(s.expectedNPC))
    case ClaimQuest => G.Some(ClaimQuestNarrative(s.expectedClaim))
    case OpenQuest => G.Some("Press [L] to see all your queest")
    case BuySeed => G.Some("Go to the shop and buy seeds")
    case ReachPlot => G.Some("Go to the planting plot")
    case Plant => G.Some("Plant the seed")
    case Water => G.Some("Water the plant when the tree withers")
    case Refill => G.Some("Refill the water in the well")
    case TreeGrow => G.Some("Wait until the tree is fully grown. Water it if needed")
    case TreeShake => G.Some("Approach the tree and shake it to drop the fruit")
    case PickupFruit => G.Some("Pick up the fruit")
    case OpenInventory => G.Some("Press [I] to open Inventory")
    case SellFruit => G.Some("Sell the fruit to the shop to get coins")
    case Finished => G.None
  }

  class TutorialManager {
    var currentStep: TutorialStep
    var expectedNPCQuestID: G.Option<string>
    var expectedClaimQuestID: G.Option<string>
    /** The narrative panel's text; `None` when the panel is hidden. */
    var narrative: G.Option<string>

    function State(): TutorialState
      reads this
    {
      TutorialState(currentStep, expectedNPCQuestID, expectedClaimQuestID)
    }

    constructor ()
      ensures State() == TutorialState(None, G.None, G.None) && narrative == G.None
    {
      currentStep := None;
      expectedNPCQuestID := G.None;
      expectedClaimQuestID := G.None;
      narrative := G.None;
    }

    /** `StartStep`, state part: enter the step and show its narrative. */
    method StartStep(step: TutorialStep)
      modifies this
      ensures State() == old(State()).(step := step)
      ensures narrative == EntryNarrative(State())
    {
      currentStep := step;
      narrative := EntryNarrative(State());
    }

    /** `Start`: enter Move unless a save exists (the import then sets the step). */
    method Start(saveExists: bool)
      modifies this
      ensures saveExists ==> State() == old(State()) && narrative == old(narrative)
      ensures !saveExists ==> State() == old(State()).(step := Move)
    {
      if saveExists {
        return;
      }
      StartStep(Move);
    }

    method HandleMove()
      modifies this
      ensures State() == Transition(old(State()), OnMove)
    {
      if currentStep != Move {
        return;
      }
      expectedNPCQuestID := G.Some("E1");
      StartStep(InteractNPC);
    }

    method HandleInteractNPC(questID: string)
      modifies this
      ensures State() == Transition(old(State()), OnInteractNPC(questID))
    {
      if currentStep != InteractNPC {
        return;
      }
      if G.Some(questID) != expectedNPCQuestID {
        return;
      }
      if questID == "E1" {
        StartStep(OpenQuest);
      } else if questID == "E2" {
        StartStep(ReachPlot);
      } else if questID == "E3" {
        StartStep(TreeShake);
      } else if questID == "E4" {
        StartStep(OpenInventory);
      }
    }

    method HandleClaimQuest(questID: string)
      modifies this
      ensures State() == Transition(old(State()), OnClaimQuest(questID))
    {
      if currentStep != ClaimQuest {
        return;
      }
      if G.Some(questID) != expectedClaimQuestID {
        return;
      }
      if questID == "E1" {
        expectedNPCQuestID := G.Some("E2");
        StartStep(InteractNPC);
      } else if questID == "E2" {
        expectedNPCQuestID := G.Some("E3");
        StartStep(InteractNPC);
      } else if questID == "E3" {
        expectedNPCQuestID := G.Some("E4");
        StartStep(InteractNPC);
      } else if questID == "E4" {
        StartStep(Finished);
      }
    }

    method HandleOpenQuest()
      modifies this
      ensures State() == Transition(old(State()), OnOpenQuest)
    {
      if currentStep != OpenQuest {
        return;
      }
      StartStep(BuySeed);
    }

    method HandleBuySeed()
      modifies this
      ensures State() == Transition(old(State()), OnBuySeed)
    {
      if currentStep != BuySeed {
        return;
      }
      expectedClaimQuestID := G.Some("E1");
      StartStep(ClaimQuest);
    }

    method HandleReachPlot()
      modifies this
      ensures State() == Transition(old(State()), OnReachPlot)
    {
      if currentStep != ReachPlot {
        return;
      }
      StartStep(Plant);
    }

    method HandlePlant()
      modifies this
      ensures State() == Transition(old(State()), OnPlant)
    {
      if currentStep != Plant {
        return;
      }
      StartStep(Water);
    }

    method HandleWater()
      modifies this
      ensures State() == Transition(old(State()), OnWater)
    {
      if currentStep != Water {
        return;
      }
      StartStep(Refill);
    }

    method HandleRefill()
      modifies this
      ensures State() == Transition(old(State()), OnRefill)
    {
      if currentStep != Refill {
        return;
      }
      StartStep(TreeGrow);
    }

    method HandleTreeGrow()
      modifies this
      ensures State() == Transition(old(State()), OnTreeGrow)
    {
      if currentStep != TreeGrow {
        return;
      }
      expectedClaimQuestID := G.Some("E2");
      StartStep(ClaimQuest);
    }

    method HandleTreeShake()
      modifies this
      ensures State() == Transition(old(State()), OnTreeShake)
    {
      if currentStep != TreeShake {
        return;
      }
      StartStep(PickupFruit);
    }

    method HandlePickupFruit()
      modifies this
      ensures State() == Transition(old(State()), OnPickupFruit)
    {
      if currentStep != PickupFruit {
        return;
      }
      expectedClaimQuestID := G.Some("E3");
      StartStep(ClaimQuest);
    }

    method HandleOpenInventory()
      modifies this
      ensures State() == Transition(old(State()), OnOpenInventory)
    {
      if currentStep != OpenInventory {
        return;
      }
      StartStep(SellFruit);
    }

    method HandleSellFruit()
      modifies this
      ensures State() == Transition(old(State()), OnSellFruit)
    {
      if currentStep != SellFruit {
        return;
      }
      expectedClaimQuestID := G.Some("E4");
      StartStep(ClaimQuest);
    }

    /** `ExportState`. */
    function ExportState(): (d: TutorialSaveData)
      reads this
      ensures d.isFinished <==> currentStep == Finished
      ensures Import(State(), G.Some(d)) == State()
    {
      RoundTrip(State(), State());
      Export(State())
    }

    /** `ImportState`; the Finished short-cut hides the narrative. */
    method ImportState(data: G.Option<TutorialSaveData>)
      modifies this
      ensures State() == Import(old(State()), data)
      ensures data.None? ==> narrative == old(narrative)
      ensures data.Some? ==> narrative == EntryNarrative(State())
    {
      if data.None? {
        return;
      }
      var d := data.value;
      expectedNPCQuestID := d.expectedNPCQuestID;
      expectedClaimQuestID := d.expectedClaimQuestID;
      if d.isFinished {
        currentStep := Finished;
        narrative := G.None;
        return;
      }
      StartStep(d.currentStep);
    }

    /** `ResetAll`: clear, then restart the tutorial at Move. */
    method ResetAll()
      modifies this
      ensures State() == TutorialState(Move, G.None, G.None)
      ensures narrative == EntryNarrative(State())
    {
      currentStep := None;
      expectedNPCQuestID := G.None;
      expectedClaimQuestID := G.None;
      narrative := G.None;
      StartStep(Move);
    }
  }
}
