# The Growth Tree: a verified model of the game's progression core

The Growth Tree is a Unity game. The player plants trees on plots, keeps
them alive with a watering can, harvests their fruit and sells it. The
city's pollution falls as the trees grow. Quest-giving NPCs and a
scripted tutorial lead the player through the game. This project models,
in Dafny, the managers and components that carry the game's state:

- the economy: level, XP, coins, water, pollution, stock (`GameManagement`);
- the trees (`TreeGrowth`), the plots (`Planting`), the watering can (`Watering`);
- the fruit spawners (`FruitSpawning`) and the shared fruit pool (`FruitPool`);
- quest tracking (`Quests`), the quest list and its panels (`QuestUI`, `QuestItems`);
- the NPC quest givers (`NpcQuest`) and their dispatcher (`QuestQueue`);
- the tutorial sequencer (`Tutorial`) and the guide arrows (`Guide`);
- the shops (`SellShop`, `BuyShop`) and the inventory slot (`Inventory`);
- the panel stack (`GlobalUI`), the shared prompt (`PromptDisplay`) and the stacked prompts (`Prompts`).

`GameData` holds the designer records (`QuestData`, `TreeData`), Unity's
clamping helpers and the calls one manager makes into another.

How the model is built:

- Each source file is one module. A component whose fields change is a
  `class` with those fields. Its methods are proved against value
  functions of the old state, and the properties are lemmas about those
  functions.
- A call into another manager (save the game, fail a quest, lock the
  player) is returned as a `Call` value, in the order it is made.
- A query into another manager is a parameter: whether a quest is
  tracked, whether the game is paused.
- Inputs from the engine are parameters as well: `Time.deltaTime` is
  `dt`, a key press is a flag, and a ray-cast hit is an `Option`.
- Unity objects are opaque identities. A destroyed object compares equal
  to null in Unity, so the objects destroyed so far are passed in as a
  `gone` set; the fruit pool keeps its destroyed fruits as `destroyed`.

## Model

| member | source | states |
|---|---|---|
| GameData.QuestData.constructor | Assets/Scripts/QuestData/QuestData.cs:8-42 | a quest template carries exactly the designer fields it was given (identity, NPC prefab, type, difficulty, goal, target, required amount, reward, timer) |
| GameData.DefaultTree | Assets/Scripts/TreeData/TreeData.cs:7-44 | the tree template's declared defaults: max health 100, start health 50, water threshold 0.4, 60 s to grow |
| GameManagement.LevelUp | Assets/Scripts/Managers/GameManager.cs:157-178 | one level more; the old threshold becomes the previous one; the next threshold is the table's next entry while one is left, else 500 more |
| GameManagement.Settle | Assets/Scripts/Managers/GameManager.cs:149-152 | the level-up loop ends for every table; afterwards XP is below the next threshold, and after a level-up at or above the previous one; no change when XP is already below |
| GameManagement.LevelUpRaises | Assets/Scripts/Managers/GameManager.cs:157-178 | with an ascending table each level strictly raises the threshold and the threshold keeps following the table |
| GameManagement.InitialOnTable | Assets/Scripts/Managers/GameManager.cs:13-17 | the declared table is ascending and the initial progression follows it |
| GameManagement.ResetKeepsTableIndex | Assets/Scripts/Managers/GameManager.cs:246-252 | a reset sets the threshold to 20 but keeps `xpIndex`, so the table is no longer followed and the next level jumps to a later entry |
| GameManagement.CheckCondition | Assets/Scripts/Managers/GameManager.cs:96-104 | an ended game never changes; pollution at most 20 wins, at least 90 loses, anything between keeps playing |
| GameManagement.PollutionStep | Assets/Scripts/Managers/GameManager.cs:127-132 | pollution is clamped into [0, maxPollution] and the ending is then checked |
| GameManagement.PollutionRun | Assets/Scripts/Managers/GameManager.cs:127-132 | after at least one change the pollution lies in [0, maxPollution], wherever it started |
| GameManagement.EndsAtMostOnce | Assets/Scripts/Managers/GameManager.cs:96-132 | along any series of pollution changes an ending, once reached, never changes and pollution stays in bounds |
| GameManagement.Restock | Assets/Scripts/Managers/GameManager.cs:181-212 | an unregistered name changes nothing; a registered one becomes max(0, stock + amount); other names and the key set are unchanged; stocks stay non-negative |
| GameManagement.StockOf | Assets/Scripts/Managers/GameManager.cs:215-216 | the stored stock, or 0 for an unknown name |
| GameManagement.TotalUpdate | Assets/Scripts/Managers/GameManager.cs:218-232 | changing one stock changes the total by the difference |
| GameManagement.TotalNonNegative | Assets/Scripts/Managers/GameManager.cs:218-232 | non-negative stocks give a non-negative total |
| GameManagement.SumStock | Assets/Scripts/Managers/GameManager.cs:218-232 | the `foreach` accumulation returns the sum of all stocks |
| GameManagement.ZeroStock | Assets/Scripts/Managers/GameManager.cs:56-65 | every registered (non-null) tree name is a key, nothing else is, and every stock is 0 |
| GameManagement.ZeroStockTotal | Assets/Scripts/Managers/GameManager.cs:259-267 | a fresh or reset stock holds no items |
| GameManagement.RegisterTrees | Assets/Scripts/Managers/GameManager.cs:56-65 | the `TryAdd(name, 0)` loop over the tree list yields the zero stock of the registered names, null entries skipped, duplicates once |
| GameManagement.GameManager.constructor | Assets/Scripts/Managers/GameManager.cs:9-40 | the field defaults (level 1, 300 coins, threshold 20, water 500 of 1000, pollution 75 of 100, interval 20 s) with both result panels hidden and every tree's stocks at 0 |
| GameManagement.GameManager.Update | Assets/Scripts/Managers/GameManager.cs:81-93 | the timer accumulates the frame time; when it reaches the interval it resets and pollution rises by 1; nothing else changes |
| GameManagement.GameManager.CheckGameCondition | Assets/Scripts/Managers/GameManager.cs:96-104 | the shown result is the latch's transition; win and lose panels are never both shown |
| GameManagement.GameManager.GameOver | Assets/Scripts/Managers/GameManager.cs:106-124 | the game is ended and exactly the matching result panel is shown |
| GameManagement.GameManager.ModifyPollution | Assets/Scripts/Managers/GameManager.cs:127-132 | pollution and ending follow `PollutionStep` |
| GameManagement.GameManager.ModifyWater | Assets/Scripts/Managers/GameManager.cs:135-139 | the value is subtracted and water clamped into [0, maxWater] |
| GameManagement.GameManager.AddXP | Assets/Scripts/Managers/GameManager.cs:142-155 | the XP is added and the progression settled; XP ends below the threshold; one save plus one per level gained |
| GameManagement.GameManager.LevelUpStep | Assets/Scripts/Managers/GameManager.cs:157-178 | the fields follow `LevelUp`, with one save |
| GameManagement.GameManager.ModifyFruitStock | Assets/Scripts/Managers/GameManager.cs:181-195 | one save; the fruit stock follows `Restock` |
| GameManagement.GameManager.ModifySeedStock | Assets/Scripts/Managers/GameManager.cs:198-212 | one save; the seed stock follows `Restock` |
| GameManagement.GameManager.GetFruitStock | Assets/Scripts/Managers/GameManager.cs:215 | the fruit stock of the name, 0 if unknown |
| GameManagement.GameManager.GetSeedStock | Assets/Scripts/Managers/GameManager.cs:216 | the seed stock of the name, 0 if unknown |
| GameManagement.GameManager.GetTotalFruits | Assets/Scripts/Managers/GameManager.cs:218-224 | the sum of the fruit stocks |
| GameManagement.GameManager.GetTotalSeeds | Assets/Scripts/Managers/GameManager.cs:226-232 | the sum of the seed stocks |
| GameManagement.GameManager.GetTotalItems | Assets/Scripts/Managers/GameManager.cs:234-237 | fruits plus seeds, never negative |
| GameManagement.GameManager.AddCoins | Assets/Scripts/Managers/GameManager.cs:239-243 | coins rise by the amount, unclamped |
| GameManagement.GameManager.ResetGameData | Assets/Scripts/Managers/GameManager.cs:246-270 | the starting level, XP, coins, water and pollution, and zero stocks for every registered tree; `xpIndex` and the latch are kept |
| Tutorial.Transition | Assets/Scripts/Managers/TutorialManager.cs:96-218 | every handler is inert outside its own step, and the two quest handlers also without the remembered ID; Finished and None are never left and None never entered; only claiming E4 reaches Finished |
| Tutorial.InteractBranches | Assets/Scripts/Managers/TutorialManager.cs:103-120 | talking to the awaited NPC goes E1 to OpenQuest, E2 to ReachPlot, E3 to TreeShake, E4 to OpenInventory; any other ID changes nothing |
| Tutorial.ClaimBranches | Assets/Scripts/Managers/TutorialManager.cs:122-148 | claiming E1, E2, E3 waits for the NPC of E2, E3, E4; claiming E4 finishes |
| Tutorial.ArmingHandlers | Assets/Scripts/Managers/TutorialManager.cs:96-218 | buying, growing, picking up and selling arm the claim of E1, E2, E3, E4; moving arms the NPC of E1 |
| Tutorial.Absorbing | Assets/Scripts/Managers/TutorialManager.cs:96-218 | from Finished or None every sequence of events changes nothing |
| Tutorial.DuplicateMoveIgnored | Assets/Scripts/Managers/TutorialManager.cs:96-101 | a second move event after the first is ignored |
| Tutorial.HappyPathFinishes | Assets/Scripts/Managers/TutorialManager.cs:96-218 | from Move, with any remembered IDs, the twenty events of the tutorial end in Finished expecting E4 and E4 |
| Tutorial.Export | Assets/Scripts/Managers/TutorialManager.cs:347-356 | the record copies the step and both IDs, and `isFinished` holds exactly when the step is Finished |
| Tutorial.Import | Assets/Scripts/Managers/TutorialManager.cs:358-375 | a null record changes nothing; otherwise both IDs are copied and the step is Finished for a finished record, else the saved step |
| Tutorial.RoundTrip | Assets/Scripts/Managers/TutorialManager.cs:347-375 | importing an exported record restores that state exactly, whatever the state before |
| Tutorial.InteractNPCNarrative | Assets/Scripts/Managers/TutorialManager.cs:220-230 | the line for each NPC ID, and the default line exactly for an ID other than E1–E4 |
| Tutorial.ClaimQuestNarrative | Assets/Scripts/Managers/TutorialManager.cs:232-242 | the default claim line exactly for an ID other than E1–E4 |
| Tutorial.EntryNarrative | Assets/Scripts/Managers/TutorialManager.cs:256-328 | the panel is hidden exactly on None and Finished; the two waiting steps show the narrative of their remembered ID |
| Tutorial.TutorialManager.constructor | Assets/Scripts/Managers/TutorialManager.cs:29-39 | the step starts at None, with no remembered IDs and no narrative |
| Tutorial.TutorialManager.StartStep | Assets/Scripts/Managers/TutorialManager.cs:245-329 | only the step changes, and the narrative of the entered state is shown |
| Tutorial.TutorialManager.Start | Assets/Scripts/Managers/TutorialManager.cs:85-93 | with a save nothing changes; without one the tutorial enters Move |
| Tutorial.TutorialManager.HandleMove | Assets/Scripts/Managers/TutorialManager.cs:96-101 | the state follows the handler table for the move event |
| Tutorial.TutorialManager.HandleInteractNPC | Assets/Scripts/Managers/TutorialManager.cs:103-120 | the state follows the handler table for talking to the NPC of the given quest |
| Tutorial.TutorialManager.HandleClaimQuest | Assets/Scripts/Managers/TutorialManager.cs:122-148 | the state follows the handler table for claiming the given quest |
| Tutorial.TutorialManager.HandleOpenQuest | Assets/Scripts/Managers/TutorialManager.cs:150-154 | the state follows the handler table |
| Tutorial.TutorialManager.HandleBuySeed | Assets/Scripts/Managers/TutorialManager.cs:156-161 | the state follows the handler table |
| Tutorial.TutorialManager.HandleReachPlot | Assets/Scripts/Managers/TutorialManager.cs:163-167 | the state follows the handler table |
| Tutorial.TutorialManager.HandlePlant | Assets/Scripts/Managers/TutorialManager.cs:169-173 | the state follows the handler table |
| Tutorial.TutorialManager.HandleWater | Assets/Scripts/Managers/TutorialManager.cs:175-179 | the state follows the handler table |
| Tutorial.TutorialManager.HandleRefill | Assets/Scripts/Managers/TutorialManager.cs:181-185 | the state follows the handler table |
| Tutorial.TutorialManager.HandleTreeGrow | Assets/Scripts/Managers/TutorialManager.cs:187-192 | the state follows the handler table |
| Tutorial.TutorialManager.HandleTreeShake | Assets/Scripts/Managers/TutorialManager.cs:194-198 | the state follows the handler table |
| Tutorial.TutorialManager.HandlePickupFruit | Assets/Scripts/Managers/TutorialManager.cs:200-205 | the state follows the handler table |
| Tutorial.TutorialManager.HandleOpenInventory | Assets/Scripts/Managers/TutorialManager.cs:207-211 | the state follows the handler table |
| Tutorial.TutorialManager.HandleSellFruit | Assets/Scripts/Managers/TutorialManager.cs:213-218 | the state follows the handler table |
| Tutorial.TutorialManager.ExportState | Assets/Scripts/Managers/TutorialManager.cs:347-356 | `isFinished` exactly when the step is Finished, and importing the record gives the current state back |
| Tutorial.TutorialManager.ImportState | Assets/Scripts/Managers/TutorialManager.cs:358-375 | the state follows `Import`; a null record keeps the narrative, any other shows the narrative of the entered state |
| Tutorial.TutorialManager.ResetAll | Assets/Scripts/Managers/TutorialManager.cs:377-388 | the tutorial restarts at Move with both IDs cleared, showing the Move narrative |
| Quests.Bumped | Assets/Scripts/Managers/QuestManager.cs:50-55 | the same tracked quests; each matching one gains exactly 1, every other keeps its count |
| Quests.Reached | Assets/Scripts/Managers/QuestManager.cs:58-59 | the `toComplete` list is no longer than the key snapshot |
| Quests.UpdateCalls | Assets/Scripts/Managers/QuestManager.cs:56 | the first phase makes only panel-progress calls, at most one per key |
| Quests.CompleteCalls | Assets/Scripts/Managers/QuestManager.cs:62-77 | two calls per completed quest, each a save or the marking of one of those quests |
| Quests.ReachedMembers | Assets/Scripts/Managers/QuestManager.cs:50-60 | a quest is collected for completion exactly when it is scanned, matches, and has reached its required amount |
| Quests.ReachedDistinct | Assets/Scripts/Managers/QuestManager.cs:48-60 | over the dictionary's distinct keys each quest is collected at most once per call |
| Quests.UpdateCallsSound | Assets/Scripts/Managers/QuestManager.cs:56 | every panel update names a scanned matching quest with its new count and its required amount |
| Quests.UpdateCallsCover | Assets/Scripts/Managers/QuestManager.cs:50-56 | every scanned matching quest gets its panel update |
| Quests.CompleteCallsCover | Assets/Scripts/Managers/QuestManager.cs:62-63 | every collected quest is marked completed |
| Quests.TwoPhase | Assets/Scripts/Managers/QuestManager.cs:47-64 | the panel updates are exactly the calls before the first completion: the two loops do not interleave |
| Quests.CompletedQuestCompletesAgain | Assets/Scripts/Managers/QuestManager.cs:55-76 | a completed but unclaimed quest still matches, passes its required amount and is collected for completion again |
| Quests.ScanKeys | Assets/Scripts/Managers/QuestManager.cs:48-60 | the first loop yields the bumped map, the collected quests and the panel updates of the specification functions |
| Quests.ScanOne | Assets/Scripts/Managers/QuestManager.cs:52-59 | one iteration of the first loop extends the scanned prefix by one key |
| Quests.QuestManager.constructor | Assets/Scripts/Managers/QuestManager.cs:12-16 | no tracked quest, nothing completed or failed |
| Quests.QuestManager.HasQuest | Assets/Scripts/Managers/QuestManager.cs:109-112 | true exactly when the quest has a progress entry |
| Quests.QuestManager.IsCompleted | Assets/Scripts/Managers/QuestManager.cs:17 | true exactly when the quest is in the completed list |
| Quests.QuestManager.StartQuest | Assets/Scripts/Managers/QuestManager.cs:28-42 | always a save; a taken quest changes nothing, otherwise it is tracked from 0 and its panel shown |
| Quests.QuestManager.CompleteQuest | Assets/Scripts/Managers/QuestManager.cs:67-77 | a save, the quest appended to `completed`, its panel marked; the progress entry stays |
| Quests.QuestManager.CompleteAll | Assets/Scripts/Managers/QuestManager.cs:62-63 | every collected quest is appended to `completed` in order, with its calls |
| Quests.QuestManager.AddProgress | Assets/Scripts/Managers/QuestManager.cs:45-64 | progress becomes `Bumped`; the quests that reached their amount are appended to `completed` in key order; all panel updates come before all completions |
| Quests.QuestManager.ClaimQuest | Assets/Scripts/Managers/QuestManager.cs:80-93 | no status guard; a save, XP and coin rewards, the claim mark, and the progress entry removed |
| Quests.QuestManager.FailQuest | Assets/Scripts/Managers/QuestManager.cs:95-107 | always a save; an untracked quest is then left alone; a tracked one is appended to `failed`, marked failed and untracked |
| QuestItems.Apply | Assets/Scripts/QuestData/QuestItem.cs:94-147 | each status call sets its flag exactly when its guard admits it; completed and claimed are never taken back; a failed or claimed panel is terminal; consistency is kept |
| QuestItems.ConsistentForever | Assets/Scripts/QuestData/QuestItem.cs:44-133 | from a fresh `Setup`, no sequence of status calls makes a quest both completed and failed, or claimed without being completed |
| QuestItems.FailedIsFinal | Assets/Scripts/QuestData/QuestItem.cs:96-133 | once failed, no later call completes or claims the quest |
| QuestItems.ClaimAllowed | Assets/Scripts/QuestData/QuestItem.cs:75-79 | the button asks for `ClaimQuest` exactly on a completed, unclaimed quest, which is then not failed |
| QuestItems.SetupPanel | Assets/Scripts/QuestData/QuestItem.cs:40-80 | the flags are cleared; the counter is reset to 0 unless restoring |
| QuestItems.ProgressPanel | Assets/Scripts/QuestData/QuestItem.cs:83-90 | a completed or failed panel is unchanged; otherwise the counter becomes the reported count |
| QuestItems.StatusPanel | Assets/Scripts/QuestData/QuestItem.cs:94-147 | the flags follow `Apply`; a completion that gets through fills the counter to the required amount; other calls keep it |
| QuestItems.StatusIdempotent | Assets/Scripts/QuestData/QuestItem.cs:94-147 | repeating a status call changes nothing more |
| QuestItems.QuestItem.constructor | Assets/Scripts/QuestData/QuestItem.cs:27-33 | the instantiated prefab holds a zero counter and clear flags |
| QuestItems.QuestItem.Setup | Assets/Scripts/QuestData/QuestItem.cs:40-80 | binds the quest; the panel becomes `SetupPanel` of the old one |
| QuestItems.QuestItem.UpdateProgress | Assets/Scripts/QuestData/QuestItem.cs:83-90 | the panel becomes `ProgressPanel` of the old one |
| QuestItems.QuestItem.MarkCompleted | Assets/Scripts/QuestData/QuestItem.cs:94-108 | the panel becomes the completion `StatusPanel` of the old one |
| QuestItems.QuestItem.MarkClaimed | Assets/Scripts/QuestData/QuestItem.cs:111-128 | the panel becomes the claim `StatusPanel` of the old one |
| QuestItems.QuestItem.MarkFailed | Assets/Scripts/QuestData/QuestItem.cs:131-147 | the panel becomes the failure `StatusPanel` of the old one |
| QuestItems.QuestItem.ClaimClicked | Assets/Scripts/QuestData/QuestItem.cs:75-79 | the click requests the bound quest's claim exactly when `ClaimAllowed` holds |
| QuestUI.GetState | Assets/Scripts/UI/QuestUIManager.cs:77-88 | finished exactly when failed or claimed; otherwise completed-unclaimed exactly when the quest manager lists it as completed, else active |
| QuestUI.Band | Assets/Scripts/UI/QuestUIManager.cs:98-117 | one of the four lists of the grouping loop |
| QuestUI.Lookup | Assets/Scripts/UI/QuestUIManager.cs:129-160 | the stored time, or the given default when absent |
| QuestUI.Insert | Assets/Scripts/UI/QuestUIManager.cs:122-140 | inserting into a band sorted by its key keeps it sorted and adds exactly that panel |
| QuestUI.Sort | Assets/Scripts/UI/QuestUIManager.cs:122-140 | the same panels, in ascending key order: least remaining time first, newest start first, latest finish first (one of the orders an unstable sort may give) |
| QuestUI.Group | Assets/Scripts/UI/QuestUIManager.cs:98-117 | a band's list is no longer than the key order |
| QuestUI.GroupMembers | Assets/Scripts/UI/QuestUIManager.cs:98-117 | every panel of a band's list is a shown panel of that band |
| QuestUI.Stacked | Assets/Scripts/UI/QuestUIManager.cs:143-155 | the four lists stacked in band order form an arranged display: every panel once, bands top to bottom, sorted bands in key order |
| QuestUI.Arrange | Assets/Scripts/UI/QuestUIManager.cs:90-156 | the grouping loop, the three sorts and the sibling indices give an arranged display |
| QuestUI.Get | Assets/Scripts/UI/QuestUIManager.cs:23-25 | a clock entry is present exactly when the dictionary has the key |
| QuestUI.Put | Assets/Scripts/UI/QuestUIManager.cs:57-235 | writing or removing one clock entry leaves the others |
| QuestUI.SetEntry | Assets/Scripts/UI/QuestUIManager.cs:46-74 | replacing one quest's panel and clocks leaves every other quest's entry |
| QuestUI.StepEntry | Assets/Scripts/UI/QuestUIManager.cs:51-240 | a quest not counted down is untouched; a counted one loses the frame time and is pinned at 0; one that runs out while tracked is failed, loses its remaining time and has its finished time stamped once |
| QuestUI.FailsOnce | Assets/Scripts/UI/QuestUIManager.cs:59-235 | a quest the timer failed is not counted down again, so a later frame changes nothing for it |
| QuestUI.TickKey | Assets/Scripts/UI/QuestUIManager.cs:46-74 | one quest's turn keeps the set of panels and every other quest's entry, and calls `FailQuest` for that quest, once, exactly when it times out while tracked |
| QuestUI.TickAll | Assets/Scripts/UI/QuestUIManager.cs:46-74 | the timer loop keeps the set of panels |
| QuestUI.TickAllEntry | Assets/Scripts/UI/QuestUIManager.cs:46-74 | each shown quest gets exactly its own turn, computed from what it held before the loop |
| QuestUI.TickAllCalls | Assets/Scripts/UI/QuestUIManager.cs:63-67 | `FailQuest` is called exactly for the quests that time out while tracked, each once |
| QuestUI.Restored | Assets/Scripts/UI/QuestUIManager.cs:163-278 | only a positive saved time is written back; other entries are kept |
| QuestUI.SaveRestoreClock | Assets/Scripts/UI/QuestUIManager.cs:158-278 | saving a clock with its getter and restoring it brings back a positive time; a missing or zero time reads as -1 again |
| QuestUI.ShownKeepsValid | Assets/Scripts/UI/QuestUIManager.cs:199-207 | a new panel keeps one key per shown quest and every panel on display once |
| QuestUI.FlagsOf | Assets/Scripts/UI/QuestUIManager.cs:81-107 | the status flags of exactly the shown panels |
| QuestUI.QuestUIManager.constructor | Assets/Scripts/UI/QuestUIManager.cs:22-25 | no panels and empty clocks |
| QuestUI.QuestUIManager.ReorderAll | Assets/Scripts/UI/QuestUIManager.cs:90-156 | the display becomes an arranged order of exactly the shown panels |
| QuestUI.QuestUIManager.ForceReorder | Assets/Scripts/UI/QuestUIManager.cs:280-283 | the display becomes arranged |
| QuestUI.QuestUIManager.Tick | Assets/Scripts/UI/QuestUIManager.cs:46-74 | the panels and clocks follow `TickAll` over the keys and the calls are its `FailQuest` calls; the display is untouched unless a quest failed |
| QuestUI.QuestUIManager.TickOne | Assets/Scripts/UI/QuestUIManager.cs:48-73 | one quest's turn follows `TickKey` |
| QuestUI.QuestUIManager.TimeOut | Assets/Scripts/UI/QuestUIManager.cs:63-242 | the panel is failed, the remaining time dropped, the finished time stamped once, and the display rearranged |
| QuestUI.QuestUIManager.GetRemainingTime | Assets/Scripts/UI/QuestUIManager.cs:158-161 | the remaining time, or -1 when absent |
| QuestUI.QuestUIManager.RestoreRemainingTime | Assets/Scripts/UI/QuestUIManager.cs:163-167 | a positive time is restored, anything else ignored |
| QuestUI.QuestUIManager.GetStartTime | Assets/Scripts/UI/QuestUIManager.cs:186-189 | the start time, or -1 when absent |
| QuestUI.QuestUIManager.RestoreStartTime | Assets/Scripts/UI/QuestUIManager.cs:191-195 | a positive time is restored, anything else ignored |
| QuestUI.QuestUIManager.GetFinishedTime | Assets/Scripts/UI/QuestUIManager.cs:269-272 | the finished time, or -1 when absent |
| QuestUI.QuestUIManager.RestoreFinishedTime | Assets/Scripts/UI/QuestUIManager.cs:274-278 | a positive time is restored, anything else ignored |
| QuestUI.QuestUIManager.ShowQuest | Assets/Scripts/UI/QuestUIManager.cs:197-217 | a shown quest changes nothing; otherwise a fresh panel, a full timer unless one is recorded, a start time only when not restoring, and outside a restore an arranged display |
| QuestUI.QuestUIManager.AddPanel | Assets/Scripts/UI/QuestUIManager.cs:201-213 | the panel is added last, with its remaining and start times defaulted |
| QuestUI.QuestUIManager.MarkCompleted | Assets/Scripts/UI/QuestUIManager.cs:219-229 | an unknown quest changes nothing; otherwise the guarded completion, the finished time written only if absent, and an arranged display |
| QuestUI.QuestUIManager.MarkFailed | Assets/Scripts/UI/QuestUIManager.cs:231-242 | an unknown quest changes nothing; otherwise the remaining time removed, the guarded failure, the finished time written only if absent, and an arranged display |
| QuestUI.QuestUIManager.MarkClaimed | Assets/Scripts/UI/QuestUIManager.cs:244-255 | an unknown quest changes nothing; otherwise the guarded claim and an arranged display, and the claim is reported to the tutorial only during its claim step |
| QuestUI.QuestUIManager.UpdateProgress | Assets/Scripts/UI/QuestUIManager.cs:257-261 | forwarded to the quest's panel when it has one |
| QuestUI.QuestUIManager.IsClaimed | Assets/Scripts/UI/QuestUIManager.cs:263-267 | true exactly when the quest has a panel and it is claimed |
| QuestUI.QuestUIManager.ResetAll | Assets/Scripts/UI/QuestUIManager.cs:285-300 | no panels and all three clock dictionaries empty |
| NpcQuest.SetupView | Assets/Scripts/NPC/NPCQuestController.cs:22-53 | the NPC carries the quest, stamps it on its trigger, returns to the spawn point, is not leaving, and is ready exactly when placed at the point |
| NpcQuest.Arrive | Assets/Scripts/NPC/NPCQuestController.cs:73-83 | only the arrived flag is set; the NPC is then ready unless leaving |
| NpcQuest.Frame | Assets/Scripts/NPC/NPCQuestController.cs:56-71 | an NPC walking in arrives when the agent arrives; a leaving NPC is gone exactly when the agent arrives; the leaving flag is untouched |
| NpcQuest.Leave | Assets/Scripts/NPC/NPCQuestController.cs:107-118 | only the leaving flag is set, and the NPC is no longer ready |
| NpcQuest.Reassign | Assets/Scripts/NPC/NPCQuestController.cs:120-138 | the NPC takes the next quest, both flags are cleared, its points are kept |
| NpcQuest.ReassignedArrives | Assets/Scripts/NPC/NPCQuestController.cs:56-138 | a reassigned NPC, even one told to leave, arrives and becomes ready instead of being removed |
| NpcQuest.LeaveThenGone | Assets/Scripts/NPC/NPCQuestController.cs:66-118 | a departing NPC is gone exactly on the frame the agent arrives, and is never ready |
| NpcQuest.NPCQuestController.Setup | Assets/Scripts/NPC/NPCQuestController.cs:22-53 | the instantiated prefab after `Setup` is `SetupView` |
| NpcQuest.NPCQuestController.IsReadyForInteraction | Assets/Scripts/NPC/NPCQuestController.cs:17 | arrived and not leaving |
| NpcQuest.NPCQuestController.GetReturnPoint | Assets/Scripts/NPC/NPCQuestController.cs:151-154 | the return point the NPC holds: the spawn point `Setup` gave it, which `AssignNextQuest` keeps |
| NpcQuest.NPCQuestController.Update | Assets/Scripts/NPC/NPCQuestController.cs:56-71 | the NPC and the gone signal follow `Frame` |
| NpcQuest.NPCQuestController.ArriveAtQuestPoint | Assets/Scripts/NPC/NPCQuestController.cs:73-83 | follows `Arrive` |
| NpcQuest.NPCQuestController.LeaveAndDestroy | Assets/Scripts/NPC/NPCQuestController.cs:107-118 | follows `Leave` |
| NpcQuest.NPCQuestController.AssignNextQuest | Assets/Scripts/NPC/NPCQuestController.cs:120-138 | follows `Reassign` |
| QuestQueue.CanSpawnByLevel | Assets/Scripts/Managers/QuestQueueManager.cs:101-110 | Easy opens from level 1, Medium from 3, Hard from 5 |
| QuestQueue.LevelGateMonotone | Assets/Scripts/Managers/QuestQueueManager.cs:101-110 | an open gate stays open as the level rises; a harder queue never opens before an easier one |
| QuestQueue.CanReuseNPC | Assets/Scripts/Managers/QuestQueueManager.cs:151-164 | reuse exactly when switched on, the next quest does not force a new NPC, and both quests name the same NPC prefab |
| QuestQueue.SpawnNext | Assets/Scripts/Managers/QuestQueueManager.cs:34-67 | nothing happens when restoring, gated, an NPC is live, the order or the spawn points are exhausted, or the spawn point is null; otherwise the quest at the index is spawned at its spawn point and the index moves on by one; an NPC is only created while none is live |
| QuestQueue.QuestFinished | Assets/Scripts/Managers/QuestQueueManager.cs:70-93 | no NPC: no change; order exhausted: the NPC leaves; reusable: the NPC takes the next quest and the index moves on; else the NPC leaves and the index stays |
| QuestQueue.NPCGone | Assets/Scripts/Managers/QuestQueueManager.cs:95-99 | the NPC reference is dropped; index and flag kept |
| QuestQueue.FindQuest | Assets/Scripts/Managers/QuestQueueManager.cs:131 | the first quest of the order with the ID, or none exactly when no quest has it |
| QuestQueue.IndexOf | Assets/Scripts/Managers/QuestQueueManager.cs:169 | the first index holding the value, or -1 exactly when absent |
| QuestQueue.ReturnPointFor | Assets/Scripts/Managers/QuestQueueManager.cs:134-137 | the recorded spawn point when the index is in range, else the quest point |
| QuestQueue.Restore | Assets/Scripts/Managers/QuestQueueManager.cs:113-149 | the index is the saved one; no NPC or an empty ID clears the flag; an unknown ID leaves the flag set and no NPC; otherwise the NPC is recreated ready at the quest point and the flag cleared |
| QuestQueue.ReturnPointIndex | Assets/Scripts/Managers/QuestQueueManager.cs:166-170 | -1 without an NPC; otherwise the first spawn point equal to its return point, -1 exactly when there is none |
| QuestQueue.StepIndex | Assets/Scripts/Managers/QuestQueueManager.cs:39-86 | one event moves the index forward by at most one, only from inside the order |
| QuestQueue.RunIndex | Assets/Scripts/Managers/QuestQueueManager.cs:34-99 | outside a restore the index never decreases, never passes the end of the order, and grows at most once per event |
| QuestQueue.RestoringFreezes | Assets/Scripts/Managers/QuestQueueManager.cs:36-72 | a queue left restoring without an NPC ignores every later event |
| QuestQueue.RestoreUnknownBlocks | Assets/Scripts/Managers/QuestQueueManager.cs:131-132 | restoring an unknown quest ID leaves the flag set, so nothing spawns again |
| QuestQueue.SaveRestoreRoundTrip | Assets/Scripts/Managers/QuestQueueManager.cs:113-170 | saving the index, quest ID and return-point index and restoring them gives back the index and an NPC with the same quest and return point, ready |
| QuestQueue.QuestQueueManager.constructor | Assets/Scripts/Managers/QuestQueueManager.cs:14-31 | index 0, no NPC, not restoring |
| QuestQueue.QuestQueueManager.HasActiveNPC | Assets/Scripts/Managers/QuestQueueManager.cs:11 | true exactly when an NPC is live |
| QuestQueue.QuestQueueManager.ActiveQuestID | Assets/Scripts/Managers/QuestQueueManager.cs:12 | the live NPC's quest ID, or empty |
| QuestQueue.QuestQueueManager.TrySpawnNext | Assets/Scripts/Managers/QuestQueueManager.cs:34-67 | the state follows `SpawnNext`; a fresh NPC is returned exactly when not blocked |
| QuestQueue.QuestQueueManager.OnQuestFinished | Assets/Scripts/Managers/QuestQueueManager.cs:70-93 | the state follows `QuestFinished`; the same NPC object stays live |
| QuestQueue.QuestQueueManager.OnNPCGone | Assets/Scripts/Managers/QuestQueueManager.cs:95-99 | the state follows `NPCGone` |
| QuestQueue.QuestQueueManager.RestoreFromSave | Assets/Scripts/Managers/QuestQueueManager.cs:113-149 | the state follows `Restore`; a recreated NPC is a fresh object |
| QuestQueue.QuestQueueManager.GetActiveReturnPointIndex | Assets/Scripts/Managers/QuestQueueManager.cs:166-170 | -1 without an NPC; otherwise the first spawn point equal to its return point, -1 exactly when none |
| QuestQueue.QuestQueueManager.ResetQueue | Assets/Scripts/Managers/QuestQueueManager.cs:172-180 | index 0, no NPC, not restoring |
| TreeGrowth.Planted | Assets/Scripts/Interaction/GrowTree.cs:38-59 | a planted tree starts at the template's start health, with no growth, alive and not withered |
| TreeGrowth.Fraction | Assets/Scripts/Interaction/GrowTree.cs:35 | the health fraction lies in [0, 1] and, for health in range, is health over maximum health |
| TreeGrowth.DecayRate | Assets/Scripts/Interaction/GrowTree.cs:113-117 | the grown rate once fully grown, else the critical rate below the water threshold and the healthy rate at or above it |
| TreeGrowth.Decay | Assets/Scripts/Interaction/GrowTree.cs:111-123 | health drops by rate times the frame time and stays in [0, max]; the tree is dead exactly when it was or its health reached zero; nothing else changes |
| TreeGrowth.Wither | Assets/Scripts/Interaction/GrowTree.cs:197-213 | without a leaf material nothing changes; the leaves wither below 40%, recover above 60% and keep their look in between; only the withered flag changes |
| TreeGrowth.GrownReward | Assets/Scripts/Interaction/GrowTree.cs:145-161 | four calls, the save first, with exactly one planting quest progress report |
| TreeGrowth.GrownTimer | Assets/Scripts/Interaction/GrowTree.cs:131-132 | the timer grows by twice the frame time at or above 40% health and by one and a half times below |
| TreeGrowth.Grow | Assets/Scripts/Interaction/GrowTree.cs:127-143 | a grown tree is unchanged; otherwise the timer advances, and the reward is given exactly the first time the timer reaches the time needed, which sets both grown flags |
| TreeGrowth.NeedsWaterPrompt | Assets/Scripts/Interaction/GrowTree.cs:87-107 | the water prompt is shown exactly when the player is near and the live tree is below the water threshold |
| TreeGrowth.Water | Assets/Scripts/Interaction/GrowTree.cs:267-279 | a live tree below the water threshold is marked watered and its health clamped into range; otherwise nothing changes |
| TreeGrowth.WaterKeepsHealth | Assets/Scripts/Interaction/GrowTree.cs:277 | watering a tree whose health is in range leaves it exactly as it was: watering heals nothing |
| TreeGrowth.TickBoundsHealth | Assets/Scripts/Interaction/GrowTree.cs:61-119 | after any live frame the health lies in [0, max] |
| TreeGrowth.TickNoTime | Assets/Scripts/Interaction/GrowTree.cs:127-143 | a frame with no elapsed time never rewards a tree whose timer is not full |
| TreeGrowth.DeadIsFinal | Assets/Scripts/Interaction/GrowTree.cs:63 | over any frames a dead tree stays unchanged and makes no calls |
| TreeGrowth.FlagsMonotone | Assets/Scripts/Interaction/GrowTree.cs:121-142 | death and full growth are never undone, and the two grown flags keep agreeing |
| TreeGrowth.RewardAtMostOnce | Assets/Scripts/Interaction/GrowTree.cs:137-161 | over any frames the planting progress is reported at most once, at most the four reward calls are made, and none by a tree already grown |
| TreeGrowth.Tick | Assets/Scripts/Interaction/GrowTree.cs:61-72 | a dead tree does nothing; a live frame keeps health in [0, max]; the tree is dead exactly when it was or its health reached zero; a live ungrown tree's timer advances whenever time passes, in the frame that kills it too; any calls are the one-time reward of a tree that became grown in that frame |
| TreeGrowth.GrowTree.constructor | Assets/Scripts/Interaction/GrowTree.cs:38-59 | the fields hold the planted state of the template |
| TreeGrowth.GrowTree.IsFullyGrown | Assets/Scripts/Interaction/GrowTree.cs:34 | the grown flag |
| TreeGrowth.GrowTree.CurrentHealthPercent | Assets/Scripts/Interaction/GrowTree.cs:35 | the health fraction, in [0, 1] |
| TreeGrowth.GrowTree.IsTreeDead | Assets/Scripts/Interaction/GrowTree.cs:36 | true exactly when the health is at or below zero, whatever the death flag says |
| TreeGrowth.GrowTree.SetPlayerNearby | Assets/Scripts/Interaction/GrowTree.cs:80-83 | only the nearby flag changes |
| TreeGrowth.GrowTree.Update | Assets/Scripts/Interaction/GrowTree.cs:61-72 | the state and calls follow one frame of decay, leaf look and growth; the prompt follows `NeedsWaterPrompt`; the watered mark ends when the effect is idle; `died` says exactly that this frame killed the tree |
| TreeGrowth.GrowTree.HandleHealthDecay | Assets/Scripts/Interaction/GrowTree.cs:111-123 | the new state is `Decay` of the old; `died` says exactly that it ran `HandleTreeDeath` |
| TreeGrowth.GrowTree.UpdateVisualByHealth | Assets/Scripts/Interaction/GrowTree.cs:197-213 | the new state is `Wither` of the old |
| TreeGrowth.GrowTree.HandleGrowth | Assets/Scripts/Interaction/GrowTree.cs:127-143 | the new state and calls are `Grow` of the old state |
| TreeGrowth.GrowTree.OnFullyGrown | Assets/Scripts/Interaction/GrowTree.cs:145-161 | the calls are the planting reward |
| TreeGrowth.GrowTree.TriggerGrowth | Assets/Scripts/Interaction/GrowTree.cs:267-279 | the new state is `Water` of the old, and the watered mark is set when watering took |
| TreeGrowth.GrowTree.HandleTreeDeath | Assets/Scripts/Interaction/GrowTree.cs:283-286 | the tree is dead for good; the spawner and fruits of the same death are `FruitSpawning.FruitSpawner.OnTreeDeath` |
| Watering.Heal | Assets/Scripts/Gameplay/WaterSpray.cs:108-127 | a tree missing no more than 0.01 is left alone; spraying stops exactly when the water is short of a full heal, which then empties the can; otherwise the tree is healed to its maximum |
| Watering.HealBranches | Assets/Scripts/Gameplay/WaterSpray.cs:113-126 | the two outcomes of a heal, stated over the missing health and the water it requires |
| Watering.AffordableBelowMissing | Assets/Scripts/Gameplay/WaterSpray.cs:117 | water short of a full heal buys exactly water over cost points, fewer than are missing, so the `Min` picks the affordable amount |
| Watering.HealPays | Assets/Scripts/Gameplay/WaterSpray.cs:108-127 | healing never lowers health nor lifts it past the maximum, never overdraws the can, and every point gained costs exactly `waterCostPerHP` |
| Watering.KeyedSpraying | Assets/Scripts/Gameplay/WaterSpray.cs:34-79 | Q down starts spraying unless the can is empty, which shows "Air habis!" and hides it later; Q up stops spraying |
| Watering.Spray | Assets/Scripts/Gameplay/WaterSpray.cs:81-106 | a hit tree below 40% is healed; a hit tree at or above it only wastes water; spraying at nothing wastes water and stops once the can is empty |
| Watering.SprayGuards | Assets/Scripts/Gameplay/WaterSpray.cs:32-47 | every frame is ignored while refilling, and an empty can never starts spraying |
| Watering.SprayFrame | Assets/Scripts/Gameplay/WaterSpray.cs:30-39 | while refilling nothing changes and no prompt is shown; otherwise the prompts are the key's, a spray the key leaves off only turns off, the spray can be on afterwards only if the key left it on, and the hit tree stays the hit tree |
| Watering.SprayAccounts | Assets/Scripts/Gameplay/WaterSpray.cs:30-127 | over one frame the can never gains water nor leaves its range; a hit tree's health only rises, never past the maximum, is paid for point by point when below 40%, and is untouched at or above 40% |
| Watering.SprayPays | Assets/Scripts/Gameplay/WaterSpray.cs:81-127 | the same accounting for the spraying step alone |
| Watering.HealsDeadTree | Assets/Scripts/Gameplay/WaterSpray.cs:87-127 | the spray heals a tree at zero health to full and charges for it, because nothing checks for death |
| Watering.RefillStart | Assets/Scripts/Gameplay/WaterSpray.cs:154-177 | a can within 0.01 of full gets the "already full" notice and no water; otherwise "Refilling water..." and the first step of filling towards the maximum captured at the start |
| Watering.RefillStep | Assets/Scripts/Gameplay/WaterSpray.cs:179-202 | outside filling a frame changes nothing; while filling below the captured maximum, no prompt and the water never passes the maximum nor, for a non-negative rate, drops; once at the maximum the "refilled" notice is shown, the only frame with a prompt |
| Watering.RefillReaches | Assets/Scripts/Gameplay/WaterSpray.cs:179-202 | after any frames the can holds the smaller of the start amount plus all refills and the captured maximum; it never overfills nor loses water |
| Watering.RefilledStays | Assets/Scripts/Gameplay/WaterSpray.cs:163-203 | frames never end a notice; only its two-second wait does |
| Watering.WaterSpray.constructor | Assets/Scripts/Gameplay/WaterSpray.cs:14-26 | the configured rates, not spraying, not refilling |
| Watering.WaterSpray.Update | Assets/Scripts/Gameplay/WaterSpray.cs:30-39 | the new spray flag, water, tree health and prompts are one `SprayFrame` of the old ones |
| Watering.WaterSpray.TryStartSpray | Assets/Scripts/Gameplay/WaterSpray.cs:41-66 | the spray flag and prompts follow `KeyedSpraying` for Q down |
| Watering.WaterSpray.StopSpray | Assets/Scripts/Gameplay/WaterSpray.cs:68-79 | the spray is off |
| Watering.WaterSpray.SprayLogic | Assets/Scripts/Gameplay/WaterSpray.cs:81-106 | the new spray flag, water and tree health are `Spray` of the old ones |
| Watering.WaterSpray.SprayAt | Assets/Scripts/Gameplay/WaterSpray.cs:87-99 | the hit-tree branch of `Spray` |
| Watering.WaterSpray.HealTree | Assets/Scripts/Gameplay/WaterSpray.cs:108-127 | the new health, water and spray flag are `Heal` of the old ones |
| Watering.WaterSpray.StartRefill | Assets/Scripts/Gameplay/WaterSpray.cs:131-177 | ignored while refilling; otherwise the spray stops, refilling starts and the routine and water follow `RefillStart` |
| Watering.WaterSpray.RefillFrame | Assets/Scripts/Gameplay/WaterSpray.cs:179-202 | the routine, water and prompts follow one `RefillStep` |
| Watering.WaterSpray.NoticeElapsed | Assets/Scripts/Gameplay/WaterSpray.cs:163-207 | a notice's end hides the prompt and ends refilling; otherwise nothing changes |
| Watering.WaterSpray.StopRefill | Assets/Scripts/Gameplay/WaterSpray.cs:139-152 | a running refill is cancelled and says so; otherwise nothing changes |
| Planting.PlantTakesOneSeed | Assets/Scripts/Interaction/PlantPlot.cs:83 | planting takes exactly one seed of the planted type and leaves every other stock as it was |
| Planting.EnterPrompt | Assets/Scripts/Interaction/PlantPlot.cs:140-145 | the plant prompt on an empty plot, the chop prompt on a dead tree, and the prompt hidden on a living one |
| Planting.PlantPlot.constructor | Assets/Scripts/Interaction/PlantPlot.cs:5-21 | an empty plot with the inspector's template, the player out of range |
| Planting.PlantPlot.HasLiveTree | Assets/Scripts/Interaction/PlantPlot.cs:79 | a tree stands there and its health is above zero |
| Planting.PlantPlot.SelectTreeType | Assets/Scripts/Interaction/PlantPlot.cs:64-67 | the selection is the given template |
| Planting.PlantPlot.PlantTree | Assets/Scripts/Interaction/PlantPlot.cs:70-107 | always a save first; when a type is selected, the manager exists, a seed is in stock and no live tree stands there, one seed of that type is taken (with its save) and a fresh tree of that type is planted and becomes the plot's tree, unless the type has no tree prefab, which plants nothing; a dead tree standing there is only no longer referenced by the plot and stays in the scene; otherwise neither the stock nor the tree changes |
| Planting.PlantPlot.ChopDownTree | Assets/Scripts/Interaction/PlantPlot.cs:110-124 | always a save; a standing tree is removed and the selection cleared; on an empty plot the selection stays |
| Planting.PlantPlot.Update | Assets/Scripts/Interaction/PlantPlot.cs:37-57 | E in range opens the menu exactly on an empty plot; E in range on a dead tree chops it, saves and offers planting; anything else changes nothing |
| Planting.PlantPlot.PlayerEntered | Assets/Scripts/Interaction/PlantPlot.cs:127-146 | the player is in range, the tree knows it, and the prompt follows `EnterPrompt` |
| Planting.PlantPlot.PlayerLeft | Assets/Scripts/Interaction/PlantPlot.cs:148-162 | the player is out of range, the tree knows it, and the prompt is hidden |
| SellShop.SlotFor | Assets/Scripts/UI/SellShopUI.cs:73-102 | both buttons are interactable exactly when the fruit is in stock, and the listeners capture the tree's name, price and the stock at this moment |
| SellShop.Sell | Assets/Scripts/UI/SellShopUI.cs:111-124 | no sale exactly when the fruit is out of stock, which then changes nothing; otherwise the smaller of the stock and the amount is sold |
| SellShop.SaleConserves | Assets/Scripts/UI/SellShopUI.cs:111-124 | a sale takes no more than the stock nor than asked, leaves the rest in stock, pays the price per fruit sold and touches no other fruit |
| SellShop.SellAllEmpties | Assets/Scripts/UI/SellShopUI.cs:97-116 | selling at least the whole stock empties it |
| SellShop.SellShopUI.constructor | Assets/Scripts/UI/SellShopUI.cs:18-26 | one fresh panel per registered tree type |
| SellShop.SellShopUI.PreGenerateSlots | Assets/Scripts/UI/SellShopUI.cs:28-38 | one fresh panel is appended per tree type, the earlier ones kept |
| SellShop.SellShopUI.RefreshUI | Assets/Scripts/UI/SellShopUI.cs:55-109 | every panel up to the first missing tree entry is rebuilt from the current stock; the missing entry throws, stopping the refresh with the later panels keeping their old listeners; `completed` says exactly that no entry was missing |
| SellShop.SellShopUI.SellItem | Assets/Scripts/UI/SellShopUI.cs:111-124 | the stock and coins follow `Sell`; a sale saves, announces how many fruits were sold for how many coins, and refreshes, reporting whether the refresh completed; no sale changes nothing |
| SellShop.SellShopUI.SellOneClicked | Assets/Scripts/UI/SellShopUI.cs:88-93 | a live button sells one fruit at the captured price; unless that sale's refresh threw, it then raises the tutorial event and reports one sale; a dead button does nothing |
| SellShop.SellShopUI.SellAllClicked | Assets/Scripts/UI/SellShopUI.cs:95-102 | a live button sells the stock captured at the last refresh; unless that sale's refresh threw, it then raises the tutorial event and reports one sale per captured fruit, however many were sold |
| SellShop.ReportSales | Assets/Scripts/UI/SellShopUI.cs:100-101 | exactly `stock` reports, none for a stock of zero or less |
| SellShop.RepeatSnoc | Assets/Scripts/UI/SellShopUI.cs:100-101 | one more pass of the loop adds one more report |
| SellShop.SellAllReportsCapturedStock | Assets/Scripts/UI/SellShopUI.cs:95-102 | a sell-all click reports exactly the captured stock many sales of that fruit |
| BuyShop.SlotFor | Assets/Scripts/UI/BuyShopUI.cs:72-78 | the buy button is interactable exactly with coins for the seed and a high enough level, and its listener captures the tree |
| BuyShop.Buy | Assets/Scripts/UI/BuyShopUI.cs:85-97 | a purchase is made exactly with coins for the seed and a high enough level, and then stocks one seed; a refused purchase changes nothing |
| BuyShop.PurchaseAccounts | Assets/Scripts/UI/BuyShopUI.cs:87-91 | a purchase costs exactly the seed price, never drives the coins negative, adds one seed of a registered type and touches no other seed |
| BuyShop.ButtonMatchesPurchase | Assets/Scripts/UI/BuyShopUI.cs:75-88 | with coins and level unchanged since the last update, the button is interactable exactly when the purchase goes through |
| BuyShop.BuyShopUI.constructor | Assets/Scripts/UI/BuyShopUI.cs:20-50 | one fresh panel per registered tree type |
| BuyShop.BuyShopUI.UpdateShopPanels | Assets/Scripts/UI/BuyShopUI.cs:53-83 | every panel up to the first missing tree entry is rebuilt from the current coins and level; the missing entry stops the update and the later panels keep their old state |
| BuyShop.BuyShopUI.PurchaseSeed | Assets/Scripts/UI/BuyShopUI.cs:85-109 | coins and seeds follow `Buy`; a purchase saves, shows the bought message and hides it later, and updates the panels; a refused one changes nothing |
| BuyShop.BuyShopUI.BuyClicked | Assets/Scripts/UI/BuyShopUI.cs:73 | a live button buys the captured tree with the same outcome as `PurchaseSeed`; a dead one does nothing |
| Inventory.FirstNamed | Assets/Scripts/UI/ItemSlot.cs:33-40 | the index of the first registered template with the name, skipping missing entries, or the length when there is none |
| Inventory.TemplateFor | Assets/Scripts/UI/ItemSlot.cs:31-43 | a template is found exactly when one of that name is registered, and it is one of the registered templates |
| Inventory.Quantity | Assets/Scripts/UI/ItemSlot.cs:58-60 | a seed slot reads the seed stock, a fruit slot the fruit stock |
| Inventory.DropAmount | Assets/Scripts/UI/ItemSlot.cs:103 | all of the shown quantity, or one |
| Inventory.DropRemoves | Assets/Scripts/UI/ItemSlot.cs:99-108 | dropping all empties the stock, dropping one from an up-to-date slot decrements it, the stock never goes negative, and no other item's stock changes |
| Inventory.FirstNamedIs | Assets/Scripts/UI/ItemSlot.cs:33-40 | the index where a left-to-right search stops is `FirstNamed` |
| Inventory.ItemSlot.constructor | Assets/Scripts/UI/ItemSlot.cs:19-28 | the template is looked up, the quantity shown (the slot hidden exactly when it is not positive) and the border hidden |
| Inventory.ItemSlot.FindTreeData | Assets/Scripts/UI/ItemSlot.cs:31-43 | the template is `TemplateFor` the item's name |
| Inventory.ItemSlot.UpdateSlotUI | Assets/Scripts/UI/ItemSlot.cs:54-80 | no template: nothing changes; otherwise the quantity is read from the matching stock and the slot is shown exactly when it is positive, a shown slot losing its border |
| Inventory.ItemSlot.OnSlotClicked | Assets/Scripts/UI/ItemSlot.cs:83-96 | an empty slot deselects; otherwise the slot is selected and shows its border |
| Inventory.ItemSlot.DropItem | Assets/Scripts/UI/ItemSlot.cs:99-119 | nothing when the shown quantity is not positive; otherwise the drop amount is taken from the slot's own stock only, with its save, and a drop-all deselects |
| FruitSpawning.SeeOneMore | Assets/Scripts/Gameplay/FruitSpawner.cs:66-150 | looking at one more point adds it to the count, and its fruit to the live fruits, exactly when it holds a live fruit |
| FruitSpawning.FreePoints | Assets/Scripts/Gameplay/FruitSpawner.cs:75-86 | the free points are exactly the spawn points that are not destroyed and hold no live fruit |
| FruitSpawning.HalfSpeedUnreachable | Assets/Scripts/Gameplay/FruitSpawner.cs:42-49 | past the guards of `Update` the speed multiplier is always one: the half-speed branch never runs |
| FruitSpawning.TimerStep | Assets/Scripts/Gameplay/FruitSpawner.cs:51-57 | a spawn is attempted exactly when the timer reaches the interval, which resets it; otherwise the timer grows and stays below the interval |
| FruitSpawning.TimerPaces | Assets/Scripts/Gameplay/FruitSpawner.cs:51-57 | over any gated frames the number of spawn attempts times the interval is at most the time that passed plus what the timer held, less what it still holds |
| FruitSpawning.SpawnAt | Assets/Scripts/Gameplay/FruitSpawner.cs:63-104 | nothing changes at capacity or without a free point; a spawn throws exactly when it reaches the pool and the tree's queue is empty or fronted by a destroyed fruit, and then maps nothing |
| FruitSpawning.SpawnPlacesAtFreePoint | Assets/Scripts/Gameplay/FruitSpawner.cs:75-103 | a spawn changes the map at one point only, a live spawn point that held no live fruit and now holds the live fruit the pool handed out |
| FruitSpawning.Swept | Assets/Scripts/Gameplay/FruitSpawner.cs:117-137 | the points stay; destroyed points are skipped; every other point keeps its fruit exactly when that fruit is live and not displaced, and is cleared otherwise |
| FruitSpawning.SweepFreesDisplaced | Assets/Scripts/Gameplay/FruitSpawner.cs:117-137 | after a sweep the points holding a live fruit are those before, less the displaced ones that still exist |
| FruitSpawning.CountOccupied | Assets/Scripts/Gameplay/FruitSpawner.cs:65-70 | the count is the number of points holding a live fruit |
| FruitSpawning.LiveList | Assets/Scripts/Gameplay/FruitSpawner.cs:144-152 | one entry per point holding a live fruit, and exactly the fruits held live somewhere |
| FruitSpawning.FruitSpawner.constructor | Assets/Scripts/Gameplay/FruitSpawner.cs:19-35 | the tree on the same object, the template it held then, and the spawn-point parent's children, or no points without a parent |
| FruitSpawning.FruitSpawner.Update | Assets/Scripts/Gameplay/FruitSpawner.cs:37-61 | a closed gate changes nothing; past it the timer follows `TimerStep` and a spawn attempt follows `SpawnAt`; the first open frame starts the sweep unless its spawn threw, which ends the frame with the sweep not started and `isSpawning` unchanged |
| FruitSpawning.FruitSpawner.TrySpawnFruit | Assets/Scripts/Gameplay/FruitSpawner.cs:63-104 | the new map and pool, and whether the pool threw, are `SpawnAt` of the old state over the pool's destroyed fruits |
| FruitSpawning.FruitSpawner.CountActive | Assets/Scripts/Gameplay/FruitSpawner.cs:65-70 | the number of points holding a live fruit |
| FruitSpawning.FruitSpawner.AvailablePoints | Assets/Scripts/Gameplay/FruitSpawner.cs:75-86 | the free points, in spawn-point order |
| FruitSpawning.FruitSpawner.GetActiveFruits | Assets/Scripts/Gameplay/FruitSpawner.cs:142-153 | one entry per point holding a live fruit, and exactly the fruits held live somewhere |
| FruitSpawning.FruitSpawner.SweepOnce | Assets/Scripts/Gameplay/FruitSpawner.cs:106-138 | a stopped sweep changes nothing; a running one ends exactly when the tree or its template is missing, changing nothing and marking itself stopped; otherwise the map becomes `Swept` |
| FruitSpawning.FruitSpawner.StopAllCoroutines | Assets/Scripts/Interaction/GrowTree.cs:290 | the sweep is stopped; `isSpawning` keeps its value, so `Update` never starts another |
| FruitSpawning.FruitSpawner.OnTreeDeath | Assets/Scripts/Interaction/GrowTree.cs:290-294 | the spawner's sweep stops with `isSpawning` kept, and the fruits hanging from the tree are destroyed and switched off; every other fruit keeps its flag |
| FruitPool.FruitTrees | Assets/Scripts/Managers/FruitPoolManager.cs:20-26 | a pool is built for exactly the names of registered templates with a fruit prefab |
| FruitPool.Rotate | Assets/Scripts/Managers/FruitPoolManager.cs:57-61 | a dequeue then an enqueue keeps the length and puts the front fruit last |
| FruitPool.IndexIsMod | Assets/Scripts/Managers/FruitPoolManager.cs:57-61 | after `k` rotations the front of a queue of length `n` is its element `k mod n` |
| FruitPool.RotateKeepsFruits | Assets/Scripts/Managers/FruitPoolManager.cs:57-61 | a rotation moves every other fruit one place forward and keeps the queue's fruits, each as often |
| FruitPool.RotatedKeepsFruits | Assets/Scripts/Managers/FruitPoolManager.cs:57-61 | any number of rotations keeps the queue's fruits, each as often |
| FruitPool.GetFruitOn | Assets/Scripts/Managers/FruitPoolManager.cs:48-63 | an unknown tree gets nothing and changes nothing; an empty queue throws and changes nothing; a destroyed front fruit is dequeued and lost, nothing is returned and the call throws; otherwise the front fruit is returned, switched on and moved to the back |
| FruitPool.DrawSwitchesOnlyItsFruit | Assets/Scripts/Managers/FruitPoolManager.cs:56-61 | a draw switches on only the fruit it returns, never a destroyed one, and forgets no fruit |
| FruitPool.DrawKeepsQueues | Assets/Scripts/Managers/FruitPoolManager.cs:56-61 | no queue appears, disappears or grows and other trees' queues are untouched; the drawn queue keeps its fruits, each as often, exactly when its front fruit was not destroyed |
| FruitPool.DestroyedFrontIsLost | Assets/Scripts/Managers/FruitPoolManager.cs:56-58 | a draw that finds its front fruit destroyed throws, returns nothing, and the queue loses exactly that fruit |
| FruitPool.DrawnIsRotated | Assets/Scripts/Managers/FruitPoolManager.cs:57-61 | `k` draws leave the `k`-th rotation of the first queue |
| FruitPool.RoundRobin | Assets/Scripts/Managers/FruitPoolManager.cs:48-63 | for draws that all succeed, the call after `k` draws returns element `k mod poolSize` of the first queue, and the queue keeps its fruits |
| FruitPool.LiveDrawIsRoundRobin | Assets/Scripts/Managers/FruitPoolManager.cs:48-63 | while no fruit of the queue is destroyed, each `GetFruit` succeeds, returns element `k mod poolSize` of the first queue after `k` draws and leaves the next rotation |
| FruitPool.RecycledWhileActive | Assets/Scripts/Managers/FruitPoolManager.cs:57-61 | the draw `poolSize` calls later returns the same object, whether or not it is still in use |
| FruitPool.StockedAdd | Assets/Scripts/Managers/FruitPoolManager.cs:28-44 | queuing a new tree's freshly made fruits keeps every queued fruit known and switched off, and every queue of distinct fruits |
| FruitPool.FruitPoolManager.constructor | Assets/Scripts/Managers/FruitPoolManager.cs:14-46 | one queue per fruit-bearing tree name, each of `poolSize` distinct fruits, all switched off, none destroyed |
| FruitPool.FruitPoolManager.MakeFruits | Assets/Scripts/Managers/FruitPoolManager.cs:30-42 | `poolSize` new fruits, switched off, in creation order; nothing else changes |
| FruitPool.FruitPoolManager.GetFruit | Assets/Scripts/Managers/FruitPoolManager.cs:48-63 | the new pools, flags and result, and whether the call threw, are `GetFruitOn` of the old state over the destroyed fruits; no destroyed fruit is ever switched on |
| FruitPool.FruitPoolManager.ReturnFruit | Assets/Scripts/Managers/FruitPoolManager.cs:65-68 | the fruit is switched off and no queue changes; for a destroyed fruit the call throws and nothing changes |
| FruitPool.FruitPoolManager.DestroyFruits | Assets/Scripts/Interaction/GrowTree.cs:293-294 | the fruits count as destroyed and are switched off; every other fruit keeps its flag, and no destroyed fruit is switched on |
| GlobalUI.Open | Assets/Scripts/UI/GlobalUIManager.cs:31-68 | null does nothing; the pause menu and excluded panels are only shown; nothing else opens while a panel is stacked; the stack changes exactly when a hidden normal panel opens on an empty stack, which pushes it, locks the player and blocks pause; the invariant is kept |
| GlobalUI.Release | Assets/Scripts/UI/GlobalUIManager.cs:102-111 | the player is released exactly when the stack is empty and the game not paused, and the release unlocks the player and unblocks pause |
| GlobalUI.Close | Assets/Scripts/UI/GlobalUIManager.cs:71-112 | null does nothing; any other panel is hidden; the stack changes exactly when the shown normal panel is its top, which is popped; an empty stack unlocks the player unless paused, a non-empty one never does; the invariant is kept |
| GlobalUI.EscapeClosesTopOrPauses | Assets/Scripts/UI/GlobalUIManager.cs:115-126 | Escape with a panel open closes exactly that panel, never toggles pause and unlocks the player exactly when the game is not paused; with none open it only toggles pause |
| GlobalUI.CloseAll | Assets/Scripts/UI/GlobalUIManager.cs:129-138 | every stacked panel is hidden and no other, the stack is empty, the player unlocked and pause unblocked |
| GlobalUI.OpenThenCloseReleases | Assets/Scripts/UI/GlobalUIManager.cs:31-112 | opening a normal panel and closing it again restores the screen, locking the player and then releasing it |
| GlobalUI.GlobalUIManager.constructor | Assets/Scripts/UI/GlobalUIManager.cs:11-22 | an empty stack with the scene's shown panels |
| GlobalUI.GlobalUIManager.IsAnyPanelOpen | Assets/Scripts/UI/GlobalUIManager.cs:17 | true exactly when one panel is stacked |
| GlobalUI.GlobalUIManager.OpenPanel | Assets/Scripts/UI/GlobalUIManager.cs:31-68 | the new screen and calls are `Open` of the old, and the invariant is kept |
| GlobalUI.GlobalUIManager.ClosePanel | Assets/Scripts/UI/GlobalUIManager.cs:71-112 | the new screen and calls are `Close` of the old, and the invariant is kept |
| GlobalUI.GlobalUIManager.HandleEscape | Assets/Scripts/UI/GlobalUIManager.cs:115-126 | the new screen and calls are `Escape` of the old |
| GlobalUI.GlobalUIManager.CloseAllPanels | Assets/Scripts/UI/GlobalUIManager.cs:129-138 | the new screen and calls are `CloseAll` of the old |
| Prompts.RemoveFirstAt | Assets/Scripts/UI/PromptManager.cs:129 | in a list of distinct prompts, `List.Remove` of prompt `i` removes exactly position `i` and keeps the rest in order |
| Prompts.OthersMembers | Assets/Scripts/UI/PromptManager.cs:87-96 | the prompts kept by `HideContext` are exactly those of other owners |
| Prompts.OwnedIdsCover | Assets/Scripts/UI/PromptManager.cs:87-96 | every prompt of the owner is among those `HideContext` hides |
| Prompts.FirstOwned | Assets/Scripts/UI/PromptManager.cs:65-107 | the index of the first context prompt of the owner, none before it, or the length when it has none |
| Prompts.FindOwned | Assets/Scripts/UI/PromptManager.cs:65-107 | the search loop stops at `FirstOwned` |
| Prompts.Reposition | Assets/Scripts/UI/PromptManager.cs:138-147 | prompt `i` of the list sits `i` spacings above the base; no other prompt moves |
| Prompts.OwnerKeepsOneContext | Assets/Scripts/UI/PromptManager.cs:63-96 | spawning through `ShowContext` keeps at most one context prompt per owner, and `HideContext` leaves the owner none |
| Prompts.OthersKeepsOrder | Assets/Scripts/UI/PromptManager.cs:87-96 | hiding one owner's prompts keeps one prompt per owner among the rest |
| Prompts.OthersUnique | Assets/Scripts/UI/PromptManager.cs:87-96 | the prompts kept stay distinct and none has the identity of a hidden one |
| Prompts.ClearAllAsWritten | Assets/Scripts/UI/PromptManager.cs:150-160 | as written, the first hide invalidates the enumeration: only the first notification (or, with none, the first context prompt) is hidden and neither list is cleared |
| Prompts.ClearAllAsWrittenLeavesPrompts | Assets/Scripts/UI/PromptManager.cs:150-160 | with two notifications shown, `ClearAll` as written leaves the second on screen and every context prompt with it |
| Prompts.Withdraw | Assets/Scripts/UI/PromptManager.cs:127-131 | a hidden prompt leaves its list, the rest stay distinct and in order and are laid out from the hidden prompt's base; nothing outside the list moves (the callback `PromptInstance.Hide` runs) |
| Prompts.HideOwned | Assets/Scripts/UI/PromptManager.cs:87-96 | the loop from the back leaves exactly the other owners' prompts, in order, hides exactly the owner's, and lays the rest out from the base of the first of them; with none nothing moves |
| Prompts.HideAll | Assets/Scripts/UI/PromptManager.cs:162-170 | the loop from the back hides every prompt of the list, moving nothing outside it |
| Prompts.PairSpawn | Assets/Scripts/UI/PromptManager.cs:114-135 | spawning keeps both lists distinct, disjoint, alive and laid out, the new prompt's list from the new base |
| Prompts.PairHide | Assets/Scripts/UI/PromptManager.cs:127-131 | hiding a prompt keeps both lists distinct, disjoint, alive and laid out, its list from its base |
| Prompts.PairHideOwned | Assets/Scripts/UI/PromptManager.cs:87-96 | `HideContext` keeps both lists distinct, disjoint, alive and laid out |
| Prompts.PairClear | Assets/Scripts/UI/PromptManager.cs:162-170 | emptying one list keeps the other distinct, alive and laid out |
| Prompts.PairRetext | Assets/Scripts/UI/PromptManager.cs:105 | changing a context prompt's text (`PromptInstance.SetText`) keeps both lists distinct, disjoint, alive and laid out |
| Prompts.AppendNotification | Assets/Scripts/UI/PromptManager.cs:114-135 | a fresh notification joins the end of its list, which is laid out from the given base, and the invariant is kept |
| Prompts.AppendContext | Assets/Scripts/UI/PromptManager.cs:114-135 | a fresh context prompt joins the end of its list, which is laid out from the given base, and the invariant is kept |
| Prompts.WithdrawNotification | Assets/Scripts/UI/PromptManager.cs:127-131 | a hidden notification leaves its list, which is laid out from its base, and the invariant is kept |
| Prompts.WithdrawContext | Assets/Scripts/UI/PromptManager.cs:127-131 | a hidden context prompt leaves its list, which is laid out from its base, and the invariant is kept |
| Prompts.WithdrawOwned | Assets/Scripts/UI/PromptManager.cs:87-96 | the owner's context prompts are hidden, the others kept in order and laid out from the base of the first hidden; the invariant is kept |
| Prompts.PromptManager.constructor | Assets/Scripts/UI/PromptManager.cs:15-31 | empty lists with the inspector's spacing and base positions |
| Prompts.PromptManager.SpawnPrompt | Assets/Scripts/UI/PromptManager.cs:114-135 | a new prompt with a fresh identity joins the end of its kind's list, which is laid out from the given base; only a notification with a positive duration hides itself (`PromptInstance.Setup`); the other list is untouched |
| Prompts.PromptManager.Notify | Assets/Scripts/UI/PromptManager.cs:34-46 | a fresh ownerless notification joins the end of the notifications at the default base |
| Prompts.PromptManager.NotifyAt | Assets/Scripts/UI/PromptManager.cs:48-60 | a fresh ownerless notification joins the end of the notifications at the given base |
| Prompts.PromptManager.ShowContextAt | Assets/Scripts/UI/PromptManager.cs:74-85 | a fresh context prompt of the owner, never hiding itself, joins the end of the context list at the given base |
| Prompts.PromptManager.ShowContext | Assets/Scripts/UI/PromptManager.cs:63-72 | a prompt is spawned exactly when the owner has none; then one prompt of the owner with the text at the default base is appended; otherwise nothing changes |
| Prompts.PromptManager.HidePrompt | Assets/Scripts/UI/PromptInstance.cs:56-63 | the prompt is destroyed and its callback (`PromptManager.cs` lines 127-131) takes it out of its list, which is laid out from its base; the other list is untouched |
| Prompts.PromptManager.HideNotification | Assets/Scripts/UI/PromptInstance.cs:56-63 | hiding a notification, as `HidePrompt` |
| Prompts.PromptManager.HideContextPrompt | Assets/Scripts/UI/PromptInstance.cs:56-63 | hiding a context prompt, as `HidePrompt` |
| Prompts.PromptManager.Expire | Assets/Scripts/UI/PromptInstance.cs:49-53 | an auto-hiding notification's timer removes exactly it from the notifications and destroys it |
| Prompts.PromptManager.HideContext | Assets/Scripts/UI/PromptManager.cs:87-96 | exactly the owner's context prompts are destroyed, the others kept in order; with none nothing moves |
| Prompts.PromptManager.RefreshContext | Assets/Scripts/UI/PromptManager.cs:98-111 | the owner's first context prompt gets the new text and nothing moves; without one a new prompt of the owner with that text is appended |
| Prompts.PromptManager.ClearAllContext | Assets/Scripts/UI/PromptManager.cs:162-170 | every context prompt is destroyed and the list emptied; the notifications are untouched |
| Prompts.PromptManager.ClearAll | Assets/Scripts/UI/PromptManager.cs:150-160 | as evidently intended: every prompt of both lists is destroyed and both lists are empty |
| Prompts.PromptManager.ResetAll | Assets/Scripts/UI/PromptManager.cs:172-175 | as the corrected `ClearAll`: both lists empty and every prompt hidden; the source's `ResetAll` runs the `ClearAll` that throws after one notification (see Findings) |
| PromptDisplay.ShowOn | Assets/Scripts/UI/PromptUI.cs:33-48 | the prompt is shown with the caller as owner, its text and position |
| PromptDisplay.HideOn | Assets/Scripts/UI/PromptUI.cs:50-57 | the current owner or a null caller hides the prompt and clears the owner; anyone else changes nothing |
| PromptDisplay.TakeOver | Assets/Scripts/UI/PromptUI.cs:33-57 | after another component shows its text, the first component's hide leaves that text shown |
| PromptDisplay.OwnHideHides | Assets/Scripts/UI/PromptUI.cs:33-57 | the owner's hide hides what it showed, and any later non-null hide is then a no-op |
| PromptDisplay.PickupExpiryHidesLaterPrompt | Assets/Scripts/UI/PromptUI.cs:21-57 | a pickup message's delayed anonymous hide also hides a prompt another component showed in between |
| PromptDisplay.Apply | Assets/Scripts/UI/PromptUI.cs:33-57 | a component's show request shows under its name; a hide, immediate or delayed, is its own hide |
| PromptDisplay.NoticeKeepsOtherPrompt | Assets/Scripts/UI/PromptUI.cs:50-57 | a component's delayed hide never hides what another component showed in between |
| PromptDisplay.PromptUI.constructor | Assets/Scripts/UI/PromptUI.cs:9-19 | hidden, unowned, at the default position |
| PromptDisplay.PromptUI.Show | Assets/Scripts/UI/PromptUI.cs:33-39 | the new display is `ShowOn` at the default position |
| PromptDisplay.PromptUI.ShowAt | Assets/Scripts/UI/PromptUI.cs:41-48 | the new display is `ShowOn` at the given position |
| PromptDisplay.PromptUI.Hide | Assets/Scripts/UI/PromptUI.cs:50-57 | the new display is `HideOn` |
| PromptDisplay.PromptUI.ShowPickupMessage | Assets/Scripts/UI/PromptUI.cs:21-29 | an ownerless show at the default position |
| PromptDisplay.PromptUI.PickupExpired | Assets/Scripts/UI/PromptUI.cs:30-31 | an anonymous hide |
| Guide.Add | Assets/Scripts/Managers/GuideManager.cs:106-112 | a null, destroyed or already tracked target changes nothing; a new live target gets a freshly instantiated arrow, every other target keeps its own, and no arrow is shared or leaked |
| Guide.FreshArrowSound | Assets/Scripts/Managers/GuideManager.cs:110-111 | giving an untracked target the next instantiated arrow keeps every arrow owned by exactly one target or destroyed |
| Guide.FreshArrowLeaksNone | Assets/Scripts/Managers/GuideManager.cs:110-111 | after that step every arrow not destroyed is shown for some target |
| Guide.Remove | Assets/Scripts/Managers/GuideManager.cs:114-123 | a live tracked target loses its arrow, which is destroyed; a null, destroyed or untracked target changes nothing |
| Guide.ClearTutorial | Assets/Scripts/Managers/GuideManager.cs:89-95 | the tutorial target is dropped, its arrow removed when the target is alive, and every other target keeps its arrow |
| Guide.PointAt | Assets/Scripts/Managers/GuideManager.cs:79-87 | the old tutorial arrow is cleared; a live target becomes the tutorial target with an arrow; a null or destroyed one leaves no tutorial target |
| Guide.EnsureTutorial | Assets/Scripts/Managers/GuideManager.cs:97-103 | a live tutorial target has an arrow afterwards; nothing else changes, and nothing at all when it already had one or is gone |
| Guide.ClearAll | Assets/Scripts/Managers/GuideManager.cs:125-135 | no arrow and no tutorial target remain, and every arrow instantiated so far is destroyed |
| Guide.Cleanup | Assets/Scripts/Managers/GuideManager.cs:54-76 | exactly the destroyed targets lose their entries, their arrows are destroyed, the surviving targets keep theirs |
| Guide.AddTwiceIsOnce | Assets/Scripts/Managers/GuideManager.cs:108 | adding a target twice spawns one arrow, like adding it once |
| Guide.RemoveUndoesAdd | Assets/Scripts/Managers/GuideManager.cs:106-123 | removing a target just added restores the map, and the destroyed arrow is the one the add spawned |
| Guide.PointToMovesArrow | Assets/Scripts/Managers/GuideManager.cs:79-95 | pointing to a new live target moves the tutorial arrow to it and leaves every other target's arrow alone |
| Guide.TutorialSharesGameplayArrow | Assets/Scripts/Managers/GuideManager.cs:79-95 | a tutorial target that already had a gameplay arrow reuses it, and clearing the tutorial removes that gameplay arrow |
| Guide.EnsureRestoresRemoved | Assets/Scripts/Managers/GuideManager.cs:97-103 | a live tutorial arrow removed with `RemoveTarget` is restored by `EnsureTutorialArrowActive` |
| Guide.DestroyedTutorialArrowLingers | Assets/Scripts/Managers/GuideManager.cs:89-95 | a destroyed tutorial target keeps its arrow through `ClearTutorialGuide`; only the next frame's cleanup destroys it |
| Guide.ClearAllSettles | Assets/Scripts/Managers/GuideManager.cs:125-135 | after `ClearAllTargets` a frame's cleanup and a second clear change nothing |
| Guide.GuideManager.constructor | Assets/Scripts/Managers/GuideManager.cs:39-52 | `Awake` starts with no arrows, no tutorial target and the narrative panel hidden |
| Guide.GuideManager.AddTarget | Assets/Scripts/Managers/GuideManager.cs:106-112 | the new state is `Add` of the old one, arrows staying owned or destroyed |
| Guide.GuideManager.RemoveTarget | Assets/Scripts/Managers/GuideManager.cs:114-123 | the new state is `Remove` of the old one |
| Guide.GuideManager.ClearTutorialGuide | Assets/Scripts/Managers/GuideManager.cs:89-95 | the new state is `ClearTutorial` of the old one |
| Guide.GuideManager.PointTo | Assets/Scripts/Managers/GuideManager.cs:79-87 | the new state is `PointAt` of the old one |
| Guide.GuideManager.EnsureTutorialArrowActive | Assets/Scripts/Managers/GuideManager.cs:97-103 | the new state is `EnsureTutorial` of the old one |
| Guide.GuideManager.ClearAllTargets | Assets/Scripts/Managers/GuideManager.cs:125-135 | the new state is `ClearAll` of the old one |
| Guide.GuideManager.Update | Assets/Scripts/Managers/GuideManager.cs:54-76 | the new state is `Cleanup` of the old one |
| Guide.GuideManager.ShowNarrative | Assets/Scripts/Managers/GuideManager.cs:205-216 | the narrative panel is shown with the given text |
| Guide.GuideManager.HideNarrative | Assets/Scripts/Managers/GuideManager.cs:218-222 | the narrative panel is hidden |
| Guide.GuideManager.ResetAll | Assets/Scripts/Managers/GuideManager.cs:224-228 | every arrow is cleared and the narrative hidden |
| Guide.Sweep | Assets/Scripts/Managers/GuideManager.cs:56-75 | nothing happens to an empty map; otherwise the two loops keep exactly the surviving targets and destroy exactly the orphaned arrows |
| Guide.CollectGone | Assets/Scripts/Managers/GuideManager.cs:58-72 | the first loop collects exactly the destroyed targets and destroys their arrows |
| Guide.RemoveAll | Assets/Scripts/Managers/GuideManager.cs:74-75 | the second loop removes exactly the collected targets |
| Guide.DestroyAll | Assets/Scripts/Managers/GuideManager.cs:127-131 | every arrow in the map is destroyed |

## Left out

- Presentation: texts, icons, colours, fades, scaling, particles, audio, animation, the cursor and the time scale.
- Input and the frame loop: key presses, ray casts, navigation arrival and the frame time are inputs; nothing is read from a device.
- Persistence: the save system itself is not modelled. Save requests are `SaveGame` calls and save records are values, so the model does not say when files are written.
- `Awake` methods: the duplicate-singleton branch (`Destroy(gameObject)` of a second instance) is engine bookkeeping.
- Exceptions: where the source would throw (a null dereference, a negative list index, a missing prefab), the model stops the operation at that point and keeps the state already reached.
- `TreeGrowth.Sane`: a `TreeData` with a zero `maxHealth` or `timeNeededToGrow` makes the source divide by zero into floating-point infinities. The model requires both to be positive and does not model the infinities.
- Floating point: times, health, water and pollution are `real`, with no rounding.
- Integer width: coins, XP, levels, stocks and the sale total `jumlahJual * harga` (`SellShopUI.cs:116`) are C# `int`, which wraps around past 2^31 - 1. The model's `int` is unbounded, so overflow is not modelled.
- `Watering.Heal`: a `waterCostPerHP` of zero is not modelled; the model requires a positive cost. With a zero cost a heal costs nothing and the source never divides, which the model does not cover.
- The prompt timers: the delayed hide of a prompt is the `HideLater` operation or an explicit `Expire`/`PickupExpired` call, not a clock.
- `FruitSpawning`: the random pick is the `pick` input. Distances are the `displaced` set. The sweep coroutine is one `SweepOnce` pass per call while `sweepRunning` holds. It ends when the tree or its template is missing, or when `HandleTreeDeath` stops the spawner's coroutines.
- `FruitPool`: the position, rotation and pickup component set up on each fruit are not modelled. Which tree a fruit hangs from is not tracked either: the destroyed fruits are the pool's `destroyed` set, filled by `DestroyFruits`. The visual effect of recycling a fruit that is still active is not modelled, only the recycling itself.
- `FruitPool.RoundRobin`: it holds for draws that all succeed, as they do while no fruit of the queue is destroyed (`FruitPool.LiveDrawIsRoundRobin`). A draw whose front fruit was destroyed stops with that fruit dropped from the queue (`FruitPool.DestroyedFrontIsLost`); later draws rotate the shorter queue, which the lemma does not describe.
- `TreeGrowth.GrowTree.HandleTreeDeath`: the tree model holds neither its spawner nor its child objects. `GrowTree.Update` reports the frame of death as `died`. The caller then runs `FruitSpawning.FruitSpawner.OnTreeDeath`, which models the rest of the death (`GrowTree.cs:290-294`). The fruits still hanging from the tree are its `hanging` input, because the shake that detaches fruits (`TreePhysic.cs`) is not part of this model. The other children, the colour transition and the dead-trunk prefab are presentation.
- `Planting.PlantPlot.ChopDownTree`: destroying the tree also destroys its spawner and the fruits hanging from it. The plot model holds no spawner. The destruction of the fruits is `FruitPool.FruitPoolManager.DestroyFruits`, which the caller runs with the fruits still hanging.
- `Guide`: the arrow geometry (`UpdateArrow`) and the typing animation of the narrative (`TextWriter`) are presentation. A destroyed tutorial target's arrow is kept until the next `Update`, as in the source.
- `Prompts`: anchored positions are a map from prompt identity to position. Null entries never occur in the prompt lists, because every hide removes its prompt first, so the source's null checks are not modelled.
- `GlobalUI`: the player lock and the pause menu are calls, and whether the game is paused is a parameter.
- `Inventory`: the inventory redraw after a drop is presentation.
- `TreeGrowth`: the dead-trunk prefab and the leaf-material lookup are presentation, apart from the `hasLeafMaterial` flag.
- Inspector defaults: values the scenes set in the inspector are parameters or constants. Where the model uses a constant, it is the one written in the source.
- `QuestUI.QuestUIManager`: the manager holds its panels by value, one panel value per shown quest, so aliasing between panel objects and the dictionary entries is not modelled.
- `QuestUI.QuestUIManager.Tick`: after a frame in which a quest fails, the display is only proved band-ordered (the four status bands in order), not fully sorted within each band by its clock.
- `Quests.QuestManager.ShowQuest`: `QuestManager` calls the one-argument `QuestUIManager.ShowQuest(q)`, which the UI file no longer declares. It is modelled as the two-argument call with `isRestore` false.
- `Quests.QuestManager.StartQuest`: `keys` keeps the quests in insertion order. A .NET `Dictionary` reuses the slot freed by a `Remove` (`QuestManager.cs:92`, `QuestManager.cs:106`). Claiming B out of A, B, C and then starting D therefore enumerates A, D, C, where the model has A, C, D. .NET does not specify this order, so what the model says about the order of `keys` holds for the model only.
- `Quests.QuestManager.ClaimQuest`: the `ModifyPollution(q.rewardPollutionReduction)` call (`QuestManager.cs:88`) is not modelled, because `QuestData.cs` does not declare that field.
- `NpcQuest.NPCQuestController.AssignNextQuest`: the `GuideManager.AddTarget` call on the next NPC (`NPCQuestController.cs:137`) is not part of the NPC model.
- `Tutorial.TutorialManager.StartStep`: the `ResolveNPCTarget` lookup and the guide-arrow calls are left out; the step and its narrative text are kept.
- `TreeGrowth`: a tree without `TreeData` is not modelled; the class invariant requires sane data.
- `TreeGrowth.Water`: it models `TriggerGrowth`, which `WaterSpray` does not call. The watering can writes the tree's health itself (`Watering.Heal`).

## Findings

| source | as written | input that shows it | evidently intended | confidence | as-written member | corrected member |
|---|---|---|---|---|---|---|
| Assets/Scripts/UI/PromptManager.cs:150-160 | `ClearAll` enumerates `notifications` with `foreach` and calls `Hide` on each entry. The prompt's destroy callback removes it from the list being enumerated, so the next step of the enumeration throws: one prompt is hidden and neither list is cleared. | two notifications shown, then `ClearAll` | every prompt is hidden and both lists are empty | not executed | Prompts.ClearAllAsWrittenLeavesPrompts | Prompts.PromptManager.ClearAll |
