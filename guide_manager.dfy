/** The on-screen guide arrows (`GuideManager`): one arrow per world target
    the player should walk to, a tutorial target among them, and the
    narrative panel.

    Targets are transform identities; a target argument that Unity would
    treat as null is `None`, and `gone` is the set of transforms destroyed
    so far (Unity's overloaded null test is true for them too). Arrows are
    numbered in the order they are instantiated; `destroyed` records which
    arrows have been destroyed. The arrow geometry is not modelled. */
module Guide {
  import opened GameData

  type ArrowId = nat

  /** The guide's state as a value. */
  datatype Guides = Guides(
    arrows: map<TransformId, ArrowId>,
    tutorial: Option<TransformId>,
    nextArrow: nat,
    destroyed: set<ArrowId>)

  /** No arrow is shared and none is leaked: every arrow instantiated so far
      is shown for exactly one target or has been destroyed, never both. */
  ghost predicate Sound(g: Guides)
  {
    (forall t :: t in g.arrows ==> g.arrows[t] < g.nextArrow && g.arrows[t] !in g.destroyed) &&
    (forall s, t :: s in g.arrows && t in g.arrows && s != t ==> g.arrows[s] != g.arrows[t]) &&
    (forall a :: a in g.destroyed ==> a < g.nextArrow) &&
    (forall a :: 0 <= a < g.nextArrow && a !in g.destroyed ==> exists t :: t in g.arrows && g.arrows[t] == a)
  }

  /** Unity's `if (target)`: not null and not destroyed. */
  predicate Alive(t: Option<TransformId>, gone: set<TransformId>)
  {
    t.Some? && t.value !in gone
  }

  /** `AddTarget`: a null or destroyed target, or one that already has an
      arrow, changes nothing; any other target gets a freshly instantiated
      arrow and every other target keeps its own. */
  function Add(g: Guides, t: Option<TransformId>, gone: set<TransformId>): (r: Guides)
    ensures Sound(g) ==> Sound(r)
    ensures !Alive(t, gone) || t.value in g.arrows ==> r == g
    ensures Alive(t, gone) ==> r.arrows.Keys == g.arrows.Keys + {t.value}
    ensures Sound(g) && Alive(t, gone) && t.value !in g.arrows ==>
              r.arrows[t.value] !in g.arrows.Values && r.arrows[t.value] !in g.destroyed &&
              r.nextArrow == g.nextArrow + 1
    ensures forall s :: s in g.arrows ==> r.arrows[s] == g.arrows[s]
    ensures r.tutorial == g.tutorial && r.destroyed == g.destroyed
  {
    if !Alive(t, gone) || t.value in g.arrows then g
    else
      var r := g.(arrows := g.arrows[t.value := g.nextArrow], nextArrow := g.nextArrow + 1);
      assert Sound(g) ==> Sound(r) by {
        if Sound(g) {
          FreshArrowSound(g, t.value);
        }
      }
      r
  }

  /** Giving an untracked target the next arrow number keeps `Sound`. */
  lemma FreshArrowSound(g: Guides, k: TransformId)
    requires Sound(g) && k !in g.arrows
    ensures Sound(g.(arrows := g.arrows[k := g.nextArrow], nextArrow := g.nextArrow + 1))
  {
    FreshArrowLeaksNone(g, k);
  }

  lemma FreshArrowLeaksNone(g: Guides, k: TransformId)
    requires Sound(g) && k !in g.arrows
    ensures var r := g.(arrows := g.arrows[k := g.nextArrow], nextArrow := g.nextArrow + 1);
            forall a :: 0 <= a < r.nextArrow && a !in r.destroyed ==> exists t :: t in r.arrows && r.arrows[t] == a
  {
    var m := g.arrows[k := g.nextArrow];
    forall a | 0 <= a < g.nextArrow + 1 && a !in g.destroyed
      ensures exists s :: s in m && m[s] == a
    {
      if a == g.nextArrow {
        assert m[k] == a;
      } else {
        var s :| s in g.arrows && g.arrows[s] == a;
        assert m[s] == a;
      }
    }
  }

  /** `RemoveTarget`: a live target's arrow is destroyed and its entry
      dropped; every other entry stays, and a null, destroyed or untracked
      target changes nothing. */
  function Remove(g: Guides, t: Option<TransformId>, gone: set<TransformId>): (r: Guides)
    ensures Sound(g) ==> Sound(r)
    ensures Alive(t, gone) && t.value in g.arrows ==>
              r.arrows == g.arrows - {t.value} && r.destroyed == g.destroyed + {g.arrows[t.value]}
    ensures !(Alive(t, gone) && t.value in g.arrows) ==> r == g
    ensures r.tutorial == g.tutorial && r.nextArrow == g.nextArrow
  {
    if Alive(t, gone) && t.value in g.arrows then
      var r := g.(arrows := g.arrows - {t.value}, destroyed := g.destroyed + {g.arrows[t.value]});
      assert Sound(g) ==> Sound(r) by {
        if Sound(g) {
          forall a | 0 <= a < r.nextArrow && a !in r.destroyed
            ensures exists s :: s in r.arrows && r.arrows[s] == a
          {
            var s :| s in g.arrows && g.arrows[s] == a;
            assert s != t.value;
            assert r.arrows[s] == a;
          }
        }
      }
      r
    else g
  }

  /** `ClearTutorialGuide`: the tutorial target, if it is still alive, loses
      its arrow; a destroyed one keeps it. Either way there is no tutorial
      target afterwards and every other target keeps its arrow. */
  function ClearTutorial(g: Guides, gone: set<TransformId>): (r: Guides)
    ensures Sound(g) ==> Sound(r)
    ensures r.tutorial.None? && r.nextArrow == g.nextArrow
    ensures Alive(g.tutorial, gone) ==> g.tutorial.value !in r.arrows
    ensures !Alive(g.tutorial, gone) ==> r.arrows == g.arrows && r.destroyed == g.destroyed
    ensures forall s :: s in g.arrows && Some(s) != g.tutorial ==> s in r.arrows && r.arrows[s] == g.arrows[s]
    ensures r.arrows.Keys <= g.arrows.Keys
  {
    Remove(g, g.tutorial, gone).(tutorial := None)
  }

  /** `PointTo`: the previous tutorial arrow is cleared; a live new target
      becomes the tutorial target and has an arrow, while a null or
      destroyed one leaves no tutorial target. */
  function PointAt(g: Guides, target: Option<TransformId>, gone: set<TransformId>): (r: Guides)
    ensures Sound(g) ==> Sound(r)
    ensures Alive(target, gone) ==> r.tutorial == target && target.value in r.arrows
    ensures !Alive(target, gone) ==> r == ClearTutorial(g, gone) && r.tutorial.None?
  {
    var c := ClearTutorial(g, gone);
    if !Alive(target, gone) then c
    else Add(c.(tutorial := target), target, gone)
  }

  /** `EnsureTutorialArrowActive`: a live tutorial target whose arrow was
      removed gets a new one; otherwise nothing changes. */
  function EnsureTutorial(g: Guides, gone: set<TransformId>): (r: Guides)
    ensures Sound(g) ==> Sound(r)
    ensures Alive(g.tutorial, gone) ==> g.tutorial.value in r.arrows
    ensures !Alive(g.tutorial, gone) || g.tutorial.value in g.arrows ==> r == g
    ensures r.tutorial == g.tutorial && r.destroyed == g.destroyed
    ensures forall s :: s in g.arrows ==> s in r.arrows && r.arrows[s] == g.arrows[s]
  {
    if !Alive(g.tutorial, gone) then g
    else if g.tutorial.value !in g.arrows then Add(g, g.tutorial, gone)
    else g
  }

  /** `ClearAllTargets`: every arrow is destroyed, the map emptied and the
      tutorial target cleared. */
  function ClearAll(g: Guides): (r: Guides)
    ensures Sound(g) ==> Sound(r)
    ensures r.arrows == map[] && r.tutorial.None? && r.nextArrow == g.nextArrow
    ensures forall t :: t in g.arrows ==> g.arrows[t] in r.destroyed
    ensures Sound(g) ==> forall a :: 0 <= a < r.nextArrow ==> a in r.destroyed
  {
    var r := Guides(map[], None, g.nextArrow, g.destroyed + g.arrows.Values);
    assert Sound(g) ==> forall a :: 0 <= a < r.nextArrow ==> a in r.destroyed by {
      if Sound(g) {
        forall a | 0 <= a < r.nextArrow
          ensures a in r.destroyed
        {
          if a !in g.destroyed {
            var t :| t in g.arrows && g.arrows[t] == a;
          }
        }
      }
    }
    r
  }

  /** The entries of `arrows` whose target is not gone. */
  function Surviving(arrows: map<TransformId, ArrowId>, gone: set<TransformId>): map<TransformId, ArrowId>
  {
    map t | t in arrows && t !in gone :: arrows[t]
  }

  /** The arrows of the targets that are gone. */
  function Orphaned(arrows: map<TransformId, ArrowId>, gone: set<TransformId>): set<ArrowId>
  {
    set t | t in arrows && t in gone :: arrows[t]
  }

  /** The per-frame cleanup in `Update`: the entries whose target has been
      destroyed are dropped and their arrows destroyed; every live target
      keeps its arrow. */
  function Cleanup(g: Guides, gone: set<TransformId>): (r: Guides)
    ensures Sound(g) ==> Sound(r)
    ensures r.arrows.Keys == g.arrows.Keys - gone
    ensures forall t :: t in r.arrows ==> r.arrows[t] == g.arrows[t]
    ensures forall t :: t in g.arrows && t in gone ==> g.arrows[t] in r.destroyed
    ensures r.destroyed <= g.destroyed + g.arrows.Values
    ensures r.tutorial == g.tutorial && r.nextArrow == g.nextArrow
  {
    var r := g.(arrows := Surviving(g.arrows, gone), destroyed := g.destroyed + Orphaned(g.arrows, gone));
    assert Sound(g) ==> Sound(r) by {
      if Sound(g) {
        forall a | 0 <= a < r.nextArrow && a !in r.destroyed
          ensures exists s :: s in r.arrows && r.arrows[s] == a
        {
          var s :| s in g.arrows && g.arrows[s] == a;
          assert s !in gone;
          assert r.arrows[s] == a;
        }
        forall t | t in r.arrows
          ensures r.arrows[t] !in Orphaned(g.arrows, gone)
        {
          forall s | s in g.arrows && s in gone
            ensures g.arrows[s] != r.arrows[t]
          {
            assert s != t;
          }
        }
      }
    }
    r
  }

  /** Each target has at most one arrow: adding a target twice spawns one
      arrow, like adding it once. */
  lemma AddTwiceIsOnce(g: Guides, t: Option<TransformId>, gone: set<TransformId>)
    ensures Add(Add(g, t, gone), t, gone) == Add(g, t, gone)
  {
  }

  /** Removing a target just added restores the map, and the arrow the add
      spawned is the one destroyed. */
  lemma RemoveUndoesAdd(g: Guides, t: TransformId, gone: set<TransformId>)
    requires t !in g.arrows && t !in gone
    ensures var a := Add(g, Some(t), gone);
            var r := Remove(a, Some(t), gone);
            r.arrows == g.arrows && r.destroyed == g.destroyed + {g.nextArrow}
  {
    var a := Add(g, Some(t), gone);
    assert a.arrows - {t} == g.arrows;
  }

  /** Pointing to a new live target moves the tutorial arrow: the old live
      tutorial target loses its arrow, the new one has one, and a target
      that is neither keeps its own. */
  lemma PointToMovesArrow(g: Guides, target: TransformId, gone: set<TransformId>)
    requires Sound(g) && Alive(g.tutorial, gone) && g.tutorial != Some(target) && target !in gone
    ensures var r := PointAt(g, Some(target), gone);
            Sound(r) && r.tutorial == Some(target) && target in r.arrows &&
            g.tutorial.value !in r.arrows &&
            forall s :: s in g.arrows && Some(s) != g.tutorial ==> s in r.arrows && r.arrows[s] == g.arrows[s]
  {
  }

  /** The tutorial reuses a gameplay arrow: pointing to a target that
      already has an arrow keeps that arrow, and clearing the tutorial then
      removes it, although it was added as a gameplay target. */
  lemma TutorialSharesGameplayArrow(g: Guides, target: TransformId, gone: set<TransformId>)
    requires target in g.arrows && target !in gone && g.tutorial != Some(target)
    ensures var p := PointAt(g, Some(target), gone);
            p.arrows[target] == g.arrows[target] &&
            target !in ClearTutorial(p, gone).arrows
  {
  }

  /** A tutorial arrow removed with `RemoveTarget` is restored by
      `EnsureTutorialArrowActive` while its target is alive. */
  lemma EnsureRestoresRemoved(g: Guides, gone: set<TransformId>)
    requires Sound(g) && Alive(g.tutorial, gone)
    ensures var r := EnsureTutorial(Remove(g, g.tutorial, gone), gone);
            Sound(r) && r.tutorial == g.tutorial && g.tutorial.value in r.arrows
  {
  }

  /** A tutorial target destroyed before it is cleared leaves its arrow in
      the map; the next frame's cleanup destroys it. */
  lemma DestroyedTutorialArrowLingers(g: Guides, gone: set<TransformId>)
    requires g.tutorial.Some? && g.tutorial.value in gone && g.tutorial.value in g.arrows
    ensures var c := ClearTutorial(g, gone);
            g.tutorial.value in c.arrows && c.tutorial.None? &&
            g.tutorial.value !in Cleanup(c, gone).arrows &&
            g.arrows[g.tutorial.value] in Cleanup(c, gone).destroyed
  {
  }

  /** After `ClearAllTargets` the cleanup and a second clear change nothing. */
  lemma ClearAllSettles(g: Guides, gone: set<TransformId>)
    ensures Cleanup(ClearAll(g), gone) == ClearAll(g)
    ensures ClearAll(ClearAll(g)) == ClearAll(g)
  {
    var c := ClearAll(g);
    assert Surviving(c.arrows, gone) == map[];
    assert Orphaned(c.arrows, gone) == {};
  }

  class GuideManager {
    var arrows: map<TransformId, ArrowId>
    var tutorialTarget: Option<TransformId>
    var nextArrow: nat
    var destroyed: set<ArrowId>
    var narrativeShown: bool
    var narrative: string

    function State(): Guides
      reads this
    {
      Guides(arrows, tutorialTarget, nextArrow, destroyed)
    }

    ghost predicate Valid()
      reads this
    {
      Sound(State())
    }

    /** `Awake`: no targets, no tutorial target, the narrative panel hidden. */
    constructor ()
      ensures Valid()
      ensures arrows == map[] && tutorialTarget.None? && destroyed == {} && !narrativeShown
    {
      arrows := map[];
      tutorialTarget := None;
      nextArrow := 0;
      destroyed := {};
      narrativeShown := false;
      narrative := "";
    }

    method AddTarget(target: Option<TransformId>, gone: set<TransformId>)
      requires Valid()
      modifies this`arrows, this`nextArrow
      ensures Valid()
      ensures State() == Add(old(State()), target, gone)
    {
      ghost var after := Add(State(), target, gone);
      if !Alive(target, gone) || target.value in arrows {
        return;
      }
      var arrow := nextArrow;
      nextArrow := nextArrow + 1;
      arrows := arrows[target.value := arrow];
      assert State() == after;
    }

    method RemoveTarget(target: Option<TransformId>, gone: set<TransformId>)
      requires Valid()
      modifies this`arrows, this`destroyed
      ensures Valid()
      ensures State() == Remove(old(State()), target, gone)
    {
      ghost var after := Remove(State(), target, gone);
      if !Alive(target, gone) {
        return;
      }
      if target.value in arrows {
        destroyed := destroyed + {arrows[target.value]};
        arrows := arrows - {target.value};
      }
      assert State() == after;
    }

    method ClearTutorialGuide(gone: set<TransformId>)
      requires Valid()
      modifies this`arrows, this`destroyed, this`tutorialTarget
      ensures Valid()
      ensures State() == ClearTutorial(old(State()), gone)
    {
      if Alive(tutorialTarget, gone) {
        RemoveTarget(tutorialTarget, gone);
      }
      tutorialTarget := None;
    }

    method PointTo(target: Option<TransformId>, gone: set<TransformId>)
      requires Valid()
      modifies this`arrows, this`destroyed, this`tutorialTarget, this`nextArrow
      ensures Valid()
      ensures State() == PointAt(old(State()), target, gone)
    {
      ClearTutorialGuide(gone);
      if !Alive(target, gone) {
        return;
      }
      tutorialTarget := target;
      AddTarget(target, gone);
    }

    method EnsureTutorialArrowActive(gone: set<TransformId>)
      requires Valid()
      modifies this`arrows, this`nextArrow
      ensures Valid()
      ensures State() == EnsureTutorial(old(State()), gone)
    {
      if !Alive(tutorialTarget, gone) {
        return;
      }
      if tutorialTarget.value !in arrows {
        AddTarget(tutorialTarget, gone);
      }
    }

    method ClearAllTargets()
      requires Valid()
      modifies this`arrows, this`destroyed, this`tutorialTarget
      ensures Valid()
      ensures State() == ClearAll(old(State()))
    {
      destroyed := DestroyAll(destroyed, arrows.Values);
      arrows := map[];
      tutorialTarget := None;
    }

    /** The cleanup part of `Update`; the arrow placement of the live
        targets is not modelled. */
    method Update(gone: set<TransformId>)
      requires Valid()
      modifies this`arrows, this`destroyed
      ensures Valid()
      ensures State() == Cleanup(old(State()), gone)
    {
      ghost var after := Cleanup(State(), gone);
      arrows, destroyed := Sweep(arrows, destroyed, gone);
      assert State() == after;
    }

    /** `ShowNarrative`: the panel is shown and the text written into it. */
    method ShowNarrative(text: string)
      modifies this`narrativeShown, this`narrative
      ensures narrativeShown && narrative == text
    {
      narrativeShown := true;
      narrative := text;
    }

    method HideNarrative()
      modifies this`narrativeShown
      ensures !narrativeShown
    {
      narrativeShown := false;
    }

    /** `ResetAll`: every arrow cleared and the narrative hidden. */
    method ResetAll()
      requires Valid()
      modifies this`arrows, this`destroyed, this`tutorialTarget, this`narrativeShown
      ensures Valid()
      ensures State() == ClearAll(old(State())) && !narrativeShown
    {
      ClearAllTargets();
      HideNarrative();
    }
  }

  /** The body of `Update` on the map: nothing to do when it is empty, else
      the gone targets are collected and then removed. */
  method Sweep(arrows: map<TransformId, ArrowId>, destroyed: set<ArrowId>, gone: set<TransformId>)
    returns (m: map<TransformId, ArrowId>, d: set<ArrowId>)
    ensures m == Surviving(arrows, gone) && d == destroyed + Orphaned(arrows, gone)
  {
    if |arrows| == 0 {
      assert arrows == map[];
      assert Surviving(arrows, gone) == arrows && Orphaned(arrows, gone) == {};
      return arrows, destroyed;
    }
    var toRemove;
    toRemove, d := CollectGone(arrows, gone, destroyed);
    m := RemoveAll(arrows, toRemove);
  }

  /** The loop of `ClearAllTargets`: every arrow in `values` is destroyed. */
  method DestroyAll(destroyed: set<ArrowId>, values: set<ArrowId>) returns (d: set<ArrowId>)
    ensures d == destroyed + values
  {
    d := destroyed;
    var rest := values;
    while rest != {}
      invariant rest <= values
      invariant d == destroyed + (values - rest)
      decreases rest
    {
      var a :| a in rest;
      d := d + {a};
      rest := rest - {a};
    }
  }

  /** The first loop of `Update`: the targets that are gone are collected,
      each exactly once, and their arrows destroyed. */
  method CollectGone(arrows: map<TransformId, ArrowId>, gone: set<TransformId>, destroyed: set<ArrowId>)
    returns (toRemove: seq<TransformId>, d: set<ArrowId>)
    ensures forall t :: t in toRemove <==> t in arrows && t in gone
    ensures d == destroyed + Orphaned(arrows, gone)
  {
    toRemove := [];
    d := destroyed;
    var rest := arrows.Keys;
    while rest != {}
      invariant rest <= arrows.Keys
      invariant forall t :: t in toRemove <==> t in arrows && t !in rest && t in gone
      invariant d == destroyed + Orphaned(arrows - rest, gone)
      decreases rest
    {
      var k :| k in rest;
      if k in gone {
        assert Orphaned(arrows - (rest - {k}), gone) == Orphaned(arrows - rest, gone) + {arrows[k]};
        d := d + {arrows[k]};
        toRemove := toRemove + [k];
      } else {
        assert Orphaned(arrows - (rest - {k}), gone) == Orphaned(arrows - rest, gone);
      }
      rest := rest - {k};
    }
    assert arrows - {} == arrows;
  }

  /** The second loop of `Update`: every collected target's entry is
      removed. */
  method RemoveAll(arrows: map<TransformId, ArrowId>, toRemove: seq<TransformId>)
    returns (m: map<TransformId, ArrowId>)
    ensures m == map t | t in arrows && t !in toRemove :: arrows[t]
  {
    m := arrows;
    for i := 0 to |toRemove|
      invariant m == map t | t in arrows && t !in toRemove[..i] :: arrows[t]
    {
      assert toRemove[..i + 1] == toRemove[..i] + [toRemove[i]];
      m := m - {toRemove[i]};
    }
    assert toRemove[..|toRemove|] == toRemove;
  }
}
