/** The bounce edge effect on objects: a list whose translations the effects
    change in place, a factory whose gains can be changed at any time, spring
    handles that are started and cancelled, and one edge effect per edge.
    Every event method is proved to change the objects exactly as the
    function of the same name in BounceSpec says. */
module Bounce {
  import opened BounceSpec

  /** The scrolling list: its extents, the orientation of its layout manager
      and its two translations, which every edge effect of the list shares. */
  class RecyclerView {
    var width: int
    var height: int
    var orientation: int
    var translationX: real
    var translationY: real

    constructor (width: int, height: int, orientation: int)
      ensures this.width == width && this.height == height && this.orientation == orientation
      ensures translationX == ZERO_F && translationY == ZERO_F
    {
      this.width := width;
      this.height := height;
      this.orientation := orientation;
      translationX := ZERO_F;
      translationY := ZERO_F;
    }
  }

  /** A spring animation handle. The damping and stiffness it is given and
      the frames it runs are not modelled: only the property it drives, its
      final position, its start velocity and whether it runs. */
  class SpringAnimation {
    const property: ViewProperty
    const finalPosition: real
    var startVelocity: real
    var running: bool

    constructor (property: ViewProperty, finalPosition: real)
      ensures Value() == Spring(property, finalPosition, 0.0, false)
    {
      this.property := property;
      this.finalPosition := finalPosition;
      startVelocity := 0.0;
      running := false;
    }

    function Value(): Spring
      reads this
    {
      Spring(property, finalPosition, startVelocity, running)
    }

    method SetStartVelocity(velocity: real)
      modifies this`startVelocity
      ensures Value() == old(Value()).(startVelocity := velocity)
    {
      startVelocity := velocity;
    }

    method Start()
      modifies this`running
      ensures Value() == old(Value()).(running := true)
    {
      running := true;
    }

    method Cancel()
      modifies this`running
      ensures Value() == old(Value()).(running := false)
    {
      running := false;
    }
  }

  /** The factory of bounce edge effects, holding the two gains. The effects
      it makes read the gains from it at every event. */
  class BounceEffect {
    var flingTranslation: real
    var overscrollTranslation: real

    constructor (flingTranslation: real := 0.5, overscrollTranslation: real := 0.1)
      ensures this.flingTranslation == flingTranslation
      ensures this.overscrollTranslation == overscrollTranslation
    {
      this.flingTranslation := flingTranslation;
      this.overscrollTranslation := overscrollTranslation;
    }

    /** An effect for one edge of the list, bound to the orientation the list
        has now; it starts with no spring. */
    method CreateEdgeEffect(recyclerView: RecyclerView, directionEffect: int) returns (effect: BounceEdgeEffect)
      ensures fresh(effect) && effect.Valid()
      ensures effect.factory == this && effect.view == recyclerView
      ensures effect.Side() == Edge(recyclerView.orientation, directionEffect)
      ensures effect.translationAnim == null && Finished(effect.Snapshot())
    {
      effect := new BounceEdgeEffect(this, recyclerView, recyclerView.orientation, directionEffect);
    }
  }

  /** The edge effect for one edge of one list. */
  class BounceEdgeEffect {
    const factory: BounceEffect
    const view: RecyclerView
    const orientation: int
    const directionEffect: int
    var translationAnim: SpringAnimation?

    constructor (factory: BounceEffect, view: RecyclerView, orientation: int, directionEffect: int)
      ensures this.factory == factory && this.view == view
      ensures this.orientation == orientation && this.directionEffect == directionEffect
      ensures translationAnim == null
    {
      this.factory := factory;
      this.view := view;
      this.orientation := orientation;
      this.directionEffect := directionEffect;
      translationAnim := null;
    }

    /** The edge this effect stands for. */
    function Side(): Edge
    {
      Edge(orientation, directionEffect)
    }

    /** What the effect reads at an event: the list's extents and the factory's gains, as they are now. */
    ghost function Live(): Env
      reads view, factory
    {
      Env(view.width, view.height, factory.flingTranslation, factory.overscrollTranslation)
    }

    /** The list's translations and this effect's spring handle, as a value. */
    ghost function Snapshot(): State
      reads this, view, translationAnim
    {
      State(view.translationX, view.translationY,
            if translationAnim == null then None else Some(translationAnim.Value()))
    }

    /** The invariant RunKeepsWellFormed states of the value model: any
        spring the effect holds drives its own property back to zero. */
    ghost predicate Valid()
      reads this, view, translationAnim
    {
      WellFormed(Snapshot(), Side())
    }

    method OnPull(deltaDistance: real)
      requires Valid()
      modifies view`translationX, view`translationY, translationAnim
      ensures Valid() && translationAnim == old(translationAnim)
      ensures Snapshot() == BounceSpec.OnPull(old(Snapshot()), Side(), old(Live()), deltaDistance)
    {
      HandlePull(deltaDistance);
    }

    /** The displacement is accepted and ignored. */
    method OnPullWithDisplacement(deltaDistance: real, displacement: real)
      requires Valid()
      modifies view`translationX, view`translationY, translationAnim
      ensures Valid() && translationAnim == old(translationAnim)
      ensures Snapshot() == BounceSpec.OnPull(old(Snapshot()), Side(), old(Live()), deltaDistance)
    {
      HandlePull(deltaDistance);
    }

    method HandlePull(deltaDistance: real)
      requires Valid()
      modifies view`translationX, view`translationY, translationAnim
      ensures Valid() && translationAnim == old(translationAnim)
      ensures Snapshot() == BounceSpec.OnPull(old(Snapshot()), Side(), old(Live()), deltaDistance)
    {
      if orientation == VERTICAL {
        var translationYDelta :=
          (Sign(orientation, directionEffect) * view.width) as real * deltaDistance * factory.overscrollTranslation;
        view.translationY := view.translationY + translationYDelta;
      } else if orientation == HORIZONTAL {
        var translationXDelta :=
          (Sign(orientation, directionEffect) * view.height) as real * deltaDistance * factory.overscrollTranslation;
        view.translationX := view.translationX + translationXDelta;
      }
      if translationAnim != null {
        translationAnim.Cancel();
      }
    }

    /** A release starts a fresh spring only when the list is displaced on
        the scroll axis; the spring it replaces is left as it was, not cancelled. */
    method OnRelease()
      requires Valid()
      modifies this`translationAnim
      ensures Valid()
      ensures Snapshot() == BounceSpec.OnRelease(old(Snapshot()), Side())
      ensures if Displaced(old(Snapshot()), Side()) then fresh(translationAnim) else translationAnim == old(translationAnim)
      ensures old(translationAnim) != null ==> old(translationAnim).Value() == old(translationAnim.Value())
    {
      if orientation == VERTICAL {
        if view.translationY != ZERO_F {
          var anim := CreateAnim();
          anim.Start();
          translationAnim := anim;
        }
      } else if orientation == HORIZONTAL {
        if view.translationX != ZERO_F {
          var anim := CreateAnim();
          anim.Start();
          translationAnim := anim;
        }
      }
    }

    /** An absorb cancels the spring it holds and starts a fresh one with a
        start velocity along the edge's sign. */
    method OnAbsorb(velocity: int)
      requires Valid()
      modifies this`translationAnim, translationAnim
      ensures Valid() && fresh(translationAnim)
      ensures Snapshot() == BounceSpec.OnAbsorb(old(Snapshot()), Side(), old(Live()), velocity)
      ensures old(translationAnim) != null ==> old(translationAnim).Value() == old(translationAnim.Value()).(running := false)
    {
      var translationVelocity := (Sign(orientation, directionEffect) * velocity) as real * factory.flingTranslation;
      if translationAnim != null {
        translationAnim.Cancel();
      }
      var anim := CreateAnim();
      anim.SetStartVelocity(translationVelocity);
      anim.Start();
      translationAnim := anim;
      ghost var spec := BounceSpec.OnAbsorb(old(Snapshot()), Side(), old(Live()), velocity);
      assert spec.anim.value.startVelocity == translationVelocity;
    }

    /** The effect never draws a glow: the translation is the whole effect. */
    method Draw() returns (drawn: bool)
      ensures !drawn
    {
      drawn := false;
    }

    method IsFinished() returns (finished: bool)
      ensures finished <==> Finished(Snapshot())
    {
      finished := translationAnim == null || !translationAnim.running;
    }

    /** A new, not yet started spring on this effect's property, back to zero. */
    method CreateAnim() returns (anim: SpringAnimation)
      ensures fresh(anim) && anim.Value() == NewSpring(orientation)
    {
      anim := new SpringAnimation(SpringProperty(orientation), ZERO_F);
    }
  }
}
