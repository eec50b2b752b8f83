/** Clients of module Bounce: short event sequences on real objects whose
    outcomes follow from the contracts of the event methods alone. */
module BounceScenarios {
  import opened BounceSpec
  import opened Bounce

  /** The bottom edge of a vertical list 1000 wide with the default pull gain
      0.1: three pulls of 0.01 each move the list by -1, to -3 in all, leave
      the other axis alone and leave no spring running. */
  method ThreeBottomPulls() returns (translationX: real, translationY: real, finished: bool)
    ensures translationX == 0.0 && translationY == -3.0 && finished
  {
    var list := new RecyclerView(1000, 2000, VERTICAL);
    var factory := new BounceEffect();
    var bottom := factory.CreateEdgeEffect(list, DIRECTION_BOTTOM);
    bottom.OnPull(0.01);
    bottom.OnPull(0.01);
    bottom.OnPullWithDisplacement(0.01, 0.75);
    translationX, translationY := list.translationX, list.translationY;
    finished := bottom.IsFinished();
  }

  /** The left edge of a horizontal list with fling gain 0.5: absorbing a
      fling of 20 starts a spring back to zero with start velocity 10, and the
      effect is not finished. */
  method LeftAbsorb() returns (startVelocity: real, finalPosition: real, finished: bool)
    ensures startVelocity == 10.0 && finalPosition == 0.0 && !finished
  {
    var list := new RecyclerView(600, 400, HORIZONTAL);
    var factory := new BounceEffect(0.5, 0.1);
    var left := factory.CreateEdgeEffect(list, DIRECTION_LEFT);
    left.OnAbsorb(20);
    startVelocity, finalPosition := left.translationAnim.startVelocity, left.translationAnim.finalPosition;
    finished := left.IsFinished();
  }

  /** A release at rest starts no spring: the effect stays finished. */
  method ReleaseAtRest() returns (hasSpring: bool, finished: bool)
    ensures !hasSpring && finished
  {
    var list := new RecyclerView(1000, 2000, VERTICAL);
    var factory := new BounceEffect();
    var top := factory.CreateEdgeEffect(list, DIRECTION_TOP);
    top.OnRelease();
    hasSpring := top.translationAnim != null;
    finished := top.IsFinished();
  }

  /** The gains are read from the factory at each event: raising the pull
      gain after the effect was made changes what the next pull does. */
  method GainsReadAtEachEvent() returns (firstPull: real, secondPull: real)
    ensures firstPull == 10.0 && secondPull == 20.0
  {
    var list := new RecyclerView(1000, 2000, VERTICAL);
    var factory := new BounceEffect();
    var top := factory.CreateEdgeEffect(list, DIRECTION_TOP);
    top.OnPull(0.1);
    firstPull := list.translationY;
    factory.overscrollTranslation := 0.2;
    top.OnPull(0.1);
    secondPull := list.translationY - firstPull;
  }

  /** Two absorbs in a row: the first spring is cancelled and only the second runs. */
  method TwoAbsorbs() returns (firstRunning: bool, secondRunning: bool, secondVelocity: real)
    ensures !firstRunning && secondRunning && secondVelocity == -15.0
  {
    var list := new RecyclerView(1000, 2000, VERTICAL);
    var factory := new BounceEffect();
    var bottom := factory.CreateEdgeEffect(list, DIRECTION_BOTTOM);
    bottom.OnAbsorb(20);
    var first := bottom.translationAnim;
    bottom.OnAbsorb(30);
    var second := bottom.translationAnim;
    firstRunning, secondRunning, secondVelocity := first.running, second.running, second.startVelocity;
  }

  /** A release does not cancel the spring it replaces: after a pull and two
      releases of the same edge, two distinct springs are running. */
  method TwoReleases() returns (distinct: bool, firstRunning: bool, secondRunning: bool)
    ensures distinct && firstRunning && secondRunning
  {
    var list := new RecyclerView(1000, 2000, VERTICAL);
    var factory := new BounceEffect();
    var top := factory.CreateEdgeEffect(list, DIRECTION_TOP);
    top.OnPull(0.05);
    top.OnRelease();
    var first := top.translationAnim;
    top.OnRelease();
    var second := top.translationAnim;
    distinct := first != second;
    firstRunning, secondRunning := first.running, second.running;
  }

  /** A list has one effect per edge and they share its translation: pulling
      the top edge and then the bottom edge by the same distance brings the
      list back to zero. */
  method OppositeEdgesCancel() returns (translationY: real)
    ensures translationY == 0.0
  {
    var list := new RecyclerView(1000, 2000, VERTICAL);
    var factory := new BounceEffect();
    var top := factory.CreateEdgeEffect(list, DIRECTION_TOP);
    var bottom := factory.CreateEdgeEffect(list, DIRECTION_BOTTOM);
    top.OnPull(0.02);
    bottom.OnPull(0.02);
    translationY := list.translationY;
  }
}
