# Bounce overscroll effect

A model of `BounceEffect`, the edge-effect factory of the wolmo-core Android
library. When a `RecyclerView` is dragged past one of its edges, the edge
effect made for that edge shifts the list along its scroll axis, in
proportion to the drag, and suppresses the default glow. When the drag is
released, or a fling hits the edge, it starts a spring animation that brings
the list back to zero.

The project has three modules.

- `BounceSpec` (bounce_spec.dfy) holds the model as values. It has the sign
  table (`Sign`) and the animated property (`SpringProperty`). It defines
  what each event does to the list's two translations and to the effect's
  spring handle (`OnPull`, `OnRelease`, `OnAbsorb`), and it runs a sequence
  of events (`Step`, `Run`). The lemmas state the properties of this model.
- `Bounce` (bounce.dfy) runs the same events on objects:
  - `RecyclerView` is the list, whose translations all edge effects of the
    list share.
  - `BounceEffect` is the factory with its two gains, which may be changed
    at any time.
  - `SpringAnimation` is a spring handle that is started and cancelled.
  - `BounceEdgeEffect` is the anonymous per-edge object of the source.

  Each event method ensures that `Snapshot()` after the call equals the
  `BounceSpec` function applied to `Snapshot()` before it. Each keeps
  `Valid()`: every spring the effect holds drives its own axis back to zero.
  The methods also state what happens to the spring object they replace.
- `BounceScenarios` (bounce_scenarios.dfy) holds client methods. Each runs a
  short sequence of events on fresh objects and states the outcome, using
  only the contracts of the event methods.

Constants: `HORIZONTAL = 0`, `VERTICAL = 1`, `DIRECTION_LEFT = 0`,
`DIRECTION_TOP = 1`, `DIRECTION_RIGHT = 2`, `DIRECTION_BOTTOM = 3` are the
values of the Android `RecyclerView`/`EdgeEffectFactory` constants. Those
classes are not part of this model. The mutable companion values
`POSITIVE_SIGN`, `NEGATIVE_SIGN` and `ZERO_F` are fixed at `1`, `-1` and `0.0`.

Two behaviours of the code are worth stating plainly.

- The effects read `flingTranslation` and `overscrollTranslation` from the
  factory at every event, so changing a gain changes what existing effects
  do. In the model every event reads the factory's current gains through
  `Live()`; `BounceScenarios.GainsReadAtEachEvent` shows it.
- `onRelease` replaces the handle without cancelling the old spring, so one
  edge can hold two running springs. `Bounce.BounceEdgeEffect.OnRelease`
  states that the old spring object is left unchanged;
  `BounceScenarios.TwoReleases` shows one edge with two running springs.

The list's `width` and `height` and the fling `velocity` are integers, as in
Android, so `sign * width` is an exact integer product. Translations, gains
and pull distances are `real`.

## Model

| member | source | states |
|---|---|---|
| BounceSpec.Sign | core/src/main/java/ar/com/wolox/wolmo/core/util/BounceEffect.kt:101-107 | The sign is always +1 or -1. It is -1 exactly for the bottom edge of a vertical list and for every non-left edge of a horizontal list. Every other case, including an unknown orientation, gives +1. |
| BounceSpec.OppositeEdgesOppositeSigns | core/src/main/java/ar/com/wolox/wolmo/core/util/BounceEffect.kt:101-107 | Top and bottom push a vertical list in opposite directions, and so do left and right on a horizontal list. The start edge pushes forwards. |
| BounceSpec.SpringProperty | core/src/main/java/ar/com/wolox/wolmo/core/util/BounceEffect.kt:109-115 | The spring animates TRANSLATION_X exactly when the orientation is horizontal. It animates TRANSLATION_Y for vertical and for any unknown orientation. |
| BounceSpec.OnPull | core/src/main/java/ar/com/wolox/wolmo/core/util/BounceEffect.kt:40-56 | After a pull the effect is finished: any spring it holds has been cancelled. A pull neither adds nor drops a handle. |
| BounceSpec.OnRelease | core/src/main/java/ar/com/wolox/wolmo/core/util/BounceEffect.kt:58-73 | A release never moves the list. Afterwards the effect is finished iff it was finished before and the list was at rest on its scroll axis (the full contract is in ReleaseSpec). |
| BounceSpec.OnAbsorb | core/src/main/java/ar/com/wolox/wolmo/core/util/BounceEffect.kt:75-82 | An absorb never moves the list and always leaves a running spring, so the effect is not finished (the start velocity and supersession are in AbsorbSpec). |
| BounceSpec.PullOverloadsAgree | core/src/main/java/ar/com/wolox/wolmo/core/util/BounceEffect.kt:30-38 | In the model, which leaves out the base class, the pull event with a displacement has the same effect as the plain pull event: the displacement is ignored. |
| BounceSpec.PullMovesScrollAxis | core/src/main/java/ar/com/wolox/wolmo/core/util/BounceEffect.kt:40-53 | A pull adds sign * cross extent * gain * distance to the scroll axis. The cross extent is the width for a vertical list and the height for a horizontal one. The other axis is unchanged, and an unknown orientation changes neither axis. |
| BounceSpec.RunTranslations | core/src/main/java/ar/com/wolox/wolmo/core/util/BounceEffect.kt:40-82 | After any sequence of events, with gains and extents fixed over the sequence, each translation equals its start value plus the pull factor times the total pull distance. Pulls accumulate linearly, and releases and absorbs never move the list. |
| BounceSpec.EndsInPullIsFinished | core/src/main/java/ar/com/wolox/wolmo/core/util/BounceEffect.kt:40-90 | Whatever came before, a sequence that ends in a pull leaves the effect finished. |
| BounceSpec.ReleaseSpec | core/src/main/java/ar/com/wolox/wolmo/core/util/BounceEffect.kt:58-73 | A release at rest, or under an unknown orientation, changes nothing. Otherwise it installs one running spring with final position 0 and start velocity 0 on the scroll-axis property. It never moves the list. Afterwards the effect is finished iff it was finished before and the list was at rest. |
| BounceSpec.ReleaseAfterPulls | core/src/main/java/ar/com/wolox/wolmo/core/util/BounceEffect.kt:40-73 | Start finished and at rest. After any run of pulls, a release starts a spring iff the pulls moved the list, that is iff the pull factor times their total distance is non-zero. |
| BounceSpec.AbsorbSpec | core/src/main/java/ar/com/wolox/wolmo/core/util/BounceEffect.kt:75-82 | An absorb keeps both translations. It installs one running spring with final position 0 and start velocity sign * velocity * fling gain, so the effect is not finished. A second absorb wholly supersedes the first. |
| BounceSpec.PullAndAbsorbAgree | core/src/main/java/ar/com/wolox/wolmo/core/util/BounceEffect.kt:40-82 | Take a known orientation and positive extents, gains, distance and velocity. A pull then moves the list, and an absorb starts its spring, in the same non-zero direction: the edge's sign. |
| BounceSpec.RunKeepsWellFormed | core/src/main/java/ar/com/wolox/wolmo/core/util/BounceEffect.kt:92-99 | Every sequence of events preserves this invariant: any spring held drives the effect's own property back to 0. |
| Bounce.BounceEffect.constructor | core/src/main/java/ar/com/wolox/wolmo/core/util/BounceEffect.kt:18-21 | The factory holds the two gains it is given. The defaults are 0.5 for fling and 0.1 for pull. |
| Bounce.BounceEffect.CreateEdgeEffect | core/src/main/java/ar/com/wolox/wolmo/core/util/BounceEffect.kt:23-28 | The new effect is bound to this factory, to the list and to the list's orientation at creation time. It starts valid, with no spring, and finished. |
| Bounce.BounceEdgeEffect.OnPull | core/src/main/java/ar/com/wolox/wolmo/core/util/BounceEffect.kt:30-33 | The new translations and handle are BounceSpec.OnPull of the old ones, under the gains and extents read at the call. The handle object is kept. |
| Bounce.BounceEdgeEffect.OnPullWithDisplacement | core/src/main/java/ar/com/wolox/wolmo/core/util/BounceEffect.kt:35-38 | Same contract as OnPull. The displacement plays no part. |
| Bounce.BounceEdgeEffect.HandlePull | core/src/main/java/ar/com/wolox/wolmo/core/util/BounceEffect.kt:40-56 | Moves the list's scroll-axis translation in place and cancels the held spring. The result equals BounceSpec.OnPull. |
| Bounce.BounceEdgeEffect.OnRelease | core/src/main/java/ar/com/wolox/wolmo/core/util/BounceEffect.kt:58-73 | The result equals BounceSpec.OnRelease. The handle is a fresh spring iff the list was displaced on the scroll axis; otherwise it is the same object. The spring it replaces is left unchanged, still running if it was. |
| Bounce.BounceEdgeEffect.OnAbsorb | core/src/main/java/ar/com/wolox/wolmo/core/util/BounceEffect.kt:75-82 | The result equals BounceSpec.OnAbsorb. The handle is a fresh spring. The previous spring object, if any, is cancelled and otherwise unchanged. |
| Bounce.BounceEdgeEffect.Draw | core/src/main/java/ar/com/wolox/wolmo/core/util/BounceEffect.kt:84-86 | The effect never draws: the result is always false. |
| Bounce.BounceEdgeEffect.IsFinished | core/src/main/java/ar/com/wolox/wolmo/core/util/BounceEffect.kt:88-90 | True iff there is no handle or the handle is not running. |
| Bounce.BounceEdgeEffect.CreateAnim | core/src/main/java/ar/com/wolox/wolmo/core/util/BounceEffect.kt:92-99 | A fresh, not yet started spring on the effect's property, with final position 0 and start velocity 0. |
| BounceScenarios.ThreeBottomPulls | core/src/main/java/ar/com/wolox/wolmo/core/util/BounceEffect.kt:40-56 | Setup: bottom edge of a vertical list 1000 wide, pull gain 0.1. In the model (base class left out), three pull events of 0.01 give translationY = -3. translationX stays 0 and the effect is finished. |
| BounceScenarios.LeftAbsorb | core/src/main/java/ar/com/wolox/wolmo/core/util/BounceEffect.kt:75-82 | Setup: left edge of a horizontal list, fling gain 0.5. An absorb of 20 starts a spring with start velocity 10 and final position 0, so the effect is not finished. |
| BounceScenarios.ReleaseAtRest | core/src/main/java/ar/com/wolox/wolmo/core/util/BounceEffect.kt:58-73 | A release at rest creates no spring, and the effect stays finished. |
| BounceScenarios.GainsReadAtEachEvent | core/src/main/java/ar/com/wolox/wolmo/core/util/BounceEffect.kt:18-56 | Raising the factory's pull gain after the effect exists doubles what the next pull does. |
| BounceScenarios.TwoAbsorbs | core/src/main/java/ar/com/wolox/wolmo/core/util/BounceEffect.kt:75-82 | After two absorbs the first spring is cancelled. Only the second runs, with the second velocity. |
| BounceScenarios.TwoReleases | core/src/main/java/ar/com/wolox/wolmo/core/util/BounceEffect.kt:58-73 | A pull and then two releases leave two distinct springs running on one edge. |
| BounceScenarios.OppositeEdgesCancel | core/src/main/java/ar/com/wolox/wolmo/core/util/BounceEffect.kt:40-56 | The top and bottom effects of one list share its translation. Equal pulls on both bring it back to 0. |

## Left out

- Spring physics: the damping ratio (medium bouncy), the stiffness (low), frame-by-frame integration, the writes the running spring makes to the translation, and its convergence. A spring is a handle with a target, a start velocity and a running flag. Nothing in the model stops a spring by itself, so "finished after the spring settles" is not modelled.
- `super.onPull`, `super.onRelease` and `super.onAbsorb` (the Android `EdgeEffect` base class), the `Canvas` argument of `draw`, and the `Context` the effect is built with.
- BounceSpec.PullOverloadsAgree, Bounce.BounceEdgeEffect.OnPull: the model leaves out `super.onPull`. In the Android base class (5.0 and later) the one-argument `EdgeEffect.onPull(d)` calls `onPull(d, 0.5f)`, which this effect overrides, so a direct one-argument `onPull(d)` in the program runs the pull handling twice (once through the base class, once at line 32). The model's one-argument pull applies it once. RecyclerView itself calls the two-argument overload on those versions, which the model matches. The base class is not part of this model.
- The cast of the layout manager to `LinearLayoutManager`, which throws for other layout managers. The model takes the orientation as a plain integer read when the effect is created.
- Float rounding: translations, gains and pull distances are exact reals.
- The dependency-injection scope annotation on the factory.
- `WolmoFragment` and `ToastFactory`: lifecycle forwarding and toast display, with no logic of their own.
