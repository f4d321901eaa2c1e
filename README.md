# useEffectOnce: the once-latch, in Dafny

`useEffectOnce(effect, deps, condition = true)` and
`useLayoutEffectOnce(effect, deps, condition = true)` wrap React's `useEffect`
and `useLayoutEffect`. Each mounted instance owns one ref box,
`prevCondition.current`, created `false`. Every time React runs the guarded
callback (at mount, and whenever `[...deps, condition]` changes), the callback
does nothing if the box is already set or `condition === false`. Otherwise it
sets the box to `true` and only then calls `effect()`, handing its result back
to React as the cleanup. The two hooks share this guard. They differ only in
the React phase they register under.

The model has two modules:

- `LatchSpec` (`latch_spec.dfy`) states the behaviour on values. A run of one
  instance is the sequence of `condition` values seen by its notifications.
  `LatchAfter`, `RunsAfter` and `TraceAfter` fold the guard over such a
  sequence. They give the latch, the number of `effect()` calls, and the
  ordered record of "latch set" and "effect called" events. `FirstTrue` is an
  independent reference: the first index whose condition is true. The lemmas
  connect the fold to that reference.
- `EffectOnce` (`effect_once.dfy`) is the imperative side. Class `OnceLatch`
  has the real field `fired` (the ref box), which lives as long as the mounted
  instance. It also has ghost fields for the history of conditions, the run
  count and the event trace. `Valid()` ties all of these to the `LatchSpec`
  functions. The two named constructors model mounting either hook.
  `Notify(condition, effect)` is one run of the guarded callback. Each render
  builds a new callback that captures that render's `effect` and `condition`,
  so `Notify` receives both from the render that triggered it.
  `RunNotifications` drives one instance through a whole sequence of renders.
  Each `Render` carries its own effect and its `condition` argument, where
  `None` means the argument was omitted and the default applies.

The React host is not modelled: it is the caller of `Notify`. An effect is an
opaque total function `() -> Option<C>`. `None` stands for "no cleanup", and
the same `None` is what a suppressed notification returns (`return;`). When
the effect is called, the trace records the value the latch holds at that
moment. So the order "set the latch, then call the effect" is checked against
the real field `fired`.

The code keeps a boolean latch that is only ever assigned `true`. A tri-state
latch, which would store the condition value, is not what the code does and is
not modelled.

## Model

| member | source | states |
|---|---|---|
| LatchSpec.ConditionArg | src/index.ts:35 | An omitted `condition` becomes `true`. The resulting condition is false exactly when the caller passed a literal `false`. |
| LatchSpec.FirstTrue | src/index.ts:10-11 | Reference for "runs once the condition is true". The result is `None` exactly when no condition is true. Otherwise it is an index holding `true` with only `false` before it. |
| LatchSpec.LatchAfterIsAnyTrue | src/index.ts:36-42 | The latch starts unset and is set after a run exactly when some notification's condition was true. |
| LatchSpec.RunsExactlyOnceIffAnyTrue | src/index.ts:35-45 | Over any run, `effect()` is called exactly once if some condition is true and zero times if all are false. |
| LatchSpec.FiresAtFirstTrue | src/index.ts:39-44 | Notification `i` passes the guard exactly when `i` is the first index whose condition is true. |
| LatchSpec.TraceIsSetThenCall | src/index.ts:42-44 | A run records nothing if no condition is true. Otherwise it records exactly "latch set" followed by "effect called with the latch already set". |
| LatchSpec.SuppressedOnceFired | src/index.ts:39-40 | Once the latch is set, any later notifications leave the latch set. They add no effect call and no event, whatever their conditions. |
| LatchSpec.LatchMonotone | src/index.ts:42 | If the latch is set after some prefix of a run, it is still set at the end of the run: it never goes back to unset. |
| LatchSpec.DefaultConditionFiresOnMount | src/index.ts:35 | With the default condition `true` on every notification, the first (mount) notification passes the guard. No later notification passes it, and the effect runs once over the whole run. |
| EffectOnce.OnceLatch.UseEffectOnce | src/index.ts:35-38 | Mounting `useEffectOnce` gives a latch that is unset, with zero runs, an empty history and no events, registered for the passive phase. |
| EffectOnce.OnceLatch.UseLayoutEffectOnce | src/index.ts:75-78 | Mounting `useLayoutEffectOnce` gives the same initial state, registered for the layout phase. |
| EffectOnce.OnceLatch.Notify | src/index.ts:39-44 | Takes the condition and the effect of the render that triggered it, and appends the condition to the history. If the latch was set or the condition is false: nothing changes and no cleanup is returned. Otherwise: the latch is set, then the effect is called; `fired` is already `true` at the call (recorded in the trace), one run is counted, and exactly that effect's result is returned. The same lines are src/index.ts:79-84. |
| EffectOnce.Mount | src/index.ts:36 | Creates a fresh, valid and unset instance of the hook for the requested phase. |
| EffectOnce.RunNotifications | src/index.ts:35-45 | Over a whole sequence of renders, the notification that calls an effect is exactly `FirstTrue` of the render conditions, after the default `true` is applied to omitted ones. That notification hands back the result of its own render's effect as the cleanup, and every other notification hands back nothing. |

## Left out

- React's scheduling and the passive versus layout timing (src/index.ts:38, src/index.ts:78). `Phase` only records which hook was mounted.
- Dependency-array comparison for `[...deps, condition]` (src/index.ts:45). Every call of `Notify` stands for one re-run that React decided on.
- When React calls the returned cleanup (before a re-run or at unmount). Unmounting is modelled as no further calls of `Notify`.
- What `effect` does. It is an opaque function, and only its calls are counted and its result passed on.
- Exceptions thrown by `effect`. Only the order "latch set, then effect called" is recorded, in the ghost trace.
- Non-boolean runtime values of `condition`. `condition` is a `bool`. The code tests `condition === false`, so a falsy value such as `0` or `null` would not block the effect. The model cannot express this.
