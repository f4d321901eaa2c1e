/**
 One mounted instance of `useEffectOnce` or `useLayoutEffectOnce`. The host
 (React) is a caller that invokes `Notify` once at mount and again whenever it
 decides to re-run the effect; the two hooks differ only in the host phase
 they register under, which has no bearing on the guard.
 */
module EffectOnce {
  import opened LatchSpec

  /** The host phase the callback is registered under: `useEffect` or `useLayoutEffect`. */
  datatype Phase = Passive | Layout

  /** The arguments of one render of the hook that leads to a notification:
      the `effect` callback passed in that render, and its `condition`
      argument (`None` when omitted). Each render builds a fresh callback
      that captures both. */
  datatype Render<C> = Render(effect: () -> Option<C>, condition: Option<bool>)

  /** What the effect of render `r` returns when it is called. As a function of
      the render alone it does not depend on the heap. */
  function Outcome<C>(r: Render<C>): Option<C>
  {
    r.effect()
  }

  /** The conditions the notifications see, after the default is applied. */
  function Conditions<C>(renders: seq<Render<C>>): (cs: seq<bool>)
    ensures |cs| == |renders|
    ensures forall i :: 0 <= i < |renders| ==> cs[i] == ConditionArg(renders[i].condition)
  {
    seq(|renders|, i requires 0 <= i < |renders| => ConditionArg(renders[i].condition))
  }

  /** The per-instance state: `fired` is the `useRef(false)` box, which lives
      as long as the mounted instance. The effect is not part of it: every
      notification brings the effect of the render that triggered it. */
  class OnceLatch {
    const phase: Phase
    var fired: bool

    // public view of the instance
    ghost var history: seq<bool>  // conditions of the notifications seen so far
    ghost var runs: nat            // times an effect has been invoked
    ghost var trace: seq<Event>    // latch assignments and effect calls, in order

    /** The instance's state agrees with folding the guard over its history. */
    ghost predicate Valid()
      reads this
    {
      fired == LatchAfter(history) &&
      runs == RunsAfter(history) &&
      trace == TraceAfter(history)
    }

    /** `useEffectOnce(effect, deps, condition)` at mount: the latch starts unset. */
    constructor UseEffectOnce()
      ensures Valid()
      ensures phase == Passive
      ensures !fired && runs == 0 && history == [] && trace == []
    {
      this.phase := Passive;
      fired := false;
      history, runs, trace := [], 0, [];
    }

    /** `useLayoutEffectOnce(effect, deps, condition)` at mount: the same latch, registered for the layout phase. */
    constructor UseLayoutEffectOnce()
      ensures Valid()
      ensures phase == Layout
      ensures !fired && runs == 0 && history == [] && trace == []
    {
      this.phase := Layout;
      fired := false;
      history, runs, trace := [], 0, [];
    }

    /** One run of the guarded callback built by a render with this `effect`
        and `condition`. It returns the cleanup handed back to the host:
        nothing when suppressed, exactly this effect's result when it fires. */
    method Notify<C>(condition: bool, effect: () -> Option<C>) returns (cleanup: Option<C>)
      requires Valid()
      modifies this
      ensures Valid()
      ensures history == old(history) + [condition]
      ensures fired == (old(fired) || condition)
      ensures old(fired) ==> runs == old(runs) && trace == old(trace)
      ensures !old(fired) && !condition ==> !fired && runs == old(runs) && trace == old(trace)
      ensures !old(fired) && condition ==>
                runs == old(runs) + 1 && trace == old(trace) + [LatchSet, EffectCalled(true)]
      ensures cleanup == if !old(fired) && condition then effect() else None
    {
      ghost var before := history;
      history := history + [condition];
      assert history[..|history| - 1] == before;
      if fired || condition == false {
        return None;
      }
      fired := true;
      trace := trace + [LatchSet];
      trace := trace + [EffectCalled(fired)];
      cleanup := effect();
      runs := runs + 1;
    }
  }

  /** Mounts an instance of the hook that registers under `phase`. */
  method Mount(phase: Phase) returns (latch: OnceLatch)
    ensures fresh(latch) && latch.Valid()
    ensures latch.phase == phase
    ensures !latch.fired && latch.history == []
  {
    if phase == Passive {
      latch := new OnceLatch.UseEffectOnce();
    } else {
      latch := new OnceLatch.UseLayoutEffectOnce();
    }
  }

  /** Delivers the notification of render number `i` to `latch`, whose
      history so far is `seen`, and keeps track of which notification fired. */
  method Deliver<C>(latch: OnceLatch, render: Render<C>, i: nat, ghost seen: seq<bool>, firedAt: Option<nat>)
    returns (firedAt': Option<nat>, cleanup: Option<C>)
    requires latch.Valid() && latch.history == seen && |seen| == i
    requires firedAt == FirstTrue(seen) && (latch.fired <==> firedAt.Some?)
    modifies latch
    ensures latch.Valid() && latch.history == seen + [ConditionArg(render.condition)]
    ensures firedAt' == FirstTrue(latch.history) && (latch.fired <==> firedAt'.Some?)
    ensures firedAt.Some? ==> firedAt' == firedAt
    ensures firedAt' == firedAt || firedAt' == Some(i)
    ensures cleanup == if firedAt' == Some(i) then Outcome(render) else None
  {
    var condition := ConditionArg(render.condition);
    FirstTrueSnoc(seen, condition);
    var wasFired := latch.fired;
    cleanup := latch.Notify(condition, render.effect);
    firedAt' := if !wasFired && latch.fired then Some(i) else firedAt;
  }

  /** Drives one instance of either hook through a whole run of renders, one
      notification per render. It reports which notification invoked an effect
      and the cleanup each notification handed back to the host. */
  method RunNotifications<C>(phase: Phase, renders: seq<Render<C>>)
    returns (firedAt: Option<nat>, cleanups: seq<Option<C>>)
    ensures firedAt == FirstTrue(Conditions(renders))
    ensures |cleanups| == |renders|
    ensures forall i :: 0 <= i < |cleanups| ==>
              cleanups[i] == if firedAt == Some(i) then renders[i].effect() else None
  {
    var latch := Mount(phase);
    firedAt, cleanups := None, [];
    var i := 0;
    while i < |renders|
      invariant 0 <= i <= |renders|
      invariant fresh(latch) && latch.Valid()
      invariant latch.history == Conditions(renders[..i])
      invariant firedAt == FirstTrue(latch.history) && (latch.fired <==> firedAt.Some?)
      invariant |cleanups| == i
      invariant firedAt.Some? ==> firedAt.value < i
      invariant firedAt.Some? ==> cleanups[firedAt.value] == Outcome(renders[firedAt.value])
      invariant forall k :: 0 <= k < i && firedAt != Some(k) ==> cleanups[k] == None
    {
      ghost var seen, before, prev := latch.history, firedAt, cleanups;
      var cleanup;
      firedAt, cleanup := Deliver(latch, renders[i], i, seen, firedAt);
      assert Conditions(renders[..i + 1]) == seen + [ConditionArg(renders[i].condition)];
      cleanups := cleanups + [cleanup];
      forall k | 0 <= k < i + 1 && firedAt != Some(k)
        ensures cleanups[k] == None
      {
        if k < i {
          assert cleanups[k] == prev[k];
          assert before != Some(k);
        } else {
          assert cleanups[k] == cleanup;
        }
      }
      i := i + 1;
    }
    assert renders[..i] == renders;
  }

  /** A client: the condition is false on two renders, then true on four, and
      every render passes its own effect. The effect of the third render is
      the one that runs. */
  method ConditionTurnsTrueOnThirdRender(effects: seq<() -> Option<int>>)
    requires |effects| == 6
  {
    var renders := [Render(effects[0], Some(false)), Render(effects[1], Some(false)),
                    Render(effects[2], Some(true)), Render(effects[3], Some(true)),
                    Render(effects[4], None), Render(effects[5], Some(true))];
    assert Conditions(renders) == [false, false, true, true, true, true];
    FirstTrueUnique(Conditions(renders), 2);
    var firedAt, cleanups := RunNotifications(Passive, renders);
    assert firedAt == Some(2);
    assert cleanups[2] == effects[2]() && cleanups[3] == None && cleanups[4] == None;
  }
}
