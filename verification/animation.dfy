/** The animation controller of components/AnimationProvider.tsx: a context
    holding an animation key and a page-loaded flag, and an effect that runs
    on every change of the pathname. The effect clears the flag, increments
    the key and sets a 100 ms timer that sets the flag; its cleanup, run
    before the next effect and on unmount, clears that timer. Time is
    explicit: the state records the current time and the due time of the
    one pending timer. */
module Animation {
  import opened Maybe

  /** What the context exposes to the components below the provider. */
  datatype Context = Context(animationKey: nat, isPageLoaded: bool)

  /** The context's default value, seen outside any provider. */
  const Default: Context := Context(0, false)

  /** The delay of the page-loaded timer, in milliseconds. */
  const Delay: nat := 100

  /** The provider: its two state variables, the pathname its effect last
      ran for (`None` before the first effect), the clock, the due time of
      the pending timer, and whether it is still mounted. */
  datatype Provider = Provider(animationKey: nat, isPageLoaded: bool, lastPath: Option<string>,
                               now: nat, pending: Option<nat>, mounted: bool)

  /** What can happen to a provider: a render with the current pathname, the
      passing of time, and unmounting. */
  datatype Event = Render(pathname: string) | Advance(ms: nat) | Unmount

  /** The provider as first rendered, before its first effect: the two
      `useState` initial values. */
  function Mount(): (p: Provider)
    ensures View(p) == Default && p.pending.None? && p.mounted
  {
    Provider(0, false, None, 0, None, true)
  }

  /** The context value the provider passes down. */
  function View(p: Provider): Context {
    Context(p.animationKey, p.isPageLoaded)
  }

  /** Whether a render runs the effect: on the first render and whenever the
      pathname differs from the one of the last run. */
  predicate RunsEffect(p: Provider, pathname: string) {
    p.mounted && p.lastPath != Some(pathname)
  }

  /** The cleanup of the previous run (`clearTimeout`) followed by the
      effect: the flag is cleared, the key incremented and a new timer set. */
  function Effect(p: Provider, pathname: string): (q: Provider)
    ensures q.animationKey == p.animationKey + 1 && !q.isPageLoaded
    ensures q.pending == Some(p.now + Delay) && q.now == p.now
    ensures q.lastPath == Some(pathname) && q.mounted == p.mounted
  {
    Provider(p.animationKey + 1, false, Some(pathname), p.now, Some(p.now + Delay), p.mounted)
  }

  /** Time passes; the pending timer fires if it falls due. */
  function Tick(p: Provider, ms: nat): (q: Provider)
    ensures q.now == p.now + ms && q.animationKey == p.animationKey
    ensures q.isPageLoaded <==> p.isPageLoaded || (p.pending.Some? && p.pending.value <= p.now + ms)
  {
    var now := p.now + ms;
    if p.pending.Some? && p.pending.value <= now then p.(now := now, isPageLoaded := true, pending := None)
    else p.(now := now)
  }

  /** One event. A render with an unchanged pathname, or any render after
      unmounting, leaves the provider as it is. */
  function Step(p: Provider, e: Event): (q: Provider)
    ensures q.animationKey >= p.animationKey
    ensures e.Unmount? ==> q.pending.None? && !q.mounted && View(q) == View(p)
  {
    match e
    case Render(pathname) => if RunsEffect(p, pathname) then Effect(p, pathname) else p
    case Advance(ms) => Tick(p, ms)
    case Unmount => p.(pending := None, mounted := false)
  }

  /** The provider after a sequence of events. */
  function Run(p: Provider, es: seq<Event>): Provider
    decreases |es|
  {
    if es == [] then p else Run(Step(p, es[0]), es[1..])
  }

  /** The number of renders in `es` that run the effect, starting from `p`. */
  function EffectsRun(p: Provider, es: seq<Event>): nat
    decreases |es|
  {
    if es == [] then 0
    else (if es[0].Render? && RunsEffect(p, es[0].pathname) then 1 else 0) + EffectsRun(Step(p, es[0]), es[1..])
  }

  /** The states a mounted provider can reach: the flag is set only when no
      timer is pending, a pending timer is due at most `Delay` after now, and
      the key counts the effects, at least one once a pathname was seen. */
  predicate Valid(p: Provider) {
    && (p.isPageLoaded ==> p.pending.None?)
    && (p.pending.Some? ==> p.now < p.pending.value <= p.now + Delay)
    && (p.lastPath.Some? <==> p.animationKey > 0)
    && (!p.mounted ==> p.pending.None?)
  }

  /** Every event keeps a provider valid. */
  lemma StepValid(p: Provider, e: Event)
    requires Valid(p)
    ensures Valid(Step(p, e))
  {
  }

  /** The key counts the effects run: it grows by exactly the number of
      renders that ran the effect, and by nothing else. */
  lemma {:induction false} KeyCountsEffects(p: Provider, es: seq<Event>)
    ensures Run(p, es).animationKey == p.animationKey + EffectsRun(p, es)
    decreases |es|
  {
    if es != [] {
      KeyCountsEffects(Step(p, es[0]), es[1..]);
    }
  }

  /** Replays a sequence of events, counting the effects it runs. */
  method Replay(start: Provider, es: seq<Event>) returns (p: Provider, effects: nat)
    requires Valid(start)
    ensures p == Run(start, es) && effects == EffectsRun(start, es)
    ensures Valid(p) && p.animationKey == start.animationKey + effects
  {
    p, effects := start, 0;
    var i := 0;
    while i < |es|
      invariant 0 <= i <= |es| && Valid(p)
      invariant Run(start, es) == Run(p, es[i..])
      invariant EffectsRun(start, es) == effects + EffectsRun(p, es[i..])
      invariant p.animationKey == start.animationKey + effects
    {
      assert es[i..][0] == es[i] && es[i..][1..] == es[i + 1..];
      if es[i].Render? && RunsEffect(p, es[i].pathname) {
        effects := effects + 1;
      }
      StepValid(p, es[i]);
      p := Step(p, es[i]);
      i := i + 1;
    }
  }

  /** After mounting on a pathname the key is 1 and the page is not yet
      loaded; 100 ms later it is, and not a millisecond earlier. */
  lemma FirstMount(path: string, ms: nat)
    ensures View(Run(Mount(), [Render(path)])) == Context(1, false)
    ensures View(Run(Mount(), [Render(path), Advance(ms)])).isPageLoaded <==> ms >= Delay
  {
    RunSteps(Mount(), Render(path), Advance(ms), Unmount, Unmount);
  }

  /** A re-render with the same pathname changes nothing. */
  lemma SamePathNoEffect(p: Provider, path: string)
    requires p.lastPath == Some(path)
    ensures Step(p, Render(path)) == p
  {
  }

  /** A pathname change cancels the pending timer: for any time short of
      `Delay` after the change the flag stays clear, whenever the old timer
      was due; the key goes up by one; and the new timer sets the flag
      `Delay` after the change. */
  lemma ChangeCancelsTimer(p: Provider, path: string, early: nat, late: nat)
    requires Valid(p) && RunsEffect(p, path)
    requires early < Delay <= early + late
    ensures var q := Run(p, [Render(path), Advance(early)]);
            View(q) == Context(p.animationKey + 1, false)
    ensures View(Run(p, [Render(path), Advance(early), Advance(late)])).isPageLoaded
  {
    RunSteps(p, Render(path), Advance(early), Advance(late), Unmount);
  }

  /** The sequence of the component's test: mount on "/", 100 ms, navigate
      to "/about", 100 ms. */
  lemma NavigationScenario()
    ensures View(Run(Mount(), [Render("/")])) == Context(1, false)
    ensures View(Run(Mount(), [Render("/"), Advance(100)])) == Context(1, true)
    ensures View(Run(Mount(), [Render("/"), Advance(100), Render("/about")])) == Context(2, false)
    ensures View(Run(Mount(), [Render("/"), Advance(100), Render("/about"), Advance(100)])) == Context(2, true)
  {
    var a := Step(Mount(), Render("/"));
    var b := Step(a, Advance(100));
    assert "/" != "/about";
    var c := Step(b, Render("/about"));
    var d := Step(c, Advance(100));
    RunSteps(Mount(), Render("/"), Advance(100), Render("/about"), Advance(100));
  }

  /** Running up to four events one at a time. */
  lemma RunSteps(p: Provider, e1: Event, e2: Event, e3: Event, e4: Event)
    ensures Run(p, [e1]) == Step(p, e1)
    ensures Run(p, [e1, e2]) == Step(Step(p, e1), e2)
    ensures Run(p, [e1, e2, e3]) == Step(Step(Step(p, e1), e2), e3)
    ensures Run(p, [e1, e2, e3, e4]) == Step(Step(Step(Step(p, e1), e2), e3), e4)
  {
    var p1 := Step(p, e1);
    var p2 := Step(p1, e2);
    var p3 := Step(p2, e3);
    RunFirst(p3, e4, []);
    RunFirst(p2, e3, []);
    RunFirst(p2, e3, [e4]);
    RunFirst(p1, e2, []);
    RunFirst(p1, e2, [e3]);
    RunFirst(p1, e2, [e3, e4]);
    RunFirst(p, e1, []);
    RunFirst(p, e1, [e2]);
    RunFirst(p, e1, [e2, e3]);
    RunFirst(p, e1, [e2, e3, e4]);
  }

  /** The first event is handled first. */
  lemma RunFirst(p: Provider, e: Event, es: seq<Event>)
    ensures Run(p, [e] + es) == Run(Step(p, e), es)
  {
    assert ([e] + es)[1..] == es;
  }

  /** Once unmounted, nothing changes the context any more and no timer is
      left pending. */
  lemma {:induction false} UnmountedStaysPut(p: Provider, es: seq<Event>)
    requires !p.mounted && p.pending.None?
    ensures View(Run(p, es)) == View(p) && Run(p, es).pending.None?
    decreases |es|
  {
    if es != [] {
      UnmountedStaysPut(Step(p, es[0]), es[1..]);
    }
  }
}
