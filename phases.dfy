/**
  The routing of the run listener as pure functions on the abstract states of
  the pre-context broadcaster and of the context: what each phase does to
  each of them, the routing table that says which one a phase dispatches
  through, and a whole startup run as a sequence of phase calls.
 */
module Phases {
  import opened Collaborators

  /** multicastEvent: one log entry, offered to the current registry under the current error policy. */
  function Multicast(b: BroadcasterState, e: Event): BroadcasterState
  {
    b.(dispatched := b.dispatched + [Dispatch(e, b.listeners, b.handlerInstalled)])
  }

  /** publishEvent on the context. */
  function Publish(c: ContextState, e: Event): ContextState
  {
    c.(published := c.published + [e])
  }

  /** The listeners of `ls` that implement ApplicationContextAware. */
  function ContextAware(ls: seq<Listener>): set<Listener>
  {
    set l | l in ls && l.isContextAware
  }

  /** The mode switch: every listener is registered with the context, context-aware ones are bound first. */
  function Migrate(c: ContextState, ls: seq<Listener>): ContextState
  {
    c.(listeners := c.listeners + ls, bound := c.bound + ContextAware(ls))
  }

  /** Migrating one more listener: it is appended to the registry, and bound when context-aware. */
  lemma MigrateSnoc(c: ContextState, ls: seq<Listener>, x: Listener)
    ensures var m := Migrate(c, ls);
      Migrate(c, ls + [x]) == m.(listeners := m.listeners + [x], bound := if x.isContextAware then m.bound + {x} else m.bound)
  {
    assert ContextAware(ls + [x]) == ContextAware(ls) + (if x.isContextAware then {x} else {});
  }

  /** The broadcaster right after construction from the application's listeners. */
  function Initial(ls: seq<Listener>): BroadcasterState
  {
    BroadcasterState(ls, false, [])
  }

  /** `failed` publishes through the context exactly when it was given one and it is active. */
  predicate FailedUsesContext(withContext: bool, c: ContextState)
  {
    withContext && c.active
  }

  /** The listeners `failed` copies from a context into the broadcaster on its fallback path. */
  function Exposed(withContext: bool, c: ContextState): seq<Listener>
  {
    if withContext && c.exposesListeners then c.listeners else []
  }

  /** The fallback: extend the registry (never clear it) and switch to continue-on-error. */
  function Fallback(b: BroadcasterState, extra: seq<Listener>): BroadcasterState
  {
    b.(listeners := b.listeners + extra, handlerInstalled := true)
  }

  /** What is fixed for one startup run: the application, its arguments, its listeners and the context. */
  datatype Setup = Setup(app: Application, args: seq<string>, appListeners: seq<Listener>, context: Context)

  /** One call into the run listener; `withContext` is false when `failed` is given a null context. */
  datatype Call =
    | Starting
    | EnvironmentPrepared(environment: Environment)
    | ContextPrepared
    | ContextLoaded
    | Started
    | Running
    | Failed(exception: Throwable, withContext: bool)

  datatype World = World(broadcaster: BroadcasterState, context: ContextState)

  datatype Dispatcher = Broadcaster | ContextPublisher

  /** The routing table: which dispatcher each phase goes through. */
  function Route(w: World, call: Call): Dispatcher
  {
    match call
    case Started => ContextPublisher
    case Running => ContextPublisher
    case Failed(_, withContext) => if FailedUsesContext(withContext, w.context) then ContextPublisher else Broadcaster
    case _ => Broadcaster
  }

  /** The payload table: the event each phase constructs. */
  function EventOf(s: Setup, call: Call): (e: Event)
    ensures e.app == s.app && e.args == s.args
    ensures call.Starting? <==> e.ApplicationStartingEvent?
    ensures call.EnvironmentPrepared? <==> e.ApplicationEnvironmentPreparedEvent?
    ensures call.EnvironmentPrepared? ==> e.environment == call.environment
    ensures call.ContextPrepared? <==> e.ApplicationContextInitializedEvent?
    ensures call.ContextLoaded? <==> e.ApplicationPreparedEvent?
    ensures call.Started? <==> e.ApplicationStartedEvent?
    ensures call.Running? <==> e.ApplicationReadyEvent?
    ensures call.Failed? <==> e.ApplicationFailedEvent?
    ensures call.Failed? ==> e.exception == call.exception
    ensures !call.Starting? && !call.EnvironmentPrepared? ==>
      e.context == if call.Failed? && !call.withContext then null else s.context
  {
    match call
    case Starting => ApplicationStartingEvent(s.app, s.args)
    case EnvironmentPrepared(env) => ApplicationEnvironmentPreparedEvent(s.app, s.args, env)
    case ContextPrepared => ApplicationContextInitializedEvent(s.app, s.args, s.context)
    case ContextLoaded => ApplicationPreparedEvent(s.app, s.args, s.context)
    case Started => ApplicationStartedEvent(s.app, s.args, s.context)
    case Running => ApplicationReadyEvent(s.app, s.args, s.context)
    case Failed(ex, withContext) => ApplicationFailedEvent(s.app, s.args, if withContext then s.context else null, ex)
  }

  /** The effect of one phase call on the two dispatchers. */
  function Step(s: Setup, w: World, call: Call): (r: World)
    // exactly the dispatcher the routing table names receives exactly the phase's event
    ensures Route(w, call) == Broadcaster ==>
      && r.broadcaster.dispatched == w.broadcaster.dispatched + [Dispatch(EventOf(s, call), r.broadcaster.listeners, r.broadcaster.handlerInstalled)]
      && r.context.published == w.context.published
    ensures Route(w, call) == ContextPublisher ==>
      && r.context.published == w.context.published + [EventOf(s, call)]
      && r.broadcaster == w.broadcaster
    // registries only grow
    ensures w.broadcaster.listeners <= r.broadcaster.listeners
    ensures w.context.listeners <= r.context.listeners
    ensures w.context.bound <= r.context.bound
    ensures r.context.active == w.context.active && r.context.exposesListeners == w.context.exposesListeners
    // the error policy only ever switches from fail-fast to continue-on-error, and only on the fallback
    ensures r.broadcaster.handlerInstalled == (w.broadcaster.handlerInstalled || (call.Failed? && Route(w, call) == Broadcaster))
  {
    var e := EventOf(s, call);
    match call
    case Starting => w.(broadcaster := Multicast(w.broadcaster, e))
    case EnvironmentPrepared(_) => w.(broadcaster := Multicast(w.broadcaster, e))
    case ContextPrepared => w.(broadcaster := Multicast(w.broadcaster, e))
    case ContextLoaded => World(Multicast(w.broadcaster, e), Migrate(w.context, s.appListeners))
    case Started => w.(context := Publish(w.context, e))
    case Running => w.(context := Publish(w.context, e))
    case Failed(_, withContext) =>
      if FailedUsesContext(withContext, w.context) then
        w.(context := Publish(w.context, e))
      else
        w.(broadcaster := Multicast(Fallback(w.broadcaster, Exposed(withContext, w.context)), e))
  }

  /** A run: the calls applied in order. */
  function Run(s: Setup, w: World, calls: seq<Call>): World
    decreases |calls|
  {
    if calls == [] then w else Run(s, Step(s, w, calls[0]), calls[1..])
  }

  /** The fixed order of the startup phases on the happy path. */
  function StartupSequence(env: Environment): seq<Call>
  {
    [Starting, EnvironmentPrepared(env), ContextPrepared, ContextLoaded, Started, Running]
  }

  lemma PrefixMultiset<T>(a: seq<T>, b: seq<T>)
    requires a <= b
    ensures multiset(a) <= multiset(b)
  {
    assert b == a + b[|a|..];
  }

  /**
    Over any run, no registry, log or binding set loses an entry, and every
    call adds exactly one event to one of the two logs.
   */
  lemma {:induction false} RunGrows(s: Setup, w: World, calls: seq<Call>)
    ensures var r := Run(s, w, calls);
      && w.broadcaster.listeners <= r.broadcaster.listeners
      && w.broadcaster.dispatched <= r.broadcaster.dispatched
      && w.context.listeners <= r.context.listeners
      && w.context.published <= r.context.published
      && w.context.bound <= r.context.bound
      && r.context.active == w.context.active
      && r.context.exposesListeners == w.context.exposesListeners
      && |r.broadcaster.dispatched| + |r.context.published|
         == |w.broadcaster.dispatched| + |w.context.published| + |calls|
    decreases |calls|
  {
    if calls != [] {
      RunGrows(s, Step(s, w, calls[0]), calls[1..]);
    }
  }

  lemma {:induction false} RunAppend(s: Setup, w: World, a: seq<Call>, b: seq<Call>)
    ensures Run(s, w, a + b) == Run(s, Run(s, w, a), b)
    decreases |a|
  {
    if a != [] {
      assert (a + b)[0] == a[0] && (a + b)[1..] == a[1..] + b;
      var w' := Step(s, w, a[0]);
      assert Run(s, w, a + b) == Run(s, w', a[1..] + b);
      assert Run(s, w, a) == Run(s, w', a[1..]);
      RunAppend(s, w', a[1..], b);
    } else {
      assert a + b == b;
    }
  }

  /**
    No listener is lost at the mode switch: once contextLoaded has run, the
    context's registry holds every application listener (as often as the
    application lists it) and every context-aware one has the context bound,
    whatever calls come before or after.
   */
  lemma NoListenerLost(s: Setup, w: World, calls: seq<Call>, k: nat)
    requires k < |calls| && calls[k] == ContextLoaded
    ensures multiset(s.appListeners) <= multiset(Run(s, w, calls).context.listeners)
    ensures forall l :: l in s.appListeners && l.isContextAware ==> l in Run(s, w, calls).context.bound
  {
    var before := Run(s, w, calls[..k]);
    var after := Step(s, before, ContextLoaded);
    assert calls == calls[..k] + ([calls[k]] + calls[k + 1..]);
    RunAppend(s, w, calls[..k], [calls[k]] + calls[k + 1..]);
    assert Run(s, before, [calls[k]] + calls[k + 1..]) == Run(s, after, calls[k + 1..]);
    RunGrows(s, after, calls[k + 1..]);
    var final := Run(s, w, calls).context.listeners;
    assert after.context.listeners == before.context.listeners + s.appListeners;
    PrefixMultiset(after.context.listeners, final);
  }

  /** Every event any run dispatches, through either route, carries the run's application and arguments. */
  lemma {:induction false} EventsCarrySetup(s: Setup, w: World, calls: seq<Call>)
    ensures var r := Run(s, w, calls);
      && (forall i :: |w.broadcaster.dispatched| <= i < |r.broadcaster.dispatched| ==>
            r.broadcaster.dispatched[i].event.app == s.app && r.broadcaster.dispatched[i].event.args == s.args)
      && (forall i :: |w.context.published| <= i < |r.context.published| ==>
            r.context.published[i].app == s.app && r.context.published[i].args == s.args)
    decreases |calls|
  {
    if calls != [] {
      var w' := Step(s, w, calls[0]);
      EventsCarrySetup(s, w', calls[1..]);
      RunGrows(s, w', calls[1..]);
    }
  }

  /**
    The happy path: the four pre-context phases go, in order, through the
    broadcaster under the fail-fast policy, offered to exactly the application's
    listeners; started and running go, in order, through the context, which by
    then holds every application listener.
   */
  lemma StartupRouting(s: Setup, c: ContextState, env: Environment)
    ensures var r := Run(s, World(Initial(s.appListeners), c), StartupSequence(env));
      && r.broadcaster == BroadcasterState(s.appListeners, false, [
           Dispatch(ApplicationStartingEvent(s.app, s.args), s.appListeners, false),
           Dispatch(ApplicationEnvironmentPreparedEvent(s.app, s.args, env), s.appListeners, false),
           Dispatch(ApplicationContextInitializedEvent(s.app, s.args, s.context), s.appListeners, false),
           Dispatch(ApplicationPreparedEvent(s.app, s.args, s.context), s.appListeners, false)])
      && r.context == Migrate(c, s.appListeners).(published := c.published + [
           ApplicationStartedEvent(s.app, s.args, s.context),
           ApplicationReadyEvent(s.app, s.args, s.context)])
  {
    var l := s.appListeners;
    var w0 := World(Initial(l), c);
    var pre, post := [Starting, EnvironmentPrepared(env), ContextPrepared, ContextLoaded], [Started, Running];
    assert StartupSequence(env) == pre + post;
    RunAppend(s, w0, pre, post);
    PreContextRouting(s, c, env);
    var w4 := Run(s, w0, pre);
    RunPair(s, w4, Started, Running);
  }

  /** The first four phases of the happy path, all through the broadcaster. */
  lemma PreContextRouting(s: Setup, c: ContextState, env: Environment)
    ensures Run(s, World(Initial(s.appListeners), c), [Starting, EnvironmentPrepared(env), ContextPrepared, ContextLoaded])
      == World(BroadcasterState(s.appListeners, false, [
           Dispatch(ApplicationStartingEvent(s.app, s.args), s.appListeners, false),
           Dispatch(ApplicationEnvironmentPreparedEvent(s.app, s.args, env), s.appListeners, false),
           Dispatch(ApplicationContextInitializedEvent(s.app, s.args, s.context), s.appListeners, false),
           Dispatch(ApplicationPreparedEvent(s.app, s.args, s.context), s.appListeners, false)]),
         Migrate(c, s.appListeners))
  {
    var l := s.appListeners;
    var w0 := World(Initial(l), c);
    var first, second := [Starting, EnvironmentPrepared(env)], [ContextPrepared, ContextLoaded];
    assert [Starting, EnvironmentPrepared(env), ContextPrepared, ContextLoaded] == first + second;
    RunAppend(s, w0, first, second);
    RunPair(s, w0, Starting, EnvironmentPrepared(env));
    var w2 := Run(s, w0, first);
    RunPair(s, w2, ContextPrepared, ContextLoaded);
  }

  lemma RunPair(s: Setup, w: World, a: Call, b: Call)
    ensures Run(s, w, [a, b]) == Step(s, Step(s, w, a), b)
  {
    assert [a, b][1..] == [b];
    assert [b][1..] == [];
    assert Run(s, Step(s, w, a), [b]) == Run(s, Step(s, Step(s, w, a), b), []);
  }

  /**
    `failed` reaches every application listener: after any run that went
    through contextLoaded, an active context is handed the failed event and
    holds every application listener; otherwise the broadcaster dispatches it
    under continue-on-error to a registry that still holds every listener it
    was built with, followed by every listener the context exposes.
   */
  lemma FailedReachesEveryListener(s: Setup, b: BroadcasterState, c: ContextState, pre: seq<Call>, k: nat, ex: Throwable)
    requires s.appListeners <= b.listeners
    requires k < |pre| && pre[k] == ContextLoaded
    ensures var w := Run(s, World(b, c), pre);
      var r := Step(s, w, Failed(ex, true));
      var e := ApplicationFailedEvent(s.app, s.args, s.context, ex);
      if c.active then
        && r.context.published == w.context.published + [e]
        && r.broadcaster == w.broadcaster
        && multiset(s.appListeners) <= multiset(r.context.listeners)
      else
        && r.context.published == w.context.published
        && |r.broadcaster.dispatched| > 0
        && var d := r.broadcaster.dispatched[|r.broadcaster.dispatched| - 1];
        && d.event == e
        && d.continueOnError
        && s.appListeners <= d.recipients
        && d.recipients == w.broadcaster.listeners + (if c.exposesListeners then w.context.listeners else [])
  {
    var w := Run(s, World(b, c), pre);
    RunGrows(s, World(b, c), pre);
    NoListenerLost(s, World(b, c), pre, k);
  }

  /** The fallback never clears the broadcaster: every earlier entry keeps its place. */
  lemma FallbackKeepsRegistry(s: Setup, w: World, ex: Throwable, withContext: bool)
    requires !FailedUsesContext(withContext, w.context)
    ensures var r := Step(s, w, Failed(ex, withContext));
      && r.broadcaster.listeners == w.broadcaster.listeners + Exposed(withContext, w.context)
      && r.broadcaster.handlerInstalled
      && r.context == w.context
  {
  }
}
