/**
  EventPublishingRunListener: turns the startup phases into event dispatches,
  through its own pre-context broadcaster up to and including contextLoaded,
  through the context from started on, and through either on failed.
 */
module EventPublishing {
  import opened Collaborators
  import opened Phases

  /** The message LoggingErrorHandler logs with every error it is handed. */
  const HandlerMessage: string := "Error calling ApplicationEventListener"

  /** The ErrorHandler installed on the fallback path: it logs the error as a warning and returns. */
  class LoggingErrorHandler {
    const logger: Log

    constructor (logger: Log)
      ensures this.logger == logger
    {
      this.logger := logger;
    }

    method HandleError(throwable: Throwable)
      modifies logger
      ensures logger.warnings == old(logger.warnings) + [Warning(HandlerMessage, throwable)]
    {
      logger.Warn(HandlerMessage, throwable);
    }
  }

  class EventPublishingRunListener {
    const application: Application
    const args: seq<string>
    const initialMulticaster: Multicaster
    /** The static logger of LoggingErrorHandler, passed in. */
    const logger: Log

    /** Seeds the broadcaster with a snapshot of the application's listeners, in their order. */
    constructor (application: Application, args: seq<string>, logger: Log)
      ensures this.application == application && this.args == args && this.logger == logger
      ensures fresh(initialMulticaster)
      ensures initialMulticaster.State() == Initial(application.listeners)
    {
      this.application := application;
      this.args := args;
      this.logger := logger;
      var multicaster := new Multicaster();
      var listeners := application.GetListeners();
      var i := 0;
      while i < |listeners|
        invariant 0 <= i <= |listeners|
        invariant multicaster.listeners == listeners[..i]
        invariant multicaster.errorHandler == null && multicaster.dispatched == []
      {
        multicaster.AddApplicationListener(listeners[i]);
        i := i + 1;
      }
      assert listeners[..i] == listeners;
      this.initialMulticaster := multicaster;
    }

    /** The run the trace model describes when this listener is driven with `context`. */
    ghost function SetupWith(context: Context): Setup
      reads application
    {
      Setup(application, args, application.listeners, context)
    }

    /** The abstract state of the broadcaster together with that of `context`. */
    ghost function WorldWith(context: Context): World
      reads initialMulticaster, context
    {
      World(initialMulticaster.State(), context.State())
    }

    method GetOrder() returns (order: int)
      ensures order == 0
    {
      order := 0;
    }

    method Starting()
      modifies initialMulticaster
      ensures initialMulticaster.State() == Multicast(old(initialMulticaster.State()), ApplicationStartingEvent(application, args))
      ensures initialMulticaster.errorHandler == old(initialMulticaster.errorHandler)
    {
      initialMulticaster.MulticastEvent(ApplicationStartingEvent(application, args));
    }

    method EnvironmentPrepared(environment: Environment)
      modifies initialMulticaster
      ensures initialMulticaster.State()
        == Multicast(old(initialMulticaster.State()), ApplicationEnvironmentPreparedEvent(application, args, environment))
      ensures initialMulticaster.errorHandler == old(initialMulticaster.errorHandler)
    {
      initialMulticaster.MulticastEvent(ApplicationEnvironmentPreparedEvent(application, args, environment));
    }

    method ContextPrepared(context: Context)
      modifies initialMulticaster
      ensures initialMulticaster.State()
        == Multicast(old(initialMulticaster.State()), ApplicationContextInitializedEvent(application, args, context))
      ensures initialMulticaster.errorHandler == old(initialMulticaster.errorHandler)
      ensures WorldWith(context) == Step(SetupWith(context), old(WorldWith(context)), Call.ContextPrepared)
    {
      initialMulticaster.MulticastEvent(ApplicationContextInitializedEvent(application, args, context));
    }

    /**
      The mode switch: every application listener, in order, is bound to the
      context if it is context-aware and then registered with it; the prepared
      event still goes through the broadcaster.
     */
    method ContextLoaded(context: Context)
      modifies context, initialMulticaster
      ensures context.State() == Migrate(old(context.State()), application.listeners)
      ensures initialMulticaster.State()
        == Multicast(old(initialMulticaster.State()), ApplicationPreparedEvent(application, args, context))
      ensures initialMulticaster.errorHandler == old(initialMulticaster.errorHandler)
      ensures WorldWith(context) == Step(SetupWith(context), old(WorldWith(context)), Call.ContextLoaded)
    {
      var listeners := application.GetListeners();
      var i := 0;
      while i < |listeners|
        invariant 0 <= i <= |listeners|
        invariant context.State() == Migrate(old(context.State()), listeners[..i])
        invariant initialMulticaster.State() == old(initialMulticaster.State())
        invariant initialMulticaster.errorHandler == old(initialMulticaster.errorHandler)
      {
        var listener := listeners[i];
        if listener.isContextAware {
          SetApplicationContext(listener, context);
        }
        context.AddApplicationListener(listener);
        assert listeners[..i + 1] == listeners[..i] + [listener];
        MigrateSnoc(old(context.State()), listeners[..i], listener);
        i := i + 1;
      }
      assert listeners[..i] == listeners;
      initialMulticaster.MulticastEvent(ApplicationPreparedEvent(application, args, context));
    }

    method Started(context: Context)
      modifies context
      ensures context.State() == Publish(old(context.State()), ApplicationStartedEvent(application, args, context))
      ensures WorldWith(context) == Step(SetupWith(context), old(WorldWith(context)), Call.Started)
    {
      context.PublishEvent(ApplicationStartedEvent(application, args, context));
    }

    method Running(context: Context)
      modifies context
      ensures context.State() == Publish(old(context.State()), ApplicationReadyEvent(application, args, context))
      ensures WorldWith(context) == Step(SetupWith(context), old(WorldWith(context)), Call.Running)
    {
      context.PublishEvent(ApplicationReadyEvent(application, args, context));
    }

    /**
      Publishes the failed event through a live context; otherwise copies the
      listeners a broken context exposes into the broadcaster, installs a fresh
      logging error handler and dispatches there.
     */
    method Failed(context: Context?, exception: Throwable)
      modifies initialMulticaster, context
      ensures context != null && old(context.active) ==>
        && context.State() == Publish(old(context.State()), ApplicationFailedEvent(application, args, context, exception))
        && initialMulticaster.State() == old(initialMulticaster.State())
        && initialMulticaster.errorHandler == old(initialMulticaster.errorHandler)
      ensures context != null && !old(context.active) ==>
        && context.State() == old(context.State())
        && initialMulticaster.State()
           == Multicast(Fallback(old(initialMulticaster.State()), Exposed(true, old(context.State()))),
                        ApplicationFailedEvent(application, args, context, exception))
      ensures context == null ==>
        initialMulticaster.State()
        == Multicast(Fallback(old(initialMulticaster.State()), []), ApplicationFailedEvent(application, args, null, exception))
      ensures context != null ==>
        WorldWith(context) == Step(SetupWith(context), old(WorldWith(context)), Call.Failed(exception, true))
      ensures (context == null || !old(context.active)) ==>
        && fresh(initialMulticaster.errorHandler)
        && initialMulticaster.errorHandler is LoggingErrorHandler
        && (initialMulticaster.errorHandler as LoggingErrorHandler).logger == logger
    {
      var event := ApplicationFailedEvent(application, args, context, exception);
      ghost var before := initialMulticaster.State();
      var live := false;
      if context != null {
        live := context.IsActive();
      }
      if live {
        context.PublishEvent(event);
      } else {
        if context != null && context.exposesListeners {
          var listeners := context.GetApplicationListeners();
          var i := 0;
          while i < |listeners|
            invariant 0 <= i <= |listeners|
            invariant initialMulticaster.listeners == old(initialMulticaster.listeners) + listeners[..i]
            invariant initialMulticaster.errorHandler == old(initialMulticaster.errorHandler)
            invariant initialMulticaster.dispatched == old(initialMulticaster.dispatched)
            invariant context.State() == old(context.State())
          {
            initialMulticaster.AddApplicationListener(listeners[i]);
            assert listeners[..i + 1] == listeners[..i] + [listeners[i]];
            i := i + 1;
          }
          assert listeners[..i] == listeners;
        }
        ghost var extra := if context != null then Exposed(true, context.State()) else [];
        assert initialMulticaster.listeners == before.listeners + extra;
        var handler := new LoggingErrorHandler(logger);
        initialMulticaster.SetErrorHandler(handler);
        assert initialMulticaster.State() == Fallback(before, extra);
        initialMulticaster.MulticastEvent(event);
      }
    }
  }

  /**
    A client run of the failure path: listeners A and B (B context-aware),
    starting, contextLoaded into a context that never becomes active, then
    failed. The failed event goes through the broadcaster under
    continue-on-error to both listeners (each registry copy is kept, so both
    are offered it at least once), and the context only gained A and B.
   */
  method FailureBeforeActivation(err: Throwable) returns (prepared: Dispatch, failure: Dispatch, contextListeners: seq<Listener>)
    ensures prepared.event.ApplicationPreparedEvent? && !prepared.continueOnError
    ensures prepared.recipients == [Listener(0, false), Listener(1, true)]
    ensures failure.event.ApplicationFailedEvent? && failure.event.exception == err
    ensures failure.continueOnError
    ensures failure.recipients == [Listener(0, false), Listener(1, true), Listener(0, false), Listener(1, true)]
    ensures contextListeners == [Listener(0, false), Listener(1, true)]
  {
    var a, b := Listener(0, false), Listener(1, true);
    var application := new Application([a, b]);
    var logger := new Log();
    var runListener := new EventPublishingRunListener(application, ["--debug"], logger);
    runListener.Starting();
    var context := new Context(false, true, []);
    runListener.ContextLoaded(context);
    runListener.Failed(context, err);
    var log := runListener.initialMulticaster.dispatched;
    assert |log| == 3;
    prepared, failure := log[1], log[2];
    contextListeners := context.listeners;
  }
}
