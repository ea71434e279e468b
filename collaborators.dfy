/**
  The collaborators of EventPublishingRunListener, reduced to the state the run
  listener reads and changes: the application's listener list, the context's
  registry and publish log, and the pre-context broadcaster's registry, error
  handler and dispatch log. Per-listener delivery is not modelled: one
  dispatch is one log entry.
 */
module Collaborators {

  /** An ApplicationListener: its identity and whether it also implements ApplicationContextAware. */
  datatype Listener = Listener(id: nat, isContextAware: bool)

  /** Opaque stand-ins for ConfigurableEnvironment and Throwable. */
  datatype Environment = Environment(id: nat)
  datatype Throwable = Throwable(id: nat)

  /** One SpringApplicationEvent per startup phase, carrying the fields its class carries. */
  datatype Event =
    | ApplicationStartingEvent(app: Application, args: seq<string>)
    | ApplicationEnvironmentPreparedEvent(app: Application, args: seq<string>, environment: Environment)
    | ApplicationContextInitializedEvent(app: Application, args: seq<string>, context: Context?)
    | ApplicationPreparedEvent(app: Application, args: seq<string>, context: Context?)
    | ApplicationStartedEvent(app: Application, args: seq<string>, context: Context?)
    | ApplicationReadyEvent(app: Application, args: seq<string>, context: Context?)
    | ApplicationFailedEvent(app: Application, args: seq<string>, context: Context?, exception: Throwable)

  /**
    One multicastEvent call: the event, the registry it was offered to, and
    whether an error handler was installed (continue-on-error) at that moment.
   */
  datatype Dispatch = Dispatch(event: Event, recipients: seq<Listener>, continueOnError: bool)

  /** The abstract state of a broadcaster. */
  datatype BroadcasterState = BroadcasterState(listeners: seq<Listener>, handlerInstalled: bool, dispatched: seq<Dispatch>)

  /** The abstract state of a context; `bound` holds the listeners the context was handed to. */
  datatype ContextState = ContextState(
    active: bool,
    exposesListeners: bool,
    listeners: seq<Listener>,
    published: seq<Event>,
    bound: set<Listener>)

  /** A commons-logging warning. */
  datatype Warning = Warning(message: string, cause: Throwable)

  /** SpringApplication, seen only through getListeners() (already ordered by the application). */
  class Application {
    var listeners: seq<Listener>

    constructor (listeners: seq<Listener>)
      ensures this.listeners == listeners
    {
      this.listeners := listeners;
    }

    method GetListeners() returns (ls: seq<Listener>)
      ensures ls == listeners
    {
      ls := listeners;
    }
  }

  /**
    ConfigurableApplicationContext. `exposesListeners` stands for "is an
    AbstractApplicationContext", which is a fact about its class and so never changes.
   */
  class Context {
    var active: bool
    const exposesListeners: bool
    var listeners: seq<Listener>
    var published: seq<Event>
    var bound: set<Listener>

    constructor (active: bool, exposesListeners: bool, listeners: seq<Listener>)
      ensures State() == ContextState(active, exposesListeners, listeners, [], {})
    {
      this.active := active;
      this.exposesListeners := exposesListeners;
      this.listeners := listeners;
      this.published := [];
      this.bound := {};
    }

    function State(): ContextState
      reads this
    {
      ContextState(active, exposesListeners, listeners, published, bound)
    }

    method IsActive() returns (b: bool)
      ensures b == active
    {
      b := active;
    }

    /** getApplicationListeners(), available only on an AbstractApplicationContext. */
    method GetApplicationListeners() returns (ls: seq<Listener>)
      requires exposesListeners
      ensures ls == listeners
    {
      ls := listeners;
    }

    method AddApplicationListener(listener: Listener)
      modifies this
      ensures State() == old(State()).(listeners := old(listeners) + [listener])
    {
      listeners := listeners + [listener];
    }

    method PublishEvent(event: Event)
      modifies this
      ensures State() == old(State()).(published := old(published) + [event])
    {
      published := published + [event];
    }
  }

  /** ApplicationContextAware.setApplicationContext: hands the context to a context-aware listener. */
  method SetApplicationContext(listener: Listener, context: Context)
    requires listener.isContextAware
    modifies context
    ensures context.State() == old(context.State()).(bound := old(context.bound) + {listener})
  {
    context.bound := context.bound + {listener};
  }

  /**
    SimpleApplicationEventMulticaster. `errorHandler` holds any ErrorHandler
    object, or null when none is installed.
   */
  class Multicaster {
    var listeners: seq<Listener>
    var errorHandler: object?
    var dispatched: seq<Dispatch>

    constructor ()
      ensures listeners == [] && errorHandler == null && dispatched == []
    {
      listeners := [];
      errorHandler := null;
      dispatched := [];
    }

    function State(): BroadcasterState
      reads this
    {
      BroadcasterState(listeners, errorHandler != null, dispatched)
    }

    method AddApplicationListener(listener: Listener)
      modifies this
      ensures listeners == old(listeners) + [listener]
      ensures errorHandler == old(errorHandler) && dispatched == old(dispatched)
    {
      listeners := listeners + [listener];
    }

    method SetErrorHandler(handler: object?)
      modifies this
      ensures errorHandler == handler
      ensures listeners == old(listeners) && dispatched == old(dispatched)
    {
      errorHandler := handler;
    }

    method MulticastEvent(event: Event)
      modifies this
      ensures dispatched == old(dispatched) + [Dispatch(event, listeners, errorHandler != null)]
      ensures listeners == old(listeners) && errorHandler == old(errorHandler)
    {
      dispatched := dispatched + [Dispatch(event, listeners, errorHandler != null)];
    }
  }

  /** The commons-logging Log the error handler writes to. */
  class Log {
    var warnings: seq<Warning>

    constructor ()
      ensures warnings == []
    {
      warnings := [];
    }

    method Warn(message: string, cause: Throwable)
      modifies this
      ensures warnings == old(warnings) + [Warning(message, cause)]
    {
      warnings := warnings + [Warning(message, cause)];
    }
  }
}
