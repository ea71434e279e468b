# EventPublishingRunListener, modelled in Dafny

Spring Boot's `EventPublishingRunListener` turns the fixed sequence of
application startup phases (starting, environment prepared, context
initialized, context loaded, started, running, failed) into
`SpringApplicationEvent`s. It sends them along one of two routes:

- Up to and including `contextLoaded`, it sends them through a private
  `SimpleApplicationEventMulticaster`. This broadcaster is seeded once, at
  construction, from the application's listeners.
- From `started` on, it sends them through the context's own `publishEvent`.
- At `contextLoaded`, every application listener is copied into the
  context's registry. Listeners that implement `ApplicationContextAware`
  have the context bound to them first.
- On `failed`, a live context publishes the event itself. Otherwise the
  broadcaster is used as a fallback. It first takes over the listeners the
  broken context exposes, then installs a log-and-continue error handler,
  then dispatches.

The project has three modules:

- `Collaborators` (`collaborators.dfy`) models the objects the run listener
  talks to, as plain state:
  - `Listener` is an id plus an `isContextAware` flag.
  - `Application` holds the list `getListeners()` returns.
  - `Context` holds `active`, `exposesListeners` (stands for "is an
    `AbstractApplicationContext`"), a listener registry, a log of published
    events and the set of listeners the context has been bound to.
  - `Multicaster` holds a listener registry, the installed error handler
    (or null) and a log of dispatches.
  - `Log` is the commons-logging log.

  A dispatch is one log entry, `Dispatch(event, recipients,
  continueOnError)`. It records the event, the registry at that moment and
  whether an error handler was installed.
- `Phases` (`phases.dfy`) is the specification, written as pure functions:
  - what each phase does to the abstract state of the broadcaster and of the
    context (`Multicast`, `Publish`, `Migrate`, `Fallback`);
  - the payload table `EventOf` and the routing table `Route`;
  - one call `Step` and a whole run `Run`.

  The lemmas about runs are proved here.
- `EventPublishing` (`run_listener.dfy`) holds `LoggingErrorHandler` and the
  `EventPublishingRunListener` class. The class has one method per phase,
  with the source's loops. Each method's postcondition is stated in terms of
  the `Phases` functions. Each method that takes a context also states
  that it performs exactly one `Step` of the specification on the
  broadcaster and that context.

`application`, `args` and the broadcaster are `const` fields, as the Java
fields are `final`. So every event from every phase carries the same
application and arguments.

## Model

| member | source | states |
|---|---|---|
| `EventPublishing.EventPublishingRunListener.constructor` | spring-boot-project/spring-boot/src/main/java/org/springframework/boot/context/event/EventPublishingRunListener.java:66-75 | the broadcaster is new and holds exactly the application's listeners, in order; no error handler is installed and nothing has been dispatched; application and args are the ones given |
| `EventPublishing.EventPublishingRunListener.GetOrder` | spring-boot-project/spring-boot/src/main/java/org/springframework/boot/context/event/EventPublishingRunListener.java:77-80 | the order is always 0 |
| `EventPublishing.EventPublishingRunListener.Starting` | spring-boot-project/spring-boot/src/main/java/org/springframework/boot/context/event/EventPublishingRunListener.java:82-86 | the broadcaster's log gains exactly one ApplicationStartingEvent with the construction-time app and args; its registry and error handler are unchanged; no context is touched (only the broadcaster is in the frame) |
| `EventPublishing.EventPublishingRunListener.EnvironmentPrepared` | spring-boot-project/spring-boot/src/main/java/org/springframework/boot/context/event/EventPublishingRunListener.java:88-92 | as Starting, with one ApplicationEnvironmentPreparedEvent carrying the given environment |
| `EventPublishing.EventPublishingRunListener.ContextPrepared` | spring-boot-project/spring-boot/src/main/java/org/springframework/boot/context/event/EventPublishingRunListener.java:94-98 | as Starting, with one ApplicationContextInitializedEvent carrying the given context; the context itself is not modified; one Step of the specification |
| `EventPublishing.EventPublishingRunListener.ContextLoaded` | spring-boot-project/spring-boot/src/main/java/org/springframework/boot/context/event/EventPublishingRunListener.java:106-116 | the context's registry gains every application listener in order; exactly the context-aware ones are bound to the context; then one ApplicationPreparedEvent goes through the broadcaster, whose registry and handler object are unchanged; the context publishes nothing; this is one Step of the specification |
| `EventPublishing.EventPublishingRunListener.Started` | spring-boot-project/spring-boot/src/main/java/org/springframework/boot/context/event/EventPublishingRunListener.java:118-122 | the context's published log gains exactly one ApplicationStartedEvent; the broadcaster is untouched; one Step of the specification |
| `EventPublishing.EventPublishingRunListener.Running` | spring-boot-project/spring-boot/src/main/java/org/springframework/boot/context/event/EventPublishingRunListener.java:124-128 | the context's published log gains exactly one ApplicationReadyEvent; the broadcaster is untouched; one Step of the specification |
| `EventPublishing.EventPublishingRunListener.Failed` | spring-boot-project/spring-boot/src/main/java/org/springframework/boot/context/event/EventPublishingRunListener.java:130-151 | a non-null active context publishes the failed event (cause and context as given) and the broadcaster and its handler stay as they were; otherwise the broadcaster's registry is extended (never cleared) by the context's listeners exactly when the context is non-null and exposes them, a fresh LoggingErrorHandler writing to the run listener's log is installed, and the event is dispatched there under continue-on-error; an inactive context is left unchanged |
| `EventPublishing.LoggingErrorHandler.HandleError` | spring-boot-project/spring-boot/src/main/java/org/springframework/boot/context/event/EventPublishingRunListener.java:153-160 | the error is logged once as a warning with the fixed message, and the method returns normally (it never rethrows) |
| `EventPublishing.FailureBeforeActivation` | spring-boot-project/spring-boot/src/main/java/org/springframework/boot/context/event/EventPublishingRunListener.java:106-150 | a client run: listeners A and B, starting, contextLoaded into a context that never becomes active, then failed; the prepared event was offered to [A, B] fail-fast; the failed event carries the cause and is offered under continue-on-error to [A, B, A, B]; the context's registry is [A, B] |
| `Phases.EventOf` | spring-boot-project/spring-boot/src/main/java/org/springframework/boot/context/event/EventPublishingRunListener.java:82-133 | the payload table: every event carries the run's app and args; each of the seven phases yields exactly its own event kind; environment, context and cause are the ones the phase supplies (a null context on failed stays null) |
| `Phases.Step` | spring-boot-project/spring-boot/src/main/java/org/springframework/boot/context/event/EventPublishingRunListener.java:82-150 | exactly the dispatcher the routing table names gains the phase's event, and the other log is unchanged; both registries and the binding set only grow; the error policy switches to continue-on-error only on the failed fallback |
| `Phases.MigrateSnoc` | spring-boot-project/spring-boot/src/main/java/org/springframework/boot/context/event/EventPublishingRunListener.java:108-113 | one more iteration of the contextLoaded loop appends that listener to the context's registry, and binds it exactly when it is context-aware |
| `Phases.RunGrows` | spring-boot-project/spring-boot/src/main/java/org/springframework/boot/context/event/EventPublishingRunListener.java:72-150 | over any sequence of phase calls, both registries, both logs and the binding set only grow (as prefixes), and each call adds exactly one event to exactly one of the two logs |
| `Phases.NoListenerLost` | spring-boot-project/spring-boot/src/main/java/org/springframework/boot/context/event/EventPublishingRunListener.java:107-113 | after any run that includes contextLoaded, the context's registry holds every application listener, as often as the application lists it, and every context-aware one is bound, whatever calls follow |
| `Phases.EventsCarrySetup` | spring-boot-project/spring-boot/src/main/java/org/springframework/boot/context/event/EventPublishingRunListener.java:59-61 | every event a run dispatches, through either route, carries the same application and arguments |
| `Phases.PreContextRouting` | spring-boot-project/spring-boot/src/main/java/org/springframework/boot/context/event/EventPublishingRunListener.java:82-116 | from construction, starting, environmentPrepared, contextPrepared and contextLoaded dispatch their four events in that order through the broadcaster, fail-fast, to exactly the application's listeners; the context publishes nothing and gains every listener |
| `Phases.StartupRouting` | spring-boot-project/spring-boot/src/main/java/org/springframework/boot/context/event/EventPublishingRunListener.java:82-128 | the whole happy path: the four pre-context events go through the broadcaster in phase order, and started and ready go through the context in that order, after it has gained every application listener |
| `Phases.FailedReachesEveryListener` | spring-boot-project/spring-boot/src/main/java/org/springframework/boot/context/event/EventPublishingRunListener.java:131-150 | after any run through contextLoaded, failed either hands the event to an active context that holds every application listener, or dispatches it through the broadcaster under continue-on-error to a registry that still holds every listener it was seeded with, followed by the listeners the context exposes |
| `Phases.FallbackKeepsRegistry` | spring-boot-project/spring-boot/src/main/java/org/springframework/boot/context/event/EventPublishingRunListener.java:139-150 | on the fallback the broadcaster's registry is its old registry followed by the exposed context listeners (none for a null or non-exposing context); the handler is installed; the context is unchanged |
| `Collaborators.Application.GetListeners` | spring-boot-project/spring-boot/src/main/java/org/springframework/boot/context/event/EventPublishingRunListener.java:72 | returns the application's current listener list |
| `Collaborators.Context.IsActive` | spring-boot-project/spring-boot/src/main/java/org/springframework/boot/context/event/EventPublishingRunListener.java:134 | returns whether the context is active |
| `Collaborators.Context.GetApplicationListeners` | spring-boot-project/spring-boot/src/main/java/org/springframework/boot/context/event/EventPublishingRunListener.java:142-144 | callable only on a context that exposes its listeners, and returns its registry |
| `Collaborators.Context.AddApplicationListener` | spring-boot-project/spring-boot/src/main/java/org/springframework/boot/context/event/EventPublishingRunListener.java:112 | appends the listener to the context's registry and changes nothing else |
| `Collaborators.Context.PublishEvent` | spring-boot-project/spring-boot/src/main/java/org/springframework/boot/context/event/EventPublishingRunListener.java:120-121 | appends the event to the context's published log and changes nothing else |
| `Collaborators.SetApplicationContext` | spring-boot-project/spring-boot/src/main/java/org/springframework/boot/context/event/EventPublishingRunListener.java:109-111 | only a context-aware listener can be bound; it is added to the context's bound set and nothing else changes |
| `Collaborators.Multicaster.constructor` | spring-boot-project/spring-boot/src/main/java/org/springframework/boot/context/event/EventPublishingRunListener.java:69 | a new broadcaster has an empty registry, no error handler and an empty log |
| `Collaborators.Multicaster.AddApplicationListener` | spring-boot-project/spring-boot/src/main/java/org/springframework/boot/context/event/EventPublishingRunListener.java:73 | appends the listener to the registry and changes nothing else |
| `Collaborators.Multicaster.SetErrorHandler` | spring-boot-project/spring-boot/src/main/java/org/springframework/boot/context/event/EventPublishingRunListener.java:148 | installs the given handler and changes nothing else |
| `Collaborators.Multicaster.MulticastEvent` | spring-boot-project/spring-boot/src/main/java/org/springframework/boot/context/event/EventPublishingRunListener.java:84-85 | appends one dispatch entry: the event, the current registry and the current error policy |
| `Collaborators.Log.Warn` | spring-boot-project/spring-boot/src/main/java/org/springframework/boot/context/event/EventPublishingRunListener.java:159 | appends one warning with the message and the cause |

## Notes on the source

- `contextLoaded` calls `application.getListeners()` again when it runs
  (EventPublishingRunListener.java:108). It does not reuse the list the
  constructor copied (:72). `ContextLoaded` therefore migrates the
  application's current listener list. The trace model in `Phases` keeps
  one listener list for the whole run (`Setup.appListeners`).
- On the fallback, `failed` copies the context's listeners only when the
  context is an `AbstractApplicationContext` (:142). The model renders that
  type test as the `exposesListeners` flag.

## Left out

- Per-listener delivery inside `SimpleApplicationEventMulticaster` is not
  modelled: listener type matching, ordering by `Ordered`, executors, and
  what a listener's exception does with or without an error handler. Its
  source is not part of this model. A dispatch is one log entry that records
  the registry and the error policy at that moment.
- The broadcaster's and the context's registries are built on
  `LinkedHashSet`s, which suppress duplicates. Both are modelled as
  sequences that are appended to. So the fallback after `contextLoaded`
  offers each listener twice (at-least-once delivery). That is what
  `FailureBeforeActivation` shows.
- `ConfigurableApplicationContext.publishEvent`, `addApplicationListener`,
  `isActive` and `getApplicationListeners` are abstract state changes and
  queries on `Context`. How a context becomes active or broken is outside
  the run listener, so no method here changes `active`.
- `SpringApplication.getListeners()` is the list held by `Application`. Its
  sorting and de-duplication happen in `SpringApplication`, which is not
  part of this model.
- `ConfigurableEnvironment` and `Throwable` are opaque handles. The event
  classes are reduced to the fields they carry.
- Java `instanceof` tests and casts become the `isContextAware` and
  `exposesListeners` flags.
- The static commons-logging logger of `LoggingErrorHandler` becomes a
  `Log` object. It is handed to the run listener's constructor, which passes
  it to every handler it creates.
- EventPublishing.EventPublishingRunListener.ContextPrepared: takes a
  non-null context, while the Java method would pass a null context into
  the event unchanged. `ContextLoaded`, `Started` and `Running` also take a
  non-null context. With null, `started` and `running` throw a
  `NullPointerException`. With null, `contextLoaded` behaves in one of three ways:
  - it dispatches an ApplicationPreparedEvent with a null context when
    `getListeners()` is empty;
  - it calls `setApplicationContext(null)` on the first listener before
    failing at `addApplicationListener`, when that listener is
    context-aware;
  - it otherwise throws at the first `addApplicationListener`.

  The model covers none of these null paths.
- EventPublishing.EventPublishingRunListener.EnvironmentPrepared: takes a
  non-null `Environment`, and `Failed` takes a non-null `Throwable`. The
  Java methods would pass a null environment or a null exception into the
  event unchanged. In the model, both are datatypes that cannot be null.
- Phases.Run: the trace model drives one run with a single context object.
  The class methods themselves accept any context on each call.
