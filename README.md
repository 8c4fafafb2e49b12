# prac-go-fx: the fx event renderer and the module-app user service

This project models the code that the example programs of prac-go-fx
implement themselves. The dependency-injection container they are built
around is the imported `go.uber.org/fx` library, which is not part of this
model. What is modelled:

- **The fx event renderer** of app-custom-logger (`logger/logger.go`,
  module `FxLogger`). fx reports each container action as an event.
  `JSONLogger.LogEvent` dispatches on the event's kind and writes zero or more
  structured records through the package-level `slog` logger. A record has a
  level, a message and key/value attributes.
  - `Event` is a closed variant over the event kinds the switch lists. `Other`
    stands for its default arm.
  - `Render(e)` is the pure classification: the records written for `e`, in order.
  - The class `Logger` stands for the package variable `Logger` together with
    everything written through it. `Initialize` sets it. `LogEvent`, which
    requires that, appends exactly `Render(e)` to `lines`. Its `for` loop over
    the `Provided` output types is proved against `Render` by a loop invariant.
  - `Decode` reads records back to the event. The lemma `RoundTrip` shows that
    every event that writes at least one record can be recovered from its
    records, so the renderer drops none of the fields it is given.
- **The module-app user service** (`user/user.go`, module `User`) and **its
  database stub** (`infra/repo.go`, module `Infra`).
  - The `Repository` interface is a value holding its two methods as
    functions. So the forwarding of `service.SaveUser` and `service.User` is
    proved for every repository, not only the stub.
  - `ModuleApp` models `runApp` (`module-app/main.go`) as a function, to state
    the happy path that the wiring of `module/module.go` gives it.

Go's nil `error` is `None` and a non-nil one is `Some(err.Error())`.
Durations, OS signals and `%T` type names are opaque strings, in the form the
logger prints them. Messages and attribute keys are enumerations. `Text` and
`KeyText` give their exact wording. `FromText` and `KeyFromText` read that
wording back, so no two messages or keys print alike. Records can therefore
compare by the enumeration values: two records that differ in message or key
differ in text as well.

The renderer does not write exactly one record per event. It writes one record
per output type for `Provided`, and nothing for a successful `Invoked`. The
model follows the code.

## Model

| member | source | states |
|---|---|---|
| `FxLogger.Logger.constructor` | app-custom-logger/logger/logger.go:11-12 | at program start the package logger is nil and nothing has been written |
| `FxLogger.Logger.Initialize` | app-custom-logger/logger/logger.go:14-17 | after `Initialize` the logger is set; records already written are kept |
| `FxLogger.Logger.LogEvent` | app-custom-logger/logger/logger.go:28-159 | needs an initialized logger; appends exactly the records `Render(e)` after the earlier ones, which stay unchanged |
| `FxLogger.ProvidedLinesShape` | app-custom-logger/logger/logger.go:84-90 | the loop over `OutputTypeNames` writes one "Provided" record per type, the i-th for the i-th type |
| `FxLogger.HookExecutingRendersOneInfoLine` | app-custom-logger/logger/logger.go:30-54 | `OnStartExecuting` and `OnStopExecuting` each write one Info record whose `caller` and `function` attributes are the event's, and no `error` |
| `FxLogger.OutcomeEventRendersOneLine` | app-custom-logger/logger/logger.go:35-153 | `OnStartExecuted`, `OnStopExecuted`, `Supplied`, `Stopped`, `RolledBack`, `Started` and `LoggerInitialized` each write exactly one record; it is Error if and only if `Err` is non-nil, and its `error` attribute is present exactly then and equals `Err` |
| `FxLogger.ProvidedRendersOneLinePerType` | app-custom-logger/logger/logger.go:83-97 | `Provided` writes as many records as it has output types, plus one when `Err` is set: one Info "Provided" per output type in list order, carrying that type, then the Error "Provide failed" record when `Err` is set |
| `FxLogger.InvokedRendersOnlyFailure` | app-custom-logger/logger/logger.go:103-110 | a successful `Invoked` writes nothing; a failed one writes one Error record carrying the error |
| `FxLogger.RollingBackAndStoppingRenderOneLine` | app-custom-logger/logger/logger.go:111-126 | `RollingBack` always writes one Error record whose `error` is `StartErr`; `Stopping` one Info record whose `signal` is the signal |
| `FxLogger.UnhandledEventRendersOneInfoLine` | app-custom-logger/logger/logger.go:154-157 | any unlisted event kind is accepted and written as one Info "Unhandled event" record naming its type |
| `FxLogger.SilentEvents` | app-custom-logger/logger/logger.go:83-110 | an event writes no record if and only if it is a successful `Invoked` or a successful `Provided` with no output types |
| `FxLogger.RuntimeOnlyOnExecutedHooks` | app-custom-logger/logger/logger.go:35-69 | a `runtime` attribute appears on a record if and only if the event is `OnStartExecuted` or `OnStopExecuted`, on success and on failure, and it is the event's runtime |
| `FxLogger.ErrorLevelMatchesErrorAttribute` | app-custom-logger/logger/logger.go:28-159 | for every event, a record is Error-level if and only if it has an `error` attribute, that attribute is the error the event reports, and some record is Error-level if and only if the event reports an error |
| `FxLogger.RoundTrip` | app-custom-logger/logger/logger.go:28-159 | decoding the records of any event that writes at least one gives back that event |
| `FxLogger.RenderInjective` | app-custom-logger/logger/logger.go:28-159 | two events that write the same non-empty records are equal |
| `FxLogger.TextRoundTrip` | app-custom-logger/logger/logger.go:31-156 | every message text the renderer writes is read back to its message by `FromText` |
| `FxLogger.TextInjective` | app-custom-logger/logger/logger.go:31-156 | no two of the renderer's messages have the same text |
| `FxLogger.KeyTextRoundTrip` | app-custom-logger/logger/logger.go:32-156 | every attribute key the renderer uses is read back to its key by `KeyFromText` |
| `FxLogger.KeyTextInjective` | app-custom-logger/logger/logger.go:32-156 | no two of the renderer's attribute keys are spelled alike |
| `User.ServiceForwards` | module-app/user/user.go:10-24 | for every repository, `NewService` keeps it as the service's only state, `SaveUser(u)` returns exactly what `Save(u)` returns, and `User(id)` exactly the value and error of `Find(id)` |
| `Infra.Save` | module-app/infra/repo.go:17-21 | `Save` returns no error for every username |
| `Infra.Find` | module-app/infra/repo.go:23-30 | `Find` succeeds if and only if the id is "1", then with "found user"; any other id gives "" and the error "user not found" |
| `Infra.NewRepository` | module-app/infra/repo.go:12-15 | the repository it builds saves every user without error and finds exactly id "1"; its `save` and `find` return, for every argument, exactly what `DatabaseRepository.Save` and `Find` return |
| `ModuleApp.RunAppSucceedsIff` | module-app/main.go:19-32 | over any repository, `runApp` gets past both `log.Fatalf` calls if and only if saving "example user" and finding "1" both succeed, and then reports the user found |
| `ModuleApp.RunAppWithDatabase` | module-app/main.go:19-32 | with the service over the database stub, `runApp` always reads "found user" |
| `ModuleApp.WiredServiceBehaviour` | module-app/user/user.go:18-24 | through the wired service, `SaveUser` never fails, `User(id)` succeeds exactly for id "1", `User("1")` gives "found user" with no error, and every other id gives "" with "user not found" |

## Left out

- The fx container itself: provider registration and resolution, singleton construction, lifecycle hook ordering, start rollback and stop. It lives in `go.uber.org/fx`, which is not part of this model.
- The `main` functions of the three programs: signal handling, `app.Start`/`app.Stop`/`Run` and exit codes. These are process and OS behaviour.
- The HTTP servers and echo handlers in the hooks (`net.Listen`, `Serve`, `Shutdown`, `io.Copy`), which are network I/O and goroutines.
- `module-app/module/module.go` is only the list of providers. The service it wires up, `NewService(NewRepository())`, appears in the `ModuleApp` lemmas.
- `NewJSONLogger` only allocates the field-less `JSONLogger`. Its one method, `LogEvent`, is modelled on the `Logger` class, which holds the state it writes to.
- slog's JSON output (timestamp, level name, quoting, key order on the wire) is not modelled; a record keeps the level, the message and the attributes in the order they are passed.
- `Duration.String()`, `os.Signal.String()` and `fmt.Sprintf("%T")` are opaque: the event carries their rendered text.
- Event fields the renderer never reads (stack traces, module traces, `Private`, hook `Method`, invoke `Trace`) are not part of `Event`.
- A nil `StartErr` on `RollingBack`, or a typed nil event pointer, would make the Go code panic. fx does not send these, so `StartErr` is a plain string and such events are not modelled.
- `context.Context` arguments are dropped; the stub never reads them.
- The `Repository` interface is a pair of pure functions, not an object with state. An implementation whose `Find` depends on earlier `Save` calls or on the context cannot be expressed. The forwarding that `ServiceForwards` proves does not depend on this.
- `FxLogger.Logger.LogEvent` requires an initialized logger for every event. In the Go code, a successful `Invoked` and a successful `Provided` with no output types never touch `Logger`, so for those two the requirement is stronger than the code's. The call order in `app-custom-logger/main.go`, where `Initialize` runs before the fx app is built, makes it hold for every call.
- Go error values are compared by their message only: `errors.New` allocating a fresh value on each call is not modelled.
- `runApp`'s `log.Printf` and `log.Fatalf` output and the process exit are modelled as the `RunOutcome` value.
