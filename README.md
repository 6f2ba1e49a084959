# `/monitor` statistics handler — Dafny model

This project models the query-argument handling of userver's `ServerMonitor`
HTTP handler (`core/src/server/handlers/server_monitor.cpp`). The handler
serves the statistics dump. It copies the `prefix` URL argument into a
statistics request. It parses the `format` URL argument into one of four
output formats: internal JSON, Graphite, Prometheus or untyped Prometheus.
It then hands the request to the one renderer for that format. An unknown
`format` is rejected with a client error (HTTP 400). For the access log,
the handler replaces the body with the constant `<statistics data>`.

The source is pure, so the model is too: datatypes, functions and lemmas
in module `ServerMonitorHandler` (`server_monitor.dfy`). The thrown
`ClientError` becomes the `Failure` case of a `Result` (`wrappers.dfy`).
The renderers are foreign library calls. They are modelled as a
`Renderer` tag. Their output is an opaque `StatisticsBody` built from the
call (renderer, storage, statistics request). `HandleRequestThrow` returns
the list of renderer calls it made together with its response, so "exactly
one renderer" and "no renderer before the error" can be stated.

The `switch` is modelled by `Dispatch`, which returns a `SwitchExit`:
either a `return` or falling past the end of the `switch`. Its contract
says it always returns. The handler takes the returned call directly, so
the `UINVARIANT(false, …)` after the `switch` is shown to be unreachable.

`HttpRequest::GetArg` is not part of this model. `GetArg` assumes its
documented behaviour: the argument's value, or the empty string when the
request does not carry it. The URL arguments are a `map<string, string>`.

## Model

| member | source | states |
|---|---|---|
| `ServerMonitorHandler.ParseFormat` | core/src/server/handlers/server_monitor.cpp:27-40 | succeeds exactly on the five strings `graphite`, `prometheus`, `prometheus-untyped`, `internal` and the empty string; every other input fails with a `ClientError` whose body is "Unknown value of 'format' URL parameter"; the result is `Internal` exactly for `internal` and the empty string; any other accepted input is the canonical name of its format |
| `ServerMonitorHandler.ParseFormatKnownNames` | core/src/server/handlers/server_monitor.cpp:28-33 | `graphite`, `prometheus` and `prometheus-untyped` parse to their own formats, and `prometheus-untyped` is not taken as `Prometheus` |
| `ServerMonitorHandler.ParseFormatDefaultsToInternal` | core/src/server/handlers/server_monitor.cpp:34-35 | a request without a `format` argument gets the internal format, the same as `internal` |
| `ServerMonitorHandler.ParseFormatName` | core/src/server/handlers/server_monitor.cpp:27-36 | parsing a format's canonical name gives that format back |
| `ServerMonitorHandler.ParseFormatPreimage` | core/src/server/handlers/server_monitor.cpp:27-40 | a string parses to a format if and only if it is that format's canonical name, or it is empty and the format is `Internal` |
| `ServerMonitorHandler.ParseFormatOnto` | core/src/server/handlers/server_monitor.cpp:20-36 | every `StatsFormat` value is produced by some accepted input |
| `ServerMonitorHandler.GetArg` | core/src/server/handlers/server_monitor.cpp:55-56 | a URL argument's value is the request's value for it, or the empty string when absent |
| `ServerMonitorHandler.Dispatch` | core/src/server/handlers/server_monitor.cpp:58-81 | the `switch` always returns (it never falls through to the invariant failure), with a call of the renderer that serves the given format, on the given storage and statistics request |
| `ServerMonitorHandler.DispatchInjective` | core/src/server/handlers/server_monitor.cpp:58-79 | distinct formats are sent to distinct renderers |
| `ServerMonitorHandler.DispatchOnto` | core/src/server/handlers/server_monitor.cpp:58-79 | every renderer is chosen for some format |
| `ServerMonitorHandler.HandleRequestThrow` | core/src/server/handlers/server_monitor.cpp:52-82 | succeeds exactly when `format` is accepted; on failure no renderer is called and the error is the unknown-format client error; on success exactly one renderer is called, it serves the parsed format, it reads the monitor's storage, it gets the `prefix` argument unchanged, and its output is the response |
| `ServerMonitorHandler.HandleRequestMatchesTable` | core/src/server/handlers/server_monitor.cpp:54-79 | against an independent table of argument to renderer: an accepted `format` gives exactly one call of the tabled renderer with the unchanged `prefix`, and its output is the response; any other `format` gives no call and the client error |
| `ServerMonitorHandler.EveryRendererReachable` | core/src/server/handlers/server_monitor.cpp:52-79 | for every renderer and prefix, some request makes the handler call exactly that renderer with that prefix |
| `ServerMonitorHandler.HandleRequestReadsOnlyFormatAndPrefix` | core/src/server/handlers/server_monitor.cpp:52-56 | two requests that agree on `format` and `prefix` are handled identically, whatever their other arguments and contexts |
| `ServerMonitorHandler.GetResponseDataForLogging` | core/src/server/handlers/server_monitor.cpp:84-89 | the logged response data is the placeholder `<statistics data>` |
| `ServerMonitorHandler.LoggedDataIgnoresResponse` | core/src/server/handlers/server_monitor.cpp:84-89 | the logged data is the same `<statistics data>` for every request, context and response body |

## Left out

- The renderers `ToGraphiteFormat`, `ToPrometheusFormat`, `ToPrometheusFormatUntyped` and `GetAsJson` with `formats::json::ToString` are foreign library code whose bodies are not part of this model; their output is an opaque value determined by the call.
- The common labels argument (`{}`) passed to the three text renderers is always empty and is not modelled.
- The `UASSERT(AreAllMetricsNumbers(json))` debug check depends on the unseen JSON value and storage contents.
- The `ServerMonitor` constructor's `FindComponent<StatisticsStorage>()` lookup is component wiring; a monitor is modelled as the storage identity it holds.
- `GetStaticConfigSchema` is YAML-schema plumbing.
- `HttpRequest::GetArg` is not part of this model; `GetArg` assumes the documented "value or empty string" behaviour and one value per argument name.
- The HTTP status and response plumbing around `ClientError` (a 400 answer) is handled by the handler base class, which is not part of this model.
- `StatisticsRequest` fields other than `prefix` keep their defaults in the source and are not modelled.
- `core/include/components/manager_controller_component.hpp` holds only declarations and documentation of concurrent component construction; that machinery is not part of this model.
- `redis/include/storages/redis/subscribe_client.hpp` is a pure-virtual networked pub/sub interface with no logic.
- `core/include/components/statistics_storage.hpp` has only trivial getters over an external storage and lifecycle hooks without visible bodies.
