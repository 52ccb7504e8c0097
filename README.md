# kaniko build server: request handler model

A Dafny model of the HTTP handler of kaniko's build server
(`cmd/server/main.go`). The server takes a JSON build request, asks the
kaniko executor to check push permissions, build and push the image, and
answers with a plain-text status. The handler, `executeCommand`, is a short
state machine with early returns, in front of code it cannot see.

The model treats all of that unseen code as oracles:

- the JSON decoder's verdict on the body is part of the `Request`: parsed
  options, a nil pointer (JSON `null`), or an error detail;
- `executor.CheckPushPermissions`, `os.Chdir("/")`, `executor.DoBuild` and
  `executor.DoPush` report success or an error detail through an `Oracle`.
  A successful build also reports an opaque image handle;
- `util.ConfigureLogging` sets the process log level.

One invocation is observed through four things:

- the ordered trace of collaborator calls (`Call`). A `DoBuild` call records
  the working directory it runs in;
- the ordered list of `(status, message)` responses written by `respond`;
- the process-wide log level;
- the process-wide working directory.

Files:

- `server.dfy` (module `Server`) holds the data model and the two
  specification functions `Calls` and `Responses`. `Handle` combines them into
  the state change of one invocation. The class `Process` holds the trace, the
  responses, the log level and the working directory as fields. Its methods
  are stand-ins for the collaborators, plus `Respond` and `ExecuteCommand`.
  `ExecuteCommand` follows the Go code statement by statement. It is proved to
  leave the process exactly in the state `Handle` describes.
- `handler_properties.dfy` (module `HandlerProperties`) states, path by path,
  what one invocation calls, writes and changes.
- `serving.dfy` (module `Serving`) runs the handler over a sequence of
  requests on one process. It proves what carries over from request to
  request: the log level, the working directory, the append-only history, the
  set of statuses, and the number of builds and pushes.

Every failure path writes one response, except one. A failed no-push build
writes 500 "Error building image: ..." and then also 200 "Success", because
there is no `return` after `cmd/server/main.go:38`. `Responses` and
`HandlerProperties.NoPushPath` reproduce both writes.

## Model

| member | source | states |
|---|---|---|
| `Server.Calls` | cmd/server/main.go:21-59 | Phases run in a fixed order: logging, decode, permission check, chdir, build, push. Each runs at most once. Decoding happens iff there is no `debug` value, and a debug request reaches no builder operation. A push-path build runs in `/`. A push carries the image the build returned. |
| `Server.Responses` | cmd/server/main.go:16-58 | Every status written is 200, 400 or 500. At most two responses are written. Two are written iff a no-push build failed, and then they are 500 followed by 200 "Success". A debug request writes nothing. |
| `Server.Process.Respond` | cmd/server/main.go:16-19 | Appends one (status, message) response and changes nothing else. |
| `Server.Process.ExecuteCommand` | cmd/server/main.go:21-59 | One invocation leaves the trace, the responses, the log level and the working directory exactly as `Handle` of the previous state gives them. |
| `HandlerProperties.DebugShortCircuit` | cmd/server/main.go:23-27 | A non-empty `debug` value sets the level to "debug" and records only the logging call. It does not decode, writes nothing and leaves the directory alone. The result is the same whatever the body and the collaborators' answers. |
| `HandlerProperties.DecodeFailure` | cmd/server/main.go:28-33 | A decode error writes exactly one 400 "Could not parse JSON body: " + detail. It calls no builder operation and no chdir, and changes neither the level nor the directory. |
| `HandlerProperties.NoPushPath` | cmd/server/main.go:35-42 | No-push calls only `DoBuild`, in the inherited directory. The directory is unchanged. The writes are an optional 500 "Error building image: " + detail (when the build failed) followed by 200 "Success". |
| `HandlerProperties.PushPathOrder` | cmd/server/main.go:43-58 | On the push path, decode and the permission check always run. Chdir runs iff the permission check passed. The build runs iff the permission check and chdir passed. The push runs iff all three passed. |
| `HandlerProperties.PermissionFailure` | cmd/server/main.go:43-46 | A failed permission check writes one 400 "Error checking push permissions: " + detail. No chdir, build or push follows, and the directory is unchanged. |
| `HandlerProperties.ChdirFailure` | cmd/server/main.go:47-50 | A failed chdir writes one 500 "Error changing to root dir: " + detail. No build follows, and the directory is unchanged. |
| `HandlerProperties.PushPathBuildFailure` | cmd/server/main.go:51-55 | A failed push-path build (run in `/`) writes one 500 "Error building image: " + detail, and no push follows. |
| `HandlerProperties.PushOutcome` | cmd/server/main.go:56-58 | After a successful build, the built image is pushed. A failed push writes one 500 "Error pushing image: " + detail. A successful push writes nothing. The build stays in the trace: nothing is rolled back. |
| `HandlerProperties.WorkingDirectory` | cmd/server/main.go:43-50 | The directory changes only to `/`, and only on the push path after the permission check passed. |
| `HandlerProperties.Repeatable` | cmd/server/main.go:21-59 | Handling the same request again, with the same collaborator answers, makes the same calls and writes the same responses again. It leaves the level and the directory as the first handling left them. |
| `Serving.Serve` | cmd/server/main.go:21-59 | Over successive requests, calls made and responses written are never taken back: the old trace and responses are prefixes of the new ones. |
| `Serving.ServeLogLevel` | cmd/server/main.go:23-27 | After a sequence of requests, the level is "debug" if some request carried a `debug` value, and otherwise the starting level. Nothing ever resets it. |
| `Serving.ServeWorkingDir` | cmd/server/main.go:43-50 | After a sequence of requests, the directory is `/` if some request passed the permission check and changed directory, and otherwise the starting directory. |
| `Serving.DebugLevelSticks` | cmd/server/main.go:23-27 | Once a request with a `debug` value has been handled, the level stays "debug" whatever requests follow. |
| `Serving.ServeStatuses` | cmd/server/main.go:29-58 | Over any sequence of requests, every status written is 200, 400 or 500. |
| `Serving.CallCounts` | cmd/server/main.go:21-59 | One request either decodes or toggles logging, exactly once. It builds at most once, and pushes only if it built. |
| `Serving.ServeCounts` | cmd/server/main.go:21-59 | Over n requests, decodes plus logging toggles grow by exactly n and builds grow by at most n. Pushes never grow more than builds. |

## Left out

- `main` (cmd/server/main.go:63-72): the initial logging setup, route registration, listener binding and the `panic` on failure are process plumbing. A `Process` starts from any log level and directory.
- HTTP transport: `http.ResponseWriter` semantics are not modelled. That includes Go's handling of a second `WriteHeader`, which in the no-push build-failure case keeps status 500 and concatenates both bodies. It also includes the default status sent when the handler writes nothing. Responses are an appended list of the `respond` calls.
- JSON decoding and the contents of `KanikoOptions`: decoding is an oracle verdict, and only `NoPush` is read. The JSON `null` body decodes to a nil pointer, which line 35 dereferences. Such a request panics, so `Admissible` excludes it unless a `debug` value short-circuits first.
- The internals of `executor.CheckPushPermissions`, `DoBuild`, `DoPush` and `util.ConfigureLogging`. Each is an oracle answer. The error that `ConfigureLogging` returns is discarded by the handler, and the model takes the level change as always made.
- Log lines (`logrus.Debugf`, `logrus.Infof`) and the `%v` formatting of error details: a message is a fixed prefix followed by an opaque detail string.
- Concurrency between requests, including the race on the process working directory. `Serving` runs requests strictly one after another.
