# A Dafny model of the example Kubernetes device plugin

The plugin (package `dp`) advertises five fake devices, `dev000` .. `dev004`,
under the resource name `sequix.cn/example` to the kubelet through the
device-plugin API v1beta1. It serves gRPC on the Unix socket
`<DevicePluginPath>sequix-dp.sock`, registers that socket with the kubelet,
streams one snapshot of its devices from `ListAndWatch` and then waits for its
`stop` channel, and answers every `Allocate` with the host's `/dev/null`
mounted as `/dev/mydev`, read-write.

The model has five modules:

- `Api`: the v1beta1 messages the plugin reads or fills in, and `Status`, the
  Go `error` result (nil or an error value passed on uninterpreted).
- `Format`: the two Go library functions the plugin uses, `fmt.Sprintf("%03d", n)`
  for `n >= 0` and `path.Base`. It proves that `%03d` reads back to its number,
  and that the base of `dir + name` is `name` when `dir` ends with `/`.
- `Registry`: device ids (`dev%03d`) and the map that `NewPlugin`'s loop builds,
  with its keys, its size, and its entries (id equal to key, healthy).
- `Lifecycle`: `Start`, `Stop`, `cleanup`, `Register` and `Run` as a pure state
  machine over `PluginState(serverUp, stopClosed, socketExists)`, with lemmas
  about stopping, failed starts and the compensating stop in `Run`.
- `Dp`: the `Plugin` class. Its fields are the registry, the three lifecycle
  flags and the kubelet constants. Its methods follow the Go methods, and each
  state-changing one is tied to its `Lifecycle` function. The `Lifecycle`
  functions are the authoritative definitions; each method is proved to
  produce exactly their new state and result, so the lemmas about them hold
  for the class. Every external effect
  is an input that gives its outcome: `os.Remove` (`Removed`, `NotExist`,
  `RemoveFailed`), `net.Listen`, `grpc.Dial`, the kubelet's `Register` reply, and
  `stream.Send`.

The constants `dpapi.DevicePluginPath`, `dpapi.KubeletSocket` and `dpapi.Version`
belong to the kubelet package. They are the fields of a `KubeletApi` value given
to the constructor. Properties that depend on the plugin directory assume it
ends with `/`, which the kubelet's `/var/lib/kubelet/device-plugins/` does.

Two behaviours of the code bound what the model can promise:

- `stop` is made only in `NewPlugin` (pkg/dp/dp.go:36), and `Stop` closes it
  whenever it finds a server (pkg/dp/dp.go:91-96). So Start, Stop, Start, Stop
  on one instance closes it twice, and Go panics. The model requires `CanStop`
  (`serverUp ==> !stopClosed`) of `Stop`, and `CanRun` of `Run`: `stop` may be
  closed already only if `Run` will not reach its compensating `Stop`.
  `Lifecycle.StopTwiceIsNoOp` proves that back-to-back stops always meet
  `CanStop`. `Lifecycle.RestartLeavesStopClosed` shows that a restarted plugin
  no longer does.
- `Start` does not check whether a server is already held (pkg/dp/dp.go:70-85).
  A second `Start` without a `Stop` first removes the live socket
  (pkg/dp/dp.go:73, 186). If `net.Listen` then fails (pkg/dp/dp.go:76-79), the
  old server handle stays and no socket file exists. The model reproduces this:
  `Lifecycle.DoubleStartListenFails` states it.

## Model

| member | source | states |
|---|---|---|
| `Format.Format03d` | pkg/dp/dp.go:39 | `fmt.Sprintf("%03d", n)` for n >= 0: the decimal digits left-padded with `0` to three characters; no `ensures` of its own, its properties are `Format03dRoundTrip` and `Format03dBelowThousand` |
| `Format.Format03dRoundTrip` | pkg/dp/dp.go:39 | the `%03d` rendering of any n is all digits and reads back to n, so the format is injective |
| `Format.Format03dBelowThousand` | pkg/dp/dp.go:39 | for n < 1000, `%03d` gives exactly three digits: hundreds, tens, units |
| `Format.Base` | pkg/dp/dp.go:119 | `path.Base` is never empty and holds no `/` unless it is `/` |
| `Format.BaseOfFileInDirectory` | pkg/dp/dp.go:21-22 | the base of a slash-free file name inside a directory ending with `/` is that file name |
| `Registry.DeviceId` | pkg/dp/dp.go:39 | `dev` followed by the `%03d` rendering of the index; no `ensures` of its own, its properties are `DeviceIdInjective` and `DeviceIdBelowThousand` |
| `Registry.InitialRegistry` | pkg/dp/dp.go:38-41 | the map after n iterations of the construction loop; no `ensures` of its own, its properties are `RegistryKeys`, `RegistrySize`, `RegistryEntries` and `RegistryLookup` |
| `Registry.DeviceIdBelowThousand` | pkg/dp/dp.go:39 | for i < 1000 the id is `dev` followed by the three digits of i, six characters in all |
| `Registry.DeviceIdInjective` | pkg/dp/dp.go:38-40 | distinct loop indices give distinct ids, so no iteration overwrites an earlier entry |
| `Registry.RegistryKeys` | pkg/dp/dp.go:38-41 | after n iterations the keys are exactly the ids of 0 .. n-1 |
| `Registry.RegistryLookup` | pkg/dp/dp.go:40 | the id of every index below n is stored, with a healthy device of that id |
| `Registry.RegistryEntries` | pkg/dp/dp.go:40 | every entry's `ID` equals its key and its health is `Healthy` |
| `Registry.RegistrySize` | pkg/dp/dp.go:38-40 | after n iterations the map holds exactly n entries |
| `Registry.InitialDevices` | pkg/dp/dp.go:17-43 | a fresh registry has the 5 keys `dev000` .. `dev004`, each healthy and keyed by its own id |
| `Registry.FirstIds` | pkg/dp/dp.go:39 | the first five ids are `dev000`, `dev001`, `dev002`, `dev003`, `dev004` |
| `Lifecycle.CleanupStatus` | pkg/dp/dp.go:185-190 | `cleanup` fails exactly when removal fails for a reason other than "does not exist", and returns that error |
| `Lifecycle.SocketAfterRemove` | pkg/dp/dp.go:186 | after a removal that did not fail, the socket file is gone; after a failed one, it is as before |
| `Lifecycle.RegisterStatus` | pkg/dp/dp.go:104-126 | `Register` succeeds exactly when the dial and the kubelet's reply both succeed |
| `Lifecycle.StartSpec` | pkg/dp/dp.go:70-85 | `Start` as a state transition: clean up, then listen, then hold the server; no `ensures` of its own, its properties are `StartSucceedsIff`, `FailedStartKeepsServer` and `DoubleStartListenFails` |
| `Lifecycle.StopSpec` | pkg/dp/dp.go:88-98 | `Stop` as a state transition; no `ensures` of its own, its properties are `StopWithoutServerIsNoOp`, `StopTwiceIsNoOp` and `StopRemovesSocket` |
| `Lifecycle.RunSpec` | pkg/dp/dp.go:46-67 | `Run` as a state transition: `Start`, `Register`, and a compensating `Stop` whose result is discarded; no `ensures` of its own, its properties are `RunSucceedsIff`, `RunCompensatesFailedRegister`, `RunStopsAtFailedStart` and `RunKeepsStopOpenUnlessCompensating` |
| `Lifecycle.StartSucceedsIff` | pkg/dp/dp.go:70-85 | `Start` returns nil exactly when cleanup and listen succeed, and then the server is held and the socket exists |
| `Lifecycle.FailedStartKeepsServer` | pkg/dp/dp.go:73-79 | a failed `Start` never assigns the server and returns the cleanup error or else the listen error |
| `Lifecycle.StopWithoutServerIsNoOp` | pkg/dp/dp.go:91-93 | `Stop` without a server returns nil and changes nothing |
| `Lifecycle.StopTwiceIsNoOp` | pkg/dp/dp.go:88-98 | after any `Stop`, a second `Stop` may be called, returns nil and changes nothing, so `stop` is not closed twice |
| `Lifecycle.StopRemovesSocket` | pkg/dp/dp.go:94-97 | stopping a started plugin drops the server and closes `stop`; it returns nil exactly when removal did not fail, and then the socket is gone |
| `Lifecycle.RunStopsAtFailedStart` | pkg/dp/dp.go:49-53 | if `Start` fails, `Run` returns its result, and the result does not depend on any registration or stop outcome |
| `Lifecycle.RunCompensatesFailedRegister` | pkg/dp/dp.go:57-62 | if `Register` fails after `Start`, `Run` returns that error with the server dropped, `stop` closed, and the socket gone unless removal failed |
| `Lifecycle.RunSucceedsIff` | pkg/dp/dp.go:46-67 | `Run` returns nil exactly when all four steps succeed, and then the server is held, the socket exists and `stop` is as it was |
| `Lifecycle.RunKeepsStopOpenUnlessCompensating` | pkg/dp/dp.go:57-62 | `Run` closes a `stop` that was open only when it has to stop the server after a failed registration |
| `Lifecycle.RestartLeavesStopClosed` | pkg/dp/dp.go:36 | a stopped plugin can be run again, but then it holds a server with `stop` already closed, so a further `Stop` would close `stop` twice |
| `Lifecycle.DoubleStartListenFails` | pkg/dp/dp.go:70-79 | a second `Start` on a serving plugin whose listen fails keeps the old server handle, leaves no socket file and returns the listen error |
| `Dp.RegistrationRequest` | pkg/dp/dp.go:117-121 | the request carries the kubelet's API version and resource name `sequix.cn/example` |
| `Dp.RegistrationEndpoint` | pkg/dp/dp.go:119 | with a plugin directory ending in `/`, the request's endpoint is `sequix-dp.sock` |
| `Dp.Plugin.NewPlugin` | pkg/dp/dp.go:33-43 | the loop builds the registry of 5 healthy devices keyed by their ids; no server, `stop` open |
| `Dp.Plugin.Cleanup` | pkg/dp/dp.go:185-190 | the returned error and the socket file's presence follow `CleanupStatus` and `SocketAfterRemove` |
| `Dp.Plugin.Start` | pkg/dp/dp.go:70-85 | new state and error are `StartSpec`'s; a failed start leaves the server as it was; success means server held and socket present |
| `Dp.Plugin.Stop` | pkg/dp/dp.go:88-98 | new state and error are `StopSpec`'s; afterwards there is no server and another `Stop` is allowed; without a server nothing changes |
| `Dp.Plugin.Register` | pkg/dp/dp.go:101-127 | the error is the dial error or else the reply; the registration request is sent exactly when the dial succeeded |
| `Dp.Plugin.Run` | pkg/dp/dp.go:46-67 | new state and error are `RunSpec`'s; nil exactly when every step succeeds, with `stop` as it was; a registration failure after a good start leaves no server |
| `Dp.Plugin.ListAndWatch` | pkg/dp/dp.go:130-148 | the snapshot lists every registry device exactly once (5, all healthy); a send error is returned; nil only once `stop` is closed, otherwise the call blocks |
| `Dp.Plugin.Allocate` | pkg/dp/dp.go:151-165 | one response per container request, in order, each exactly the grant `/dev/null` as `/dev/mydev`, `rw`, whatever ids were asked; the error is nil |
| `Dp.Plugin.GetDevicePluginOptions` | pkg/dp/dp.go:168-171 | default options (no pre-start hook, no preferred allocation) and a nil error |
| `Dp.Plugin.PreStartContainer` | pkg/dp/dp.go:174-177 | an empty response and a nil error |
| `Dp.Plugin.GetPreferredAllocation` | pkg/dp/dp.go:180-183 | an empty response and a nil error |

`Dp.ResetScenario` is a client of these contracts. It starts a plugin over a
stale socket, watches, allocates, stops twice, watches after the stop, and
builds and runs a fresh instance on the same path the way `cmd/main.go` does
on SIGHUP. It also calls `Run` on an instance whose dial outcome is a timeout
error.

## Left out

- gRPC serving (`grpc.NewServer`, `Serve` in a goroutine, `server.Stop`), `net.Listen`, `grpc.Dial` with its 5-second timeout, `conn.Close` and `os.Remove` are foreign I/O. Only their success or failure outcomes enter the model, as inputs.
- The blocking `select` on `stop` in `ListAndWatch` synchronises goroutines. The model gives only the exit condition: after the snapshot the call has returned (send error, or `stop` closed) or is `Blocked`.
- The order in which Go ranges over the device map is random. `ListAndWatch` picks keys nondeterministically, and its contract speaks only of what the snapshot contains.
- `Register` dials `dpapi.KubeletSocket`, which is recorded in `KubeletApi` but not otherwise used.
- All `log.Printf` calls, including the log of the requested device ids in `Allocate`.
- `cmd/main.go` is not part of this model. It is the OS-signal loop (`signal.Notify`, `os.Exit`). `Dp.ResetScenario` exercises its "stop the old plugin, build a new one, run it" step.
- Message fields the plugin never sets (environment variables, mounts and annotations of a container response; topology of a device) are not modelled.
- The socket file is assumed to be touched only by this plugin. A removal that fails leaves its presence as it was.
- `Dp.Plugin.Stop`: requires `serverUp ==> !stopClosed`. The panic Go raises when `close` meets an already closed `stop` (Start, Stop, Start, Stop on one instance) is not modelled.
- `Dp.Plugin.Run`: requires `CanRun`, for the same reason. A plugin whose `stop` is closed may be run only if `Start` fails or `Register` succeeds, because otherwise the compensating `Stop` closes `stop` a second time. `cmd/main.go` always runs a fresh `NewPlugin` (cmd/main.go:23-25), so it always meets this.
- `Dp.Plugin.Start`: a second `Start` without a `Stop` replaces the server handle. The model does not track the first gRPC server, which keeps running unreferenced.
- `Dp.RegistrationEndpoint`: the endpoint is proved to be `sequix-dp.sock` only when the kubelet's plugin directory is empty or ends with `/`. For other directories the model gives `Format.Base` of the socket path and states no more.
