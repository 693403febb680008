/**
  The plugin's lifecycle as a pure state machine over the three facts that
  `Start`, `Stop`, `cleanup` and `Run` change: whether a gRPC server is held,
  whether the `stop` channel has been closed, and whether the socket file is
  on disk. Every external effect (removing the socket file, listening on it,
  dialling the kubelet, the kubelet's answer) is an input giving its outcome.
 */
module Lifecycle {
  import opened Api

  datatype PluginState = PluginState(serverUp: bool, stopClosed: bool, socketExists: bool)

  /** What `os.Remove` of the socket path reported. */
  datatype RemoveOutcome = Removed | NotExist | RemoveFailed(error: Error)

  /** `close(p.stop)` panics on a channel that is already closed. */
  predicate CanStop(s: PluginState) {
    s.serverUp ==> !s.stopClosed
  }

  /** `cleanup`: only a removal error other than "does not exist" is an error. */
  function CleanupStatus(r: RemoveOutcome): (st: Status)
    ensures st.Ok? <==> !r.RemoveFailed?
    ensures r.RemoveFailed? ==> st == Err(r.error)
  {
    if r.RemoveFailed? then Err(r.error) else Ok
  }

  /** Whether the socket file is on disk after the removal attempt. */
  function SocketAfterRemove(existed: bool, r: RemoveOutcome): (exists_: bool)
    ensures !r.RemoveFailed? ==> !exists_
    ensures r.RemoveFailed? ==> exists_ == existed
  {
    if r.RemoveFailed? then existed else false
  }

  /** `Start`: clean up, listen, then hold the new server. */
  function StartSpec(s: PluginState, remove: RemoveOutcome, listen: Status): (PluginState, Status) {
    var cleaned := s.(socketExists := SocketAfterRemove(s.socketExists, remove));
    if remove.RemoveFailed? then (cleaned, CleanupStatus(remove))
    else if listen.Err? then (cleaned, listen)
    else (cleaned.(serverUp := true, socketExists := true), Ok)
  }

  /** `Stop`: nothing without a server; otherwise drop it, close `stop`, clean up. */
  function StopSpec(s: PluginState, remove: RemoveOutcome): (PluginState, Status)
    requires CanStop(s)
  {
    if !s.serverUp then (s, Ok)
    else (PluginState(false, true, SocketAfterRemove(s.socketExists, remove)), CleanupStatus(remove))
  }

  /** `Register`: the dial error, or else the kubelet's answer to the request. */
  function RegisterStatus(dial: Status, reply: Status): (st: Status)
    ensures st.Ok? <==> dial.Ok? && reply.Ok?
  {
    if dial.Err? then dial else reply
  }

  /** `Run` reaches its compensating `Stop` only after a good `Start` and a
      failed `Register`; that `Stop` panics if `stop` is already closed. */
  predicate CanRun(s: PluginState, startRemove: RemoveOutcome, listen: Status, dial: Status, reply: Status) {
    s.stopClosed ==> StartSpec(s, startRemove, listen).1.Err? || RegisterStatus(dial, reply).Ok?
  }

  /** `Run`: `Start`, then `Register`; a failed registration is compensated by
      `Stop`, whose own result is discarded. */
  function RunSpec(s: PluginState, startRemove: RemoveOutcome, listen: Status,
                   dial: Status, reply: Status, stopRemove: RemoveOutcome): (PluginState, Status)
    requires CanRun(s, startRemove, listen, dial, reply)
  {
    var (started, startErr) := StartSpec(s, startRemove, listen);
    if startErr.Err? then (started, startErr)
    else
      var regErr := RegisterStatus(dial, reply);
      if regErr.Err? then (StopSpec(started, stopRemove).0, regErr)
      else (started, Ok)
  }

  lemma StartSucceedsIff(s: PluginState, remove: RemoveOutcome, listen: Status)
    ensures StartSpec(s, remove, listen).1.Ok? <==> !remove.RemoveFailed? && listen.Ok?
    ensures StartSpec(s, remove, listen).1.Ok? ==>
      StartSpec(s, remove, listen).0 == s.(serverUp := true, socketExists := true)
  {
  }

  /** A failed `Start` leaves the server handle as it was, and reports the first failure. */
  lemma FailedStartKeepsServer(s: PluginState, remove: RemoveOutcome, listen: Status)
    requires StartSpec(s, remove, listen).1.Err?
    ensures StartSpec(s, remove, listen).0.serverUp == s.serverUp
    ensures StartSpec(s, remove, listen).0.stopClosed == s.stopClosed
    ensures StartSpec(s, remove, listen).1 == if remove.RemoveFailed? then Err(remove.error) else listen
  {
  }

  /** `Stop` on a plugin that holds no server returns nil and changes nothing. */
  lemma StopWithoutServerIsNoOp(s: PluginState, remove: RemoveOutcome)
    requires !s.serverUp
    ensures StopSpec(s, remove) == (s, Ok)
  {
  }

  /** After any `Stop` a second `Stop` is allowed, returns nil and changes nothing:
      `stop` is never closed twice by back-to-back calls. */
  lemma StopTwiceIsNoOp(s: PluginState, first: RemoveOutcome, second: RemoveOutcome)
    requires CanStop(s)
    ensures CanStop(StopSpec(s, first).0)
    ensures StopSpec(StopSpec(s, first).0, second) == (StopSpec(s, first).0, Ok)
  {
  }

  /** A successful `Stop` of a started plugin leaves no socket file and `stop` closed. */
  lemma StopRemovesSocket(s: PluginState, remove: RemoveOutcome)
    requires CanStop(s) && s.serverUp
    ensures StopSpec(s, remove).1.Ok? <==> !remove.RemoveFailed?
    ensures StopSpec(s, remove).1.Ok? ==> !StopSpec(s, remove).0.socketExists
    ensures !StopSpec(s, remove).0.serverUp && StopSpec(s, remove).0.stopClosed
  {
  }

  /** If `Start` fails, `Run` returns its error, and the outcome does not depend
      on any registration or second removal outcome: `Register` is never attempted. */
  lemma RunStopsAtFailedStart(s: PluginState, startRemove: RemoveOutcome, listen: Status,
                              dial: Status, reply: Status, stopRemove: RemoveOutcome,
                              dial': Status, reply': Status, stopRemove': RemoveOutcome)
    requires StartSpec(s, startRemove, listen).1.Err?
    ensures RunSpec(s, startRemove, listen, dial, reply, stopRemove) == StartSpec(s, startRemove, listen)
    ensures RunSpec(s, startRemove, listen, dial, reply, stopRemove)
         == RunSpec(s, startRemove, listen, dial', reply', stopRemove')
  {
  }

  /** If `Register` fails after a good `Start`, `Run` returns the registration error
      with the server dropped, `stop` closed and, unless removal failed, no socket file. */
  lemma RunCompensatesFailedRegister(s: PluginState, startRemove: RemoveOutcome, listen: Status,
                                     dial: Status, reply: Status, stopRemove: RemoveOutcome)
    requires !s.stopClosed
    requires StartSpec(s, startRemove, listen).1.Ok?
    requires RegisterStatus(dial, reply).Err?
    ensures RunSpec(s, startRemove, listen, dial, reply, stopRemove).1 == RegisterStatus(dial, reply)
    ensures !RunSpec(s, startRemove, listen, dial, reply, stopRemove).0.serverUp
    ensures RunSpec(s, startRemove, listen, dial, reply, stopRemove).0.stopClosed
    ensures RunSpec(s, startRemove, listen, dial, reply, stopRemove).0.socketExists == stopRemove.RemoveFailed?
  {
  }

  /** `Run` returns nil exactly when every step succeeded, and then the server is
      held, the socket exists and `stop` is as it was. */
  lemma RunSucceedsIff(s: PluginState, startRemove: RemoveOutcome, listen: Status,
                       dial: Status, reply: Status, stopRemove: RemoveOutcome)
    requires CanRun(s, startRemove, listen, dial, reply)
    ensures RunSpec(s, startRemove, listen, dial, reply, stopRemove).1.Ok?
        <==> !startRemove.RemoveFailed? && listen.Ok? && dial.Ok? && reply.Ok?
    ensures RunSpec(s, startRemove, listen, dial, reply, stopRemove).1.Ok? ==>
      RunSpec(s, startRemove, listen, dial, reply, stopRemove).0 == PluginState(true, s.stopClosed, true)
    ensures RunSpec(s, startRemove, listen, dial, reply, stopRemove).1.Err? ==>
      !RunSpec(s, startRemove, listen, dial, reply, stopRemove).0.serverUp || s.serverUp
  {
  }

  /** `Run` never closes `stop` unless it had to stop the server again. */
  lemma RunKeepsStopOpenUnlessCompensating(s: PluginState, startRemove: RemoveOutcome, listen: Status,
                                           dial: Status, reply: Status, stopRemove: RemoveOutcome)
    requires CanRun(s, startRemove, listen, dial, reply)
    ensures RunSpec(s, startRemove, listen, dial, reply, stopRemove).0.stopClosed ==>
      s.stopClosed || (StartSpec(s, startRemove, listen).1.Ok? && RegisterStatus(dial, reply).Err?)
  {
  }

  /** A second `Start` on a plugin that already serves removes the live socket;
      if listening then fails, the old server handle stays and no socket file is left. */
  lemma DoubleStartListenFails(e: Error, c: bool)
    ensures StartSpec(PluginState(true, c, true), Removed, Err(e)) == (PluginState(true, c, false), Err(e))
  {
  }

  /** Running a stopped plugin again is allowed when nothing needs compensating,
      but the plugin it leaves behind can no longer be stopped without a panic. */
  lemma RestartLeavesStopClosed(remove: RemoveOutcome, stopRemove: RemoveOutcome)
    requires !remove.RemoveFailed?
    ensures CanRun(PluginState(false, true, false), remove, Ok, Ok, Ok)
    ensures RunSpec(PluginState(false, true, false), remove, Ok, Ok, Ok, stopRemove) == (PluginState(true, true, true), Ok)
    ensures !CanStop(PluginState(true, true, true))
  {
  }
}
