/**
  The device plugin: a registry of fake devices, a gRPC server on a Unix
  socket that the kubelet dials, registration with the kubelet, and the
  handlers of the device-plugin API. Effects on the outside world are
  inputs that give their outcome; the state they change is the plugin's.
 */
module Dp {
  import opened Api
  import opened Format
  import opened Registry
  import opened Lifecycle

  const ResourceName: string := "sequix.cn/example"
  const DevicePath: string := "/dev/mydev"
  const PluginEndpoint: string := "sequix-dp.sock"

  /** The one grant every container receives: the host's /dev/null, seen
      as /dev/mydev inside the container, read-write. */
  const NullDeviceGrant: DeviceSpec := DeviceSpec(DevicePath, "/dev/null", "rw")

  /** The constants the kubelet's device-plugin package defines. */
  datatype KubeletApi = KubeletApi(devicePluginPath: string, kubeletSocket: string, version: string)

  function SocketPath(k: KubeletApi): string {
    k.devicePluginPath + PluginEndpoint
  }

  /** The request `Register` sends: the API version, the socket's file name
      (what the kubelet dials back, relative to its plugin directory) and the
      resource name. */
  function RegistrationRequest(k: KubeletApi): (r: RegisterRequest)
    ensures r.version == k.version && r.resourceName == ResourceName
  {
    RegisterRequest(k.version, Base(SocketPath(k)), ResourceName)
  }

  /** With the kubelet's slash-terminated plugin directory, the endpoint sent
      is the socket's file name. */
  lemma RegistrationEndpoint(k: KubeletApi)
    requires IsDirectoryPrefix(k.devicePluginPath)
    ensures RegistrationRequest(k).endpoint == PluginEndpoint
  {
    assert '/' !in PluginEndpoint;
    BaseOfFileInDirectory(k.devicePluginPath, PluginEndpoint);
  }

  /** How a `ListAndWatch` call stands after its snapshot: it has returned
      with a status, or it is parked until `stop` is closed. */
  datatype WatchExit = Returned(status: Status) | Blocked

  class Plugin {
    const kubelet: KubeletApi
    var devices: map<string, Device>
    /** `server != nil` */
    var serverUp: bool
    /** `stop` has been closed */
    var stopClosed: bool
    /** the file at `SocketPath(kubelet)` is on disk */
    var socketExists: bool

    /** The registry is the one built at construction; nothing changes it later. */
    ghost predicate Valid()
      reads this
    {
      devices == InitialRegistry(NDevices)
    }

    function State(): PluginState
      reads this
    {
      PluginState(serverUp, stopClosed, socketExists)
    }

    /** `NewPlugin`. `staleSocket` says whether a socket file left by an
        earlier instance is on disk. */
    constructor NewPlugin(kubelet: KubeletApi, staleSocket: bool)
      ensures Valid() && this.kubelet == kubelet
      ensures |devices| == NDevices && WellKeyed(devices)
      ensures forall k :: k in devices ==> devices[k].health == Healthy
      ensures forall i :: 0 <= i < NDevices ==> DeviceId(i) in devices
      ensures State() == PluginState(false, false, staleSocket)
    {
      this.kubelet := kubelet;
      var m: map<string, Device> := map[];
      var i := 0;
      while i < NDevices
        invariant 0 <= i <= NDevices
        invariant m == InitialRegistry(i)
      {
        var id := DeviceId(i);
        m := m[id := Device(id, Healthy)];
        i := i + 1;
      }
      devices := m;
      serverUp, stopClosed, socketExists := false, false, staleSocket;
      InitialDevices();
      forall i | 0 <= i < NDevices
        ensures DeviceId(i) in m
      {
        RegistryLookup(NDevices, i);
      }
    }

    /** `cleanup`: remove the socket file, tolerating its absence. */
    method Cleanup(remove: RemoveOutcome) returns (err: Status)
      modifies this`socketExists
      ensures err == CleanupStatus(remove)
      ensures socketExists == SocketAfterRemove(old(socketExists), remove)
    {
      if remove.RemoveFailed? {
        err := Err(remove.error);
        return;
      }
      socketExists := false;
      err := Ok;
    }

    /** `Start`: clean up a stale socket, listen on the socket path, and serve. */
    method Start(remove: RemoveOutcome, listen: Status) returns (err: Status)
      modifies this`serverUp, this`socketExists
      ensures (State(), err) == StartSpec(old(State()), remove, listen)
      ensures err.Ok? <==> !remove.RemoveFailed? && listen.Ok?
      ensures err.Err? ==> serverUp == old(serverUp)
      ensures err.Ok? ==> serverUp && socketExists
    {
      err := Cleanup(remove);
      if err.Err? {
        return;
      }
      if listen.Err? {
        err := listen;
        return;
      }
      // net.Listen has created the socket file; the server now serves on it.
      socketExists := true;
      serverUp := true;
    }

    /** `Stop`: a no-op without a server; otherwise stop serving, close `stop`
        and remove the socket file. */
    method Stop(remove: RemoveOutcome) returns (err: Status)
      requires CanStop(State())
      modifies this`serverUp, this`stopClosed, this`socketExists
      ensures (State(), err) == StopSpec(old(State()), remove)
      ensures !serverUp && CanStop(State())
      ensures !old(serverUp) ==> err == Ok && State() == old(State())
      ensures old(serverUp) ==> stopClosed && (err.Ok? ==> !socketExists)
    {
      if !serverUp {
        err := Ok;
        return;
      }
      serverUp := false;
      stopClosed := true;
      err := Cleanup(remove);
    }

    /** `Register`: dial the kubelet and send the registration request.
        `sent` is the request delivered, if the dial succeeded. */
    method Register(dial: Status, reply: Status) returns (err: Status, sent: Option<RegisterRequest>)
      ensures err == RegisterStatus(dial, reply)
      ensures sent == if dial.Ok? then Some(RegistrationRequest(kubelet)) else None
      ensures err.Ok? ==> sent.Some?
    {
      if dial.Err? {
        err, sent := dial, None;
        return;
      }
      var req := RegistrationRequest(kubelet);
      sent := Some(req);
      err := reply;
    }

    /** `Run`: start, then register; stop again when registration fails. */
    method Run(startRemove: RemoveOutcome, listen: Status, dial: Status, reply: Status,
               stopRemove: RemoveOutcome) returns (err: Status)
      requires CanRun(State(), startRemove, listen, dial, reply)
      modifies this`serverUp, this`stopClosed, this`socketExists
      ensures (State(), err) == RunSpec(old(State()), startRemove, listen, dial, reply, stopRemove)
      ensures err.Ok? <==> !startRemove.RemoveFailed? && listen.Ok? && dial.Ok? && reply.Ok?
      ensures err.Ok? ==> serverUp && socketExists && stopClosed == old(stopClosed)
      ensures !startRemove.RemoveFailed? && listen.Ok? && err.Err? ==> !serverUp && err == RegisterStatus(dial, reply)
    {
      ghost var before := State();
      RunSucceedsIff(before, startRemove, listen, dial, reply, stopRemove);
      err := Start(startRemove, listen);
      if err.Err? {
        return;
      }
      var sent;
      err, sent := Register(dial, reply);
      if err.Err? {
        var ignored := Stop(stopRemove);
      }
    }

    /** `ListAndWatch`: send one snapshot of every device, then wait for `stop`. */
    method ListAndWatch(send: Status) returns (resp: ListAndWatchResponse, exit: WatchExit)
      requires Valid()
      ensures |resp.devices| == |devices| == NDevices
      ensures forall i :: 0 <= i < |resp.devices| ==>
        resp.devices[i].id in devices && devices[resp.devices[i].id] == resp.devices[i]
      ensures forall i, j :: 0 <= i < j < |resp.devices| ==> resp.devices[i].id != resp.devices[j].id
      ensures forall k :: k in devices ==> exists i :: 0 <= i < |resp.devices| && resp.devices[i].id == k
      ensures forall i :: 0 <= i < |resp.devices| ==> resp.devices[i].health == Healthy
      ensures send.Err? ==> exit == Returned(send)
      ensures exit == Returned(Ok) <==> send.Ok? && stopClosed
      ensures exit == Blocked <==> send.Ok? && !stopClosed
    {
      RegistryEntries(NDevices);
      RegistrySize(NDevices);
      var list: seq<Device> := [];
      var remaining := devices.Keys;
      while remaining != {}
        invariant remaining <= devices.Keys
        invariant |list| + |remaining| == |devices|
        invariant forall i :: 0 <= i < |list| ==>
          list[i].id in devices && list[i].id !in remaining && devices[list[i].id] == list[i]
        invariant forall i, j :: 0 <= i < j < |list| ==> list[i].id != list[j].id
        invariant forall k :: k in devices && k !in remaining ==>
          exists i :: 0 <= i < |list| && list[i].id == k
        decreases remaining
      {
        var k :| k in remaining;
        assert devices[k].id == k;
        ghost var prev := list;
        list := list + [devices[k]];
        remaining := remaining - {k};
        forall k' | k' in devices && k' !in remaining
          ensures exists i :: 0 <= i < |list| && list[i].id == k'
        {
          if k' == k {
            assert list[|list| - 1].id == k';
          } else {
            var i :| 0 <= i < |prev| && prev[i].id == k';
            assert list[i].id == k';
          }
        }
      }
      resp := ListAndWatchResponse(list);
      if send.Err? {
        exit := Returned(send);
      } else if stopClosed {
        exit := Returned(Ok);
      } else {
        exit := Blocked;
      }
    }

    /** `Allocate`: one response per container request, in order, each
        granting the fixed device whatever ids were requested. */
    method Allocate(req: AllocateRequest) returns (resp: AllocateResponse, err: Status)
      ensures err == Ok
      ensures |resp.containerResponses| == |req.containerRequests|
      ensures forall i :: 0 <= i < |resp.containerResponses| ==>
        resp.containerResponses[i] == ContainerAllocateResponse([NullDeviceGrant])
    {
      var responses: seq<ContainerAllocateResponse> := [];
      for i := 0 to |req.containerRequests|
        invariant |responses| == i
        invariant forall j :: 0 <= j < i ==> responses[j] == ContainerAllocateResponse([NullDeviceGrant])
      {
        var cresp := ContainerAllocateResponse([]);
        cresp := cresp.(devices := cresp.devices + [DeviceSpec(DevicePath, "/dev/null", "rw")]);
        responses := responses + [cresp];
      }
      resp := AllocateResponse(responses);
      err := Ok;
    }

    /** `GetDevicePluginOptions`: no pre-start hook, no preferred allocation. */
    function GetDevicePluginOptions(): (r: (DevicePluginOptions, Status))
      ensures !r.0.preStartRequired && !r.0.getPreferredAllocationAvailable
      ensures r.1 == Ok
    {
      (DevicePluginOptions(false, false), Ok)
    }

    /** `PreStartContainer`: accepted and ignored. */
    function PreStartContainer(req: PreStartContainerRequest): (r: (PreStartContainerResponse, Status))
      ensures r.1 == Ok
    {
      (PreStartContainerResponse, Ok)
    }

    /** `GetPreferredAllocation`: no preference for any container. */
    function GetPreferredAllocation(req: PreferredAllocationRequest): (r: (PreferredAllocationResponse, Status))
      ensures r.0.containerResponses == [] && r.1 == Ok
    {
      (PreferredAllocationResponse([]), Ok)
    }
  }

  /** A client of the contracts above: start a plugin, watch, allocate, then
      reset it the way the process supervisor does on SIGHUP (stop the old
      instance, build and run a new one on the same socket path). */
  method ResetScenario(k: KubeletApi)
    requires IsDirectoryPrefix(k.devicePluginPath)
  {
    var p := new Plugin.NewPlugin(k, true);
    var err := p.Run(Removed, Ok, Ok, Ok, Removed);
    assert err == Ok && p.serverUp;

    var snapshot, exit := p.ListAndWatch(Ok);
    assert |snapshot.devices| == 5 && exit == Blocked;
    assert "dev000" in p.devices by { InitialDevices(); }

    var resp, aerr := p.Allocate(AllocateRequest([ContainerAllocateRequest(["dev000"])]));
    assert resp.containerResponses == [ContainerAllocateResponse([NullDeviceGrant])];

    err := p.Stop(Removed);
    assert err == Ok && !p.socketExists && !p.serverUp;
    snapshot, exit := p.ListAndWatch(Ok);
    assert exit == Returned(Ok);
    err := p.Stop(Removed);
    assert err == Ok;

    var q := new Plugin.NewPlugin(k, p.socketExists);
    err := q.Run(NotExist, Ok, Ok, Ok, Removed);
    assert err == Ok && q.serverUp;

    var failed := new Plugin.NewPlugin(k, false);
    err := failed.Run(NotExist, Ok, Err(Error("context deadline exceeded")), Ok, Removed);
    assert err == Err(Error("context deadline exceeded"));
    assert !failed.serverUp && !failed.socketExists;
  }
}
