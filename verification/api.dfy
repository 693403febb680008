/**
  The messages of the kubelet device-plugin API (version v1beta1) that the
  plugin exchanges, reduced to the fields the plugin reads or fills in, and
  the error value that Go functions return.
 */
module Api {

  datatype Option<+T> = None | Some(value: T)

  /** An error value produced by the environment (the file system, the
      socket layer, the RPC transport); the plugin passes it on uninterpreted. */
  datatype Error = Error(message: string)

  /** The `error` result of a Go function: nil (`Ok`) or an error. */
  datatype Status = Ok | Err(error: Error)

  datatype Health = Healthy | Unhealthy

  datatype Device = Device(id: string, health: Health)

  /** One device node to expose inside a container. */
  datatype DeviceSpec = DeviceSpec(containerPath: string, hostPath: string, permissions: string)

  /** The device ids the kubelet assigned to one container. */
  datatype ContainerAllocateRequest = ContainerAllocateRequest(devicesIds: seq<string>)

  /** What one container gets; environment variables, mounts and
      annotations are never set by this plugin and are not modelled. */
  datatype ContainerAllocateResponse = ContainerAllocateResponse(devices: seq<DeviceSpec>)

  datatype AllocateRequest = AllocateRequest(containerRequests: seq<ContainerAllocateRequest>)

  datatype AllocateResponse = AllocateResponse(containerResponses: seq<ContainerAllocateResponse>)

  datatype ListAndWatchResponse = ListAndWatchResponse(devices: seq<Device>)

  datatype RegisterRequest = RegisterRequest(version: string, endpoint: string, resourceName: string)

  datatype DevicePluginOptions = DevicePluginOptions(preStartRequired: bool, getPreferredAllocationAvailable: bool)

  datatype PreStartContainerRequest = PreStartContainerRequest(devicesIds: seq<string>)

  datatype PreStartContainerResponse = PreStartContainerResponse

  datatype ContainerPreferredAllocationRequest = ContainerPreferredAllocationRequest(
    availableDeviceIds: seq<string>, mustIncludeDeviceIds: seq<string>, allocationSize: int)

  datatype PreferredAllocationRequest = PreferredAllocationRequest(containerRequests: seq<ContainerPreferredAllocationRequest>)

  datatype ContainerPreferredAllocationResponse = ContainerPreferredAllocationResponse(deviceIds: seq<string>)

  datatype PreferredAllocationResponse = PreferredAllocationResponse(containerResponses: seq<ContainerPreferredAllocationResponse>)
}
