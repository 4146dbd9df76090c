/**
 * The custom resources the controllers reconcile. Fields the controllers read
 * but the API type files lack (Timer, DataServiceIP, DataServicePort on
 * SnoopyJob; Schedule on CommandJob; ServiceName, ServicePort on
 * SnoopyDataEndpoint) are included, since the controller code depends on them.
 */
module Api {
  import opened Kube

  datatype SnoopyJobSpec = SnoopyJobSpec(
    command: string,
    args: string,
    labelSelector: map<string, string>,
    targetNamespace: string,
    schedule: string,
    timer: string,
    dataServiceIP: string,
    dataServicePort: string)

  datatype SnoopyJobStatus = SnoopyJobStatus(cronJobList: seq<string>)

  datatype SnoopyJob = SnoopyJob(meta: ObjectMeta, spec: SnoopyJobSpec, status: SnoopyJobStatus)

  datatype CommandJobSpec = CommandJobSpec(
    command: string,
    args: string,
    labelSelector: map<string, string>,
    targetNamespace: string,
    schedule: string)

  datatype CommandJob = CommandJob(meta: ObjectMeta, spec: CommandJobSpec)

  /** The exec group's Command resource, whose type file is not part of this model. */
  datatype CommandSpec = CommandSpec(
    command: string,
    args: string,
    labelSelector: map<string, string>,
    targetNamespace: string)

  datatype Command = Command(meta: ObjectMeta, spec: CommandSpec)

  datatype SnoopyDataEndpointSpec = SnoopyDataEndpointSpec(
    dataEndpointType: string,
    port: string,
    filePath: string,
    serviceName: string,
    servicePort: int)

  datatype SnoopyDataEndpoint = SnoopyDataEndpoint(meta: ObjectMeta, spec: SnoopyDataEndpointSpec)

  function OwnerOf(kind: string, meta: ObjectMeta): OwnerRef {
    OwnerRef(kind, meta.name)
  }
}
