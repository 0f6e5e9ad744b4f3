/** The resource types of api/common/resources_type.go, and how status lists name what a pass did. */
module ResourceTypes {

  /** A resource type name: the ones the API knows, the long spelling of "hpa", or any other text. */
  datatype ResourceType =
    | Deployments | StatefulSets | CronJobs | GithubArs | Hpas | HorizontalPodAutoscalers
    | ScaledObjects | CnpgClusters | VmInstances | OtherType(text: string)

  /** An entry of a status list: one object, a whole type ("N/A" as its name), or the pass ("N/A" twice). */
  datatype StatusItem = OneObject(kind: ResourceType, name: string) | WholeType(kind: ResourceType) | WholePass
}
