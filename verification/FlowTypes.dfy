/** The Flow resource of api/v1alpha3, the mapping types of internal/controller/flow/types, and the flow errors. */
module FlowTypes {
  import opened Prelude
  import opened PeriodTypes

  /** A resource mentioned by a flow item; an empty delay text is `None`. */
  datatype FlowResource = FlowResource(name: string, startTimeDelay: Option<DurationText>, endTimeDelay: Option<DurationText>)

  datatype FlowItem = FlowItem(periodName: string, resources: seq<FlowResource>)

  /** The resource selection and configuration of a declared resource, copied to its child as they are. */
  datatype Settings = Settings(id: int)

  datatype DeclaredResource = DeclaredResource(name: string, settings: Settings)

  datatype Flow = Flow(
    name: string,
    periods: seq<ScalerPeriod>,
    k8s: seq<DeclaredResource>,
    gcp: seq<DeclaredResource>,
    flows: seq<FlowItem>)

  datatype Reason =
    | UnknownPeriod | InvalidPeriodDuration | ZeroPeriodDuration | InvalidDelayFormat | InvertedWindow
    | DuplicatePeriod | DuplicateResource | DuplicateResourceInPeriod | AmbiguousResource | UnknownResource
    | UnknownResourceType | MissingK8sResource | MissingGcpResource

  /** A user-config error with its reason, or any other error; wrapping keeps which of the two it is. */
  datatype FlowError = ValidationError(reason: Reason) | TimeError | ApiError

  datatype PeriodWithDelay = PeriodWithDelay(period: ScalerPeriod, startTimeDelay: int, endTimeDelay: int, startTime: int, endTime: int)

  /** The type text of a mapped resource: "k8s", "gcp", or any other. */
  datatype ResourceKind = K8sKind | GcpKind | UnknownKind(text: string)

  /** `k8sRes` or `gcpRes` is set, as `kind` says. */
  datatype ResourceInfo = ResourceInfo(
    kind: ResourceKind,
    k8sRes: Option<DeclaredResource>,
    gcpRes: Option<DeclaredResource>,
    periods: seq<PeriodWithDelay>)

  function DelayOf(text: Option<DurationText>): Result<int, FlowError> {
    match text
    case None => Ok(0)
    case Some(BadDuration) => Err(ValidationError(InvalidDelayFormat))
    case Some(Nanos(n)) => Ok(n)
  }
}
