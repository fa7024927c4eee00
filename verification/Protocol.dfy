/** The validated reliability event and the identifiers derived from it.

    A SHA-256 over canonical JSON is a free constructor here: two hashes are equal
    exactly when the hashed records are. An event id is its UUID read as a number,
    which orders ids exactly as their fixed-width lowercase text does.
 */
module Protocol {
  import opened Wrappers

  type EventId = nat
  type Labels = map<string, string>

  datatype Dimensions = Dimensions(deployment: string, agent: string, operation: string, synthetic: bool)

  /** An event failed exactly when it carries a failure classification. */
  datatype Event = Event(
    id: EventId,
    timestamp: int,
    dimensions: Dimensions,
    failure: Option<string>,
    latency: Option<real>,
    inputTokens: Option<nat>,
    outputTokens: Option<nat>,
    retries: Option<nat>,
    labels: Labels)

  datatype Digest = EventHash(event: Event)
  datatype StreamId = StreamHash(dimensions: Dimensions)
  datatype VersionId = VersionHash(labels: Labels)
  datatype IncidentId = IncidentHash(stream: StreamId, onset: EventId)

  function StreamOf(e: Event): StreamId {
    StreamHash(e.dimensions)
  }
}
