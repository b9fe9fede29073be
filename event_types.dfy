/**
 * The domain event as the Kubernetes translation writes it and the events table stores it:
 * ten fields, with the identifier a string (the Kubernetes UID).
 */
module EventTypes {
  import opened GoTime

  datatype Event = Event(
    id: string,
    namespace: string,
    name: string,
    reason: string,
    message: string,
    eventType: string,
    involvedObject: string,
    firstTimestamp: Time,
    lastTimestamp: Time,
    count: int)
}
