// The event contract shared by every service, and the two tables of the
// work-orders database that the pipeline starts from.
module Contracts {
  datatype Option<+T> = None | Some(value: T)

  // Identifiers are opaque: only their equality matters.
  type Uuid = string

  datatype Status = Open | Assigned | InProgress | Completed | Cancelled

  datatype Priority = Low | Medium | High | Urgent

  datatype EventType =
    CreatedEvent | AssignedEvent | StartedEvent | CompletedEvent | CancelledEvent | TriagedEvent

  // The name an event type travels under.
  function TypeName(kind: EventType): string {
    match kind
    case CreatedEvent => "work-order.created"
    case AssignedEvent => "work-order.assigned"
    case StartedEvent => "work-order.started"
    case CompletedEvent => "work-order.completed"
    case CancelledEvent => "work-order.cancelled"
    case TriagedEvent => "work-order.triaged"
  }

  datatype Category = Plumbing | Electrical | Hvac | Appliance | Structural | PestControl | OtherCategory

  datatype Urgency = Emergency | HighUrgency | MediumUrgency | LowUrgency

  datatype Triage = Triage(category: Category, urgency: Urgency, reasoning: string)

  // The snapshot of a work order that every event carries.
  datatype EventData = EventData(
    workOrderId: Uuid, propertyId: Uuid, title: string, description: string, priority: Priority,
    status: Status, assigneeId: Option<Uuid>, triage: Option<Triage>)

  // The envelope. `eventId` is the key every consumer deduplicates by.
  datatype Event = Event(
    eventId: Uuid, kind: EventType, occurredAt: nat, correlationId: Option<Uuid>,
    actorId: Option<Uuid>, data: EventData)

  // How a call to a broker, a sender or a database ends: it may fail before
  // or after it took effect, and the caller cannot tell the two apart.
  datatype Outcome = Ok | FailedBefore | FailedAfter

  // A row of work_orders.
  datatype WorkOrder = WorkOrder(
    id: Uuid, title: string, description: string, propertyId: Uuid, priority: Priority,
    status: Status, assigneeId: Option<Uuid>, triageCategory: Option<Category>,
    triageUrgency: Option<Urgency>, triageReasoning: Option<string>, triagedAt: Option<nat>,
    createdAt: nat)

  // A row of outbox_events, without its published_at stamp.
  datatype OutboxRow = OutboxRow(id: nat, event: Event) {
    function Order(): Uuid { event.data.workOrderId }
  }
}
