/** The multicast message a barista announces when a ticket is done, and
    the status predicate the announcer checks. */
module MulticastMessages {
  import opened Wrappers

  datatype MulticastMessageKind = Ticket

  datatype MulticastMessageStatus = Success | Aborted | Error
  {
    /** `is_finished`: no further processing is expected. `Error` means an
        unexpected failure that is to be retried. */
    predicate IsFinished() {
      this == Success || this == Aborted
    }
  }

  /** A wall clock reading, in nanoseconds since the Unix epoch. */
  type Timestamp = int

  datatype MulticastMessage = MulticastMessage(
    task: string,
    ticket: string,
    kind: MulticastMessageKind,
    timestamp: Option<Timestamp>,
    status: MulticastMessageStatus)

  /** `MulticastMessage::new`, stamped with the current time `now`. */
  function New(task: string, ticket: string, kind: MulticastMessageKind, status: MulticastMessageStatus,
               now: Timestamp): (m: MulticastMessage)
    ensures m.task == task && m.ticket == ticket
    ensures m.kind == kind && m.status == status && m.timestamp == Some(now)
  {
    MulticastMessage(task, ticket, kind, Some(now), status)
  }

  /** `new_ticket_complete`. */
  function NewTicketComplete(task: string, ticket: string, now: Timestamp): (m: MulticastMessage)
    ensures m.kind == MulticastMessageKind.Ticket && m.status == Success
    ensures m.task == task && m.ticket == ticket && m.timestamp == Some(now)
  {
    New(task, ticket, MulticastMessageKind.Ticket, Success, now)
  }

  /** `new_ticket_rejected`. */
  function NewTicketRejected(task: string, ticket: string, now: Timestamp): (m: MulticastMessage)
    ensures m.kind == MulticastMessageKind.Ticket && m.status == Aborted
    ensures m.task == task && m.ticket == ticket && m.timestamp == Some(now)
  {
    New(task, ticket, MulticastMessageKind.Ticket, Aborted, now)
  }

  /** Exactly `Success` and `Aborted` are finished. */
  lemma FinishedStatuses(s: MulticastMessageStatus)
    ensures s.IsFinished() <==> s != Error
  {
  }

  /** Both ticket constructors announce a finished status, which is what
      makes the announcer complete the order; they differ only in it. */
  lemma TicketConstructorsFinished(task: string, ticket: string, now: Timestamp)
    ensures NewTicketComplete(task, ticket, now).status.IsFinished()
    ensures NewTicketRejected(task, ticket, now).status.IsFinished()
    ensures NewTicketComplete(task, ticket, now) != NewTicketRejected(task, ticket, now)
    ensures NewTicketComplete(task, ticket, now).(status := Aborted) == NewTicketRejected(task, ticket, now)
  {
  }
}
