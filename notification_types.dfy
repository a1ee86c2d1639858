/** In-app notifications, outgoing e-mail payloads and escalation rules. */
module NotificationTypes {
  import opened Common
  import opened PotholeTypes

  datatype NotificationType = Submission | HighPriority | Escalation | StatusUpdate

  datatype Severity = Info | Warning | Error | Success

  /** An in-app notification. `createdAt` is in milliseconds; an
      `actionRequired` left undefined reads as false. */
  datatype Notification = Notification(
    id: string,
    kind: NotificationType,
    severity: Severity,
    title: string,
    message: string,
    potholeId: Option<string>,
    createdAt: int,
    read: bool,
    actionRequired: bool)

  datatype EmailType = SubmissionConfirmation | StatusUpdateEmail | EscalationEmail

  /** An outgoing e-mail: recipient, subject and bookkeeping. The free
      text body is not part of the model. */
  datatype EmailAlert = EmailAlert(
    to: string,
    subject: string,
    kind: EmailType,
    potholeId: string,
    sentAt: int)

  datatype EscalationRule = EscalationRule(
    priority: Priority,
    deadlineDays: int,
    escalateAfterDays: int,
    notifyRoles: seq<string>)
}
