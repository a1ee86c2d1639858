/** The escalation service: the priority rule table, the deadline
    arithmetic, the overdue scan that produces escalation notifications
    and e-mails, and the notification and e-mail constructors.
    The clock is the parameter `now` (milliseconds); notification ids,
    made from the clock and a random number in the application, are
    parameters too. */
module NotificationService {
  import opened Common
  import opened Seqs
  import opened PotholeTypes
  import opened NotificationTypes

  /** The fixed rule table, one rule per priority. */
  const ESCALATION_RULES: seq<EscalationRule> := [
    EscalationRule(Critical, 1, 1, ["supervisor", "manager", "director"]),
    EscalationRule(High, 3, 2, ["supervisor", "manager"]),
    EscalationRule(Medium, 7, 5, ["supervisor"]),
    EscalationRule(Low, 14, 10, ["supervisor"])
  ]

  const MEDIUM_RULE := EscalationRule(Medium, 7, 5, ["supervisor"])

  /** `ESCALATION_RULES.find((r) => r.priority === priority)`. */
  function FindRule(priority: Option<Priority>): (r: Option<EscalationRule>)
    ensures r.Some? <==> priority.Some?
    ensures r.Some? ==> r.value in ESCALATION_RULES && r.value.priority == priority.value
  {
    var matches := (rule: EscalationRule) => Some(rule.priority) == priority;
    assert priority.Some? ==> matches(ESCALATION_RULES[RuleIndex(priority.value)]);
    Find(ESCALATION_RULES, matches)
  }

  /** Where the table keeps the rule for each priority. */
  function RuleIndex(q: Priority): (i: nat)
    ensures i < |ESCALATION_RULES| && ESCALATION_RULES[i].priority == q
  {
    match q
    case Critical => 0
    case High => 1
    case Medium => 2
    case Low => 3
  }

  /** The rule the evaluator applies: the one whose priority matches,
      and the medium rule (`ESCALATION_RULES[2]`) when the pothole has
      no priority. */
  function RuleFor(priority: Option<Priority>): (rule: EscalationRule)
    ensures rule in ESCALATION_RULES
    ensures priority.Some? ==> rule.priority == priority.value
    ensures priority.None? ==> rule == MEDIUM_RULE
  {
    FindRule(priority).GetOr(ESCALATION_RULES[2])
  }

  /** Every rule has a positive deadline, escalates no later than its
      deadline, names someone to notify, and is the only rule for its
      priority. */
  lemma RuleTableWellFormed()
    ensures forall r :: r in ESCALATION_RULES ==>
      0 < r.escalateAfterDays <= r.deadlineDays && |r.notifyRoles| > 0
    ensures forall i, j :: 0 <= i < j < |ESCALATION_RULES| ==>
      ESCALATION_RULES[i].priority != ESCALATION_RULES[j].priority
  {
  }

  /** Whole days since detection: `Math.floor((now - detected) / day)`. */
  function DaysElapsed(p: Pothole, now: int): int {
    FloorDays(now - p.detectedAt)
  }

  predicate IsOverdue(p: Pothole, now: int) {
    DaysElapsed(p, now) > RuleFor(p.priority).deadlineDays
  }

  function DaysOverdue(p: Pothole, now: int): int {
    DaysElapsed(p, now) - RuleFor(p.priority).deadlineDays
  }

  /** The scan's test: not completed, overdue, and past the rule's
      escalate-after threshold. */
  predicate ShouldEscalate(p: Pothole, now: int) {
    p.status != Completed && IsOverdue(p, now)
    && DaysElapsed(p, now) >= RuleFor(p.priority).escalateAfterDays
  }

  /** `getDeadline`: detection time plus the rule's deadline in days. */
  function GetDeadline(p: Pothole): (deadline: int)
    ensures deadline - p.detectedAt == DAY_MS * RuleFor(p.priority).deadlineDays
  {
    p.detectedAt + RuleFor(p.priority).deadlineDays * DAY_MS
  }

  /** `getDaysUntilDeadline`: `Math.ceil((deadline - now) / day)`. It is
      the deadline in days minus the whole days elapsed, so it turns
      negative exactly when a whole day has passed since the deadline,
      which is exactly when the pothole is overdue. */
  function GetDaysUntilDeadline(p: Pothole, now: int): (days: int)
    ensures days == RuleFor(p.priority).deadlineDays - DaysElapsed(p, now)
    ensures days < 0 <==> now >= GetDeadline(p) + DAY_MS
    ensures days < 0 <==> IsOverdue(p, now)
  {
    CeilDaysComplement(now - p.detectedAt, RuleFor(p.priority).deadlineDays);
    CeilDays(GetDeadline(p) - now)
  }

  /** `${priority}` and `${priority?.toUpperCase()}` in a template: an
      absent priority prints as "undefined". */
  function PriorityText(priority: Option<Priority>): string {
    match priority
    case Some(q) => PriorityName(q)
    case None => "undefined"
  }

  function PriorityUpperText(priority: Option<Priority>): string {
    match priority
    case Some(q) => PriorityUpper(q)
    case None => "undefined"
  }

  /** `createNotification`: every notification starts unread. */
  function CreateNotification(
    id: string, kind: NotificationType, severity: Severity, title: string,
    message: string, potholeId: Option<string>, actionRequired: bool, now: int): (n: Notification)
    ensures !n.read
    ensures n.id == id && n.kind == kind && n.severity == severity && n.createdAt == now
    ensures n.title == title && n.message == message
    ensures n.potholeId == potholeId && n.actionRequired == actionRequired
  {
    Notification(id, kind, severity, title, message, potholeId, now, false, actionRequired)
  }

  function EscalationTitle(p: Pothole): string {
    "OVERDUE: " + PriorityUpperText(p.priority) + " Priority Repair"
  }

  function EscalationMessage(p: Pothole, daysOverdue: int): string {
    "Pothole at " + OrElse(p.roadName, "Unknown Location") + " is " + IntToString(daysOverdue)
    + " days overdue. Immediate action required."
  }

  /** The escalation notification the scan creates for an overdue pothole. */
  function EscalationNotice(p: Pothole, id: string, now: int): Notification {
    CreateNotification(id, Escalation, Error, EscalationTitle(p),
      EscalationMessage(p, DaysOverdue(p, now)), Some(p.id), true, now)
  }

  /** The recipient list of the escalation e-mail,
      `rule?.notifyRoles.join(', ') || 'supervisor'`. Without a matching
      rule it is "supervisor"; it does not consult the medium rule. */
  function EscalationRecipients(priority: Option<Priority>): string {
    var joined := match FindRule(priority)
      case Some(rule) => Some(Join(rule.notifyRoles, ", "))
      case None => None;
    OrElse(joined, "supervisor")
  }

  /** `sendEscalationEmail`, without the body text and the delivery. */
  function EscalationEmailFor(p: Pothole, daysOverdue: int, now: int): (e: EmailAlert)
    ensures e.kind == EscalationEmail && e.potholeId == p.id && e.sentAt == now
    ensures e.to == EscalationRecipients(p.priority) + "@brampton.ca"
    ensures e.subject == "ESCALATION: Overdue Pothole Repair - ID: " + p.id
  {
    EmailAlert(EscalationRecipients(p.priority) + "@brampton.ca",
      "ESCALATION: Overdue Pothole Repair - ID: " + p.id, EscalationEmail, p.id, now)
  }

  /** `sendSubmissionEmail`, without the body text and the delivery. */
  function SubmissionEmailFor(p: Pothole, contactEmail: string, now: int): (e: EmailAlert)
    ensures e.to == contactEmail && e.kind == SubmissionConfirmation && e.potholeId == p.id
    ensures e.subject == "Pothole Report Confirmed - ID: " + p.id && e.sentAt == now
  {
    EmailAlert(contactEmail, "Pothole Report Confirmed - ID: " + p.id, SubmissionConfirmation, p.id, now)
  }

  /** `sendStatusUpdateEmail`, without the body text and the delivery. */
  function StatusUpdateEmailFor(p: Pothole, contactEmail: string, now: int): (e: EmailAlert)
    ensures e.to == contactEmail && e.kind == StatusUpdateEmail && e.potholeId == p.id
    ensures e.subject == "Pothole Report Update - ID: " + p.id && e.sentAt == now
  {
    EmailAlert(contactEmail, "Pothole Report Update - ID: " + p.id, StatusUpdateEmail, p.id, now)
  }

  /** The notifications the scan produces for `ps`, in input order;
      pothole i gets id `ids[i]` if it escalates. */
  function Escalations(ps: seq<Pothole>, ids: seq<string>, now: int): (r: seq<Notification>)
    requires |ids| == |ps|
    ensures |r| <= |ps|
    ensures forall k :: 0 <= k < |r| ==>
      r[k].kind == Escalation && r[k].severity == Error && r[k].actionRequired && !r[k].read
      && r[k].createdAt == now && r[k].potholeId.Some?
    decreases |ps|
  {
    if ps == [] then []
    else
      var n := |ps| - 1;
      Escalations(ps[..n], ids[..n], now)
      + (if ShouldEscalate(ps[n], now) then [EscalationNotice(ps[n], ids[n], now)] else [])
  }

  /** The e-mails the scan sends for `ps`, in input order. */
  function EscalationEmails(ps: seq<Pothole>, now: int): (r: seq<EmailAlert>)
    ensures |r| <= |ps|
    decreases |ps|
  {
    if ps == [] then []
    else
      var n := |ps| - 1;
      EscalationEmails(ps[..n], now)
      + (if ShouldEscalate(ps[n], now) then [EscalationEmailFor(ps[n], DaysOverdue(ps[n], now), now)] else [])
  }

  /** The potholes the scan escalates, in input order. */
  function Escalated(ps: seq<Pothole>, now: int): seq<Pothole> {
    Filter(ps, Escalates(now))
  }

  /** ShouldEscalate at a fixed time, as a predicate on potholes. */
  function Escalates(now: int): Pothole -> bool {
    p => ShouldEscalate(p, now)
  }

  /** The escalation notice at a fixed time, with an empty id. */
  function NoticeAt(now: int): Pothole -> Notification {
    p => EscalationNotice(p, "", now)
  }

  /** A notification with its id erased, for comparing notifications
      that differ only in their generated ids. */
  function Anonymous(n: Notification): Notification {
    n.(id := "")
  }

  /** The scan's notifications up to their ids: one escalation notice
      per escalated pothole, in input order. */
  function AnonymousEscalations(ps: seq<Pothole>, now: int): seq<Notification> {
    Map(Escalated(ps, now), NoticeAt(now))
  }

  /** `checkForOverdueRepairs`: scans the potholes in order, skips the
      completed ones, and for each overdue one past its escalate-after
      threshold creates an escalation notification and an escalation
      e-mail. */
  method CheckForOverdueRepairs(potholes: seq<Pothole>, ids: seq<string>, now: int)
    returns (notifications: seq<Notification>, emails: seq<EmailAlert>)
    requires |ids| == |potholes|
    ensures notifications == Escalations(potholes, ids, now)
    ensures emails == EscalationEmails(potholes, now)
  {
    notifications := [];
    emails := [];
    var i := 0;
    while i < |potholes|
      invariant 0 <= i <= |potholes|
      invariant notifications == Escalations(potholes[..i], ids[..i], now)
      invariant emails == EscalationEmails(potholes[..i], now)
    {
      assert potholes[..i + 1][..i] == potholes[..i];
      assert ids[..i + 1][..i] == ids[..i];
      notifications, emails := CheckPothole(notifications, emails, potholes[i], ids[i], now);
      assert potholes[..i + 1][i] == potholes[i] && ids[..i + 1][i] == ids[i];
      i := i + 1;
    }
    assert potholes[..i] == potholes;
    assert ids[..i] == ids;
  }

  /** The body of the loop of `checkForOverdueRepairs` for one pothole:
      an open pothole past its deadline and its escalate-after threshold
      adds one notification and one e-mail. */
  method CheckPothole(notifications: seq<Notification>, emails: seq<EmailAlert>,
                      pothole: Pothole, id: string, now: int)
    returns (ns: seq<Notification>, es: seq<EmailAlert>)
    ensures ns == notifications + (if ShouldEscalate(pothole, now) then [EscalationNotice(pothole, id, now)] else [])
    ensures es == emails + (if ShouldEscalate(pothole, now)
                            then [EscalationEmailFor(pothole, DaysOverdue(pothole, now), now)] else [])
  {
    ns, es := notifications, emails;
    if pothole.status != Completed {
      var daysElapsed := FloorDays(now - pothole.detectedAt);
      var rule := RuleFor(pothole.priority);
      if daysElapsed > rule.deadlineDays {
        var daysOverdue := daysElapsed - rule.deadlineDays;
        if daysElapsed >= rule.escalateAfterDays {
          var notification := CreateNotification(id, Escalation, Error, EscalationTitle(pothole),
            EscalationMessage(pothole, daysOverdue), Some(pothole.id), true, now);
          assert ShouldEscalate(pothole, now) && daysOverdue == DaysOverdue(pothole, now);
          assert notification == EscalationNotice(pothole, id, now);
          ns := ns + [notification];
          es := es + [EscalationEmailFor(pothole, daysOverdue, now)];
        }
      }
    }
  }

  /** `createHighPriorityAlert`: an unread warning that asks for action. */
  function CreateHighPriorityAlert(p: Pothole, id: string, now: int): (n: Notification)
    ensures n.kind == HighPriority && n.severity == Warning
    ensures n.actionRequired && !n.read && n.potholeId == Some(p.id)
  {
    CreateNotification(id, HighPriority, Warning,
      PriorityUpperText(p.priority) + " Priority Pothole Detected",
      "New " + PriorityText(p.priority) + " priority pothole reported at "
      + OrElse(p.roadName, "Unknown Location") + " in " + OrElse(p.ward, "Unknown Ward")
      + ". Requires immediate attention.",
      Some(p.id), true, now)
  }

  /** `createSubmissionNotification`: an unread piece of information that
      asks for no action. */
  function CreateSubmissionNotification(p: Pothole, id: string, now: int): (n: Notification)
    ensures n.kind == Submission && n.severity == Info
    ensures !n.actionRequired && !n.read && n.potholeId == Some(p.id)
  {
    var priority := match p.priority case Some(q) => PriorityName(q) case None => "medium";
    CreateNotification(id, Submission, Info, "New Pothole Report",
      "New pothole reported at " + OrElse(p.roadName, "Unknown Location") + " - Priority: " + priority,
      Some(p.id), false, now)
  }

  const DEFAULT_STATUS_MESSAGE := "Your report is being reviewed by our maintenance team."

  /** `getStatusMessage`: one sentence per known status and a default. */
  function GetStatusMessage(status: string): string {
    match status
    case "scheduled" => "Your report has been reviewed and scheduled for repair. Our crew will address it soon."
    case "in_progress" => "Repair work is currently in progress. Thank you for your patience."
    case "completed" => "The repair has been completed. Thank you for reporting this issue!"
    case _ => DEFAULT_STATUS_MESSAGE
  }
}

/** Properties of the escalation service. */
module NotificationServiceProperties {
  import opened Common
  import opened Seqs
  import opened PotholeTypes
  import opened NotificationTypes
  import opened NotificationService

  /** Because every rule escalates no later than its deadline, the
      escalate-after test never changes the outcome: a pothole escalates
      exactly when it is not completed and more whole days than its
      deadline have elapsed, and it is then at least one day overdue. */
  lemma EscalationThreshold(p: Pothole, now: int)
    ensures ShouldEscalate(p, now) <==>
      p.status != Completed && DaysElapsed(p, now) > RuleFor(p.priority).deadlineDays
    ensures ShouldEscalate(p, now) ==> DaysOverdue(p, now) >= 1
  {
    RuleTableWellFormed();
  }

  /** At exactly the deadline a pothole is not yet overdue; one whole day
      later it escalates, one day overdue. */
  lemma ThresholdBoundary(p: Pothole, now: int)
    requires p.status != Completed
    ensures DaysElapsed(p, now) == RuleFor(p.priority).deadlineDays ==> !ShouldEscalate(p, now)
    ensures DaysElapsed(p, now) == RuleFor(p.priority).deadlineDays + 1 ==>
      ShouldEscalate(p, now) && DaysOverdue(p, now) == 1
  {
    RuleTableWellFormed();
  }

  /** Completed potholes contribute nothing, however old they are: the
      scan over a list gives the same notifications as the scan over
      the list without its completed potholes. */
  lemma CompletedNeverEscalate(ps: seq<Pothole>, now: int)
    ensures forall p :: p in Escalated(ps, now) ==> p.status != Completed
    ensures AnonymousEscalations(ps, now)
         == AnonymousEscalations(Filter(ps, (p: Pothole) => p.status != Completed), now)
  {
    var open := (p: Pothole) => p.status != Completed;
    var escalates := Escalates(now);
    FilterFilter(ps, open, escalates, escalates);
    FilterSpec(ps, escalates);
    forall p | p in Escalated(ps, now)
      ensures p.status != Completed
    {
      var k :| 0 <= k < |Escalated(ps, now)| && Escalated(ps, now)[k] == p;
    }
  }

  /** Up to their generated ids, the scan's notifications are one
      escalation notice per escalated pothole, in input order. */
  lemma {:induction false} EscalationsUpToIds(ps: seq<Pothole>, ids: seq<string>, now: int)
    requires |ids| == |ps|
    ensures Map(Escalations(ps, ids, now), Anonymous) == AnonymousEscalations(ps, now)
    decreases |ps|
  {
    if ps != [] {
      var n := |ps| - 1;
      assert ps[..n] + [ps[n]] == ps;
      var escalates := Escalates(now);
      var notice := NoticeAt(now);
      var front := Escalations(ps[..n], ids[..n], now);
      var last := if ShouldEscalate(ps[n], now) then [EscalationNotice(ps[n], ids[n], now)] else [];
      EscalationsUpToIds(ps[..n], ids[..n], now);
      LastNotice(ps[n], ids[n], now);
      MapFilterStep(front, last, Anonymous, ps[..n], ps[n], escalates, notice);
      assert Escalations(ps, ids, now) == front + last;
    }
  }

  lemma LastNotice(p: Pothole, id: string, now: int)
    ensures Map(if ShouldEscalate(p, now) then [EscalationNotice(p, id, now)] else [], Anonymous)
         == Map(Filter([p], Escalates(now)), NoticeAt(now))
  {
    if ShouldEscalate(p, now) {
      assert Filter([p], Escalates(now)) == [p];
      assert Anonymous(EscalationNotice(p, id, now)) == NoticeAt(now)(p);
    } else {
      assert Filter([p], Escalates(now)) == [];
    }
  }

  /** Each notification of the scan refers to the escalated pothole at
      the same position: at most one notification per pothole, in input
      order, and none for a pothole that does not escalate. */
  lemma EscalationsFollowInput(ps: seq<Pothole>, ids: seq<string>, now: int)
    requires |ids| == |ps|
    ensures |Escalations(ps, ids, now)| == |Escalated(ps, now)|
    ensures forall k :: 0 <= k < |Escalated(ps, now)| ==>
      Escalations(ps, ids, now)[k].potholeId == Some(Escalated(ps, now)[k].id)
      && ShouldEscalate(Escalated(ps, now)[k], now)
    ensures IsSubsequence(Escalated(ps, now), ps)
  {
    EscalationsNamePotholes(ps, ids, now);
    FilterSpec(ps, Escalates(now));
  }

  lemma EscalationsNamePotholes(ps: seq<Pothole>, ids: seq<string>, now: int)
    requires |ids| == |ps|
    ensures |Escalations(ps, ids, now)| == |Escalated(ps, now)|
    ensures forall k :: 0 <= k < |Escalated(ps, now)| ==>
      Escalations(ps, ids, now)[k].potholeId == Some(Escalated(ps, now)[k].id)
  {
    EscalationsUpToIds(ps, ids, now);
    var r := Escalations(ps, ids, now);
    var e := Escalated(ps, now);
    assert |Map(r, Anonymous)| == |Map(e, NoticeAt(now))|;
    forall k | 0 <= k < |e|
      ensures r[k].potholeId == Some(e[k].id)
    {
      assert Map(r, Anonymous)[k] == Anonymous(r[k]);
      assert Map(e, NoticeAt(now))[k] == NoticeAt(now)(e[k]);
    }
  }

  /** Running the scan twice on the same potholes at the same time
      produces the same notifications, apart from their ids. */
  lemma ScanDeterministic(ps: seq<Pothole>, ids1: seq<string>, ids2: seq<string>, now: int)
    requires |ids1| == |ps| && |ids2| == |ps|
    ensures Map(Escalations(ps, ids1, now), Anonymous) == Map(Escalations(ps, ids2, now), Anonymous)
  {
    EscalationsUpToIds(ps, ids1, now);
    EscalationsUpToIds(ps, ids2, now);
  }

  /** One escalation e-mail goes out per escalation notification, about
      the same pothole. */
  lemma {:induction false} EmailsMatchNotifications(ps: seq<Pothole>, ids: seq<string>, now: int)
    requires |ids| == |ps|
    ensures |EscalationEmails(ps, now)| == |Escalations(ps, ids, now)|
    ensures forall k :: 0 <= k < |EscalationEmails(ps, now)| ==>
      Escalations(ps, ids, now)[k].potholeId == Some(EscalationEmails(ps, now)[k].potholeId)
    decreases |ps|
  {
    if ps != [] {
      var n := |ps| - 1;
      EmailsMatchNotifications(ps[..n], ids[..n], now);
      var es, ns := EscalationEmails(ps[..n], now), Escalations(ps[..n], ids[..n], now);
      var escalates := ShouldEscalate(ps[n], now);
      var lastE := if escalates then [EscalationEmailFor(ps[n], DaysOverdue(ps[n], now), now)] else [];
      var lastN := if escalates then [EscalationNotice(ps[n], ids[n], now)] else [];
      var e, m := EscalationEmails(ps, now), Escalations(ps, ids, now);
      assert e == es + lastE && m == ns + lastN;
      forall k | 0 <= k < |e|
        ensures m[k].potholeId == Some(e[k].potholeId)
      {
        if k < |es| {
          assert e[k] == es[k] && m[k] == ns[k];
        } else {
          assert e[k] == lastE[0] && m[k] == lastN[0];
        }
      }
    }
  }

  /** The e-mail's recipients are the roles of the rule the scan used,
      even for a pothole without priority: there the e-mail falls back to
      "supervisor" and the scan to the medium rule, whose only role is
      "supervisor". */
  lemma EscalationRecipientsFollowRule(priority: Option<Priority>)
    ensures EscalationRecipients(priority) == Join(RuleFor(priority).notifyRoles, ", ")
  {
    var rule := RuleFor(priority);
    match priority
    case None =>
    case Some(q) =>
      assert rule == ESCALATION_RULES[RuleIndex(q)];
  }

  /** The recipients per priority, written out. */
  lemma EscalationRecipientsByPriority(priority: Option<Priority>)
    ensures priority == Some(Critical) ==> EscalationRecipients(priority) == "supervisor, manager, director"
    ensures priority == Some(High) ==> EscalationRecipients(priority) == "supervisor, manager"
    ensures priority != Some(Critical) && priority != Some(High) ==> EscalationRecipients(priority) == "supervisor"
  {
    EscalationRecipientsFollowRule(priority);
    RoleListsJoined();
    var roles := RuleFor(priority).notifyRoles;
    match priority
    case None =>
    case Some(q) =>
      assert roles == ESCALATION_RULES[RuleIndex(q)].notifyRoles;
  }

  /** The escalation e-mail's address per priority, written out. */
  lemma EscalationAddressByPriority(p: Pothole, daysOverdue: int, now: int)
    ensures p.priority == Some(Critical) ==>
      EscalationEmailFor(p, daysOverdue, now).to == "supervisor, manager, director" + "@brampton.ca"
    ensures p.priority == Some(High) ==>
      EscalationEmailFor(p, daysOverdue, now).to == "supervisor, manager" + "@brampton.ca"
    ensures p.priority != Some(Critical) && p.priority != Some(High) ==>
      EscalationEmailFor(p, daysOverdue, now).to == "supervisor" + "@brampton.ca"
  {
    EscalationRecipientsByPriority(p.priority);
  }

  /** The role lists of the table, joined. */
  lemma RoleListsJoined()
    ensures Join(["supervisor", "manager", "director"], ", ") == "supervisor, manager, director"
    ensures Join(["supervisor", "manager"], ", ") == "supervisor, manager"
    ensures Join(["supervisor"], ", ") == "supervisor"
  {
    assert ["supervisor", "manager", "director"][1..] == ["manager", "director"];
    assert ["supervisor", "manager"][1..] == ["manager"];
    assert ["manager", "director"][1..] == ["director"];
  }

  /** A critical pothole detected three days ago and still open is two
      days overdue and escalates to supervisor, manager and director. */
  lemma CriticalThreeDaysOld(p: Pothole, id: string, now: int)
    requires p.priority == Some(Critical) && p.status == New
    requires now == p.detectedAt + 3 * DAY_MS
    ensures ShouldEscalate(p, now) && DaysOverdue(p, now) == 2
    ensures RuleFor(p.priority).notifyRoles == ["supervisor", "manager", "director"]
    ensures Escalations([p], [id], now) == [EscalationNotice(p, id, now)]
  {
    assert DaysElapsed(p, now) == 3;
    assert [p][..0] == [];
  }

  /** The same pothole once completed produces nothing. */
  lemma CompletedThreeDaysOld(p: Pothole, id: string, now: int)
    requires p.priority == Some(Critical) && p.status == Completed
    requires now == p.detectedAt + 3 * DAY_MS
    ensures Escalations([p], [id], now) == []
  {
    assert [p][..0] == [];
  }

  /** A low-priority pothole two days old is not overdue. */
  lemma LowTwoDaysOld(p: Pothole, id: string, now: int)
    requires p.priority == Some(Low) && p.status != Completed
    requires now == p.detectedAt + 2 * DAY_MS
    ensures !IsOverdue(p, now) && Escalations([p], [id], now) == []
  {
    assert DaysElapsed(p, now) == 2;
    assert [p][..0] == [];
  }

  /** A detection time in the future gives a negative elapsed time and
      never an escalation. */
  lemma FutureDetectionNeverEscalates(p: Pothole, now: int)
    requires p.detectedAt > now
    ensures DaysElapsed(p, now) < 0 && !ShouldEscalate(p, now)
  {
    RuleTableWellFormed();
  }

  /** Each of the three known statuses gets a message other than the
      default one that every other status gets. */
  lemma StatusMessagesDistinct()
    ensures GetStatusMessage("scheduled") != DEFAULT_STATUS_MESSAGE
    ensures GetStatusMessage("in_progress") != DEFAULT_STATUS_MESSAGE
    ensures GetStatusMessage("completed") != DEFAULT_STATUS_MESSAGE
  {
  }
}
