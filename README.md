# Brampton pothole web app: escalation pipeline and client stores, in Dafny

This project models the logic core of the Brampton pothole web app, a
municipal dashboard for reported potholes.

- **The escalation service.** A fixed rule table maps a pothole's
  priority to a deadline in days, an escalate-after threshold and the
  roles to notify. The overdue scan walks the potholes, skips the
  completed ones, and for every pothole past its deadline and threshold
  creates an escalation notification and an escalation e-mail. The
  deadline arithmetic and the notification constructors complete it.
- **The notification store.** A newest-first list of notifications with a
  cached unread count. It offers add, mark-read, mark-all-read, remove
  and clear, plus the derived queries.
- **The escalation monitor.** One pass of the scan whose notifications
  are added to the store one by one, and the rule that the first pass
  runs only for a non-empty pothole list.
- **The dashboard alerts.** Each open pothole is classified into
  critical, high-priority and overdue alerts by its priority and the
  days left until its deadline. The alerts are then sorted stably by
  category.
- **The pothole store.** The full list, the filter options and the
  filtered list, which every change recomputes. Seven optional filters
  apply in sequence, one of them an overdue test with its own deadline
  table.
- **The work-order, scheduling and settings stores.** These hold lists
  of work orders, crews, time and cost logs, schedule entries, weather
  reports, routes and maintenance windows. Their actions append, update
  by id, delete by id and replace by key. The settings store has one
  setter per field, widget toggling and the reset to defaults.

Timestamps are integer milliseconds. The current time is the parameter
`now`, and one day is 86 400 000 ms. The stores are classes whose list
fields their methods reassign. Each such method states its new state in
terms of a function on the old one, and the properties are lemmas about
those functions.

Three results are worth noting:

- The overdue filter of the pothole list gives a pothole without
  priority 14 days. The escalation rules give it the medium rule's 7
  days. An open pothole without priority that is ten days old is
  escalated by the monitor but not listed by the overdue filter
  (`PotholeStore.NoPriorityOverdueDisagreement`).
- The monitor does not deduplicate. Two passes over the same potholes at
  the same time add the same escalations twice
  (`EscalationMonitor.RepeatedTicksDuplicate`).
- The dashboard's overdue alerts name exactly the potholes the
  escalation scan escalates, in the same order
  (`DashboardAlerts.OverdueAlertsMatchEscalations`).

## Model

| member | source | states |
|---|---|---|
| NotificationService.FindRule | src/services/notificationService.ts:174 | the lookup finds a rule exactly when the pothole has a priority, and that rule is in the table with the same priority |
| NotificationService.RuleFor | src/services/notificationService.ts:174 | the rule applied is in the table: the rule of the pothole's priority, or the medium rule (7 days, 5 days, supervisor) when there is no priority |
| NotificationService.RuleTableWellFormed | src/services/notificationService.ts:5-30 | every rule has 0 < escalateAfterDays <= deadlineDays and at least one role; no two rules share a priority |
| NotificationService.GetDeadline | src/services/notificationService.ts:240-245 | the deadline lies exactly deadlineDays days after detection |
| NotificationService.GetDaysUntilDeadline | src/services/notificationService.ts:248-253 | the ceiling of the days to the deadline equals deadlineDays minus the whole days elapsed; it is negative iff now is at least one day past the deadline, iff the pothole is overdue |
| NotificationService.CreateNotification | src/services/notificationService.ts:141-160 | the notification carries every given field and the creation time, and starts unread |
| NotificationService.EscalationEmailFor | src/services/notificationService.ts:105-138 | the escalation e-mail goes to the recipient list of the pothole's priority followed by "@brampton.ca", has the subject "ESCALATION: Overdue Pothole Repair - ID: " and the id, is of the escalation type, about the pothole, sent at now |
| NotificationService.SubmissionEmailFor | src/services/notificationService.ts:34-68 | the confirmation e-mail goes to the given contact, has the subject "Pothole Report Confirmed - ID: " and the id, is about the pothole and is sent at now |
| NotificationService.StatusUpdateEmailFor | src/services/notificationService.ts:70-103 | the status-update e-mail goes to the given contact, has the subject "Pothole Report Update - ID: " and the id, is about the pothole and is sent at now |
| NotificationService.Escalations | src/services/notificationService.ts:163-199 | the scan yields at most one notification per pothole; each is an escalation of severity error that requires action, is unread, is created at now and names a pothole |
| NotificationService.EscalationEmails | src/services/notificationService.ts:193 | the scan sends at most one e-mail per pothole |
| NotificationService.CheckForOverdueRepairs | src/services/notificationService.ts:163-199 | the loop returns exactly the scan's notifications and sends exactly its e-mails, in input order |
| NotificationService.CheckPothole | src/services/notificationService.ts:168-194 | one iteration adds one notification and one e-mail exactly when the pothole is open, overdue and past its threshold, and nothing otherwise |
| NotificationService.CreateHighPriorityAlert | src/services/notificationService.ts:202-211 | a high-priority alert is an unread warning that requires action and names the pothole |
| NotificationService.CreateSubmissionNotification | src/services/notificationService.ts:214-223 | a submission notification is unread information that requires no action and names the pothole |
| NotificationServiceProperties.EscalationThreshold | src/services/notificationService.ts:172-181 | a pothole escalates iff it is not completed and more whole days than its deadline have elapsed; it is then at least one day overdue |
| NotificationServiceProperties.ThresholdBoundary | src/services/notificationService.ts:177-181 | at exactly the deadline an open pothole does not escalate; one day later it escalates, one day overdue |
| NotificationServiceProperties.CompletedNeverEscalate | src/services/notificationService.ts:169 | no escalated pothole is completed, and dropping the completed potholes leaves the scan's output unchanged |
| NotificationServiceProperties.EscalationsUpToIds | src/services/notificationService.ts:167-190 | apart from generated ids, the scan's output is one escalation notice per escalated pothole, in input order |
| NotificationServiceProperties.LastNotice | src/services/notificationService.ts:181-190 | apart from its id, the notice of one pothole is the notice of the one-element escalated list |
| NotificationServiceProperties.EscalationsFollowInput | src/services/notificationService.ts:167-190 | the k-th notification names the k-th escalated pothole, which does escalate; the escalated potholes are a subsequence of the input |
| NotificationServiceProperties.EscalationsNamePotholes | src/services/notificationService.ts:187 | there are as many notifications as escalated potholes, and each carries its pothole's id |
| NotificationServiceProperties.ScanDeterministic | src/services/notificationService.ts:163-199 | two scans of the same potholes at the same time agree apart from their ids |
| NotificationServiceProperties.EmailsMatchNotifications | src/services/notificationService.ts:190-193 | one e-mail goes out per notification, about the same pothole |
| NotificationServiceProperties.EscalationRecipientsFollowRule | src/services/notificationService.ts:105-110 | the e-mail's recipient list is the applied rule's roles joined with ", ", including for a pothole without priority |
| NotificationServiceProperties.EscalationRecipientsByPriority | src/services/notificationService.ts:105-110 | the recipients are "supervisor, manager, director" for critical, "supervisor, manager" for high, and "supervisor" otherwise |
| NotificationServiceProperties.EscalationAddressByPriority | src/services/notificationService.ts:105-110 | the escalation e-mail goes to "supervisor, manager, director@brampton.ca" for critical, "supervisor, manager@brampton.ca" for high, and "supervisor@brampton.ca" otherwise |
| NotificationServiceProperties.RoleListsJoined | src/services/notificationService.ts:107 | the table's three role lists join to those three strings |
| NotificationServiceProperties.CriticalThreeDaysOld | src/services/notificationService.ts:163-199 | an open critical pothole three days old is two days overdue, escalates to three roles, and yields one notice |
| NotificationServiceProperties.CompletedThreeDaysOld | src/services/notificationService.ts:169 | the same pothole once completed yields nothing |
| NotificationServiceProperties.LowTwoDaysOld | src/services/notificationService.ts:177 | a low-priority pothole two days old is not overdue and yields nothing |
| NotificationServiceProperties.FutureDetectionNeverEscalates | src/services/notificationService.ts:172 | a detection time after now gives negative elapsed days and no escalation |
| NotificationServiceProperties.StatusMessagesDistinct | src/services/notificationService.ts:226-237 | scheduled, in_progress and completed each get a message other than the default |
| Common.FloorDays | src/services/notificationService.ts:172 | the whole days elapsed q satisfy q days <= elapsed < q + 1 days |
| Common.FloorDaysUnique | src/services/notificationService.ts:172 | those bounds determine the floor |
| Common.CeilDays | src/services/notificationService.ts:251 | the ceiling q satisfies q - 1 days < time <= q days |
| Common.CeilDaysComplement | src/services/notificationService.ts:251 | the ceiling of k days minus an elapsed time is k minus the floor of the elapsed time |
| Common.NatToString | src/components/DashboardAlerts.tsx:42 | an interpolated count is a non-empty string of decimal digits, with two or more digits iff the count is at least 10 |
| Common.NatToStringRoundTrip | src/components/DashboardAlerts.tsx:42 | the digits read back as the number |
| NotificationStore.MarkRead | src/store/notificationStore.ts:36-44 | entries with the id become read and every other entry is unchanged, in place |
| NotificationStore.MarkAllRead | src/store/notificationStore.ts:46-51 | same entries in the same order, all read |
| NotificationStore.RemoveId | src/store/notificationStore.ts:53-59 | an order-preserving subsequence with no entry of that id and every entry of another id, each as often as in the list |
| NotificationStore.Store.constructor | src/store/notificationStore.ts:22-23 | the store starts empty with an unread count of 0 |
| NotificationStore.Store.AddNotification | src/store/notificationStore.ts:25-34 | the new entry goes to the front of the unchanged list; the cached count stays exact and rises by one iff the entry is unread |
| NotificationStore.Store.MarkAsRead | src/store/notificationStore.ts:36-44 | the list becomes MarkRead of the old list; the cached count stays exact and does not rise |
| NotificationStore.Store.MarkAllAsRead | src/store/notificationStore.ts:46-51 | the list becomes MarkAllRead of the old list, and the count is 0 and exact |
| NotificationStore.Store.RemoveNotification | src/store/notificationStore.ts:53-59 | the list becomes RemoveId of the old list; the cached count stays exact |
| NotificationStore.Store.ClearAll | src/store/notificationStore.ts:61-63 | an empty list with count 0 |
| NotificationStore.Store.GetUnreadCount | src/store/notificationStore.ts:65-67 | the recomputed count equals the cached count whenever the store is valid |
| NotificationStore.Store.GetHighPriorityNotifications | src/store/notificationStore.ts:69-73 | exactly the high-priority and escalation entries, each as often as in the list, in list order |
| NotificationStore.Store.GetActionRequiredNotifications | src/store/notificationStore.ts:75-77 | exactly the unread entries that require action, each as often as in the list, in list order |
| NotificationStore.UnreadAfterAdd | src/store/notificationStore.ts:27-28 | adding an entry raises the unread count by one iff the entry is unread |
| NotificationStore.UnreadAfterMarkRead | src/store/notificationStore.ts:38-41 | marking an id read lowers the unread count by the number of unread entries with that id |
| NotificationStore.NoneUnreadAfterMarkAll | src/store/notificationStore.ts:48-49 | after mark-all-read nothing is unread, so the stored 0 is exact |
| NotificationStore.MarkReadIdempotent | src/store/notificationStore.ts:36-44 | marking an id read twice equals marking it once |
| NotificationStore.UnknownIdIsNoop | src/store/notificationStore.ts:36-59 | marking or removing an id that no entry has changes nothing |
| NotificationStore.RemoveNeverRaisesUnread | src/store/notificationStore.ts:55-56 | removal never raises the unread count, and it drops exactly the entries with the id |
| NotificationStore.RemovePartition | src/store/notificationStore.ts:55 | the kept entries and the entries with the id together make up the list |
| NotificationStore.AddedAlertHeadsQueries | src/store/notificationStore.ts:75-77 | a fresh unread entry that requires action heads the action-required query, and the high-priority query when it is high-priority or an escalation |
| NotificationStore.NothingActionableAfterMarkAll | src/store/notificationStore.ts:75-77 | after mark-all-read no entry requires action |
| NotificationStore.AddAddMarkMarkAll | src/store/notificationStore.ts:25-51 | add, add, mark the first read, then mark all read gives unread counts 1, 2, 1, 0 |
| EscalationMonitor.AfterTick | src/components/EscalationMonitor.tsx:21-23 | after a pass the new notifications sit at the front in reverse scan order, above the old list |
| EscalationMonitor.CheckOverdueRepairs | src/components/EscalationMonitor.tsx:14-28 | a pass adds exactly the scan's notifications, one add per notification; the count stays exact and rises by their number |
| EscalationMonitor.OnPotholesChanged | src/components/EscalationMonitor.tsx:30-33 | the first pass runs only for a non-empty list, which changes no outcome; the store stays valid |
| EscalationMonitor.UnreadAfterTick | src/components/EscalationMonitor.tsx:21-23 | every added notification arrives unread, so the unread count rises by their number |
| EscalationMonitor.RepeatedTicksDuplicate | src/components/EscalationMonitor.tsx:14-28 | two passes at the same time add the same escalations twice apart from ids, and the unread count rises by twice their number |
| EscalationMonitor.EmptyTickAddsNothing | src/components/EscalationMonitor.tsx:31-33 | a pass over no potholes adds nothing |
| DashboardAlerts.PotholeAlerts | src/components/DashboardAlerts.tsx:27-75 | a pothole yields at most two alerts, and a completed one yields none |
| DashboardAlerts.RawAlerts | src/components/DashboardAlerts.tsx:27-75 | the pushed alerts number at most twice the potholes |
| DashboardAlerts.GenerateAlerts | src/components/DashboardAlerts.tsx:24-84 | the loop pushes each pothole's alerts in order, then sorts them by rank |
| DashboardAlerts.PushAlerts | src/components/DashboardAlerts.tsx:28-74 | one iteration appends the pothole's critical, high and overdue alerts in that order |
| DashboardAlerts.CriticalAlertIff | src/components/DashboardAlerts.tsx:34-46 | a critical alert with id critical-<id> exists iff the pothole is open and critical, whatever its deadline |
| DashboardAlerts.HighAlertIff | src/components/DashboardAlerts.tsx:49-61 | a high alert exists iff the pothole is open, high and at least two whole days old, that is one day or less before its deadline |
| DashboardAlerts.OverdueAlertIff | src/components/DashboardAlerts.tsx:64-74 | an overdue alert exists iff the escalation scan would escalate the pothole, and its text shows the scan's days overdue |
| DashboardAlerts.BlocksSorted | src/components/DashboardAlerts.tsx:78-81 | three blocks of rank 0, 1 and 2 in that order are sorted by rank |
| DashboardAlerts.SortByRankSorted | src/components/DashboardAlerts.tsx:78-81 | after the sort every critical alert precedes every overdue one, which precedes every high-priority one |
| DashboardAlerts.SortByRankPermutes | src/components/DashboardAlerts.tsx:78-81 | the sort is a permutation of the alerts |
| DashboardAlerts.SortByRankStable | src/components/DashboardAlerts.tsx:78-81 | alerts of each kind keep their relative order |
| DashboardAlerts.SortedIsFixed | src/components/DashboardAlerts.tsx:78-81 | a list already sorted by rank is left unchanged |
| DashboardAlerts.SortCharacterized | src/components/DashboardAlerts.tsx:78-81 | the sort's result is the only rank-sorted list with each kind's alerts in their original order, which is what a stable sort returns |
| DashboardAlerts.OverdueAlertsMatchEscalations | src/components/DashboardAlerts.tsx:64-74 | the overdue alerts name exactly the potholes the escalation scan escalates, in the same order |
| PotholeStore.OverdueDeadlineDays | src/store/potholeStore.ts:82-85 | the overdue filter allows 14 days exactly for low priority and for no priority |
| PotholeStore.MatchesMeaning | src/store/potholeStore.ts:46-89 | a pothole passes iff it meets every set filter; an absent or empty filter imposes nothing |
| PotholeStore.FilterStage | src/store/potholeStore.ts:46-89 | one filter block narrows the list to the potholes that pass the first k + 1 filters |
| PotholeStore.Store.constructor | src/store/potholeStore.ts:21-27 | the store starts with no potholes and no filters |
| PotholeStore.Store.ApplyFilters | src/store/potholeStore.ts:42-92 | the filtered list becomes the full list filtered by every set option, at time now |
| PotholeStore.Store.SetPotholes | src/store/potholeStore.ts:29-32 | the list is replaced and the filtered list is recomputed under the unchanged options |
| PotholeStore.Store.SetFilters | src/store/potholeStore.ts:37-40 | the options are replaced and the filtered list is recomputed from the unchanged list |
| PotholeStore.Store.ClearFilters | src/store/potholeStore.ts:94-96 | no options, and the filtered list is the whole list |
| PotholeStore.FilteredMembership | src/store/potholeStore.ts:42-92 | the filtered list is an order-preserving subsequence holding exactly the potholes that match, each as often as in the list |
| PotholeStore.NoFiltersKeepAll | src/store/potholeStore.ts:42-92 | with no options the filtered list is the whole list |
| PotholeStore.FilterIdempotent | src/store/potholeStore.ts:42-92 | filtering again with the same options changes nothing |
| PotholeStore.OverdueFilterAgreesWithRules | src/store/potholeStore.ts:72-89 | with a priority the overdue filter agrees with the escalation rules' overdue test; without one it allows 14 days where the rules allow 7 |
| PotholeStore.NoPriorityOverdueDisagreement | src/store/potholeStore.ts:82-85 | an open pothole without priority that is ten days old escalates but is not listed as overdue |
| WorkOrderTypes.MergeWorkOrder | src/store/workOrderStore.ts:52 | an empty patch is the identity; a given id or status overrides, and an absent one keeps the old value |
| WorkOrderTypes.MergeCrew | src/store/workOrderStore.ts:84 | an empty patch is the identity; an absent id, status or calendar keeps the old value |
| WorkOrderStore.UpdateWorkOrders | src/store/workOrderStore.ts:49-55 | only entries with the id take the patch and the new time stamp; length and the other entries are unchanged |
| WorkOrderStore.DeleteWorkOrders | src/store/workOrderStore.ts:57-61 | an order-preserving subsequence with no entry of the id and every other entry, each as often as in the list |
| WorkOrderStore.GetWorkOrderById | src/store/workOrderStore.ts:63-65 | nothing iff no entry has the id; otherwise the first entry with it |
| WorkOrderStore.GetWorkOrdersByStatus | src/store/workOrderStore.ts:67-69 | exactly the entries with the status, each as often as in the list, in order |
| WorkOrderStore.GetWorkOrdersByCrew | src/store/workOrderStore.ts:71-73 | exactly the entries assigned to the crew, each as often as in the list, in order; unassigned entries never match |
| WorkOrderStore.UpdateCrews | src/store/workOrderStore.ts:81-87 | only crews with the id take the patch; length and the other crews are unchanged |
| WorkOrderStore.GetAvailableCrews | src/store/workOrderStore.ts:89-95 | exactly the crews with available status whose first calendar entry for the date is absent or available, each as often as in the list, in order |
| WorkOrderStore.AssignOrders | src/store/workOrderStore.ts:99-103 | matching work orders name the crew, are assigned and carry the new time stamp; nothing else changes |
| WorkOrderStore.AssignCrews | src/store/workOrderStore.ts:104-108 | matching crews are assigned and point at the work order; nothing else changes |
| WorkOrderStore.GetTimeLogsByWorkOrder | src/store/workOrderStore.ts:118-120 | exactly the time logs of the work order, each as often as in the list, in order |
| WorkOrderStore.GetCostLogsByWorkOrder | src/store/workOrderStore.ts:128-130 | exactly the cost logs of the work order, each as often as in the list, in order |
| WorkOrderStore.GetTotalCost | src/store/workOrderStore.ts:132-135 | the total is 0 when no cost log is booked against the work order |
| WorkOrderStore.Store.constructor | src/store/workOrderStore.ts:38-41 | all four lists start empty |
| WorkOrderStore.Store.AddWorkOrder | src/store/workOrderStore.ts:43-47 | appends at the end and changes no other field |
| WorkOrderStore.Store.UpdateWorkOrder | src/store/workOrderStore.ts:49-55 | the work orders become UpdateWorkOrders of the old ones |
| WorkOrderStore.Store.DeleteWorkOrder | src/store/workOrderStore.ts:57-61 | the work orders become DeleteWorkOrders of the old ones |
| WorkOrderStore.Store.AddCrew | src/store/workOrderStore.ts:75-79 | appends at the end and changes no other field |
| WorkOrderStore.Store.UpdateCrew | src/store/workOrderStore.ts:81-87 | the crews become UpdateCrews of the old ones |
| WorkOrderStore.Store.AssignCrewToWorkOrder | src/store/workOrderStore.ts:97-110 | one action updates both the work orders and the crews, and nothing else |
| WorkOrderStore.Store.AddTimeLog | src/store/workOrderStore.ts:112-116 | appends at the end and changes no other field |
| WorkOrderStore.Store.AddCostLog | src/store/workOrderStore.ts:122-126 | appends at the end and changes no other field |
| WorkOrderStore.UnknownWorkOrderIdIsNoop | src/store/workOrderStore.ts:49-65 | an id that no work order has: update, delete and assign change nothing, and the lookup finds nothing |
| WorkOrderStore.UnknownCrewIdIsNoop | src/store/workOrderStore.ts:81-110 | a crew id that no crew has: update and assign leave the crews unchanged |
| WorkOrderStore.UpdateWorkOrderIdempotent | src/store/workOrderStore.ts:49-55 | the same update twice at the same time equals it once, including a patch that renames the entry |
| WorkOrderStore.MergeWorkOrderTwice | src/store/workOrderStore.ts:52 | merging the same patch again at the same time changes nothing |
| WorkOrderStore.GetByIdAfterAdd | src/store/workOrderStore.ts:43-65 | after an append the lookup still finds the first entry with the id, so a duplicate id added later is never returned |
| WorkOrderStore.GetByIdAfterDelete | src/store/workOrderStore.ts:57-65 | after a delete the lookup of the id finds nothing |
| WorkOrderStore.QueriesAfterAdd | src/store/workOrderStore.ts:43-73 | an appended work order joins the end of its status query and of its crew's query |
| WorkOrderStore.AvailableOnFirstEntry | src/store/workOrderStore.ts:89-95 | availability iff the crew's status is available and the first calendar entry for the date, if any, says available |
| WorkOrderStore.FirstEntryWins | src/store/workOrderStore.ts:92-93 | a first entry saying unavailable outweighs a later one saying available |
| WorkOrderStore.AssignmentLinksBothSides | src/store/workOrderStore.ts:97-110 | after an assignment the crew is never offered as available, and the work order appears in the crew's query with status assigned |
| WorkOrderStore.SumAmountsAppend | src/store/workOrderStore.ts:134 | the left fold of a concatenation is the sum of the two folds |
| WorkOrderStore.TotalCostAfterAdd | src/store/workOrderStore.ts:122-135 | a cost log adds its amount to its own work order's total and to no other |
| WorkOrderStore.SumAmountsNonNegative | src/store/workOrderStore.ts:134 | amounts that are all non-negative sum to a non-negative total |
| WorkOrderStore.TotalCostNonNegative | src/store/workOrderStore.ts:132-135 | with no negative amount booked, no total is negative |
| SchedulingTypes.MergeSchedule | src/store/schedulingStore.ts:51 | an empty patch is the identity; an absent id or end time keeps the old value |
| SchedulingTypes.MergeWindow | src/store/schedulingStore.ts:117 | an empty patch is the identity; an absent id or end date keeps the old value |
| SchedulingStore.Upsert | src/store/schedulingStore.ts:82 | the new entry goes last, no other entry shares its key, and the rest are the old entries with other keys, each as often as before, in order |
| SchedulingStore.UpsertKeepsUniqueKeys | src/store/schedulingStore.ts:80-102 | replacing by key keeps the keys unique |
| SchedulingStore.UpsertLookup | src/store/schedulingStore.ts:80-106 | after replacing by key, the lookup of that key finds the new entry and the lookup of any other key is unchanged |
| SchedulingStore.UpdateSchedules | src/store/schedulingStore.ts:48-54 | only entries with the id take the patch; length and the other entries are unchanged |
| SchedulingStore.DeleteSchedules | src/store/schedulingStore.ts:56-60 | an order-preserving subsequence with no entry of the id and every other entry, each as often as in the list |
| SchedulingStore.GetSchedulesByDate | src/store/schedulingStore.ts:62-64 | exactly the entries on the date, each as often as in the list, in order |
| SchedulingStore.GetSchedulesByCrew | src/store/schedulingStore.ts:66-68 | exactly the entries of the crew, each as often as in the list, in order |
| SchedulingStore.Reschedule | src/store/schedulingStore.ts:70-78 | matching entries take the new date and start time and become rescheduled; their end time and every other field and entry stay |
| SchedulingStore.AddWeatherData | src/store/schedulingStore.ts:80-84 | the report goes last, no other report has its date, and the reports for other dates stay, each as often as before, in order |
| SchedulingStore.GetWeatherForDate | src/store/schedulingStore.ts:86-88 | nothing iff no report has the date; otherwise a stored report for it |
| SchedulingStore.WeatherFoundIsFirst | src/store/schedulingStore.ts:86-88 | the report found for a date occurs no later than any report for that date: it is the first one |
| SchedulingStore.IsSuitableForWork | src/store/schedulingStore.ts:90-93 | a date without a report counts as suitable; with one, the first report for the date decides |
| SchedulingStore.AddRoute | src/store/schedulingStore.ts:95-102 | the route goes last, no other route has its crew and date, and the other routes stay, each as often as before, in order |
| SchedulingStore.GetRouteForCrew | src/store/schedulingStore.ts:104-106 | nothing iff no route has that crew and date; otherwise a stored route for them |
| SchedulingStore.RouteFoundIsFirst | src/store/schedulingStore.ts:104-106 | the route found for a crew and date occurs no later than any route for them: it is the first one |
| SchedulingStore.UpdateMaintenanceWindows | src/store/schedulingStore.ts:114-120 | only windows with the id take the patch; length and the other windows are unchanged |
| SchedulingStore.GetActiveMaintenanceWindows | src/store/schedulingStore.ts:122-128 | exactly the windows whose end is not before now, each as often as in the list, in order; a window ending now still counts |
| SchedulingStore.Store.constructor | src/store/schedulingStore.ts:36-40 | all four lists start empty, with unique keys |
| SchedulingStore.Store.AddSchedule | src/store/schedulingStore.ts:42-46 | appends at the end and changes no other field |
| SchedulingStore.Store.UpdateSchedule | src/store/schedulingStore.ts:48-54 | the entries become UpdateSchedules of the old ones |
| SchedulingStore.Store.DeleteSchedule | src/store/schedulingStore.ts:56-60 | the entries become DeleteSchedules of the old ones |
| SchedulingStore.Store.RescheduleEntry | src/store/schedulingStore.ts:70-78 | the entries become Reschedule of the old ones |
| SchedulingStore.Store.AddWeather | src/store/schedulingStore.ts:80-84 | the reports become AddWeatherData of the old ones, and at most one report per date is kept |
| SchedulingStore.Store.AddRouteEntry | src/store/schedulingStore.ts:95-102 | the routes become AddRoute of the old ones, and at most one route per crew and date is kept |
| SchedulingStore.Store.AddMaintenanceWindow | src/store/schedulingStore.ts:108-112 | appends at the end and changes no other field |
| SchedulingStore.Store.UpdateMaintenanceWindow | src/store/schedulingStore.ts:114-120 | the windows become UpdateMaintenanceWindows of the old ones |
| SchedulingStore.RescheduleIsUpdate | src/store/schedulingStore.ts:70-78 | reschedule is updateSchedule with the new date, start time and rescheduled status |
| SchedulingStore.RescheduleMovesDate | src/store/schedulingStore.ts:70-78 | a rescheduled entry is found under its new date and under no other date |
| SchedulingStore.WeatherAfterAdd | src/store/schedulingStore.ts:80-93 | after adding a report, it is the report found for its date and decides that date's suitability; other dates are unaffected |
| SchedulingStore.SuitableIffReportsAgree | src/store/schedulingStore.ts:90-93 | with one report per date, a day is suitable iff no report for it says otherwise |
| SchedulingStore.RouteAfterAdd | src/store/schedulingStore.ts:95-106 | after adding a route, it is the route found for its crew and date; other crews and dates are unaffected |
| SchedulingStore.ActiveWindowsShrink | src/store/schedulingStore.ts:122-128 | as time passes, windows only drop out of the active list, which stays in order |
| SchedulingStore.UnknownIdIsNoop | src/store/schedulingStore.ts:48-120 | an id that no entry has leaves the schedules and the windows unchanged under update, delete and reschedule |
| SettingsStore.ToggleWidgets | src/store/settingsStore.ts:70-77 | widgets with the id flip enabled and keep every other field; the ids, length, order and other widgets are unchanged |
| SettingsStore.Settings.constructor | src/store/settingsStore.ts:53-60 | the initial state is light, normal contrast, English, the default widgets, no reduced motion, no screen-reader mode and medium font |
| SettingsStore.Settings.SetThemeMode | src/store/settingsStore.ts:63 | sets the theme mode and nothing else |
| SettingsStore.Settings.SetContrastMode | src/store/settingsStore.ts:64 | sets the contrast mode and nothing else |
| SettingsStore.Settings.SetLanguage | src/store/settingsStore.ts:65 | sets the language and nothing else |
| SettingsStore.Settings.SetReducedMotion | src/store/settingsStore.ts:66 | sets reduced motion and nothing else |
| SettingsStore.Settings.SetScreenReaderMode | src/store/settingsStore.ts:67 | sets screen-reader mode and nothing else |
| SettingsStore.Settings.SetFontSize | src/store/settingsStore.ts:68 | sets the font size and nothing else |
| SettingsStore.Settings.ToggleWidget | src/store/settingsStore.ts:70-77 | the widgets become ToggleWidgets of the old ones, and nothing else changes |
| SettingsStore.Settings.ReorderWidgets | src/store/settingsStore.ts:79 | the widget list is replaced as given, without checks, and nothing else changes |
| SettingsStore.Settings.ResetSettings | src/store/settingsStore.ts:81-90 | from any state, all seven fields return to the defaults, so a second reset changes nothing |
| SettingsStore.ToggleTwiceIsIdentity | src/store/settingsStore.ts:70-77 | toggling the same id twice restores the list |
| SettingsStore.ToggleUnknownIdIsNoop | src/store/settingsStore.ts:70-77 | toggling an id that no widget has changes nothing |
| SettingsStore.EnabledCountAfterToggle | src/store/settingsStore.ts:70-77 | the shown count loses the shown widgets with the id and gains the hidden ones |
| SettingsStore.DefaultWidgetsWellFormed | src/store/settingsStore.ts:43-48 | the default widgets are all shown, numbered by position, with distinct ids |

## Left out

- Timers: the five-minute `setInterval` of the monitor and its cleanup. One pass is modelled, and the interval is a constant.
- Persistence: the browser-storage persistence of the stores.
- Logging: the console output of the services and the monitor.
- Notification ids: the ids built from the clock and `Math.random`. They are parameters (`ids`, one per pothole).
- The clock: `new Date()` is the parameter `now`.
- Timestamps: ISO timestamp strings are integer milliseconds. Parsing, NaN for malformed dates, and the local-calendar `setDate` in `getDeadline` (affected by daylight saving) are not modelled; a day is always 86 400 000 ms.
- Filter dates: the `since` and `until` filters and a maintenance window's `endDate` are taken as already-parsed times.
- Floating point: severity, costs and amounts are `real`. JavaScript rounding in the cost sum is not modelled.
- E-mail: the e-mail body text, the `async` wrapping and the delivery (a console log) are not modelled. Only recipient, subject, type, pothole and time are kept.
- Priority strings: a priority string outside the four known values cannot be represented, because priority is an enumeration. The lookup's fallback is modelled for an absent priority.
- Patches: an update object with a key explicitly set to `undefined` is not modelled. A `Partial` update is a record of optional fields in which a present field overrides.
- Date strings: the stores' `YYYY-MM-DD` date strings are compared for equality only, as the source does.
- Sorting: `Array.prototype.sort` is modelled by its specification, a stable sort by rank. The lemmas prove it sorted, a permutation, stable and unique.
- Getters: the getters of the work-order and scheduling stores take the list they read as a parameter instead of reading the store.
- Pothole store setters: `setStats`, `setLoading` and `setError` only store their argument and are not modelled.
- Outside the core: rendering, the network client and the export utilities.
- StatusMessagesDistinct: states only that the three known statuses differ from the default message, not that they differ from each other.
- GetTotalCost: its own contract states only the empty case. The full sum is characterised by TotalCostAfterAdd (one log at a time) and TotalCostNonNegative.
- EscalationEmails: its own contract states only the length bound. Its content is tied to the notifications by EmailsMatchNotifications.
