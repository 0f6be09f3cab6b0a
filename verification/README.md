# HarborSync: a model of two components and what is proved of it

HarborSync is a set of small services around a container port, with a report about itself. This
project models its two least simple parts and proves properties of the model for all inputs and all
runs.

**The report compiler** (`reports/build_report.py`) turns a small Markdown dialect into HTML. The
model follows the program function by function: `Html` and `Inline` are the escaping and the two
substitutions, `Slug` the anchors, `Segments` and `Blocks` the declared meaning of a document,
`Renderer` the line-driven loop that is proved to compute it, `Headings` the two walks that have to
agree on heading ids, `Strays` the documents in which they do not, `Contents` the contents list and
its insertion. `Nesting` and `Layout` are about well-nested tags, `Tags`, `Decoder` and `Readback`
about reading the HTML back.

**The port services** pass a drone reading on as an alert, the alert on as a task, and reserve a
berth on the way. `Telemetry` and `Rules` are the pure decisions, `Broker` the routing, `Fleet` the
vessel service's transactions with its event log. `Port` is the machine of all services together:
one global state, and steps whose labels hold everything the outside decides (does the broker accept,
does a call arrive, is its answer seen, does a commit succeed). `Conservation`, `Notices`,
`Reservations`, `Tasks` and `Provenance` prove what every step keeps, `Runs` what follows for whole
runs, `Progress` that the services come to rest. `Vessels`, `Intake`, `Assignment` and `Notifier` are
the services as objects, with methods proved to take the steps of the machine; `Delivery` joins the
last of them to it.

## What the model settles

- A transaction is atomic, and a publish that throws rolls it back. A commit may still fail after an
  accepted publish; the event log of `Fleet` keeps that apart. A publish that throws has enqueued
  nothing. The late effect of a call that timed out is placed at the call.
- Alerts are handled one at a time (the listener container has its default concurrency), but every
  other step may come between two steps of a handling.
- The listener retry in `task-assignment-service/src/main/resources/application.yml` is not modelled
  as active: the container factory is built by hand in `RabbitMqConfig.java`, which does not read it,
  so an exception rejects the message at once and the broker dead-letters it.
- Go's `strings.TrimSpace` and Spring's `hasText` are two predicates, not one, because they differ;
  `Rules.AcceptedAlertRefusedIff` says where that shows.
- The fill rate is an exact rational. Identifiers come from counters that never repeat. Timestamps
  are left out, except that a completion time is a parameter.
- The list call may answer with the empty list at any time. A reservation may not happen, happen, or
  happen without the caller knowing.
- Case mapping is modelled as far as the constants it is compared with need it (ASCII letters, and
  the characters `\u0131`, `\u017F` and `\u0130` that map into them). The class `\d` and the fold
  to lower-case ASCII are parameters of the report compiler.
- The retry bound of the notification service assumes a broker that raises `x-delivery-count` by one
  on every requeue. Its queues are declared without a queue type, so this is an assumption. In `Port`
  a notification message is acknowledged or dead-lettered in one step; `Notifier` has the attempts,
  and `Delivery` shows that its deliveries are steps of `Port` and that the steps of the others are
  arrivals to it.
- A task event holds the task it was made from; the code's events carry parts of it (sector, unit and
  priority, or sector and a reason).
- The history fields of `Port` record what happened; no step reads them.

## What the code does not do, and where that is stated

- The last event about a vessel can be false: `Fleet.LogMisleads`, with the exact condition in
  `Fleet.HeardStep` for one request and in `Fleet.HeardIff` and `Runs.RunHears` for whole runs.
- An alert for an accepted reading can be refused as blank: `Rules.AcceptedAlertRefused`, with the
  exact condition in `Rules.AcceptedAlertRefusedIff`.
- A severity can earn a crane and still have low priority: `Rules.SeverityTestsAgree` says which one.
- A `task.created` may announce a task that was never committed, and compensation forgets the berth:
  `Assignment.HandledRow`, `Assignment.HandledVessels`.
- Inline tags can misnest: `Nesting.InlineMisnests`, with the exact condition in
  `Nesting.InlineNestsIff`.
- A contents link can lead nowhere, and a heading can carry the slug of another line:
  `Strays.LinkLeadsNowhere` and `Strays.HeadingTakesOtherSlug`, with the exact conditions in
  `Headings.LinkResolvesIff` and `Headings.OwnSlugIff`.
- A dead notification was processed twice, while the log line speaks of three attempts:
  `Notifier.FreshBound`.

## Model

| member | source | states |
|---|---|---|
| Html.EscapeIsEntityMap | reports/build_report.py:19 | Five replacements in sequence, ampersand first, are the same as replacing each character by its entity once. |
| Html.EscapeLeavesNoMarkup | reports/build_report.py:19 | Escaped text has no raw `<`, `>` or quote left, whatever the text. |
| Html.UnescapeEscape | reports/build_report.py:19 | Undoing the five entities returns the text, for every text. |
| Inline.InlineRoundTrip | reports/build_report.py:18-22 | Mapping the inserted tags back to their delimiters and undoing the entities returns the text, for every text, also where the tags misnest. |
| Inline.InlineInjective | reports/build_report.py:18-22 | Two texts with the same markup are the same text. |
| Nesting.BoldPassNests | reports/build_report.py:21 | The second substitution leaves the nesting of a text with code tags as it was, or breaks it from every stack of open tags. |
| Nesting.InlineNestsIff | reports/build_report.py:18-22 | Inline markup is well nested if and only if every span the bold pass matches holds only whole code spans. |
| Nesting.NoStarSuffices | reports/build_report.py:20-21 | If no matched code span holds a `*`, no bold span cuts a code span. |
| Nesting.InlineNests | reports/build_report.py:18-22 | So inline markup nests when no matched code span holds a `*`. |
| Nesting.InlineMisnests | reports/build_report.py:18-22 | The side condition is needed: a code span with `**` in it followed by a later `**` misnests, for a whole family of texts. |
| Slug.FreeSuffix | reports/build_report.py:29-33 | The least suffix from a start on whose candidate is unused: it is unused, and every smaller one is used. |
| Slug.SlugFor | reports/build_report.py:28-35 | The answer is never among the used names. |
| Slug.SlugBase | reports/build_report.py:26-28 | The base is in `[a-z0-9]+(-[a-z0-9]+)*` whatever the folded text, thanks to the fallback word. |
| Slug.CandidateInjective | reports/build_report.py:32 | Different counters give different candidates. |
| Slug.SuffixBounded | reports/build_report.py:31-33 | Pigeonhole: a set of used names blocks at most as many suffixes as it has members. |
| Slug.Registry.Slugify | reports/build_report.py:25-35 | The loop returns the base, or the base with the least unused suffix from 2, adds exactly it to the set, and tests at most one name more than the set holds. |
| Slug.SlugsDistinct | reports/build_report.py:31-35 | Over any sequence of titles the slugs are pairwise distinct and all of slug form. |
| Segments.SpanUnique | reports/build_report.py:118-181 | A maximal span is determined by its first line. |
| Segments.SegmentationUnique | reports/build_report.py:118-181 | The spans the walk finds are the one partition of the lines, in order, into maximal fences, tables, runs of items, runs of plain lines, and single blanks, captions and headings: a list of spans is such a partition if and only if it is the one found. |
| Renderer.CollectRows | reports/build_report.py:69-74 | The row loop keeps the stripped cells of every line that is not a rule row, in order. |
| Renderer.RenderTable | reports/build_report.py:68-94 | The loop over rows and cells emits head, body and closing tokens of the declared table, and the empty string for a table of rules only. |
| Renderer.RenderMarkdown | reports/build_report.py:97-185 | The loop with its two buffers, look-ahead and inner loops terminates and returns the rendering of the declared segmentation; its invariant says that the two buffers are never both in use. |
| Renderer.RenderFence | reports/build_report.py:122-132 | The inner fence loop takes the lines up to the next fence line or the end, and skips the closing line. |
| Renderer.RenderTableAt | reports/build_report.py:140-148 | The inner table loop takes the whole run of pipe lines. |
| Headings.CollectToc | reports/build_report.py:38-56 | The loop over all lines yields the contents entries and the dictionary of the collected headings. |
| Headings.KeyInjective | reports/build_report.py:51 | The key `level:title:index` determines all three, although a title may hold colons. |
| Headings.LookupIs | reports/build_report.py:163-165 | The k-th rendered heading finds an id exactly when the k-th collected heading is the same heading, and then finds the k-th slug. |
| Headings.Balance | reports/build_report.py:44-52 | Up to any block, headings collected plus level-4 headings rendered equal headings rendered plus heading look-alikes inside fences. |
| Headings.IdAt | reports/build_report.py:157-167 | Which id each rendered heading carries, for every document. |
| Headings.AnchorsDistinct | reports/build_report.py:157-167 | No two headings of any document share an id, with no side condition. |
| Headings.OwnSlugIff | reports/build_report.py:44-52 | A heading carries the slug made for its own line if and only if as many level-4 headings as fenced look-alikes stand before it, so all headings before the first such line do. |
| Headings.LinkResolvesIff | reports/build_report.py:59-65 | A contents link leads to some heading if and only if the heading rendered under that number has the same level and title. |
| Strays.DeepBreaksLink | reports/build_report.py:59-65 | In every document of a level-4 heading followed by one of level 1 to 3, the one slug made is no rendered id. |
| Strays.LinkLeadsNowhere | reports/build_report.py:59-65 | So the contents link of the two lines `#### a` and `## b` leads nowhere. |
| Strays.FencedTakesSlug | reports/build_report.py:157-167 | In every document of a heading look-alike in a fence followed by the same line outside, the rendered heading carries the slug made for the fenced line, and the slug made for its own line is no id. |
| Strays.HeadingTakesOtherSlug | reports/build_report.py:157-167 | So does the heading `# a` after a fence that holds the line `# a`. |
| Headings.AllLinksResolve | reports/build_report.py:38-56 | With no level-4 heading and no fenced look-alike every collected slug is the id of a rendered heading. |
| Tags.InlineSealed | reports/build_report.py:18-22 | User text cannot end a block: its markup contains no block tag, whatever the text. |
| Tags.FindAfter | reports/build_report.py:296 | After a text without the tag, the first occurrence of the tag is where it was put. |
| Decoder.OneBack | reports/build_report.py:79-94 | One rendered block, whatever follows it, is read back as that block and leaves the rest. |
| Decoder.BodyRoundTrip | reports/build_report.py:97-185 | A decoder over the final string returns exactly the normalised block list: heading level, title and id, cells, items, paragraph, caption and fenced text. |
| Decoder.BodyInjective | reports/build_report.py:97-185 | Rendering is injective on normalised block lists. |
| Contents.RenderToc | reports/build_report.py:59-65 | The loop emits one entry per contents line, in order, between fixed lines. |
| Contents.InsertAfterHeading | reports/build_report.py:296 | The list lands directly after the first level-1 heading, and everything else stays in place. |
| Contents.InsertNowhere | reports/build_report.py:296 | Without a level-1 heading outside fences the body is unchanged. |
| Contents.BuildBody | reports/build_report.py:293-296 | The three stages together, for any text: the body is the rendering of its blocks, with the contents list after the first level-1 heading if there is one. |
| Contents.ReportReadable | reports/build_report.py:163-167 | Every block of every document is one the decoder can read: ids hold no markup, levels are 1 to 4. |
| Contents.ReportRoundTrip | reports/build_report.py:97-185 | The rendering of any text can be read back to its blocks. |
| Contents.TocIs | reports/build_report.py:53-54 | The contents list names exactly the collected headings of level 2 and 3, each once, in order, and each with its own slug. |
| Contents.TocLinkResolves | reports/build_report.py:61-63 | With no level-4 heading and no fenced look-alike every contents link has exactly one target. |
| Readback.EntryBack | reports/build_report.py:63 | One line of the contents list, whatever follows, is read back as its entry: level, title and slug. |
| Readback.TocBack | reports/build_report.py:59-65 | The contents list is read back as its entries, all of them, in order. |
| Readback.BodyReadsBack | reports/build_report.py:293-296 | Whatever the text, the body that goes into the page reads back as its blocks with the contents list right after the first heading of level 1, or as its blocks alone if there is none. |
| Layout.InlineRuns | reports/build_report.py:18-22 | The machine for whole documents does on inline markup what the machine for inline tags does. |
| Layout.ActsBlock | reports/build_report.py:105-167 | One rendered block leaves any outer stack of open tags as it found it, or, if an inline text in it misnests, breaks it for good. |
| Layout.DocumentNestsIff | reports/build_report.py:97-185 | Every document nests at block level; it nests in full if and only if each of its inline texts does. |
| Layout.DocumentNests | reports/build_report.py:97-185 | So it nests in full when no matched code span holds a `*`. |
| Layout.ReportNestsIff | reports/build_report.py:293-296 | The same for the body with the contents list in it, whose entries count only if the list is inserted. |
| Blank.BlankGap | telemetry-service/main.go:187-192 | Exactly which strings have text for the Go service and none for the Java services: white space with an information separator in it and no no-break space or next-line. |
| Telemetry.FillInRange | telemetry-service/main.go:162-165 | The fill rate of an accepted payload lies between 0 and 1. |
| Telemetry.FillMonotone | telemetry-service/main.go:165 | More containers or less capacity never lowers the fill rate. |
| Intake.TelemetryService.ValidateTelemetry | telemetry-service/main.go:186-206 | The cascade of checks answers the first that fails, and none if and only if the payload is acceptable. |
| Intake.TelemetryService.HandleIngest | telemetry-service/main.go:145-184 | Bad request if and only if refused; accepted if and only if exactly one message went out, which carries the answered correlation id, the sector and a rate in range; the id is not empty if the generated one is not. |
| Rules.Ranks | congestion-analysis/src/main/java/com/harborsync/congestionanalysis/service/CongestionRuleEngine.java:33-46 | Unit kind and priority as a function of blockage and the two thresholds, through both services' string tests. |
| Rules.UrgencyMonotone | task-assignment-service/src/main/java/com/harborsync/taskassignment/service/TaskAssignmentService.java:142-157 | From accepted payload to unit kind and priority: more containers or less capacity never makes the answer less urgent, for any thresholds. |
| Rules.AcceptedAlertRefusedIff | task-assignment-service/src/main/java/com/harborsync/taskassignment/service/TaskAssignmentService.java:159-169 | An alert raised for an accepted payload is refused by the task service if and only if its sector is white space that Go takes for text. |
| Rules.AcceptedAlertRefused | task-assignment-service/src/main/java/com/harborsync/taskassignment/service/TaskAssignmentService.java:159-169 | A payload for which that happens, so the promise that every such alert passes fails. |
| Rules.SeverityTestsAgree | task-assignment-service/src/main/java/com/harborsync/taskassignment/service/TaskAssignmentService.java:153-180 | The severity test behind the unit and the one behind the priority agree on every string but one word: a severity that earns a crane has high priority unless its I carries a dot. |
| Rules.FirstBerth | task-assignment-service/src/main/java/com/harborsync/taskassignment/service/TaskAssignmentService.java:143-147 | The first berth with text, or none if and only if no berth has any. |
| Intake.CongestionService.OnTelemetryReceived | congestion-analysis/src/main/java/com/harborsync/congestionanalysis/messaging/consumer/TelemetryConsumer.java:26-38 | The listener takes the first reading of its queue and throws if and only if an alert was due and not taken; then, and only then, the reading is dead-lettered; otherwise the alert, if one was due, is published. Queue and published alerts are those of the machine after one analysis step. |
| Fleet.TransactAnnounces | vessel-service/src/main/java/com/harborsync/vessel/service/VesselService.java:47-50 | A transaction keeps the agreement between table and log, also when its publish throws or its commit fails. |
| Fleet.ServeKeeps | vessel-service/src/main/java/com/harborsync/vessel/service/VesselService.java:33-120 | Every request, whatever becomes of it, keeps IMO numbers unique and the last committed announcement of an announced status equal to the row. |
| Fleet.ServeAllKeeps | vessel-service/src/main/java/com/harborsync/vessel/service/VesselService.java:33-120 | So does any sequence of requests. |
| Fleet.HeardStep | vessel-service/src/main/java/com/harborsync/vessel/messaging/producer/VesselLifecycleProducer.java:25-44 | After any request, what was last heard of a vessel is true if and only if the request did not mislead, where it decides, and is as true as before where it does not. It misleads when the event goes out, the commit fails, and the row that stays is an announced one different from the row asked for. |
| Fleet.HeardIff | vessel-service/src/main/java/com/harborsync/vessel/service/VesselService.java:33-120 | Over any run of requests: a vessel was last heard of as what it is if and only if no request misled about it or a later one set it right. |
| Fleet.LogIsTrue | vessel-service/src/main/java/com/harborsync/vessel/messaging/producer/VesselLifecycleProducer.java:25-53 | When no commit fails after an accepted publish, every announced vessel was last heard of as what it is. |
| Fleet.LogMisleads | vessel-service/src/main/java/com/harborsync/vessel/messaging/producer/VesselLifecycleProducer.java:25-44 | A concrete run whose last event is false: a status change whose commit fails after its event was accepted. |
| Vessels.VesselService.Publish | vessel-service/src/main/java/com/harborsync/vessel/messaging/producer/VesselLifecycleProducer.java:25-53 | Silent for BERTHED and DEPARTING, otherwise one event or an exception. |
| Vessels.VesselService.Register | vessel-service/src/main/java/com/harborsync/vessel/service/VesselService.java:33-52 | The object performs the specified registration, conflict included. |
| Vessels.VesselService.UpdateStatus | vessel-service/src/main/java/com/harborsync/vessel/service/VesselService.java:75-90 | The object performs the specified change of status, with the berth only if one is given. |
| Vessels.VesselService.ReserveBerth | vessel-service/src/main/java/com/harborsync/vessel/service/VesselService.java:92-105 | The object performs the specified reservation. |
| Vessels.VesselService.ReleaseBerth | vessel-service/src/main/java/com/harborsync/vessel/service/VesselService.java:107-120 | The object performs the specified release, rolled back if the publish throws. |
| Vessels.VesselService.ListByStatus | vessel-service/src/main/java/com/harborsync/vessel/service/VesselService.java:61-66 | The answer holds the rows of the status, all of them, each once. |
| Conservation.KilledIs | task-assignment-service/src/main/java/com/harborsync/taskassignment/config/RabbitMqConfig.java:100-115 | What each step sends to the dead letters, and that nothing else does. |
| Conservation.ReadingsStep | congestion-analysis/src/main/java/com/harborsync/congestionanalysis/messaging/consumer/TelemetryConsumer.java:26-38 | Every step keeps: readings accepted = waiting + nominal + alarming + dead, message by message. |
| Conservation.AlertsStep | task-assignment-service/src/main/java/com/harborsync/taskassignment/service/TaskAssignmentService.java:47-126 | Every step keeps: alerts published = waiting + in hand + handled + dead, message by message, with as many rows as handled alerts. |
| Conservation.UnreadStep | congestion-analysis/src/main/java/com/harborsync/congestionanalysis/config/RabbitMqConfig.java:58-67 | Every step keeps: the queue nobody reads holds all alerts ever published, in order. |
| Conservation.DeadStep | notification-service/consumer.py:162-174 | Every step keeps: everything dead-lettered waits on the dead-letter queue or was logged. |
| Conservation.AlertsOfStep | congestion-analysis/src/main/java/com/harborsync/congestionanalysis/messaging/consumer/TelemetryConsumer.java:34 | Every step keeps: the published alerts are the evaluations of the alarming readings, one each, in order. |
| Runs.InvariantRun | task-assignment-service/src/main/java/com/harborsync/taskassignment/service/TaskAssignmentService.java:47-126 | Any legal run, of any length and interleaving, keeps all invariants together. |
| Runs.RunConserves | congestion-analysis/src/main/java/com/harborsync/congestionanalysis/config/RabbitMqConfig.java:39-67 | Nothing is lost or doubled over any run, in numbers: readings, alerts, the unread queue, the dead letters. |
| Reservations.ChoiceIsFirst | task-assignment-service/src/main/java/com/harborsync/taskassignment/service/TaskAssignmentService.java:54-57 | The vessel to reserve is the first listed one with text in its berth. |
| Reservations.UnitNamesBerth | task-assignment-service/src/main/java/com/harborsync/taskassignment/service/TaskAssignmentService.java:142-157 | The two searches agree: the unit is named after the berth of the very vessel that is to be reserved. |
| Reservations.HoldsStep | task-assignment-service/src/main/java/com/harborsync/taskassignment/service/TaskAssignmentService.java:59-123 | Every step keeps: acknowledged reservations = kept + given up + leaked + in hand, at most one per handling. |
| Reservations.ReleaseEffect | vessel-service/src/main/java/com/harborsync/vessel/service/VesselService.java:107-120 | A release takes effect if and only if its call arrives, the broker takes the event and the commit succeeds; then the vessel is arriving without a berth. |
| Reservations.DrainingStep | task-assignment-service/src/main/java/com/harborsync/taskassignment/service/TaskAssignmentService.java:51-70 | Every step but a foreign request keeps: what took effect was a candidate at the start and is none now; candidates never grow. |
| Runs.RunReserves | task-assignment-service/src/main/java/com/harborsync/taskassignment/service/TaskAssignmentService.java:59-123 | Over any run: acknowledged reservations = those whose `task.created` was accepted + release attempts + those whose save failed + the one in hand, and each has its own handling. |
| Runs.RunReleases | task-assignment-service/src/main/java/com/harborsync/taskassignment/service/TaskAssignmentService.java:98-107 | In any reachable state, the compensating release takes effect under exactly that condition; the vessel is always still there. |
| Runs.RunDrains | task-assignment-service/src/main/java/com/harborsync/taskassignment/service/TaskAssignmentService.java:51-70 | Over any run without other vessel requests: each vessel is reserved at most once, and reservations number at most the candidates used up. |
| Tasks.TasksStep | task-assignment-service/src/main/java/com/harborsync/taskassignment/service/TaskAssignmentService.java:72-140 | Every step keeps the agreement of each row, and of the task in hand, with the events about it. |
| Tasks.LaterStep | task-assignment-service/src/main/java/com/harborsync/taskassignment/service/TaskAssignmentService.java:133-140 | No step loses or rewrites a row, and the only change of status is to completed. |
| Tasks.EventsStep | task-assignment-service/src/main/java/com/harborsync/taskassignment/service/TaskAssignmentService.java:84-91 | Every step keeps: the task an event was made from agrees with the row it names in sector, type, unit, priority and correlation id. |
| Runs.RunTells | task-assignment-service/src/main/java/com/harborsync/taskassignment/service/TaskAssignmentService.java:72-140 | Over any run: a pending row had exactly one `task.created` and no `task.failed`, a failed row none and at most one; a completion time is set if and only if the status is completed; no row is in progress. |
| Runs.RunForward | task-assignment-service/src/main/java/com/harborsync/taskassignment/service/TaskAssignmentService.java:133-140 | From any moment of a run to any later one: no row is lost or rewritten, and completed is never left. |
| Provenance.RowsStep | task-assignment-service/src/main/java/com/harborsync/taskassignment/service/TaskAssignmentService.java:72-80 | Every step keeps rows and handled alerts in one-to-one correspondence, each row describing its alert. |
| Provenance.RowTraced | task-assignment-service/src/main/java/com/harborsync/taskassignment/service/TaskAssignmentService.java:72-80 | From the invariants: behind a row stands an accepted reading whose evaluation is the alert the row describes. |
| Runs.RunTraces | task-assignment-service/src/main/java/com/harborsync/taskassignment/service/TaskAssignmentService.java:72-80 | Over any run: every row carries the correlation id, sector, type, priority and unit kind of the evaluation of some accepted reading, and that alert passed validation. |
| Runs.RunAnnounces | vessel-service/src/main/java/com/harborsync/vessel/service/VesselService.java:33-120 | Any run keeps IMO numbers unique and the log in agreement with the vessel table. |
| Runs.RunServes | vessel-service/src/main/java/com/harborsync/vessel/service/VesselService.java:33-120 | Seen from the vessel service, any run of the whole machine is the run of the requests in it. |
| Runs.RunHears | vessel-service/src/main/java/com/harborsync/vessel/messaging/producer/VesselLifecycleProducer.java:25-53 | In any run of the machine: a vessel was last heard of as what it is if and only if no request misled about it or a later one set it right. |
| Runs.StepMisleads | task-assignment-service/src/main/java/com/harborsync/taskassignment/service/TaskAssignmentService.java:98-107 | Of the steps of the services only the compensating release can make the log false, and exactly when its commit fails after its event and the vessel had meanwhile been announced as something else. |
| Assignment.HandledRuns | task-assignment-service/src/main/java/com/harborsync/taskassignment/service/TaskAssignmentService.java:47-126 | One uninterrupted handling is a legal run of the machine and ends where the machine does, for every combination of failures. |
| Assignment.HandledRow | task-assignment-service/src/main/java/com/harborsync/taskassignment/service/TaskAssignmentService.java:72-126 | A handling ends with one row or one dead letter, never both; created and failed events exactly as the failures dictate; an event may be out for a row that was never committed. |
| Assignment.HandledVessels | task-assignment-service/src/main/java/com/harborsync/taskassignment/service/TaskAssignmentService.java:59-107 | What a handling does to the vessels: nothing, a berthed vessel, or after compensation an arriving vessel whose berth is forgotten. |
| Assignment.TaskAssignmentService.ArrivingVessels | task-assignment-service/src/main/java/com/harborsync/taskassignment/client/VesselServiceClient.java:26-39 | A complete listing, or the empty list of the fallback. |
| Assignment.TaskAssignmentService.ReserveBerth | task-assignment-service/src/main/java/com/harborsync/taskassignment/client/VesselServiceClient.java:41-49 | The call may take effect without the caller knowing; it throws for anything but a timely good answer. |
| Assignment.TaskAssignmentService.ReleaseBerth | task-assignment-service/src/main/java/com/harborsync/taskassignment/client/VesselServiceClient.java:51-58 | The call may take effect without the caller knowing; it throws for anything but a timely good answer. |
| Assignment.TaskAssignmentService.Compensate | task-assignment-service/src/main/java/com/harborsync/taskassignment/service/TaskAssignmentService.java:93-120 | The catch block does the release and report steps of the machine. |
| Assignment.TaskAssignmentService.SaveAndPublish | task-assignment-service/src/main/java/com/harborsync/taskassignment/service/TaskAssignmentService.java:72-126 | From the new task to the end of the transaction, as the machine does it. |
| Assignment.TaskAssignmentService.HandleAlert | task-assignment-service/src/main/java/com/harborsync/taskassignment/service/TaskAssignmentService.java:47-126 | The method with the listener around it does exactly the handling of the machine; it throws if and only if the alert is dead-lettered. |
| Assignment.TaskAssignmentService.CompleteTask | task-assignment-service/src/main/java/com/harborsync/taskassignment/service/TaskAssignmentService.java:133-140 | Exactly the named row becomes completed with the given time, or nothing changes. |
| Assignment.TaskAssignmentService.Client | vessel-service/src/main/java/com/harborsync/vessel/service/VesselService.java:33-120 | A request of somebody else to the vessel service, between handlings, moves object and machine alike. |
| Assignment.Evening | task-assignment-service/src/main/java/com/harborsync/taskassignment/service/TaskAssignmentService.java:93-120 | What a handling leaves when the broker refuses `task.created` and everything else works: a failed task whose unit names the berth, and the vessel arriving again without it. |
| Assignment.Afternoon | task-assignment-service/src/main/java/com/harborsync/taskassignment/service/TaskAssignmentService.java:47-126 | The same from nothing: a client registers a vessel, a reading comes in and raises an alert, and the service object handles it. |
| Notifier.MeasureDrops | notification-service/consumer.py:48-73 | Every delivery and every logged dead letter lowers the summed measure. |
| Notifier.RunsEnd | notification-service/consumer.py:48-73 | The deliveries of a run, whatever arrives in it, are bounded by the measure of where it began and of what arrived. |
| Notifier.CountedStep | notification-service/consumer.py:40-73 | Every step, arrivals included, keeps: the header tells the runs so far, an acknowledged message ran within its allowance, a dead one used it up. |
| Notifier.RunsKeep | notification-service/consumer.py:48-73 | Any run keeps that, and keeps the messages: what there is at the end is what there was and what arrived. |
| Notifier.Drained | notification-service/consumer.py:48-73 | A run with nothing left to deliver has emptied the queues; every message, there from the start or arrived since, ended acknowledged or dead-lettered and logged, in one place. |
| Notifier.FreshBound | notification-service/consumer.py:40-60 | At any time in any run, whatever has arrived: fresh messages have been processed at most twice, and exactly twice if they are dead, while the log line says three attempts. |
| Notifier.NotificationService.HandleWithRetry | notification-service/consumer.py:48-73 | One call of the handler is one delivery step. |
| Notifier.NotificationService.HandleDlq | notification-service/consumer.py:162-174 | One call of the dead-letter handler is one logging step. |
| Notifier.NotificationService.Receive | notification-service/consumer.py:242-248 | A message from elsewhere is one arrival step: on its queue if that is one of the six, else among the dead. |
| Delivery.StepShows | notification-service/consumer.py:48-73 | Every delivery, with its attempts and requeues, is at most one step of the machine of all services, and leaves the queues in agreement. |
| Delivery.RunShows | notification-service/consumer.py:48-73 | Every run of deliveries is a run of that machine, ending in agreement: queues, dead letters and log. |
| Delivery.ElsewhereShows | notification-service/consumer.py:242-248 | Between deliveries, every step of another service is to the notification service the arrival of messages, and the agreement holds again. |
| Notices.Carried | notification-service/consumer.py:242-248 | Whatever a step of another service puts on a queue of the notification service, it puts at the end, and it is the alert, task event or vessel event that was sent. |
| Notices.NoticeStep | notification-service/consumer.py:242-248 | Every step keeps, for each of the six queues, message by message: sent = waiting + read + dead + from before. |
| Notices.RunNotifies | notification-service/consumer.py:242-248 | So does any run: every alert, task event and vessel event that was sent waits, was read or is dead. |
| Progress.WorkDrops | task-assignment-service/src/main/java/com/harborsync/taskassignment/config/RabbitMqConfig.java:100-108 | Every step the services take of their own accord leaves less to do. |
| Progress.RunsStop | task-assignment-service/src/main/java/com/harborsync/taskassignment/config/RabbitMqConfig.java:100-108 | Left to themselves, with no new readings or requests, they take at most as many steps as there is work, whatever fails. |
| Progress.RestIsReachable | task-assignment-service/src/main/java/com/harborsync/taskassignment/service/TaskAssignmentService.java:47-126 | From every state they can reach one with nothing in hand and no message in any queue that has a reader. |
| Progress.RunSettles | congestion-analysis/src/main/java/com/harborsync/congestionanalysis/config/RabbitMqConfig.java:39-67 | They stop only there; then, message by message, the accepted readings are the nominal ones, the alarming ones and those in the log of the dead, and the alerts are the handled ones, with a row each, and those in that log. |

## Left out

- HTTP and JSON handling, request validation annotations, logging, the Redis write of the telemetry service, the style sheet and page frame around the body, file output and the Chrome call.
- The gateway, token checking and rate limiting, the drone simulator, deployment files and the handbook's code samples.
- Null alerts and null strings other than berth and ETA; a status update always names a status.
- Binary floating point: the division and the comparisons with the thresholds are exact.
- Concurrent handlings, and concurrent transactions on one vessel row: handlings and transactions are serial here.
- The internals of RabbitMQ, PostgreSQL, Spring and Resilience4j, crashes of a service between two of its effects, and redelivery after a lost connection.
- Berth exclusivity, idempotence under redelivery and guarded status transitions: the code does not implement them.
- Rules.UrgencyMonotone: the fill rate is an exact rational, so rounding near a threshold is not covered.
- Notifier.Drained: holds for a broker that counts redeliveries; on one that does not, a failing message is processed without end.
- Runs.RunDrains: speaks of runs without other vessel requests, since a status update can make any vessel a candidate again.
- Runs.RunHears: the vessel table at the start must already agree with its log, as the empty one does; vessels in a status without announcement are not spoken of, as their changes are never sent.
- Progress.RunsStop: counts steps, not time; a call that never answers is a step that never comes.
- Assignment.TaskAssignmentService.Client: other requests reach the object between two handlings only; between two effects of one handling they are steps of the machine.
- Assignment.TaskAssignmentService.HandleAlert: the queues of vessel events live in the machine only; the object holds the vessel service's log instead.
