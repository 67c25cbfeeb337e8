# Statusnook: a verified model

Statusnook serves a status page. This project models the parts of it that are
state machines or reconcilers rather than page plumbing, and proves what they
promise.

* **The config reconciler** (`SlugGrammar`, `Tables`, `Store`, `Config`,
  `Reconciler`, `References`, `Rename`, `Apply`). `applyConfig` drives a
  relational store to a declared file: a rename pass, the instance name, then
  five stages that delete by omission, edit in place, create, and re-link. The
  tables are maps from row id to row with the constraints and cascades of
  `schema.sql`; a Go map is visited in an arbitrary order; ids of deleted rows can
  come back, as SQLite's do. `Effects` tells row by row and column by column what a
  run does to the store, `Reports` which messages it gives, for any file, valid or
  not. `Acceptance` says when a file draws no message,
  `Convergence` and `Reapply` what runs leave behind, `Runs` that every store and
  file has a run, `Validate` what the offline validator's verdict is worth,
  `Generate` and `RoundTrip` that the export is an inverse, `Webhook` that GitHub
  deliveries, the editor and the settings form keep the recorded SHA truthful, and
  `WebhookResults` what a save or a delivery leaves in the tables.
  `Counterexamples` and `WebhookRaces` hold the inputs and the interleavings on
  which a promise fails.
* **The monitor loop** (`Checks`, `CheckHistory`, `Scheduler`): the retry loop and
  the alert rule of one check; the log tables of many monitors under checks and
  pruning; the interleaving of the ticking loop with the check goroutines.
* **The notification queue** (`Notifications`, `Retention`): publish, drain, stamp,
  prune and cascade, and the batched deletes.
* **Smaller algorithms** (`Paging`, `Grouping`, `Severity`, `Limiter`).

Code that works step by step is a method with loops, on a class where the source
updates an object or a database transaction, proved against a relation or a
function; the theorems are lemmas about those. Concurrent code is a set of steps
over a state, and the theorems are about every run. Library routines (Unicode,
URLs, addresses, form encoding) are the fields of `Prelude.Lib`: every theorem
holds for any choice of them, and the few laws needed are stated where they are
used.

`dafny verify dfyconfig.toml` checks the whole project.

## Where the code and its promises part

Each of these is proved. Where the lemma named first says if and only if, its
condition is the exact one.

* A channel that the file gives another type keeps its old one, silently
  (`Convergence.Converges`, `Counterexamples.TypeChangeIgnored`).
* Rename entries that collide make the outcome depend on Go's map order, so a
  chain of renames passes or fails by chance (`Rename.OrderFreeIffIndependent`,
  `Counterexamples.ChainVerdictDepends`).
* `docs/configuration.md` says the validator exits 0 when the config would apply
  cleanly. It refuses to rename a service to `website`, the slug of the row that
  its own schema inserts (`Validate.ValidatorExact`,
  `Counterexamples.WebsiteFileFits`).
* An export keeps the first value of each key of a form. When the program wrote
  the forms, all bytes survive if and only if no form repeats a key
  (`RoundTrip.RoundTripBytes`). A raw body that some request stored as a form
  survives if and only if it is what the encoder writes for one value per key
  (`RoundTrip.BodyBytes`).
* The recorded SHA is truthful in every run that keeps four rules
  (`Webhook.ShaConsistent`), and the code enforces none of them. For each there is a
  run that breaks it in one step, keeps all four otherwise, and ends with a SHA that
  no longer describes the tables (`WebhookRaces.EachRuleMatters`): a delivery that
  begins after the settings are committed and before the flag is stored
  (`WebhookRaces.BeginsEarly`); a delivery in flight while management is switched
  off (`WebhookRaces.SwitchedOff`); an admin edit that passed the gate before it
  closed and commits after a delivery (`WebhookRaces.LateEdit`); and two settings
  saves that commit in one order and store their flags in the other, which leaves
  the gate of a managed instance open until the next restart
  (`WebhookRaces.FlagsCross`).
* Announcements are the changes of a monitor's state if and only if every check
  is told how the one before it went (`CheckHistory.DecisionsAreChanges`). Two
  things can hide that. A status code of `000` is a success stored as NULL, and the
  outage after it is not announced (`CheckHistory.OutageUnheard`). Pruning the log
  of a failed check, as after a long time switched off, takes the reference to it
  along: the outage is announced again, or its end never is
  (`CheckHistory.DownTwice`, `CheckHistory.RecoveryUnheard`).
* SQLite reuses the id of the newest monitor once it is deleted. A check in flight
  for it then files its log under the next monitor, and that one's channels hear
  of an outage it did not have (`Scheduler.StrangeAlert`). The logs are those of
  their own monitors if and only if no check commits for another
  (`Scheduler.LogsTruthful`), and only the newest monitors are exposed
  (`CheckHistory.OwnerStays`).
* A poll that finds more new logs than its limit shows the newest of them, and no
  later poll shows the others (`Paging.PollSkips`).
* SQLite reuses the id of a deleted newest row, so a drain can stamp a
  notification it never delivered (`Notifications.HonestRun`,
  `Notifications.LostNotification`).
* Deleting an alert does not recompute the page's severity
  (`Severity.DeleteStale`).

## Model

| member | source | states |
|---|---|---|
| `SlugGrammar.CandidatesDiffer` | db.go:523-531 | the slugs tried on different attempts are different, so trying can stop |
| `SlugGrammar.CandidateIsWords` | db.go:519-536 | the first slug tried is the words of the lower-cased name joined by dashes, later ones append the attempt, and a name without words gives numbers |
| `SlugGrammar.GenerateSlug` | db.go:519-539 | returns the first candidate that is not taken, and needs at most one attempt more than there are taken slugs |
| `SlugGrammar.GeneratedSlugLegal` | configapply.go:20 | a generated slug is a legal config key if and only if every letter of the lower-cased name is in category Ll |
| `SlugGrammar.BackfillSlugs` | db.go:467-486 | every id gets exactly one slug, no slug is shared, and each is the first candidate that no smaller id took |
| `Prelude.ItoaDecimal` | configapply_entities.go:147-152 | an integer in a body, a header or a misc field is written in decimal, with its sign and without leading zeros |
| `Tables.Upsert` | configapply_entities.go:51-61 | editing the indexed row or inserting a new one violates no constraint and visits exactly one slug |
| `Tables.SettledConverges` | configapply_entities.go:39-62 | when every old slug is declared, the table seen by slug is the declared one, whatever it held |
| `Tables.SettledFixpoint` | configapply_entities.go:39-62 | a table that already shows its targets keeps every row and id |
| `Tables.KeepAfterSettling` | configapply_refs.go:122-132 | deleting omitted monitors after creating the others leaves the table that deleting them first would |
| `Reconciler.ApplyServices` | configapply_entities.go:12-65 | no statement fails; omitted services and their alert rows go, declared ones are edited under their ids or created; the messages are those of the file |
| `Reconciler.ApplyMonitors` | configapply_entities.go:67-215 | the same for monitors, nothing deleted, with the body rendered as a form or as text |
| `Reconciler.ReadScalars` | configapply_entities.go:145-165 | a map of mixed YAML values keeps exactly its strings and integers and reports every other key |
| `Reconciler.ReadChannel` | configapply_channels.go:44-319 | a dynamically typed channel entry draws exactly the messages of its checks and is written only if its type is known |
| `Reconciler.ApplyNotificationChannels` | configapply_channels.go:13-343 | no CHECK or UNIQUE violation; a surviving row keeps its type column, everything else follows the file |
| `Reconciler.CheckMembers` | configapply_refs.go:45-59 | reports the members that do not parse and those whose lower-cased address came before |
| `Reconciler.ReplaceMembers` | notificationsdb.go:261-280 | of addresses that differ only in case the first is stored, and no insert fails |
| `Reconciler.ApplyMailGroups` | configapply_refs.go:11-84 | the same for mail groups, with each written group's members replaced |
| `References.ResolveNames` | configapply_refs.go:142-167 | unless it reports something, the names resolve one to one to distinct existing ids |
| `References.ApplyReferences` | configapply_refs.go:86-255 | the monitor lookup never misses and no link violates a key; the store after it is one function of the store before it, in every visiting order |
| `Acceptance.StagesSilent` | configapply.go:247-258 | the five stages report nothing if and only if the file meets its documented constraints, given the channel and group slugs in the tables |
| `Acceptance.ChannelClean` | configapply_channels.go:38-319 | a channel entry draws no message if and only if it is a well-formed smtp or slack entry under a legal slug |
| `Rename.RenamePass` | configapply.go:107-233 | the pass is the fold of its entries over some order of the rename map |
| `Rename.StoreStep` | configapply.go:107-233 | with independent entries, an entry visited late does and reports what it would have done first |
| `Rename.FoldIsClosed` | configapply.go:107-233 | with independent entries, store and messages of the pass are one closed form of the store before it, for every order |
| `Rename.OrderFreeIffIndependent` | configapply.go:107-233 | the outcome does not depend on the order on any store if and only if no two entries of a section collide |
| `Rename.RenamesSilent` | configapply.go:107-233 | every entry is silent if and only if the file's renames are well-formed and declared, their sources exist and their targets are free |
| `Apply.Dedupe` | configapply.go:260-269 | each message once and no other |
| `Apply.FirstReportsOrder` | configapply.go:260-269 | of two messages of the result, the one that was reported first comes first |
| `Apply.ApplyConfig` | configapply.go:22-277 | from any consistent store and any file, also an invalid one, no statement fails, every constraint holds after it, and store and messages are those of one run |
| `Apply.StagesCompose` | configapply.go:247-258 | what the five stages do together: kept rows edited in place, dependants of dropped rows gone, links rewritten |
| `Effects.RenamesMoveSlugs` | configapply.go:107-233 | the rename pass, in any order, changes slugs and no id, field, dependant, member, link or setting |
| `Effects.RenameMoves` | configapply.go:107-233 | one rename gives the row with the source slug the target, if no row of its section has it, and changes no other slug |
| `Effects.RunFollows` | configapply.go:22-277 | after any run, of a valid file or not: which rows stay, go and are new in each table; a log or alert service is there if and only if it was and its monitor or service stays, with the same owner; and members, links, name, settings and e-mail channel as the next rows say |
| `Effects.RunColumns` | configapply_entities.go:25-215 | every column that a run writes, from the field of the entry it comes from; the type column of a surviving channel is the old one |
| `Effects.DependantsAfter` | schema.sql:94-123 | deleting omitted rows takes their own logs and alert services along and leaves those of all others |
| `Effects.MembersAfter` | configapply_refs.go:11-84 | a group whose entry can be written has the addresses of its list, of those that differ only in case the first, and any other group those it had |
| `Effects.ChannelLinksAfter` | configapply_refs.go:134-230 | a monitor whose two lists resolve is linked to exactly the rows they name; any other keeps those of its links whose ends stay |
| `Effects.GroupLinksAfter` | configapply_refs.go:134-230 | the same for mail groups |
| `Effects.SettingsAfter` | configapply_refs.go:232-255 | the e-mail channel is the row the file names, or none if there is none |
| `Reports.LegalIsSlugText` | configapply.go:20 | a key is legal if and only if it is lower-case letters, digits and inner dashes |
| `Reports.RunReportsFields` | configapply.go:247-276 | a run names a field of an entry with a problem if and only if the slug is legal and that field has that problem; it names the slug if and only if it is illegal |
| `Reports.RunReportsRest` | configapply.go:107-276 | the other messages: a missing name, an unknown e-mail channel, and what each rename reported at its turn |
| `Reports.RenameReports` | configapply.go:107-233 | what one rename reports, message by message |
| `Reports.OtherKeyReports` | configapply.go:107-233 | a rename key of any other form is reported as malformed or as naming no section |
| `Convergence.Verdict` | configapply.go:107-276 | a run reports nothing if and only if its rename pass does and the file is clean; the rest of the store does not matter |
| `Convergence.IndependentVerdict` | configapply.go:107-276 | with independent renames the verdict can be read off the file and the slugs present |
| `Convergence.Converges` | configapply_channels.go:321-339 | after a clean run the store, seen by slug, is exactly what the file declares, from any store and in any order, if and only if surviving channels keep their type |
| `Convergence.SamePicture` | configapply.go:247-258 | two clean runs of one file, from any two stores whose surviving channels have the declared types, leave the same picture |
| `Reapply.Idempotent` | configapply.go:247-276 | applying a rename-free file again, valid or not, changes no row, id or link and reports the same |
| `Reapply.AcceptedTwice` | docs/configuration.md:135 | applying an accepted file with renames again changes nothing and reports one message per rename, source gone or target taken |
| `Reapply.IdsKept` | configapply_entities.go:25-61 | through a run of any file, rows whose slug is declared keep id and slug, and created rows take only slugs that no kept row has |
| `Reapply.RenamedKeepsId` | configapply.go:107-233 | a rename with a free, declared target carries the row's id to that target and through every stage |
| `Reapply.NothingInherited` | schema.sql:134-173 | a created row gets no logs, alert services, members, channel links or group links of a row that is gone, even when it gets its id |
| `Runs.SomeRun` | configapply.go:22-277 | every consistent store and every file has a run, so the statements about runs are about something |
| `Validate.SeedRenameSources` | validate.go:93-131 | every rename source is in the throwaway database, existing rows untouched, one filler row per missing slug |
| `Validate.ValidateConfig` | validate.go:29-81 | the verdict is that of a real run on the seeded database |
| `Validate.ValidatorVerdict` | validate.go:29-81 | with independent renames the verdict is a function of the file |
| `Validate.ValidatorExact` | docs/configuration.md:156-163 | where sources exist and targets are free, the validator accepts what the instance accepts, except a service rename to the seeded slug |
| `Counterexamples.SlackFileOnSmtp` | configapply_channels.go:321-333 | a clean file and a consistent instance whose channel it gives another type |
| `Counterexamples.TypeChangeIgnored` | sql/notifications.sql:16-18 | on such a pair every run reports nothing and leaves something else than the file declares |
| `Counterexamples.WebsiteFileFits` | schema.sql:181-188 | a clean file that renames a service to website, and an instance it fits |
| `Counterexamples.ValidatorTooStrict` | validate.go:44-46 | on such a pair the instance accepts the file and the validator refuses it |
| `Counterexamples.ChainVerdictDepends` | configapply.go:107-233 | in a chain of two renames one order completes both and the other reports the first target as taken |
| `Generate.GenerateConfig` | config.go:38-221 | the export fails if and only if a form body does not parse, and otherwise describes every row, link, member and setting |
| `Generate.BodyExport` | config.go:149-165 | the export of a body is nothing, the first value of each key of a form, or the text |
| `RoundTrip.ExportClean` | config.go:38-221 | the export is a clean file if and only if the store's own names, slugs and fields meet the file's constraints |
| `RoundTrip.ChannelExport` | config.go:72-109 | an exported channel is accepted if and only if its stored fields are, and reads back as the same row |
| `RoundTrip.RoundTrip` | config.go:38-221 | the store accepts its own export if and only if it is exportable, and then keeps every id, field, link and member but the case of the method and the form of the body columns, whose bytes are the subject of the next rows |
| `RoundTrip.WrittenBodySurvives` | monitors4.go:131-141 | a body that a form of the program wrote survives byte for byte if and only if no key was given twice |
| `RoundTrip.BodyBytes` | configapply_entities.go:141-168 | any body survives if and only if it is not a form, or is the encoding of some form with one value per key |
| `RoundTrip.RoundTripBytes` | config.go:149-166 | when the program wrote the store's forms, an accepted round trip keeps every byte of every body if and only if no form repeats a key |
| `RoundTrip.RawFormRewritten` | config.go:149-165 | a form body with one value per key comes back as the encoder writes it, whatever order it was in |
| `RoundTrip.RepeatedKeyLost` | config.go:156-161 | a form body that repeats a key never survives |
| `RoundTrip.SecondTrip` | config.go:149-166 | a second round trip changes neither the method nor a byte of the body |
| `Webhook.Server.FinishDelivery` | config2.go:210-327 | a seen SHA changes nothing; a file whose run reports nothing is committed with its SHA; one that draws messages, or is not YAML, changes only the recorded errors and file text; any other failure to decode answers 500 and changes nothing |
| `Webhook.Server.Save` | config2.go:363-434 | the editor answers 200 if and only if the file decodes and its run reports nothing, and then commits that run and the file text; otherwise it answers 400 or 500 and changes nothing |
| `WebhookResults.SavedApplies` | config2.go:363-434 | a save that changes anything leaves the tables that a clean apply of the file leaves, and the SHA as it was |
| `WebhookResults.SavedPicture` | config2.go:363-434 | and shows what the file declares if and only if surviving channels keep their type |
| `WebhookResults.DeliveryApplies` | config2.go:210-327 | the same for a delivery, which records its SHA exactly then |
| `WebhookResults.SeenShaSkipped` | config2.go:97-101 | a delivery of the SHA that was recorded when it began changes nothing, whatever happened meanwhile |
| `WebhookResults.ResultPicture` | config2.go:218-327 | where the SHA is truthful, every table but logs and alert services is that of the clean apply |
| `Webhook.RefusedLeavesAll` | config2.go:232-286 | a delivery that draws messages or does not decode leaves store and SHA as they were |
| `Webhook.StepKeepsInv` | config.go:581-613 | every step of deliveries, editor, settings saves, admin edits, background work and restarts that keeps the four rules preserves the invariant |
| `Webhook.ShaConsistent` | config2.go:218-327 | in every state of a run that keeps the four rules, with any number of settings saves and restarts, a non-empty SHA names the file whose clean apply the entity tables are, and between saves the gate is what the database says |
| `WebhookRaces.SomeLie` | services.go:97-170 | after a clean apply some single admin edit, a service deleted or created under the slug of its name, leaves tables that no clean apply of the file leaves |
| `WebhookRaces.BeginsEarly` | config.go:604-613 | a run to a delivery that began between a save's commit and its flag, with the gate open; no other rule is broken |
| `WebhookRaces.SwitchedOff` | config.go:581-588 | a run to a delivery still in flight after management is off; no other rule is broken |
| `WebhookRaces.LateEdit` | services.go:97-101 | a run to a delivery and an admin edit both in flight behind the closed gate; no other rule is broken |
| `WebhookRaces.FlagsCross` | config.go:604-613 | a run in which two saves store their flags in the other order than they commit: managed, gate open, a delivery in flight; no other rule is broken |
| `WebhookRaces.EachRuleMatters` | config2.go:218-327 | for each of the four rules, any instance and any file it accepts: a run that breaks this rule in one step, keeps all rules otherwise, and ends with a SHA that is a lie |
| `WebhookRaces.CleanFileBreaks` | config2.go:218-327 | the same for any clean file without renames, on every instance |
| `WebhookRaces.SlackFileCase` | config2.go:218-327 | a concrete file and instance of this kind |
| `Checks.Check` | monitors2.go:134-244 | the loop logs what the outcomes call for and sends exactly the requests it should |
| `Checks.SentUntil` | monitors2.go:134-224 | requests go out until one is answered below 400 or with an unreadable body, or the attempts are used up |
| `Checks.LastDecides` | monitors2.go:173-224 | the row has the code of the last request, unless it is 000, and tells whether it succeeded, timed out or failed |
| `Checks.CodeTellsSuccess` | monitors2.go:181-214 | success is logged exactly when a code below 400 is, if and only if the loop did not end on a code of 0 |
| `Checks.LoggedEncodes` | monitors2.go:300-301 | the stored code lets the next check tell this one's result if and only if the loop did not end on a code of 0 |
| `Checks.CodeIsLast` | monitors2.go:173-194 | a logged code belongs to the last request sent |
| `Checks.AttemptsCounted` | monitors2.go:217-224 | the attempt count is within the setting and equals the requests sent, one less if a body could not be read |
| `Checks.DecisionIsResult` | monitors2.go:276-319 | whatever the previous row says, an announcement tells how this check went |
| `CheckHistory.CheckStore.RunCheck` | monitors2.go:228-319 | one transaction logs the check, reads the previous one under the same id and replaces it, other monitors untouched, and the alert rule decides on what was read; without the monitor nothing changes |
| `CheckHistory.CheckStore.PruneLogs` | sql/monitors.sql:129-132 | a pruned log takes the last-checked reference to it along and leaves every other |
| `CheckHistory.CheckStore.CreateMonitor` | schema.sql:100-112 | a new monitor gets an id above all in use, which may be that of a deleted one |
| `CheckHistory.CheckStore.DeleteMonitor` | schema.sql:114-132 | a deleted monitor takes its logs and its reference along, and nothing else |
| `CheckHistory.MonitorThere` | schema.sql:100-112 | a monitor is there if and only if it was created and not deleted since |
| `CheckHistory.LogStays` | schema.sql:114-123 | a log stays as it was written until it is pruned or its monitor is deleted |
| `CheckHistory.LogWritten` | monitors2.go:228-269 | every log there is was written by a check, and neither pruned nor deleted since |
| `CheckHistory.RunTracked` | schema.sql:127-132 | in every state of a history a monitor's reference is the last check under its id since its creation, until that log is pruned, and then there is none |
| `CheckHistory.DecisionsAreChanges` | monitors2.go:276-319 | along any history of checks, prunings, creations and deletions, the decisions for a monitor are the changes of its success bit, starting from up, if and only if each check it follows either kept its log and did not end on a code of 0, or lost its log and succeeded |
| `CheckHistory.Alternates` | monitors2.go:298-319 | in the life of a monitor with that property the announcements alternate down, up, down and never start with up |
| `CheckHistory.TruthfulRun` | monitors2.go:228-269 | in every state of a history every log is of a check of the monitor it is filed under, if and only if every check commits under the monitor it was started for |
| `CheckHistory.OwnerStays` | schema.sql:100-112 | while some monitor with this id or a greater one is there, the id does not change hands |
| `CheckHistory.DownTwice` | retention.go:86-92 | a monitor that is down, its log pruned, is announced down a second time |
| `CheckHistory.RecoveryUnheard` | retention.go:86-92 | the same monitor, up again, is never announced as up |
| `CheckHistory.OutageUnheard` | monitors2.go:181-214 | after a success with the code 000 an outage is not announced |
| `Scheduler.StepKeepsInv` | monitors2.go:100-129 | every step keeps checkout, its holders and the WaitGroup count in agreement |
| `Scheduler.Exclusion` | monitors2.go:89-129 | in every interleaving a monitor has one goroutine between checkout insert and delete, and its log writes and alerts fall inside |
| `Scheduler.TickCovers` | monitors2.go:65-113 | every monitor that is there at a tick is tested before the scan ends, whatever happens to the others; if due it is looked up in checkout, and if not there its check starts |
| `Scheduler.SendIsNewest` | monitors2.go:228-319 | in every interleaving, with pruning, creation and deletion, an alert carries the newest announcement that the commits under its monitor's id decided on |
| `Scheduler.AlertsInOrder` | monitors2.go:89-129 | the alerts under one monitor id go out in the order of the commits that decided on them |
| `Scheduler.AlertsAlternate` | monitors2.go:298-319 | what the alerts of a run announce in the life of a monitor alternates, when every check was told how the one before it went |
| `Scheduler.LogsTruthful` | monitors2.go:77-129 | in every state of every interleaving the logs are of their own monitors, if and only if no commit is that of a check started for another |
| `Scheduler.StrangeAlert` | monitors2.go:228-319 | from every state in which the newest monitor is being checked: deleted and replaced, its failed check commits under the new monitor, whose channels are told that it is down |
| `Scheduler.FirstCheck` | monitors2.go:66-114 | a run from the start of the server to such a state |
| `Scheduler.Counted` | monitors2.go:111-113 | the WaitGroup counts exactly the live goroutines and the scheduler never adds to it at zero |
| `Scheduler.NothingAfterWait` | main.go:206-215 | once Wait has returned no check runs, writes or sends |
| `Notifications.Queue.Drain` | notifications.go:66-349 | exactly the unsent rows whose delivery and stamp succeed are stamped; one failure does not hold up the others |
| `Notifications.PublishedAccounted` | sql/alerts.sql:142-144 | every subscriber active at a publish has an unsent row after it, and in every later state that notification is in the queue, sent or not, or was pruned after its stamp or went with its subscription or message |
| `Notifications.KeysHold` | schema.sql:72-78 | in every state of a run each row has its subscription and its message |
| `Notifications.RowsPublished` | sql/alerts.sql:142-144 | every row in the queue was published to a subscription that was active at that time |
| `Notifications.PassCovers` | notifications.go:66-349 | a pass that goes through its listing tries every notification that was unsent when it began, whatever fails |
| `Notifications.NothingLost` | retention.go:92-102 | in every run a queued row is still there, stamped or not, unless it was pruned after its stamp or its subscription or message was deleted |
| `Notifications.HonestStep` | sql/alerts.sql:146-147 | a stamp keeps every stamped row delivered if and only if no newer row took the listed id; every other step does |
| `Notifications.HonestRun` | notifications.go:66-349 | a whole run never shows a stamp without a delivery if and only if each of its stamps finds the listed row, or none |
| `Notifications.NoReuse` | schema.sql:72-78 | while some row at or above a listed id is left, no publish takes that id |
| `Notifications.LostNotification` | notifications.go:211-229 | a run of seven states after which an undelivered notification is stamped |
| `Retention.PickExpired` | sql/alerts.sql:181-185 | any batch of expired rows, and all of them when fewer than the limit are left |
| `Retention.Archive.Prune` | retention.go:105-141 | whatever others insert, change or delete between batches, the loop ends after total / batch + 1 transactions with no expired row left; a row that is not expired goes, and a last-checked reference to one is lost, only by what the others do |
| `Retention.PruneIsStep` | retention.go:92-102 | the batches of the loop on the notification table are exactly the prune steps of the queue, and spare unsent rows |
| `Paging.OlderIsRest` | monitors3.go:29-57 | below the last id shown lies exactly what was not shown, however many newer logs were added |
| `Paging.PollIsNewer` | monitors3.go:395-400 | the poll returns the newest row shown and every newer one if and only if these fit its limit |
| `Paging.PollSkips` | monitors3.go:395-400 | if they do not, it returns the newest of them, and no later poll returns the others |
| `Paging.PageSize` | monitors3.go:37-56 | a page is never longer than its limit, and shorter only when it is the last |
| `Paging.PageRows` | monitors3.go:29-57 | without a limit it is what the cursors admit, newest first |
| `Paging.FollowPages` | monitors3.go:276-293 | the pages, followed until one is empty, are the day's listing at the first request, without gap or repeat, for any page sizes |
| `Paging.ZeroRestarts` | monitors3.go:32-35 | a cursor of 0 asks for the first page again |
| `Grouping.AttachDetails` | alertsdb.go:257-292 | in place, each alert gets both its lists: every row of the flat list that is its own, each once, in their order, and no other row; nothing else of it changes |
| `Grouping.AttachedOnce` | alertsdb.go:257-292 | with unique ids, the lists of all alerts together hold every row of a listed alert as often as the flat list does, and no other row |
| `Grouping.AlertsAttachedOnce` | alertsdb.go:257-292 | this of the messages and the services of the alerts that the attach leaves |
| `Severity.Recompute` | alerts3.go:162-173 | in any order the loop finds red if an ongoing alert is red, else amber if one is, else blue |
| `Severity.WorstIsMaximum` | alerts3.go:162-173 | no ongoing alert is worse than what is shown, and what is shown is the severity of one, or blue |
| `Severity.Board.Create` | alerts3.go:141-180 | the stored severity is right after it, whatever it was before |
| `Severity.Board.Edit` | alerts3.go:317-349 | the same for an edit |
| `Severity.Board.Resolve` | alerts3.go:376-408 | the same for a resolve |
| `Severity.Board.Unresolve` | alerts3.go:436-468 | the same for an unresolve |
| `Severity.Board.Delete` | alerts3.go:12-42 | a delete removes the alert and leaves the stored severity |
| `Severity.DeletedButRed` | alerts3.go:12-42 | one red alert, deleted: the page stays red with nothing ongoing |
| `Severity.DeleteStale` | alerts3.go:12-42 | a delete leaves it right if and only if the alert did not decide it alone |
| `Limiter.LoginLimiter.RateLimited` | loginlimit.go:46-64 | drops exactly the expired buckets and limits exactly the keys that used up their failures |
| `Limiter.LoginLimiter.RecordFailure` | loginlimit.go:66-79 | counts one failure of one key, in a new window if the old one ended |
| `Limiter.LoginLimiter.Clear` | loginlimit.go:81-86 | a login forgets the failures of its key and of no other |
| `Limiter.Bounded` | users.go:511-586 | in every interleaving of c handlers a key never counts more than 9 + c failures, with any clock |
| `Limiter.Tight` | loginlimit.go:46-86 | for every c some run reaches 9 + c |

## Left out

* Handlers, templates, page rendering and form parsing; users, sessions, invitations, setup and domain settings.
* SMTP, Slack, GitHub, DNS and ACME calls: each is a success or failure that the model does not choose.
* YAML, JSON, AES-GCM, HMAC and base64: a config is an already decoded value with its `secret_` values replaced, request headers and channel details are decoded values, and a stored row is taken to decode. An export is taken to decode to what was encoded.
* The validator leaves `secret_` values as they are; `Validate.ValidatorExact` is about files that decode to the same value in both places.
* The text of messages: they are values, and two are the same when their values are. The text of a taken rename target names the section `services` for every section, so the value carries no section either.
* The `configFile` meta row inside `applyConfig`; it is part of `Webhook.Instance`.
* Errors of the database itself (a lost connection, a full disk): the reconciler is shown to raise no constraint error, and other failures roll back.
* A null mail group description is the empty string, which is how the code reads it.
* `Webhook.State` takes GitHub's content under a SHA to be fixed, which a content hash makes it.
* The clock: `Scheduler.TestDue` lets a monitor be due at any time, so nothing is said about the spacing of checks; `Limiter.Next` allows any clock.
* The setup handler that starts a goroutine during shutdown: `Scheduler.Step` has it as `StartOther`, which may add to the WaitGroup at any time; the claims are about the monitor loop and its checks.
* A config apply deletes and creates several monitors in one transaction; `CheckHistory.Run` has them as consecutive steps.
* A monitor without notification channels: the code evaluates the rule of `Checks.Decide` only when there is somebody to tell.
* Whether a notification is ever delivered: the code does not promise it. The pass ends at once when no e-mail channel is set, also for Slack rows; `Notifications.Queue.Drain` has this as `ready`.
* `Paging.FollowPages`: rows pruned while somebody pages are not modelled.
* The hour labels of the log view, slug generation inside the admin pages, and the self-update.
