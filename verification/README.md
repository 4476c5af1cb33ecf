# TaruBot's protocols, verified

TaruBot keeps a Free Company's Discord server in step with its members. Its hard logic sits in small
persistent protocols: a few columns and flags, changed in transactions, interleaved with remote calls,
crashes, other processes and people. This project models those protocols in Dafny and proves what they promise
over every run.

- **Nickname projection** (`NicknameWorld`, `NicknameWorker`, `NicknameService`, `NicknameSafety`,
  `NicknameConvergence`, `NicknamePreview`, `NicknameOutcomes`, `NicknameRoundTrip`): the worker's pass as an
  imperative object and as a step relation that may die at every await while people edit, link, unlink and
  change preferences. It never overwrites a nickname it did not record or announce, a pass that dies anywhere
  converges on rerun, a restore brings back what stood before the first write, and the dry run's own copy of
  the decision is compared with the pass.
- **Officer status posts** (`Sorting`, `StatusDomain`, `StatusBoard`, `StatusInvariants`, `StatusProtocol`,
  `StatusRuns`, `StatusPosts`, `StatusSilences`, `StatusDepartures`, `StatusRecords`, `StatusNotices`):
  recording, freezing, sending, marking and dropping, over whole runs, what a member's posts say one after the
  other, and the delivery job's drain against any interleaved transactions.
- **Mod mail** (`ModMailCases`, `ModMailInvariants`, `ModMailRuns`, `ModMailLimits`, `ModMailAnswers`,
  `ModMail`): cases, threads, revisions, minted form IDs, limits and retention under every interleaving of
  forms.
- **Release scan** (`JsonGrammar`, `JsonScan`, `JsonWalk`, `JsonCompleteness`, `JsonSoundness`,
  `JsonOverflow`, `JsonReader`, `ScanGate`, `ScanAnswers`): the hand-written JSON walker against the grammar
  of RFC 8259 (sections 2 to 7), both ways, and the one-shot gate over two clocks.
- **Gil ledger** (`LedgerBook`, `LedgerAnswers`, `Ledgers`, `LedgerPages`): exact arithmetic with bounds,
  idempotent replay, and two-way paging over numbers with gaps.
- **Channel overrides** (`Overrides`, `OverridesAccount`, `OverridesAnswers`, `OverridesRun`): the write loop
  with its many exits, and an audit row that accounts for every planned channel.
- **Writer lease** (`LeaseWorld`, `LeaseSteps`, `LeaseStarts`, `LeaseSafety`, `LeaseTimers`, `LeaseBoundary`,
  `Lifecycle`): several processes, one lock server, silently dying sessions, migrations and exact timers.
- **Suggestions** (`SuggestionLimits`, `Suggestions`), **onboarding** (`ChannelAudiences`, `Onboarding`) and
  the **`.env` settings scanner** (`SettingsMachine`, `SettingsScan`, `SettingsFiles`): sliding windows, a dry
  run against persisted decisions, and a line-based scanner against a character machine.

Each protocol has its functions on values, which the proofs are about, and a class or method in TaruBot's own
imperative form that is proved equal to them. Where other parties act between two steps they are part of the
run: a list of turns, events or rounds that the proofs quantify over. What each operation answers and leaves
is stated besides over the stored columns and the call alone, without those functions. `Options`, `Searching`
and `Sorting` hold what they share.

Where TaruBot's code does less than a comment or its documentation promises, the code is modelled, and lemmas
give the promise that fails, an input, and exactly when it holds:

- *JSON as RFC 8259 has it*: the walker also refuses a number that overflows to infinity, such as `1e999`, so
  it accepts exactly the documents with finite numbers (`JsonSoundness.AcceptsExactlyBoundedDocuments`,
  `JsonOverflow.HugeIsRefused`); its last whole-text parse never decides anything.
- *A process starts only on its own schema*: it starts on another exactly when its lease session has died
  unnoticed and a migration to another schema committed since
  (`LeaseSafety.StartsOnItsSchemaUnlessMigratedAway`, `LeaseBoundary.StartsBehindAMigration`).
- *A lost lease is noticed within one check and one timeout*: of query timeouts up to the check interval, that
  holds exactly for those strictly below it (`LeaseBoundary.BoundHoldsExactlyBelow`).
- *A form sent twice opens one case*: only while the case it opened exists (`ModMailRuns.OpensAgainOnceGone`).
- *A key sent again changes nothing*: a ledger key whose adjustment left the balance alone is not remembered,
  so this holds exactly when the balance is again the one it names (`LedgerBook.UnmovedKeyIsNotRemembered`).
- *The names a `.env` defines, and no text from inside a value*: the settings scanner names the same on every
  line as a reader of characters if and only if no line that starts a setting outside quotes has a carriage
  return or a Unicode line or paragraph separator behind its equals sign
  (`SettingsScan.TerminatorsHideASetting`). Such a line is missed with the quote it opens, so text from inside
  the value can be named and later settings missed too (`SettingsFiles.ValueIsReadAsSettings`), and with
  Windows line ends nothing is named at all (`SettingsFiles.CarriageReturnsHideEverySetting`).

Check the whole project with `dafny verify --resource-limit 2000000 dfyconfig.toml`.

## Model

| member | source | states |
|---|---|---|
| `NicknameWorker.Worker.Nickname` | src/application/synchronization.ts:1102-1221 | One pass over a member's nickname, cut off at any await or not and interleaved with anything, does exactly what the step relation says, so every result below is about this code. |
| `NicknameWorker.Worker.Restore` | src/application/synchronization.ts:1135-1170 | The restore branch, await by await: claim, guard, compare-and-set, suspend when somebody else's nickname stands, forget the baseline. |
| `NicknameWorker.Worker.ProjectMain` | src/application/synchronization.ts:1185-1220 | The projection branch from the character lookup on: capture the baseline once, then claim, guard, send, confirm or suspend. |
| `NicknameWorker.Worker.SetNickname` | src/application/records.ts:170-176 | The port replaces a nickname only when it still is the one expected, and says whether it did. |
| `NicknameWorld.ActKeepsInv` | src/application/service.ts:1597-1610 | Linking, unlinking, /main, /nickname, human edits and rejoins keep the nickname invariant, and none touches the captured baseline or what the worker attempted and wrote. |
| `NicknameService.Service.Trust` | src/application/service.ts:1447-1610 | Linking a character makes it the main one only when there is none, and keeps the invariant. |
| `NicknameService.Service.EndLink` | src/application/service.ts:2026-2080 | Ending the main character's link clears it and queues the restore, in the same transaction. |
| `NicknameService.Service.Preferences` | src/application/service.ts:2088-2190 | A preference that would change nothing saves nothing; one that does keeps the invariant; refused exactly for a character that isn't linked or sync with no main character. |
| `NicknameSafety.StepKeepsInv` | src/application/synchronization.ts:1102-1221 | Every await of a pass keeps the invariant: what `nickname_written` and `nickname_pending` vouch for was announced before it was sent. |
| `NicknameSafety.NeverOverwritesOthers` | src/application/synchronization.ts:1102-1221 | In every run of passes, crashes, edits and preferences the bot only ever replaced the recorded baseline or a value it had announced, and only put announced values. |
| `NicknameSafety.MainStaysLinked` | src/application/service.ts:2117-2170 | In every run a main character keeps an active link of that same member. |
| `NicknameConvergence.StepCoherent` | src/application/synchronization.ts:1113-1220 | With nobody interfering, each await leaves locals and row in agreement: starting over from there comes to the same end as going on. |
| `NicknameConvergence.CutOffConverges` | src/application/synchronization.ts:1113-1220 | A pass cut off at any await and rerun ends with the row and nickname of one uninterrupted pass. |
| `NicknameConvergence.CrashesConverge` | src/application/synchronization.ts:1113-1220 | The same for any number of cut-off passes before the one that completes. |
| `NicknameConvergence.ReachableRowsConverge` | src/application/synchronization.ts:1113-1220 | From every reachable row, for the projection and the restore branch alike. |
| `NicknamePreview.PreviewPredicts` | src/application/synchronization.ts:911-953 | In every reachable world, for every row and member, the preview names exactly the nickname an undisturbed pass leaves. |
| `NicknamePreview.PreviewNeedsTheLink` | src/application/synchronization.ts:1185-1196 | The preview reads the main character without its link, the pass with it: without the link invariant they disagree. |
| `NicknamePreview.ForeignNicknameStays` | src/application/synchronization.ts:1113-1135 | Somebody else's nickname stays in place through any quiet pass; a completed pass suspends sync, and a restore also clears the baseline. |
| `NicknamePreview.LateEditWins` | src/application/synchronization.ts:1135-1213 | An edit that lands between the read and the send wins, in the projection and in the restore: whatever others do and wherever the pass dies it writes nothing more, and undisturbed it suspends sync and, for a restore, forgets the baseline. |
| `NicknameOutcomes.WholePassSettles` | src/application/synchronization.ts:1102-1221 | A pass nobody disturbs and nothing kills ends in the world the results about undisturbed passes speak of. |
| `NicknameOutcomes.RestorePutsTheBaselineBack` | src/application/synchronization.ts:1113-1170 | A whole restore leaves the baseline if and only if the nickname was the baseline, the last confirmed write or an announced one, and otherwise the nickname; request and baseline are forgotten, and sync suspends exactly for a foreign nickname. |
| `NicknameOutcomes.ProjectionPutsTheName` | src/application/synchronization.ts:1113-1220 | A whole projection leaves the main character's nickname, captures a baseline only where none is and records its write; a foreign nickname stays and suspends sync. |
| `NicknameOutcomes.OtherPassesLeaveIt` | src/application/synchronization.ts:1107-1175 | Every other pass leaves nickname and row alone, but for what a server owner's row still asks. |
| `NicknameOutcomes.NicknameIsLongest` | src/domain/values.ts:204-212 | A character's nickname is the longest run of whole graphemes from the start of its name that fits 32 units. |
| `NicknameRoundTrip.RestoreBringsBackTheFirst` | src/application/synchronization.ts:1102-1221 | From any world without a baseline, through any passes that die anywhere, interleaved with links, unlinks, renames, new mains and sync turned off, a queued restore brings back the nickname that stood before all of them. |
| `NicknameRoundTrip.ProjectThenRestore` | src/application/service.ts:2026-2190 | In every reachable world a projection puts the main character's nickname on, and after an unlink or with sync turned off the next pass takes it off again. |
| `JsonReader.Reader.Read` | scripts/release-scan-exceptions.ts:156-222 | The walker, with its position, node count and key sets, accepts a text exactly when the reference recursion does, and it terminates on every text. |
| `JsonReader.Reader.Object` | scripts/release-scan-exceptions.ts:188-210 | An object's members, one at a time: quoted name, no name twice once decoded, colon, value, comma or the closing brace. |
| `JsonWalk.StringSound` | scripts/release-scan-exceptions.ts:168-176 | A string the scan takes is a string of RFC 8259 section 7, with exactly the meaning JSON.parse gives it. |
| `JsonWalk.StringComplete` | scripts/release-scan-exceptions.ts:168-176 | Every printing of every string of section 7 is taken whole, escapes included. |
| `JsonScan.HexEscapeSpells` | scripts/release-scan-exceptions.ts:168-176 | A hex escape means the number its four digits spell, upper or lower case. |
| `JsonScan.NumberSound` | scripts/release-scan-exceptions.ts:211-215 | What passes as a number is a number of RFC 8259 section 6. |
| `JsonScan.NumberComplete` | scripts/release-scan-exceptions.ts:211-215 | Every number of section 6 passes, read back as itself. |
| `JsonSoundness.AcceptedIsDocument` | scripts/release-scan-exceptions.ts:156-222 | An accepted text is one value between blanks, with distinct decoded names at every level, within the nesting and node bounds. |
| `JsonSoundness.DocumentIsAccepted` | scripts/release-scan-exceptions.ts:156-222 | Every printing of such a value, with any legal blanks anywhere, is accepted. |
| `JsonSoundness.AcceptsExactlyBoundedDocuments` | scripts/release-scan-exceptions.ts:156-222 | Accepted if and only if the text is such a document whose numbers do not overflow to infinity. |
| `JsonOverflow.NumberAloneIsAccepted` | scripts/release-scan-exceptions.ts:211-215 | A number alone is accepted if and only if a double holds it. |
| `JsonOverflow.HugeIsRefused` | scripts/release-scan-exceptions.ts:211-215 | The text 1e999 is a document of RFC 8259, and it is refused. |
| `ScanGate.ReleaseScanGate.Time` | scripts/release-scan-exceptions.ts:352-366 | One reading of both clocks is accepted exactly when both moved forward, the operation is young enough and no exception is early or expired. |
| `ScanGate.ReleaseScanGate.CheckReport` | scripts/release-scan-exceptions.ts:367-460 | A report is accepted exactly when it is bound to a platform and digest not yet seen and its every finding is in the policy; otherwise the gate fails for good. |
| `ScanGate.ReleaseScanGate.Finish` | scripts/release-scan-exceptions.ts:462-474 | Finishing succeeds only with both platforms' reports in. |
| `ScanGate.ReleaseScanGate.CheckWriteWindow` | scripts/release-scan-exceptions.ts:477-488 | The write window is granted only when every exception outlives it at both of its clock readings. |
| `ScanAnswers.TicksExactly` | scripts/release-scan-exceptions.ts:352-366 | The clocks pass exactly when both went forward, within 30 minutes, and every exception has begun and has not expired by either. |
| `ScanAnswers.CheckAcceptsExactly` | scripts/release-scan-exceptions.ts:367-460 | A report is accepted exactly when the clocks pass before and after, and it is bound, new in platform and digest, of this image, within bounds, without repetition and with every finding in the policy. |
| `ScanAnswers.FinishAcceptsExactly` | scripts/release-scan-exceptions.ts:462-474 | A finish is accepted exactly when the clocks pass and both platforms have their report. |
| `ScanAnswers.WindowAcceptsExactly` | scripts/release-scan-exceptions.ts:477-488 | A write window is accepted exactly when both readings pass and each leaves every exception ten minutes by both clocks. |
| `ScanGate.EffectiveTimeNeverDecreases` | scripts/release-scan-exceptions.ts:352-366 | Over any calls and any clock readings effective time never decreases from one accepted check to the next. |
| `ScanGate.AcceptedBeforeExpiry` | scripts/release-scan-exceptions.ts:352-366 | Every accepted check falls before every exception's expiry, by the wall clock and by physically elapsed time. |
| `ScanGate.RefusesForGood` | scripts/release-scan-exceptions.ts:353-353 | After one failure or a finish no call is ever accepted again, and nothing accepted changes. |
| `ScanGate.FinishedHasEvidence` | scripts/release-scan-exceptions.ts:462-474 | A finished gate accepted one report for each platform, with different digests, and each finding of both is literally in the policy. |
| `StatusDomain.ChangeInFlightStillWaits` | src/domain/status.ts:334-353 | A flag waits after a mark exactly when its latest decisive value is not the one just posted: a change between freeze and mark is kept, one that reverts included. |
| `StatusDomain.DepartureInFlightStillWaits` | src/domain/status.ts:334-353 | The departures left after a mark are exactly those confirmed since the freeze. |
| `StatusDomain.PostedLeavesNothing` | src/domain/status.ts:287-353 | With nothing in flight, posting a member's entry leaves nothing waiting. |
| `StatusInvariants.GatherTakesPrefix` | src/application/status-notices.ts:415-445 | A batch is the longest allowed prefix of the candidates' lines: at most 100, and fitting, or a single line that does not fit even alone. |
| `StatusInvariants.CandidateRows` | src/application/status-notices.ts:415-420 | The candidates are the rows due at the cutoff, each once, in (since, user) order. |
| `StatusProtocol.FrozenIsHeld` | src/application/status-notices.ts:332-344 | Reading the frozen batch back from the rows gives exactly the batch they hold, its entries in order. |
| `StatusProtocol.GatheredLines` | src/application/status-notices.ts:421-445 | A fresh batch posts only lines of due rows, and no member twice. |
| `StatusProtocol.GatheredQuiet` | src/application/status-notices.ts:415-445 | A freeze announces a row silently if and only if it is due, has no line of its own, and every line ahead of it went into the post. |
| `StatusRuns.NextKeepsInv` | src/application/status-notices.ts:122-491 | Every transaction keeps the board: rows dated exactly while something waits, at most one batch frozen, each posted row at its own place, nothing waiting or frozen without a channel. |
| `StatusRuns.RunsKeepTheBoard` | src/application/status-notices.ts:122-491 | So in every run. |
| `StatusRuns.ResendsWhatWasFrozen` | src/application/status-notices.ts:332-344 | Until its batch is marked or the channel unset, whatever else commits, the rows give back exactly the view first frozen. |
| `StatusPosts.FreezeShowsTheRow` | src/application/status-notices.ts:415-449 | A fresh batch says of each of its members what the row announced before and what is so at the freeze, reasons and departures included, and the row itself only gets its place; a row without a place is as it was, or announced silently exactly as the freeze decides. |
| `StatusPosts.OnlyGuestHasNoLine` | src/domain/status.ts:312-325 | A change without a line of its own is the Guest flag's, of a member announced as a Member before and after. |
| `StatusPosts.StepPosts` | src/application/status-notices.ts:122-491 | While nobody rejoins, unbinds the flag or unsets the channel, what is announced of a flag or of the access level moves exactly by the post an event completes, or by the bare flag's silent announcement, from what stood there to what it says. |
| `StatusPosts.AnnouncementsCompose` | src/application/status-notices.ts:371-491 | So over any such run everything announced, posted or silent, chains: each starts from what the one before left, the first from what stood before the run, and the last leaves what stands now. |
| `StatusPosts.PostsCompose` | src/application/status-notices.ts:371-491 | Posts alone chain for Member, Officer, FC Leader and the access level whatever the freezes announce silently, and for the bare Guest flag while none announces it. |
| `StatusPosts.RejoinStartsOver` | src/domain/status.ts:223-270 | From a join's first pass on, a rejoin's included, everything announced in that join chains from what that pass decided; a post frozen in an earlier join moves nothing. |
| `StatusSilences.SilentGuestPartsThePosts` | src/application/status-notices.ts:429-438 | A run whose one post of the bare Guest flag starts from true though false stood there and nothing was posted before: a freeze announced it silently in between. |
| `StatusRuns.RoundMakesProgress` | src/application/status-notices.ts:606-639 | A fresh batch frozen and marked leaves strictly fewer rows due at the cutoff, whatever was recorded meanwhile. |
| `StatusNotices.NothingLeft` | src/application/status-notices.ts:439-450 | A freeze that finds nothing to post leaves no row due. |
| `StatusNotices.Notices.RecordStatus` | src/application/status-notices.ts:122-176 | One reconciliation pass, with and without a channel. |
| `StatusRecords.PassDates` | src/application/status-notices.ts:122-176 | A row is dated from the oldest change still waiting, and undated once no flag or departure waits. |
| `StatusRecords.PassMoves` | src/domain/status.ts:223-270 | A post is asked for exactly when some flag's decided value moved against a known baseline. |
| `StatusRecords.PassWithoutChannel` | src/application/status-notices.ts:122-176 | Without a channel a pass announces at once what it decided, and leaves a row alone exactly when nothing changed and nothing waited. |
| `StatusNotices.Notices.RecordDepartures` | src/application/status-notices.ts:228-250 | A roster's departures folded into their owners' rows, nothing without a channel. |
| `StatusDepartures.RecordingKeepsAndAdds` | src/domain/status.ts:268-285 | Recording departures keeps what waited on each row in order, adds each of the user's items whose character and snapshot aren't there, and adds nothing else, nor anything twice. |
| `StatusDepartures.DepartureStays` | src/application/status-notices.ts:122-491 | With a channel set a waiting departure leaves its row exactly by the mark of a post that carries it, or with the channel. |
| `StatusDepartures.DepartureWaitsForItsPost` | src/application/status-notices.ts:122-491 | So over any run, rejoins, pauses, freezes and other marks included, a recorded departure stays until a post that carries it is marked or the channel is unset. |
| `StatusNotices.Notices.DropWaiting` | src/application/status-notices.ts:283-300 | Everything waiting or frozen is dropped, and it returns how many rows that were. |
| `StatusNotices.Notices.FreezeBatch` | src/application/status-notices.ts:371-450 | The candidate loop freezes exactly the next batch, resumes a frozen one, or is superseded or without its lease. |
| `StatusRecords.LineTells` | src/domain/status.ts:287-326 | A row has a line exactly when a departure waits, or Officer, FC Leader or the access level changed. |
| `StatusRecords.FreezeTakes` | src/application/status-notices.ts:371-450 | With TaruBot active, effects on, the channel still the run's and the lease held, a freeze takes the longest allowed batch under the minted ID, or none if no due row has a line. |
| `StatusRecords.FreezeNeeds` | src/application/status-notices.ts:371-404 | Otherwise, or with a batch frozen, it touches nothing. |
| `StatusNotices.Notices.MarkPosted` | src/application/status-notices.ts:458-491 | Each posted entry applied to its member's current state and the batch cleared. |
| `StatusRecords.MarkRecords` | src/application/status-notices.ts:458-491 | A mark makes each posted flag what the post said where the join is the same and nothing else announced it, removes exactly the posted departures, and dates anew what still waits. |
| `StatusNotices.Notices.PostBatch` | src/application/status-notices.ts:502-566 | A resumed batch whose delivered attempt is stored is only marked; anything else is sent, its attempt stored before the mark, or not at all when Discord takes the post and the answer or the attempt is lost. |
| `StatusNotices.Notices.Deliver` | src/application/status-notices.ts:606-639 | A delivery run ends in every world; ended as delivered, nothing is frozen and nothing that waited at the cutoff waits; while it waits, no change is a window old; and in a world where nothing fails it is not stopped. |
| `StatusNotices.Notices.DeliverRuns` | src/application/status-notices.ts:556-566 | Run after run of the job, whatever fails in each: no batch whose delivered attempt is stored is ever sent again. |
| `StatusNotices.Notices.Drain` | src/application/status-notices.ts:631-639 | The drain loop terminates because the rows due at the cutoff strictly decrease, once transactions begun before the cutoff are through; where nothing fails it delivers them all, and every post it sends holds at most 100 members that fit, or a single one. |
| `Sorting.SortSorts` | src/application/status-notices.ts:416-420 | The order the candidates and the frozen entries are read in is sorted. |
| `ModMailInvariants.ReplyKeepsCase` | src/application/modmail.ts:1320-1375 | A reply keeps a case decided by its thread's last entry, reopening a closed one with a line of its own. |
| `ModMailInvariants.SwitchKeepsCase` | src/application/modmail.ts:1484-1514 | A close or reopen keeps it too: state, dates and line change together. |
| `ModMailInvariants.StepKeepsStore` | src/application/modmail.ts:773-897 | Every form and every retention pass keeps the store: state and both dates decided by the last entry, closed and reopened lines alternating, the message cap, every ID there once, numbers ascending. |
| `ModMailRuns.RunsKeepTheCases` | src/application/modmail.ts:1320-1375 | So in every run from an empty server. |
| `ModMailRuns.StepEvolves` | src/application/modmail.ts:1338-1375 | One form changes at most the case it names, only adding to its thread and only with a new revision; only retention deletes. |
| `ModMailRuns.RunEvolves` | src/application/modmail.ts:852-858 | Over any run a number keeps naming the same case or nothing: once deleted it is never used again. |
| `ModMailRuns.SavedChangeLosesNothing` | src/application/modmail.ts:1482-1484 | A close or reopen that saves with the revision a page showed follows directly on that page's thread: no entry was added since. |
| `ModMailRuns.ResentReplyChangesNothing` | src/application/modmail.ts:1400-1441 | A reply form sent again at any later point changes nothing, and its sender is told unchanged, or resent when the text was edited. |
| `ModMailRuns.ResentOpenChangesNothing` | src/application/modmail.ts:701-748 | A web form that opened a case, sent again while that case exists, opens nothing and gives its number back. |
| `ModMailRuns.OpensAgainOnceGone` | src/application/modmail.ts:834-858 | With nothing else refusing it, such a form opens another case if and only if no case carries its ID any more. |
| `ModMailRuns.OpenFormOutlivesItsCase` | src/application/modmail.ts:834-858 | A run where it does: after retention the same form is answered with a second case. |
| `ModMailRuns.OnlyOfficersPassTheLimit` | src/application/modmail.ts:1325-1332 | No step of the member raises their open cases past the limit; only an officer's reply or Reopen of a closed case can. |
| `ModMailRuns.RetentionDeletesTheLongClosed` | src/application/modmail.ts:1738-1744 | Retention deletes only a case that stood closed, untouched, at every moment of the last 90 days. |
| `ModMail.Desk.OpenCase` | src/application/modmail.ts:773-897 | Opening a case, refusals in their order. |
| `ModMailLimits.LimitsAnswer` | src/application/modmail.ts:605-615 | An open form past the earlier tests is refused for three of the member's cases stored open, or else for five of theirs opened in the last 24 hours, and for nothing else but a taken ID. |
| `ModMailLimits.NoMoreThanFiveADay` | src/application/modmail.ts:605-615 | Over every run of forms and retention whose times don't run back, no member opens more than five cases in any 24 hours. |
| `ModMailAnswers.RepeatedOpenAnswers` | src/application/modmail.ts:701-748 | A form whose ID names a case changes nothing: another member's is a conflict, the opener's own is answered with the number, told apart by the text. |
| `ModMailAnswers.OpenedCase` | src/application/modmail.ts:846-897 | Within the limits it opens a case with the next number and these columns, unless one of its IDs is taken. |
| `ModMail.Desk.ReplyTo` | src/application/modmail.ts:1270-1391 | A reply, from finding the case to its new state. |
| `ModMailAnswers.HiddenCaseIsNotFound` | src/application/modmail.ts:900-925 | A form finds nothing exactly when it names no case, or one its actor may neither read as an officer nor, as the opener, use. |
| `ModMailAnswers.ReplyAnswers` | src/application/modmail.ts:1270-1391 | Every answer to a reply on a case the actor reaches, in order: a bad text, no right to respond, an ID that stands already, 500 messages, the open limit, a taken ID; otherwise the case with its reopening line, message, state and dates. |
| `ModMail.Desk.ChangeState` | src/application/modmail.ts:1460-1515 | Close and Reopen. |
| `ModMailAnswers.ChangeAnswers` | src/application/modmail.ts:1460-1515 | Every answer to a close or Reopen: no right, nothing to do, a stale revision, a taken ID; otherwise the case with its line, state and dates. |
| `ModMail.Desk.PruneCases` | src/application/modmail.ts:1738-1744 | One retention pass and its count. |
| `ModMailAnswers.PruneKeepsTheRest` | src/application/modmail.ts:1738-1744 | Retention deletes exactly the cases past their date and keeps the others in order. |
| `OverridesAccount.LoopAccounts` | src/application/overrides.ts:662-835 | However the loop ends, the planned channels it dealt with are the plan's first, each exactly once in written, skipped or unconfirmed, and a stop counts exactly the others. |
| `OverridesAccount.HandleKeeps` | src/application/overrides.ts:687-830 | On each of its exits, drains in the middle of a request included, one iteration deals with its channel exactly once or leaves every list as it was. |
| `OverridesAccount.WritesGoWhereTheyMay` | src/application/overrides.ts:724-790 | In every run no PUT goes to a private category or a channel freshly read inside one, and a child of a planned category gets its PUT only after that category's was taken in this run. |
| `OverridesAccount.ReportsWhatHappened` | src/application/overrides.ts:779-810 | Each accepted PUT is reported written, each that threw unconfirmed, and nothing else is claimed but Discord's copies of categories written here. |
| `OverridesAccount.AuditCountsTheSame` | src/application/overrides.ts:624-633 | The size of the lists' union is the loop's own position, and the union is exactly the plan's first channels. |
| `Overrides.PropagatedCarriesTheEntry` | src/application/overrides.ts:234-256 | A write counted as Discord's copy is on a channel that carries the category's entry exactly, every other entry as it was. |
| `OverridesRun.Run.WriteLoop` | src/application/overrides.ts:662-835 | The loop itself, with the exit it takes and what it leaves to do. |
| `OverridesRun.Run.HandleChannel` | src/application/overrides.ts:687-830 | One iteration: recheck, fresh read, inherit, write, read back, in that order and with that exit for each answer. |
| `OverridesAnswers.FailedCheckEndsTheRun` | src/application/overrides.ts:690-712 | At every channel a stop, the deadline, the preconditions, the server's facts or, for a category, a channel moved inside, in this order, ends the loop before its PUT with the account unchanged and exactly the rest counted as left. |
| `OverridesAnswers.PutNeedsEveryCheck` | src/application/overrides.ts:690-790 | An iteration sends at most one PUT, its own, only past every check, to a readable channel neither private nor inside a private category, with the entry its fresh read and its category's write call for. |
| `OverridesAnswers.SendsExactly` | src/application/overrides.ts:690-790 | And it sends one exactly where all of that holds. |
| `OverridesAnswers.RefusedPutAnswers` | src/application/overrides.ts:779-800 | What each answer other than taking the PUT adds to the lists, and whether the run goes on. |
| `OverridesAnswers.TakenPutAnswers` | src/application/overrides.ts:800-830 | A PUT taken is written, a category's is kept for its children, and the read-back stops the run for anything but the entry sent, a harmless change or a channel gone. |
| `OverridesAnswers.WithoutAPut` | src/application/overrides.ts:714-778 | A checked channel without a PUT is skipped, stops the run or is Discord's copy, for exactly these reasons. |
| `OverridesAnswers.PropagatedExactly` | src/application/overrides.ts:234-256 | A synced child counts as Discord's copy exactly when its overwrites are its category's with the entry written there, an empty @everyone aside. |
| `OverridesRun.Run.Lend` | src/application/overrides.ts:724-762 | The entry a child copies is its written category's, or a resumed category's read fresh once; a child of a planned category that wasn't written is passed by. |
| `OverridesRun.Run.Perform` | src/application/overrides.ts:476-655 | A run always accounts for itself: the audit's remaining, counted from the lists, equals the reply's, counted by the loop; the row is written and jobs requeued exactly when due. |
| `LeaseSafety.NextKeeps` | src/application/lifecycle.ts:185-340 | Every event of every process, session, migration and tick keeps the lease invariant, however its timers are set. |
| `LeaseSafety.OneLiveHolder` | src/application/lifecycle.ts:202-239 | Of the processes that hold the lease, one at most has a live session, for every timing. |
| `LeaseSafety.BrokenIsDestroyed` | src/application/lifecycle.ts:315-340 | A session found broken is never unlocked over or pooled, and no pooled session holds the lock, for every timing. |
| `LeaseSafety.StartsOnItsSchemaUnlessMigratedAway` | src/application/lifecycle.ts:185-195 | A process that starts holds the lease and checked its schema under it; it is another's if and only if its session has died unnoticed and a migration to another schema committed since. |
| `LeaseStarts.StartedUnderTheLease` | src/application/lifecycle.ts:347-361 | In every run a process that started did so at a start of its own, prepared, holding the lease, as the configured application. |
| `LeaseBoundary.StartsBehindAMigration` | src/application/lifecycle.ts:347-354 | A run in which it does start on another schema. |
| `LeaseTimers.StartsBehindOnlyBriefly` | src/application/lifecycle.ts:347-354 | Unless it is already stopping, that happens at most one check interval and one query timeout after the session died. |
| `LeaseTimers.BeliefIsBounded` | src/application/lifecycle.ts:274-309 | A process believes in a silently lost lease for at most one check interval and one query timeout. |
| `LeaseBoundary.BoundHoldsExactlyBelow` | src/application/lifecycle.ts:231-235 | With a timeout no longer than the interval that bound holds in every run if and only if the timeout is strictly shorter: an answer that comes back just as the interval fires makes that check be skipped. |
| `Lifecycle.ApplicationLifecycle.Acquire` | src/application/lifecycle.ts:202-246 | The wait loop ends holding the lease only on a granted lock with no shutdown begun; a failed statement marks the session broken. |
| `Lifecycle.ApplicationLifecycle.LeaseLost` | src/application/lifecycle.ts:297-311 | A lost lease marks the session broken in every phase, and stops the process once. |
| `Lifecycle.ApplicationLifecycle.CheckEnds` | src/application/lifecycle.ts:274-285 | Only an answer that the lock is still held keeps the lease. |
| `Lifecycle.ApplicationLifecycle.Start` | src/application/lifecycle.ts:347-361 | Startup's writes begin only under the lease and as the configured application. |
| `Lifecycle.ApplicationLifecycle.ReleaseLease` | src/application/lifecycle.ts:315-340 | The unlock is sent exactly for a held session still trusted; only a trusted, answering one is pooled. |
| `LeaseSteps.ReleaseFrees` | src/application/lifecycle.ts:315-340 | A release frees the process's lock; its session is pooled exactly when it is trusted, alive and unlocked where it held the lease, and is destroyed otherwise. |
| `LeaseSteps.OnlyHoldingKeepsTheLease` | src/application/lifecycle.ts:274-311 | Only the answer that it holds the lock leaves a process its lease; any other, none in time, or an error ends it with an error code and a session never trusted again. |
| `LedgerBook.StepKeepsInv` | src/application/service.ts:2322-2430 | Every call keeps each account's entries reading on from each other and every key recorded once. |
| `LedgerBook.BalanceIsTheSum` | src/application/service.ts:2388-2425 | After any calls a balance is the sum of all deltas and the last entry's, within 0 and the maximum; numbers rise by one and only the first entry is an opening. |
| `LedgerBook.ReplayChangesNothing` | src/application/service.ts:2341-2372 | A key that recorded, sent again at any later point, changes nothing and reports that same entry. |
| `LedgerBook.UnmovedKeyIsNotRemembered` | src/application/service.ts:2406-2407 | A key whose adjustment left the balance alone is not remembered: sent again after any other calls it changes nothing if and only if the balance is then again the one it names, and records otherwise. |
| `LedgerBook.DepositMovesIt` | src/application/service.ts:2406-2407 | A deposit in between is enough for it to record. |
| `Ledgers.GilLedger.RecordOperation` | src/application/service.ts:2254-2449 | The transaction itself, refusals in their order. |
| `LedgerAnswers.RecordedAmounts` | src/application/service.ts:2391-2430 | A recorded deposit adds its amount, a withdrawal takes its amount, an opening or adjustment sets the balance to it, and the account's balance and number follow. |
| `LedgerAnswers.Answers` | src/application/service.ts:2322-2430 | Every answer exactly, over the call and the stored account: a withdrawal is short of funds if and only if its amount exceeds the balance, and so for each refusal and for what is recorded. |
| `LedgerAnswers.AnswersFromTheBook` | src/application/service.ts:2337-2390 | A used key is answered with its own entry, or refused as another account's; a recorded correction names an entry of the same account. |
| `LedgerAnswers.BalanceFollowsTheCalls` | src/application/service.ts:2388-2430 | After any run a balance is what the amounts of its recorded calls, one after the other, made of it. |
| `LedgerPages.PageAt` | src/application/service.ts:2602-2640 | A page and both its cursors in terms of positions, gaps in the numbers or not. |
| `LedgerPages.OlderVisitsEveryEntryOnce` | src/application/service.ts:2602-2612 | From the newest page `older` visits every entry exactly once, newest first. |
| `LedgerPages.NewerIsDirectlyAbove` | src/application/service.ts:2613-2629 | A numeric `newer` cursor leads to exactly the ten entries directly above the page, and the newest page shows them all when they are ten or fewer. |
| `LedgerPages.NewerUndoesOlder` | src/application/service.ts:2602-2629 | On pages reached through `older`, `newer` leads back to what the page before showed. |
| `SuggestionLimits.UntilIsTheFirstInstant` | src/application/suggestions.ts:186-213 | A refusal's `until` is the first instant at which that limit alone would admit. |
| `SuggestionLimits.SpansHoldTheLimit` | src/application/suggestions.ts:172-213 | Stamps that far apart put no more than the limit into any span. |
| `SuggestionLimits.AdmittedKeepsSpacing` | src/application/suggestions.ts:172-213 | A row admitted by the check and stamped at or after it keeps the stamps that far apart. |
| `Suggestions.RunsKeepLimits` | src/application/suggestions.ts:143-164 | Whoever submits, one at a time, however late each row is stamped after its check and at whatever await shutdown begins, the limits hold. |
| `Suggestions.EverySpanWithinLimits` | src/application/suggestions.ts:192-213 | Any hour holds at most one of a member's suggestions, any day three of theirs and ten in all. |
| `Suggestions.SideBySideBreaksTheLimit` | src/application/suggestions.ts:285-289 | Two checked side by side would both be admitted into one hour: why submissions are serial. |
| `Suggestions.Suggestions.Proceed` | src/application/suggestions.ts:143-164 | A submission's turn from one await to the next: check, post, record, answer. |
| `Suggestions.Suggestions.CheckLimits` | src/application/suggestions.ts:172-213 | The three checks in their order, each against its own clock reading. |
| `Suggestions.RefusedExactly` | src/application/suggestions.ts:172-213 | A submission is refused exactly when its member has an attempt in the last hour or three in the last day, or everyone has ten in the last day, each at that check's reading. |
| `Suggestions.CooldownIsTheFirstInstant` | src/application/suggestions.ts:186-213 | The answered time is of the first limit that refuses, and the first instant at which that limit would admit. |
| `Suggestions.Suggestions.Drain` | src/application/suggestions.ts:267-281 | A drain begun at any await lets the submission in progress finish, its row included, refuses every other, those that join meanwhile too, and the limits hold with that row. |
| `Onboarding.GuildAccess.Remember` | src/application/guild-access.ts:43-102 | The upsert loop records exactly the decisions it returns. |
| `Onboarding.PlannedAudiences` | src/application/setup-plan.ts:216-254 | The dry run's two loops give every managed channel the audience those decisions mean. |
| `Onboarding.CompareWithDryRun` | src/application/setup-plan.ts:216-254 | For every snapshot, stored decisions and rooms, existing or still to be made, the planned audiences are those read after the real pass, and after a second one with onboarding on. |
| `ChannelAudiences.PlanStandsWithMadeRooms` | src/application/role-administration.ts:177-185 | Making a missing room changes no other channel's audience. |
| `ChannelAudiences.SecondPassChangesNothing` | src/application/guild-access.ts:184-196 | The channel pass after setup decides nothing anew. |
| `ChannelAudiences.FirstDecisionStays` | src/application/guild-access.ts:84-99 | Over any passes, snapshots and room choices a channel never chosen as a room keeps its first recorded decision. |
| `ChannelAudiences.ChildrenFollowTheirCategory` | src/application/guild-access.ts:63-83 | A channel first seen inside a staff-only category is staff-only, wherever it stands in the snapshot. |
| `ChannelAudiences.FirstDecisionIs` | src/application/guild-access.ts:63-99 | A channel seen first is recorded staff only exactly when its category is in the same pass, or nobody else sees it and, with onboarding on already, somebody set a view permission on it. |
| `SettingsScan.ScanIsTheMachine` | scripts/host-env-backup.ts:82-108 | Line by line or character by character through the quote machine, the same names, whatever quote the text starts inside, of any text in which no setting outside quotes has a terminator behind its equals sign; terminators elsewhere are harmless. |
| `SettingsFiles.ScanReturnsTheNames` | scripts/host-env-backup.ts:76-108 | For any settings with plain, single-quoted or escaped double-quoted multi-line values, scanner and machine agree on every line if and only if no value has a terminator on the line it begins on; then the scanner returns exactly the names, in order, and never text from inside a value. |
| `SettingsMachine.QuoteCloses` | scripts/host-env-backup.ts:101-108 | The machine leaves a quote exactly where the line test says it closes. |
| `SettingsScan.TerminatorsHideASetting` | scripts/host-env-backup.ts:82-98 | Over a whole text, with each name on its line, scanner and machine agree if and only if no line that starts a setting outside quotes has a carriage return or Unicode line separator behind its equals sign. |
| `SettingsFiles.ValueIsReadAsSettings` | scripts/host-env-backup.ts:76-98 | A file whose first value opens its quote before a carriage return: the scanner names text from inside that value, and misses that setting and a later one. |
| `SettingsFiles.CarriageReturnsHideEverySetting` | scripts/host-env-backup.ts:90-93 | Of a file of settings with Windows line ends the scanner names none, and the machine every one. |
| `SettingsScan.ReadSettingNames` | scripts/host-env-backup.ts:82-98 | The line loop, with the quote it carries from line to line. |
| `SettingsScan.ClosesQuote` | scripts/host-env-backup.ts:101-108 | The character loop, a backslash skipping the next character inside double quotes only. |

## Left out

Outside every model: Discord, GitHub and Lodestone calls are outcomes of a turn (applied, refused, lost),
PostgreSQL transactions are atomic steps and its locks mutual exclusion, and wording, embeds, permissions,
audit text, logging and web pages are not modelled. Also:

- Nickname: grapheme segmentation is taken as given (a name is a nonempty
  sequence of its segments); a missing row and
  the job queue around the pass are not modelled.
- Nickname: "attempted" means announced in the row before sending, so a value announced but never sent counts.
- Nickname: a restore is relative to the latest captured baseline, since re-enabling sync forgets the earlier one.
- Status posts: unreadable stored states and postings, which the code reads as none, and the wording of reasons.
- Status posts: Discord's discarding of a nonce sent twice is not modelled; the job's lease is an outcome of a
  round, and transactions that began before the cutoff are through after finitely many of them.
- Status posts: a member's joins have different times, so a post frozen in one is never taken for another's.
- Status posts: `dropStatus` after the job's no-channel check is `DropWaiting` alone.
- Mod mail: one server; encryption is the identity, so a stored text is always readable, and the checks of
  key, web and roles before the transaction are one flag of the actor.
- Mod mail: text cleaning and well-formedness of UTF-16; two transactions of one server are taken in some order.
- Mod mail: pings, DMs, reads and the notification jobs.
- JSON walker: UTF-8 decoding and the report's byte bound; the walker works on UTF-16 units.
- Scan gate: the field-by-field text checks of a policy and a report are one flag each, and findings are
  compared as records rather than as their JSON keys.
- Ledger: permissions, the settings fence, channel posts and their delivery state; the paging model takes one
  account's entries as a fixed list while pages are turned.
- Overrides: what an override entry contains (`overrideTarget`, `resumeInherit`, `channelState`) is a function
  the model takes as given; the plan names each channel once.
- Overrides: the requeue of parked jobs is a flag, and the dry run is not modelled.
- Lifecycle.ApplicationLifecycle.Start: ends where startup's first transaction begins; what that transaction and the
  scheduler do is not modelled.
- Lease: JavaScript timers are exact, the first schema check and the connection are one step, a migration's
  transaction is one step, and the lease client is a new session.
- Suggestions: texts, GitHub's own rate limit and `retryAfter`; the database clock does not run back, and the audit
  row of an attempt is always written (when it isn't, the limits undercount by one, as the code says).
- Onboarding: which overwrites a pass then writes.
- Settings scanner: the rest of the backup script.
- LedgerPages.NewerUndoesOlder: compares the two pages' entries, since the newest page is led back to without a
  cursor where another page has one.
