# Verification of the rollover recovery and the certificate-request history

This project models how `platform_pki` changes long-lived authority state so that a process may be
killed at any moment, and proves what a later recovery makes of it. It consists of Dafny files only;
`dafny verify dfyconfig.toml` checks them together.

## What is modelled

**Legacy migration** (`Legacy*.dfy`). A migration publishes a backup session, two reservations, two
authority trees, two configurations, one issuer for every service, moves quarantine files, and publishes
the active manifest and the provenance. The disk is a map from names to objects; the exact operations
(rename without clobbering, exact replacement, exact removal, tree move, tree removal) are atomic. The
publishing run, the resume and the rollback are programs of guarded steps, and a kill may fall between
any two writes. The list of services and the list of quarantine files are arbitrary. A *view* says of
every object which of its places it is at; every reachable disk is depicted by a view, and the theorems
follow the views. `LegacyReview.dfy` models the rechecks that a running migration makes of everything it
does not change, with paths and component rules as they are in the code.

**Rollover preparation** (`Preparation*.dfy`, `Terminal.dfy`, `Handover.dfy`, `Generation*.dfy`). Objects
have a state that survives a rename and a change time that does not. Trees, reservations and the pointer
are journaled by state, root database files by full identity, so that a rename that is not yet recorded
shows as an unknown identity. The set of database keys is arbitrary. Resumes and rollbacks follow each
other in any order. The terminal protocol (commit, marker, cleanup, receipt, journal, marker) takes up what
a finished recovery leaves; `PreparationTerminal.dfy` proves that this is what the protocol's own checks
ask for. Allocation of generation IDs runs on the directories that sequences of preparations leave. The
handover of numbered transaction manifests is modelled apart from it.

**Certificate-request history** (`Csr*.dfy`). Outcomes point to predecessors. The memoised recursive
authentication, the global check of heads against active pointers and the candidate command are modelled
on the retained records; the digest of a decision is an uninterpreted function.

**Supporting algorithms**. The chunked UTF-8 counter for passphrases (section 4 of RFC 3629), the writer
and validator of tree manifests, and the text form of recovery journals.

Commands that change state in place are classes whose methods are proved equal to functions on states;
the properties are lemmas about those functions and hold of the methods through their contracts.
`LegacyWindows.SomeMigration` and `PreparationForward.SomePreparation` exhibit concrete transactions that
meet the assumptions of the theorems.

## Findings

Where a law does not hold of the code for all inputs, the condition under which it does is proved, and
so is a history that leads outside of it.

- A legacy rollback killed between the removal of the provenance and its record finishes with a step
  that later commands never accept (`LegacyHistory.RollbackPassesGate`, `LegacyWindows.RemovalWindow`);
  likewise a resume killed between the publication of the provenance and its record
  (`LegacyHistory.ResumePassesGate`, `LegacyCuts.PublicationWindow`). Once a rollback has removed the
  provenance, one write of a resume strands the transaction for good (`LegacyWindows.ResumeWindow`).
- The first checks of a legacy resume do not rule out a restored configuration or an abandoned
  reservation, so such a resume is refused only after it has changed things
  (`LegacyConvergence.ResumePreflight`, `LegacyWindows.RefusedLate`).
- A marker left by a kill between the committing write and its removal stays, because a committed
  journal is not actionable (`LegacyHistory.GateVerdictIsFinal`, `LegacyCuts.MarkerWindow`).
- The rechecks of a migration fail after an issuer is published for a service called `private`,
  `backups` or `quarantine`, or with `passphrase` or `pass-file` in its name: the issuer's path then
  counts as private state, or not as public state (`LegacyReview.UndisturbedPasses`,
  `LegacyReview.ServiceCalledPrivate`).
- A preparation killed between the rename of a root database file and its checkpoint can be neither
  resumed nor rolled back (`PreparationForward.KilledRunResumes`, `PreparationForward.WindowOpens`).
- A preparation's rollback cannot be repeated once a database file without pre-image was removed, nor,
  once the stage is gone, if any file stands as it did before the preparation; neither can it be resumed
  then (`PreparationRollback.RollbackExact`, `PreparationWindows.ErasureWindowOpens`,
  `PreparationWindows.AddedFileBlocks`).
- A preparation whose rollback has restored a database file, but has found no pointer to withdraw, can
  still be resumed, and then completes with that file as it was before the preparation. The checks on a
  committed preparation do not look at database files (`PreparationOutcomes.LastResume`,
  `PreparationOutcomes.ResumesWithoutFile`).
- An intermediate preparation rolled back before its candidates are staged and killed after its commit
  is never closed, because no root identity is recorded for it (`Terminal.RecoverKeeps`,
  `Terminal.UnrecordedRootStrands`).
- Finalizing a 257th link of a service's history is published, and leaves a service for which no decision
  is accepted any more (`CsrLifecycle.PublishedReadsExactly`, `CsrDepth.BoundExceeded`).

## Model

| member | source | states |
|---|---|---|
| LegacyMachine.Machine.Migrate | src/platform_pki/ca_rollover_migrate.py:2265-2434 | The publishing run of a legacy migration, killed before any single write: disk, journal and marker afterwards are exactly those of the program of guarded steps, so the theorems on programs hold of it |
| LegacyMachine.Machine.Recover | src/platform_pki/ca_rollover_recover.py:1892-2387 | A recovery in either direction, killed before any single write: it ends in exactly the state and with the outcome (finished, killed, refused) of its program |
| LegacyMachine.Machine.Perform | src/platform_pki/ca_rollover_recover.py:202-330 | One exact operation: a rename, exact replacement, exact removal, tree move or tree removal happens only if source and destination are what is expected, and otherwise leaves everything as it was |
| LegacyMachine.Machine.Journaled | src/platform_pki/ca_rollover_recover.py:463-474 | A recovery step is a `-pending` record, one change and a `-done` record, and a kill may fall between any two of them |
| LegacyMachine.Machine.RollBackPublications | src/platform_pki/ca_rollover_recover.py:2159-2189 | A rollback removes the active manifest first, then the issuers, and returns the quarantine files, each only where the journaled object lies |
| LegacyMachine.Machine.RollBackAuthorities | src/platform_pki/ca_rollover_recover.py:2190-2231 | A rollback restores configurations, moves the intermediate and then the root back, and abandons both reservations |
| LegacyMachine.Machine.ResumeAuthorities | src/platform_pki/ca_rollover_recover.py:2254-2319 | A resume reserves, moves both authorities and publishes both configurations, and refuses a configuration in any other state |
| LegacyMachine.Machine.ResumePublications | src/platform_pki/ca_rollover_recover.py:2320-2375 | A resume publishes issuers, moves quarantine files, consumes reservations and publishes the active manifest, in this order, and refuses any of them in a state that is neither before nor after |
| LegacyMachine.Machine.ResumeCompletion | src/platform_pki/ca_rollover_recover.py:2376-2387 | A resume publishes the provenance, commits, removes the marker and then the transaction |
| LegacyConvergence.RollbackPreflight | src/platform_pki/ca_rollover_recover.py:1892-2128 | In every reachable uncommitted state the first checks accept a rollback if and only if the provenance lies at one of its two places or the journal's step says that its move or removal was under way |
| LegacyConvergence.ResumePreflight | src/platform_pki/ca_rollover_recover.py:1892-2153 | In every reachable uncommitted state, exactly which staged objects must remain for the first checks to accept a resume; a restored configuration or a reservation abandoned before it was consumed does not stop them |
| LegacyConvergence.RollbackConverges | src/platform_pki/ca_rollover_recover.py:2159-2252 | From every reachable uncommitted state one uninterrupted rollback either is refused without changing anything, exactly if the provenance is not accounted for, or ends with no active manifest, no issuers, quarantine files at their sources, original configurations, both trees whole at their legacy paths, no session, no provenance, and reservations that a new migration adopts |
| LegacyConvergence.ResumeConverges | src/platform_pki/ca_rollover_recover.py:2254-2387 | From every reachable uncommitted state one uninterrupted resume completes if and only if no rollback has withdrawn anything, and then leaves the disk that an uninterrupted migration leaves, for any list of services |
| LegacyConvergence.ForwardFinishes | src/platform_pki/ca_rollover_migrate.py:2265-2434 | An uninterrupted migration finishes committed, with the marker and the transaction gone |
| LegacyRollback.RollbackRuns | src/platform_pki/ca_rollover_recover.py:2159-2252 | From any of its steps on, a rollback with enough writes left finishes, and one without leaves a state that is consistent and no less withdrawn |
| LegacyResume.ResumeRuns | src/platform_pki/ca_rollover_recover.py:2254-2387 | From any of its steps on, a resume that finds everything in stock is killed in a consistent state or finishes committed with everything delivered |
| LegacyForward.ForwardRuns | src/platform_pki/ca_rollover_migrate.py:2265-2434 | Every prefix of the migration leaves the view that its position in the program determines |
| LegacyHistory.HistoryKeeps | src/platform_pki/ca_rollover_recover.py:1829-2387 | Every history of a migration cut anywhere, then recoveries in any order, refused or killed anywhere, keeps the invariant: each object is at exactly one of its places and journal and disk agree |
| LegacyHistory.ActiveOnlyWhenInPlace | src/platform_pki/ca_rollover_recover.py:2160-2375 | Over every history, whenever the active manifest is present both authorities are at generation paths, both configurations and every issuer are published, every quarantine entry is moved and both reservations are consumed |
| LegacyHistory.NothingIsLost | src/platform_pki/ca_rollover_recover.py:1829-1848 | Over every history each authority tree is whole at exactly one path, and the bytes of every quarantine file exist at the source, in the transaction, or, after the commit, in the published provenance |
| LegacyHistory.ResumesComplete | src/platform_pki/ca_rollover_recover.py:2254-2387 | From every prefix of the migration and any number of killed resumes, one uninterrupted resume reaches the disk of an uncut migration |
| LegacyHistory.RollbacksUndo | src/platform_pki/ca_rollover_recover.py:2159-2252 | From every prefix of the migration, any number of killed resumes and then of killed rollbacks, one uninterrupted rollback undoes the migration |
| LegacyHistory.ResumeAfterRemovalStrands | src/platform_pki/ca_rollover_recover.py:1906-2128 | Once a rollback has removed the provenance, a resume that writes anything leaves a transaction that no later command changes or finishes |
| LegacyHistory.RollbackPassesGate | src/platform_pki/ca_rollover_migrate.py:516-597 | A finished rollback lets later commands through if and only if it still found the provenance or its removal was recorded |
| LegacyHistory.ResumePassesGate | src/platform_pki/ca_rollover_migrate.py:516-597 | A finished resume lets later commands through if and only if it still found the provenance staged, or the step was none or the recorded publication |
| LegacyHistory.MigrationPassesGate | src/platform_pki/ca_rollover_migrate.py:516-597 | A migration that runs to its end is always let through by later commands |
| LegacyHistory.GateVerdictIsFinal | src/platform_pki/ca_rollover_recovery.py:1636-1637 | A committed migration journal is not actionable: whatever recoveries follow, none changes anything, and so none changes the gate's verdict |
| LegacyWindows.RemovalWindow | src/platform_pki/ca_rollover_recover.py:2241-2250 | For every transaction there is a history, eight writes into its first rollback, after which a finished rollback is committed and never accepted by the gate |
| LegacyWindows.ResumeWindow | src/platform_pki/ca_rollover_recover.py:2241-2281 | For every transaction there is a history after which one write of a resume leaves a state that nothing changes and the gate never accepts |
| LegacyCuts.PublicationWindow | src/platform_pki/ca_rollover_recover.py:2376-2380 | From every state in which a resume finishes and finds the provenance staged, some kill falls between its publication and the record of it; a resume then still finishes on the same disk, and the gate never accepts it |
| LegacyCuts.MarkerWindow | src/platform_pki/ca_rollover_recover.py:2380-2381 | From every state in which a recovery finishes while a marker is there, some kill leaves the committed journal beside the marker; no later command changes that and the gate never accepts it |
| LegacyCuts.RefusedExactly | src/platform_pki/ca_rollover_recover.py:2128-2153 | An uninterrupted resume is refused if and only if a rollback has withdrawn something; if its first checks pass it has written by then |
| LegacyWindows.RefusedLate | src/platform_pki/ca_rollover_recover.py:2320-2375 | For every transaction: a rollback killed once it has abandoned the first reservation, then a resume, which passes its first checks, changes things and is refused |
| LegacyWindows.WindowsOpen | src/platform_pki/ca_rollover_recover.py:2376-2387 | For every transaction a kill of its very first resume opens the publication window, and another one the marker window |
| LegacyReview.UndisturbedPasses | src/platform_pki/ca_rollover_migrate.py:2250-2421 | On an undisturbed migration every recheck passes if and only if no service is named `private`, `backups` or `quarantine` and none has `passphrase` or `pass-file` in its name |
| LegacyReview.ViewsMove | src/platform_pki/ca_rollover_migrate.py:1135-1238 | The private and the public view are the same before and after either authority has moved |
| LegacyReview.TreesMove | src/platform_pki/ca_rollover_migrate.py:1099-1132 | Both authority trees look the same before and after either authority has moved |
| LegacyReview.Placed | src/platform_pki/ca_rollover_migrate.py:1317-1358 | A publication leaves the private view alone unless its own name is private, and changes the public view by exactly its own logical name if that is public |
| LegacyReview.ExpectedTwice | src/platform_pki/ca_rollover_migrate.py:1241-1251 | Recording one more override gives the state that is expected after one more publication |
| LegacyReview.IssueKeeps | src/platform_pki/ca_rollover_migrate.py:2357-2373 | Publishing the issuer of a plainly named service keeps the recheck satisfied, by the override recorded for it |
| LegacyReview.IssueBreaks | src/platform_pki/ca_rollover_migrate.py:2357-2373 | Publishing the issuer of any other service makes the next recheck fail |
| LegacyReview.ServiceCalledPrivate | src/platform_pki/ca_rollover_migrate.py:1135-1238 | Two concrete migrations that differ by a service called `private`: undisturbed, the one without it passes every recheck and the one with it does not |
| LegacyReview.ConfigureKeeps | src/platform_pki/ca_rollover_migrate.py:2321-2354 | Publishing a configuration changes its tree and the public view by exactly the recorded identity |
| LegacyReview.ShelveKeeps | src/platform_pki/ca_rollover_migrate.py:2375-2392 | Moving a quarantine file changes no view, only where the recheck looks for it |
| LegacyReview.Migration.Run | src/platform_pki/ca_rollover_migrate.py:2255-2421 | The run rechecks before each change and stops at the first recheck that fails |
| PreparationMachine.Machine.Prepare | src/platform_pki/ca_rollover_prepare.py:2435-2600 | The publishing run after the `staged` checkpoint, killed before any single write, leaves exactly the state of its program |
| PreparationMachine.Machine.Recover | src/platform_pki/ca_rollover_recover.py:863-1486 | A recovery of a staged preparation in either direction leaves exactly the state of its program, or refuses |
| PreparationMachine.Machine.Note | src/platform_pki/ca_rollover_recover.py:463-474 | A checkpoint records the step and, in a recovery, the action |
| PreparationMachine.Machine.Apply | src/platform_pki/ca_rollover_recover.py:202-290 | One exact publication: it happens only with the expected source and destination, and gives the object a new change time |
| PreparationResume.ResumableAllowed | src/platform_pki/ca_rollover_recover.py:1340-1486 | The first checks accept every state between `staged` and the commit in which no rename is unrecorded but at the pending checkpoint of an interrupted resume |
| PreparationResume.ResumeKeeps | src/platform_pki/ca_rollover_recover.py:1374-1486 | A resume never fails, wherever it is killed another can go on, and uninterrupted it publishes everything |
| PreparationResume.ResumesComplete | src/platform_pki/ca_rollover_recover.py:1193-1239 | After any interrupted resumes one more completes: trees, database files, reservations, state and pointer are published, each database file journaled with the identity it has, and no object that was renamed is ever renamed again, its change time included |
| PreparationResume.AdoptionKeeps | src/platform_pki/ca_rollover_recover.py:1409-1426 | A database file found renamed at its pending checkpoint is adopted: the journal takes over its new identity and nothing is renamed |
| PreparationForward.ForwardCuts | src/platform_pki/ca_rollover_prepare.py:2435-2600 | A killed publishing run leaves a state that a resume takes up, or one database file renamed and not recorded |
| PreparationForward.KilledRunResumes | src/platform_pki/ca_rollover_prepare.py:2517-2552 | Wherever the publishing run is killed, resumes complete if and only if it was not between the rename of a root database file and its checkpoint; there every resume is refused and nothing changes |
| PreparationForward.WindowOpens | src/platform_pki/ca_rollover_prepare.py:2544-2551 | The window exists for every file that is published: two writes into its step the run is stranded there |
| PreparationRollback.RollbackAllowedExactly | src/platform_pki/ca_rollover_recover.py:1051-1239 | In every state that rollbacks leave behind, the first checks accept a rollback if and only if no database file is blocked, and if one is they refuse a resume too |
| PreparationRollback.RollbackExact | src/platform_pki/ca_rollover_recover.py:1250-1373 | After any interrupted rollbacks one more completes if and only if no database file is blocked, and then nothing is left but abandoned reservations and restored files; otherwise neither action ever changes anything again |
| PreparationWindows.RollbackAcceptedExactly | src/platform_pki/ca_rollover_recover.py:1193-1239 | After a publishing run killed anywhere and interrupted resumes, a rollback is accepted if and only if every rename is recorded; if one is not, a resume completes, unless the publishing run was killed there, and then neither action is accepted |
| PreparationWindows.KilledRunRollsBack | src/platform_pki/ca_rollover_recover.py:1250-1373 | From a publishing run killed anywhere, interrupted resumes and then interrupted rollbacks, one more rollback removes everything if and only if the first one was accepted and no database file is blocked now; otherwise it is refused and changes nothing |
| PreparationRollback.StageRemovalBlocks | src/platform_pki/ca_rollover_recover.py:1224-1227 | Once the stage is removed exactly the files that stand as before the preparation are blocked |
| PreparationWindows.FinishedBlocks | src/platform_pki/ca_rollover_recover.py:1224-1227 | A rollback that goes through blocks exactly the database files that then stand as before the preparation |
| PreparationWindows.AddedFileBlocks | src/platform_pki/ca_rollover_recover.py:1224-1227 | If the preparation adds a database file, a rollback that went through and was killed before its commit is refused when it is run again, and so is a resume, for ever |
| PreparationWindows.SomeRollbackBlocks | src/platform_pki/ca_rollover_recover.py:1224-1227 | The same for one concrete preparation, rolled back from its `staged` checkpoint |
| PreparationWindows.ErasureWindowOpens | src/platform_pki/ca_rollover_recover.py:1276-1280 | For every preparation that adds a database file and has published everything, some kill of its rollback falls right after the removal of that file; from there rollback and resume are refused |
| PreparationHistory.HistoryKeeps | src/platform_pki/ca_rollover_recover.py:1004-1486 | Over every history of resumes and rollbacks in any order, each refused or killed anywhere: a preparation stranded in the publishing run stays as it is, and any other one keeps the invariant on trees, reservations, database files and journal |
| PreparationHistory.PointerOnlyWhenInPlace | src/platform_pki/ca_rollover_recover.py:1341-1486 | Over every such history, whenever the pointer is present it is the journaled one, every tree it refers to is published, every reservation is consumed and the backup session is there |
| PreparationHistory.NothingIsLost | src/platform_pki/ca_rollover_recover.py:1256-1288 | Over every such history the original of every database file is in its place, put back in its place, or still copied in the stage |
| PreparationHistory.MoveGoes | src/platform_pki/ca_rollover_recover.py:1374-1486 | One move of a resume after any rollbacks, killed anywhere, keeps the invariant; it can fail only at a pointer that was withdrawn |
| PreparationHistory.UndosFit | src/platform_pki/ca_rollover_recover.py:1250-1373 | A rollback keeps what relates the objects to each other: it comes to reservations and session only when every tree is gone |
| PreparationOutcomes.LastRollback | src/platform_pki/ca_rollover_recover.py:1250-1373 | After any history a rollback goes through if and only if its first checks accept it, and then nothing is left of the preparation but abandoned reservations and restored files |
| PreparationOutcomes.LastResume | src/platform_pki/ca_rollover_recover.py:1374-1486 | After any history a resume goes through if and only if its first checks accept it and the pointer was not withdrawn; it publishes everything and records every database file, but those that a rollback had restored stay as they are |
| PreparationOutcomes.ResumesWithoutFile | src/platform_pki/ca_rollover_recover.py:1408-1437 | For every preparation whose first database file is replaced there is a history of one killed rollback after which a resume goes through and leaves that file as it was before the preparation |
| PreparationTerminal.CompleteCommits | src/platform_pki/ca_rollover_recover.py:784-823 | What a completed resume leaves meets the checks made on a preparation committed as resumed |
| PreparationTerminal.UndoneCommits | src/platform_pki/ca_rollover_recover.py:824-860 | What a completed rollback leaves meets the checks made on a preparation committed as rolled back, and not the others |
| PreparationTerminal.RecoveriesEarn | src/platform_pki/ca_rollover_recover.py:784-860 | After any history, a recovery that goes through leaves what its outcome demands |
| PreparationTerminal.EarnedCloses | src/platform_pki/ca_rollover_recover.py:520-663 | From there: the outcome is committed with the first write of the terminal run, no sequence of recoveries changes it, the opposite action is always refused, and one more recovery of the right kind that is not killed always removes both control files |
| Terminal.OutcomeIsFinal | src/platform_pki/ca_rollover_recover.py:520-663 | Over every sequence of recoveries the committed outcome stays; whenever the journal is gone and the marker remains the receipt binds that marker's identity, transaction and outcome; the opposite action is refused; one more recovery closes the preparation if and only if its journal is gone or the published state still validates for the outcome |
| Terminal.RecoverKeeps | src/platform_pki/ca_rollover_recovery.py:1621-1652 | Another transaction and the opposite action are refused and change nothing; the matching recovery, if it is not killed, removes both control files if the journal is gone or the published state validates, and otherwise changes nothing |
| Terminal.FinishCommits | src/platform_pki/ca_rollover_recover.py:554-663 | The finishing run commits its outcome with its first write, cannot fail, and uninterrupted removes journal and marker |
| Terminal.UnrecordedRootStrands | src/platform_pki/ca_rollover_recover.py:834-839 | An intermediate preparation rolled back before its candidates are staged, killed between its commit and the removal of its journal, is never closed |
| Terminal.Files.FinishPreparation | src/platform_pki/ca_rollover_recover.py:554-663 | Commit, marker, staging, manifest, receipt, journal and marker removal in this order, each with its exact check |
| Terminal.Files.RecoverPreparation | src/platform_pki/ca_rollover_recover.py:520-551 | Without a journal only marker and receipt that bind each other, the transaction and the action let the marker be removed |
| Handover.HandoverSurvives | src/platform_pki/ca_rollover_recovery.py:1408-1483 | A preparation killed at any write of any refresh, then killed promotions, then one promotion: exactly the journaled manifest exists, with the journaled identity and digest, and its number is the one last announced; at most one further file exists, which was written and never announced |
| Handover.RefreshHands | src/platform_pki/ca_rollover_prepare.py:1003-1042 | A refresh hands over to the next number; killed anywhere the journal names manifest n alone or n with pending n+1, both as they exist |
| Handover.PromoteHands | src/platform_pki/ca_rollover_recover.py:680-716 | A promotion leaves the number unchanged without a pending manifest and one higher with one, and can be repeated after any kill |
| Handover.Transaction.RefreshManifest | src/platform_pki/ca_rollover_prepare.py:1003-1042 | New manifest on disk, then announced, old one removed, then settled: killed anywhere it is in the state of the prefix |
| Handover.Transaction.PromotePending | src/platform_pki/ca_rollover_recover.py:680-716 | The pending manifest is verified, the old one removed if it is still there, the journal rewritten |
| Generations.NextRoot | src/platform_pki/ca_rollover_prepare.py:890-915 | The allocator refuses an unsafe or malformed entry and otherwise returns the least number above every root reservation and authority |
| Generations.NextIntermediate | src/platform_pki/ca_rollover_prepare.py:918-947 | The same for the intermediates of one root, looking only at entries that claim that root |
| Generations.NextRootIsAbove | src/platform_pki/ca_rollover_prepare.py:890-915 | On directories that list exactly the reserved and existing IDs a number is the allocator's result if and only if it is the least above all of them |
| Generations.NextIntermediateIsAbove | src/platform_pki/ca_rollover_prepare.py:918-947 | The same for intermediates |
| GenerationHistory.NeverAllocatedAgain | src/platform_pki/ca_rollover_prepare.py:890-947 | Over every sequence of preparations, each published, resumed and rolled back any number of times and killed anywhere: an ID whose reservation is once in the directory stays there, and whatever the allocators return for the directory as it then is, it is not that ID |
| GenerationHistory.AllocatedNew | src/platform_pki/ca_rollover_prepare.py:890-947 | What the allocators return for a directory is neither reserved nor existing in it |
| GenerationHistory.AllocatedOnce | src/platform_pki/ca_rollover_prepare.py:890-947 | In every state the allocators return one and only one root number, and one intermediate number under each root |
| PreparationRollback.ReservationsStay | src/platform_pki/ca_rollover_recover.py:1341-1358 | The publishing run, a resume and a rollback, from any state and killed anywhere, replace a reservation but never remove it |
| CsrWalk.WalkExact | src/platform_pki/csr_history.py:1743-1757 | A request authenticates if and only if it heads a well-formed chain of at most 256 outcomes |
| CsrWalk.CycleRefused | src/platform_pki/csr_history.py:1752-1753 | A request whose predecessors lead back to itself is refused, whatever the evidence |
| CsrWalk.ChainDistinct | src/platform_pki/csr_history.py:2112-2133 | No request occurs twice on a chain |
| CsrWalk.ChainUnique | src/platform_pki/csr_history.py:2112-2133 | A request heads at most one chain |
| CsrWalk.Authenticator.Historical | src/platform_pki/csr_history.py:1746-1757 | The memoised recursion terminates on every graph, answers as the walk without memo, restores its stack, and its memo holds exactly the requests of the accepted chain with their outcomes |
| CsrRetained.AcceptedIsOneLine | src/platform_pki/csr_history.py:2954-3024 | If a service is accepted its finalized outcomes are exactly one chain without repetition, at most 256 long, whose head its active pointer names |
| CsrRetained.AcceptedHistory | src/platform_pki/csr_history.py:2954-3024 | Acceptance means: no pointer if and only if nothing is finalized; otherwise one line, exactly one root that is an issue or a migration, and no two finalized renewals of the same predecessor |
| CsrRetained.CollectHeads | src/platform_pki/csr_history.py:2954-2993 | The loop over candidates accepts if and only if candidates and outcomes coincide and all authenticate, and collects the finalized outcomes that no finalized renewal supersedes |
| CsrRetained.CheckService | src/platform_pki/csr_history.py:2995-3024 | A service passes if and only if its heads are exactly its active pointer and the pointer repeats the authenticated outcome |
| CsrRetained.CheckRetained | src/platform_pki/csr_history.py:2861-3024 | The whole check passes if and only if every service does, is in the inventory, and no request is retained for two services |
| CsrLifecycle.Service.Decide | src/platform_pki/csr_candidate.py:884-1039 | A candidate decision: refused, acknowledged without a write, or published with outcome and pointer exactly as the pure builders derive them; nothing already retained changes |
| CsrLifecycle.EveryRunIsOneLine | src/platform_pki/csr_candidate.py:322-360 | After every run of retained candidates and decisions the finalized outcomes are one line and the pointer repeats its head |
| CsrLifecycle.RunLinear | src/platform_pki/csr_candidate.py:621-880 | A run only ever adds to the front of the line |
| CsrLifecycle.PublishedIsExact | src/platform_pki/csr_candidate.py:202-272 | The decision that a publication writes passes the authenticator's exact check in the new state, with the authenticated head as its predecessor if it renews, and with none otherwise |
| CsrLifecycle.WriterAgrees | src/platform_pki/csr_candidate.py:202-272 | Decision and active record, as the command writes them, equal field by field those that the authenticator builds from the inventory, the request it was asked about and the filed evidence |
| CsrLifecycle.LinearAccepted | src/platform_pki/csr_history.py:2995-3024 | A service with a single line is accepted if and only if no candidate is pending and no chain exceeds 256 |
| CsrLifecycle.ReachableAccepted | src/platform_pki/csr_history.py:2995-3024 | The same for every state that a run reaches from an empty service |
| CsrLifecycle.TooDeepStrands | src/platform_pki/csr_history.py:1754-1755 | With a line of more than 256 finalized outcomes nothing is ever decided or accepted for the service again |
| CsrLifecycle.PublishedReadsExactly | src/platform_pki/csr_history.py:1754-1755 | After a published decision its outcome authenticates if and only if its history fits the depth bound, and the pointer reads unless a finalization does not fit |
| CsrDepth.BoundExceeded | src/platform_pki/csr_candidate.py:621-880 | Every service can be taken from empty to 257 links by ordinary decisions, each published; after the last the pointer does not read, and whatever follows nothing is decided or accepted any more |
| CsrLifecycle.PublishedForEver | src/platform_pki/csr_history.py:2740-2762 | Evidence accepted fresh authenticates at every later time exactly as filed if its history fits the depth bound; if it does not, the service is never accepted again, and after a finalization nothing is decided again |
| CsrLifecycle.RetryAcknowledged | src/platform_pki/csr_candidate.py:963-1006 | Repeating a decision writes nothing and is acknowledged if and only if it is in time and, for a finalization, still the active one |
| CsrLifecycle.StatusExact | src/platform_pki/csr_candidate.py:381-406 | A candidate is reported active exactly at the head of the line, superseded exactly below it, abandoned or pending otherwise; the report fails if and only if the pointer or the candidate's own outcome does not authenticate, so never while all histories fit the depth bound |
| CsrLifecycle.WalkGrows | src/platform_pki/csr_history.py:2112-2133 | What authenticates once authenticates with the same result whatever is retained later |
| Passphrase.MeasureFirstLine | src/platform_pki/ca_passphrase_verify.py:142-222 | For every file and every way reads split it, the chunked loop computes the length and text flag of the one-pass decoder on the first line without its NUL bytes |
| Passphrase.Validate | src/platform_pki/ca_passphrase_verify.py:229-238 | The verdict follows from length and flag in the order empty, blank, short |
| Passphrase.Feed | src/platform_pki/ca_passphrase_verify.py:170-215 | Feeding one byte to the machine changes nothing in what the whole line will measure |
| Passphrase.DecodesText | src/platform_pki/ca_passphrase_verify.py:170-215 | The decoder inverts UTF-8 encoding on every text |
| Passphrase.AcceptedIsEncoding | src/platform_pki/ca_passphrase_verify.py:177-186 | An accepted sequence is the encoding of its code point: overlong forms, surrogates and values above U+10FFFF are not accepted |
| Passphrase.TokensSpell | src/platform_pki/ca_passphrase_verify.py:170-215 | No byte is lost or counted twice: the tokens spell the input |
| Passphrase.MalformedIsNoCharacter | src/platform_pki/ca_passphrase_verify.py:188-193 | Where bytes are counted as malformed no character is encoded |
| Passphrase.CountBounds | src/platform_pki/ca_passphrase_verify.py:182-184 | The count lies between a quarter of the bytes and all of them |
| Passphrase.TextAccepted | src/platform_pki/ca_passphrase_verify.py:229-238 | A text is accepted if and only if it has at least 16 characters, one of which is no space |
| TreeManifest.WrittenAccepted | src/platform_pki/ca_rollover_prepare.py:570-641 | The manifest written for a tree is accepted on it, within the bounds on depth, entries, bytes and device |
| TreeManifest.AcceptedIsWritten | src/platform_pki/ca_rollover_status.py:556-682 | Within the writer's own limits the only bytes accepted on a tree are those that the writer produces for it |
| TreeManifest.AcceptedTreesAgree | src/platform_pki/ca_rollover_status.py:648-677 | One manifest accepted on two trees means the same paths, kinds, identities and, for non-secret files, the same digests |
| TreeManifest.ParseInjective | src/platform_pki/ca_rollover_status.py:576-631 | Two manifests that read alike are the same bytes |
| TreeManifest.ReadShow | src/platform_pki/ca_rollover_prepare.py:624-636 | A row is read back from its line |
| TreeCheck.Validate | src/platform_pki/ca_rollover_status.py:556-682 | The loops of the validator accept exactly as specified: a well-formed, strictly ordered manifest with the same paths as the tree and an agreeing row for every object |
| TreeCheck.Write | src/platform_pki/ca_rollover_prepare.py:570-641 | The loop of the writer produces the specified bytes or refuses |
| TreeCheck.ReadManifest | src/platform_pki/ca_rollover_status.py:576-631 | The loop over lines with its running name and its dictionary reads exactly the legal manifests |
| RecoveryRecord.ParsePrint | src/platform_pki/ca_rollover_recovery.py:468-489 | The fields that are read back unchanged from what is printed for them are exactly the legal ones |
| RecoveryRecord.PrintParse | src/platform_pki/ca_rollover_recovery.py:468-489 | Parsing and printing gives the same bytes: a record has one spelling in its order |
| RecoveryRecord.RewriteKeeps | src/platform_pki/ca_rollover_recovery.py:1764-1785 | Rewriting in sorted order keeps every field |
| RecoveryRecord.RewriteIsIdentityOnSorted | src/platform_pki/ca_rollover_recovery.py:1764-1785 | Rewriting what was parsed gives the same bytes if and only if the fields were in order |
| RecoveryRecord.RewriteCanonical | src/platform_pki/ca_rollover_recovery.py:1764-1785 | Records with the same fields are rewritten to the same bytes |
| RecoveryRecord.ParseRecord | src/platform_pki/ca_rollover_recovery.py:468-489 | The parsing loop with its set of seen keys accepts exactly the legal records |
| RecoveryRecord.CheckCopies | src/platform_pki/ca_rollover_recovery.py:1518-1557 | The check accepts exactly the sets of copies that are a prefix of the required ones, with optional ones only after all of them, each with its recorded destination |
| RecoveryRecord.LoopIsCumulative | src/platform_pki/ca_rollover_prepare.py:1983-2038 | Every prefix of the copy loop passes the check, whatever older files exist |

## Left out

- OpenSSL, ssh-keygen, age, certificate profiles, signatures and SHA-256: digests are opaque values or uninterpreted functions, signature checks are taken as passed.
- Locks, signals, umask, fsync, terminals, fault and pause hooks: a single writer that may be killed between any two writes.
- Ownership, modes and link counts of recovery objects beyond what identifies them; they are part of the identity tokens.
- Changes made by others while a transaction is open: ledgers, receipts, services, policy, inventory and the contents of authority trees are assumed to stay as journaled, so the checks on them always pass.
- The original identities of the backup session, the active manifest and the issuers are always absent in the migration model, as the writer records them.
- Commands for another transaction than the one in the journal, in the legacy and preparation machines; the terminal protocol has them.
- A preparation before its `staged` checkpoint: planned, partly staged and incomplete preparations can only be rolled back, and that path is modelled only in its terminal part. Allocation takes a preparation from any state that this part may leave.
- `_recover_bootstrap`: the same pattern with fewer steps.
- Partial replacement, partial tree removal and partial finalization: exact replacement, tree removal and the publication of an outcome with its pointer are one step each, so the recovery of an interrupted finalization is not modelled.
- Managed certificates of a migrated service are assumed to stay as they are, as authentication reads them again at every later time.
- Trust modes and trust replacement: evidence is authenticated against the trust that is filed with it.
- Syntax of request IDs, fingerprints, dates, epochs and generation names: IDs are opaque, epochs and generation numbers are naturals.
- The text form of identities in tree manifests: writing and reading them are parameters that must be inverse to each other.
- Empty directories and the order in which a directory is walked, beyond what a manifest or a view records.
- Reading the whole of a manifest at once and the recheck of a passphrase file after it is read.
- Passphrase.MeasureFirstLine: the classification of white space is a parameter, because the code asks the C library for it.
- backup.py, certificate_export.py, csr_outcome.py, csr_trust_install.py, cli.py and the archive builder: plumbing and field checks.
