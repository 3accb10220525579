# Privileged access protocols of OneTerm, modelled and proved in Dafny

The backend changes managed passwords on remote systems, grants temporary access after external approval, admits
and watches managed sessions, and keeps a node hierarchy with authorization rules. All of it works on database rows
that many processes read and write, each of which may stall, crash or be pre-empted at any moment. This project
models those parts and proves what they keep over every interleaving.

`dafny verify dfyconfig.toml` checks everything.

## How it is built

Each repository transaction is one atomic step. Its specification is a function on the tables as one value
(`CredentialSpec`, `ExecutionSpec`, `RequestSpec`, `SessionLease`); a class with the tables as mutable fields
(`ExecutionRepository.PamStore`, `RequestRepository.AccessStore`, `SessionRepository.LeaseStore`) has one method per
transaction, proved to compute that function, rolled-back refusals included. The theorems are about arbitrary
sequences of these steps by any number of callers, with the clock moving in between.

- **Password changes.** `VaultInvariant` and `VaultRuns` treat the store alone. `PasswordProtocol` adds executors that
  take one visible step at a time, one remote system per owner, and a network that may delay or lose what was sent. An
  authorisation reads the tables as the code does (`TargetSpec`); only what others decide, permissions and policies, is
  a free boolean. `ProtocolInvariant` and `NoLockOut` prove the headline theorem. `TargetInvariant`, `HolderPositions`,
  `DeadEnds` and `Endings` prove exactly when an execution can still be ended, `StrandedExecutions` four ways in which
  it no longer can, `SmallWorld` has the smallest inputs.
  `ExecutorProgram` has the executors as programs, with anything else going on between two of their steps, and proves
  every step of them to be a step of the protocol, and what they achieve while nobody else touches the execution
  (`Undisturbed`).
- **Access requests.** `RequestInvariant`, `RequestRuns` and `RequestWorker`: approvals, cancellations, expiry, policy
  and settings changes, removal of management, decisions in any order and number, and the leased worker.
- **Outcomes.** `ExecutionOutcomes`, `RequestCreation`, `RequestOutcomes` and `SyncOutcomes` say of each transaction, and
  of the synchronisation, when it is accepted and what it leaves, on the tables before and after it.
- **Connections.** `ConnectionPermit`, `PermitRevocation`, `SessionLease`, `SessionRepository`, `SessionWatch`,
  `WatchedSession`.
- **Algorithms.** `NodeGraph`, `NodeWalks`, `NodePermissions` (depth-first walks that update maps in place) and
  `AuthorizationMatcher`.

Identifiers are natural numbers, 0 being the empty column. Times are integers in nanoseconds. A secret is opaque apart
from its kind. The unique indexes of the schema are part of the invariants.

## What the no-lock-out theorem assumes

They are the predicates `Truthful` and `FreshCandidate` of `PasswordProtocol`:

- a reply that says changed was applied, one that confirms unchanged never will be, and a successful authentication
  with a secret means the remote system accepts that secret. That "not attempted" means not sent is not assumed: it is
  proved of both platform executors;
- the operator's confirmation that the remote operation has stopped holds when the original is kept;
- the prepared candidate differs from the secret in use. The code draws random candidates but does not compare a
  supplied password with the current one. `Freshness.FreshCandidateDecides` shows this to be exactly the missing
  condition, in both directions, for every preparation that can be started at all;
- creating an owner or replacing its credential by hand records the value the remote system has from then on, and
  nothing else changes the remote password.

That at most one mutation is ever sent needs none of these.

## Where the code is weaker than one might expect

- A password change can strand, and its account with it. An authorisation to resume compares the revisions stored at
  preparation, and nothing that bumps them asks whether an execution is active: an account disabled and enabled again
  between preparation and claim can never be resumed, reconciled or kept, and takes no new credential and no removal of
  management either (`StrandedExecutions.RevisedBeforeClaim`). Deleting the asset, or attaching the account to a second
  one, strands an execution in any state unless an executor that was let through before can still finish
  (`StrandedExecutions.DeletedAssetStrands`, `StrandedExecutions.SecondAssetStrands`). `Endings.EndsExactly` is the exact condition.
- An account can be deleted under an active execution. What holds the deletion up is a bound asset that still exists, or
  an enabled rule that lists the account, and assets of which the first still exists, by id; nothing asks for executions
  (`StrandedExecutions.DeletionWaitsForAsset`). Every call that ends an execution loads its account first, so from then on
  it cannot end, not even through the holder of a live lease (`StrandedExecutions.DeletedAccountStrands`,
  `StrandedExecutions.DeletionCutsOff`).
- Creating a node is not guarded by the cycle check. `NodeWalks.CreateExactly` says when it nevertheless keeps a
  forest, `NodeWalks.CreateCanLoop` gives the smallest table it breaks.
- A synchronisation is also reported done when the provider calls the workflow finished without sending the event that
  would end the request here; the request then stays open. `RequestWorker.Conclude` states exactly when.
- A loss of authority is noticed only by a read that falls inside it: always if it lasts a check, a sleep and a check,
  by chance if it is shorter (`SessionWatch.NoticedExactly`, `SessionWatch.LossUnnoticed`). A changed policy, a revised or
  removed binding, a deleted asset, an ended grant and a passed deadline are permanent
  (`PermitRevocation.RevocationIsFinal`); an account disabled and enabled again, or a source address readmitted, between
  two checks is not noticed.

## Model

| member | source | states |
|---|---|---|
| NoLockOutTheorem.NoLockOutEver | backend/internal/service/pam_execution_runner.go:22-98 | Over every interleaving of any number of executors, crashes, lost or late mutations, lost replies, lease expiries and competing writers: the vault holds a readable version with the secret the remote system accepts, the active one when no execution is active, otherwise the active previous or the pending candidate of that execution |
| NoLockOutTheorem.NextKeeps | backend/internal/repository/pam_execution.go:97-339 | Every single step of executors, network, clock and other writers keeps the invariant behind it |
| Freshness.FreshCandidateDecides | backend/internal/service/pam_password.go:471-488 | The one assumption the code does not check, as an if-and-only-if: after a committed preparation, lock-out is impossible in all continuations exactly when the candidate differs from the secret in use, or the account is bound to a second asset as well so that nobody is let through to it; otherwise a concrete run ends locked out |
| Freshness.HeldBackIsSafe | backend/internal/service/pam_account_scope.go:16-33 | An execution nobody is let through to keeps the invariant of the theorem over every assumed run, whatever its candidate |
| NoLockOutTheorem.AtMostOneSendEver | backend/internal/repository/pam_execution.go:153-187 | At most one executor ever sends for an execution, with no assumption about the outside at all |
| NoLockOutTheorem.ClosedExecutionsAreQuiet | backend/internal/repository/pam_execution.go:258-339 | When an execution has ended, nothing of it can still reach the remote system |
| Endings.EndsExactly | backend/internal/service/pam_password.go:520-630 | In every reachable world, as an if-and-only-if: some continuation that keeps the assumptions, permission given to whoever asks, ends the execution exactly when it has ended; or its account was not deleted and either the tables still allow the work, at once or after account, binding and asset are put right again (the asset is not deleted, the account is bound to no other, and for an unsent execution or one without a stored scope neither account nor binding was revised), or an executor that was let through before holds the lease and can still finish, or is cleared to claim |
| DeadEnds.NextStaysStuck | backend/internal/service/pam_password.go:498-507 | Where that condition has failed, no event of any executor, writer, clock or network brings it back |
| DeadEnds.OrphanedForGood | backend/internal/repository/pam_execution.go:128-151 | Without its account an active execution stays active over every run, with no assumption about the outside |
| Endings.CarrierEnds | backend/internal/service/pam_execution_runner.go:44-98 | The positive half for executors: while the account exists, whoever holds the lease and stands at one of the listed points of its program has a way to an end without being let through again |
| StrandedExecutions.RevisedBeforeClaim | backend/internal/service/pam_account.go:293-330 | After any history: an account disabled and enabled again between preparation and claim strands the execution; account, binding and asset are as before, yet nothing anybody does, lies included, takes it out of prepared, and the account gets no new credential, no release from management and no other change |
| StrandedExecutions.NeverLeft | backend/internal/service/pam_execution_runner.go:24-43 | A prepared execution that was never claimed, for which nobody is cleared and whose account or binding was revised or asset deleted, is the same row after every run, with no assumption about the outside |
| StrandedExecutions.DeletedAssetStrands | backend/internal/api/controller/asset.go:65-74 | Deleting the asset of an execution that nobody under way can finish leaves no continuation that ends it |
| StrandedExecutions.SecondAssetStrands | backend/internal/service/pam_account_scope.go:16-33 | So does attaching its account to a second asset, which nothing undoes while the execution is active |
| StrandedExecutions.DeletedAccountStrands | backend/internal/repository/pam_execution.go:128-151 | After any history: once the account of an active execution is deleted, nothing anybody does, the lease holder and lies included, ends the execution |
| StrandedExecutions.DeletionCutsOff | backend/internal/repository/pam_execution.go:128-151 | Deleting the account takes an execution from can be ended to can never be, even under the lease holder that was about to end it |
| StrandedExecutions.DeletionWaitsForAsset | backend/internal/repository/account.go:125-165 | Only a bound asset that still exists, and the rule check among the conditions decided outside, hold a deletion up: an accepted one means the asset of the active execution is gone, and with one asset bound it is accepted exactly then, whatever the execution is doing |
| StrandedExecutions.ActiveExecutionHolds | backend/internal/service/credential.go:132-143 | While an execution is active its account accepts no new credential, no removal of management and no other preparation |
| SmallWorld.RevisedAccountStrands | backend/internal/service/pam_account.go:293-330 | The first stranding at a concrete smallest input, for every continuation |
| SmallWorld.DeletedAccountCutsOff | backend/internal/api/controller/base.go:179-242 | The fourth at a concrete input: prepared, cleared, claimed, asset deleted, and the holder can still give the change up; the account deleted, and no continuation ends it |
| SmallWorld.StaleCandidateLocksOut | backend/internal/service/pam_password.go:471-488 | A concrete preparation with the password in use commits, and some assumed run after it locks out |
| TargetInvariant.CallKeepsTargets | backend/internal/repository/pam_execution.go:153-187 | While an execution is active its binding stays, the revisions of account and binding never fall below the stored ones, and one that still is the stored one means an enabled row with the stored scope |
| TargetInvariant.CallMovesTargets | backend/internal/service/pam_account.go:245-371 | Whatever anybody calls: revisions of accounts and bindings only grow and stand for unchanged rows, deleted accounts and assets stay deleted, and no binding of an account with an active execution disappears |
| TargetInvariant.LostForGood | backend/internal/service/pam_password.go:94-99 | What matchesExecution and the load of the target cannot allow any more they never allow again |
| HolderPositions.NextKeepsPlaced | backend/internal/service/pam_execution_runner.go:40-98 | Program and durable row never drift apart: where the lease holder of an active execution stands determines the state of the row |
| ExecutionRepository.PamStore.LoadTarget | backend/internal/service/pam_password.go:119-140 | The load of a password target refuses exactly where the specification does |
| ExecutionRepository.PamStore.CheckWork | backend/internal/service/pam_password.go:94-99 | The test of an execution against its target, by revisions or by scope, is the specified one |
| ExecutionRepository.PamStore.ReviewBinding | backend/internal/service/pam_account.go:333-371 | The review on the mutable tables is the specified one: the binding follows its asset, keeps its configuration only if it had not lost it, and moves to the next revision |
| ExecutionRepository.PamStore.SavePasswordConfig | backend/internal/service/pam_password.go:258-310 | Saving the configuration is the specified transaction, behind the load of the target |
| ExecutionRepository.PamStore.AttachBinding | backend/internal/service/pam_account.go:215-238 | Attaching on the mutable tables is the specified one, one binding per account and asset |
| ExecutionRepository.PamStore.DeleteOwner | backend/internal/api/controller/base.go:179-242 | Deleting an account or gateway on the mutable tables is the specified one: refused while an asset needs it, otherwise the row is marked and nothing else changes |
| ExecutorProgram.RunPAMExecution | backend/internal/service/pam_execution_runner.go:22-98 | The program, with arbitrary events of others between any two steps, is a run of the protocol and ends where the protocol stops the executor; reconciliation sends nothing; success without error means the execution is completed. And what it achieves: while nobody else touches what the execution depends on and the lease lasts, a claimable row that the tables allow work on ends as what the run meets says, completed with the account resolving to the candidate after an acknowledged change and a successful verification, failed with the code of a change that was not sent or was refused, unknown otherwise; without permission, row or claim nothing changes |
| ExecutorProgram.AuthorizedRun | backend/internal/service/pam_execution_runner.go:52-84 | The branch on the change result is exactly the step the protocol takes for that result, under all interference |
| ExecutorProgram.VerifyAndPublish | backend/internal/service/pam_execution_runner.go:85-98 | Verification is recorded before publication, nothing is sent, and success means completed; undisturbed, a verified candidate is published and an unverified one leaves the row unknown |
| ExecutorProgram.AttemptChange | backend/internal/service/pam_execution_runner.go:60-84 | The change callback and its record: undisturbed, the row records exactly what the platform reports for such a session, and the run goes on exactly after a change |
| ExecutorProgram.ChangedExactly | backend/internal/service/pam_execution_mysql.go:147-193 | A platform reports a change exactly if every step of the session goes well and the statement or command is accepted |
| Undisturbed.GapKeeps | backend/internal/service/pam_execution_runner.go:22-98 | A gap in which nobody else touches row, account, bindings, assets or versions leaves lease, permission, secrets and what the account resolves to as they were |
| Undisturbed.PublishGoes | backend/internal/repository/pam_execution.go:218-255 | A live lease holder of a verified row publishes, and the account then resolves to what was the candidate |
| ExecutorProgram.PreserveOriginal | backend/internal/service/pam_password.go:590-630 | The keep-original program never sends, and success means the execution closed as original_verified; undisturbed, that is what becomes of a claimable row exactly if permission is given and the original is accepted, with the account resolving as before |
| ExecutorProgram.MySQLChange | backend/internal/service/pam_execution_mysql.go:147-193 | Attempted if and only if the statement was sent, which happens only after the callback succeeded; unchanged is confirmed only for a listed database error after sending |
| ExecutorProgram.LinuxChange | backend/internal/service/pam_execution_ssh.go:192-241 | The same boundary for Linux; nothing it reports ever confirms that a sent command had no effect |
| ExecutorProgram.ArmAndSend | backend/internal/service/pam_execution_mysql.go:179-192 | Callback, mutation and reply of either platform executor: where the executor then stands is determined by the result it reports |
| PlatformResults.MySQLFailure | backend/internal/service/pam_execution_mysql.go:94-125 | Confirmed unchanged exactly for an attempted statement refused with one of the twelve listed numbers; never a success code |
| PlatformResults.MySQLCodes | backend/internal/service/pam_execution_mysql.go:94-125 | Every result code with exactly the failures it stands for |
| PlatformResults.SSHFailure | backend/internal/service/pam_execution_ssh.go:93-108 | Never confirms unchanged; an authentication failure is only reported before sending |
| PlatformResults.SSHCodes | backend/internal/service/pam_execution_ssh.go:93-108 | Every result code with exactly the failures it stands for |
| ExecutorProgram.ProgramsDoNotLockOut | backend/internal/service/pam_execution_runner.go:20-23 | No lock-out, stated for whatever these programs and everyone else did on one store |
| ExecutorProgram.Cluster.Save | backend/internal/repository/pam_execution.go:189-298 | A store call of an executor is the one the protocol has it make at that point |
| ExecutorProgram.Cluster.Clear | backend/internal/service/pam_execution_runner.go:28-33 | The authorisation before the claim: granted exactly when the caller is and the tables allow this work on this execution |
| ExecutorProgram.Cluster.Authorize | backend/internal/service/pam_execution_runner.go:44-51 | The authorisation after it, computed from the tables again; refused, the executor lands where the program abandons an unsent execution or stops |
| ExecutorProgram.ClaimedRun | backend/internal/service/pam_execution_runner.go:44-52 | From the claim on: a refused change is finished unsent, a refused recovery left as it is |
| ExecutorProgram.Cluster.BeforeChange | backend/internal/service/pam_execution_runner.go:61-66 | The callback: authorisation again, then the durable record, or the executor lands where it reports not attempted |
| ExecutorProgram.Cluster.Step | backend/internal/service/pam_execution_runner.go:22-98 | Any event of any executor leaves the store in the state the protocol prescribes and moves no other executor |
| VaultRuns.RunKeepsVault | backend/internal/repository/pam_execution.go:28-94 | Over every run of repository calls, deletions included: while an execution is active the row of its account stays managed, password-typed and pointing at the previous version, the candidate stays pending, and no second execution is active for the account. A deletion only marks the row |
| VaultRuns.PublishSucceedsExactly | backend/internal/repository/pam_execution.go:218-255 | Publish succeeds exactly on a completed row or, while the account exists, for a live lease holder of a verified one: its compare-and-swap cannot fail |
| VaultRuns.PreserveOriginalSucceedsExactly | backend/internal/repository/pam_execution.go:300-339 | PreserveOriginal succeeds exactly for a live lease holder of an unknown row whose account exists |
| VaultRuns.BeforeChangeSucceedsExactly | backend/internal/repository/pam_execution.go:153-187 | Only an account edited or deleted, or a binding edited, since preparation can refuse the first live holder |
| VaultRuns.AtMostOneStart | backend/internal/repository/pam_execution.go:153-187 | Over any run with any number of claims BeforeChange commits at most once per execution |
| VaultRuns.NeverPreparedAgain | backend/internal/repository/pam_execution.go:97-126 | Once BeforeChange has committed, no run of calls brings the row back to prepared |
| VaultRuns.VerifiedUnderThisClaim | backend/internal/repository/pam_execution.go:203-216 | A verified row was verified by its present lease owner since that owner last claimed it |
| VaultRuns.PublishedOnOwnVerification | backend/internal/repository/pam_execution.go:218-255 | Publish that changes anything follows a successful verification made under the same claim |
| VaultRuns.OnlyLiveHolderCloses | backend/internal/repository/pam_execution.go:97-126 | The active slot is set exactly in the five non-terminal states and only a closing call of the live lease holder clears it; time alone never does |
| VaultRuns.CommittedCallsTransition | backend/internal/repository/pam_execution.go:97-298 | Every committed call moves its row by the one transition of the state machine; a refused call changes nothing |
| VaultRuns.RunMovesForward | backend/internal/repository/pam_execution.go:28-339 | Rows keep their identity, never lose a send record and freeze once terminal; versions only move pending, active, retained |
| VaultRuns.ActiveVersionIsTheReference | backend/internal/repository/pam_credentials.go:175-225 | After any run a version is active exactly when it is its owner's reference, so at most one per owner |
| VaultRuns.PrepareReplays | backend/internal/repository/pam_execution.go:39-46 | A preparation repeated at any later point of any run, while the account is managed, answers with the same execution and changes nothing |
| ExecutionOutcomes.PreparedExactly | backend/internal/repository/pam_execution.go:28-71 | A preparation under a new key is accepted exactly if account and binding are as seen and nothing of the account is under way |
| ExecutionOutcomes.PreparationStored | backend/internal/repository/pam_execution.go:71-88 | It stages the candidate as pending and pins account, binding, scope and previous version as they are; nothing else changes |
| ExecutionOutcomes.RepeatedPreparation | backend/internal/repository/pam_execution.go:39-46 | Under a used key it answers with that execution exactly for the same request |
| ExecutionOutcomes.ClaimedExactly | backend/internal/repository/pam_execution.go:97-126 | Accepted exactly on an active row whose lease is out, a prepared one for the change and any other for recovery; two minutes of lease |
| ExecutionOutcomes.BegunExactly | backend/internal/repository/pam_execution.go:153-187 | Accepted exactly for a live holder of a prepared row whose account and binding were not revised |
| ExecutionOutcomes.ChangeRecordedExactly | backend/internal/repository/pam_execution.go:189-201 | When the change result is accepted and what it leaves |
| ExecutionOutcomes.CandidateRecordedExactly | backend/internal/repository/pam_execution.go:203-216 | When the candidate result is accepted and what it leaves |
| ExecutionOutcomes.FinishedExactly | backend/internal/repository/pam_execution.go:258-298 | When an unsent or rejected change is closed, and that only row and audit change |
| ExecutionOutcomes.PreservedExactly | backend/internal/repository/pam_execution.go:300-339 | When the original is kept, and that the candidate is retained |
| ExecutionOutcomes.PublishedExactly | backend/internal/repository/pam_execution.go:218-255 | When a publication is accepted, and its whole effect on row, audit, versions and account |
| ExecutionOutcomes.StoredExactly | backend/internal/service/credential.go:61-80 | A credential is stored exactly if it fits and replaces what it was to replace |
| ExecutionOutcomes.CreatedExactly | backend/internal/service/credential.go:82-85 | When an owner is created with its first credential |
| ExecutionOutcomes.EditedExactly | backend/internal/service/credential.go:87-145 | When an edit is accepted, managed and unmanaged, and what it stores |
| ExecutionOutcomes.AdoptedExactly | backend/internal/service/pam_account.go:107-124 | When an account is adopted, and that it resolves as before |
| ExecutionOutcomes.RemovedExactly | backend/internal/service/pam_account.go:245-291 | When management is removed: at the revision seen, with nothing under way, bindings gone |
| ExecutionOutcomes.SwitchedExactly | backend/internal/service/pam_account.go:293-330 | When an account is enabled or disabled; nothing asks for executions |
| ExecutionOutcomes.ReviewedExactly | backend/internal/service/pam_account.go:333-371 | When a binding is reviewed and when it keeps its configuration |
| ExecutionOutcomes.ConfiguredExactly | backend/internal/service/pam_password.go:258-310 | When a configuration is saved |
| ExecutionOutcomes.AttachedExactly | backend/internal/service/pam_account.go:215-238 | When an account is attached to an asset |
| ExecutionOutcomes.DeletedExactly | backend/internal/api/controller/base.go:179-242 | When an account or gateway is deleted |
| ExecutionOutcomes.MayWorkExactly | backend/internal/service/pam_password.go:94-140 | What an authorisation compares, for a change and for recovery |
| CredentialSpec.PublishIsCompareAndSwap | backend/internal/repository/pam_credentials.go:203-225 | Publishing a version succeeds exactly when the reference is the one compared with and both versions are in the expected states; then it changes those three things and nothing else |
| VaultResolution.PersistResolves | backend/internal/service/credential.go:61-80 | A stored credential that is accepted is what its owner resolves to from then on; everyone else resolves as before |
| VaultInvariant.PublishKeeps | backend/internal/repository/pam_execution.go:218-255 | Publication keeps the vault invariant |
| VaultInvariant.PreserveOriginalKeeps | backend/internal/repository/pam_execution.go:300-339 | Keeping the original keeps the vault invariant |
| VaultInvariant.PrepareKeeps | backend/internal/repository/pam_execution.go:28-94 | Preparation keeps the vault invariant |
| VaultInvariant.UpdateCredentialKeeps | backend/internal/service/credential.go:87-145 | A manual edit cannot disturb an active execution |
| VaultInvariant.RemoveManagementKeeps | backend/internal/service/pam_account.go:245-291 | Neither can removing management |
| VaultResolution.UpdateResolves | backend/internal/service/credential.go:87-145 | After an accepted edit the owner resolves to the new secret and everyone else as before |
| VaultResolution.AdoptResolves | backend/internal/service/pam_account.go:107-124 | Adoption moves a legacy secret into a version without changing what the account resolves to |
| VaultResolution.CreateResolves | backend/internal/service/credential.go:82-85 | A created owner resolves to the secret it was given, everyone else as before |
| ExecutionRepository.PamStore.Prepare | backend/internal/repository/pam_execution.go:28-94 | The transaction on the mutable tables is exactly the specified preparation, and keeps the invariant |
| ExecutionRepository.PamStore.Claim | backend/internal/repository/pam_execution.go:97-126 | The transaction on the mutable tables is exactly the specified claim, and keeps the invariant |
| ExecutionRepository.PamStore.BeforeChange | backend/internal/repository/pam_execution.go:153-187 | The transaction on the mutable tables is exactly the specified durable send record, and keeps the invariant |
| ExecutionRepository.PamStore.ChangeResult | backend/internal/repository/pam_execution.go:189-201 | The transaction on the mutable tables is exactly the specified change result, and keeps the invariant |
| ExecutionRepository.PamStore.CandidateResult | backend/internal/repository/pam_execution.go:203-216 | The transaction on the mutable tables is exactly the specified candidate result, and keeps the invariant |
| ExecutionRepository.PamStore.Publish | backend/internal/repository/pam_execution.go:218-255 | The transaction on the mutable tables is exactly the specified publication, rolled back as a whole on refusal, and keeps the invariant |
| ExecutionRepository.PamStore.FinishUnchanged | backend/internal/repository/pam_execution.go:258-298 | The transaction on the mutable tables is exactly the specified unsent and rejected endings, and keeps the invariant |
| ExecutionRepository.PamStore.PreserveOriginal | backend/internal/repository/pam_execution.go:300-339 | The transaction on the mutable tables is exactly the specified keeping of the original, and keeps the invariant |
| ExecutionRepository.PamStore.CheckLease | backend/internal/repository/pam_execution.go:128-151 | The lease test refuses exactly where the specification does |
| ExecutionRepository.PamStore.PublishVersion | backend/internal/repository/pam_credentials.go:203-225 | The version swap on the mutable tables is the specified one |
| ExecutionRepository.PamStore.Activate | backend/internal/repository/pam_credentials.go:175-201 | The activation on the mutable tables is the specified one |
| ExecutionRepository.PamStore.UpdateStoredCredential | backend/internal/service/credential.go:87-145 | The edit on the mutable tables is the specified one, and keeps the invariant |
| ExecutionRepository.PamStore.Adopt | backend/internal/service/pam_account.go:86-158 | The adoption on the mutable tables is the specified one, and keeps the invariant |
| ExecutionRepository.PamStore.RemoveManagement | backend/internal/service/pam_account.go:245-291 | The removal on the mutable tables is the specified one, and keeps the invariant |
| ExecutionRepository.PamStore.CreateOwner | backend/internal/service/credential.go:82-85 | The creation with its first credential is the specified one, and keeps the invariant |
| ExecutionRepository.PamStore.SetEnabled | backend/internal/service/pam_account.go:293-330 | The switch on the mutable tables is the specified one, and keeps the invariant |
| RequestRuns.RunKeeps | backend/internal/service/pam_itsm_decision.go:57-118 | Every run of applicants, operators, provider decisions, workers and clock keeps the request invariants and takes no request back |
| RequestRuns.NothingComesBack | backend/internal/repository/pam_access.go:136-152 | Between any two points of a run: an ended request stays ended with its grant, a grant is given at most once and its times never change, nothing returns to pending |
| RequestRuns.ActiveAccessIsBacked | backend/internal/model/pam_access.go:132-135 | Approved exactly while a grant is set and not revoked; active access at t implies enough pairwise distinct positive approvers other than the requester, a decision before expiry, and t within the requested duration |
| RequestCreation.ActiveAccessMeetsItsPolicy | backend/internal/service/pam_request.go:188-196 | Over any run: an active access was applied for at some point of it, and meets the policy in force then: as many distinct people other than the requester approved as that asked for, before its expiry, for no longer than it allows, with its permissions |
| RequestCreation.AppliedForOnce | backend/internal/service/pam_request.go:187-213 | Every request of a run was made by one application, and still carries what that stored |
| RequestCreation.ApplicationAcceptedExactly | backend/internal/service/pam_request.go:96-190 | A connect application under a new key is accepted exactly if the account is managed and available under the policy seen, the duration allowed and the binding usable |
| RequestCreation.ApplicationStored | backend/internal/service/pam_request.go:188-206 | It stores the binding as it is and every term of the policy in force, undecided and due for the provider at once |
| RequestCreation.RepeatAnsweredExactly | backend/internal/service/pam_request.go:108-115 | A used key is answered with its request exactly for the same intent |
| RequestCreation.ViewAcceptedExactly | backend/internal/service/password_view.go:330-382 | When an application to view a password is accepted, and with which request it is answered |
| RequestCreation.ViewApplicationStored | backend/internal/service/password_view.go:355-382 | It puts the open requests aside up to the first in the way and otherwise stores one under the settings in force |
| RequestCreation.ViewRepeatAnsweredExactly | backend/internal/service/password_view.go:334-347 | A used key is answered while its scope stands |
| RequestCreation.StandsExactly | backend/internal/service/password_view.go:355-360 | Which open request stands in the way of a new one |
| RequestRuns.ApprovedExactly | backend/internal/service/pam_itsm_decision.go:78-104 | A pending request becomes approved if and only if a well-formed newer approval of its ticket arrives in time from enough approvers while the scope is unchanged |
| RequestOutcomes.DecisionAnsweredExactly | backend/internal/service/pam_itsm_decision.go:32-93 | Every refusal of a decision with its exact condition; a refused decision changes nothing |
| RequestOutcomes.DecisionEnds | backend/internal/service/pam_itsm_decision.go:105-112 | Any other verdict than approval ends an open request, a running grant included, at once and over every later run |
| RequestOutcomes.ApprovalSettles | backend/internal/service/pam_itsm_decision.go:82-104 | An approval by enough people makes of a pending request exactly: expired if late, invalidated if its scope does not stand, otherwise approved with access exactly for the time asked |
| RequestOutcomes.DecisionOnlyRecorded | backend/internal/service/pam_itsm_decision.go:77-85 | On an ended request and as a second approval a decision is only recorded |
| RequestOutcomes.ScopeCurrentExactly | backend/internal/service/pam_request.go:233-255 | What the scope of a request is compared with |
| RequestOutcomes.CancelledExactly | backend/internal/service/pam_request.go:283-300 | When a cancellation is accepted; an open request is then over for good and due for the provider |
| RequestOutcomes.ExpiredExactly | backend/internal/service/pam_itsm_worker.go:51-73 | Exactly the requests past their time expire, for good |
| RequestOutcomes.PolicySavedExactly | backend/internal/service/pam_policy.go:80-201 | When a policy save is accepted, that it stores every setting given, and that it closes exactly the open requests under that policy |
| RequestOutcomes.SettingsSavedExactly | backend/internal/service/password_view.go:107-165 | The same for the settings for viewing passwords |
| RequestOutcomes.ManagementRemovedExactly | backend/internal/service/pam_account.go:245-291 | The same for removing management, which takes policy and bindings with it |
| RequestOutcomes.ViewPolicyEnsured | backend/internal/service/password_view.go:45-68 | What the settings row starts with |
| RequestRuns.ActivationNeverFails | backend/internal/repository/pam_access.go:145-152 | Activation never finds a grant already there |
| RequestRuns.SameSizeMeansDistinct | backend/internal/service/pam_request.go:64-72 | The size test on the approver set passes exactly when no entry is invalid, the requester or repeated |
| RequestRuns.PolicyFence | backend/internal/service/pam_policy.go:171-201 | After any run every open request refers to the policy row now in force, at its current revision |
| RequestRuns.DecideIsOrdered | backend/internal/service/pam_itsm_decision.go:66-80 | A delivery is accepted only with a larger provider revision; otherwise nothing changes |
| RequestRuns.OnlyAcceptedDecisionsCount | backend/internal/service/pam_itsm_decision.go:57-118 | A run equals the run of its accepted deliveries alone, and those carry strictly increasing revisions per request |
| RequestRuns.ApplicationReplays | backend/internal/service/pam_request.go:108-115 | An application repeated at any later point of any run answers with the same request and changes nothing |
| RequestRuns.RedeliveryChangesNothing | backend/internal/service/pam_itsm_decision.go:66-75 | Delivering again what was accepted at any earlier point of a run changes nothing |
| RequestRuns.NoLostSynchronisation | backend/internal/service/pam_itsm_worker.go:150-206 | After a local close, the row is reported synchronised only by a worker that claimed it and read it after that close |
| RequestRuns.DoneMeansRead | backend/internal/service/pam_itsm_worker.go:156-203 | From a row in nobody's hands, done is reached only by claim, read, finish of one worker in that order |
| RequestRuns.StepQueue | backend/internal/service/pam_itsm_worker.go:157-203 | Only a fresh claim puts a row in a worker's hands and only that worker's last update can report it done |
| RequestRuns.CloseTakesBack | backend/internal/repository/pam_access.go:125-133 | Every local close puts the row back to do and out of every worker's hands |
| RequestOutcomes.ClaimedExactly | backend/internal/service/pam_itsm_worker.go:156-167 | Which rows a worker gets, and for how long |
| RequestOutcomes.FinishedExactly | backend/internal/service/pam_itsm_worker.go:180-203 | What a turn leaves: the delays after failures, the limit, and that only the holder reports |
| RequestOutcomes.EightFailuresGiveUp | backend/internal/service/pam_itsm_worker.go:184-196 | Seven failures in a row leave the row to do, the eighth gives it up |
| RequestOutcomes.RetriedExactly | backend/internal/service/pam_itsm_worker.go:209-233 | Which rows are taken up again by hand |
| RequestOutcomes.TicketBoundExactly | backend/internal/service/pam_itsm_worker.go:36-49 | Which tickets are bound |
| RequestInvariant.SavePolicyKeeps | backend/internal/service/pam_policy.go:130-214 | A policy save keeps the fence: it sweeps every open request of the old revision |
| RequestInvariant.SweepsOneScope | backend/internal/service/pam_policy.go:194-197 | The sweep by policy id is a sweep by account |
| RequestInvariant.SaveViewSettingsKeeps | backend/internal/service/password_view.go:107-179 | A settings save keeps the fence |
| RequestInvariant.RemoveManagementKeeps | backend/internal/service/pam_account.go:265-277 | Removing management keeps the fence although the policy row disappears |
| RequestInvariant.CreateViewKeeps | backend/internal/service/password_view.go:330-382 | A view request keeps the invariants through its loop over older requests |
| RequestInvariant.SettleOk | backend/internal/service/pam_itsm_decision.go:76-114 | The branches of a newer decision keep the row invariant and only move the row forward |
| RequestRepository.AccessStore.Decide | backend/internal/service/pam_itsm_decision.go:32-119 | The transaction on the mutable tables is exactly the specified decision |
| RequestRepository.AccessStore.UidSet | backend/internal/service/pam_request.go:64-72 | The loop fills the map with exactly the positive uids other than the excluded one |
| RequestRepository.AccessStore.ScopeCurrent | backend/internal/service/pam_request.go:233-255 | Decides whether the scope of a request is still what was asked for |
| RequestRepository.AccessStore.RequestBinding | backend/internal/service/pam_request.go:74-94 | Finds the binding of a connection or says why there is none |
| RequestRepository.AccessStore.CreateConnect | backend/internal/service/pam_request.go:158-213 | The creation transaction is the specified one |
| RequestRepository.AccessStore.CreateView | backend/internal/service/password_view.go:330-382 | The view request transaction is the specified one |
| RequestRepository.AccessStore.SupersedeFound | backend/internal/service/password_view.go:355-369 | The loop invalidates the requests found up to the first that stands in the way |
| RequestRepository.AccessStore.Expire | backend/internal/service/pam_itsm_worker.go:51-73 | The local expiry is the specified one |
| RequestRepository.AccessStore.Cancel | backend/internal/service/pam_request.go:283-300 | The cancellation is the specified one |
| RequestRepository.AccessStore.SavePolicy | backend/internal/service/pam_policy.go:171-213 | The policy save with its sweep is the specified one |
| RequestRepository.AccessStore.SaveViewSettings | backend/internal/service/password_view.go:139-178 | The settings save with its sweep is the specified one |
| RequestRepository.AccessStore.RemoveManagement | backend/internal/service/pam_account.go:249-286 | The removal with its sweep is the specified one |
| RequestRepository.AccessStore.BindTicket | backend/internal/service/pam_itsm_worker.go:36-49 | The ticket is bound once |
| RequestRepository.AccessStore.ClaimSync | backend/internal/service/pam_itsm_worker.go:157-167 | The claim is the specified one |
| RequestRepository.AccessStore.FinishSync | backend/internal/service/pam_itsm_worker.go:180-203 | The last update reaches the row only under the worker's own token |
| RequestRepository.AccessStore.RetrySync | backend/internal/service/pam_itsm_worker.go:210-235 | The retry is the specified one |
| RequestRepository.AccessStore.EnsureViewPolicy | backend/internal/service/password_view.go:45-68 | The settings row is created once and asks for approval if any older policy did |
| RequestWorker.SyncRequest | backend/internal/service/pam_itsm_worker.go:75-147 | Under arbitrary interference, done is reported only for a request that has ended, or when the provider called the workflow finished; its events and its report are the function SyncTurn of the tables it meets |
| RequestWorker.Conclude | backend/internal/service/pam_itsm_worker.go:126-146 | Done exactly for a request ended before the call, expired or invalidated since, past its grant, or final at the provider |
| RequestWorker.ProcessOne | backend/internal/service/pam_itsm_worker.go:150-206 | One turn of the work loop: its effects are part of the history every run theorem speaks about |
| SyncOutcomes.EventIsDelivered | backend/internal/service/pam_itsm_worker.go:118-122 | Under any interference: unless the synchronisation fails and is tried again, the request has seen the event the provider sent |
| SyncOutcomes.QuietTurn | backend/internal/service/pam_itsm_worker.go:75-147 | Undisturbed and answered, a synchronisation binds the ticket, applies the event, expires what is due, tells the provider of what that closed, and reports done exactly then or at an end |
| SyncOutcomes.ApprovalArrives | backend/internal/service/pam_itsm_worker.go:118-122 | An approval reported in time approves the request for the time asked |
| SyncOutcomes.RejectionArrives | backend/internal/service/pam_itsm_worker.go:118-142 | A rejection or cancellation ends it for good, and the synchronisation is done |
| SyncOutcomes.LateRequestIsClosed | backend/internal/service/pam_itsm_worker.go:123-136 | A request nobody decided on in time is closed here and at the provider |
| SyncOutcomes.TicketArrives | backend/internal/service/pam_itsm_worker.go:98-108 | A new request gets the ticket made for it |
| SyncOutcomes.EndedWithoutTicket | backend/internal/service/pam_itsm_worker.go:88-97 | One that ended before it had a ticket is done exactly on confirmation |
| SyncOutcomes.TurnIsReported | backend/internal/service/pam_itsm_worker.go:176-203 | What a whole turn of the work loop reports of a row nobody took from it |
| ConnectionPermit.Authorize | backend/internal/service/pam_access.go:79-154 | Gives a permit exactly to a user with a usable binding of an available account from an allowed address, policy row or none, and says why otherwise; the permit lists exactly the grants some action needed, without repeats, until their earliest end; standing permission under a policy that asks for no approval is enough; if opening is allowed, the check passes at once |
| ConnectionPermit.GrantDecides | backend/internal/service/pam_access.go:111-139 | Where standing permission does not suffice, an action is allowed exactly by a usable grant |
| ConnectionPermit.StandingNeedsNoGrant | backend/internal/service/pam_access.go:109-117 | Where it does, what it allows stays allowed and uses no grant |
| ConnectionPermit.InScopeExactly | backend/internal/service/pam_session.go:40-76 | A permit is in scope exactly while it could be given again over the same binding and policy |
| ConnectionPermit.GrantActiveExactly | backend/internal/service/pam_session.go:62-74 | For whom, for what and when a grant counts |
| ConnectionPermit.UsableExactly | backend/internal/service/pam_access.go:28-66 | Which operations it covers |
| ConnectionPermit.ApplyGrants | backend/internal/service/pam_access.go:111-139 | Whatever order the map yields, each action gets the result it would get alone |
| ConnectionPermit.FindGrant | backend/internal/service/pam_access.go:28-66 | Returns the best usable grant, latest end first, exactly when there is one |
| ConnectionPermit.CheckScope | backend/internal/service/pam_session.go:40-76 | Passes exactly when nothing pinned has changed and every listed grant is still active |
| Basics.CountTest | backend/internal/service/pam_session.go:72-74 | Equal counts mean nothing repeated and everything matched |
| PermitRevocation.RevocationIsFinal | backend/internal/service/pam_session.go:40-76 | Once the policy changed, the first one saved included, the binding was reviewed, reconfigured or removed or its asset deleted, a listed grant ended or the deadline passed, the check fails at every later moment of every run |
| PermitRevocation.GrantActiveOrOver | backend/internal/model/pam_access.go:132-135 | A grant once active is active or over, and over for good |
| SessionLease.CapacityHolds | backend/internal/service/pam_session_lease.go:60-69 | While a limit is in force the live leases never exceed it or the number live when it took effect |
| SessionLease.AdmittedExactly | backend/internal/service/pam_session_lease.go:21-69 | Who is admitted: exactly a new session in scope of an account with a place; every refusal with its condition |
| SessionLease.AdmissionTakesOnePlace | backend/internal/service/pam_session_lease.go:60-80 | An admission takes exactly one place of its owner |
| SessionLease.FreedPlaceIsGiven | backend/internal/service/pam_session_lease.go:60-69 | A place that came free by release, neglect or deadline goes to the next new session |
| SessionLease.RenewedExactly | backend/internal/service/pam_session_lease.go:110-134 | Who can renew, and for how long |
| SessionLease.RenewedStaysLive | backend/internal/service/pam_session_lease.go:110-134 | A live lease outlives everything but its release, its deadline and a TTL without renewal |
| SessionLease.ReleaseFreesThePlace | backend/internal/service/pam_session_lease.go:136-145 | A release by the holder frees exactly this place at once |
| SessionLease.DeadStaysDead | backend/internal/service/pam_session_lease.go:110-145 | A dead lease never becomes live again |
| SessionLease.AdmittedAtMostOnce | backend/internal/service/pam_session_lease.go:45-59 | A session id is admitted at most once in any run |
| SessionLease.AbandonedLeaseDies | backend/internal/service/pam_session_lease.go:19-19 | A lease nobody renews is dead within one TTL |
| SessionLease.Shorten | backend/internal/service/pam_session_lease.go:70-76 | The deadline of a lease is the earlier of the permit's and the policy's |
| SessionRepository.LeaseStore.Admit | backend/internal/service/pam_session_lease.go:21-92 | Admission on the mutable table is the specified one and the permit receives its lease; a refusal changes neither |
| SessionRepository.LeaseStore.Renew | backend/internal/service/pam_session_lease.go:110-134 | Renewal is the specified one, also when the update reports no changed row |
| SessionRepository.LeaseStore.Release | backend/internal/service/pam_session_lease.go:136-145 | Release is the specified one |
| SessionWatch.Watch | backend/internal/service/pam_session.go:79-119 | A loss of authority that lasts a check, a sleep and a check ends the loop within that time and one check; it never runs past the deadline or its lease, up to timer lateness; the first read without authority is its last and the reason it stops |
| SessionWatch.NoticedExactly | backend/internal/service/pam_session.go:84-118 | For a loss of any length: without a deadline, an uncancelled loop ends for lack of authority if and only if one of its reads falls inside a loss |
| SessionWatch.PunctualRule | backend/internal/service/pam_session.go:84-118 | With punctual timers the loop goes on if and only if authority is there at every tenth second |
| SessionWatch.OrderlyRule | backend/internal/service/pam_session.go:84-118 | With checks of up to five seconds and timers late by less than 25, it reads once a turn and nothing but lack of authority ends it |
| SessionWatch.WatchingMeans | backend/internal/service/pam_session.go:84-118 | While it watches, nobody cancelled, no check was lost and the store answered |
| SessionWatch.LossUnnoticed | backend/internal/service/pam_session.go:84-118 | A loss between two punctual checks goes unnoticed however many follow |
| WatchedSession.WatchTables | backend/internal/service/pam_session.go:18-119 | The same over the tables themselves, on one timed history: after a saved policy, a revised or removed binding, a deleted asset, an ended grant or a passed deadline the session is ended within 20 s, up to timer lateness, and its lease is dead one TTL later |
| SessionWatch.WatchUntilEnded | backend/internal/service/pam_session.go:84-118 | Enough turns always end it once authority is lost for that long |
| SessionWatch.CheckAndRenew | backend/internal/service/pam_session.go:85-97 | One check with its context deadline: continuing means authority was seen and the lease renewed |
| NodeGraph.ForestExactlyIfOutside | backend/internal/service/node.go:46-72 | Giving a node another parent keeps a forest if and only if the parent is not in the node's subtree |
| NodeWalks.CheckEndsExactly | backend/internal/service/node.go:58-65 | On any table, cyclic ones included: where the new parent is not below the node, the walk ends exactly if there is no cycle below the node |
| NodeWalks.CheckCycle | backend/internal/service/node.go:46-72 | If its walk ends it refuses exactly the parents in the subtree, whatever else is in the table |
| NodeGraph.CyclesStay | backend/internal/service/node.go:46-72 | Giving a node with an acyclic subtree a parent outside it neither makes a cycle nor mends one |
| NodeWalks.Update | backend/internal/api/controller/node.go:61-67 | The guarded update leaves a forest a forest and refuses nothing that would; on a table with cycles it changes nothing about them |
| NodeWalks.CreateExactly | backend/internal/api/controller/node.go:32-38 | The unguarded creation keeps a forest exactly when the parent is not the new id or below it |
| NodeWalks.CreateCanLoop | backend/internal/api/controller/node.go:32-38 | The smallest creation that does not |
| NodeWalks.HandleSelfChild | backend/internal/repository/node.go:28-53 | Exactly the listed ids and everything below a listed node of the tree, without repeats |
| NodeWalks.ChildWalk.Dfs | backend/internal/repository/node.go:39-48 | What the walk from a node adds |
| NodeWalks.HandleSelfParent | backend/internal/repository/node.go:56-84 | Exactly the listed ids and everything above a listed node of the tree, the virtual root included |
| NodeWalks.ParentWalk.Dfs | backend/internal/repository/node.go:67-79 | What the walk from a node adds, the path restored |
| NodeWalks.ClosuresAreAdjoint | backend/internal/repository/node.go:28-84 | Between nodes of the tree the two closures say the same |
| NodeWalks.HandleNoSelfChild | backend/internal/service/node.go:407-421 | The ids of the table outside the closure |
| NodeWalks.AttachAssetCount | backend/internal/service/node.go:240-258 | Every node of the tree gets the number of assets in its subtree, the root the number in the whole tree |
| NodeWalks.CountWalk.Dfs | backend/internal/service/node.go:251-258 | The in-place walk leaves the subtree counts below its start and everything else unchanged |
| NodeWalks.SubtreesDisjoint | backend/internal/service/node.go:246-257 | No asset is counted under two children |
| NodePermissions.InheritPermissions | backend/internal/service/node.go:600-624 | A node of the tree holds whatever is granted to it or to a node above it, and no permission is held that nobody was granted; where every node has a resource of its own it holds nothing else |
| NodePermissions.PermissionWalk.Dfs | backend/internal/service/node.go:614-621 | The in-place walk takes nothing from anybody and hands everything down; where every node has a resource of its own it hands down nothing else and touches nothing outside the subtree |
| AuthorizationMatcher.MatchBatchWithScope | backend/internal/service/authorization_matcher.go:570-641 | One pass with an early exit yields for every action what the first allowing rule says, and the right refusal otherwise |
| AuthorizationMatcher.MatchWithScope | backend/internal/service/authorization_matcher.go:530-567 | The first rule that matches and permits the action decides |
| AuthorizationMatcher.BatchAgrees | backend/internal/service/authorization_matcher.go:530-641 | Both give the same result for every action: outcome, winning rule and reason |
| AuthorizationMatcher.AllowedIsFinal | backend/internal/service/authorization_matcher.go:626-636 | Stopping early loses nothing |

## Left out

- HTTP handlers, sessions, MFA tokens and identity lookups: authorisation enters as a nondeterministic boolean.
- Encryption, key wrapping and the data key: secrets are opaque values, so a version that cannot be decrypted is not modelled.
- Digests: a stored payload hash is the payload itself, a stored intent hash an opaque number.
- Lengths of identifiers and texts, except the error code of an ended execution.
- Isolation anomalies, deadlocks and database errors: a transaction is atomic, and a lost reply of the store is a crash of the caller.
- Several clock readings inside one transaction are one reading.
- The reads of the candidate and of the previous version in one executor are one step, as are the unlocked read at the head of a repository call and its transaction.
- ContinuePAMPassword and StartPAMPasswordChange beyond what they call: slots, the form of a stored configuration and the audit rows of the wrapper. These, permissions, policies and whether another asset lists the account are the boolean of an authorisation; the two evaluations before a claim are one.
- Endings.EndsExactly: permission, a well-formed configuration, the authority asset and protocols that suit the platform (`fits`) are granted to whoever asks in the continuation, because they are decided outside these tables.
- Request timeouts: a step of an executor may come at any time after the one before it.
- The native key in the scope of an execution: it is fixed while the account is managed.
- Adoption attaches its first binding in the same transaction; here that is a step of its own.
- Audit rows beyond one per execution, pending while it is active.
- ExecutionRepository.PamStore.DeleteOwner: permission and the check of authorization rules are one boolean, and check and deletion one step. In `RequestRuns` an account is removed by the arbitrary changes of an owner's facts (`SetOwner`, `DropOwner`), so its deletion is not among the permanent losses of `PermitRevocation`.
- NoLockOutTheorem.NoLockOutEver: it speaks about the rows of the vault, those of deleted owners included.
- Approval providers other than the external one: the policy check admits no other.
- The check that a policy with required approvals needs a stored credential, and the caller's right to request, are among the conditions decided before the transaction.
- Remote calls of the synchronisation worker: their replies are parameters, and the order in which the claim query picks rows is arbitrary.
- Real SSH and MySQL sessions, TLS and shell commands: only how each stage can fail.
- Rule matching by ids, patterns, tags, addresses and times: a parameter that does not read the action. The caches around the matcher.
- Concurrent moves of two nodes, each checked before the other is written: the check and the update are one step here.
- GetNodesTree, AttachHasChild, the asset query around the counts, and the other users of the closures: they only combine results shown here.
- V1 to V2 migration, rule upserts, statistics, preferences, history, templates, storage providers, file transfer and terminal I/O.
- NodePermissions.InheritPermissions: for nodes that share a resource, or have none, it states what they hold at least and that nothing comes from nowhere; what else they come to share depends on the order of the walk.
- SessionWatch.Watch: timer lateness is bounded by a parameter, since no scheduler is modelled.
- ExecutorProgram.RunPAMExecution: what it achieves is stated for an execution nobody else touches within the lease of two minutes; under interference the theorems about runs apply. Permissions before the claim and after it are booleans.
