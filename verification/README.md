# BreakGlass, modelled and proved in Dafny

BreakGlass reacts to an authenticated GitHub push that leaks a deploy key. A delivery reserves
a durable receipt, a one-shot policy is bound to the event after two immutable source reads
show the policy's secret introduced, and a C1 incident is created from the frozen request. The
coordinator hands work to the broker under signed handoff ids; a broker child claims the
incident, confirms the claim, starts the effect, mints a token, sends one DELETE, verifies with
a separate token and closes the incident. Any process may crash at any call, replies may be
lost, and old children may outlive their supervisor.

This project models that protocol as one step system and proves its safety claims for every
run; it models the durable records and the JSON layer underneath them with their own proofs.

`dafny verify dfyconfig.toml` checks everything (add `--resource-limit 2000000
--verification-time-limit 0`).

## How it is built

**Machines.** Each of the four programs is a machine that makes one call at a time: `Launch`
is its environment and the random values it draws, `CallOf` the call it is about to make,
`Step` where a reply takes it. A process is its launch and the exchanges it has had, nothing
else. `BrokerChild` is `run.ts`, `Coordinator` one pass of `ensureIncidentAndReservation`,
`BrokerWorker` one leased invocation, `PushIngress` one delivery.

**Traces.** For each machine a `...Trace` module states what every run does, whatever it is
answered. The statements are made by monitors that read exchanges and know nothing of the
program.

**Conversations.** For each machine a `...Conversation` module spells out, in exchanges alone,
everything that must have been said and heard before each call that matters, and proves that
the machine makes the call exactly then; `C1Laws` does the same for the contract's
transitions. `Consequences` carries this over to whole runs.

**Programs.** `RunBroker`, `RunCoordinator`, `RunWorker` and `RunIngress` are the same
programs written with the source's own control flow (try, catch, finally, flags, reassigned
variables) and proved to make exactly the calls of the machines.

**The system.** `System` interleaves any number of processes over the stores and C1. Processes
are named by the random value they draw (reservation nonce, handoff id, start nonce).
`Custody`, `Effects` and `Handoffs` hold the invariants, `Invariant` their preservation by
every step, `Safety` and `Aftermath` the theorems over runs, `Reachable` a run that goes all
the way.

**C1.** The contract is part of the repository (`winner/contract`), so it is modelled from its
code. The host runs calls as optimistic transactions: a reply may be computed from a record
that is already stale, a write only lands on the record it was computed from, and whether a
call commits is independent of the reply its caller hears. That is why `begin-effect` may
answer WON to two contenders while only one start is persisted.

**Records and JSON.** `Dedupe`, `PolicyRegistry`, `JobStore` and `Lease` are the durable files;
`JsonText`, `StrictJson`, `Canonical`, `Utf8`, `Integrity` and `LosslessJson` are the
serialization layer; `Adjudication` is the judge of a broker race.

## Assumptions

- SHA-256 is injective where records are compared by digest: a digest is represented by what
  it commits to. In `Integrity` the hash is any function to 32 bytes, and HMAC is injective in
  its message and in its key block, which is computed as RFC 2104 does: long keys are hashed,
  short ones filled up with zeros.
- Random values do not repeat: a process is launched under a value no earlier one drew.
- A local file call takes effect and is answered in one step, or throws with or without having
  taken effect. Listings of the registry may be arbitrarily incomplete.
- C1's confirmations and the operator's read answer from the committed record; every other
  reply may be computed from any record at all, or be garbled, or be lost.
- GitHub and a child's result file may answer anything.
- Contenders that hold the broker's or the remediation credential without running this program
  may make any C1 call except the operator's creation of incidents and the verdicts on an
  effect (finalize, reconcile).
- In `System`, taking over the lease of a dead worker is one step. `Lease` shows what happens
  otherwise. There a process id is never reused and a crashed process stays dead.
- A worker's provider verification is answered as `TokenReaders.VerifyProviderTarget` answers,
  over whatever GitHub said; the reply carries those exchanges.

## Where the code and its description differ

- Lease exclusion is false of the code as it stands: take-over reads, probes and then unlinks,
  and a heartbeat reads and then replaces. `Lease.ExclusionAsCoded` states when the code does
  exclude: in runs of at most two processes or without a crash, and in no larger class by these
  counts. As deployed, one live supervisor at a time is enough and two are not
  (`Lease.OneSupervisorIsNeeded`).
- A coordinator pass judges the danger of an incident by its first reading. When its reservation
  is lost and only the reread shows EFFECT_STARTED, it still hands the job to the broker
  (`CoordinatorConversation.LateEffectIsHandedOn`); the worker then marks a conflict and starts
  no child (`WorkerConversation.NoChildPastTheClaim`).
- The delivery reader skips blanks that RFC 8259 does not allow, and it builds its objects by
  assignment. A member named `__proto__` then sets the prototype, is no property and may
  repeat, until a value of null, or an object that has lost the setter, takes the setter away;
  from there on it is a name like any other. `{"__proto__":null,"__proto__":1}` owns
  `__proto__`, and a third one is refused as a duplicate. `LosslessJson.ReadingIsExact` states
  exactly what is accepted and returned, `LosslessJson.ProtoMayRepeat` when a repeated name
  goes unnoticed.
- Signing and verifying tell keys apart only by their HMAC key blocks: a short key is as good
  as the same key with zero bytes appended (`Integrity.TrailingZerosCollide`), a key over 64
  bytes as good as its digest (`Integrity.DigestsCollide`). `Integrity.SharedBlocks` says which
  keys share a block, `Integrity.SignThenVerify` that nothing else is confused.

## Model

| member | source | states |
|---|---|---|
| Safety.AtMostOneDelete | winner/broker/run.ts:192-301 | In every run all DELETEs ever issued for an incident are one call of one child, and C1 holds the start id of exactly that child |
| Safety.OneChildMints | winner/broker/run.ts:252-272 | All effect tokens ever asked for an incident are asked for in one call of one child, the one whose start id C1 holds and the only one that may DELETE |
| Safety.DeleteCustody | winner/runtime/coordinator.ts:258-332 | Whatever DELETE is issued goes to the repository and key of the policy version bound to that incident, and that binding rests on BEFORE/AFTER reads at exactly the bound event's commits that show its secret introduced |
| Safety.AuthorityIsOneShot | winner/runtime/policy-registry.ts:293-340 | Each policy version is behind at most one accepted receipt, one job and one C1 incident, and C1's request is exactly what that receipt froze |
| Safety.ResumptionKeepsTheBinding | winner/c2/push-ingress.ts:193-222 | However often a delivery crashes between reserve, bind and finalize, an accepted receipt carries the incident, identity and request of the durable binding |
| Safety.AcceptedReceiptsReplay | winner/c2/push-ingress.ts:247-261 | A settled receipt is never rewritten, and receipt validation accepts every receipt this ingress accepted, for every later delivery of the same request |
| Aftermath.AcceptedMeansReplay | winner/c2/push-ingress.ts:99-114 | Over every run, a delivery of the same request that starts after acceptance makes no source read, bind or finalization, and ends with exactly the incident and request the receipt froze or fails |
| Safety.PoliciesOnlyAdvance | winner/runtime/policy-registry.ts:342-366 | Over every run a policy version only moves ACTIVE, BOUND, RETIRED, keeps its binding, and is retired only for the bound incident once C1 holds it CLOSED |
| Safety.JobsAndAuthorityOnlyAdvance | winner/runtime/job-store.ts:175-243 | Over every run jobs keep their frozen identity and never move back, and C1 takes nothing durable back |
| Safety.LeasesAreExclusive | winner/runtime/job-store.ts:252-261 | With single-step take-over no two live workers are inside withLease for one incident |
| Safety.HandoffsAreLinear | winner/runtime/broker-worker.ts:136-157 | Every child run or reconciliation is for an id that a pass sent in its write of that job after C1's record matched; no id serves two workers, no worker two ids, under coordinator writes between the broker's read and its consume |
| Safety.AttemptsNeverExceedHandoffs | winner/runtime/coordinator.ts:318-328 | Over every run the attempts, counted call by call over all workers, never exceed the handoff ids that passes issued, which a pass does once at most and only by a write that carries its id after a matching read of C1 |
| Safety.ClosedMeansGone | winner/broker/run.ts:314-337 | C1 holds an incident CLOSED only after the key was proved gone from the repository C1 names: by a child whose proof is complete, or by a worker's provider verification whose exchanges show the 404, the list without it and the refused token |
| Aftermath.EffectStartEndsChildren | winner/runtime/coordinator.ts:279-328 | Over every run, once a pass whose first read showed an effect start has written the job, no worker that had not read the job by then ever starts a child |
| Consequences.EffectsStartInTime | winner/contract/src/model.rs:283-367 | In every run the effect on record was started by the broker's begin, for the claim then on record, at a time inside the window the incident was created with |
| Consequences.WindowStays | winner/contract/src/model.rs:229-281 | In every run the window of an incident never moves, and CLOSED and EXPIRED records never change |
| Consequences.AuthorityIsEligible | winner/c2/push-read-plan.ts:29-38 | In every run no binding, accepted receipt, job or C1 incident comes from a push that creates, forces or deletes the ref, names the zero commit before or after, or names one commit twice |
| Consequences.JobsFreezeThePolicy | winner/c2/push-c1.ts:42-53 | In every run each job, and the C1 incident of it, names exactly the key, title, principals and lifetime of its policy version, which is live, read-only and of the one source, path and action |
| Consequences.DeletesAreChecked | winner/broker/run.ts:192-302 | In every run every DELETE stands behind the child's whole conversation, with the key read under its token as present, titled as frozen and read-only, and listed |
| Consequences.RecordedStartsEndChildren | winner/runtime/broker-worker.ts:156-170 | Over every run, once a worker has recorded a child whose effect started, no worker that had not read the job by then starts a child for that incident |
| Consequences.EndedIncidentsAreNotHandedOn | winner/runtime/coordinator.ts:308-326 | Over every run, once C1 holds an incident CLOSED or EXPIRED, no pass that begins afterwards issues a handoff for it |
| Reachable.KeyIsRemoved | README.md:28-46 | For every configured deployment, live policy and eligible push there is a run, delivery to finalization, in which a child deletes exactly that key and C1 ends CLOSED / VERIFIED_ABSENT: the statements about runs are not empty |
| Reachable.SomethingFits | winner/c2/push-policy.ts:70-100 | There is such a deployment with a policy and a push: a configuration, a record and an event that meet the conditions of `KeyIsRemoved` |
| Invariant.InvariantHolds | README.md:28-46 | The invariant of stores, processes, leases, handoffs and C1 holds in every state of every run |
| Invariant.NothingIsTakenBack | winner/c2/dedupe.ts:213-238 | Between any two states of a run, files are only added, settled receipts, job identities and C1 facts stay, logs only grow |
| C1Contract.AuthorityIsDurable | winner/contract/src/model.rs:142-205 | Over any sequence of transactions shapes stay valid, target, principals and window stay as created, the first committed start is never overwritten, CLOSED and EXPIRED are final |
| C1Contract.OnlyThePersistedStartIsConfirmed | winner/contract/src/model.rs:383-395 | Once a start is committed no other is ever confirmed, after any further transactions |
| C1Contract.WonIsProvisional | winner/contract/src/model.rs:355-395 | Two contenders that read the same claimed record are both told WON; the first to commit is confirmed, the other is told NOT_OWNER |
| C1Contract.TransactKeeps | winner/contract/src/model.rs:287-449 | One transition keeps the shape valid and takes nothing durable back: request, target, window, a committed start, and CLOSED and EXPIRED records |
| C1Contract.AbsenceIsDeclared | winner/contract/src/model.rs:396-449 | VERIFIED_ABSENT is recorded only by a finalize or reconcile call that says so |
| C1Contract.CommitTouchesOne | winner/contract/src/lib.rs:37-196 | A transaction touches one incident, and only the operator's creation adds one |
| C1Laws.OutsideTheWindow | winner/contract/src/model.rs:283-367 | Before its creation and from its expiry on, reserve, claim, release and begin are denied; reserve and claim by the right principal turn ACTIVE, RESERVED and READY_RETRY into EXPIRED and leave every other record alone |
| C1Laws.ReservesExactly | winner/contract/src/model.rs:287-307 | Inside the window reserve is WON exactly for the remediation agent on an ACTIVE record, and what it then holds |
| C1Laws.ClaimsExactly | winner/contract/src/model.rs:309-331 | Inside the window claim is PROPOSED exactly for the broker on RESERVED or READY_RETRY at the expected version, below the last version |
| C1Laws.ReleasesExactly | winner/contract/src/model.rs:333-343 | Inside the window release is WON exactly for the broker and the claim on record |
| C1Laws.BeginsExactly | winner/contract/src/model.rs:355-367 | Inside the window begin is WON exactly for the broker and the claim on record, unstarted; the start carries version and nonce |
| C1Laws.FinalizesExactly | winner/contract/src/model.rs:396-415 | Finalize is WON exactly for the claim and start on record in EFFECT_STARTED; absent closes, present fails, the rest asks for reconciliation |
| C1Laws.ReconcilesExactly | winner/contract/src/model.rs:426-448 | Reconcile is WON exactly for the claim and start on record in the three unsettled states; absent closes, the rest asks again |
| C1Laws.ConfirmsExactly | winner/contract/src/model.rs:373-395 | Confirmations change nothing and are true exactly of the claim and the start on record |
| C1Laws.CreatesExactly | winner/contract/src/model.rs:229-281 | An incident is created exactly by the operator, for three distinct principals, a positive key and 60 to 900 seconds from now |
| C1Laws.CommitsTheTransition | winner/contract/src/lib.rs:37-162 | What a transaction leaves on record is exactly what its transition made of the record, refused and expiring calls included |
| C1Laws.RepliesTell | winner/contract/src/lib.rs:37-251 | A reply names its function and tells result, state and attempts of the record it was computed from, or that there is none |
| C1Laws.StartsInTheWindow | winner/contract/src/model.rs:283-367 | Over any sequence of transactions the window stays, and a start was put on record by the broker's begin inside it |
| BrokerTrace.DeleteIsGrounded | winner/broker/run.ts:220-302 | A DELETE goes to the configured repository and the key C1 named for the confirmed claim, under a start this child began and C1 confirmed, and is the first |
| BrokerTrace.DeletesOnce | winner/broker/run.ts:296-302 | No run of a child contains two DELETEs |
| BrokerTrace.AbsenceIsProved | winner/broker/run.ts:314-337 | VERIFIED_ABSENT is declared only after the effect token was revoked and refused and a separate token, itself revoked and refused, saw 404 and a well-formed list without the key, both at the target's own repository; after a transport failure UNKNOWN was declared and answered first and only reconcile is used |
| BrokerTrace.MintIsJustInTime | winner/broker/run.ts:258-272 | An effect token is requested only after CONFIRMED effect-start and at most once |
| BrokerTrace.MintsOnce | winner/broker/run.ts:265-278 | No child asks for an effect token twice, whatever became of the first |
| BrokerTrace.TokensAreReturned | winner/broker/run.ts:314-346 | Every effect token a finished child was given was handed to a revoke call, whichever call threw |
| BrokerTrace.SpeaksForItself | winner/broker/run.ts:201-259 | A child speaks to C1 about its own incident only and starts effects under its own nonce only |
| BrokerTrace.WonBeginIsRecognized | winner/broker/run.ts:253-258 | What C1 answers when it starts an effect, and only that, is what the child takes for a committed start |
| BrokerTrace.DeleteIsReachable | winner/broker/run.ts:192-302 | A child that is answered well does come to its DELETE |
| BrokerConversation.DeletesExactly | winner/broker/run.ts:192-302 | The child's next call is a DELETE exactly when its whole conversation is the claim confirmed for a key of the configured repository, the installation found, the start begun and confirmed, a token, and under it the private repository in scope, the key there with the frozen title and read-only, and listed in a well-formed list |
| BrokerConversation.WrongAnswersEndIt | winner/broker/run.ts:273-286 | After any other answer to one of the three reads before the DELETE no DELETE is ever sent |
| BrokerConversation.ConcludesExactly | winner/broker/run.ts:296-337 | VERIFIED_ABSENT is declared exactly behind the DELETE, the ended effect token, in doubt the declared UNKNOWN, and a separate token that saw 404 and a list without the key and was revoked and refused; in doubt by reconcile, otherwise by finalize |
| BrokerConversation.DoubtsExactly | winner/broker/run.ts:299-322 | UNKNOWN is declared exactly when the DELETE failed in transport and its token was revoked and refused |
| BrokerConversation.ResultTells | winner/broker/run.ts:252-350 | The result of a finished child says whether its start was confirmed, a token issued and a DELETE sent, which start C1 answered and how the outcome was classified |
| BrokerConversation.RefusalsAreTold | winner/broker/run.ts:201-210 | A claim that is not proposed is reported as lost, denied or not proposed, as C1 said |
| BrokerConversation.RevokedTokensAreProbed | winner/broker/run.ts:76-83 | A token whose revocation was answered 204 is probed at once, whoever held it |
| RunBroker.RunBroker | winner/broker/run.ts:192-350 | The program with its try, catch and finally runs exactly as the machine, whatever it is answered: at most one DELETE, behind the whole conversation it needs; every effect token handed to a revoke call; a result that tells what was done |
| RunBroker.BrokerRun.ClaimEffect | winner/broker/run.ts:200-214 | The claim with its three outcomes and the persist that may throw |
| RunBroker.BrokerRun.ConfirmOwnership | winner/broker/run.ts:217-229 | The confirmation: not the owner, malformed, another claim, or this child's target |
| RunBroker.BrokerRun.BeginEffect | winner/broker/run.ts:246-258 | Installation check and begin-effect, with what is thrown and which flags are set by then |
| RunBroker.BrokerRun.MintEffectToken | winner/broker/run.ts:265-278 | The just-in-time token and its scope check |
| RunBroker.BrokerRun.DeleteKeyOnce | winner/broker/run.ts:296-302 | The one DELETE, whose transport failure is recorded and not thrown |
| RunBroker.BrokerRun.ClassifyOutcome | winner/broker/run.ts:303-312 | The two reads after the DELETE and the classification, which never throw |
| RunBroker.BrokerRun.CloseEffectToken | winner/broker/run.ts:314-330 | Revoke and refuse; the token counts as cleaned only if both calls were answered |
| RunBroker.BrokerRun.IndependentVerifier | winner/broker/run.ts:85-111 | The separate read token and its mandatory cleanup |
| RunBroker.BrokerRun.Catch | winner/broker/run.ts:338-340 | NOT_ATTEMPTED only if neither begin-effect nor the DELETE was sent |
| RunBroker.BrokerRun.Finally | winner/broker/run.ts:341-346 | An effect token that was not cleaned is revoked whatever threw |
| BrokerLogic.ClaimRepliesParse | winner/broker/logic.ts:25-31 | C1's PROPOSED reply is accepted with exactly the claim it would commit when its version is a safe integer; any other reply is refused |
| BrokerLogic.ConfirmationRepliesParse | winner/broker/logic.ts:33-45 | C1's CONFIRMED reply is accepted with exactly the recorded target and claim when its numbers are safe integers; any other reply is refused |
| CoordinatorTrace.RemoteStateDominates | winner/runtime/coordinator.ts:279-328 | If the first read of C1 shows an effect start, the pass leaves the job, whatever is stored by then, in a state no child is started from |
| CoordinatorTrace.HandoffsAreAuthorized | winner/runtime/coordinator.ts:316-328 | A pass writes a job at most once, hands out only its own fresh id, and only after it read the exact frozen authority |
| CoordinatorTrace.RetirementIsWitnessed | winner/runtime/coordinator.ts:330-347 | A policy is retired only for the job's own policy and incident right after a read of CLOSED / VERIFIED_ABSENT |
| CoordinatorTrace.WritesOnce | winner/runtime/coordinator.ts:258-332 | No pass contains two writes of the job |
| CoordinatorConversation.WritesExactly | winner/runtime/coordinator.ts:279-328 | What a pass writes and when: a conflict on a reading that contradicts the frozen request or lacks an identity; otherwise the table's row for the remote state last heard, the effect its reading showed and the local state, with that reply's fields and a fresh handoff exactly for HANDOFF_READY, RETRY_READY and RECONCILE_REQUIRED |
| CoordinatorConversation.EndedIncidentsGetNoHandoff | winner/runtime/coordinator.ts:308-326 | A pass whose last reply showed CLOSED, FAILED or EXPIRED issues no handoff |
| CoordinatorConversation.LateEffectIsHandedOn | winner/runtime/coordinator.ts:291-326 | An effect start that shows only in the reread after a lost reservation is routed as a handoff |
| CoordinatorConversation.CreatesExactly | winner/runtime/coordinator.ts:259-265 | C1 is asked to create exactly when all the pass heard is that there is no such incident |
| CoordinatorConversation.ReservesExactly | winner/runtime/coordinator.ts:258-303 | C1 is asked to reserve exactly on a consistent reading of ACTIVE for a job that is not CLOSED, FAILED or in conflict |
| CoordinatorConversation.RetiresExactly | winner/runtime/coordinator.ts:327-347 | The policy is retired exactly behind a stored write on CLOSED / VERIFIED_ABSENT and one more read that finds it so |
| CoordinatorConversation.SucceedsExactly | winner/runtime/coordinator.ts:258-332 | A pass succeeds exactly when its routed write is stored and, where the key is gone, the policy retired |
| RunCoordinator.EnsureIncidentAndReservation | winner/runtime/coordinator.ts:258-332 | The pass as the program it is runs exactly as the machine, with one write at most, which is the one due |
| RunCoordinator.CoordinatorPass.ReadOrCreate | winner/runtime/coordinator.ts:259-277 | Read, create, read back; what is thrown goes to the one rescuing read |
| RunCoordinator.CoordinatorPass.RouteJob | winner/runtime/coordinator.ts:308-331 | The one write is the table's row, spelled out, for this snapshot, with a handoff exactly for the three states the broker acts on; retirement behind CLOSED / VERIFIED_ABSENT |
| RunCoordinator.CoordinatorPass.RetireClosedPolicy | winner/runtime/coordinator.ts:341-347 | Retirement re-reads C1 and refuses anything but CLOSED / VERIFIED_ABSENT |
| BrokerWorkerTrace.AttemptsAreAuthorized | winner/runtime/broker-worker.ts:136-157 | At most one child run or reconciliation per lease, for the id read unconsumed and durably consumed before |
| BrokerWorkerTrace.BrokerOnlyConsumes | winner/runtime/broker-worker.ts:153-176 | The broker issues no handoff and consumes only the id it read |
| BrokerWorkerTrace.ReconciliationIsVerified | winner/runtime/broker-worker.ts:184-206 | VERIFIED_ABSENT is reported only after this invocation's own provider verification found the key gone |
| BrokerWorkerTrace.AbsenceWasSeen | winner/runtime/broker-worker.ts:195-203 | What was verified gone is the key of the job read under the lease |
| WorkerConversation.WritesExactly | winner/runtime/broker-worker.ts:136-209 | What a worker writes and when: the consumption of an unused handoff that agrees with C1's state, a conflict for one that does not, PROCESSING, what its child's result says, the failure of that, and the verdict C1 answered |
| WorkerConversation.ResultsAreRecorded | winner/runtime/broker-worker.ts:156-170 | A child's result is recorded as CLOSED exactly for C1's own WON and CLOSED, else as RECONCILE_REQUIRED exactly when a start is confirmed or named, else as RETRY_READY; with the result's claim, version and start, or the job's where it has none |
| WorkerConversation.StartsExactly | winner/runtime/broker-worker.ts:136-157 | A child is started exactly for a handoff read unused, in agreement with C1's observed state and used up by then; for the first time only once the job is PROCESSING |
| WorkerConversation.NoChildPastTheClaim | winner/runtime/broker-worker.ts:140-144 | A handoff whose observed C1 state is past the claim is marked as a conflict and not used |
| WorkerConversation.VerifiesExactly | winner/runtime/broker-worker.ts:184-206 | The provider is asked exactly for the leased job's key, and C1 told VERIFIED_ABSENT or VERIFIED_PRESENT exactly as found, for the job's claim and start |
| WorkerConversation.ClaimsAreHandedOver | winner/runtime/broker-worker.ts:50-55 | The child is handed the claim on record exactly where C1's observed state is EFFECT_CLAIMED |
| RunWorker.ProcessJob | winner/runtime/broker-worker.ts:136-209 | The leased invocation as the program it is runs exactly as the machine, with at most one attempt; every write is the one due, and every child's result is recorded as it says |
| RunWorker.Invocation.Consume | winner/runtime/broker-worker.ts:150-155 | The handoff is used up before anything is done with it |
| RunWorker.Invocation.Attempt | winner/runtime/broker-worker.ts:156-179 | The child is started and awaited once; its result becomes the write spelled out for it; a failure anywhere leaves PROCESSING after a first attempt and RETRY_READY after any other |
| RunWorker.Invocation.WithLease | winner/runtime/job-store.ts:252-261 | The lease is released whatever the operation did |
| PushIngressTrace.AcceptanceIsGrounded | winner/c2/push-ingress.ts:134-222 | A receipt is accepted only for a bound input whose reads at exactly the event's commits show the secret of a policy the registry listed, and the acceptance is a function of that input |
| PushIngressTrace.ReplayIsFrozen | winner/c2/push-ingress.ts:99-114 | A delivery whose receipt is accepted is answered from it alone, with no source read, bind or finalization |
| PushIngressTrace.BindIsGrounded | winner/c2/push-ingress.ts:153-201 | Whatever is bound was read at exactly this event's commits and under this delivery's key |
| PushIngressTrace.JobsComeFromReceipts | winner/runtime/coordinator.ts:196-201 | A job is created only for a receipt this processing finalized or was handed accepted, and freezes it |
| IngressConversation.PlansExactly | winner/c2/push-read-plan.ts:29-61 | A plan is refused as not eligible exactly for the six kinds of barred pushes, and made exactly for a usable policy of any other, for its two commits at the fixed path |
| IngressConversation.ReadsExactly | winner/c2/push-ingress.ts:134-160 | The source is read exactly for a push that is not barred, under the policy selected for it, while its reservation is held |
| IngressConversation.BindsExactly | winner/c2/push-ingress.ts:153-201 | A policy is bound exactly after the reads showed its secret at AFTER and not at BEFORE, to what was read and the metadata on file |
| IngressConversation.FinalizesExactly | winner/c2/push-ingress.ts:116-222 | How every receipt ends: refused for no policy, several, a disabled one, a barred push, a failed read, reads that show no introduction, or a policy bound already; accepted exactly behind its bind, freezing that input |
| IngressConversation.BarredIsRefused | winner/c2/push-ingress.ts:141-150 | A barred push that finds its policy is finalized as not eligible |
| IngressConversation.BarredIsNotRead | winner/c2/push-read-plan.ts:29-38 | For a barred push the source is never read, nothing bound and nothing accepted |
| IngressConversation.CreatesExactly | winner/runtime/coordinator.ts:196-201 | A job is created exactly for the acceptance just finalized or for that of a receipt answered again, with its fields |
| IngressConversation.EndsAsHeard | winner/runtime/coordinator.ts:190-215 | A delivery is answered by the job it created and whether that was a replay, by the refusal it finalized, or as its reservation says |
| IngressConversation.AddsNewVersions | winner/runtime/coordinator.ts:156-165 | Adding records keeps those there, offers every version of the rest and none twice |
| RunIngress.AcceptWebhook | winner/runtime/coordinator.ts:151-215 | A delivery as the program it is runs exactly as the machine: every read, bind, finalization and job is the one due, and the outcome is what was heard last |
| RunIngress.Delivery.SelectRecords | winner/runtime/coordinator.ts:156-165 | Which records are offered: none for a settled receipt, the crashed attempt's bound policy for a reserved one |
| RunIngress.Delivery.Process | winner/c2/push-ingress.ts:90-132 | Reservation, replay, refusal and recovery of a delivery |
| RunIngress.Delivery.Accept | winner/c2/push-ingress.ts:193-222 | Bind before finalize; an already bound policy is a refusal |
| Custody.BindKeeps | winner/runtime/policy-registry.ts:293-340 | A bind keeps every record in the chain backed by the one before it and answers Bound only for this very binding |
| Custody.FinalizeKeeps | winner/c2/dedupe.ts:213-238 | A finalization keeps the chain when the acceptance is the binding's |
| Handoffs.ConsumeKeeps | winner/runtime/broker-worker.ts:150-153 | The consume write keeps every id used at most once, though coordinator writes may lie between read and write |
| Handoffs.CoordWriteKeeps | winner/runtime/coordinator.ts:318-328 | A pass's write under its fresh id keeps every id used at most once |
| Dedupe.FinalizesOnce | winner/c2/dedupe.ts:213-238 | Of any two finalizations of one reservation only the first lands |
| Dedupe.ReservesExactly | winner/c2/dedupe.ts:186-211 | A delivery gets its own RESERVED receipt under its nonce, or the one there: the same for the same body, a conflict for another |
| Dedupe.FinalizesExactly | winner/c2/dedupe.ts:213-238 | A finalization lands exactly on the RESERVED receipt of this reservation, an accepted one only with a fitting request for its own incident, and changes nothing but the state |
| Dedupe.ReceiptStore.ReserveDedupe | winner/c2/dedupe.ts:186-211 | Exclusive create, or a look at the same payload or a conflict; nothing settled changes |
| Dedupe.ReceiptStore.FinalizeDedupe | winner/c2/dedupe.ts:213-238 | Only a held RESERVED receipt is finalized, completely or not at all |
| PolicyRegistry.LifecycleOnlyAdvances | winner/runtime/policy-registry.ts:254-278 | ACTIVE, BOUND, RETIRED never move back and a binding never changes |
| PolicyRegistry.BindingIsOneShot | winner/runtime/policy-registry.ts:301-308 | Over a bound policy no bind changes a file, and it succeeds only for the very same event, judgement and incident |
| PolicyRegistry.RetirementNamesTheBoundIncident | winner/runtime/policy-registry.ts:342-366 | A policy is retired only for the incident it was bound to |
| PolicyRegistry.BindsExactly | winner/runtime/policy-registry.ts:293-340 | A version is bound exactly when the record on file is the one selected, enabled and active, and the version free or bound to this identity; the file is then the input's |
| PolicyRegistry.RetiresExactly | winner/runtime/policy-registry.ts:342-366 | A version is retired exactly for the incident it is bound to, and again only by the same record |
| PolicyRegistry.OffersExactly | winner/runtime/policy-registry.ts:254-258 | A version is offered exactly while it is ACTIVE, enabled and activated |
| PolicyRegistry.BindingsAreFound | winner/runtime/policy-registry.ts:272-291 | A binding is found again exactly by deliveries of its own event, and counts for a source by event type, repository and ref |
| PolicyRegistry.PolicyRegistry.Create | winner/runtime/policy-registry.ts:190-216 | Exclusive creation of a valid, live policy version |
| PolicyRegistry.PolicyRegistry.ActivePolicyRecords | winner/runtime/policy-registry.ts:254-258 | Exactly the listed policies that are enabled, activated, unbound and not retired |
| PolicyRegistry.PolicyRegistry.BoundPolicyForEvent | winner/runtime/policy-registry.ts:272-278 | The policy a crashed attempt of this delivery was bound under, if there is one |
| PolicyRegistry.PolicyRegistry.BoundPolicyRecordsForEvent | winner/runtime/policy-registry.ts:280-291 | Exactly the listed policies bound to an event of the same source |
| PolicyRegistry.PolicyRegistry.BindVerifiedEvent | winner/runtime/policy-registry.ts:293-340 | One-shot binding: the file exists afterwards and is the input's, or nothing changed |
| PolicyRegistry.PolicyRegistry.Retire | winner/runtime/policy-registry.ts:342-366 | Retirement of the bound incident, exclusively created |
| PushPolicy.SelectionIsUnique | winner/c2/push-policy.ts:143-177 | A policy is selected exactly when it is the only usable one and no two places of the list hold policies in force with one id, be they two versions or one record listed twice |
| PushPolicy.SelectionIsUsable | winner/c2/push-policy.ts:143-177 | Selection returns a live, enabled policy of the list for exactly the event's source |
| PushPolicy.RefusalsAreExact | winner/c2/push-policy.ts:143-177 | Where nothing is selected: AMBIGUOUS exactly for a shared id in force or two usable policies, else the first disabled policy in force, else the first retired one, else NO_MATCH |
| PushPolicy.ValidityIsExact | winner/c2/push-policy.ts:70-100 | A policy is valid exactly for the one source, path and action, a positive key, a title, a read-only key, well-formed digests and at most a day to live |
| PushPolicy.FingerprintsAreExact | winner/c2/push-policy.ts:84-84 | A fingerprint is exactly the prefix, a slash or a colon, some base64 and at most two equals signs |
| PushPolicy.LookupPreExistingPushPolicy | winner/c2/push-policy.ts:143-177 | The loops compute that selection |
| PushEvidence.PlansAreImmutable | winner/c2/push-read-plan.ts:29-61 | A plan reads exactly the push's two commits at the fixed repository and path, under a usable policy; no other field of the event selects anything (which pushes get one: `IngressConversation.PlansExactly`) |
| PushEvidence.CausalMeansIntroduced | winner/c2/push-transition.ts:55-83 | CAUSAL exactly when the secret is at AFTER of this push and was not there at BEFORE |
| PushEvidence.JudgementsAreExact | winner/c2/push-transition.ts:55-83 | Which reads are off the target, missing at AFTER, another secret there, present at BEFORE already, or neither present nor absent there |
| PushEvidence.DigestPrivateMaterial | winner/c2/push-transition.ts:33-41 | The digest is of the material as it was, and the buffer is wiped |
| JobStore.JobsOnlyProgress | winner/runtime/job-store.ts:175-190 | Over any updates the order of states never decreases, the last group is never left, at most four changes lead into it, PROCESSING is entered at most once |
| JobStore.FinalRequestsStick | winner/runtime/job-store.ts:175-190 | A request for the last group is refused only where the job is there already |
| JobStore.CreatingOnlyAdds | winner/runtime/job-store.ts:198-212 | Creating never disturbs a job and succeeds only for an identical identity |
| JobStore.UpdatingOnlyAdvances | winner/runtime/job-store.ts:221-243 | An update touches one job and never moves it back |
| JobStore.UpdatesExactly | winner/runtime/job-store.ts:175-243 | An update is accepted exactly for the listed moves, four of them only when it asks for a conflict, and sets exactly the fields it names |
| JobStore.CreatesExactly | winner/runtime/job-store.ts:198-212 | A job is created PENDING with nothing known; an existing one is handed out exactly for the same identity |
| JobStore.SettledJobsStay | winner/runtime/job-store.ts:175-190 | A CLOSED or FAILED job stays as it is over any updates that do not ask for a conflict |
| JobStore.RuntimeJobStore.Create | winner/runtime/job-store.ts:198-212 | Exclusive create of a PENDING job, or the existing identical one, or an error |
| JobStore.RuntimeJobStore.Update | winner/runtime/job-store.ts:221-243 | The permitted merge under the state lock, or an error and no change |
| Lease.ExclusionNeedsSingleSteps | winner/runtime/job-store.ts:140-173 | Exclusion over expiry, heartbeats and crashes would hold in every run if and only if taking over and beating were single steps |
| Lease.ExclusionAsCoded | winner/runtime/job-store.ts:140-173 | With the steps as coded, every run with at most n processes and at most c crashes is exclusive if and only if n <= 2 or c = 0 |
| Lease.OneSupervisorIsNeeded | winner/runtime/job-store.ts:140-173 | With the steps as coded, keeping at most k processes alive at any time is enough if and only if k <= 1 |
| Lease.LiveOwnersKeepTheirLease | winner/runtime/job-store.ts:121-129 | With single steps, in every reachable state nobody moves a lease away from an owner that is alive and inside |
| Lease.UnexpiredLeasesStay | winner/runtime/job-store.ts:140-173 | With single steps, in every reachable state nobody but its own holder ends a lease that has not expired |
| Lease.TakeoverRace | winner/runtime/job-store.ts:165-170 | A run with three processes, one crash and never more than two alive, every lease written for now plus the duration, in which read, probe and unlink let two live contenders in |
| Lease.HeartbeatRace | winner/runtime/job-store.ts:147-156 | Such a run in which a heartbeat lands after its own release and a third process enters |
| TokenReaders.VerifyProviderTarget | winner/broker/provider-verifier.ts:54-111 | An answer is given exactly when every read of the configured repository succeeded and the token was then revoked with 204 and refused; absent means 404 and a well-formed list without the key; every token is handed back |
| TokenReaders.VerifiedExactly | winner/broker/provider-verifier.ts:54-111 | The six exchanges behind an answer, in full |
| TokenReaders.AbsentExactly | winner/broker/provider-verifier.ts:54-111 | Absent means a 404 for the key and a 200 with a well-formed list that lacks it |
| TokenReaders.ReadPlan | winner/c2/push-source-reader.ts:170-214 | Only the plan's two commits are read, an answer needs both reads observed as asked and the token revoked and refused; every token is handed back |
| TokenReaders.ReadsExactly | winner/c2/push-source-reader.ts:170-214 | The five exchanges behind a reading, in full |
| Canonical.CanonicalFormIsExact | winner/runtime/integrity.ts:33-48 | Equal output means equal values up to property order at every depth, and conversely |
| Canonical.PrintingParses | winner/runtime/integrity.ts:33-48 | Printing a value is undone by parsing, so no two values print alike |
| Canonical.StringifyDecodes | winner/runtime/integrity.ts:35-35 | Decoding undoes JSON.stringify on every UTF-16 string, lone surrogates included |
| Canonical.BeforeMeansSmaller | winner/runtime/integrity.ts:47-48 | The order of names is ascending by the first unit that differs, a proper prefix first |
| Canonical.SortingOrders | winner/runtime/integrity.ts:33-48 | What is printed canonically is a value whose objects list their names ascending at every depth |
| Utf8.CanonicalTextIsPaired | winner/runtime/integrity.ts:33-48 | No canonical text contains a lone surrogate |
| Utf8.EncodingIsInjective | winner/runtime/integrity.ts:135-137 | On texts without lone surrogates UTF-8 encoding loses nothing |
| Utf8.LoneSurrogatesCollide | winner/runtime/integrity.ts:135-137 | Without that, different texts would be signed alike |
| Integrity.PreimageDetermines | winner/runtime/integrity.ts:135-137 | The signed bytes determine record kind, key id and payload up to property order, and conversely |
| Integrity.KindsNeverMix | winner/runtime/integrity.ts:3-6 | Records of two different kinds of the four never share a MAC input, whatever their ids and payloads, and no envelope verifies as two kinds under any two rings |
| Integrity.SignThenVerify | winner/runtime/integrity.ts:139-156 | Verification returns the payload exactly when the kind is the same and the ring maps the signing id to the same key block |
| Integrity.SharedBlocks | winner/runtime/integrity.ts:139-143 | HMAC gives two keys one block exactly when, over-long keys replaced by their digests, one is the other with zero bytes appended |
| Integrity.TrailingZerosCollide | winner/runtime/integrity.ts:139-156 | Any key of 32 to 63 bytes and the same key with a zero byte more verify each other's envelopes |
| Integrity.DigestsCollide | winner/runtime/integrity.ts:139-156 | Any key of more than 64 bytes and its 32-byte digest verify each other's envelopes |
| Integrity.VerifiedMeansSigned | winner/runtime/integrity.ts:145-156 | Whatever verifies carries a MAC over its own kind, id and payload under a ring key of at least 32 bytes |
| Integrity.RotationsDecide | winner/runtime/integrity.ts:121-133 | After any sequence of rotations an id maps to a key exactly when the ring or some rotation set it so and no later rotation touches the id |
| Integrity.RotationKeepsEnvelopes | winner/runtime/integrity.ts:121-156 | What was signed before any number of rotations verifies after them exactly when the signing id ends as a key of the same block |
| Integrity.UntouchedIdsVerify | winner/runtime/integrity.ts:121-156 | In particular it verifies when no rotation retires or reuses the signing id |
| JsonText.ParsingIsExact | winner/runtime/integrity.ts:53-54 | A text parses to a syntax tree exactly when the tree is well formed and prints to the text (section 2 of RFC 8259), so no text has two trees |
| StrictJson.ParseStrictJson | winner/runtime/integrity.ts:53-115 | Accepted exactly: the JSON texts in which no object at any depth repeats a decoded member name (section 4 of RFC 8259); the scan always ends |
| StrictJson.ScanIsExact | winner/runtime/integrity.ts:68-110 | Over a JSON text the scan ends behind the value and throws exactly on a repeated name |
| StrictJson.NoRepeatsMeansOk | winner/runtime/integrity.ts:74-81 | No repeated name means every object of the value has each property once |
| StrictJson.CanonicalTextIsStrict | winner/runtime/integrity.ts:33-115 | Parsing undoes canonicalize up to property order |
| StrictJson.Scanner.ValueEnd | winner/runtime/integrity.ts:68-110 | The scanner's loops compute that scan, the offset strictly advances |
| LosslessJson.ReadingIsExact | winner/c2/github-delivery-json.ts:23-131 | What the reader accepts and returns, for every text: wide blanks, no name given to an object that owns it, __proto__ owned only where an earlier one took the setter away, no overflow outside `id`; the value has the prototypes the assignments leave |
| LosslessJson.ReadingUndoesPrinting | winner/c2/github-delivery-json.ts:23-131 | Reading a printed value gives it back, with the digits of every `id` as printed, if and only if it names no __proto__ and its other numbers are doubles |
| LosslessJson.SeveringCuts | winner/c2/github-delivery-json.ts:97-116 | The value read from a tree takes the __proto__ setter from the object it is assigned to exactly when the text is null or an object with a __proto__ member that does the same to it |
| LosslessJson.OwnIsKept | winner/c2/github-delivery-json.ts:97-116 | An object owns, in order, all its members but the __proto__s up to and including the first that takes the setter away |
| LosslessJson.ProtoMayRepeat | winner/c2/github-delivery-json.ts:97-116 | Repeated names pass exactly when only __proto__ repeats and at most one stands behind the first that takes the setter away |
| LosslessJson.SecondProto | winner/c2/github-delivery-json.ts:97-116 | A text with two __proto__ members is read; the object owns the second exactly when the first takes the setter away |
| LosslessJson.ThirdProto | winner/c2/github-delivery-json.ts:97-116 | With three, the text is refused exactly when the first takes the setter away |
| LosslessJson.ParseLosslessGithubJson | winner/c2/github-delivery-json.ts:133-135 | The reader with its moving index computes that reading |
| LosslessJson.LosslessJsonReader.Value | winner/c2/github-delivery-json.ts:39-50 | One value at the cursor, which strictly advances |
| LosslessJson.LosslessJsonReader.Number | winner/c2/github-delivery-json.ts:66-95 | A number, whose digits are kept when its member is named `id` |
| Adjudication.VerdictAgreesWithTheRace | winner/c2/broker-adjudication.ts:132-155 | For any number of distinctly named contenders that ran to their end the results are judged valid exactly when one and only one was confirmed |
| Adjudication.ValidMeansOneOwner | winner/c2/broker-adjudication.ts:132-155 | Valid exactly when labels are unique, one contender owns, and every other one minted and deleted nothing |
| Adjudication.JudgesExactly | winner/c2/broker-adjudication.ts:98-126 | Which fields make a result an owner's, an early loss or a rejected confirmation, and everything else indeterminate |
| Adjudication.VerdictIgnoresOrder | winner/c2/broker-adjudication.ts:132-155 | The verdict ignores the order of the results |
| Adjudication.FinalState | winner/c2/broker-adjudication.ts:98-126 | A contender's result is judged by what C1 told it, whatever became of its effect |

## Left out

- HTTP servers, fetch, JWT signing, ssh-keygen, child spawning and environment plumbing: they are steps of the environment with arbitrary replies.
- Polling loops, ticks, `running` flags and liveness: the system lets any pass, worker or child start at any time.
- Lease heartbeats, expiry and the steps of a take-over inside `System`: take-over there is one step on a dead worker; the machine with the steps as coded is `Lease`.
- The 30-second rule for stale receipt and job locks: a lock is taken never to be broken in a live critical section.
- The body of a child's result file: a worker may be handed any result, so nothing depends on it.
- Barrier, ready and release files of `run.ts`: they only exist outside production and only delay.
- DIDs and incident ids as strings: principals are opaque, so C1's refusals of malformed identifiers are not modelled.
- Case folding of commit ids: the source lower-cases them before comparing, the model compares them as they are.
- IEEE doubles: a number is represented by the numeral that names it; only overflow to Infinity is computed.
- Values JSON has no text for (undefined, functions, NaN, negative zero, class instances): `canonicalize` refuses them and the model has no such values.
- Reads of a parsed delivery's properties: its prototypes are part of the value, but looking a name up along them is not modelled.
- The order in which an object lists its properties: the model keeps the order of assignment, where the source's engine lists integer-like names first.
- `validateDelivery`, `selectOriginalDelivery`, `selectRedelivery`: flat checks of single fields and an exactly-one filter.
- Historical results that reach the adjudicator without having been written by a broker child: the model's results have no `delete_count` and no historical early-loss marker, so `Adjudication.ValidMeansOneOwner` covers every result of the current shape, and the agreement with a race those of the modelled children.
- Timestamps, logging, redaction, directory modes, doctor, inspect and configuration checks: no protocol state.
- Historical live runners under winner/scripts and the superseded winner/c2/ingress.ts.
