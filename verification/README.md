# approvo: a verified model of the approval ledger

approvo records approvals in an append-only ledger. Each entry is sealed with the hash of its
canonical JSON and points to the entry before it; signed checkpoints commit to the whole ledger
through a Merkle tree; decisions travel in signed envelopes; a policy engine turns the decisions of a
request into a status; and `verify` re-derives all of it. This project models those parts in Dafny
and proves what they promise together.

| file | models |
|---|---|
| `ByteStrings.dfy`, `JsonText.dfy`, `Canonical.dfy` | UTF-8, hexadecimal and decimal text; canonical JSON, its reader, and content hashes |
| `Models.dfy` | ledger entries, requests, decisions and checkpoints, with their JSON forms and hashes |
| `Merkle.dfy`, `Chain.dfy` | the tree of section 2.1 of RFC 6962 with audit paths; the hash chain, checkpoints and fork detection |
| `Envelope.dfy`, `Keys.dfy`, `Verifier.dfy`, `SignedCheckpoints.dfy`, `Ceremony.dfy` | base64, the DSSE v1 encoding, the key directory, which signatures count, and the detached signing ceremony |
| `Datetime.dfy`, `Clock.dfy` | points in time with their offsets, range and comparisons; the stamps the service writes and a reader of them |
| `Policy.dfy`, `PolicyTheorems.dfy`, `Verdicts.dfy` | the policy engine; how its answer moves with time and with more decisions; and its rules stated over the arguments of `evaluate` alone |
| `Reads.dfy`, `Protocol.dfy`, `ProtocolSafety.dfy`, `ProtocolRuns.dfy`, `ProtocolProgress.dfy` | the ledger protocol with any number of concurrent callers, its inductive invariant, the theorems about every run, and that every call ends |
| `Records.dfy`, `Operations.dfy`, `Audit.dfy` | the service's operations as functions of the stores, and `verify` |
| `Answers.dfy`, `Submissions.dfy`, `Publications.dfy`, `Renderings.dfy`, `Rebuilds.dfy`, `CleanReports.dfy`, `Findings.dfy` | what each call answers and leaves, said in terms of what was asked and of the ledger: reading, opening, submitting, publishing, views, rebuilding, verifying |
| `LedgerHealth.dfy`, `SequentialRuns.dfy`, `FalseAlarms.dfy`, `ServiceGuarantees.dfy`, `ReadModel.dfy` | theorems about whole sequential runs: every ledger is sound, what `verify` reports, nothing unverified is persisted, safe retries, read model against ledger |
| `KnownValues.dfy` | the encodings at known values: the repository's golden vectors and those of the standards |
| `Refinement.dfy` | every sequential run of the service is a run of the concurrent protocol |
| `Witnesses.dfy` | concrete runs: one that meets the hypotheses of those theorems together, and the inputs at which `verify` or the ceremony fails |
| `MemoryStores.dfy`, `ApprovalService.dfy`, `MongoViews.dfy` | the stores and the service as classes, and keyset pagination over a document database |

How to read the statements:

- SHA-256 is any total function `H` from byte strings to 32-byte strings. Nothing assumes that it is
  injective. A statement that rests on hashes says "the conclusion holds, or these two byte strings
  differ and have one hash", where a function of the inputs computes the two byte strings.
- A signature scheme is any predicate `check(scheme, key, signature, message)`. Where a signer is
  trusted, the only assumption is that what it signs checks under its key.
- A point in time is a wall-clock reading in the years 1 to 9999 with or without an offset, as
  `datetime` has it. Comparing one with an offset and one without raises, and adding a duration past
  either end of the range raises; both are modelled where the source compares and adds. Reading a time
  stamp is any partial function `parse`, where `None` stands for `ValueError`; `Clock.ReadTime` is one
  that reads the stamps the service writes.
- "A clock that does not go back" means that the clock's stamps parse, have an offset, and do not
  decrease.
- The concurrent protocol lets every store call be one step, lets any caller stop for ever between
  two steps, and lets any store call fail without effect, with an idempotency store or without one.
  The store enforces only that no two entries share a `seq`. Three pieces of history are kept besides the stores: which append wrote each entry,
  which call won each key last, and how many releases of a key followed a decision that had landed.
  The only step that looks at them notes the winner beside the answer of a replay.
- The operations of the service are functions of the stores; the class `ApprovalService` has one
  method for each, with the loops and the order of store calls of the source, proved to do exactly
  that; and each operation is a list of steps of the protocol (`Refinement.SequentialIsARun`). The
  class's `Append` is proved against any interference by other callers between its head reads and its
  inserts. The clock readings of a call are its parameters.

What the code does that its documentation does not say:

- `verify_segment` says that a page's return values can be passed on as they are; the last seq must
  be increased by one (`Chain.PagingByLastSeqFails`).
- `verify` from the first entry on takes that entry's previous hash on trust: it reports a ledger that
  does not start from the zero hash as intact (`Audit.GenesisIsNotChecked`).
- `create_request` accepts a closing time that does not parse or has no offset, and a policy whose age
  limit cannot be added to the creation time. After that `verify` raises instead of reporting whenever
  it walks over that request, exactly then (`FalseAlarms.VerifyOutcome`); an age limit of 10^12
  seconds and the closing time `2026-12-31` are such inputs (`Witnesses.AgeLimitOverflows`,
  `Witnesses.DateAloneRaises`). A decision on such a request can be appended by a call that then raises
  (`SequentialRuns.CeremonyIsRecorded`).
- A closing time of `9999-12-31T23:59:59Z` makes every decision on the request fail with an exception,
  because the clock skew cannot be added to it (`Ceremony.NeverClosingNeverPasses`,
  `Witnesses.NeverClosingRefuses`).
- An approver changing a verdict can take a request back from approved to pending, which is not
  recorded, and `verify` then reports a failed check (`Witnesses.ReversalAlarms`); with a clock that
  does not go back and a trusted log key nothing else makes it report one (`FalseAlarms.VerifyOutcome`,
  `FalseAlarms.NoFalseAlarms`).
- Revoking a key a second time with a later time makes it valid again in between (`Keys.ReRevoking`).
- Re-recording a decision can change the status when the same approver has a decision with the same
  time stamp and another verdict (`PolicyTheorems.RepeatsAreHeardOnce`, `PolicyTheorems.TiesCanFlip`).

`dafny verify dfyconfig.toml` checks the project.

## Model

| member | source | states |
|---|---|---|
| Merkle.FindSplit | src/approvo/merkle.py:37-40 | The doubling loop ends with the power of two k with k < n <= 2k |
| Merkle.ComputeRoot | src/approvo/merkle.py:32-41 | The recursive root with its loop computes the tree hash the binding theorems are about |
| Merkle.MerkleRootBindsLeaves | src/approvo/merkle.py:20-45 | Equal roots come from equal leaf lists, lengths included, or from a collision computed from the two lists |
| Merkle.ComputePath | src/approvo/merkle.py:53-63 | The audit path with its loop computes the path the soundness and completeness theorems are about |
| Merkle.ComputeClimb | src/approvo/merkle.py:76-90 | The recomputation of a root from any proof, with its loop, including where it gives up |
| Merkle.InclusionIsSound | src/approvo/merkle.py:66-90 | An accepted proof of any siblings and any claimed size shows that the leaf occurs; at the true size it is the leaf at that index and the proof is the honest one; or a collision is computed |
| Merkle.InclusionIsComplete | src/approvo/merkle.py:48-73 | Every honest proof of every leaf is accepted |
| Merkle.ProofLength | src/approvo/merkle.py:48-63 | An honest proof of n leaves is no longer than the base-two logarithm of n, rounded up |
| JsonText.SortedIsUnique | src/approvo/canonical.py:49-50 | Sorting keys leaves no choice: two strictly sorted lists of the same keys are the same list |
| JsonText.LoadsPrints | src/approvo/canonical.py:46-51 | Reading the canonical text gives back the value |
| JsonText.PrintIsPrefixInjective | src/approvo/canonical.py:46-51 | Equal texts, each followed by a delimiter-led rest, come from equal values and equal rests |
| Canonical.DumpIsPrint | src/approvo/canonical.py:28-51 | For every accepted value, tuples and unsorted dictionaries included, what is dumped is the text of the JSON value it denotes |
| Canonical.CanonicalBytesInjective | src/approvo/canonical.py:46-51 | Two accepted values have the same canonical bytes exactly when they denote the same JSON value |
| Canonical.KeyOrderIsIrrelevant | src/approvo/canonical.py:46-51 | The insertion order of a dictionary does not change its bytes |
| Canonical.LoadBytesInverts | src/approvo/crypto/envelope.py:63-65 | The JSON read of an envelope's body inverts the canonical bytes |
| Canonical.CanonicalHashBinds | src/approvo/canonical.py:54-56 | Equal content hashes come from equal values, or the two canonical texts collide |
| Models.CoreHashBinds | src/approvo/models.py:173-187 | An entry hash binds every field of the entry, or a collision is at hand |
| Models.RequestRoundTrip | src/approvo/models.py:94-113 | A request is read back from its dictionary |
| Models.RequestIdBinds | src/approvo/models.py:77-92 | Requests of one id differ at most in their creation time, or collide |
| Models.ContextDigestBinds | src/approvo/models.py:97-99 | A context digest binds the whole request, or a collision is at hand |
| Models.DecisionRoundTrip | src/approvo/models.py:133-160 | A decision is read back from its dictionary, with or without authentication evidence |
| Models.FingerprintBinds | src/approvo/service.py:342 | An idempotency fingerprint binds the decision, or a collision is at hand |
| Models.CheckpointRoundTrip | src/approvo/models.py:214-238 | A checkpoint is read back from its dictionary |
| Chain.VerifySegment | src/approvo/chain.py:46-72 | The loop with its four running variables decides and returns what the segment function says |
| Chain.SegmentIsLinked | src/approvo/chain.py:61-72 | A segment is accepted exactly when every entry has its seq, points to the hash before it and carries its own hash; then the returned pair is where it ends |
| Chain.SegmentBinds | src/approvo/chain.py:61-72 | Two non-empty segments accepted from one start with one last hash are the same segment, length included, or a collision is computed |
| Chain.SegmentComposes | src/approvo/chain.py:46-72 | Verifying page by page from one past the last seq is verifying the whole |
| Chain.PagingByLastSeqFails | src/approvo/chain.py:54-56 | Passing the returned seq itself refuses every intact ledger that has a second page |
| Chain.BuiltCheckpointCommits | src/approvo/checkpoint.py:35-49 | A checkpoint built over a ledger commits to exactly its entries |
| Chain.ForksAreDetected | src/approvo/checkpoint.py:95-115 | If two verified ledgers both extend one checkpoint, the entries it covers agree in every field, or a collision is computed from them |
| Chain.ExtensionsPass | src/approvo/checkpoint.py:95-115 | Every ledger that extends the covered entries is accepted |
| Chain.PrefixSuffices | src/approvo/service.py:519-520 | Passing only the covered prefix of the leaves changes no answer |
| KnownValues.SmallTrees | src/approvo/merkle.py:20-45 | Trees of up to three leaves are those of section 2.1 of RFC 6962, prefixes and split included |
| KnownValues.GoldenTexts | tests/test_canonical.py:8-15 | The golden canonical texts |
| KnownValues.PaeIsText | src/approvo/crypto/envelope.py:26-36 | The pre-authentication encoding is "DSSEv1", the lengths, the type and the body, each parted by one space |
| KnownValues.Base64Vectors | src/approvo/crypto/envelope.py:18-23 | The vectors of section 10 of RFC 4648 |
| Envelope.Base64RoundTrip | src/approvo/crypto/envelope.py:18-23 | Decoding, as lenient as it is, inverts encoding |
| Envelope.PaeInjective | src/approvo/crypto/envelope.py:26-36 | The pre-authentication encoding determines type and body together |
| Envelope.WrapRoundTrip | src/approvo/crypto/envelope.py:39-69 | Unwrapping inverts wrapping, and what is to be signed is the encoding of the canonical body |
| Envelope.SignableBytesBind | src/approvo/crypto/envelope.py:63-69 | Envelopes a signature cannot tell apart have one type, one body and one decoded decision |
| Keys.KeyDirectory.constructor | src/approvo/crypto/keys.py:103-104 | A directory made from a list holds the last key of each id, filed under that id |
| Keys.KeyDirectory.Add | src/approvo/crypto/keys.py:106-107 | The key replaces any of its id, and no other changes |
| Keys.KeyDirectory.Extend | src/approvo/crypto/keys.py:109-111 | Keys are added in order |
| Keys.KeyDirectory.Revoke | src/approvo/crypto/keys.py:116-118 | Only the named key changes, and only in its revocation time; an unknown id changes nothing |
| Keys.ExtendedLookup | src/approvo/crypto/keys.py:103-111 | A lookup after adding a list finds the last key of that id in it, else the one from before |
| Keys.ReRevoking | src/approvo/crypto/keys.py:52-118 | A key counts after a second revocation and did not before exactly between the two revocation times, inside its window |
| Keys.ValidIsGood | src/approvo/crypto/keys.py:52-60 | A key is valid at a time exactly when the times it has parse and can be compared with it, and it lies in the window and before any revocation, stated over the key's fields alone |
| Verifier.VerifiedSignatures | src/approvo/crypto/verifier.py:29-49 | The loop with its set of seen keys returns the list the theorems are about, or raises when it does |
| Verifier.CollectedAreCounting | src/approvo/crypto/verifier.py:29-49 | The list holds exactly the keys some signature counts for, each once |
| Verifier.DecisionAuthorized | src/approvo/crypto/verifier.py:66-93 | The search loop answers whether some verified signature authorizes |
| Verifier.AuthorizedBySignature | src/approvo/crypto/verifier.py:66-93 | An envelope is authorized exactly when a signature counts for the approver's own key, or for an issuer key scoped to this log while the approver is known |
| Verifier.AuthorizedExactly | src/approvo/crypto/verifier.py:29-93 | The same from first principles, over the fields of the envelope, the keys and the signature check: no signature raises, and one of them is by a key good at that time whose owner is the approver, or which is an issuer key of this log for a known approver |
| Verifier.RevocationIsNotRetroactive | src/approvo/crypto/keys.py:52-60 | Revoking a key changes nothing for envelopes dated before the revocation |
| Verifier.RevokedKeysDoNotCount | src/approvo/crypto/keys.py:52-60 | From the revocation time on no signature of the key counts |
| SignedCheckpoints.VerifyCheckpoint | src/approvo/checkpoint.py:68-92 | The loop collects the owners, and accepts exactly when there is one |
| SignedCheckpoints.AcceptedWasSigned | src/approvo/checkpoint.py:68-92 | Behind an accepted checkpoint is a signature over exactly its fields by a log key of its log that was valid at publication |
| SignedCheckpoints.AcceptedExactly | src/approvo/checkpoint.py:68-92 | A checkpoint is accepted exactly when no signature raises and one of them, by a log key of its log good at publication, checks over the context and the canonical fields |
| SignedCheckpoints.SignedIsAccepted | src/approvo/checkpoint.py:52-92 | What a trusted log signer signs is accepted |
| SignedCheckpoints.CheckpointSignableBinds | src/approvo/checkpoint.py:31-32 | A log key's signature covers every field but the list of signatures |
| Ceremony.ChallengeRoundTrip | src/approvo/service.py:256-292 | The bytes handed out to sign are the bytes that will be checked, and the assembled envelope decodes to the prepared decision |
| Ceremony.PassedExactly | src/approvo/service.py:310-337 | A decision passes exactly when it is bound to the request, dated within the skew of the present and of the closing time, the sums existing and the times being comparable, and some signature counts for a key that may speak for its approver |
| Ceremony.ScreenExactly | src/approvo/service.py:310-337 | Which refusal a decision meets: the first of the checks that fails, in the service's order |
| Ceremony.ChallengeTells | src/approvo/service.py:239-280 | A challenge says what it asks for; its payload decodes to that decision, bound to the request, under the key given or the default one; and the bytes to sign are the encoding of that payload |
| Ceremony.NeverClosingNeverPasses | src/approvo/service.py:320-323 | With a closing time to which the skew cannot be added no decision passes, and one that is otherwise in order raises |
| Ceremony.CeremonyPasses | src/approvo/service.py:294-337 | A challenge answered with a key valid at its time, within skew and window, passes every check |
| PolicyEngine.Filter | src/approvo/policy/engine.py:56-72 | The filtering loop, with its three tests and its comparison of times, keeps exactly the decisions that count, in order, or raises; which those are is `Verdicts.BallotsCount` |
| PolicyEngine.OneVoiceEach | src/approvo/policy/engine.py:74-79 | Sorting stably and overwriting a dictionary leaves each approver's one voice |
| PolicyEngine.RunEngine | src/approvo/policy/engine.py:41-106 | The engine as coded returns the specified answer, or raises when it does; `Verdicts.EvaluateExactly` says what that answer is |
| PolicyEngine.VoicesSpeak | src/approvo/policy/engine.py:74-79 | The voice of an approver is a decision that counts and supersedes all others: greatest stamp, ties to the later in the list; everyone with a decision that counts has one |
| PolicyEngine.OneVoice | src/approvo/policy/engine.py:74-79 | At most one decision speaks for an approver |
| PolicyTheorems.JudgeIsJustified | src/approvo/policy/engine.py:81-106 | Status and names meet a declarative statement of who says what, with no sorting and no dictionary: names strictly sorted, rejected exactly if, approved exactly if, expired exactly if |
| PolicyTheorems.JustifiedIsUnique | src/approvo/policy/engine.py:81-106 | Only one answer meets it |
| PolicyTheorems.NamedAreEligible | src/approvo/policy/engine.py:63-68 | Whoever is named is eligible, and never the requester under separation of duties |
| PolicyTheorems.OnlyVoicesMatter | src/approvo/policy/engine.py:74-106 | Lists in which everyone says the same get the same answer |
| PolicyTheorems.OnlyPendingExpires | src/approvo/policy/engine.py:41-106 | With the decisions fixed, names stay and only pending changes, into expired, exactly once the deadline has passed |
| PolicyTheorems.UncountedAddNothing | src/approvo/policy/engine.py:58-72 | Decisions that do not count change no voice |
| PolicyTheorems.FrozenAfterDeadline | src/approvo/policy/engine.py:51-106 | After the deadline, with every later decision dated past it, the answer never changes |
| PolicyTheorems.RepeatsAreHeardOnce | src/approvo/policy/engine.py:74-79 | Recording a decision again changes nobody's voice exactly when it does not overturn a tie |
| PolicyTheorems.RepeatChangesNothing | src/approvo/policy/engine.py:74-106 | Then the whole answer is unchanged |
| PolicyTheorems.TiesCanFlip | src/approvo/policy/engine.py:77-86 | A tie overturned turns rejected into approved |
| PolicyTheorems.DecidedStaysDecided | src/approvo/policy/engine.py:77-106 | While nobody changes a verdict, a request that is not pending never is again |
| PolicyTheorems.ReopensExactly | src/approvo/policy/engine.py:77-106 | One more counted decision makes a request that was not pending pending exactly when the deadline has not passed, the approver's old voice gives way, and what is then said neither rejects nor approves |
| PolicyTheorems.ReopeningReverses | src/approvo/policy/engine.py:77-106 | And then that approver has changed a verdict |
| PolicyTheorems.ReversalReopens | src/approvo/policy/engine.py:77-106 | A changed verdict can take approved back to pending |
| Verdicts.BallotsCount | src/approvo/policy/engine.py:56-72 | A decision counts exactly when it is bound to this request body, its approver may vote by name or by role and is not a requester whose duties are separated, and its time parses, compares and lies inside closing time and age limit |
| Verdicts.EvaluateExactly | src/approvo/policy/engine.py:41-106 | Over the arguments of `evaluate` alone: it returns exactly when the deadline can be told and the times it looks at compare, its own only if nothing is decided; and what it returns is the answer due by the rules |
| Verdicts.DueIsUnique | src/approvo/policy/engine.py:81-106 | Only one answer is due |
| Verdicts.NamesHaveBallots | src/approvo/policy/engine.py:58-106 | Whoever an answer names has a decision of that verdict in the list, bound to this request body and in time, and is not a requester whose duties are separated |
| Verdicts.MisboundIsIgnored | src/approvo/policy/engine.py:60-62 | A decision bound to another request body, inserted anywhere in the list, leaves the answer as it was |
| Records.PolicyDigestBinds | src/approvo/policy/model.py:32-48 | Equal policy digests come from equal policies, every field, or the two canonical texts collide |
| Clock.TextOrderIsTimeOrder | src/approvo/clock.py:16-17 | For stamps the service writes in the years 1000 to 9999, string order is time order to the millisecond, leap years included |
| Clock.ReaderReadsStamps | src/approvo/clock.py:16-22 | A reader of dates, and of UTC times to the second or millisecond, reads back what the clock writes, to the millisecond |
| Clock.VoiceIsChronologicallyLatest | src/approvo/policy/engine.py:74-79 | With such a reader the decision that speaks is the chronologically latest that counts |
| Reads.LoadRequestIsStable | src/approvo/service.py:613-617 | A request found for an id is found for ever, however the ledger grows |
| Reads.EventsForAppends | tests/memory_stores.py:67-68 | A request's events of a longer ledger are its events so far and then the new ones |
| ProtocolSafety.ApplyInv | src/approvo/service.py:339-387 | Every step of every caller, with an idempotency store or without, keeps the protocol's invariant: a dense linked ledger, truthful slots, keys and counts |
| ProtocolRuns.EveryLedgerIsIntact | src/approvo/service.py:587-611 | In every run the seqs are 0 to n-1 and the ledger passes segment verification from genesis |
| ProtocolRuns.NothingIsRewritten | src/approvo/service.py:587-611 | Whatever any run continues with, the ledger so far stays its beginning |
| ProtocolRuns.EntriesAreAsAppended | src/approvo/service.py:587-611 | Every entry belongs to one append of one call and holds what that append was given |
| ProtocolRuns.ReturnedAppendsOnce | src/approvo/service.py:587-611 | However a call ended, each of its appends that returned contributed exactly one entry, and one that raised or gave up contributed none |
| ProtocolRuns.ExhaustedUnderContention | src/approvo/service.py:591-610 | Giving up means at least as many entries of others landed, since the first head read, as there were attempts |
| ProtocolRuns.FewerConflictsSucceed | src/approvo/service.py:591-610 | With fewer, the insert lands or another attempt remains, and the last attempt lands |
| ProtocolRuns.CheckpointsStayTrue | src/approvo/service.py:435-457 | A published checkpoint covers only entries before its own, and its root stays their root in every continuation |
| ProtocolRuns.LoadedRequestsStay | src/approvo/service.py:163-174 | Loading never fails to decode; once an id loads it loads the same request, of that id, even when racing creators append two |
| ProtocolRuns.OneWinnerPerKey | tests/memory_stores.py:130-140 | No two callers work under one idempotency key at a time |
| ProtocolRuns.DecisionsPerKey | src/approvo/service.py:347-361 | With an idempotency store, the decisions recorded under a key number one for each release that followed a landed decision, and one more while the holder's has landed |
| ProtocolRuns.CompletedKeysAreRecorded | src/approvo/service.py:355-361 | A completed key means a decision with its fingerprint is in the ledger |
| ProtocolRuns.ReplaysAreOwn | src/approvo/service.py:347-353 | A replay answers with the caller's own request id, or two decisions collide |
| ProtocolProgress.BoundedSteps | src/approvo/service.py:587-611 | Every call ends: in every run, however the calls interleave and whatever fails, no call takes more than four steps for each append attempt, and ten |
| ProtocolProgress.NeverStuck | src/approvo/service.py:339-387 | In every run every call that has not ended can take its next step, whatever others have left undone, and is then nearer to its end |
| ProtocolProgress.ReserveAnswers | src/approvo/service.py:347-353 | In every run a reservation is won exactly when the key is free; otherwise some call won it for a decision, and it is refused exactly for another fingerprint, in flight exactly while not completed, and else answered with that call's request |
| ProtocolProgress.LookAnswers | src/approvo/service.py:163-165 | In every run a creator finds a request exactly when one was opened under its id, which is its own but for the time or collides with it, and otherwise goes on to open it |
| ProtocolProgress.CompletedForEver | src/approvo/service.py:355-361 | A completed key is never taken back or altered, however the run continues |
| ProtocolProgress.FailuresRelease | src/approvo/service.py:355-359 | In every run a call that fails or gives up between winning its key and completing it is left to release the key, and that release frees it for others and ends the call |
| ProtocolProgress.RetriesAreReplayed | src/approvo/service.py:347-361 | Once a call has ended with its decision recorded, any later call with the same decision that reserves is answered with that decision's request and appends nothing, whoever else is calling |
| Records.PendingForExactly | src/approvo/projection.py:14-58 | A view waits for exactly the eligible roster members who have not decided, never the requester under separation of duties |
| Records.CollectEligible | src/approvo/projection.py:14-26 | The loop over the roster collects the members who could cast a counting vote, sorted |
| Records.ViewShowsApprovals | src/approvo/projection.py:29-58 | A view of a derived record shows enough approvals if approved, none if rejected, too few if pending or expired without role requirements, and awaits nobody unless pending |
| CleanReports.CleanReportMeans | src/approvo/service.py:459-577 | A clean report from the first entry on, of any ledger: the chain is linked, from genesis exactly if its first entry points there; every recorded decision decodes, is bound to a request that loads, and is authorized; the latest published checkpoint is accepted and its root is the root of the leaves it covers; every request opened under a policy at hand pins that policy, and its last recorded status is what its decisions give now, unless the window has closed |
| CleanReports.CleanExactly | src/approvo/service.py:459-581 | For every ledger, start, limit and pinned checkpoint: a report is clean if and only if chain, decisions and statuses of the segment, the latest published checkpoint and the pinned one all hold |
| Findings.FindsExactly | src/approvo/service.py:459-581 | For every ledger, start, limit and pinned checkpoint, and each topic: a check on it fails if and only if its cause is there, among broken links or undecodable decisions, the latest checkpoint's signature and root, the pinned checkpoint, unknown requests, misbound and unauthorized decisions, changed policies, and last recorded statuses that their decisions do not give now |
| Findings.ReportsExactly | src/approvo/service.py:459-581 | There is a report rather than an exception if and only if the latest checkpoint reads and every decision and status that the walk gathers can be checked |
| Findings.ReachesExactly | src/approvo/service.py:494-581 | A report says it has verified up to the last position of the segment exactly when the chain holds there, and otherwise no further than the start |
| CleanReports.PublishedDetectsRewrites | src/approvo/service.py:501-513 | If a report is clean and the ledger's latest checkpoint was built over another verified ledger, every covered entry is here in every field, or a collision is computed |
| CleanReports.ReportNames | src/approvo/service.py:579-581 | The report names where it was asked to start and, when clean, a position no scanned one lies beyond |
| Audit.GenesisIsNotChecked | src/approvo/service.py:479-497 | A one-entry ledger pointing to any hash gets a clean report, though it is linked from genesis only if that hash is zero |
| CleanReports.CleanReportDetectsForks | src/approvo/service.py:515-523 | A clean report against a checkpoint built over another verified ledger means it is accepted and the covered entries agree in every field, or a collision is computed |
| LedgerHealth.Derives | src/approvo/service.py:625-653 | On a ledger the service wrote, a record is the judged decisions of the request, and re-deriving raises exactly when the deadline cannot be told: a time that does not parse, an age limit that cannot be added, or times of which one has an offset |
| Answers.OnlyAuthorizedAreRead | src/approvo/service.py:625-642 | On every ledger, whoever wrote it, the decisions read for a request are its authorized ones, all of them and in ledger order; reading raises exactly when one does not decode or its authorization cannot be told |
| Answers.DerivesExactly | src/approvo/service.py:644-653 | On every ledger: a record is derived exactly when the policy is at hand and pinned, every decision can be read, and an evaluation has an answer; it then holds the authorized decisions and the answer due on them |
| Answers.StatusExactly | src/approvo/service.py:393-396 | On every ledger: a status is of the first request opened under the id, the authorized decisions recorded under it, and the answer due on them |
| Answers.StatusAnswers | src/approvo/service.py:393-396 | In every run `get_status` answers "no such request" exactly when nothing was opened under the id; otherwise it gives the request opened, the decisions recorded for it in ledger order and the answer due at that time, or raises exactly when no answer can be told |
| SequentialRuns.EveryRunIsSound | src/approvo/service.py:132-457 | In every run, whatever the clock reads and whoever signs, the chain is linked and every entry is what its type says |
| FalseAlarms.OrderlyStatuses | src/approvo/service.py:363-387 | With a clock that does not go back, the last recorded status of each request is true of its present decisions or has been overtaken by pending, the latter only if a verdict was changed |
| FalseAlarms.VerifyOutcome | src/approvo/service.py:459-581 | After any run with a clock that does not go back and a trusted log key, `verify` at any later time, from any position, for any length and against any earlier checkpoint raises exactly when some deadline in the segment cannot be told, and otherwise reports every check ok exactly when no request in the segment was decided and is pending again |
| FalseAlarms.NoFalseAlarms | src/approvo/service.py:459-581 | If besides nobody changed a verdict, every check of every such report is ok |
| SequentialRuns.RecordedStaysCounted | src/approvo/service.py:625-642 | In every run, a recorded decision is among the decisions of every later reading of its request, which never raises |
| SequentialRuns.CeremonyIsRecorded | src/approvo/service.py:239-361 | The detached ceremony end to end, in every run: a properly answered challenge under a fresh key is appended and counted by every later reading, and the call returns exactly when the request's deadline can be told |
| ServiceGuarantees.NothingUnverifiedIsPersisted | src/approvo/service.py:294-337 | In every run, whatever is submitted, each recorded decision is authorized, bound to its request and dated inside the window up to the skew, and the chain is intact |
| ServiceGuarantees.RecordedWasSubmitted | src/approvo/service.py:363-371 | In every run each recorded decision is an envelope that was submitted |
| Answers.OpenedWasAsked | src/approvo/service.py:151-172 | In every run each opening entry holds, as read back, exactly the fields some opening asked for, with the digest of the policy at hand and that operation's time, and the opening met the policy's requirements |
| Answers.RefusesExactly | src/approvo/service.py:151-152 | An opening is refused exactly for an unknown policy, or for a missing required field, and then writes nothing |
| Answers.CreateAnswers | src/approvo/service.py:132-174 | In every run an acceptable opening is answered with the request already open under its id, which differs from it in the time at most or collides; or with exactly the request asked for, opened by one more entry that reads back as it, and its view stored; it raises exactly when a view is kept and the deadline cannot be told |
| Answers.OpeningIdsBind | src/approvo/service.py:153-165 | Openings whose requests share an id are the same opening of the same policy, whatever their times, or a collision is at hand |
| ServiceGuarantees.CreatingAgain | src/approvo/service.py:132-174 | Creating again with the same arguments changes nothing and returns the first request |
| ServiceGuarantees.SubmittingAgain | src/approvo/service.py:339-361 | Submitting a recorded envelope again, at any time, changes no store |
| ServiceGuarantees.KeysAreNotReused | tests/memory_stores.py:130-140 | Another decision under a used key changes no store and is refused, unless the two collide |
| Submissions.SubmitAnswers | src/approvo/service.py:294-387 | In every run a submission is answered by the first of: bad envelope, no such request, refusal, held key, recording; a recorded decision is one more entry with the envelope, then its status unless pending, then its view and its key; the record holds all decisions with this one last and the answer due; it raises exactly when no answer can be told |
| Submissions.HeldKeysAreRecorded | src/approvo/service.py:347-361 | In every run a key is held only for a decision recorded under it, completed, with its fingerprint and its request |
| Submissions.ConflictExactly | src/approvo/service.py:347-353 | In every run a submission that passes under a held key writes nothing and conflicts exactly when the decision recorded under the key has another fingerprint; otherwise it is that decision, or the two collide, and it gets the present status |
| Submissions.RetryAnswers | src/approvo/service.py:347-353 | In every run a recorded envelope submitted again, at any later point, writes nothing and, if it passes the checks again, is answered with the request loaded, all its decisions including this one and the answer due at that time, or raises exactly when no answer can be told; it never conflicts |
| Submissions.PrepareAnswers | src/approvo/service.py:239-280 | In every run preparing answers "no such request" exactly when nothing was opened under the id, and otherwise with a challenge for the decision asked for |
| Submissions.SignedSubmissionAnswers | src/approvo/service.py:180-233 | In every run a decision signed by the server is answered as the submission of an envelope that carries exactly the decision asked for, with the evidence given, under the signer's one signature |
| Refinement.SequentialIsARun | src/approvo/service.py:132-457 | Every sequential run of the service, with an idempotency store or without, is a run of the concurrent protocol with the same ledger and keys, so what holds of every protocol run holds of it |
| Refinement.AppendSteps | src/approvo/service.py:591-602 | A head read and an insert with nothing in between land exactly the entry that follows the head |
| Refinement.KeysTellTheTruth | src/approvo/service.py:339-361 | A completed key of the service means its decision, with that fingerprint, is in its ledger |
| Witnesses.CeremonyHappens | src/approvo/service.py:239-361 | A concrete ceremony, with stamps that are read and signatures that can fail, is recorded and counted |
| Witnesses.CeremonyVerifies | src/approvo/service.py:459-581 | A concrete run of opening, answering and publishing gets a clean report |
| Witnesses.AgeLimitOverflows | src/approvo/policy/engine.py:51-54 | With an age limit of 10^12 seconds and a closing time that parses, `verify` raises |
| Witnesses.DateAloneRaises | src/approvo/policy/engine.py:51-54 | With the closing time `2026-12-31`, which parses, `verify` raises |
| Witnesses.NeverClosingRefuses | src/approvo/service.py:320-323 | With the closing time `9999-12-31T23:59:59Z` an answer that is in order otherwise raises and records nothing |
| Witnesses.ReversalAlarms | src/approvo/service.py:554-577 | A run in which an approver approves and then rejects, under a policy where rejecting is not final, is reported with a failed check |
| ServiceGuarantees.CheckpointsChain | src/approvo/service.py:435-457 | A published checkpoint commits to every entry before its own and becomes the latest; the next one names its root as the previous |
| Publications.PublishIsTold | src/approvo/service.py:435-457 | On every ledger publishing raises exactly when the latest checkpoint does not read; otherwise one entry is appended that reads back as a checkpoint over all entries, at this time, for this log, naming the root of the latest one, under one signature over its canonical fields |
| Publications.PublishAnswers | src/approvo/service.py:435-457 | In every run it returns such a checkpoint |
| ReadModel.RebuildIsTruth | src/approvo/service.py:406-429 | A finished rebuild leaves exactly one view for each created id that loads: the view of its re-derived record at its highest position |
| ReadModel.ReadModelAgrees | src/approvo/service.py:662-676 | In every run with a clock that does not go back and deadlines that can be told, verdicts changing as they like, rebuilding finishes and gives every request the view it already had, up to time stamp and expiry |
| ReadModel.RebuildReturns | src/approvo/service.py:406-429 | A rebuild returns a count exactly when the deadline of every request ever opened can be told |
| Rebuilds.RebuildAnswers | src/approvo/service.py:406-429 | In every run, whatever the clock reads, a rebuild raises exactly when the status of some request ever opened cannot be told, leaving one true view for each request opened before the first such; otherwise it returns how many were opened and leaves one view for each, of its true record at this time and at the position of its last entry |
| Renderings.BuiltShows | src/approvo/projection.py:14-58 | A view shows the request's own fields, the status and who brought it about, no approvals if rejected, and awaits, in order, exactly the roster members who may vote and have not, while pending |
| MemoryStores.MemoryEventStore.constructor | tests/memory_stores.py:26-30 | An empty store |
| MemoryStores.MemoryEventStore.FromEntries | tests/memory_stores.py:32-49 | Entries are loaded verbatim and indexed |
| MemoryStores.MemoryEventStore.Head | tests/memory_stores.py:51-52 | The last entry, if any |
| MemoryStores.MemoryEventStore.Append | tests/memory_stores.py:54-62 | Only the next seq is accepted; the index keeps listing exactly each request's entries |
| MemoryStores.MemoryEventStore.GetBySeq | tests/memory_stores.py:64-65 | The entry at a position, if there is one |
| MemoryStores.MemoryEventStore.EventsForRequest | tests/memory_stores.py:67-68 | Fetching through the index is filtering the list, for entries in place |
| MemoryStores.MemoryEventStore.Scan | tests/memory_stores.py:70-73 | The entries from a position on, up to a limit |
| MemoryStores.MemoryEventStore.LeafHashes | tests/memory_stores.py:75-77 | The entry hashes, up to a bound |
| MemoryStores.MemoryEventStore.LatestPublished | tests/memory_stores.py:79-83 | The last published checkpoint, searched from the end |
| MemoryStores.FetchingIsFiltering | tests/memory_stores.py:54-68 | The index and the list agree on every prefix |
| MemoryStores.MemoryIdempotencyStore.Reserve | tests/memory_stores.py:130-140 | Insert if absent; a second fingerprint conflicts; a loser learns the stored response |
| MemoryStores.MemoryIdempotencyStore.Complete | tests/memory_stores.py:142-144 | Only the response of that key changes |
| MemoryStores.MemoryIdempotencyStore.Release | tests/memory_stores.py:146-148 | Only that key goes |
| MemoryStores.MemoryProjectionStore.Put | tests/memory_stores.py:90-94 | A view is never moved backwards, and no other view changes |
| MemoryStores.MemoryProjectionStore.Clear | tests/memory_stores.py:121-122 | No view is left |
| ApprovalServices.ApprovalService.Append | src/approvo/service.py:587-611 | The retry loop, under any interference between its head reads and inserts, ends as specified |
| ApprovalServices.AppendOutcome | src/approvo/service.py:587-611 | It gives up exactly when every attempt met a rival, and then as many foreign entries have landed; otherwise its entry is the last, sealed against the one before; nothing earlier changes |
| ApprovalServices.ApprovalService.LoadById | src/approvo/service.py:613-617 | The loop finds the first creation entry of the id |
| ApprovalServices.ApprovalService.CollectDecisions | src/approvo/service.py:625-642 | The loop collects the authorized decisions in ledger order, or raises |
| ApprovalServices.ApprovalService.Derive | src/approvo/service.py:644-653 | The record is re-derived, or the policy is missing, or has changed, or it raises |
| ApprovalServices.ApprovalService.LastRecordedStatus | src/approvo/service.py:655-660 | The status in the last status entry of the request |
| ApprovalServices.ApprovalService.CreateRequest | src/approvo/service.py:132-174 | The stores and the outcome are those of the create operation; over a ledger the service wrote they are what `Answers.CreateAnswers` says, and it stays such a ledger |
| ApprovalServices.ApprovalService.RecordAndSettle | src/approvo/service.py:363-387 | The decision is appended, then its status unless pending, then the view is stored, also when it raises in between |
| ApprovalServices.ApprovalService.RecordUnderKey | src/approvo/service.py:347-361 | Reserve, record, then complete or release: the stores and the outcome are those of the keyed operation; a held key changes nothing, conflicts exactly for another fingerprint, and is otherwise answered with the present status |
| ApprovalServices.ApprovalService.SubmitSignedDecision | src/approvo/service.py:294-361 | The stores and the outcome are those of the submit operation; over a ledger the service wrote they are what `Submissions.SubmitAnswers` says, and it stays such a ledger |
| ApprovalServices.ApprovalService.SubmitForApprover | src/approvo/service.py:180-233 | The decision asked for is signed and submitted, as `Submissions.SignedSubmissionAnswers` says |
| ApprovalServices.ApprovalService.PrepareChallenge | src/approvo/service.py:239-280 | A challenge for the decision asked for, bound to the request loaded, or none when there is no such request |
| ApprovalServices.ApprovalService.GetStatus | src/approvo/service.py:393-396 | The present record of a request; over a ledger the service wrote the answer is what `Answers.StatusAnswers` says |
| ApprovalServices.ApprovalService.PublishCheckpoint | src/approvo/service.py:435-457 | A signed checkpoint over all leaves, chained to the previous one, is appended and returned, as `Publications.PublishIsTold` says |
| ApprovalServices.ApprovalService.StoreView | src/approvo/service.py:662-676 | The view of a record at hand is stored unless it is older |
| ApprovalServices.ApprovalService.DeriveAndStoreView | src/approvo/service.py:662-676 | The view of the re-derived record is stored unless it is older, or it raises and stores nothing |
| ApprovalServices.ApprovalService.WalkSegment | src/approvo/service.py:482-493 | The walk gathers decisions and created ids, and stops at an envelope that does not decode with what it has gathered |
| ApprovalServices.ApprovalService.CheckPublished | src/approvo/service.py:501-513 | The latest checkpoint's two checks, or none, or a raise; they are clean exactly when it is accepted and its root is the root of the leaves it covers |
| ApprovalServices.ApprovalService.CheckTrusted | src/approvo/service.py:515-523 | One check, which any failure turns false and none lets escape |
| ApprovalServices.ApprovalService.CheckDecisions | src/approvo/service.py:525-552 | The checks of every decision in order, or a raise |
| ApprovalServices.ApprovalService.CheckStatuses | src/approvo/service.py:554-577 | The status checks of every created id in order, or a raise |
| ApprovalServices.ApprovalService.Verify | src/approvo/service.py:459-581 | The walk and its five groups of checks produce the report, or raise; it is clean exactly when everything `CleanReports.CleanExactly` lists holds |
| ApprovalServices.ApprovalService.RebuildProjections | src/approvo/service.py:406-429 | Batch by batch, the views and the count are those of the rebuild, also when it raises half way; over a ledger the service wrote they are what `Rebuilds.RebuildAnswers` says |
| MongoViews.MongoProjectionStore.Put | examples/vehicle-release-approvals/app/mongo_stores.py:163-181 | The conditional update with its ignored duplicate error never moves a view backwards and touches no other document |
| MongoViews.MongoProjectionStore.Clear | examples/vehicle-release-approvals/app/mongo_stores.py:228-229 | Exactly this log's documents go |
| MongoViews.MongoProjectionStore.RunQuery | examples/vehicle-release-approvals/app/mongo_stores.py:187-226 | Fetching one more than the limit and trimming gives the page over the sorted listing |
| MongoViews.ListingExactly | examples/vehicle-release-approvals/app/mongo_stores.py:187-215 | The listing holds exactly this log's documents that meet every filter given and lie beyond the cursor, by creation time and then id, each once |
| MongoViews.BeyondIsRest | examples/vehicle-release-approvals/app/mongo_stores.py:201-215 | What the cursor condition selects after a document is exactly the rest of the listing |
| MongoViews.PagesAreTheListing | examples/vehicle-release-approvals/app/mongo_stores.py:187-226 | Following cursors over an unchanging collection yields exactly the filtered views, in order, each once, all pages but the last full |
| MongoViews.PagesForIsCeiling | examples/vehicle-release-approvals/app/mongo_stores.py:217-224 | That takes the least positive number of pages with room for all |

## Left out

- Text: strings are sequences of Unicode scalar values, so lone surrogates, which the encoder refuses, do not occur; Python's limit on the digits of an integer is not modelled.
- Reading JSON: the reader covers the compact texts the service writes and refuses others; white space, floats and surrogate pairs in escapes, which `json.loads` also reads, are refused.
- Values of other types: a dictionary field that should hold a string and holds another type is treated as malformed when it is read; floats inside payloads, which raise while hashing, do not occur.
- Canonical order: keys are sorted by code point, as the code does; section 3.2.3 of RFC 8785 sorts by UTF-16 code unit, and equality with it is not claimed. The type length in the pre-authentication encoding counts characters, as the code does, so agreement with DSSE v1 is claimed for ASCII types only.
- Explanations: the texts of `reasons`, of checks and of errors; the reasons in a status entry are a parameter.
- Cryptography: schemes, providers, key files, key resolution and caches; a scheme is an abstract predicate.
- Routes, schemas, the demo, indexes, the database driver, sleeping and jitter.
- Challenges: the advisory `expires_at` is not modelled; nothing in the service reads it. Computing it can raise within the challenge's lifetime of the end of the year 9999.
- `fromisoformat`: only the three shapes of text that the concrete runs use have a reader; elsewhere reading is any partial function. Times with a fold or a named zone do not occur in what it returns.
- `submit_decision`: key resolution through a signing service; the signer is given, as the method's first choice has it.
- Protocol: a store call that takes effect and still raises is not modelled, nor is a reservation that expires; the re-derived status in the concurrent model is arbitrary, as it does not bear on the properties proved there.
- Sequential runs: one caller at a time; what holds under interleaving is proved of the protocol and of `Append`, and the sequential runs are shown to be runs of the protocol.
- ApprovalServices.ApprovalService.CreateRequest: assumes, like all methods that append, a service configured with at least one append attempt; with none the source raises its assertion error on every append, which `Append` itself models.
- ApprovalServices.ApprovalService.RebuildProjections: assumes a positive batch size.
- ApprovalServices.ApprovalService.Verify: positions and limits are not negative.
- MongoViews.MongoProjectionStore.RunQuery: assumes a limit of at least one, as a smaller one fails on the first document; the cursor is the pair its text encodes; a subject filter asks for an equal field, without the database's rules for arrays, dotted names and null.
- Records.PendingForExactly: the roster files every identity under its own id.
- MemoryStores.MemoryEventStore.Scan: the start is not negative.
- `MemoryProjectionStore.query`: offset paging in memory would only add easy members.
- Mongo event and idempotency stores: their one constraint, uniqueness, is what the concurrent protocol assumes.
