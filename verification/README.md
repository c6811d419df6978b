# Wildbloom node: a verified model of its hard parts

This project models five parts of the Wildbloom node in Dafny 4.11 and proves what they are for. `dafny verify dfyconfig.toml` checks all of it. `Wrappers.dfy` holds the two shared result types, `Arithmetic.dfy` minimum, maximum and saturating subtraction, and `Sums.dfy` the sum of a map.

**Erasure repair** (`Gf256`, `Linear`, `Vandermonde`, `GaussJordan`, `ErasureCode`, `ErasureRepair`). Bytes modulo x^8+x^4+x^3+x^2+1 are proved to be a field, in-place Gauss-Jordan elimination to be correct and complete, and any k parts of a pool to rebuild all n byte for byte through the striped disk loop. A byte is eight booleans.

**Group grants** (`GroupEvents`, `GroupGrants`, `GroupNode`, `GroupTheorems`, `GroupCore`, `GroupEffects`, `GroupRevocation`, `GroupLatePush`, `GroupPruning`, `GroupServer`, `GroupCeiling`, `GroupUploads`, `GroupUploadRaces`, `RollingWindows`, `RestartedWindows`, `Budgets`, `RestartedBudgets`). Keeper-signed grants, revocations and resets act on stored rows while a clock advances, old rows are pruned and posts wait for the core. `GroupNode` is the transition system: a post is split into screening, plan, plan again, push and commit under its two locks, the database and the snapshot last read from it are separate, and a restart, with another configuration, may happen anywhere. `GroupPruning` runs it beside a node that keeps its floors, and `GroupCore` compares what the core was told with what was committed. `GroupServer` has the locked sections as methods of an object. `GroupCeiling` has the counters behind the byte ceiling, and `GroupUploads` the ceiling under concurrent uploads and deletes, with the claims in the store apart from the node's own list of them, and reservations that end with their request while its task goes on. `RollingWindows` has the rate limits and `Budgets` the single-use tables and the device gate; reading the clock, verifying an id and spending it are separate steps. `RestartedWindows` and `RestartedBudgets` have both over restarts, which empty the windows.

**Delegated claims** (`ClaimMoves`, `ClaimHolds`, `ClaimTables`, `ClaimWalks`). A key's claims move to its owner and back. `ClaimMoves` interleaves transfers, restores, releases, owner writes and deletes, uploads, operator removals and crashes, each database section, each store call and each reading of the clock for an owner write being one step; a drop, which calls the store under the database lock, is two. `ClaimTables` has the tables updated in place, `ClaimWalks` the paginated loops over views from which the walk and others take claims away.

**Envelope codec** (`EnvelopeName`, `EnvelopeLengths`, `EnvelopeFormat`, `EnvelopeCodec`). FSWNENC2 encryption and decryption are loops over a reused buffer. AES-256-GCM (NIST SP 800-38D), HKDF (section 2 of RFC 5869), SHA-256, JSON, UTF-8 validation, lower-casing and normalisation form C (Unicode Standard Annex #15) are function parameters; `Primitives.Lawful` and `Unicode.NfcLaws` say what is assumed of them.

**Checkout** (`CheckoutLedger`, `CheckoutSaga`, `CheckoutTheorems`, `CheckoutService`). The ledger's compare-and-set updates, the service as a transition system that may stop between any two steps, and its operations as methods that take those steps. Backend answers are parameters; the digest and the note signature check are the functions of `Checks`.

Eleven statements turned out to need a condition. Ten have it as an if-and-only-if, with a run that fails beside it:

- events land once: a grant within seven days and a second of its screening, a reset within a second (`WindowsAreExact`);
- pruned floors do not show: events judged within 90 days of being made, posts within a second of their screening (`UntouchedIsYoung`, `PruningDelayIsExact`);
- a revocation is final: for versions that expire within seven days and a second of its row's retention (`ReachIsExact`);
- delete tokens are spent once: within a second of their verification (`DeleteLagIsExact`);
- request ids are spent once: within 30 seconds (`Nip98LagIsExact`);
- owner claims stand: the lag of recording and the delay of landing fit the window together (`WindowIsExact`);
- moved blobs stay claimed: a leftover record is reused for its own owner only (`ReuseIsExact`);
- the group ceiling holds: no upload told that its blob is held claims or enters one that no longer is, no delete forgets a blob that is claimed, and no request is given up while its task stores a blob that was not held, unless empty (`LapseRuleIsExact`);
- rate limits hold over the full window: no request waits between its reading of the clock and the lock, and each second of waiting costs one (`SpacingIsExact`, `BudgetIsExact`); every restart gives the limit once more (`RestartsAreExact`, `BudgetOverRestarts`);
- the core knows what is committed: every push it applied was committed or put right (`CoreMatches`).

The eleventh is a device budget of zero, which grants like one (`ZeroLimitGrantsOne`). Near 2^64 padding wraps to nothing, and `PaddingCovers` says exactly where. The comment on `group_db::prune` has it that nothing pruned could still be needed: `PruningDelayIsExact`, `ReachIsExact`, `WindowsAreExact` and `DeleteLagIsExact` say when that is so.

## Model

| member | source | states |
|---|---|---|
| Gf256.MulLoop | crates/wildbloomd/src/replicas/coding.rs:12-22 | the shift-and-xor loop computes the product whose field laws follow |
| Gf256.MulComm | crates/wildbloomd/src/replicas/coding.rs:12-22 | the byte product is commutative |
| Gf256.MulAssoc | crates/wildbloomd/src/replicas/coding.rs:12-22 | the byte product is associative |
| Gf256.MulAddLeft | crates/wildbloomd/src/replicas/coding.rs:12-22 | the product distributes over xor on the left |
| Gf256.MulAddRight | crates/wildbloomd/src/replicas/coding.rs:12-22 | the product distributes over xor on the right |
| Gf256.MulOne | crates/wildbloomd/src/replicas/coding.rs:12-22 | one is neutral on both sides |
| Gf256.NoZeroDivisors | crates/wildbloomd/src/replicas/coding.rs:12-22 | a product is zero only if a factor is |
| Gf256.Pow256 | crates/wildbloomd/src/replicas/coding.rs:23-25 | every byte is its own 256th power, so the powers of a nonzero byte cycle |
| Gf256.InverseIsPow254 | crates/wildbloomd/src/replicas/coding.rs:23-25 | the 254th power of a nonzero byte is its true inverse on both sides |
| Gf256.ByteRoundTrip | crates/wildbloomd/src/replicas/coding.rs:88-90 | a byte read as a table index and back is the same byte |
| Linear.ApplyProduct | crates/wildbloomd/src/replicas/coding.rs:59-71 | applying the matrix product is applying one matrix after the other |
| Linear.TimesProduct | crates/wildbloomd/src/replicas/coding.rs:59-71 | a row times a product is the row times the first, times the second |
| Linear.ProductIsIdentity | crates/wildbloomd/src/replicas/coding.rs:59-71 | a product that undoes every vector is the identity matrix |
| Vandermonde.Division | crates/wildbloomd/src/replicas/coding.rs:76-78 | dividing a polynomial by x + r leaves its value at r |
| Vandermonde.FewRoots | crates/wildbloomd/src/replicas/coding.rs:76-78 | a polynomial with as many distinct roots as coefficients is zero |
| Vandermonde.VandermondeInjective | crates/wildbloomd/src/replicas/coding.rs:76-78 | rows of powers of distinct points send only zero to zero |
| GaussJordan.FindPivot | crates/wildbloomd/src/replicas/coding.rs:38-40 | finds the first row at or below the column with a nonzero entry, or none has one |
| GaussJordan.ReduceColumn | crates/wildbloomd/src/replicas/coding.rs:41-55 | swap, scale and eliminate keep the solutions of the augmented matrix and reduce one more column |
| GaussJordan.ScalePivot | crates/wildbloomd/src/replicas/coding.rs:42-45 | scaling the pivot row in place makes its pivot one and keeps the solutions |
| GaussJordan.EliminateColumn | crates/wildbloomd/src/replicas/coding.rs:46-55 | eliminating in place clears the column everywhere else and keeps the solutions |
| GaussJordan.Finished | crates/wildbloomd/src/replicas/coding.rs:57-57 | the right half of a reduced matrix equivalent to the augmented one is a two-sided inverse |
| GaussJordan.NoPivot | crates/wildbloomd/src/replicas/coding.rs:38-40 | a column without a pivot yields a nonzero vector the matrix sends to zero |
| GaussJordan.Invert | crates/wildbloomd/src/replicas/coding.rs:26-58 | for every square matrix: a two-sided inverse, or refusal exactly when a nonzero kernel vector exists |
| GaussJordan.InverseHasNoKernel | crates/wildbloomd/src/replicas/coding.rs:26-58 | a matrix with an inverse has no nonzero kernel vector |
| ErasureCode.PowersRegular | crates/wildbloomd/src/replicas/coding.rs:76-79 | the top k rows of powers can always be inverted, so the generator exists |
| ErasureCode.GeneratorRow | crates/wildbloomd/src/replicas/coding.rs:72-80 | each generator row is determined by k and n, and the first k rows are the identity: the code is systematic |
| ErasureCode.AnyRowsRegular | crates/wildbloomd/src/replicas/coding.rs:72-80 | any k distinct rows of the generator are invertible |
| ErasureCode.PartsAreEvaluations | crates/wildbloomd/src/replicas/coding.rs:72-80 | part r of a codeword is the value at r of the polynomial through the data |
| ErasureCode.Generator | crates/wildbloomd/src/replicas/coding.rs:72-80 | succeeds exactly for 2 <= k < n <= 16, and returns the matrix that sends data at the first k points to values at all n |
| ErasureCode.Combine | crates/wildbloomd/src/replicas/coding.rs:81-94 | the accumulating loop, zero coefficients skipped, is the row-times-matrix product |
| ErasureCode.AddInto | crates/wildbloomd/src/replicas/coding.rs:88-91 | the inner loop, through its table of products, adds a scaled input into the accumulator in place |
| ErasureRepair.StripesJoin | crates/wildbloomd/src/replicas/coding.rs:136-149 | coding a file stripe by stripe is coding it whole, wherever the stripes end |
| ErasureRepair.RepairIsEncoding | crates/wildbloomd/src/replicas/coding.rs:110-149 | generator times inverse of the picked rows, applied to the picked parts, is the original encoding |
| ErasureRepair.ReadStripe | crates/wildbloomd/src/replicas/coding.rs:138-142 | reads the same range of every source, or fails exactly when one is too short |
| ErasureRepair.WriteStripe | crates/wildbloomd/src/replicas/coding.rs:143-147 | appends each part's stripe to its writer and its hasher alike |
| ErasureRepair.Rebuild | crates/wildbloomd/src/replicas/coding.rs:133-149 | the whole stripe loop writes, and hashes, every part of the transform applied to the sources |
| ErasureRepair.WalkFile | crates/wildbloomd/src/replicas/coding.rs:162-175 | hashes what is still wanted of one file and keeps the first magic bytes |
| ErasureRepair.WalkPayload | crates/wildbloomd/src/replicas/coding.rs:158-176 | hashes exactly the first payload-size bytes of the first k parts, joined |
| ErasureRepair.CheckHashes | crates/wildbloomd/src/replicas/coding.rs:151-157 | true exactly when every written part has its signed hash |
| ErasureRepair.Transform | crates/wildbloomd/src/replicas/coding.rs:106-112 | exists exactly for k distinct sources of a supported code, and then repairs every encoding |
| ErasureRepair.Regenerate | crates/wildbloomd/src/replicas/coding.rs:101-186 | from any k distinct parts of any encoding, in any order and of any length, writes all n parts of that encoding; every outcome is tied to its cause |
| GroupEvents.DecimalIsCanonical | crates/wildbloomd/src/grants/group_event.rs:160-169 | a decimal is accepted exactly when it is the one numeral of a number below 10^19 |
| GroupEvents.Gather | crates/wildbloomd/src/grants/group_event.rs:227-242 | the tag loop collects every single tag by name and the scopes in order, and refuses only what is not plain |
| GroupEvents.Mask | crates/wildbloomd/src/grants/group_event.rs:294-301 | the mask loop yields the set of scopes named, or nothing if one is unknown or named twice |
| GroupEvents.ScopesMean | crates/wildbloomd/src/grants/group_event.rs:291-301 | a scope list is good exactly when each name is known and given once |
| GroupEvents.ScopesFit | crates/wildbloomd/src/grants/group_event.rs:291-301 | a good scope list sets as many bits as it has names, so the length limit never bites alone |
| GroupEvents.Tags | crates/wildbloomd/src/grants/group_event.rs:223-324 | the loops, the tag count and the checks read exactly what reading each tag by name gives |
| GroupEvents.OrderDoesNotMatter | crates/wildbloomd/src/grants/group_event.rs:223-324 | reordering the tags never changes what an event says or whether it is accepted |
| GroupEvents.AcceptedIsParsed | crates/wildbloomd/src/grants/group_event.rs:188-221 | an accepted event lives at most 90 days, has a byte ceiling exactly with an upload scope, never grants its own keeper, and was signed |
| GroupGrants.WaitingKeeps | crates/wildbloomd/src/grants/group_db.rs:109-124 | time alone never gives a device a second live grant or a wrong ceiling |
| GroupGrants.PruningKeeps | crates/wildbloomd/src/grants/group_db.rs:350-358 | pruned rows keep the whole row invariant |
| GroupGrants.ResetKeeps | crates/wildbloomd/src/grants/group_db.rs:312-331 | writing a newer floor keeps the row invariant |
| GroupGrants.CommitKeeps | crates/wildbloomd/src/grants/group.rs:527-656 | committing any accepted event of an enrolled keeper keeps: one group per device, one live grant per device whoever is enrolled, ceiling of the live upload grant |
| GroupGrants.DeadFloorCoversExpired | crates/wildbloomd/src/grants/group_db.rs:20-22 | a grant under a floor old enough to prune has expired |
| GroupNode.CommitSpends | crates/wildbloomd/src/grants/group.rs:527-656 | a committed event leaves rows under which it can never change anything again |
| GroupNode.SpentChangesNothing | crates/wildbloomd/src/grants/group.rs:537-604 | a spent event is refused or changes nothing |
| GroupNode.SpentStaysByPruning | crates/wildbloomd/src/grants/group_db.rs:350-358 | pruning never brings a spent event back |
| GroupNode.PlanPostKeeps | crates/wildbloomd/src/grants/group.rs:428-447 | the first plan under the update lock, ending in a refusal, a commit or a wait for the push lock, keeps every committed ceiling known to the core |
| GroupNode.TakePushKeeps | crates/wildbloomd/src/grants/group.rs:454-465 | planning again under the push lock keeps it |
| GroupNode.SendPushKeeps | crates/wildbloomd/src/grants/group.rs:466-479 | telling the core, applied or not, keeps it too |
| GroupNode.CommitPushKeeps | crates/wildbloomd/src/grants/group.rs:480-487 | the commit after the push keeps it, whatever landed between |
| GroupNode.StepKeeps | crates/wildbloomd/src/grants/group.rs:399-506 | every step of every interleaving, restarts with any other configuration included, keeps the row invariant and the core ordering together |
| GroupNode.Reachable | crates/wildbloomd/src/grants/group.rs:399-506 | so every state any run reaches has them |
| GroupTheorems.DeviceHasOneGrant | crates/wildbloomd/src/grants/group.rs:573-614 | in every reachable state, at every time from then on and however enrolments changed at restarts: one live row per device, all its rows in one group, its key entry naming that group |
| GroupTheorems.CeilingFollowsGrant | crates/wildbloomd/src/grants/group.rs:605-646 | whenever the live grant carries upload, the key entry's ceiling is that grant's bytes, across changes of enrolment |
| GroupNode.StepKeepsLog | crates/wildbloomd/src/grants/group.rs:399-506 | every step within the windows keeps: each committed event is spent, and none was committed twice |
| GroupTheorems.EventsLandOnce | crates/wildbloomd/src/grants/group.rs:527-635 | over any run with posts, clock advances, prunes and restarts in which posts are committed within the windows of their screening, no event is committed twice |
| GroupLatePush.LateGrantLandsTwice | crates/wildbloomd/src/grants/group.rs:454-486 | a grant posted twice, one post waiting a second past seven days and a second, is committed twice after its row was pruned |
| GroupLatePush.LateResetLandsTwice | crates/wildbloomd/src/grants/group.rs:428-446 | a reset posted twice, one post waiting two seconds for the update lock, is committed twice after its floor was pruned |
| GroupLatePush.WindowsAreExact | crates/wildbloomd/src/grants/group.rs:399-506 | events land at most once exactly when no grant waits longer than seven days and a second, and no reset longer than a second |
| GroupTheorems.CoreHearsFirst | crates/wildbloomd/src/grants/group.rs:428-487 | every committed key with a ceiling is in the friend set last pushed, under its group's grant id |
| GroupCore.StepAsks | crates/wildbloomd/src/grants/group.rs:428-487 | every step keeps: a post behind its first plan asks for its own friend and for nothing else, and only a pushed post changes the committed friend set |
| GroupCore.CoreMatches | crates/wildbloomd/src/grants/group.rs:448-487 | over every run the friend set of the core, ids and limits included, is that of the key entries exactly when every push the core applied was committed or put right since; otherwise it has beside them just what the last such push asks for |
| GroupCore.UnansweredPushStays | crates/wildbloomd/src/grants/group.rs:466-479 | a push that the core applies and answers with an error leaves it a device that no key entry has |
| GroupCore.CoreDiffersInOne | crates/wildbloomd/src/grants/group.rs:448-487 | so in every reachable state the two differ in at most one device |
| GroupTheorems.DeviceKeepsGroup | crates/wildbloomd/src/grants/group_db.rs:333-344 | over any run a device's key entry stays and never changes group |
| GroupPruning.SameActivity | crates/wildbloomd/src/grants/group_db.rs:109-124 | pruning a dead floor changes no grant's activity at any later time, and nothing it covered is active |
| GroupPruning.SameVerdict | crates/wildbloomd/src/grants/group.rs:537-604 | an event judged within 90 days of being made gets the same verdict with or without the dead floor |
| GroupPruning.OldMayBeRefused | crates/wildbloomd/src/grants/group.rs:537-604 | whatever rows accept an older event may have lost a floor that would refuse it |
| GroupPruning.UntouchedIsYoung | crates/wildbloomd/src/grants/group_db.rs:350-358 | dead floors are without effect on every verdict on an event exactly when it is judged within 90 days of being made |
| GroupPruning.DeadFloorsAreInvisible | crates/wildbloomd/src/grants/group.rs:399-506 | over every run of the node in which each event is judged within those 90 days, at its first plan, under the push lock and at its commit, every verdict is that of a node that prunes no floor |
| GroupPruning.PrunedFloorShows | crates/wildbloomd/src/grants/group.rs:454-465 | a grant posted just before it expires and judged two seconds later is planned where the pruned reset of its room would have refused it |
| GroupPruning.PruningDelayIsExact | crates/wildbloomd/src/grants/group.rs:399-506 | pruned floors never show in a verdict exactly when every post is judged within a second of its screening |
| GroupEffects.GrantTakesEffect | crates/wildbloomd/src/grants/group.rs:615-655 | a written grant is active at once with its own scopes, ceiling, group and expiry, and its device has a key entry |
| GroupEffects.NewDeviceIsAdmitted | crates/wildbloomd/src/grants/group.rs:573-614 | a grant for a device unknown to the node is admitted, unless a reset covers it |
| GroupEffects.RevocationEndsGrant | crates/wildbloomd/src/grants/group.rs:585-635 | a newer revocation lands, ends its grant for good and touches no other row |
| GroupEffects.ResetEndsGroup | crates/wildbloomd/src/grants/group.rs:537-562 | a newer reset lands, ends every grant of its group made up to then and changes no other group |
| GroupEffects.RevokedStays | crates/wildbloomd/src/grants/group.rs:601-603 | over any run a revoked grant is never live again while its row is kept |
| GroupRevocation.RevocationIsFinal | crates/wildbloomd/src/grants/group.rs:601-603 | over every run, once a grant is revoked no version of it that expires within seven days and a second of the row's retention is ever active again, whatever is pruned and posted later |
| GroupRevocation.RevokedComesBack | crates/wildbloomd/src/grants/group_db.rs:350-358 | an older version that expires a second later, first posted once the row is pruned, is active again |
| GroupRevocation.ReachIsExact | crates/wildbloomd/src/grants/group_db.rs:350-358 | so that reach is exact |
| GroupEffects.ResetIsFinal | crates/wildbloomd/src/grants/group_db.rs:312-331 | over every run, once a group is reset no grant made up to then is ever active again, whether the floor was pruned since or the grant lands only then |
| GroupServer.Server.CommitGroupPlan | crates/wildbloomd/src/grants/group.rs:489-506 | one transaction and the reload are the commit step |
| GroupServer.Server.PruneGroup | crates/wildbloomd/src/grants/group_db.rs:350-358 | pruning, at a time read before, changes the database and not the snapshot |
| GroupServer.Server.ScreenGroupEvent | crates/wildbloomd/src/grants/group.rs:366-389 | screening is the post step of the system |
| GroupServer.Server.PlanGroupEvent | crates/wildbloomd/src/grants/group.rs:428-447 | the first locked section of a post is its plan step |
| GroupServer.Server.TakePushLock | crates/wildbloomd/src/grants/group.rs:454-465 | planning again under the push lock is the take-push step |
| GroupServer.Server.SendPush | crates/wildbloomd/src/grants/group.rs:466-479 | telling the core is the send-push step, failures included |
| GroupServer.Server.CommitPushed | crates/wildbloomd/src/grants/group.rs:480-506 | the last section of a pushed post is the commit step |
| GroupServer.Index | crates/wildbloomd/src/grants/group_db.rs:91-99 | the index lists for each device exactly its grants |
| GroupServer.ActiveFor | crates/wildbloomd/src/grants/group_db.rs:139-147 | finds an active grant of the device exactly when there is one, and in a reachable state the only one |
| GroupCeiling.Holdings.Insert | crates/wildbloomd/src/grants/group.rs:103-108 | the running total stays the sum over distinct blobs, a replaced size counted once |
| GroupCeiling.Holdings.Remove | crates/wildbloomd/src/grants/group.rs:110-114 | the same after a removal, held or not |
| GroupCeiling.Admission.Reserve | crates/wildbloomd/src/grants/group.rs:893-914 | admits exactly when nothing is needed or held, reserved and needed bytes fit the ceiling |
| GroupCeiling.Admission.Release | crates/wildbloomd/src/grants/group.rs:772-784 | dropping a reservation gives back exactly its bytes |
| GroupUploads.ClaimsAreCounted | crates/wildbloomd/src/grants/group_gate.rs:584-666 | while every claim is in the holdings or on its way there with its bytes reserved, the bytes the group's devices claim are at most those the node counts |
| GroupUploads.EntryRaises | crates/wildbloomd/src/grants/group_gate.rs:592-660 | in any state, entering a blob changes what the node counts by the blob's size unless it is held, less what the upload still has reserved; so the count rises exactly where the blob is not held and less than its size is reserved |
| GroupUploads.HangUpKeeps | crates/wildbloomd/src/grants/group.rs:772-784 | a reservation released while its work goes on keeps the books where the blob was held, is empty or has another length than declared |
| GroupUploads.CeilingHolds | crates/wildbloomd/src/grants/group_gate.rs:541-931 | over every interleaving of uploads, deletes, requests given up and restarts in which no upload told that its blob is held claims or enters one that no longer is, no delete forgets a blob that is claimed, and no request is given up while its task may still store a blob that was not held, empty blobs aside: claimed bytes, and counted ones, stay within the larger of ceiling and start, and the reserved counter is the sum of live reservations |
| GroupUploads.UploadsNeverLapse | crates/wildbloomd/src/grants/group_gate.rs:541-666 | without deletes and requests given up none of these ever happens; without deletes, requests given up or not, every claimed blob is in the holdings whenever no upload stands between its claim and its entry |
| GroupUploadRaces.LapsePassesCeiling | crates/wildbloomd/src/grants/group_gate.rs:541-931 | each of the four alone, of a blob of any positive size, can take what a group claims past its ceiling |
| GroupUploadRaces.LapseRuleIsExact | crates/wildbloomd/src/grants/group_gate.rs:541-931 | of all rules on the kinds and sizes of such lapses, exactly those that allow none but of empty blobs keep claimed bytes within the ceiling |
| RollingWindows.TrimLoop | crates/wildbloomd/src/grants/device_auth.rs:93-100 | the pop loop drops exactly the entries at the front that are as old as the window |
| Budgets.TrimAll | crates/wildbloomd/src/grants/device_auth.rs:93-101 | trims every device's window and keeps no empty one |
| RollingWindows.Roll | crates/wildbloomd/src/grants/group.rs:325-345 | for a reading of the clock before the lock: refused only while the entry that many places back is within the minute before the reading, counted only once it is a minute before the lock; what it counts stays spaced by a minute less the longest wait |
| RollingWindows.LateIsCounted | crates/wildbloomd/src/grants/group.rs:325-345 | a request that read the clock before another and locks after it is counted that much early |
| RollingWindows.SpacingIsExact | crates/wildbloomd/src/grants/group.rs:325-345 | over every history of one process, entries the limit apart are a given gap apart exactly when the gap and the longest wait for the lock fit the window together |
| RestartedWindows.RestartsAreExact | crates/wildbloomd/src/grants/group.rs:325-364 | over every history with restarts, entries as many places apart as the limit for each life, and no fewer, are a given gap apart, exactly when gap and longest wait fit the window together; where every request counts, as for a keeper, a window of one keeps its whole length |
| Budgets.DeviceAuth.PruneUsed | crates/wildbloomd/src/grants/db.rs:276-286 | pruning the used ids, at a time read before, keeps budgets and single use |
| Budgets.DeviceAuth.Authorise | crates/wildbloomd/src/grants/device_auth.rs:66-119 | whatever the order in which readings of the clock reach the locks: grants exactly a fresh event of an active device whose window has room or an oldest entry an hour old, with an unused id; a refusal spends nothing; the windows move as in every history |
| Budgets.StepProjects | crates/wildbloomd/src/grants/device_auth.rs:90-119 | to one device each request of any device is one turn of its own window |
| Budgets.BudgetMeans | crates/wildbloomd/src/grants/device_auth.rs:90-119 | a device is refused only while its grant the limit back is within the hour before the reading, and granted only once it is an hour before the lock |
| Budgets.HourlyBudget | crates/wildbloomd/src/grants/device_auth.rs:77-119 | over any history of one process, a grant and the one limit places later are an hour less the longest wait for the locks apart |
| Budgets.LateRequestIsGranted | crates/wildbloomd/src/grants/device_auth.rs:77-119 | for every limit and wait, a request that waits while another device's later reading empties its window is granted that much before the hour is over |
| Budgets.BudgetIsExact | crates/wildbloomd/src/grants/device_auth.rs:77-119 | so grants are a given gap apart exactly when gap and longest wait fit the hour together: the full hour for no wait at all |
| RestartedBudgets.LivesProject | crates/wildbloomd/src/grants/device_auth.rs:38-119 | to one device a history of all devices with restarts is one of its own window |
| RestartedBudgets.BudgetOverRestarts | crates/wildbloomd/src/grants/device_auth.rs:38-119 | over every history with restarts, grants to a device as many places apart as the limit for each life, and no fewer, are a given gap apart, exactly when gap and longest wait fit the hour together |
| Budgets.ZeroLimitGrantsOne | crates/wildbloomd/src/grants/device_auth.rs:102-110 | a limit of zero still grants a first request |
| Budgets.SpendKeeps | crates/wildbloomd/src/grants/db.rs:264-273 | spending a verified id in time keeps: ids were spent once, and each is remembered for as long as a verified request with it could still be spent |
| Budgets.PruneKeeps | crates/wildbloomd/src/grants/db.rs:276-286 | so does pruning |
| Budgets.OverdueSpendsTwice | crates/wildbloomd/src/grants/db.rs:264-286 | two requests with one id, the row of the first ending before the second is spent, are both accepted |
| Budgets.SpentOnceIsExact | crates/wildbloomd/src/grants/db.rs:264-286 | over every history of verifications, spends and prunes with a bounded lag, ids are accepted at most once exactly when every row outlasts every request with its id by that lag |
| Budgets.Nip98LagIsExact | crates/wildbloomd/src/grants/device_auth.rs:77-117 | request ids are accepted at most once exactly when no request waits more than 30 s between its verification and its spending |
| Budgets.DeleteLagIsExact | crates/wildbloomd/src/grants/group_gate.rs:866-912 | delete tokens are spent at most once exactly when no delete waits more than a second between the verification of its token and its spending |
| ClaimMoves.NewMoveSpares | crates/wildbloomd/src/grants/claims.rs:167-202 | a record made while the owner holds or is writing the blob itself never counts the claim as ours |
| ClaimMoves.DropKeepsOwn | crates/wildbloomd/src/grants/claims.rs:117-136 | dropping an owner claim never drops one the owner made |
| ClaimMoves.StepKeepsOwn | crates/wildbloomd/src/grants/claims.rs:112-310 | with reading the clock, recording and landing a write apart, every step keeps: while an own claim stands, every record for that owner and blob is independent or adopted |
| ClaimMoves.OwnerClaimsStand | crates/wildbloomd/src/grants/claims.rs:112-136 | in every interleaving whose writes are recorded and land in time, an owner's own claim stands until the owner or operator removes it |
| ClaimMoves.LateWriteIsDropped | crates/wildbloomd/src/grants/mod.rs:535-556 | whatever its lag, a write whose lag and delay together pass the window by a second can be dropped |
| ClaimMoves.WindowIsExact | crates/wildbloomd/src/grants/db.rs:276-319 | owner claims are safe exactly when the lag of recording a write and the delay of its landing together fit the window |
| ClaimHolds.OthersNeverDrop | crates/wildbloomd/src/grants/claims.rs:117-136 | one key's drop never removes the owner claim another key's record relies on, nor that record |
| ClaimHolds.StepHolds | crates/wildbloomd/src/grants/claims.rs:141-310 | every step, the two halves of a drop apart, keeps each moved blob claimed, if a record is only reused for its own owner |
| ClaimHolds.MovedBlobsStayClaimed | crates/wildbloomd/src/grants/claims.rs:141-290 | at every point of every such run, crashes and changes of owner included, a recorded blob nobody gave up is claimed by its key or its owner |
| ClaimHolds.ClaimsAreHandedOver | crates/wildbloomd/src/grants/claims.rs:203-230 | a key loses a claim it did not give up only when the owner holds one under a record |
| ClaimHolds.TwoOwnersLoseAHold | crates/wildbloomd/src/grants/claims.rs:167-202 | for any two owners, a record left of a move to one, who deleted the blob, and reused by a move to the other can leave a blob with a record and no claim |
| ClaimHolds.ReuseIsExact | crates/wildbloomd/src/grants/claims.rs:141-290 | moved blobs stay claimed exactly under the rules that let a leftover record be reused for its own owner only |
| ClaimTables.Tables.MarkOwnerWrite | crates/wildbloomd/src/grants/db.rs:290-308 | remembers the write and adopts exactly the moves of that blob to that owner |
| ClaimTables.Tables.PruneWrites | crates/wildbloomd/src/grants/db.rs:276-286 | forgets exactly the writes older than the window |
| ClaimTables.Tables.OtherMoves | crates/wildbloomd/src/grants/db.rs:377-402 | counts the other keys' records of the blob for the owner and says whether any is independent or adopted |
| ClaimTables.Tables.RecordMove | crates/wildbloomd/src/grants/claims.rs:167-202 | writes the record of the transition system, and leaves an earlier one alone |
| ClaimTables.Tables.DropIfOurs | crates/wildbloomd/src/grants/claims.rs:117-136 | removes the record, and the owner claim exactly when it is the move's own and the last |
| ClaimTables.Tables.Release | crates/wildbloomd/src/grants/claims.rs:295-310 | acts exactly when the key has a move of the blob to that owner |
| ClaimWalks.ReadPage | crates/wildbloomd/src/grants/claims.rs:58-79 | a page is the smallest entries after the cursor, in order, up to the limit |
| ClaimWalks.EachClaim | crates/wildbloomd/src/grants/claims.rs:57-79 | visits every claim once, in order |
| ClaimWalks.TransferPage | crates/wildbloomd/src/grants/claims.rs:160-231 | after a page, whatever others took away meanwhile, everything listed up to the cursor is paid or tried, and the cursor is on a claim that was left in the view |
| ClaimWalks.Transfer | crates/wildbloomd/src/grants/claims.rs:141-236 | ends whatever others take away and whenever a call answers what; tries no claim twice and no paid one; done, every unpaid claim was tried or taken away; stops short only where a try failed or the cursor's claim was taken away; counts are exact |
| ClaimWalks.UndisturbedTransfer | crates/wildbloomd/src/grants/claims.rs:141-236 | left alone it never loses its cursor and tries exactly the unpaid claims |
| ClaimWalks.Restore | crates/wildbloomd/src/grants/claims.rs:244-290 | ends whatever others do to the records; decides them in order, each once; done, each was decided or ended by others, and what stays was over the ceiling; counts are exact |
| ClaimWalks.Adopt | crates/wildbloomd/src/grants/claims.rs:317-367 | ends having adopted or refused every candidate, each against what was placed by then, counts are exact; under a ceiling no candidate left out would fit in the end |
| EnvelopeName.Truncate | crates/envelope/src/name.rs:72-81 | the loop keeps the longest prefix of at most 180 UTF-16 units, never half a pair |
| EnvelopeName.SanitisedIsCanonical | crates/envelope/src/name.rs:46-83 | every sanitised name is free of separators, controls and reserved characters, normalised, trimmed, nonempty and short enough |
| EnvelopeName.FixedPoints | crates/envelope/src/name.rs:46-83 | the canonical names are exactly the names the rules leave alone |
| EnvelopeName.SanitiseIdempotent | crates/envelope/src/name.rs:46-83 | sanitising twice is sanitising once |
| EnvelopeName.MediaTypeIdempotent | crates/envelope/src/name.rs:88-98 | an accepted media type is nonempty and accepted again unchanged |
| EnvelopeLengths.SmallBucket | crates/envelope/src/stream.rs:64-73 | up to one chunk, the padded length is the least power of two from 64 KiB that holds the input |
| EnvelopeLengths.PaddingCovers | crates/envelope/src/stream.rs:64-73 | padding is at least its input exactly up to one chunk below 2^64, needs no more chunks, and beyond that is zero |
| EnvelopeLengths.PaddingMonotone | crates/envelope/src/stream.rs:64-73 | longer input never pads to less |
| EnvelopeLengths.PaddingIdempotent | crates/envelope/src/stream.rs:64-73 | a padded length pads to itself |
| EnvelopeLengths.RecordsFit | crates/envelope/src/lib.rs:121-128 | a source within the limit never needs more than the record limit while the count fits 32 bits |
| EnvelopeLengths.SlicesJoin | crates/envelope/src/stream.rs:190-194 | the slice a record contributes continues the range where the records before it stopped |
| EnvelopeLengths.SlicesPartition | crates/envelope/src/stream.rs:190-194 | over all records the slices are the range itself, in order, nothing twice |
| EnvelopeFormat.WordRoundTrip | crates/envelope/src/stream.rs:142-154 | a big-endian word reads back as the number written |
| EnvelopeFormat.LayoutFits | crates/envelope/src/stream.rs:107-140 | a source is refused exactly for its limit, media type, metadata size or 32 bits of records; an accepted layout holds prefix and source |
| EnvelopeFormat.EverySourceFits | crates/envelope/src/stream.rs:88-140 | with JSON of at most six bytes a character, no name or accepted media type makes the metadata too large: every source within the limit can be sealed up to 32 bits of records |
| EnvelopeFormat.OpensOnce | crates/envelope/src/stream.rs:338-423 | an envelope opens to at most one source and metadata |
| EnvelopeFormat.CanonicalLength | crates/envelope/src/stream.rs:362-413 | an envelope that opens is exactly as long as its metadata calls for and holds exactly the size it says |
| EnvelopeFormat.RefusedNeverOpens | crates/envelope/src/stream.rs:346-408 | an envelope refused for a stated reason holds no source |
| EnvelopeCodec.SealedAt | crates/envelope/src/stream.rs:256-286 | each sealed record lies where the reader will look for it |
| EnvelopeCodec.RoundTrip | crates/envelope/src/stream.rs:234-423 | for every key, name, media type, source, padding and limit the layout accepts, the envelope opens to exactly that source under canonical metadata, at the promised size |
| EnvelopeCodec.DecryptsBack | crates/envelope/src/stream.rs:234-423 | whatever the decryption loop may answer on an encrypted source is that source, or that it was stopped |
| EnvelopeCodec.FillRecord | crates/envelope/src/stream.rs:257-272 | the buffer becomes the record's part of prefix, source and padding, and takes exactly the next source bytes, or the source ran out |
| EnvelopeCodec.SealBuffer | crates/envelope/src/stream.rs:273-281 | seals the buffer in place under the record's nonce and header |
| EnvelopeCodec.Encrypt | crates/envelope/src/stream.rs:234-298 | writes exactly the envelope of the source with its length and hash, or fails for the layout, a source of another length, or a stop |
| EnvelopeCodec.OpenBuffer | crates/envelope/src/stream.rs:381-395 | opens one record in place, or says it does not authenticate |
| EnvelopeCodec.ReadRecords | crates/envelope/src/stream.rs:377-416 | the record loop ends with all records authenticated and the source written so far complete, or with what is wrong |
| EnvelopeCodec.Decrypt | crates/envelope/src/stream.rs:338-423 | returns the one source the envelope holds, or a reason that holds of it, or that it was stopped |
| CheckoutLedger.Ledger.Insert | crates/wildbloom-checkout/src/ledger.rs:235-242 | a known order is left alone, a full table takes no more, otherwise the order starts reserving |
| CheckoutLedger.Ledger.SetStage | crates/wildbloom-checkout/src/ledger.rs:243-252 | moves a row exactly when it is at the expected stage, and keeps the columns unique |
| CheckoutLedger.Ledger.Owner | crates/wildbloom-checkout/src/ledger.rs:255-262 | finds an order with the value in the column exactly when there is one |
| CheckoutLedger.Ledger.SetInvoice | crates/wildbloom-checkout/src/ledger.rs:253-265 | records an invoice exactly at the invoice-pending stage and for no other order's hash |
| CheckoutLedger.Ledger.SetRotation | crates/wildbloom-checkout/src/ledger.rs:266-279 | journals a rotation exactly for a quoted order and a note nobody used |
| CheckoutLedger.Ledger.Settle | crates/wildbloom-checkout/src/ledger.rs:280-300 | settles exactly from the expected stage with a reference no other order has, keeping the journal unless given a new one |
| CheckoutLedger.Ledger.Activate | crates/wildbloom-checkout/src/ledger.rs:301-310 | writes a receipt exactly for a settled order |
| CheckoutLedger.Ledger.StartRefund | crates/wildbloom-checkout/src/ledger.rs:311-320 | journals a refund exactly where one is due and none is journalled |
| CheckoutLedger.Ledger.UpdateRefund | crates/wildbloom-checkout/src/ledger.rs:321-338 | rewrites a due refund exactly for the same payment and request |
| CheckoutLedger.Ledger.CompleteRefund | crates/wildbloom-checkout/src/ledger.rs:339-351 | completes a due refund exactly with a completion time |
| CheckoutLedger.InvoiceKeepsUnique | crates/wildbloom-checkout/src/ledger.rs:253-265 | the owner query alone keeps hashes, notes and settlements unique |
| CheckoutLedger.RotationKeepsUnique | crates/wildbloom-checkout/src/ledger.rs:266-279 | so does the note query |
| CheckoutLedger.SettlementKeepsUnique | crates/wildbloom-checkout/src/ledger.rs:280-300 | so does the settlement query |
| CheckoutTheorems.StepKeeps | crates/wildbloom-checkout/src/service.rs:112-690 | every step of every operation keeps the whole invariant and rewrites nothing already written |
| CheckoutTheorems.RunKeeps | crates/wildbloom-checkout/src/service.rs:112-690 | so does every run, with stops between any two steps |
| CheckoutTheorems.OnlyForward | crates/wildbloom-checkout/src/ledger.rs:243-351 | between any two moments of any run an order only moves forward along the stage graph, and its quote, journals, hash, note, settlement and receipt stay |
| CheckoutTheorems.OneInvoiceEach | crates/wildbloom-checkout/src/service.rs:223-279 | every call of create_invoice is for a lightning order past the quote, and no two are for one order |
| CheckoutTheorems.NothingShared | crates/wildbloom-checkout/src/ledger.rs:253-300 | no two orders share a payment hash, a note or a settlement |
| CheckoutTheorems.PaidIsProven | crates/wildbloom-checkout/src/service.rs:622-690 | a settled, active or refundable order has the preimage of its hash or the issuer's signature on its note, and its settlement names it |
| CheckoutTheorems.ReceiptOrRefund | crates/wildbloom-checkout/src/service.rs:671-690 | no order has both a receipt and a refund, and none due a refund holds activated storage |
| CheckoutTheorems.OneRotateEach | crates/wildbloom-checkout/src/service.rs:339-425 | every rotate request sent is the journalled one, never two different ones |
| CheckoutTheorems.OneMeltEach | crates/wildbloom-checkout/src/service.rs:484-590 | every melt request sent is the journalled one, never two different ones |
| CheckoutTheorems.JournalBeforeSpend | crates/wildbloom-checkout/src/service.rs:339-590 | a request is durable before the step that sends it: a rotation of a pending order, a melt of a certified note whose storage was refused |
| CheckoutService.Checkout.Reserve | crates/wildbloom-checkout/src/service.rs:189-220 | a reserving order becomes quoted, expired, or stays when the store has no room |
| CheckoutService.Checkout.Quote | crates/wildbloom-checkout/src/service.rs:112-188 | a new order is inserted and reserved unless the table is full, a repeated request finds its order, a different one for the same id is refused and changes nothing |
| CheckoutService.Checkout.Lightning | crates/wildbloom-checkout/src/service.rs:223-264 | calls create_invoice exactly for a fresh quoted lightning order, and records a usable answer |
| CheckoutService.Checkout.RecoverInvoice | crates/wildbloom-checkout/src/service.rs:268-279 | succeeds exactly for a pending lightning order, a sound invoice and an unused hash, and calls nothing |
| CheckoutService.Checkout.Fulfil | crates/wildbloom-checkout/src/service.rs:671-690 | a settled order becomes active or due a refund as the store answers, or stays settled |
| CheckoutService.Checkout.Certify | crates/wildbloom-checkout/src/service.rs:419-425 | the order is settled with its certificate and goes where the store's answer sends it, unless another order has the settlement; no other order changes |
| CheckoutService.Checkout.Rotate | crates/wildbloom-checkout/src/service.rs:390-418 | sends the journalled request exactly while the issuer is known; a signed answer settles the order, without one nothing changes |
| CheckoutService.Checkout.Lnurlcash | crates/wildbloom-checkout/src/service.rs:280-363 | journals and sends exactly for a fresh quoted note order and an unused sound note |
| CheckoutService.Checkout.CheckInvoice | crates/wildbloom-checkout/src/service.rs:626-653 | the preimage of the order's hash settles it, without one nothing changes |
| CheckoutService.Checkout.CheckRotation | crates/wildbloom-checkout/src/service.rs:654-662 | a signature found on the saved note settles the order without sending; otherwise at most the journalled request is sent again |
| CheckoutService.Checkout.Check | crates/wildbloom-checkout/src/service.rs:622-670 | takes a settled or provably paid order to where the store's answer sends it, reports the stage reached, and leaves an order waiting for its invoice alone |
| CheckoutService.Checkout.FirstMelt | crates/wildbloom-checkout/src/service.rs:507-556 | journals the refund it prepared, then sends exactly that melt; succeeds exactly when it is answered and seen settled |
| CheckoutService.Checkout.NextMelt | crates/wildbloom-checkout/src/service.rs:557-565 | with a journal, completes a paid refund without sending, or sends the same melt again |
| CheckoutService.Checkout.Melt | crates/wildbloom-checkout/src/service.rs:563-589 | sends the journalled melt and completes exactly when it is answered and seen settled |
| CheckoutService.Checkout.Refund | crates/wildbloom-checkout/src/service.rs:484-590 | success means refunded; an order not due a refund is left alone; at most the journalled melt is sent |

## Left out

- Desktop shell, HTTP routing, headers, CORS, DNS, Tor and process management: input, output and thin wrappers.
- Cryptography, BOLT 11, JSON and note protocols: parameters with the laws named above, not modelled.
- SQLite: tables are maps and transactions are atomic. Failing writes, and a reload that fails after a commit, are not modelled.
- The store: a map of claims with nondeterministic answers. Paid sales are assumed idempotent per order, as `Checkout.Fulfil` requires.
- Integer widths: the clock and stored times are assumed below 2^63, so saturating sums and 64-bit columns are exact there. Padding, record counts and ceilings are modelled with their widths.
- GroupNode.Reachable: the per-minute limits on posts appear as a nondeterministic refusal; `RollingWindows.Roll` has them exactly.
- GroupPruning.DeadFloorsAreInvisible: takes an event id to name the time its event was made at, since ids are hashes of their events; pruned grant rows, after which a grant id can be used afresh, and the delete grace are not part of it.
- GroupCore.CoreMatches: the friend set is the group part of what the core is told; device grants are not part of it.
- GroupEffects.RevokedStays: speaks of the time the row is kept; `GroupRevocation` has what follows it.
- GroupUploads.CeilingHolds: mirrors have their own check after the fact and are not part of it; ceiling and blob sizes are at most 2^63 - 1, as the command line and the database demand, and the ceiling stays over a restart; listing the claims after a restart is one step.
- ErasureRepair.Regenerate: files are byte sequences; temporary files, permissions and the choice of pool members are not modelled.
- ClaimMoves.StepKeepsOwn: an ended key's uploads are refused while its claims are being moved, as the sweep arranges.
- ClaimWalks.Transfer: others only take claims away during the walk, they add none; what each step does to the tables is in `ClaimMoves`.
- ClaimWalks.Adopt: nobody else changes the claims while they are adopted, as at start-up.
- EnvelopeCodec.Encrypt: read and write errors other than a short or long source are not modelled, and the progress callback is a function of the bytes done.
- EnvelopeName.FixedPoints: rests on the stated laws of normalisation form C, which are parameters.
- GroupEvents.Tags: the host name syntax is a parameter, and the JSON reading before it is not modelled.
- CheckoutTheorems.RunKeeps: the clock is not part of the saga, so an order may be found fresh or late at any time; principals and quote digests only filter requests and are left out.
- CheckoutService.Checkout.Quote: offers, prices and retention arithmetic are part of the quote passed in.
- `grants/mod.rs`, `turn.rs`, delete grace, storage proofs, pool manifests, key text formats and temp-file sweeping: they would only add easy members.
