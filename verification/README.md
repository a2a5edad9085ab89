# Verification of EdgeChainDB

A Dafny 4.11 model of EdgeChainDB, a tamper-evident telemetry ledger: devices sign
hash-linked events and buffer them durably, a gateway stores them in SQLite, groups
them into Merkle-rooted blocks that a quorum of authorities signs, and an audit
re-checks the whole database. `dafny verify dfyconfig.toml` checks the project.

## What is modelled

- **Merkle tree** (`Merkle`, `MerkleTheory`): the three loops, refined by recursive
  functions; completeness, soundness, and the exact condition for equal roots.
- **Encodings** (`Models`): signed events, block headers, authority snapshots.
- **Gateway database** (`Store`, `Gateway`): every table as a map from its primary
  key, the other keys as `Store.Keyed`; each `BEGIN IMMEDIATE ... COMMIT` as a function
  from tables to tables or an error, and as a method on a mutable database object that
  does the same row by row, with rollback.
- **Audit** (`Audit`, `FullAudit`, `Commitment`, `Columns`, `Tampering`): what a well-formed
  database is, without loops; the audit's loops, proved to decide exactly that; what a block
  hash commits to; what a passed audit guarantees; and exactly which changes of an event, a
  signature, a membership row, a snapshot or a block row it notices.
- **Gateway invariant** (`Invariant`, `Proposal`, `Signing`, `Growth`,
  `Conservation`, `Interleaving`, `Arrivals`): what every transaction keeps, also when
  proposers and signers act on stale reads, whole runs of interleaved requests with crashes,
  and the order in which events are sealed there.
- **Ledger object** (`LedgerOperations`, `Outcomes`, `Requests`, `EdgeChain`, `Sealing`,
  `Api`): the operations with their checks in order; what each demands, stores and answers,
  said of the tables before and after it; their place among the interleaved runs; sealing to
  finality, draining; how a gateway starts and how it answers a submitted event, automatic
  sealing included.
- **Store and forward** (`Delivery`, `Device`, `Outbox`, `Protocol`,
  `StoreAndForward`, `Refusals`, `DeviceNode`): the device's chain, its durable outbox, the
  device as a state machine with crashes at every durable write, its composition with an
  unreliable network and with the gateway that seals automatically and serves any number
  of other requests step by step, the run that fails there, and the device process itself
  with the number it reads from its own id (`Numerals`).
- **Experiment code** (`Worker`, `Completion`, `Sampling`, `Design`): the two threads of the worker,
  reservoir sampling by counting, the balanced design search.

## Cryptography without assumptions that cannot hold

SHA-256 is an arbitrary function from byte strings to 32 octets. Such a function has
collisions, so no result assumes it injective and none says merely that a collision
exists. Results are of the form "... or two members of this finite set collide", where
the set (`AuditInputs`, `RowInputs`, `RootInputs`, `AcceptInputs`, `DeliveryInputs`,
`RunInputs`) holds the byte strings that were actually hashed. Signature verification is an arbitrary predicate
whose accepted signatures have 64 octets (sections 5.1.6 and 5.1.7 of RFC 8032). The
CBOR encoder and decoder are arbitrary functions with decoding undoing encoding.

## Where the code does less than its documentation suggests

- The project's README (lines 487-503) describes a verifier that rechecks sequence
  continuity, roots, links, snapshots and signatures. It does, but device time, event
  type and arrival time are columns no check reads, and the finality flag of an event is
  read only for members of final blocks. Changes of exactly these go unnoticed, and of
  nothing else in an event's row (`Columns.ChangeUnnoticedIff`). The audit never compares
  the previous hash, the time or the type with the signed bytes either: the previous hash
  is pinned by the links between stored events, the other two only by what the gateway
  itself writes (`Columns.RunColumnsSigned`).
- Deleting an event goes unnoticed when it is in no block and the only one of its device,
  because the audit compares no checkpoint of a device without events
  (`Tampering.DeletionUnnoticedIff`). Deleting a signature of a final block goes unnoticed
  when it leaves a quorum (`Tampering.RemovedSignatureUnnoticedIff`), and so does setting
  the last block back to proposed (`Tampering.BlockRowUnnoticedIff`).
- A gateway accepts any batch size, but seals only between 1 and 10000 events
  (edgechaindb/ledger.py:138-139). Outside that range the event that fills a batch is
  stored and the device is told that it was rejected (`Api.StoredButRefused`,
  `Refusals.OutOfRangeBatchRefuses`); within it a rejection takes a collision
  (`StoreAndForward.NoSpuriousFailure`).
- The Merkle root does not determine the list in general: `MerkleTheory.RootOfRepeatedTail`
  gives two lists, `RootsEqualIff` the exact condition. For the lists the ledger hashes,
  which are free of repeats, it does.
- A gateway enrols any id of 1 to 128 characters, but a device whose id contains a dash
  reads a number after the last one (edgechaindb/device_node.py:318-320). Without a number
  there, as in "edge-sensor" (`Numerals.EdgeSensorHasNoIndex`), its first attempt to sample
  raises an error that ends it, even when it runs continuously; with one it never does
  (`DeviceNode.DeviceProcess.Sample`, `DeviceNode.DeviceProcess.Run`).
- The worker counts what an earlier run left in its queue among its deliveries. Asked for
  no events, it can deliver what it found, end cleanly and fail its final check
  (`Worker.LeftoverFailsCheck`). Asked for events, it starts its chain again from sequence
  1 and ends cleanly only if nothing was left over, in the queue or at the gateway
  (`Worker.RestartNeedsFreshStart`).

## Model

| member | source | states |
|---|---|---|
| `Merkle.Root` | edgechaindb/merkle.py:19-27 | the level-by-level loop, with the last node doubled on odd levels, computes the recursive root; the empty list has its own root |
| `Merkle.Proof` | edgechaindb/merkle.py:39-59 | the loop that halves the index collects the sibling path of that leaf; an index out of range is an error |
| `Merkle.Verify` | edgechaindb/merkle.py:62-71 | the fold over the steps accepts exactly when the climb from the leaf ends at the expected root; a side other than left or right is rejected |
| `MerkleTheory.ProofIsAccepted` | edgechaindb/merkle.py:39-71 | every proof of every list and index verifies against the root of the list |
| `MerkleTheory.DepthIsCeilLog2` | edgechaindb/merkle.py:39-59 | the length of a proof is the least k with n <= 2^k |
| `MerkleTheory.AcceptedProofIsSound` | edgechaindb/merkle.py:62-71 | whatever steps are accepted, with siblings of any length, the value is in the list or two hashed byte strings collide |
| `MerkleTheory.RootsEqualIff` | edgechaindb/merkle.py:19-27 | without a collision two roots are equal if and only if the two lists, padded by repeating the last node on each odd level, are equal |
| `MerkleTheory.RootCommitsToList` | edgechaindb/merkle.py:19-27 | the root determines the list when the lengths are equal or both lists are free of repeats, as the unique event hash makes them |
| `MerkleTheory.RootOfRepeatedTail` | edgechaindb/merkle.py:21-26 | a concrete pair of different lists with the same root: [a, b, c] and [a, b, c, c] |
| `MerkleTheory.RootIsTopDown` | edgechaindb/merkle.py:11-27 | the root computed level by level is that of the perfect tree read from the top down, each node hashing the byte 1 and its two halves, over leaves that hash the byte 0 and the padded list |
| `Models.LoadsInvertsDumps` | edgechaindb/canonical.py:38-50 | a byte string loads as a value exactly when it is the canonical encoding of that value |
| `Models.SigningBytesInjective` | edgechaindb/models.py:24-37 | two events with the same signing bytes differ at most in the signature |
| `Models.EventInputInjective` | edgechaindb/models.py:39-41 | with 64-octet signatures the hashed bytes of an event split into signing bytes and signature in one way only |
| `Models.HeaderInputInjective` | edgechaindb/models.py:94-114 | the hashed bytes of a header determine every field of it |
| `Models.SnapshotValueInjective` | edgechaindb/ledger.py:123-129 | the encoded authority list determines the authorities and their keys in order |
| `Store.SelectionIsOldest` | edgechaindb/ledger.py:155-165 | a proposer selects the pending events that arrived first, in the order of arrival and then of hash |
| `Ordering.ArrivalLessIff` | edgechaindb/ledger.py:155-164 | arrivals are ordered by time, and at the same time by the first octet in which the hashes differ |
| `Ordering.TextLessIff` | edgechaindb/store.py:350-358 | ids are ordered by the first character in which they differ, an id before what continues it |
| `Gateway.Database.RegisterDevice` | edgechaindb/store.py:126-167 | a new device starts at sequence 0 and the zero hash; repeating with the same key changes nothing; another key or a revoked device is refused and nothing changes |
| `Gateway.Database.RegisterAuthority` | edgechaindb/store.py:169-203 | the same for authorities |
| `Gateway.Database.InsertVerifiedEvent` | edgechaindb/store.py:360-437 | a new event is stored column by column as it was signed, with the given reading as its arrival time, and moves its device's checkpoint; an exact replay and every error leave the tables as they were |
| `Gateway.Database.CreateProposal` | edgechaindb/store.py:457-537 | inserting row by row with a rollback on the first conflict either stores block, members, snapshot and claims exactly as specified or changes nothing; it fails exactly when the specification does |
| `Gateway.Database.InsertProposal` | edgechaindb/store.py:484-537 | the row-by-row inserts succeed exactly when no primary or unique key is broken by the whole list |
| `Gateway.Database.InsertBlockSignature` | edgechaindb/store.py:577-671 | stores at most one signature per member, finalizes block and events when the count reaches the threshold, and changes nothing on an error |
| `Gateway.Database.ActiveAuthoritiesById` | edgechaindb/store.py:350-358 | reads the active authorities in the order of their ids |
| `Gateway.Database.PendingSelection` | edgechaindb/ledger.py:155-164 | reads the selected pending events |
| `Gateway.Database.FirstProposedBlock` | edgechaindb/store.py:445-449 | finds a proposed block if there is one, the lowest |
| `Gateway.Database.LastFinalizedBlock` | edgechaindb/store.py:451-455 | finds the finalized block of greatest height |
| `Gateway.Database.BlockEventHashes` | edgechaindb/store.py:543-553 | reads the members of a block in the order of their positions |
| `Gateway.Database.BlockAuthorities` | edgechaindb/store.py:555-564 | reads the snapshot of a block in the order of the ids |
| `Gateway.Database.AllEvents` | edgechaindb/store.py:676-679 | lists every event once, by device and sequence |
| `FullAudit.VerifyAll` | edgechaindb/ledger.py:310-486 | the audit reports valid if and only if the database is well formed in the declarative sense of Audit.WellFormed, for every database file the schema admits, and counts blocks, events and pending events |
| `FullAudit.AuditBlocks` | edgechaindb/ledger.py:312-400 | the loop over blocks, which advances its expectations on finalized blocks only, finds no error exactly when heights are 1..n, every block is sound and in place, and only the last may be open |
| `FullAudit.AuditContents` | edgechaindb/ledger.py:324-395 | the checks of one block find no error exactly when its hash, count, root, members, snapshot, signatures and quorum are right |
| `FullAudit.AuditEvents` | edgechaindb/ledger.py:402-453 | the loop over events and the dictionary it keeps find no error exactly when each row matches what the latest earlier row of its device leads to expect |
| `FullAudit.EventsCleanIff` | edgechaindb/ledger.py:402-453 | following sequence numbers through the ordered rows accepts exactly the chains in which every event links to the stored event before it |
| `FullAudit.AuditCheckpoints` | edgechaindb/ledger.py:455-462 | finds no error exactly when every device with events records its latest event |
| `FullAudit.AuditMappings` | edgechaindb/ledger.py:464-478 | finds no error exactly when every event that names a block is a member of it |
| `EdgeChain.Ledger.VerifyAll` | edgechaindb/ledger.py:310-486 | valid means a quorum of valid signatures for every final block and a signature under the enrolled key for every event; a database that only the ledger's operations wrote is valid |
| `Tampering.AuditedIsTrustworthy` | edgechaindb/ledger.py:310-453 | in a database that passes the audit every block commits to its members and snapshot, every stored signature is a member's and verifies, every final block has at least its threshold of them, and every event carries a signature that verifies under its device's enrolled key |
| `Tampering.AuditedChain` | edgechaindb/ledger.py:402-462 | in a database that passes the audit the events of a device are one chain, numbered 1 to n without a gap, linked by hash from the zero hash to the sequence and hash its row records |
| `Tampering.SignaturesUnnoticedIff` | edgechaindb/ledger.py:370-387 | whatever is done to the signatures of a block goes unnoticed exactly when what is left is valid signatures of members and, for a final block, a quorum |
| `Tampering.RemovedSignatureUnnoticedIff` | edgechaindb/benchmarks/integrity_detection.py:192-202 | deleting a signature of a final block makes the audit report invalid exactly when the block had no more than its threshold |
| `Tampering.DeletionUnnoticedIff` | edgechaindb/benchmarks/integrity_detection.py:90-97 | deleting an event goes unnoticed exactly when it is in no block and the only one of its device |
| `Tampering.MembershipUnnoticedIff` | edgechaindb/benchmarks/integrity_detection.py:100-125 | whatever is done to the membership rows of a block goes unnoticed exactly when they still list the same events in the same order, or two byte strings hashed for its root collide |
| `Tampering.SnapshotChangeNoticed` | edgechaindb/benchmarks/integrity_detection.py:158-172 | any change of a block's authority snapshot is noticed, or the two encoded snapshots collide |
| `Tampering.BlockRowUnnoticedIff` | edgechaindb/benchmarks/integrity_detection.py:128-155 | a block row that keeps its hash can be changed without notice exactly in its finalization time and in a status that its signatures, events and place support, or the two headers collide |
| `Columns.ChangeUnnoticedIff` | edgechaindb/ledger.py:352-478 | in a database that passes the audit, the row of an event can be replaced by another without the audit noticing if and only if they differ at most in device time, event type, arrival time and, outside final blocks, the finality flag; or the two byte strings hashed for the event collide |
| `Columns.RunColumnsSigned` | edgechaindb/store.py:404-426 | in every reachable state device time, event type and previous hash of every stored event are the signed ones |
| `Audit.CanonicalDetermines` | edgechaindb/ledger.py:424-433 | the signed bytes determine the device, sequence and payload columns they are checked against |
| `Commitment.BlockHashCommitsToHistory` | edgechaindb/ledger.py:310-400 | two databases that pass the audit and share a block hash, at whatever heights, agree on every block up to it: header, snapshot, ordered members and their signed content; or two of the byte strings they hash collide |
| `Commitment.LastBlockCommitsToChains` | edgechaindb/ledger.py:402-478 | if the shared block is the last of both and nothing is pending, they hold the same events, links and device checkpoints; or there is such a collision |
| `Invariant.EmptyInv` | edgechaindb/store.py:11-89 | the empty database satisfies the invariant |
| `Invariant.InvIsWellFormed` | edgechaindb/ledger.py:310-478 | the invariant implies everything the audit checks |
| `Invariant.RegisterDeviceKeepsInv` | edgechaindb/store.py:126-167 | enrolling a device keeps the invariant |
| `Invariant.RegisterAuthorityKeepsInv` | edgechaindb/store.py:169-203 | enrolling an authority keeps the invariant |
| `Invariant.InsertEventKeepsInv` | edgechaindb/store.py:360-437 | accepting a verified event keeps the invariant |
| `Proposal.ProposalExtendsChain` | edgechaindb/store.py:463-502 | for a header built on any earlier last finalized block, the checks of the transaction force it to be the next height on the current last block, with nothing open |
| `Proposal.CreateProposalKeepsInv` | edgechaindb/store.py:457-537 | storing a proposal keeps the invariant however stale the reads it was built from |
| `Signing.InsertSignatureKeepsInv` | edgechaindb/store.py:577-671 | storing a verified signature, and finalizing, keeps the invariant |
| `Signing.FinalIffQuorum` | edgechaindb/store.py:616-666 | a block is final exactly when at least its threshold of distinct snapshot members have valid signatures stored, and exactly then it has a finalization time |
| `Signing.SigningNeverBlocked` | edgechaindb/store.py:630-651 | the error for a previous block that is not finalized is unreachable |
| `Signing.SignatureOutcome` | edgechaindb/store.py:577-671 | a member's valid signature is always taken: the member has signed, its earlier signature counting, nobody else's changed, and block and events are final exactly with a quorum, since the reading of the signature that completed it |
| `Growth.InsertEventExtends` | edgechaindb/store.py:360-437 | accepting an event rewrites nothing already stored |
| `Growth.CreateProposalExtends` | edgechaindb/store.py:457-537 | storing a proposal rewrites nothing already stored |
| `Growth.InsertSignatureExtends` | edgechaindb/store.py:577-671 | signing rewrites no header, membership, snapshot or signature, and nothing of a final block |
| `Interleaving.TaskStaysOk` | edgechaindb/ledger.py:140-184 | what a request in progress has read and checked stays good enough for its transaction, whatever other requests commit meanwhile |
| `Interleaving.NextKeepsInv` | edgechaindb/ledger.py:131-247 | every single read, transaction, failure or crash of any number of concurrent requests keeps the invariant and only adds to the database |
| `Interleaving.RunIsWellFormed` | edgechaindb/ledger.py:310-486 | every state reachable under any interleaving, with crashes between any two steps, passes the audit |
| `Interleaving.RunExtends` | edgechaindb/store.py:126-671 | between any two states of a run nothing stored is lost or rewritten |
| `Interleaving.FinalityIsForever` | edgechaindb/store.py:577-671 | a final block keeps its row, members, snapshot and valid signers in every later state of a run |
| `Interleaving.ChainShape` | edgechaindb/store.py:463-502 | in every reachable state heights are 1..n, each block names the hash of the one before, and only the last may be open |
| `Interleaving.StoredProposalExtendsTip` | edgechaindb/ledger.py:140-184 | a proposal that commits in any interleaving extends the last finalized block of that moment |
| `Arrivals.ArrivalIsReading` | edgechaindb/store.py:404-424 | in every later state of a run the arrival time of an event is the clock reading of the step that stored it |
| `Arrivals.EarlierIsSelectedFirst` | edgechaindb/ledger.py:155-165 | of two pending events in any state of a run the one stored at the smaller reading is selected first, and never left out for the other |
| `Arrivals.RunSelects` | edgechaindb/ledger.py:155-184 | every stored block holds, in order, what was selected from one earlier state of the run |
| `Arrivals.FirstComeFirstSealed` | edgechaindb/ledger.py:155-184 | of two events, the one stored first and at the smaller reading is never in a later block than the other, and in the same block comes before it, whatever proposals interleave |
| `Conservation.OnePlace` | edgechaindb/store.py:68-73 | an event is pending or at exactly one position of exactly one block, and its height and finality columns agree with that |
| `Conservation.FullBlock` | edgechaindb/store.py:504-517 | the positions of a block are 0..count-1, each holding a stored event that names the block |
| `Conservation.EventsConserved` | edgechaindb/store.py:457-537 | pending events plus the event counts of all blocks are all events |
| `Conservation.RunConservesEvents` | edgechaindb/store.py:457-671 | the same in every state of every run |
| `LedgerOperations.AcceptIff` | edgechaindb/ledger.py:83-111 | exactly what is accepted as new (unobjectionable, unknown, next in its chain) and as a duplicate (stored with the same bytes); the unique key on device and sequence never fails |
| `LedgerOperations.AcceptKeepsInv` | edgechaindb/ledger.py:83-111 | accepting keeps the invariant and only adds |
| `LedgerOperations.SignKeepsInv` | edgechaindb/ledger.py:196-225 | signing with a local key keeps the invariant and only adds |
| `LedgerOperations.AddSignatureKeepsInv` | edgechaindb/ledger.py:227-247 | adding an external signature keeps the invariant and only adds |
| `LedgerOperations.ProposeKeepsInv` | edgechaindb/ledger.py:131-194 | proposing keeps the invariant and only adds, also when signing fails after the proposal is stored |
| `LedgerOperations.AssignedEventHasProof` | edgechaindb/ledger.py:264-308 | in every state with the invariant the proof of an assigned event verifies against the stored header root, with ceil(log2 n) steps |
| `LedgerOperations.RunEventsHaveProofs` | edgechaindb/ledger.py:264-308 | in every reachable state of any interleaving, the proof of every assigned event verifies against the root of its block, with ceil(log2 n) steps |
| `LedgerOperations.ProvenEventIsMember` | edgechaindb/ledger.py:294-308 | an accepted proof against the root of a stored block names a member of that block, or there is a collision |
| `Outcomes.DeviceOutcome` | edgechaindb/store.py:126-167 | a device is enrolled exactly when its id is free or active under the same key; another key is refused; a new row starts at sequence 0 and the zero hash |
| `Outcomes.AuthorityOutcome` | edgechaindb/store.py:169-203 | the same for authorities |
| `Outcomes.AcceptOutcome` | edgechaindb/ledger.py:83-111 | an event is accepted exactly when version, sequence, type, payload, sender and signature are as demanded and it is next in its chain or stored with the same bytes; a new one is stored as signed, at the given reading, a duplicate changes nothing |
| `Outcomes.AddSignatureOutcome` | edgechaindb/ledger.py:227-247 | an external signature is taken exactly when the block is stored, the signer is in its snapshot and the signature verifies under the member's key over the block's hash |
| `Outcomes.SignOutcome` | edgechaindb/ledger.py:196-225 | a working key signs exactly the blocks whose snapshot has its holder under that key |
| `Outcomes.ProposeOutcome` | edgechaindb/ledger.py:131-194 | without a limit in range, a closed chain, enough active authorities, the proposer's own enrolled key and a pending event nothing changes; with them and a working key the next block is stored, unless its header's hash is taken |
| `Outcomes.AcceptFault` | edgechaindb/ledger.py:83-111 | the error of a refused event names something that is wrong with the event or its place in the stored chain |
| `Outcomes.AddSignatureFault` | edgechaindb/ledger.py:227-247 | the error of a refused signature is an unknown block, a signer outside the snapshot or a signature that does not verify, whichever holds |
| `Outcomes.ProposeFault` | edgechaindb/ledger.py:131-194 | the error of a refused proposal names what is missing: the limit, a closed chain, authorities, the proposer, its key, pending events, a free header hash or a key that works |
| `Requests.AcceptanceIsRun` | edgechaindb/ledger.py:83-111 | accepting an event is two steps of Interleaving, checking and storing |
| `Requests.SignatureIsRun` | edgechaindb/ledger.py:196-247 | storing a valid signature is three: reading the block, checking, storing |
| `Requests.ProposalIsRun` | edgechaindb/ledger.py:131-194 | proposing is eight: four reads, storing the proposal, and the signature's three |
| `Requests.RunGoesOn` | edgechaindb/ledger.py:83-247 | further operations at the end of a run make a longer run, so that what holds of all runs holds of the operations in any order |
| `EdgeChain.Ledger.Open` | edgechaindb/ledger.py:29-41 | a ledger exists exactly for a threshold of at least one |
| `EdgeChain.Ledger.RegisterDevice` | edgechaindb/ledger.py:47-64 | enrols exactly well-formed ids and keys that are free or enrolled alike, stores the new row field by field and returns the checkpoint |
| `EdgeChain.Ledger.RegisterAuthority` | edgechaindb/ledger.py:66-81 | enrols exactly well-formed ids and keys that are free or enrolled alike, and stores the new row field by field |
| `EdgeChain.Ledger.AcceptEvent` | edgechaindb/ledger.py:83-111 | what is accepted and stored is as in Outcomes.AcceptOutcome, the receipt tells a duplicate, an error changes nothing, and the invariant is kept |
| `EdgeChain.Ledger.PrepareDraft` | edgechaindb/ledger.py:131-183 | a draft exists exactly when all that is demanded of a proposer holds; its header is that of the next block, by this proposer at this reading under the ledger's policy, and commits to the oldest pending events and the active authorities |
| `EdgeChain.Ledger.ProposeBlock` | edgechaindb/ledger.py:131-194 | after success the next block is stored with this proposer, creation time, policy hash and threshold, its members and snapshot as read, its proposer's signature and nobody else's, and the report says what is stored; a wrong key leaves the tables unchanged; the only other obstacle for a working key is a header hash already taken |
| `EdgeChain.Ledger.SignBlock` | edgechaindb/ledger.py:196-225 | a working key signs exactly the blocks whose snapshot has it; then its signature is added, nobody else's changes, and the block is final exactly with a quorum; an error changes nothing |
| `EdgeChain.Ledger.AddExternalSignature` | edgechaindb/ledger.py:227-247 | succeeds exactly when the block is stored, the signer is a member and the signature verifies; then its signature is added, nobody else's changes, and the block is final exactly when the signers number at least the threshold; an error changes nothing |
| `EdgeChain.Ledger.ProveEvent` | edgechaindb/ledger.py:264-292 | returns the proof of the place the membership row gives the event, fails exactly for unassigned events and for a row at a stray position |
| `EdgeChain.Ledger.VerifyEventProof` | edgechaindb/ledger.py:294-308 | accepts exactly the proofs the Merkle climb accepts |
| `Sealing.ProposeAndFinalize` | edgechaindb/api.py:132-158 | the loop over the other authorities signs until the block is final; the sealed block is the next one, by the gateway's first authority, and the answer reports what is stored of it; a failure leaves what was stored before it |
| `Sealing.SealOutcome` | edgechaindb/api.py:132-158 | with a threshold within the gateway's own authorities, sealing ends in a final next block with the oldest pending events and exactly threshold signatures, and fails, changing nothing, exactly when there is nothing to seal or the new header's hash is already taken |
| `Sealing.SealedBlock` | edgechaindb/api.py:132-158 | the sealed block has the first authority as proposer, the first clock reading as creation time and the ledger's policy, and the answer's hash, count, root, status and signatures are those stored |
| `Sealing.SealedTime` | edgechaindb/store.py:652-666 | the block is final since the reading of the signature that completed its quorum |
| `Sealing.Drain` | edgechaindb/experiments/docker_runtime.py:385-392 | draining n pending events in blocks of at most b terminates after exactly ceil(n/b) blocks with nothing pending or open |
| `Api.App.Create` | edgechaindb/api.py:76-95 | a gateway starts exactly when its threshold is between one and the number of its authorities and each of their names is well formed and free or enrolled with the same key; it can then sign for a quorum |
| `Api.NamesDiffer` | edgechaindb/api.py:90-91 | the gateway's authorities have different names |
| `Api.NamesAreNumbered` | edgechaindb/api.py:90-91 | the first authority has the node's name, the others carry the numbers 2, 3, ... in at least two digits |
| `Api.App.SubmitEvent` | edgechaindb/api.py:295-328 | accepts, and seals when a full batch is pending and nothing is open; the answer is the error of either, or whether the event was there before and the report of the block this request sealed |
| `Api.SubmitAnswers` | edgechaindb/api.py:295-328 | a granted request is answered as a duplicate exactly when the event was stored before, and with a block exactly when the event made a full batch with nothing open; the block is final and reported as stored |
| `Api.SubmitFailsIff` | edgechaindb/api.py:295-328 | a request fails exactly when the ledger refuses its event, with nothing changed, or when a seal is due and the batch size is out of range or the next header's hash is taken, with the event stored |
| `Api.AutoSealFailsIff` | edgechaindb/api.py:306-314 | the seal after an accepted event fails, with nothing changed, exactly when it is due and the batch size is out of range or the next header's hash is taken; otherwise a due seal gives a final block of a full batch |
| `Api.SubmitKeepsServing` | edgechaindb/api.py:295-328 | whatever the answer, the invariant holds afterwards, the gateway's keys stay enrolled and nothing stored is lost |
| `Api.SubmitKeepsBacklog` | edgechaindb/api.py:306-314 | as long as nothing is left open, no request that succeeds lets the backlog reach a batch |
| `Api.StoredButRefused` | edgechaindb/ledger.py:138-139 | with a batch size out of range the event that fills a batch is stored and refused |
| `Outcomes.ClashIsCollision` | edgechaindb/store.py:52-56 | a header hash that is already taken exhibits a collision |
| `Delivery.OtherStepsLeaveAlone` | edgechaindb/ledger.py:131-247 | every read, transaction and failure of any other request keeps the gateway's invariant and leaves an enrolled device's log and checkpoint alone |
| `Delivery.OtherStepsEnrolNobody` | edgechaindb/store.py:126-167 | nothing but its own enrolment brings a device in |
| `Delivery.LogIsPrefix` | edgechaindb/store.py:369-434 | after any finite schedule of deliveries of one device's signed chain, among the steps of any other requests, the log is a prefix with each event once and the checkpoint at its end, as long as the schedule's in-order progress unless two hashed byte strings collide |
| `Delivery.DeliveryOutcome` | edgechaindb/store.py:369-402 | how an event that is early, next or clashing is answered |
| `Delivery.ResubmissionIsDuplicate` | edgechaindb/store.py:369-386 | re-submitting any stored event is answered as a duplicate and leaves the tables unchanged |
| `Delivery.NewDeviceHasEmptyLog` | edgechaindb/store.py:152-163 | a newly enrolled device starts with an empty log |
| `Device.DeviceClient.Create` | edgechaindb/device.py:13-19 | a client exists exactly for ids of 1 to 128 characters and starts at the zero checkpoint |
| `Device.DeviceClient.Restore` | edgechaindb/device.py:21-25 | moves to a checkpoint with a non-negative sequence and a 32-octet hash, otherwise changes nothing |
| `Device.DeviceClient.CreateEvent` | edgechaindb/device.py:27-57 | returns the next event of the checkpoint with the given content, signed over its own signing bytes, at the given time unless that is absent or zero, and moves the checkpoint to it; a payload without canonical encoding changes nothing |
| `Device.ClientExtendsChain` | edgechaindb/device.py:27-57 | what an enrolled client signs next continues its chain, and the gateway has no objection to it |
| `Outbox.DurableOutbox.Open` | edgechaindb/outbox.py:31-62 | loads exactly the items of the file, or reports the first defect in it; a capacity below one is refused |
| `Outbox.DurableOutbox.Load` | edgechaindb/outbox.py:39-62 | the loop accepts exactly contiguous lists of readable objects |
| `Outbox.DurableOutbox.Append` | edgechaindb/outbox.py:86-96 | refused at capacity or out of sequence with nothing changed, otherwise appended in memory and on disk |
| `Outbox.DurableOutbox.Acknowledge` | edgechaindb/outbox.py:98-103 | keeps exactly the items after the sequence, in memory and on disk |
| `Outbox.DurableOutbox.Reconcile` | edgechaindb/outbox.py:105-111 | acknowledges and then reports an outbox that does not begin at the gateway's next sequence |
| `Outbox.RemainingIsSuffix` | edgechaindb/outbox.py:98-103 | of a contiguous outbox an acknowledgement leaves exactly the end |
| `Outbox.ReadBack` | edgechaindb/outbox.py:39-68 | exactly the contiguous lists survive being written and loaded again |
| `Outbox.OnlyFullRefuses` | edgechaindb/outbox.py:86-96 | an append that continues the history is refused only for lack of room |
| `Outbox.BoundedFifo` | edgechaindb/outbox.py:39-111 | over any history of appends, acknowledgements and reloads, the acknowledged prefix and the items together are everything appended, reloading returns the same items and the bound is kept |
| `Protocol.BootKeepsInv` | edgechaindb/device_node.py:222-239 | loading never fails, and a crash between outbox and state file is repaired |
| `Protocol.GenerateKeepsInv` | edgechaindb/device_node.py:307-336 | appending the next event is never refused |
| `Protocol.ReconcileKeepsInv` | edgechaindb/device_node.py:146-150 | the gateway is never ahead, and the outbox then begins at the gateway's next sequence |
| `Protocol.DeviceStepKeepsInv` | edgechaindb/device_node.py:119-182 | every step of the device, with a crash at any durable write, keeps its files consistent with what the gateway has; no step but a refused request can fail |
| `StoreAndForward.NextKeepsInv` | edgechaindb/device_node.py:119-182 | every step of device and network, every storing of an event, every later seal and answer or loss of it, and every step of the gateway's other requests in between keeps the global invariant |
| `StoreAndForward.NoEventIsLost` | edgechaindb/device_node.py:119-182 | in every run, also when events are stored but answered late, never or as refused, the gateway's log is a prefix of the persisted history with each event once, and every persisted event is in the log or in the outbox |
| `StoreAndForward.NoSpuriousFailure` | edgechaindb/device_node.py:146-168 | in every run no gateway-ahead, empty-outbox or outbox-corruption error occurs, and with a batch size in range no rejection either, unless two byte strings hashed for events or headers collide |
| `Refusals.OutOfRangeBatchRefuses` | edgechaindb/api.py:306-328 | at every gateway whose batch size is out of range and reached by one more event, every new device has a run in which nothing is lost, its first event is stored, and the device fails with a rejection |
| `DeviceNode.DeviceProcess.Recover` | edgechaindb/device_node.py:229-256 | after a crash the newest buffered event overrules an older state file, and the process is consistent |
| `DeviceNode.DeviceProcess.WaitForGateway` | edgechaindb/device_node.py:34-60 | succeeds exactly when one of the allowed health requests is answered, and stops at the first that is |
| `DeviceNode.DeviceProcess.Connect` | edgechaindb/device_node.py:133-144 | fails exactly when all allowed health requests are lost, or the enrolment or the checkpoint request after the first that is answered; enrolment is never refused, and the checkpoint read is the end of the gateway's log |
| `DeviceNode.DeviceProcess.SubmitWithRetry` | edgechaindb/device_node.py:63-116 | gives up exactly when as many exchanges as are allowed are lost in a row, otherwise stops at the first answer; acceptance means the gateway has the event, and a rejection that hashes clash or that a seal was due in the last exchange and failed at the reading it made |
| `DeviceNode.DeviceProcess.CalmIsNoExcuse` | edgechaindb/device_node.py:63-144 | on a connection that loses nothing no failure is blamed on the network |
| `DeviceNode.DeviceProcess.Align` | edgechaindb/device_node.py:146-160 | reconciliation never fails, equals two steps of the state machine, and leaves the outbox beginning where the gateway's log ends |
| `DeviceNode.DeviceProcess.Flush` | edgechaindb/device_node.py:162-174 | delivers oldest first and drops exactly what the gateway has; it stops early only after as many losses in a row as are allowed, for a clash or for a failing seal |
| `DeviceNode.DeviceProcess.SyncAndFlush` | edgechaindb/device_node.py:119-182 | ends with an empty outbox and everything delivered, or with a connection lost as in Connect, a submission lost as often as it may be made, a clash or a failing seal |
| `DeviceNode.DeviceProcess.SynchronizedAgrees` | edgechaindb/device_node.py:155-160 | once everything is delivered, device, state file and gateway agree on sequence and hash |
| `Numerals.NumberedDevice` | edgechaindb/device_node.py:318-320 | an id made of any prefix, a dash and a number gives that number |
| `Numerals.EdgeSensorHasNoIndex` | edgechaindb/device_node.py:318-320 | the id "edge-sensor" gives no number |
| `DeviceNode.DeviceProcess.Sample` | edgechaindb/device_node.py:318-344 | fails, before anything is done, exactly when the id has no number where one is read; otherwise one sample with the four values computed from that number and the readings is signed at the given time, appended to the outbox and recorded, and device and gateway stay consistent |
| `DeviceNode.DeviceProcess.Round` | edgechaindb/device_node.py:280-364 | one round of the main loop keeps consistency and leaves nothing undelivered, except, when running continuously, what an excused failure of the last attempt holds up; without a number in the id it samples nothing and, unless a full buffer makes it wait, fails |
| `DeviceNode.DeviceProcess.Run` | edgechaindb/device_node.py:222-366 | the whole run keeps consistency; a device that does not run continuously takes exactly the samples asked for, or as many as there are rounds, and ends with all delivered, or with a lost connection, exhausted retries, a clash or a failing seal; a continuous one fails only for want of a number in its id, and leaves behind only what an excused failure of the last attempt holds up |
| `Worker.ExperimentOutbox.AppendMany` | edgechaindb/experiments/worker.py:62-75 | stores all rows of a batch or none, and fails exactly on a conflict of the primary key |
| `Worker.BatchStored` | edgechaindb/experiments/worker.py:62-75 | a stored batch is in the table as it was given, and no other row changed |
| `Worker.ExperimentOutbox.Peek` | edgechaindb/experiments/worker.py:77-81 | returns the row with the least sequence |
| `Worker.ExperimentOutbox.Acknowledge` | edgechaindb/experiments/worker.py:83-85 | removes exactly that row |
| `Worker.NextKeepsBalance` | edgechaindb/experiments/worker.py:183-328 | every step of either thread keeps: queue plus deletions are what was found plus what was stored |
| `Worker.CleanExitIsComplete` | edgechaindb/experiments/worker.py:251-259 | a sender that exits cleanly leaves an empty queue with everything generated, and has delivered the target plus what it found at the start |
| `Worker.CleanExitDelivers` | edgechaindb/experiments/worker.py:279-317 | after a clean exit the gateway's log begins with this run's events in order, and the events found in the queue are in it |
| `Worker.FinalCheckIff` | edgechaindb/experiments/worker.py:413-421 | the final check accepts exactly the runs without an error that leave as many rows in the queue as they found; after a clean exit, those that found none |
| `Worker.LeftoverFailsCheck` | edgechaindb/experiments/worker.py:413-421 | the run without an error in which a worker asked for no events delivers the one it finds, exits cleanly and fails its final check |
| `Worker.RestartNeedsFreshStart` | edgechaindb/experiments/worker.py:354-358 | a worker with events to deliver exits cleanly only if queue and gateway had nothing of its device, unless what they had is its own events or continues them |
| `Worker.FreshRunDeliversInOrder` | edgechaindb/experiments/worker.py:279-317 | from a fresh start every event that reaches the gateway is in its log of the device or the next one there, and at a clean exit the log is exactly the run's events in order, unless two of them have the same hash |
| `Completion.FreshRunCanFinish` | edgechaindb/experiments/worker.py:183-328 | whatever its target and batch size, a worker with a fresh start and no clash among its own hashes has a run that delivers everything in order, exits cleanly and passes its final check |
| `Sampling.Reservoir.Add` | edgechaindb/experiments/worker.py:108-116 | the buffer holds the items at the retained positions, min(limit, n) of them |
| `Sampling.RetainedDistinct` | edgechaindb/experiments/worker.py:108-116 | the retained items come from different positions among those seen |
| `Sampling.AllDrawsAre` | edgechaindb/experiments/worker.py:114 | the sequences counted are exactly those with each draw in its range |
| `Sampling.EveryItemEquallyLikely` | edgechaindb/experiments/worker.py:100-116 | over all sequences of draws for n >= limit items, exactly a share limit/n retains any one item |
| `Design.ValidPlanFits` | edgechaindb/experiments/model.py:115-163 | a validated screening plan has levels for every factor, and their number divides the sample count |
| `Design.ValidPlanIff` | edgechaindb/experiments/model.py:115-163 | a plan is accepted exactly when every level is in its range, the names are known, the run time is positive, and a screening has at most all combinations and is divisible by the levels of every factor |
| `Design.AttemptIsBalanced` | edgechaindb/experiments/model.py:201-209 | whatever the shuffles do, every level of every factor occurs samples/levels times as often as the factor lists it |
| `Design.ComputeScore` | edgechaindb/experiments/model.py:213-222 | the nested loops and the count table compute the sum of squared deviations over all pairs of factors |
| `Design.PerfectScoreIff` | edgechaindb/experiments/model.py:213-227 | the score is zero, where the search stops early, exactly when all pairs of levels of any two factors occur equally often |
| `Design.ScoreCountsAgreements` | edgechaindb/experiments/model.py:213-222 | the scores of two designs of one size differ by exactly the difference in how many pairs of rows agree in two factors |
| `Design.Search` | edgechaindb/experiments/model.py:196-227 | the search, which may stop early, returns an acceptable attempt of minimal score among all 512, or none when none is acceptable |
| `Design.OrderIsIrrelevant` | edgechaindb/experiments/model.py:234-247 | reordering the rows changes neither balance nor score nor distinctness |
| `Design.EarlierIff` | edgechaindb/experiments/model.py:234-247 | the rows are ordered lexicographically by outage, events, devices, block size, loss, authorities and threshold |
| `Design.SelectedConfigurations` | edgechaindb/experiments/model.py:183-247 | the selected configurations are the full product, or a balanced, duplicate-free, minimal-score design in order of execution, or an error exactly when no attempt is acceptable |
| `Design.ProductIs` | edgechaindb/experiments/model.py:192-194 | the full factorial consists of exactly the rows with one level of every factor |
| `Design.ProductAt` | edgechaindb/experiments/model.py:192-194 | the rows of the full factorial come in the order of nested loops, the last factor varying fastest |
| `Design.EveryLevelEquallyOften` | edgechaindb/experiments/model.py:187-190 | when a factor lists each level once, every level of it occurs equally often |

## Left out

- HTTP, hexadecimal wire forms and the proof's dictionary form: events, proofs and checkpoints travel as values, and so do device ids, also those that a URL path would have to escape; a malformed request is one that is not sent.
- The internals of SHA-256, Ed25519, CBOR and of random number generators: parameters, as stated above; the generators' results are arbitrary inputs.
- SQLite beyond atomic, durable, serialised transactions and its key constraints: journal modes, time-outs, 64-bit integer range, and rows a damaged file could hold against its own keys.
- Clocks, sleeps and time-outs: readings are inputs, a time-out may happen at any point.
- Floating-point rounding: shares, scores and samples are real numbers, and the search stops at a score of exactly zero as `math.isclose` with its defaults does.
- Several gateways, consensus, recovery of stale proposals, key rotation and revocation: the code does not implement them.
- The dashboard, reports, energy and latency statistics, tamper trials and shard merging: measurement code.
- FullAudit.VerifyAll: the audit makes many separate reads; it is stated on a database that does not change meanwhile.
- Commitment.LastBlockCommitsToChains: takes from the foreign key of the membership table that its rows belong to stored blocks.
- EdgeChain.Ledger.ProposeBlock: what success leads to is stated for databases that the ledger's own operations can have led to (`EdgeChain.Ledger.Sound`); for others its contract is LedgerOperations.Propose. The same holds of SignBlock and AddExternalSignature.
- Arrivals.FirstComeFirstSealed: says nothing of an event that is stored at a smaller reading but later, as when a clock is set back; a block may already have passed it by.
- EdgeChain.Ledger.ProveEvent: takes from the same foreign key that the block of a membership row exists, which the code asserts.
- StoreAndForward.NoEventIsLost: the gateway's committed rows and the device's written files survive crashes; a device or gateway that loses its disk is outside the fault model.
- DeviceNode.DeviceProcess.Run: the shutdown signal arrives after a given number of rounds, and requests delayed beyond their connection occur in StoreAndForward, not here.
- Sampling.EveryItemEquallyLikely: counts sequences of draws; that the library's generator makes them equally likely is not part of this model.
- Api.App.SubmitEvent: is one uninterrupted call; what comes between storing and sealing is part of StoreAndForward.
- StoreAndForward.NoSpuriousFailure: the seal itself, which the code makes under a lock, is one step when it is answered; a seal that a crash cuts short is a sequence of steps of Interleaving.
- Worker.FreshRunDeliversInOrder: speaks of the device's log only; an answer that is an error for another reason, such as a failing seal or a clash with another device's event, makes the sender try again.
- Numerals.NumberedDevice: which characters Unicode counts as digits and spaces is a parameter.
- Worker.CleanExitIsComplete: the stall deadline is a step that may happen whenever the sender has work to do.
