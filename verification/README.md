# SwarmCraft authority control plane, verified

SwarmCraft lets a group of friends host one Minecraft world on whichever of
their computers is available. The authority control plane decides which peer
may run the world, under which generation (epoch plus fencing token), and with
which voter set, while peers crash, restart, lose messages and change
membership. This project models that control plane and proves its safety over
whole runs.

## How it is built

- **Records, quorums, certificates** (`Records`, `Quorum`, `Certificates`,
  `Freshness`): the signed records, and the validation loops that count votes.
- **Durable state** (`Durable`, `Storage`): the files of a world directory as a
  class updated write by write. A ghost journal ties the files to the replay of
  the writes, so that a crash is a prefix of the journal.
- **Handlers** (`Runtime`, `Plans`, `Survey`, `Election`, `Daemon`): `Plans`
  says which writes, in which order, which runtime and which answer each request
  handler and each branch of the tick produces. The class `Daemon` is the code
  that does it in place, with its counting loops, proved equal to the plan.
- **What is granted when** (`Rules`, `MemberRules`): for every request and every
  branch of the tick, the exact condition under which it is granted and the
  files it then leaves, said in terms of the stored records and of what the peer
  sees, without naming a plan or one of its checks. The lemmas prove that the
  plans decide exactly this, and the methods of `Daemon` promise it themselves.
- **All peers together** (`Cluster`, `Discipline`, `Invariant`, `Steps`): a step
  machine in which a peer completes a plan or crashes after any of its writes.
  Messages are delayed, lost, repeated and reordered at will; only signed
  content must be backed by what its signer wrote. A log keeps every write and
  every answer. `Discipline` proves what each write has established when it
  reaches the disk, whichever handler makes it. `Invariant` and `Steps` prove
  from this alone what every reachable cluster keeps.
- **Code and cluster** (`Service`): whatever request or tick the class `Daemon`
  serves in a state that satisfies the invariant is a step of the cluster, a
  kill after any of its writes is a crash step, and the invariant holds again.
- **Theorems** (`Safety`, `Exclusion`, `Changes`, `History`, `Moments`): the
  results over every reachable cluster and every run. `Moments` goes back from a
  write or an answer to the moment it was made and says what the peer's files
  were then.
- **Beside the cluster**: `Handover` and `Succession` (manual transfers and
  launches, in one participant and over runs of all of them), `Replication`,
  `Replica`, `Delivery` and `Resumption` (chunked blob transfer: sender,
  receiver, one session, any number of sessions with kills), `HostReadiness`
  (may this computer be shut down), `ProcessGuard` (Java process ownership),
  `Permit` (permit text and watch).

Modelling conventions. One world is modelled. A record's hash is injective, so a
hash field holds the hashed record. A peer id is the hash of the peer's key, so
a key check is an id check. A signature is evidence in the log: a peer can have
signed only what its own writes put there. Clocks are a global monotonic count
of milliseconds. What the source reads from the network, the clock, the file
system's health, the invite lifetime, the local host capability and the world
configuration are parameters of the operations. The methods that count members
ask for a roster ordered by id, as the descriptor is normalized, and the exact
conditions of the handlers are stated for such a roster; every reachable peer's
is one (`Invariant.MemberKept`).

## What the code does that its documentation does not say

- `docs/AUTHORITY_RECOVERY.md` line 191, `docs/RECOVERY_ACCEPTANCE.md` line 75
  and `docs/RELEASE_NOTES_v0.2.0.md` line 9 say that a later candidate may
  supersede an abandoned one in a strictly higher round. The code refuses every
  other candidate on the same base (`crates/swarm-storage/src/state.rs` lines
  58 and 249, `crates/swarm-consensus/src/recovery.rs` lines 56 to 60). The model
  follows the code. `Safety.AnotherCandidateIsRefused` gives a disk and a
  runtime with which a peer would vote and still rejects the second candidate,
  `Safety.OnlyTheSameCandidateSupersedes` and `Safety.VoterFollowsItsCandidate`
  the exact condition, and `Safety.LockedHalfBlocks` the consequence: once half
  of the electorate is locked on other candidates, a candidate is never certified.
- The handler of a bare membership record has a branch for a peer's first record
  with sequence 1 (`crates/swarm-cli/src/daemon.rs` line 1760). Storage takes a
  first record without certificate only with sequence 0
  (`crates/swarm-storage/src/world.rs` line 65), so the branch never stores
  anything: `Safety.BareRecordNeverBootstraps`.
- The launch check and the launch are separate steps of
  `crates/swarm-cli/src/migration.rs` (lines 432 to 475 and 561 to 584), and the
  check does not look at the transfer again. A passed check goes stale exactly by
  one step: a runtime leaves and signs its transfer while the check is
  outstanding (`Succession.StaleOnlyByCarelessness`). The launch that uses the
  check then starts beside the transfer exactly when the last checkpoint left
  the state root at the epoch's base (`Succession.CarelessnessIsEnough`,
  `Succession.StaleCheckRelaunches`); otherwise the artifact check of lines 1483
  to 1489 refuses it. The results about transfers hold for every run without
  such a step, and taking the runtime slot before checking rules it out
  (`Succession.SlotFirstIsCareful`).
- `docs/NETWORK_VALIDATION.md` lines 130 to 132 describe a transfer that resumes
  from the receiver's committed offset. A receiver killed after the last byte of
  a blob is synced and before the file is renamed (`crates/swarm-storage/src/replica.rs`
  lines 111 to 130) is committed up to the end. It answers the next manifest with
  that offset, and the daemon's sender then skips the blob
  (`crates/swarm-cli/src/daemon.rs` lines 2909 to 2912), so that nothing finishes
  it. `Resumption.OneKillIsEnough` is such a run. `Resumption.StuckExactly` says
  over every run when a blob is caught in this way, `Resumption.StuckBlocksCommit`
  that no snapshot with it is committed from then on, and
  `Delivery.SessionDelivers` and `Resumption.ResumedSessionDelivers` that a
  session installs a negotiated blob exactly if its offset was before the end.
- Applying a joint certificate stores the record before the descriptor
  (`crates/swarm-cli/src/daemon.rs` lines 2444 to 2470), and the replay after a
  crash returns early once the record is stored (lines 2472 to 2493). A crash in
  between leaves the descriptor behind, and the next proposal is built from it:
  `Changes.CrashDropsAVoter` shows one that drops a voter and lies two voters
  away. `Changes.ProposalIsAdjacentExactly` is the exact condition.

## Model

| member | source | states |
|---|---|---|
| `Quorum.MajoritiesMeet` | crates/swarm-consensus/src/lib.rs:58-68 | two majorities of one electorate share a voter |
| `Quorum.AdjacentMajoritiesMeet` | crates/swarm-consensus/src/lib.rs:58-68 | so do majorities of electorates one voter apart |
| `Quorum.MinorityIsBlocked` | crates/swarm-consensus/src/lib.rs:58-68 | the threshold is tight: a set is a majority exactly when the rest is none and it is not half |
| `Records.OrderedLookup` | crates/swarm-cli/src/daemon.rs:2813-2831 | in an ordered member list, looking a peer up decides whether it is a voter |
| `Certificates.ValidateRecoveryShape` | crates/swarm-consensus/src/recovery.rs:90-113 | the loop accepts exactly matching votes of members with a majority of distinct voters |
| `Certificates.RecoveryShapeIsMajority` | crates/swarm-consensus/src/recovery.rs:90-113 | an accepted certificate carries a majority of its electorate |
| `Certificates.ValidateJointShape` | crates/swarm-consensus/src/membership.rs:68-112 | accepts exactly the joint certificates with both majorities |
| `Certificates.CountJointVotes` | crates/swarm-consensus/src/membership.rs:75-101 | repeated voters count once, strangers and mismatched votes invalidate |
| `Certificates.JointMeetsBothMajorities` | crates/swarm-consensus/src/membership.rs:103-111 | a joint certificate's voters meet every majority of the old and of the new voter set |
| `Freshness.ValidateFreshnessQuorum` | crates/swarm-consensus/src/membership.rs:170-230 | accepts exactly ordered known signers with a majority of the current voters, of both sets while a change is pending |
| `Freshness.CheckOrder` | crates/swarm-consensus/src/membership.rs:175-186 | the signer list is bounded and strictly ascending |
| `Freshness.CountSigners` | crates/swarm-consensus/src/membership.rs:188-227 | both tallies count distinct signers, and a stranger invalidates |
| `Freshness.FreshnessIsMajority` | crates/swarm-consensus/src/membership.rs:170-230 | an accepted list holds a majority of the current voters, change pending or not |
| `Freshness.FreshnessExactly` | crates/swarm-consensus/src/membership.rs:170-230 | a list validates exactly if it is ascending, of at most 1,024 voters, and a majority of the voters now and after the pending change |
| `Storage.Store.Put` | crates/swarm-storage/src/recovery_v2.rs:9-25 | one durable replacement or removal: the journal grows by it and the files follow |
| `Storage.Store.SaveEpochRecord` | crates/swarm-storage/src/control.rs:9-29 | the stored generation never goes back and no record replaces another of its generation; whatever else is new is stored, and a refusal leaves every file as it was |
| `Storage.Store.PromiseRecoveryBallot` | crates/swarm-storage/src/state.rs:23-67 | refused exactly if another ballot is held that is not an earlier round of this one; granted or repeated, the ballot is the promise on disk; a refusal names the round held and changes nothing |
| `Storage.Store.ClearRecoveryPromiseAfterEpochAdvance` | crates/swarm-storage/src/state.rs:86-100 | a promise survives exactly while its target epoch is not reached, and nothing else changes |
| `Storage.Store.SaveMembershipRecord` | crates/swarm-storage/src/world.rs:33-81 | what is stored directly extends the record before it under the stored epoch and its authority, or is a legitimate first one; a refusal leaves every file as it was |
| `Storage.Store.IsCertifiedBootstrap` | crates/swarm-storage/src/world.rs:83-104 | a first record taken on a certificate directly extends a record of the same authority |
| `Storage.Store.PromiseMembershipProposal` | crates/swarm-storage/src/membership.rs:23-44 | a vote is given exactly for a direct extension with no other prepare held, and is then on disk; a held prepare is never replaced |
| `Storage.Store.ClearMembershipPromiseAfterCommit` | crates/swarm-storage/src/membership.rs:56-70 | a prepare ends with the commit of the very record it proposes, and nothing else changes |
| `Storage.Store.SaveMembershipCertificate` | crates/swarm-storage/src/membership.rs:72-87 | a certificate filed for a sequence number is never replaced by another; a new one becomes current as well, and a refusal changes nothing |
| `Storage.Store.ClearSatisfiedPendingJoin` | crates/swarm-cli/src/daemon.rs:2427-2442 | a staged join waits exactly until its member is a voter, and nothing else changes |
| `Survey.CountActive` | crates/swarm-cli/src/daemon.rs:375-375 | counting unbanned entries of an ordered list counts its voters |
| `Survey.CountConfirmed` | crates/swarm-cli/src/daemon.rs:715-729 | counts the members whose lease acknowledgement of this generation is fresh, and oneself |
| `Survey.CountEpochConfirmed` | crates/swarm-cli/src/daemon.rs:832-881 | counts the members that acknowledged the recovery epoch, and oneself |
| `Survey.SurveyMembers` | crates/swarm-cli/src/daemon.rs:424-483 | the loop finds exactly the members seen canonical, and as candidates exactly those that could host |
| `Survey.ElectedDrives` | crates/swarm-cli/src/daemon.rs:486-491 | the elected peer is the local one exactly when it is the least able host |
| `Survey.CollectVotes` | crates/swarm-cli/src/daemon.rs:627-632 | lists every vote in hand for the ballot, each once |
| `Survey.CollectJointVotes` | crates/swarm-cli/src/daemon.rs:2553-2559 | lists every joint vote in hand for the proposal, each once |
| `Election.ElectAuthority` | crates/swarm-consensus/src/lib.rs:27-41 | elects a fit candidate that no fit one precedes by epoch, history or smaller id, and nobody exactly when none is fit |
| `Election.SameCandidatesSameWinner` | crates/swarm-consensus/src/lib.rs:27-41 | the same candidates in any order and multiplicity elect the same peer |
| `Plans.JoinAddsOneVoter` | crates/swarm-cli/src/daemon.rs:1508-1521 | inserting a member adds its id to the voters unless it is banned, and nobody else |
| `Plans.LeaveTakesOneVoter` | crates/swarm-cli/src/daemon.rs:1508-1521 | removing a member takes exactly its id from the voters |
| `Rules.VoteExactly` | crates/swarm-cli/src/daemon.rs:1821-1926 | the answer to a ballot by cases: denied exactly if not due on the files and what is seen, a vote exactly if the promise held allows it, a rejection naming the round held otherwise |
| `Rules.DriveExactly` | crates/swarm-cli/src/daemon.rs:400-494 | a peer drives exactly as the least able host with a majority in sight of a world that lost its authority |
| `Rules.AtMostOneDrives` | crates/swarm-cli/src/daemon.rs:486-494 | of two hosts that see each other as able to take over at most one drives, whatever else they see |
| `Rules.AttemptExactly` | crates/swarm-cli/src/daemon.rs:549-607 | a driver keeps the ballot in hand, or opens one on the local base above every round it knows of, its own first vote; it opens none exactly if the rounds are used up or its promise forbids every next one |
| `Rules.PromotionExactly` | crates/swarm-cli/src/daemon.rs:625-662 | a driver installs itself exactly with a majority of votes in hand, the certificate written before the epoch |
| `Rules.ElectedExactly` | crates/swarm-consensus/src/recovery.rs:90-113 | a certificate validates exactly with matching votes of members only and a majority of them |
| `Rules.CertifiedExactly` | crates/swarm-cli/src/daemon.rs:2660-2697 | the check of a certified record holds exactly when record, ballot and local head agree on the base and one host is sender, candidate and authority |
| `Rules.AcceptExactly` | crates/swarm-cli/src/daemon.rs:1927-1976 | a certified epoch is accepted exactly when due and leaves the files as installed; otherwise nothing changes |
| `Rules.EpochExactly` | crates/swarm-cli/src/daemon.rs:1977-2013 | an uncertified epoch is accepted exactly when due, is then stored and ends the sleep; otherwise nothing changes |
| `Rules.ManualExactly` | crates/swarm-cli/src/migration.rs:1089-1201 | a transfer's epoch is stored exactly when due, and ends the sleep |
| `Rules.LaunchExactly` | crates/swarm-cli/src/migration.rs:1379-1450 | a launch mints an epoch whenever there is one to mint, and none otherwise |
| `Rules.LeaseExactly` | crates/swarm-cli/src/daemon.rs:2022-2059 | a lease is granted exactly to the holder of the stored generation outside any prepare, for 5,000 ms, with the window closed for 7,000 ms |
| `Rules.PermitExactly` | crates/swarm-cli/src/daemon.rs:685-754 | a permit is refreshed exactly when due, and the heartbeat moves by one until it saturates |
| `Rules.RestoreExactly` | crates/swarm-cli/src/daemon.rs:730-753 | a solo authority stores the quorum-mode successor on its head exactly with a lease majority |
| `Rules.SleepExactly` | crates/swarm-cli/src/daemon.rs:2060-2089 | a sleep boundary is stored exactly when due |
| `Rules.VoteCounts` | crates/swarm-cli/src/daemon.rs:2235-2245 | a vote counts exactly if it is the voter's own and for the ballot in hand |
| `Rules.RejectionExactly` | crates/swarm-cli/src/daemon.rs:2246-2265 | a rejection below the round in hand is ignored; any other ends the attempt and raises the round floor to what it names, never lowers it |
| `Rules.LeaseAckCounts` | crates/swarm-cli/src/daemon.rs:2212-2217 | a lease acknowledgement counts from now on exactly for a connected member and the stored generation, and only for its sender |
| `Rules.EpochAckCounts` | crates/swarm-cli/src/daemon.rs:2297-2304 | so does an epoch acknowledgement |
| `MemberRules.CarriedExactly` | crates/swarm-consensus/src/membership.rs:68-112 | a joint certificate validates exactly with one step, matching votes, and a majority of the voters before and after |
| `MemberRules.ProposeExactly` | crates/swarm-cli/src/daemon.rs:1429-1631 | a request becomes exactly this prepare when it is due, and otherwise nothing is written |
| `MemberRules.RepeatExactly` | crates/swarm-cli/src/daemon.rs:1429-1631 | a held prepare is answered again exactly to the request it carries out |
| `MemberRules.PrepareExactly` | crates/swarm-cli/src/daemon.rs:1689-1711 | a joint vote is given exactly when due, and the proposal is then the prepare on disk |
| `MemberRules.JointVoteCounts` | crates/swarm-cli/src/daemon.rs:2266-2284 | a joint vote counts exactly if it is the voter's own and for the prepare on file |
| `MemberRules.CommitWritesExactly` | crates/swarm-cli/src/daemon.rs:2444-2470 | a carried certificate is filed and applied exactly if storage takes both, is only filed if the record is refused, and leaves everything if another is filed |
| `MemberRules.CommitExactly` | crates/swarm-cli/src/daemon.rs:1712-1728 | a commit is accepted exactly when due, and leaves the files as applied |
| `MemberRules.TransitionExactly` | crates/swarm-cli/src/daemon.rs:2508-2597 | the authority commits exactly with both majorities in hand and the record storable; with one missing it writes nothing |
| `MemberRules.TransitionOtherwise` | crates/swarm-cli/src/daemon.rs:2508-2597 | without a prepare of its own out of the stored record it writes nothing but the end of a fulfilled prepare |
| `MemberRules.ReplayExactly` | crates/swarm-cli/src/daemon.rs:2472-2493 | a filed certificate not yet applied is applied exactly if it still fits |
| `MemberRules.BareExactly` | crates/swarm-cli/src/daemon.rs:1729-1770 | a bare record is stored exactly when it refreshes the stored one |
| `MemberRules.ResignsExactly` | crates/swarm-cli/src/migration.rs:1491-1515 | a new authority signs the stored members again exactly when their record is not its own yet, and the record is the only such one |
| `MemberRules.VouchExactly` | crates/swarm-cli/src/discovery.rs:507-570 | a peer vouches exactly as a voter whose stored state is the one challenged and that promised nothing beyond it |
| `Daemon.Daemon.HandleRecoveryBallot` | crates/swarm-cli/src/daemon.rs:1821-1926 | a vote is given exactly to a ready host seen at the local head, itself the candidate, for the direct successor of the stored generation with the head's own snapshot and state and the stored membership, outside any prepare, with the authority away and its leases over or the world asleep at that head, and where the promise held is this ballot or an earlier round of it; a due ballot is otherwise rejected with the round held; the promise is then on disk, and without a vote no file changes |
| `Daemon.Daemon.HandleRecoveryEpoch` | crates/swarm-cli/src/daemon.rs:1927-1976 | a recovery epoch is accepted exactly outside any prepare, when record, ballot and local head agree on snapshot, state and membership, a majority of the members voted, the sender is host, candidate and authority at once, the record is the stored one or its direct successor, and no later or other promise forbids it; certificate, epoch, sleep boundary and promise then stand as installed, and otherwise nothing changes |
| `Daemon.Daemon.ValidateRecoveryEpoch` | crates/swarm-cli/src/daemon.rs:2660-2697 | true exactly when the record's base state is the ballot's state and the local head's, the head's snapshot is the ballot's, the stored membership is the ballot's and a majority of it voted, and sender, candidate and authority are one host |
| `Daemon.Daemon.Install` | crates/swarm-cli/src/daemon.rs:642-661 | the quorum proof is durable before the epoch, the leftovers go last |
| `Daemon.Daemon.HandleLeaseGrant` | crates/swarm-cli/src/daemon.rs:2022-2059 | a lease of exactly 5,000 ms is granted exactly to the host that holds the stored generation, outside any prepare, and closes the recovery window for 7,000 ms; a refusal changes nothing |
| `Daemon.Daemon.HandleEpoch` | crates/swarm-cli/src/daemon.rs:1977-2013 | an uncertified epoch is accepted exactly outside any prepare, from a member, for a host, on the local head's state, as the stored one or its direct successor that the authority may issue or hand over along a committed transfer, or as a first one not behind the head; it then is the stored epoch and the sleep ends, and a refusal changes nothing |
| `Daemon.Daemon.HandleMembershipProposal` | crates/swarm-cli/src/daemon.rs:1689-1711 | a joint vote is given exactly for the sender's own proposal, one step on, that leaves the committed record or is the local peer's own join, with no other prepare held; it is then the prepare on disk, and a refusal changes nothing |
| `Daemon.Daemon.HandleMembershipCommit` | crates/swarm-cli/src/daemon.rs:1712-1728 | a commit is accepted exactly when the certificate carries both majorities, comes from its authority, meets no other prepare, is not at odds with one filed for that sequence number, and storage takes the record; certificate, record and descriptor then agree and what they fulfil is cleared; a refused one changes neither record nor descriptor |
| `Daemon.Daemon.ApplyMembershipCertificate` | crates/swarm-cli/src/daemon.rs:2444-2470 | record, descriptor, prepare, join in this order, and nothing if the record is refused |
| `Daemon.Daemon.RecoverCommittedMembership` | crates/swarm-cli/src/daemon.rs:2472-2493 | a filed certificate that is not yet stored or superseded is applied exactly if it still fits, and the stored record is then the one it commits; otherwise nothing but a fulfilled prepare goes |
| `Daemon.Daemon.HandleMembership` | crates/swarm-cli/src/daemon.rs:1729-1770 | a bare record is accepted exactly from a member, under the stored epoch's authority, as the stored record or a refresh of it with the same members; a refusal changes nothing |
| `Daemon.Daemon.HandleChange` | crates/swarm-cli/src/daemon.rs:1429-1631 | a request becomes a prepare exactly when the local peer is the authority, the change makes sense for the descriptor and no prepare is held, and the prepare is the stored record one step on, changed by this request alone; a held prepare is kept |
| `Daemon.Daemon.MaintainMembershipTransition` | crates/swarm-cli/src/daemon.rs:2508-2597 | the authority commits exactly when the votes in hand hold a majority of the voters before and of those after the change and storage takes the record; certificate, record and descriptor then stand as applied; with a majority missing no file changes |
| `Daemon.Daemon.HandleSleep` | crates/swarm-cli/src/daemon.rs:2060-2089 | a sleep boundary is stored exactly from the accepted authority, at the stored generation and snapshot, outside any prepare; a refusal changes nothing |
| `Daemon.Daemon.MaintainLocalAuthority` | crates/swarm-cli/src/daemon.rs:685-754 | a permit is refreshed exactly by the authority in office (awake, a member, outside any prepare, a recovered one with its certificate and a majority of epoch acknowledgements) with lease acknowledgements less than 5,000 ms old from a majority, and never a solo one |
| `Daemon.Daemon.RefreshPermit` | crates/swarm-cli/src/daemon.rs:730-753 | only a quorate epoch that is not solo gets a permit, with a heartbeat that grows until it saturates; a solo authority first stores its direct successor in quorum mode |
| `Daemon.Daemon.MayDriveNow` | crates/swarm-cli/src/daemon.rs:400-494 | the tick drives a ballot exactly when the local peer is a ready host with the authority away and its leases over, or the world asleep at its head, several members, a majority of them seen at that head, no prepare, and no able member with a smaller id |
| `Daemon.Daemon.AttemptBallot` | crates/swarm-cli/src/daemon.rs:549-607 | a driver keeps the ballot in hand while it is for the local base and at no round below one it knows of, or opens the next round on the local base behind its own durable promise |
| `Daemon.Daemon.PromoteBallot` | crates/swarm-cli/src/daemon.rs:625-662 | a driver promotes itself exactly when a majority of the members, and nobody else, is behind the ballot in hand; certificate, epoch, sleep boundary and promise then stand as installed, and otherwise nothing changes |
| `Daemon.Daemon.TryRecovery` | crates/swarm-cli/src/daemon.rs:527-683 | one tick of recovery is the attempt followed by the promotion it allows |
| `Daemon.Daemon.StoreManualEpoch` | crates/swarm-cli/src/migration.rs:1089-1201 | a transfer's epoch is stored exactly as direct successor of the stored one, for a host, on the local head's state, and ends the sleep |
| `Daemon.Daemon.PrepareAuthorityEpoch` | crates/swarm-cli/src/migration.rs:1379-1450 | a launch mints exactly the next solo epoch of a world asleep at its head or the first one of a world of the peer's own, on the local state; where there is none it changes nothing |
| `Daemon.Daemon.EnsureArtifacts` | crates/swarm-cli/src/migration.rs:1491-1515 | a new authority signs the unchanged member list under its own epoch exactly when the stored record is not its own yet, and otherwise changes nothing |
| `Discipline.PlanObeys` | crates/swarm-cli/src/daemon.rs:1394-2108 | every write of every handler, wherever a crash cuts it, has established what the discipline demands at its moment |
| `Discipline.AcceptedObeys` | crates/swarm-cli/src/daemon.rs:642-661 | certificate, epoch and clean-up each obey in their turn |
| `Discipline.CommitObeys` | crates/swarm-cli/src/daemon.rs:2444-2470 | so do the filing and the application of a joint certificate |
| `Invariant.WritesKeep` | crates/swarm-storage/src/recovery_v2.rs:9-25 | any prefix of obedient writes keeps a peer's files sound and the log justified |
| `Invariant.VoteKept` | crates/swarm-storage/src/state.rs:23-100 | one value per base and voter, before and after the promise is cleared |
| `Invariant.AcceptKept` | crates/swarm-cli/src/daemon.rs:1943-1970 | who accepted a certified epoch never promised its base in a later round |
| `Invariant.MemberKept` | crates/swarm-storage/src/world.rs:33-81 | the roster stays ordered, the stored sequence and epoch never fall, one record per sequence |
| `Invariant.PrepareKept` | crates/swarm-storage/src/membership.rs:23-70 | a prepare is held until the configuration it leaves is left |
| `Steps.VoteIsJustified` | crates/swarm-cli/src/daemon.rs:1867-1925 | a vote leaves only behind its promise, outside every prepare and after every lease |
| `Steps.LeaseMajority` | crates/swarm-cli/src/daemon.rs:716-739 | a counted lease majority is a majority of fresh acknowledgements on record |
| `Steps.EpochMajority` | crates/swarm-cli/src/daemon.rs:832-881 | a counted epoch majority is a majority of acknowledgements on record |
| `Steps.NextKeeps` | crates/swarm-cli/src/daemon.rs:315-2327 | every step, completed, crashed, heard or forgotten, keeps the invariant of all peers |
| `Steps.RunKeeps` | crates/swarm-cli/src/daemon.rs:315-2327 | every state of every run satisfies it |
| `Service.HandlerIsStep` | crates/swarm-cli/src/daemon.rs:1394-2108 | a plan carried out is a step that keeps the invariant, and so is each of its prefixes as a crash |
| `Service.Serve` | crates/swarm-cli/src/daemon.rs:315-2327 | the daemon's own code, whatever it serves, performs a step of the cluster; killed after any write it leaves a crash step; the invariant of all peers holds again |
| `Safety.OneValuePerBase` | crates/swarm-cli/src/daemon.rs:549-656 | all certificates of one base generation bind one candidate, snapshot and membership, over unbounded rounds and restarts |
| `Safety.OneRecoveryRecord` | crates/swarm-cli/src/daemon.rs:1927-1970 | two recovery epochs of one generation are the identical record, wherever stored |
| `Safety.AcceptedRoundIsLast` | crates/swarm-cli/src/daemon.rs:1943-1970 | after a majority accepted epochs on certificates of one ballot, whichever votes those list, no certificate of a later round ever exists for its base |
| `Safety.OnlyTheSameCandidateSupersedes` | crates/swarm-storage/src/state.rs:48-61 | on one base a later round is granted exactly to the candidate already promised |
| `Safety.VoterFollowsItsCandidate` | crates/swarm-cli/src/daemon.rs:1821-1926 | a peer that would vote answers a later round exactly with a vote for the candidate promised before and with a rejection for any other |
| `Safety.AnotherCandidateIsRefused` | crates/swarm-storage/src/state.rs:58-60 | with the authority gone and every voting condition met, a later round that differs in the candidate alone is rejected |
| `Safety.RejectedCandidateTriesHigher` | crates/swarm-cli/src/daemon.rs:549-607 | a rejected candidate's next ballot is above every round it was told of |
| `Safety.LockedVotersNeverCertify` | crates/swarm-storage/src/state.rs:23-67 | a candidate is certified only by voters that never promised another on that base |
| `Safety.LockedHalfBlocks` | crates/swarm-storage/src/state.rs:23-67 | once half of the electorate promised other candidates, a candidate is never certified on that base |
| `Safety.CertificateBeforeEpoch` | crates/swarm-storage/src/recovery_v2.rs:9-25 | a stored recovery epoch was preceded on disk by a majority certificate for its generation and authority |
| `Safety.DiskCertificate` | crates/swarm-cli/src/daemon.rs:642-656 | the certificate on disk targets the stored recovery generation or the next |
| `Safety.PreparedNeverRecovers` | crates/swarm-cli/src/daemon.rs:2340-2345 | after preparing a change out of a configuration a peer never promises, votes for or accepts a recovery out of it |
| `Safety.PreparedMajorityBlocksRecovery` | crates/swarm-cli/src/daemon.rs:1927-1970 | if a majority prepares before accepting on a ballot, that recovery never reaches majority acceptance |
| `Changes.ProposalIsAdjacentExactly` | crates/swarm-cli/src/daemon.rs:1508-1521 | exactly when a proposed configuration is one voter away: descriptor and record name the same voters for a new change, and differ by at most one beside the change for a repeated one |
| `Changes.CommitCrashes` | crates/swarm-cli/src/daemon.rs:2444-2470 | killed after its third write, a commit has stored certificate and record but neither descriptor nor prepare |
| `Changes.RestartKeepsDescriptor` | crates/swarm-cli/src/daemon.rs:2472-2493 | the replay after that crash clears the prepare and leaves the descriptor behind |
| `Changes.CrashedProposal` | crates/swarm-cli/src/daemon.rs:1508-1521 | every later proposal for a newcomer is then adjacent exactly if the old descriptor already named the new voters |
| `Changes.CrashDropsAVoter` | crates/swarm-cli/src/daemon.rs:2444-2493 | a concrete crash, restart and join after which the proposal drops the friend who just joined |
| `Safety.OneChangePerConfiguration` | crates/swarm-cli/src/daemon.rs:2367-2373 | at most one change out of a configuration is ever certified |
| `Safety.ChangeAfterRecoveryVote` | crates/swarm-cli/src/daemon.rs:1896-1898 | a certified change and a certified recovery out of one configuration share a peer that promised before it prepared |
| `Exclusion.RecordsFollowEpochs` | crates/swarm-storage/src/world.rs:33-81 | a membership stored after an epoch belongs to that epoch or a later one, crash or not |
| `Exclusion.NoPeerDoesBoth` | crates/swarm-cli/src/daemon.rs:1927-1970 | a peer that accepted a recovery out of a configuration and committed a change out of it committed one of the recovered epoch or later |
| `Exclusion.RecoveryExcludesChange` | crates/swarm-cli/src/daemon.rs:2444-2470 | of a recovery and an earlier-epoch change out of one configuration at most one is ever stored by a majority |
| `Safety.BareRecordNeverBootstraps` | crates/swarm-cli/src/daemon.rs:1760-1769 | a bare membership record never becomes a peer's first |
| `Safety.PromisedNeverVouches` | crates/swarm-cli/src/discovery.rs:507-529 | a peer that promised past a generation never vouches for it again, even after the promise is cleared |
| `Safety.PromisesEndFreshness` | crates/swarm-cli/src/discovery.rs:507-570 | once a majority promised past a generation, later vouchers for it are no majority |
| `Safety.NoFreshnessQuorumAfterPromises` | crates/swarm-consensus/src/membership.rs:170-230 | so no list of later freshness votes validates |
| `Safety.VoteOutwaitsLeases` | crates/swarm-cli/src/daemon.rs:1061-1071 | a vote outside sleep comes at least 7,000 ms after every lease its voter granted before |
| `Safety.PermitNeedsNewLease` | crates/swarm-cli/src/daemon.rs:716-729 | with replies within 2,000 ms, a permit that counts a voter after its vote rests on a lease granted after the vote |
| `Safety.VotedMajorityStopsOldPermits` | crates/swarm-cli/src/daemon.rs:716-739 | once a majority voted, the old authority's next permit needs one of those voters to lease again |
| `Safety.PermitRestsOnOneRecord` | crates/swarm-cli/src/daemon.rs:2037-2058 | everyone behind a permit stored the identical record naming its holder |
| `Safety.OnePermitHolder` | crates/swarm-cli/src/daemon.rs:378-397 | at most one peer ever holds a permit for a generation, for equal or adjacent electorates |
| `Safety.RecoveryPermitIsAccepted` | crates/swarm-cli/src/daemon.rs:832-881 | a recovery permit follows storage of its record by a majority |
| `Exclusion.EarlierPermitsEnd` | crates/swarm-cli/src/daemon.rs:685-754 | once a generation has a permit, no earlier generation gets one a lease plus one reply delay later, for equal or adjacent electorates |
| `Moments.FenceHolds` | crates/swarm-cli/src/daemon.rs:2340-2345 | between a prepare and any lease, permit, vote, recovery promise or certified epoch of that peer, the prepare was dropped |
| `Moments.MomentObeys` | crates/swarm-cli/src/daemon.rs:1394-2108 | over every run, each write found the files that the discipline demands, crash or not |
| `Moments.PromisedOnHead` | crates/swarm-cli/src/daemon.rs:1867-1925 | over every run, whoever promised a ballot had its snapshot and state as head when the promise was written |
| `Moments.VoterHeldTheSnapshot` | crates/swarm-cli/src/daemon.rs:1867-1925 | so every voter of every certificate held the certified snapshot and state |
| `Moments.AcceptedOnCertifiedState` | crates/swarm-cli/src/daemon.rs:2660-2697 | over every run, a certified epoch continues the certified state, and its acceptor had the certified snapshot and state as head at that moment |
| `Moments.StoredOnHead` | crates/swarm-cli/src/daemon.rs:1977-2013 | over every run, each epoch stored, certified or not, continues the state its peer had as head |
| `Moments.VoteWasDue` | crates/swarm-cli/src/daemon.rs:1821-1926 | over every run, each vote was due at its moment, on the voter's files and on what it saw |
| `Moments.LeaseWasDue` | crates/swarm-cli/src/daemon.rs:2022-2059 | so was each lease |
| `Moments.PermitWasDue` | crates/swarm-cli/src/daemon.rs:685-754 | and each permit, on the acknowledgements it names |
| `Moments.VouchWasDue` | crates/swarm-cli/src/discovery.rs:507-570 | and each freshness vote: the voucher's files were exactly the state it vouched for |
| `History.EpochAndTokenAdvanceTogether` | crates/swarm-consensus/src/lib.rs:84-91 | a peer's epochs form one hash-linked chain in which epoch and token advance together |
| `History.MembershipNeverRollsBack` | crates/swarm-cli/src/daemon.rs:2444-2493 | a peer's memberships form one chain whose members change only behind a joint certificate, replay included |
| `History.RunContinues` | crates/swarm-cli/src/daemon.rs:1943-2007 | over a whole run each peer continues its own epochs and memberships, crash or not |
| `History.LineageAdvancesTogether` | crates/swarm-consensus/src/lib.rs:70-91 | along a chain the order of generations is the order of epochs |
| `HostReadiness.SurvivingRecoveryQuorum` | crates/swarm-cli/src/host_readiness.rs:276-314 | true exactly for an eligible other member whose survivors make a quorum |
| `HostReadiness.ObservesEveryOtherMember` | crates/swarm-cli/src/daemon.rs:997-1023 | the observations are exactly those of the other unbanned members |
| `HostReadiness.ReadinessCountsWhatRecoveryCounts` | crates/swarm-cli/src/daemon.rs:442-464 | readiness counts exactly the peers recovery would count with the authority gone |
| `HostReadiness.TakeOverMeansHost` | crates/swarm-cli/src/host_readiness.rs:391-427 | readiness counts on a member to take over exactly if recovery would elect from it |
| `HostReadiness.AssessExactly` | crates/swarm-cli/src/host_readiness.rs:391-427 | what is said of a member, from its connection, a status and a report at most 3,000 ms old, for this very epoch, head and configuration |
| `HostReadiness.EvaluateHostReadiness` | crates/swarm-cli/src/host_readiness.rs:380-557 | the whole verdict: safe exactly when some other member meets every successor condition, naming the least such id |
| `HostReadiness.AssessmentIgnoresOrder` | crates/swarm-cli/src/host_readiness.rs:391-427 | reordering members or observations changes nothing that is assessed |
| `HostReadiness.VerdictIsUnique` | crates/swarm-cli/src/host_readiness.rs:449-557 | what is assessed determines the verdict, successor and handoff |
| `HostReadiness.StoredReport.Load` | crates/swarm-cli/src/host_readiness.rs:563-583 | a report more than 6,000 ms old withdraws every promise, a younger one is unchanged |
| `Handover.Participant.PrepareManualTransfer` | crates/swarm-cli/src/migration.rs:950-1010 | a transfer is handed out exactly by the current authority to another host: the prepared one on file, or a new one of a world asleep at its head; it is then the one on file, and an authority awake only takes the intent to leave |
| `Handover.Participant.FinishTransfer` | crates/swarm-cli/src/migration.rs:831-837 | a leaving runtime is gone afterwards, and signs a transfer exactly if it left for one on the checkpoint it just committed, out of the stored generation |
| `Handover.Participant.AcceptManualTransfer` | crates/swarm-cli/src/migration.rs:1016-1051 | accepts exactly as its target a proper transfer that continues its file, in two durable writes |
| `Handover.Participant.CommitManualTransfer` | crates/swarm-cli/src/migration.rs:1053-1087 | commits exactly as its source a proper accepted transfer that continues its file, in two durable writes |
| `Handover.Participant.ActivateManualTransfer` | crates/swarm-cli/src/migration.rs:1089-1150 | stores the direct successor on its head exactly as target of a proper committed transfer |
| `Handover.Participant.ObserveManualTransferEpoch` | crates/swarm-cli/src/migration.rs:1152-1201 | stores an epoch exactly if it extends the committed transfer on file |
| `Handover.Participant.CheckLaunch` | crates/swarm-cli/src/migration.rs:432-475 | a check passes exactly for the authority awake with no transfer out of its generation on file |
| `Handover.Participant.LaunchRuntime` | crates/swarm-cli/src/migration.rs:1379-1489 | a runtime starts exactly behind a passed check, alone, under an epoch of its own, held or minted, and on that epoch's base state |
| `Succession.Act` | crates/swarm-cli/src/migration.rs:432-1201 | what a participant's own code does, cut between two writes or not, is a step of all peers and keeps their invariant |
| `Succession.StaleOnlyByCarelessness` | crates/swarm-cli/src/migration.rs:432-475 | over every run, a passed check finds a transfer on file only if the peer signed one in this generation with the check outstanding |
| `Succession.CarefulLaunchesAreFresh` | crates/swarm-cli/src/migration.rs:458-474 | in a run without such a step no launch finds a transfer out of its generation on file |
| `Succession.SlotFirstIsCareful` | crates/swarm-cli/src/migration.rs:561-584 | taking the runtime slot before checking makes every run such a run |
| `Succession.UniqueKept` | crates/swarm-cli/src/migration.rs:964-972 | a step whose launch is fresh keeps one transfer per generation and source, and no runtime beside it |
| `Succession.OneManualSuccessor` | crates/swarm-cli/src/migration.rs:1089-1201 | all peers that activate or observe a manual successor of one source and generation store the identical record, on its committed checkpoint |
| `Succession.TransferCompletes` | crates/swarm-cli/src/migration.rs:950-1201 | from any source and target that agree, with the world asleep, prepare, accept, commit, activate and observe end with both in the target's epoch on the state they had |
| `Succession.NoRuntimeBesideTransfer` | crates/swarm-cli/src/migration.rs:245-259 | from the preparation until the generation changes the source's runtime does not run |
| `Succession.BlockedExactlyWhenSigned` | crates/swarm-cli/src/migration.rs:1203-1238 | a transfer blocks launch checks of its source exactly when one was signed out of the generation |
| `Succession.BesideOnlyIfStale` | crates/swarm-cli/src/migration.rs:561-584 | over every run, a launch beside a transfer needs such a step in its generation and the head at the epoch's base state |
| `Succession.CarelessnessIsEnough` | crates/swarm-cli/src/migration.rs:1483-1489 | after such a step the next launch starts beside the transfer exactly when the checkpoint left the state root at the epoch's base |
| `Succession.StaleCheckRelaunches` | crates/swarm-cli/src/migration.rs:561-584 | from any idle authority, seven operations lead there, and the last one starts a runtime exactly under that condition |
| `Replication.Sender.SendNextChunk` | crates/swarm-cli/src/daemon.rs:2879-2936 | the loop skips complete blobs and puts at most one chunk in flight |
| `Replication.Sender.HandleAccepted` | crates/swarm-cli/src/daemon.rs:2148-2182 | the answer to any chunk ever sent advances or pops the first blob if it matches and advances it, and ends the session otherwise |
| `Replication.Sender.HandleRateLimited` | crates/swarm-cli/src/daemon.rs:2183-2200 | a refusal keeps the queue and starts the back-off |
| `Replication.Sender.RetryDue` | crates/swarm-cli/src/daemon.rs:2938-2962 | a due back-off sends again, or ends the session if the peer is gone |
| `Replica.Store.MissingBlobs` | crates/swarm-storage/src/replica.rs:28-58 | lists exactly the blobs of the manifest that are not in place, each once, with the length of its partial file |
| `Replica.Store.ReceiveBlobChunk` | crates/swarm-storage/src/replica.rs:83-135 | a chunk is acknowledged exactly if it starts where the partial file ends, stays within the blob and, as the last one, completes it; the verified blob is then in place with no partial file left; a refused one installs nothing; the files it passes through are those a kill leaves |
| `Replica.Store.Promote` | crates/swarm-storage/src/replica.rs:117-132 | a full file that verifies is renamed into place over whatever was there, any other is removed |
| `Replica.ReceivedKeeps` | crates/swarm-storage/src/replica.rs:83-135 | a genuine chunk is acknowledged exactly where the partial file ends; partial files stay prefixes, installed blobs exact and installed |
| `Replica.KillKeeps` | crates/swarm-storage/src/replica.rs:110-132 | so they do wherever a kill strikes, inside the write included |
| `Replica.ReceivedStuckSame` | crates/swarm-storage/src/replica.rs:96-100 | storing chunks leaves the same blobs whole in their partial file and not in place |
| `Replica.KillStuckExactly` | crates/swarm-storage/src/replica.rs:110-132 | a kill leaves a blob so exactly if it let the last byte through and the blob is not, or no longer, in place |
| `Delivery.SessionKeeps` | crates/swarm-cli/src/daemon.rs:2120-2211 | in an undisturbed session every chunk is the one the receiver lacks, and no step of its own cuts it short |
| `Delivery.SessionDelivers` | crates/swarm-storage/src/replica.rs:83-148 | a session that ends on its own has installed, byte for byte, exactly the negotiated blobs whose offset was before their end, and the snapshot is committed exactly if that was so of all of them |
| `Resumption.NextKeeps` | crates/swarm-cli/src/daemon.rs:1632-1670 | every move keeps files, wire and session sound: manifests, old and repeated chunks and answers, refusals, cuts, kills |
| `Resumption.RunKeeps` | crates/swarm-cli/src/daemon.rs:1632-1670 | so partial files are prefixes and installed blobs exact in every state of every run |
| `Resumption.ResumedSessionDelivers` | crates/swarm-cli/src/daemon.rs:2879-2936 | over every run, a session that was not cut short has installed exactly the negotiated blobs whose offset was before their end |
| `Resumption.StuckExactly` | crates/swarm-storage/src/replica.rs:111-132 | over every run, a blob is whole in its partial file and not in place exactly if it is empty or some kill struck between its last byte and the rename |
| `Resumption.StuckForever` | crates/swarm-cli/src/daemon.rs:2909-2912 | and stays so in every later state |
| `Resumption.StuckBlocksCommit` | crates/swarm-storage/src/replica.rs:137-148 | from then on no snapshot that contains the blob is committed, however often it is pushed |
| `Resumption.OneKillIsEnough` | crates/swarm-cli/src/daemon.rs:2909-2912 | a run with one kill, for every blob of one chunk: the next session ends on its own, sends, installs and commits nothing |
| `Replication.AckMakesProgress` | crates/swarm-cli/src/daemon.rs:2148-2182 | remaining bytes plus pending blobs strictly decrease on each acknowledgement |
| `Replication.RefusedIsResent` | crates/swarm-cli/src/daemon.rs:2183-2200 | a refused chunk is resent unchanged from the same offset, after the back-off |
| `ProcessGuard.RuntimeProcessGuard.Begin` | crates/swarm-cli/src/runtime_process_guard.rs:29-39 | a launch gets past the old record exactly if there is none or its Java is proved dead and the record goes, and the new one is written |
| `ProcessGuard.RuntimeProcessGuard.InspectPreviousRecord` | crates/swarm-cli/src/runtime_process_guard.rs:62-99 | clears exactly no record or one whose Java is proved dead; pending, unreadable and undecided records refuse |
| `ProcessGuard.RuntimeProcessGuard.RecordJava` | crates/swarm-cli/src/runtime_process_guard.rs:43-47 | the id is remembered even if it cannot be written |
| `ProcessGuard.RuntimeProcessGuard.Drop` | crates/swarm-cli/src/runtime_process_guard.rs:50-60 | the record goes exactly if no Java was started or it is proved dead |
| `ProcessGuard.NeverResetsUnderJava` | crates/swarm-cli/src/migration.rs:647-696 | under any launches, kills, failed writes and exits no Java is alive when the runtime directory is reset |
| `ProcessGuard.OneJavaAtATime` | crates/swarm-cli/src/runtime_process_guard.rs:28-99 | two Java processes of one world never run side by side |
| `Permit.PermitRoundTrip` | crates/swarm-cli/src/authority_permit.rs:18-29 | the permit text of any three 64-bit values parses back to them |
| `Permit.OnlyPermitsParse` | crates/swarm-cli/src/authority_permit.rs:18-29 | nothing else is read as a permit: three fields, each a numeral of an unsigned 64-bit value |
| `Permit.PermitWatch.Observe` | crates/swarm-cli/src/authority_permit.rs:52-69 | an unreadable, malformed or foreign permit is not live and changes nothing |
| `Permit.LiveExactlyAfterChange` | crates/swarm-cli/src/authority_permit.rs:52-74 | a watch is fresh exactly when it saw the heartbeat of its generation change less than six seconds ago |
| `Permit.FrozenPermitIsNeverLive` | crates/swarm-cli/src/authority_permit.rs:52-74 | a permit that never changes never becomes live |

## Left out

- Transport, dialing, logging, status requests and pending-request bookkeeping: input and output around the protocol.
- Ed25519, BLAKE3 and postcard: abstract signers and injective hashes.
- The order of branches inside one tick: each branch carries its own guard, so a tick is one of the modelled step sequences.
- Corrupt or unreadable files, except the unreadable sleep boundary and the process record: loading is assumed to return what was written.
- Creation, verification and promotion of snapshots, world configuration, solo branches and their reconciliation: a new head may appear at any time.
- Exclusion.EarlierPermitsEnd: bounds the overlap of permits of successive generations; the lease handler does not look at recovery promises, so the old authority's permits need not end with the vote.
- Slow replies: the bounds on permits take the longest reply delay as given, 2,000 ms in `Safety.PermitNeedsNewLease`.
- Liveness that depends on scheduling or on the network; the replication measure is the only progress claim.
- Discovery announcements, challenge lifetimes and replay nonces, and the genesis-to-current membership proof: only the freshness vote and its quorum are modelled.
- The remove-then-rename path of the process record on Windows, and process ids reused by foreign processes, which only make the probe more cautious.
- `LeaseTracker`, `FencingState` and `elect_authority_with_quorum`: not used by the daemon's decisions modelled here.
- Succession.OneManualSuccessor: takes the roster as fixed, and holds for runs in which no runtime signs its transfer with a passed check outstanding; with such a step a second runtime of the generation could prepare a second transfer.
- Several senders to one receiver, the removal of unreferenced blobs, blobs encoded anew under the same hash, and the history check at the commit of a replica: one sender with one encoding per hash, and a commit as soon as nothing is missing.
- The replication scheduler of the storage crate, which finishes a full partial file with an empty chunk: the daemon does not use it.
- Permit.LiveExactlyAfterChange: assumes looks with non-decreasing times, as the monotonic clock gives them.
