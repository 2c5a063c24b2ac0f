# Verified model of libhotstuff's protocol core

This project models the HotStuff replica of libhotstuff (`HotStuffCore`, its pacemaker cache, its
block delivery and its block format) and proves the properties the protocol exists for. The central
result is agreement: whatever up to `(n - 1) / 3` faulty replicas sign, the decision sequences of any two
honest replicas, taken at any two times of a run, agree as far as both go. In the two-step build
(`HOTSTUFF_TWO_STEP`) this holds in every run that meets the hypotheses below, other than the one about ancestors. In the
three-step build it holds in every run whose honest replicas have delivered only blocks that descend from the block their
certificate names, a condition the code does not test; without it agreement is false: `Fork.ThreeStepForks` is a run that
shows it, and `ForkedCode.CodeForks` takes the code through it.

The second result is that agreement does not stand still: from every reachable state in which some honest replica can make
a proposal that suits all honest ones (`Liveness` says exactly when), the honest replicas alone can go on to decide any commands
(`Continuation.CanDecide`).

`dafny verify dfyconfig.toml` checks everything.

## How it is organised

Three layers carry the agreement proof.

1. `Core.HotStuffCore` (`HotStuffCore.dfy`, with `Links`, `PaceMaker`, `Pruning`) has the fields of the
   C++ class and follows its methods statement by statement: the early returns on `decision` and on a
   null `qc_ref`, the walks along `parents[0]`, the commit queue replayed in reverse, the explicit stack of
   `prune`. Fields of block objects that change (`parents`, `qc_ref`, `decision`, `voted`, `self_qc`,
   `delivered`) are maps and sets of the replica that owns the block objects. Each handler is proved to
   compute a function or relation of module `Replicas`.
2. `Replicas` states the event-driven algorithm without those devices, as functions on a record. `Local` proves what each
   handler keeps, and `Progress` what it has to achieve, said without those functions: what a certificate commits is
   executed and logged, what is acceptable is voted for, what is heard of is followed, and a completed certificate has all
   its signatures. The handlers of the class promise both.
3. `Protocol` runs `n` replicas: an honest one takes only the steps of `Replicas`, a faulty one may sign
   any block at any time, and delivery asks of a certificate only what the code asks. `Safety` and `TwoSteps` hold
   the invariants and the locking lemma of either build, `Invariance` proves them for every run, `Agreement`,
   `Certificates`, `Liveness` and `Continuation` hold the theorems over runs. `Node` closes the circle: a handler call of the class is a step of the
   system. That holds while certificates name ancestors, pruning or not; and, whatever certificates name, in the two-step
   build and for a replica that has executed nothing, if nothing has been pruned (`Core.HotStuffCore.Working`).
   In those cases "safety breached" is never thrown.

`Aggregation`, `QuorumCerts`, `Delivery`, `DeliveryCalls`, `Promises` and `Codec` cover vote counting, certificates,
asynchronous delivery, `promise::all` and the wire format. `Fork`, `ForkedCode`, `Limits` and `TallUncle` show by runs what
is not promised, and `BlockedWalks` says which prunings stop a replica from voting.

## Hypotheses

- A hash identifies a block. A block is therefore modelled by its content, and equal blocks have equal hashes. Of a
  certificate a block records the certified block and the signers; the bytes of the signatures, which enter the hash, are
  counted to the field `extra`, at which no proof looks.
  `Codec.EncodingIdentifiesBlock` proves the half of this that does not depend on SHA256.
- A signature of an honest replica exists only if that replica's `do_vote` ran (`Protocol.Moves`,
  `QuorumCerts.Unforgeable`), and a vote or certificate reaches a handler only after it was verified.
- Each handler runs atomically, and pacemaker callbacks run where their promise is resolved. There is no restart.
- The block a certificate refers to is a proper ancestor of the block that carries it (`Protocol.AncestryOk`, a condition
  on the blocks that honest replicas have delivered). The paper requires it, but neither delivery
  (`src/consensus.cpp:59-84`) nor voting (`src/consensus.cpp:184-222`) tests it. Theorems that need it say so; agreement
  needs it in the three-step build only (`Agreement.Trusted`). For blocks of honest proposers it is a theorem
  (`Local.OwnProposalQcOnBranch`, `Node.Propose`).
- The certified block of a delivered block may be fetched without being delivered, as in the code, where it has height 0 and
  a null reference until it is; handlers treat it like genesis (`Replicas.RefIn`). No theorem assumes that it is delivered.
- Every replica lists exactly `n - 1` peers, so `nfaulty` is `(n - 1) / 3`.
- Genesis is special, as in the code: height 0, decided, referring to itself, and with all replicas among its voters.

A replica's own vote may reach its own `on_receive_vote` from inside `do_vote`; that call is a later step here.

## Where the code falls short, and exactly when

- Three-step build: one block whose certificate verifies but names a block off its branch unlocks honest replicas, and two
  of them commit conflicting blocks, with one faulty replica of four (`Fork.ThreeStepForks`).
- Two-step build: in some reachable states no block with a certificate that a majority knows of is accepted by every
  honest replica (`Limits.TwoStepCanBlock`). In either build a replica accepts every new proposal on a given `hqc` if and
  only if its lock is not higher (`Liveness.AcceptedIffLockLow`), and some new proposal suits a given set of replicas if
  and only if their higher locks lie on one branch that can be delivered from that `hqc`
  (`Liveness.AcceptableIffLocksOnOneBranch`), provided the certificate held for that `hqc` is complete. In the three-step
  build the highest `hqc` of a majority meets both conditions, so its holder can build a proposal that every honest replica
  accepts if and only if the certificate it holds is complete (`Liveness.AcceptingProposalExists`).
- It may not be. `on_propose` replaces `self_qc`: if a faulty replica sends, and votes for, the block that an honest one is
  about to propose, the certificate of that block comes out with fewer than `nmajority` signatures, and nothing its holder
  proposes on it can be delivered anywhere (`Limits.RestartLosesVotes`). In every state of every run what an honest replica
  proposes verifies if and only if its `hqc` is genesis or its certificate has `nmajority` signatures
  (`Liveness.OwnProposalVerifies`), and a certificate that it completes itself has them if and only if it had not proposed
  the block again after it had counted a vote for it (`Certificates.CompletedCertificate`).
- `prune` leaves the walks down to `b_lock` and `hqc` on intact links if and only if it reaches no block above `b_lock`; the
  walks that commit are safe anyway (`Core.PruneKeepsLinked`). None is reached when blocks have one parent
  (`Core.SingleParentPrunesBelow`), as `get_parents` makes them. If one is reached, and only then, the vote walk of some
  proposal that can be delivered is blocked (`BlockedWalks.VoteWalkBlockedIff`); an uncle taller than the lock is enough
  (`TallUncle.PruneBreaksVoteWalk`).
- The counts of a serialised block are cast to 32 bits; reading a block back returns it if and only if all three
  counts fit (`Codec.BlockRoundTrip`).

## Model

| member | source | states |
|---|---|---|
| Agreement.DecisionsAgree | src/consensus.cpp:141-150 | agreement: the `do_decide` sequences of two honest replicas at two times of a run, without the replica id, are prefixes of one another, without any condition in the two-step build and while delivered certificates name ancestors in the three-step build |
| Agreement.ExecutedComparable | src/consensus.cpp:131-151 | the `b_exec` of two honest replicas, even at different times, lie on one branch, under the same condition |
| Logs.DecisionsExact | src/consensus.cpp:141-150 | the decisions up to a block are exactly the commands of the blocks of its branch, with their heights and indices |
| Logs.DecisionsOrdered | src/consensus.cpp:141-150 | they come in order of height and index, so no command of a block is decided twice |
| Agreement.DecisionsOnlyGrow | src/consensus.cpp:141-151 | in every run: what a replica has decided stays decided, in order |
| Agreement.ProcessedIsDecided | src/consensus.cpp:94-151 | in every run: once a replica has processed, without an exception, a block that certifies the top of a chain of direct parents, every command of the branch of the block at its bottom is among its decisions from then on, whatever it had executed before |
| Agreement.ProposedIsDecided | src/consensus.cpp:154-171 | in every run: a proposed block is one higher than its parent, and once any replica has executed it or a block above it, every command handed to the proposer is decided, at its index |
| Agreement.OneExecutedPerHeight | src/consensus.cpp:131-151 | no two honest replicas ever execute different blocks of one height, under the same condition |
| Agreement.SafetyBreachUnreachable | src/consensus.cpp:137-140 | in every reachable state, under the same condition, the "safety breached" throw is not due for any delivered block |
| Safety.NoBreach | src/consensus.cpp:137-140 | certified references and comparable commits exclude the throw |
| Agreement.LockAndHqcFollowExec | src/consensus.cpp:86-151 | in every reachable state whose delivered certificates name ancestors `b_lock` and `hqc` descend from `b_exec` |
| Safety.NoBreachOnPropose | src/consensus.cpp:154-171 | nor can the `update` inside `on_propose` throw |
| Agreement.TrustedBefore | src/consensus.cpp:81 | blocks stay delivered, so the condition on the last state of a run covers all earlier ones |
| Agreement.NextExecGrows | src/consensus.cpp:94-152 | no step of any run, throwing or not, moves any `b_exec` off its branch, or forgets a signature |
| Agreement.RunExecGrows | src/consensus.cpp:94-152 | the same between any two states of a run |
| Logs.DecisionsPrefix | src/consensus.cpp:141-150 | the decisions up to an ancestor are a prefix of those up to a descendant |
| Safety.LockingLemma | src/consensus.cpp:98-114 | once the top of a chain of direct parents linked by certificates is certified, every certified block at least as high as the bottom is the bottom or its descendant (three or two links, by the build), while certificates name ancestors |
| TwoSteps.TwoStepLocking | src/consensus.cpp:117-128 | the same for the two-step build, whatever the certificates name |
| TwoSteps.LockBelowLaterVote | src/consensus.cpp:193-213 | two-step build: a replica that signed the top of a chain held, when it signed a later block, a lock strictly below that block, on its branch, at least as high as the bottom of the chain |
| TwoSteps.TwoStepCommittedComparable | src/consensus.cpp:124-140 | two-step build: any two committed blocks lie on one branch |
| Fork.ThreeStepForks | src/consensus.cpp:196-200 | three-step build: a run of four replicas, one faulty, in which every certificate verifies, one block carries a certificate off its branch, two honest replicas have executed conflicting blocks, and a block that one of them has delivered would make the other throw |
| Fork.TakesB4 | src/consensus.cpp:196-200 | the vote that leaves the locked branch: a certificate on it unlocks a block off it |
| ForkedCode.CodeForks | src/consensus.cpp:94-222 | the code, given the deliveries and proposals of that run, makes two replicas log different commands as their first decision |
| ForkedCode.RunReplica0 | src/consensus.cpp:184-222 | replica 0 votes for `A1` to `A4` and commits `A1` |
| ForkedCode.RunReplica1 | src/consensus.cpp:184-222 | replica 1, locked on `A1`, votes for `B4` to `B6` off that branch |
| ForkedCode.RunReplica2 | src/consensus.cpp:184-222 | replica 2 votes for `B4` to `B7` and commits `B4` |
| Safety.OneCertifiedPerHeight | src/consensus.cpp:193-213 | two certified blocks of one height are equal |
| Safety.CommonVoter | src/hotstuff.cpp:435-439 | an honest replica signed both of any two certified blocks |
| Safety.RefCertified | src/consensus.cpp:70-76 | whatever a certified block refers to is certified |
| Safety.RefOnBranch | src/consensus.cpp:70-76 | while certificates name ancestors it is lower and on its branch |
| Safety.CertifiedInsideChain | src/consensus.cpp:113-114 | no certified block fits between the blocks of a direct chain |
| Safety.LockAtLaterVote | src/consensus.cpp:193-213 | the replica that voted for both held, at the later vote, a certified lock at least as high as the bottom of the chain |
| Safety.CertifiedAboveCommitted | src/consensus.cpp:107-114 | every certified block at least as high as a committed one extends it |
| Safety.CommittedComparable | src/consensus.cpp:130-140 | any two committed blocks lie on one branch |
| Safety.CommittedIsCertified | src/consensus.cpp:109-114 | a committed block is certified |
| Safety.CommitOfIsCommitted | src/consensus.cpp:98-114 | a delivered block whose certificate closes a direct chain commits the chain's bottom |
| Invariance.NextBase | src/consensus.cpp:59-249 | every step of an honest or faulty replica, whatever certificates name, keeps: votes in order of height, locks that never drop, certified locks and references, quorums of voters not yet locked on the block, and that every signature in a certificate an honest replica holds was made |
| Invariance.NextInv | src/consensus.cpp:59-249 | every step into a state whose delivered certificates name ancestors keeps the full invariant |
| Invariance.HonestStep | src/consensus.cpp:59-249 | every step of an honest replica, "safety breached" or not, learns and signs only what the signatures bear out |
| Invariance.RunBase | src/consensus.cpp:33-249 | the first invariant holds in every state of every run |
| Invariance.ReachableInv | src/consensus.cpp:33-249 | the full invariant holds in every reachable state whose delivered certificates name ancestors |
| Invariance.ReceiveProposalSound | src/consensus.cpp:184-222 | processing a proposal, with or without a vote, learns only certified and committed blocks and votes only as the rule allows |
| Invariance.ProposeSound | src/consensus.cpp:154-182 | so does an own proposal on the parents the pacemaker selects |
| Invariance.ReceiveVoteSound | src/consensus.cpp:224-249 | so does counting a vote: a completed certificate consists of signatures of a majority |
| Invariance.DeliverSound | src/consensus.cpp:59-84 | so does delivering a verified block, on or off the branch of its certificate, whether or not its certified block is delivered |
| Invariance.MoveKeepsEarly | src/consensus.cpp:117-121 | every certificate is completed by voters not yet locked on its block |
| Invariance.MoveKeepsHistory | src/consensus.cpp:194-211 | an honest replica signs at most one block per height and never with a lower lock than before |
| Liveness.AcceptingProposalExists | src/consensus.cpp:193-213 | three-step build: in every reachable state whose delivered certificates name ancestors some honest member of any majority has the highest `hqc` of its honest members, and it can extend that `hqc`, with the certificate it holds, by deliverable blocks so that every honest replica accepts the last one, if and only if that certificate is genesis or has `nmajority` signatures |
| Liveness.HighestProposes | src/consensus.cpp:193-213 | the same for every honest member whose `hqc` is highest |
| Liveness.OwnProposalVerifies | src/consensus.cpp:154-171 | in every state of every run, whatever certificates name: what an honest replica proposes on the parents of its pacemaker verifies if and only if its `hqc` is genesis or the certificate it holds has `nmajority` signatures |
| Liveness.PresentableVerifies | src/consensus.cpp:86-92 | in the same states the certificate an honest replica holds for its `hqc` verifies under that condition only |
| Liveness.ProposalAccepted | src/consensus.cpp:193-213 | every proposal on that branch, with that certificate and above a replica's `vheight`, passes its voting rule once its ancestors are delivered |
| Liveness.AcceptedIffLockLow | src/consensus.cpp:194-211 | either build, same states: a replica accepts, once its ancestors are delivered, every new proposal that another honest replica can build on its `hqc` by deliverable blocks with the certificate it holds, if and only if its lock is not higher than that `hqc` or, the certificate being incomplete, there is none |
| Liveness.AcceptableIffLocksOnOneBranch | src/consensus.cpp:194-211 | either build, same states: some such proposal is accepted by all of a given set of honest replicas if and only if the certificate is complete and their locks above that `hqc` lie on one branch that can be delivered from it |
| Liveness.MajoritySeesLock | src/consensus.cpp:104-107 | three-step build: among any majority some honest replica has an `hqc` at least as high as a given honest lock |
| Continuation.CanDecide | src/consensus.cpp:94-222 | either build: from every reachable state whose delivered certificates name ancestors, in which some proposal of an honest replica suits all honest ones, everything that replica has delivered verifies and nobody is told not to vote, steps of honest replicas lead to a state in which all of them have decided any given commands, in a block above all they had voted for |
| Continuation.HighestCanDecide | src/consensus.cpp:94-222 | three-step build: the same if the honest member of a majority with the highest `hqc` holds a complete certificate for it |
| Continuation.AgreedLocksCanDecide | src/consensus.cpp:94-222 | either build: the same for any honest replica with a complete certificate, if the honest locks above its `hqc` lie on one branch that can be delivered |
| Continuation.DeliverWithAncestors | src/hotstuff.cpp:168-200 | a block whose ancestors all verify can be delivered by any honest replica, together with them |
| Limits.TwoStepCanBlock | src/consensus.cpp:115-121 | two-step build: a reachable state in which every block with a certificate no higher than the highest `hqc` of a majority, on whatever branch, is rejected by an honest replica, whatever else that replica delivers |
| Limits.TwoLocks | src/consensus.cpp:117-121 | the run that leads there: two honest replicas locked on different branches |
| Limits.RestartLosesVotes | src/consensus.cpp:161-169 | a run, in either build, in which the certificate of an own proposal is completed with too few signatures, so that no block carrying it can be delivered, whatever is signed later |
| Runs.HighTailExists | include/hotstuff/liveness.h:74-82 | the scan of the tails always has a result |
| Local.ReceiveKeeps | src/consensus.cpp:184-222 | a proposal keeps `b_exec <= b_lock <= hqc` in height, `vheight` above a lock other than genesis, tails equal to leaves, and the cache on the branch of `hqc` |
| Local.ProposeKeeps | src/consensus.cpp:154-182 | an own proposal keeps the same |
| Local.VoteKeeps | src/consensus.cpp:224-249 | a vote keeps the same |
| Local.DeliverKeeps | src/consensus.cpp:59-84 | a delivery keeps the same |
| Local.DeliverKeepsTree | src/consensus.cpp:66-81 | after a delivery on the branch of its certificate every delivered block has its parents delivered and the block of its certificate as an ancestor |
| Local.DeliverKeepsTails | src/consensus.cpp:66-81 | after any delivery `tails` is again exactly the set of leaves of the delivered tree, which stays closed under parents |
| Local.UpdateKeepsOrder | src/consensus.cpp:94-151 | `update` keeps the order of the three blocks, and a new lock or `hqc` lies strictly below the processed block, on its branch |
| Local.ProcessOrder | src/consensus.cpp:94-151 | whatever certificates name, `update` keeps `b_exec` at most as high as `b_lock` and `hqc`, throwing or not |
| Local.ReceiveLoose | src/consensus.cpp:184-222 | whatever certificates name, a proposal keeps that order, tails equal to leaves, and the cache on the branch of `hqc` |
| Local.ProposeLoose | src/consensus.cpp:154-182 | an own proposal on that branch keeps the same |
| Local.VoteLoose | src/consensus.cpp:224-249 | a vote keeps the same |
| Progress.UpdateLearns | src/consensus.cpp:86-152 | `update(b)` leaves `hqc` and `b_lock` at least as high as the delivered blocks `b` certifies and locks, changed only for those and with their certificate; if `b` certifies the top of a chain of direct parents whose bottom is on one branch with `b_exec`, the bottom is executed, else nothing is |
| Progress.BreachMeans | src/consensus.cpp:129-140 | the throw is due if and only if the bottom of such a chain is not on one branch with `b_exec` |
| Progress.ReceiveHeard | src/consensus.cpp:184-222 | a received proposal is learned from; it is voted for if and only if it is above `vheight`, on the branch of the lock or certifying a block above it, and voting is not disabled; and the cache is at least as high as the proposal if that follows `hqc`, never lower than before unless `hqc` changed, and then at least as high as every tail that follows it |
| Progress.VoterCanPropose | include/hotstuff/liveness.h:91-99 | after a vote for a block that follows `hqc`, the next own proposal is above `vheight` |
| Progress.NewBlockHolds | src/consensus.cpp:160-168 | a new block has exactly the given parents, commands and extra bytes, is one higher than its first parent, and carries the certificate of `hqc` |
| Progress.ProposeSent | src/consensus.cpp:154-182 | an own proposal is delivered with an empty certificate, learned from, judged by the same rule and becomes the next parent |
| Progress.VoteCounted | src/consensus.cpp:224-249 | a vote that is neither late nor second is added to the voters and to the certificate of its block and to nothing else; the one that fills the quorum makes a higher block the `hqc`, with the certificate that contains it |
| Local.OwnProposalQcOnBranch | include/hotstuff/liveness.h:110-128 | every block proposed through `get_parents` has the block of its certificate as a proper ancestor |
| Local.TailAbove | src/consensus.cpp:78-79 | with single parents, a tail follows every delivered block |
| Local.HighTailIsHighest | include/hotstuff/liveness.h:74-82 | with single parents, scanning the tails finds a block as high as searching all delivered descendants of `hqc` |
| Local.RefDelivered | src/consensus.cpp:70-76 | what a delivered block refers to is delivered, lower and on its branch |
| Local.ChainSeen | src/consensus.cpp:98-114 | whatever certificates name, a chain of direct parents with a delivered top is delivered, so `update` follows it to its bottom even where other references are not delivered |
| Quorum.MajoritiesIntersect | src/hotstuff.cpp:435-439 | any two majorities share more than `nfaulty` replicas |
| Quorum.HonestInIntersection | src/consensus.cpp:251-252 | hence an honest one |
| Quorum.MaxFaultyIsLargest | src/hotstuff.cpp:435-439 | `nfaulty` is the largest `f` with `n >= 3 * f + 1` |
| Quorum.MajorityLeft | src/consensus.cpp:251-252 | the replicas other than those missing are a majority if and only if at most `nfaulty` are missing |
| Blocks.WalkDecidesExtends | include/hotstuff/liveness.h:66-72 | the walk bounded by height ends at `a` if and only if the block is `a` or a descendant |
| Blocks.WalkDownIsAncestor | src/consensus.cpp:133-136 | the walk meets a block of every height on the way down, so heights have no gaps |
| Blocks.AncestorsComparable | src/consensus.cpp:68 | two ancestors of a block lie on one branch |
| Core.HotStuffCore.constructor | src/consensus.cpp:33-45 | construction, `add_replica` and `on_init` give the initial state |
| Core.HotStuffCore.OnDeliverBlk | src/consensus.cpp:59-84 | delivers a block exactly when it is new, all its parents are delivered and the block of its certificate is fetched, with the exceptions otherwise; tails, links and `qc_ref` become those of the grown tree; each invariant of the class is kept, the one that needs it if the block is on the branch of its certificate |
| Core.HotStuffCore.LookUpParents | src/consensus.cpp:65-67 | the parent pointers, unless some parent is not delivered |
| Core.HotStuffCore.UpdateHqc | src/consensus.cpp:86-92 | `hqc` becomes the higher of the two, with its certificate, and the cache is rescanned exactly then |
| Core.HotStuffCore.Update | src/consensus.cpp:94-152 | with all early returns, `update` gives the `hqc`, `b_lock`, `b_exec` and decisions of the version without them, and breaches exactly if the block to commit conflicts with `b_exec` and no reference on the way to it was cleared; what a processed block commits, unless it conflicts, is in the log with its whole branch, after any number of earlier commits |
| Core.HotStuffCore.UpdateThreeStep | src/consensus.cpp:97-114 | the three-step arm, field by field |
| Core.HotStuffCore.UpdateTwoStep | src/consensus.cpp:116-128 | the two-step arm, field by field |
| Core.HotStuffCore.CollectCommits | src/consensus.cpp:131-136 | the queue is the path from the block down to where the walk stops |
| Core.HotStuffCore.ExecuteCommits | src/consensus.cpp:141-150 | replaying it in reverse decides exactly the ancestors of the block and logs exactly the commands of its branch, oldest first |
| Core.HotStuffCore.DecideBlock | src/consensus.cpp:144-149 | one `do_decide` per command, in order |
| Core.HotStuffCore.Commit | src/consensus.cpp:130-151 | either the log and the decided set become those of the committed block, or nothing changes and a breach is reported |
| Core.HotStuffCore.FollowsLock | src/consensus.cpp:203-207 | the walk decides whether the proposal extends the lock |
| Core.HotStuffCore.FormOpinion | src/consensus.cpp:193-213 | the opinion is "above `vheight`, and a certificate above the lock or a branch through it", and `vheight` moves only with it |
| Core.HotStuffCore.OnReceiveProposal | src/consensus.cpp:184-222 | the handler is a step of the algorithm, a breach, or a rejection of an undelivered block, each exactly when it should be; it achieves what `Progress.ReceiveHeard` says, logs what the proposal commits, and throws only for a conflicting commit and always then if nothing was pruned; for replicas that have seen only certificates naming ancestors, and without pruning for every two-step replica and every one that has executed nothing |
| Core.HotStuffCore.OnPropose | src/consensus.cpp:154-182 | the handler, with its three exceptions, each exactly when it should be, on any delivered parents, for the same replicas; the block has exactly the given parents, commands and extra bytes, is one higher than its first parent and carries the certificate of `hqc` |
| Core.HotStuffCore.Beat | src/hotstuff.cpp:466-469 | proposing on the parents of the pacemaker keeps the invariants of the class; the block has exactly the given commands |
| Core.HotStuffCore.OnReceiveVote | src/consensus.cpp:224-249 | counts a vote unless it is a duplicate or late, and forms a certificate exactly at the majority, with the vote that completes it; without pruning whatever certificates name |
| Core.HotStuffCore.AddVote | src/consensus.cpp:229-242 | `voted` and `self_qc` after one vote |
| Core.HotStuffCore.Prune | src/consensus.cpp:260-281 | terminates, clears exactly the links reachable from the ancestor of `b_exec` at the given depth, leaves the protocol state alone, keeps every link of a descendant of `b_exec`, and keeps every link above `b_lock` if and only if it reaches no block above `b_lock` |
| Core.HotStuffCore.FindPruneStart | src/consensus.cpp:263-264 | the ancestor exactly `staleness` below `b_exec`, unless the links end above it |
| Core.RootedPrepared | src/consensus.cpp:99-111 | while certificates name ancestors, what an early return skips is too low to replace `hqc`, `b_lock` or `b_exec`, even where `prune` has cleared references |
| Core.UnprunedPrepared | src/consensus.cpp:99-111 | without pruning, early returns lose nothing in the two-step build, nor in a replica that has executed nothing, whatever certificates name |
| Core.DecidedNoThrow | src/consensus.cpp:101-111 | what a decided block would commit is decided |
| Core.UndecidedWalk | src/consensus.cpp:133-137 | from an undecided block the walk finds `b_exec` if and only if both lie on one branch, and then the block is higher |
| Core.AboveLockIntact | src/consensus.cpp:203-207 | what the handlers keep leaves every link above `b_lock` in place |
| Core.CommitWalkSafe | src/consensus.cpp:131-136 | the commit walk of a block that follows `b_exec` meets no cleared block above it |
| Core.PruneKeepsLinked | src/consensus.cpp:266-281 | the links the handlers rely on, and those above `b_lock`, are kept if and only if no block above `b_lock` can be reached from the start; those of the descendants of `b_exec` are always kept |
| Core.SingleParentPrunesBelow | src/consensus.cpp:260-281 | none can when blocks have one parent each |
| Links.NoDescendantReached | src/consensus.cpp:266-281 | no descendant of a block is reached from an ancestor of it, through first parents or uncles |
| BlockedWalks.VoteWalkBlockedIff | src/consensus.cpp:194-211 | after `prune` some proposal that can be delivered, is new enough and does not outweigh the lock has a vote walk that meets a block without parents above `b_lock`, if and only if a block above `b_lock` was reached |
| TallUncle.PruneBreaksVoteWalk | src/consensus.cpp:204-206 | handler calls that execute a block with a taller uncle and prune, after which the vote walk from a delivered proposal meets a block above the lock without parents |
| Pruning.ClearLinks | src/consensus.cpp:265-281 | the walk with its explicit stack clears the links of exactly the reachable blocks |
| Pruning.ClearedBelow | src/consensus.cpp:268-281 | nothing reachable from a cleared block keeps a link |
| Pruning.LinkSetShrinks | src/consensus.cpp:278-279 | each push removes a link, so the walk terminates |
| PaceMaker.PMHighTail.CheckAncestry | include/hotstuff/liveness.h:66-72 | true exactly for the block itself and its descendants |
| PaceMaker.PMHighTail.OnHqcUpdate | include/hotstuff/liveness.h:74-82 | the cache becomes a highest tail that follows `hqc`, in whatever order the tails are visited |
| PaceMaker.PMHighTail.OnReceiveProposal | include/hotstuff/liveness.h:91-99 | the cache moves to a received block exactly if it follows `hqc` and is higher |
| Node.Start | src/consensus.cpp:33-45 | a new replica is in its initial state in the system, and its object is fit for every handler |
| Node.Deliver | src/hotstuff.cpp:100-143 | the call is a step of the system whatever the certificate names, and keeps the full invariant if the block is on the branch of its certificate |
| Node.ReceiveProposal | src/hotstuff.cpp:202-219 | so is this one, whatever certificates name in the two-step build and for replicas that have executed nothing; it never throws "safety breached" |
| Node.Propose | src/hotstuff.cpp:466-469 | so is this one, under the same condition; the block refers to a certified proper ancestor |
| Node.AssuredNoBreach | src/consensus.cpp:137-140 | in every state that a run can reach, in the two-step build, while certificates name ancestors, or if the replica has executed nothing, neither a delivered block nor an own one is a breach |
| Node.ReceiveVote | src/hotstuff.cpp:221-236 | so is this one, whatever certificates name; a formed certificate certifies its block |
| Node.SetVoteDisabled | include/hotstuff/consensus.h:167 | so is this one |
| Node.Prune | src/consensus.cpp:260-281 | the system does not see this one: the object stays the same replica if and only if no block above `b_lock` is reached |
| Node.CommitWalkFindsExec | src/consensus.cpp:109-140 | in every reachable state, under the condition of agreement, when the test for direct parents passes with an undecided block, that block is above `b_exec` and the walk stops exactly at `b_exec` |
| Node.LogsAgree | src/consensus.cpp:141-150 | the logs of two replica objects of a reachable system are prefixes of one another, without any condition in the two-step build and while delivered certificates name ancestors in the three-step build |
| Aggregation.CertificateFormsOnce | src/consensus.cpp:229-248 | over any run of votes and proposals a block gets at most one certificate |
| Aggregation.CertificateFormsIff | src/consensus.cpp:229-248 | it gets one if and only if a majority of distinct replicas vote for it |
| Aggregation.CertificateIsComplete | src/consensus.cpp:236-246 | it carries exactly `nmajority` distinct voters if and only if the block was not proposed again after its first vote |
| Certificates.CompletedCertificate | src/consensus.cpp:224-249 | in every run: the vote that completes the certificate of a block above `hqc` makes that block the `hqc` with the signatures counted since its last proposal, that vote included; they are `nmajority`, so that what the replica then proposes on it verifies, if and only if it had not proposed the block again after counting a vote for it |
| QuorumCerts.QuorumCert.AddPart | include/hotstuff/crypto.h:396-402 | adds the signature of a new replica, keeps one that is there, refuses a part for another hash; signatures stay those of the set bits |
| QuorumCerts.QuorumCert.Verify | src/crypto.cpp:31-44 | true if and only if at least `nmajority` signatures are there and all verify under configured keys; the exception for an unknown replica comes if and only if one is reached with all signatures before it verified |
| QuorumCerts.QuorumCert.VerifyPooled | src/crypto.cpp:46-64 | the pooled form accepts the same certificates |
| QuorumCerts.VerifiedIsCertified | src/crypto.cpp:31-44 | a certificate that verifies holds signatures on its hash of at least a majority of distinct configured replicas, so its block is certified |
| QuorumCerts.DecodedIsCertified | include/hotstuff/crypto.h:421-425 | the same for a certificate read from any bytes |
| QuorumCerts.QuorumCert.Read | include/hotstuff/crypto.h:421-425 | a decoded certificate is one whose signatures are those of its set bits |
| QuorumCerts.CertifyAndVerify | include/hotstuff/crypto.h:396-402 | a certificate filled with valid signatures verifies if and only if they come from a majority of distinct replicas |
| Delivery.HotStuffBase.AsyncDeliver | src/hotstuff.cpp:168-200 | requesting a block keeps the waiting maps consistent and delivers nothing by itself |
| Delivery.HotStuffBase.Start | src/hotstuff.cpp:180-198 | once a block is fetched its certified block is fetched and all its parents are requested |
| Delivery.HotStuffBase.OnFetchBlk | src/hotstuff.cpp:83-98 | an arriving block ends its fetch: if it waits for delivery it is started, and nothing waits for it as a certified block any more; delivered blocks only grow in number, each delivered once, after its parents |
| Delivery.HotStuffBase.OnVerified | src/hotstuff.cpp:193-197 | so does a finished verification |
| Delivery.HotStuffBase.Settle | src/hotstuff.cpp:100-143 | all deliveries that can complete do, in any order |
| Delivery.DeliveredIsJustified | src/hotstuff.cpp:180-198 | a delivered block has delivered parents, a verified certificate and a fetched certified block |
| Delivery.DeliveredIffSupplied | src/hotstuff.cpp:168-200 | a requested block is delivered if and only if every ancestor but genesis has been fetched for delivery, has verified and has its certified block fetched |
| Delivery.HotStuffBase.Request | src/hotstuff.cpp:168-200 | a requested block waits for its delivery or is delivered, and stays so |
| Delivery.DeliveredWhenAnswered | src/hotstuff.cpp:168-200 | a requested block is delivered if no fetch of it, its ancestors or their certified blocks is outstanding and every check that was started has passed |
| Delivery.RequestIsServed | src/hotstuff.cpp:83-200 | over any sequence of requests, arrivals and finished checks: a requested block is delivered once it, its ancestors and their certified blocks have come and their certificates have passed, in whatever order |
| DeliveryCalls.Replay | src/hotstuff.cpp:100-143 | the blocks delivered asynchronously, handed to `on_deliver_blk` of the core in that order, are all delivered there, each call succeeding unless the replica had proposed the block itself |
| DeliveryCalls.DeliveredVerifies | src/hotstuff.cpp:180-198 | if successful checks mean certificates that verify, every delivered block meets the conditions of a delivery step of the system, and its certified block is fetched |
| Promises.All.constructor | include/hotstuff/promise.hpp:602-624 | `all` on a non-empty list, with members in any states, settles as it should at once |
| Promises.All.Register | include/hotstuff/promise.hpp:489-520 | registering with one more member keeps the count, the results and the callbacks right |
| Promises.All.Resolve | include/hotstuff/promise.hpp:585-591 | fulfilling a member, even one listed twice, keeps: fulfilled if and only if all are, with the value of member `i` at position `i`; a settled outcome never changes |
| Promises.All.Reject | include/hotstuff/promise.hpp:593-599 | rejecting a listed member rejects the pending combined promise at once, with its reason |
| Promises.SettledCombines | include/hotstuff/promise.hpp:611-616 | the counter, results and flags mean that the combined promise fulfils if and only if all members have, and rejects if and only if one has |
| Codec.BlockRoundTrip | src/entity.cpp:22-57 | reading back a written block returns it and leaves the following bytes unread, if and only if its counts fit 32 bits |
| Codec.EncodingIdentifiesBlock | src/entity.cpp:22-30 | two different blocks with all counts below 2^32 have different encodings, whatever bytes follow |
| Codec.LongExtraIsAmbiguous | src/entity.cpp:29 | with 2^32 extra bytes the encoding is that of another block with bytes following |
| Codec.DecodedQcSynced | include/hotstuff/crypto.h:421-425 | a certificate read from any bytes has a signature exactly at each set bit |
| Codec.QcRoundTrip | include/hotstuff/crypto.h:415-425 | reading back a written certificate returns it and leaves the following bytes unread |
| Codec.SigsRoundTrip | include/hotstuff/crypto.h:417-424 | the signatures of the set bits are read back for the same bits |
| Codec.ProposalRoundTrip | include/hotstuff/consensus.h:186-197 | the same for a proposal message |
| Codec.BlocksRoundTrip | src/hotstuff.cpp:62-75 | a list of blocks is read back, with the following bytes unread, if and only if the counts of every block fit |
| Codec.ResponseRoundTrip | src/hotstuff.cpp:60-76 | a block response is read back if and only if its own count and those of its blocks fit |
| Codec.ListRoundTrip | src/hotstuff.cpp:51-57 | the same for a counted list of hashes, as in a block request and inside a block |
| Codec.ListTooLong | src/entity.cpp:23-25 | a list of 2^32 hashes or more is never read back |
| Codec.U32RoundTrip | src/entity.cpp:33-35 | a written count is read back modulo 2^32 |
| Codec.U32Bytes | src/entity.cpp:23-29 | a count is written in four bytes, the lowest first |
| Codec.BlockBytes | src/entity.cpp:22-30 | where a block has its counts, each parent hash, each command and the extra bytes |
| Codec.DataStream.Serialize | src/entity.cpp:22-30 | the code appends exactly the encoding |
| Codec.DataStream.Unserialize | src/entity.cpp:32-57 | the code consumes and returns exactly what the decoder does |
| Codec.DataStream.PutCertificate | include/hotstuff/crypto.h:415-419 | the code appends exactly the encoding of the certificate |
| Codec.DataStream.TakeCertificate | include/hotstuff/crypto.h:421-425 | the code consumes and returns exactly what the decoder does |

## Left out

- Networking, TLS, timers, threads and queues (salticidae, `VeriPool`, fetch timeouts, `cmd_pending`): message arrival is a nondeterministic step.
- secp256k1, OpenSSL and SHA256: what verifies and what parses are parameters; the bit set of salticidae is assumed to have a self-delimiting codec.
- `PMRoundRobinProposer` and `PMWaitQC`: liveness by wall-clock timeouts.
- Exactly-once execution of commands: `do_decide` does not remove duplicates (`src/hotstuff.cpp:403-412`), so the log is a property of blocks.
- Storage release by reference count and refetching of released blocks: only the link clearing of `prune` is modelled.
- Committing uncles, which the code leaves as a TODO. Blocks may have uncles here, and they must be delivered first.
- Restart and persistence, which the code does not have.
- Proposals made from inside a handler.
- 32-bit overflow of heights.
- Delivery of a block with an empty parent list or without a certificate, on which the code has undefined behaviour or an assertion.
- The codecs of votes, finality records and the dummy certificates.
- The `promise_t` that `then` returns, `fail`, `race` and the build with `CPPROMISE_USE_STACK_FREE`.
- Block objects: a block is a value and its mutable fields are maps of the replica, so aliasing of block pointers is not modelled; in `Core` a certificate is the set of its signers, and in `Delivery` the waiting maps are one record field.
- Core.HotStuffCore.OnDeliverBlk: what the code has already changed in an undelivered block when it throws is not modelled; a later delivery overwrites it.
- Node.ReceiveProposal: in the three-step build, once a certificate off its branch is delivered and a block is executed, the handler is not shown to be a step; nor is it in either build once links have been pruned in such a system.
- Node.Propose: as `Node.ReceiveProposal`.
- Core.HotStuffCore.OnReceiveProposal: as `Node.ReceiveProposal`.
- Core.HotStuffCore.OnPropose: parents that are not delivered, which no pacemaker selects; in the states named for `Node.ReceiveProposal`.
- Codec.ProposalRoundTrip: the proposer is taken to fit its 16-bit type.
- Codec.EncodingIdentifiesBlock: needs all counts below 2^32, as `Codec.LongExtraIsAmbiguous` shows.
- Promises.All.constructor: the empty list, on which `all` throws, is excluded.
- Own proposals in `Delivery`: `on_propose` delivers them directly, past the waiting maps.
