# The cluster's secret rotations, modelled in Dafny

A cluster of managers and agents changes its secrets while it runs: each agent's own key, the
cluster CA, the managers' internal proxy secret and the JWT key. All four live in one replicated map
of keys, read by managers that lag and restart, and two of them reach agents that read nothing of it.
Everybody must take a new secret before anybody signs with it, and nobody may drop the old one while
it can still arrive. This project models the four protocols, what they rest on and what consumes
them, and proves that over every run.

`dafny verify dfyconfig.toml` checks everything.

## How the model is built

Three layers. The parts that update state in place are classes — the agent's key store, the leaders'
managers, a manager's CA files and proxy floor, the nonce cache, the tracked connections, the
replicated state machine — each method proved against functions of the state before it, for every
point at which one of its writes may fail or the process stop between two (`budget` is how many
writes still land; elsewhere a flag says of each write whether it succeeds). Those
functions are the steps of one state machine per protocol (`AgentKeyProtocol`, `CAWorld`,
`ProxyWorld`, `JwtKeys`, `ConnTrust`), where every participant moves in any order. The theorems are
over all runs of those machines, by invariants that every step keeps.

- Agent keys: `AgentKeyStore` (two files and a boot), `AgentKeyLeader`, `AgentKeyLink` (the agent's
  driver), `AgentKeyProtocol` (crashes, lost answers, late and repeated requests, new rotations,
  removals), `AgentKeyTheorems`, `AgentKeyRetry` (retries by hints had before), `AgentKeyGrace` (how
  long a key left is still needed).
- CA: `CARecord` (record, material, decision), `CALeader` (ordered writes), `CANodes` (a manager),
  `CAAgent` (hints and renewals), `CAWorld`, `CATrust` (the invariant), `CATheorems`, `CADrop` (the
  way back), `CAEnds` (phases, retirement, progress), `CATimes` (what each operation does, by the
  members' word and the clock, and what it leaves), `CAClocks` (leaders' own clocks), `CALate` (writes
  that land late), `CALateTrust` and `CALateHarm` (the same runs with the members). A CA is its pin; a
  certificate slot and a key slot name a CA when both hold its pin; a certificate verifies when its
  issuer is in the trust list.
- Proxy secret: `ProxyKeys`, `ProxyWorld` (lag, clock skew, headers), `ProxyHistory`, `ProxyTheorems`,
  `ProxyEvidence` (the leader's picture), `ProxyBound` and `ProxyGrace` (how long a grace must be),
  `ProxyManager` (floors), `ProxyLeader`, `ProxyAuth` (nonce cache).
- JWT key: `JwtKeys`. Around them: `ConnTrust`, `Reach`, `Targets`, `Fsm`.

Nine results say the code does less than its documentation or comments promise, each with the exact
condition:

- On the way back a manager that has applied neither the reissue nor the rollback shows the old CA
  and counts for the drop. Dropping is safe exactly when every manager has applied the rollback
  (`CADrop.DropSafeIff`), and the leader's rule does drop earlier (`CADrop.LeaderDropsTooEarly`).
- The rule that counts an agent once heard since the rollback compares times of two leaders' clocks.
  It holds exactly when those are no further apart than a change of leader takes
  (`CAClocks.BackAtDropIff`).
- A CA operation's writes that land after other leaders have written keep nodes' material exactly when
  each changes no slot the record it finds reads, or brings a record whose CAs are there
  (`CALate.MaterialSurvivesIff`); a late delete that does not, in a run from a cluster's first rotation,
  is `CALate.LateDeleteHurts`. Every state then has something for every member at its floor exactly when,
  besides, each late record is newer than the one it finds (`CALate.MembersServedIff`); one that is not,
  with all its CAs there, is `CALate.LateRecordFalls`.
- Over such runs with all the members, rotations go one after another exactly when late records are newer
  than those they find (`CALateTrust.RotationsAreWholeIff`). Every certificate stays trusted exactly when,
  besides, no rollback lands after a heartbeat later than the time it was decided
  (`CALateHarm.TrustedLateIff`): the leader counts whoever was heard since that time.
- A confirm another leader handles between a removal's two deletes puts the agent's key back, and the
  second delete leaves it: the node goes and its key stays (`AgentKeyTheorems.LateDropLeavesKey`). The
  lock the two deletes are under is one leader's own.
- A leader's second confirm write that lands after other leaders have led may leave an agent's record
  behind its pending key. An undisturbed retry ends the rotation exactly when the record is of the
  pending generation, and either switched or naming the key the agent holds — or, where a removal was cut
  after its first delete and the managers have no key to sign with, naming the pending key
  (`AgentKeyTheorems.RecoversIffOnTrack`). Two reachable states fail it, one by each half
  (`LateWriteStrands`, `RefetchStrands`). The next rotation mends it exactly while the managers have a key
  of the agent's, and they never sign with one it lacks.
- An agent remembers one key it left. Every header a lagging manager signs is taken exactly when the lag,
  how far the two clocks are apart and a header's 30 seconds are within the two-minute grace and within
  the time from each confirm to the switch away from its key, and the agent does not restart
  (`AgentKeyGrace.KeyLeftIff`).
- The first proxy switch is timed in whole seconds, so the lag, skew and header life it tolerates is
  999 milliseconds short of the two-minute grace, exactly (`ProxyBound.BoundIsExact`).
- A manager whose certificate was written and then not loaded presents after a restart what it had written,
  and an apply that finds it presenting the right one already leaves that so
  (`CANodes.RestartPresentsIff`); with no such write failed, any number of cut applies are CAWorld's steps
  (`CANodes.ApplyIsSteps`).

`AgentKeyStore.TakeSurvivesBoot` has an exact condition too, which no run fails: a key taken that equals
`agent.key` would read, after a boot, as a switch cut half way, and keys made are new.

## Assumptions

- Replicated state is one log. A leader that has caught up reads all of it; its writes land in order
  or not at all. One proxy or JWT operation's writes have no other leader's between them. Nor do a CA
  operation's in `CAWorld`, nor a heartbeat between its reading of the clock and its record; `CALate`,
  `CALateTrust` and `CALateHarm` say what follows when they do. An agent key confirm's second write and
  a removal's second delete may land later.
- File replacements and floor writes are atomic, and a floor write that fails stops the process. A floor
  is recorded before the node's next heartbeat, and before the leader counts itself: its own trust and
  certificate, which it reads as they are, are those its tick has just applied and recorded. Files are
  readable. Managers have a data directory.
- One agent's sender makes one call at a time, so an agent sends no heartbeat during a renewal of its
  own, and an agent's messages, heartbeats and renewals alike, are handled in the order sent: a heartbeat
  is heard before the agent's next step. A manager's heartbeats may arrive late and again.
- Keys, CAs and nonces made are new. HMACs are injective terms. One header is made for one nonce.
- Members stay the same during a CA or proxy rotation. Leaders' readings of their clocks never go back
  in `CAWorld`, as they do not when the clocks are no further apart than a change of leader takes
  (`CAClocks.TimedIsRun`). In the proxy secret's model each reading of a clock is at most `skew` ahead
  of the slowest, and every manager goes by a state within `lag`; in `AgentKeyGrace` a manager's clock
  is at most `skew` from the agent's. A nonce check reads its clock once, and that never goes back.

## Model

| member | source | states |
|---|---|---|
| AgentKeyStore.TakeSurvivesBoot | internal/cluster/agent_keys.go:150-168 | after a take a boot has the taken key beside agent.key, if and only if it is another key |
| AgentKeyStore.SwitchSurvivesBoot | internal/cluster/agent_keys.go:170-196 | whichever of a switch's two file writes was the last, a boot has the keys of the whole switch |
| AgentKeyStore.AcceptList | internal/cluster/agent_keys.go:94-121 | the accepted keys are agent.key first, the pending one, and the one left only within its grace |
| AgentKeyStore.AgentKeys.LoadAgentKeys | internal/cluster/agent_keys.go:55-92 | a load makes the boot's keys, finishes a cut switch on disk, and loading again changes nothing |
| AgentKeyStore.AgentKeys.Install | internal/cluster/agent_keys.go:94-121 | the process signs with agent.key and accepts exactly AcceptList, skipping an install that is no news |
| AgentKeyStore.AgentKeys.Take | internal/cluster/agent_keys.go:144-168 | a key is on disk before it is accepted, and a refused or failed take changes nothing |
| AgentKeyStore.AgentKeys.Switch | internal/cluster/agent_keys.go:170-196 | a first write that fails changes nothing; from it on every disk content boots as the whole switch, and the key left stays accepted for its grace |
| AgentKeyLeader.LeaderManager.StartAgentKeyRotation | internal/cluster/agent_key_rotation.go:121-181 | a start is one write, of the next generation alone, and a refused one none |
| AgentKeyLeader.LeaderManager.HandleRotateAgentKey | internal/cluster/agent_key_rotation.go:183-276 | a fetch or confirm makes Handle's writes, key before record, as far as they land, and touches no other agent |
| AgentKeyLeader.LeaderManager.DropKeys | internal/cluster/manager.go:1211-1236 | a removal takes out the signing key and then the issued one |
| AgentKeyLink.RotateKey | internal/cluster/agent_link.go:841-902 | the driver on a real key store and leader ends as RotateAlone says when nothing fails, and loses nothing to a restart when something does |
| AgentKeyLink.AskForKey | internal/cluster/agent_link.go:876-900 | a fetch refused for its proof is asked again with the pending key, to which the agent moves when that one answers |
| AgentKeyLink.AskAgain | internal/cluster/agent_link.go:876-900 | the second fetch answered, the agent is on its pending key before it takes another |
| AgentKeyLink.Confirm | internal/cluster/agent_link.go:841-902 | a confirm answered switches the agent, and one refused changes nothing |
| AgentKeyLink.TakeAndConfirm | internal/cluster/agent_link.go:880-902 | a key issued is taken and then confirmed; a switch reported of a key never taken is refused |
| AgentKeyProtocol.StepKeeps | internal/cluster/agent_key_rotation.go:198-276 | every step — handled late or twice, cut between two writes, a crash between two files — keeps the invariant |
| AgentKeyTheorems.SignedKeyIsHeld | internal/cluster/agent_key_rotation.go:198-276 | in every reachable state the key the managers sign with is on the agent's disk and accepted after a boot |
| AgentKeyTheorems.SigningStays | internal/cluster/agent_key_rotation.go:226-276 | nothing but a removal or promotion leaves the managers without the agent's key |
| AgentKeyTheorems.NeverKeyNotHeld | internal/cluster/agent_link.go:841-902 | an agent that lost no disk never meets the key-not-held error, by hint or by answer |
| AgentKeyTheorems.RecoversIffOnTrack | internal/cluster/agent_link.go:841-902 | from every reachable state an undisturbed rotateKey ends the rotation, if and only if, while the agent holds a key of the generation, the leader's record is of it and has switched or names that key; with the signing key gone and the node still an agent, if and only if the record names the pending key |
| AgentKeyTheorems.RecoversWithoutLateWrites | internal/cluster/agent_key_rotation.go:253-272 | with no second write or delete landing late it always ends it, while the managers have a key to sign with |
| AgentKeyTheorems.NewRotationRecovers | internal/cluster/agent_key_rotation.go:143-181 | after a new start it ends it whatever came before, if and only if the managers have a key to sign with |
| AgentKeyTheorems.LateWriteStrands | internal/cluster/agent_key_rotation.go:253-272 | a reachable state, by a late second write, whose every retry is refused until a new start |
| AgentKeyTheorems.RefetchStrands | internal/cluster/agent_key_rotation.go:226-252 | another reachable state: the record is of the pending generation and names a key the agent never took, and every retry is refused for its proof |
| AgentKeyTheorems.NewKeysAreFresh | internal/cluster/agent_key_rotation.go:240-252 | in every reachable state a new key, or the one issued, is none the driver holds |
| AgentKeyRetry.RecoversByAnyHint | internal/cluster/agent_key_rotation.go:252-259 | the same of a retry by any hint of the rotation a leader ever gave: by one of a switch while there is a signing key, by one from before exactly as by the newest |
| AgentKeyRetry.LostAnswerIsMadeUp | internal/cluster/agent_key_rotation.go:252-259 | a confirm whose answer was lost is made again by the old hint, and ends with the signing key as agent.key and nothing pending |
| AgentKeyRetry.OlderHintIsHarmless | internal/cluster/agent_key_rotation.go:183-226 | a hint of an older rotation changes nothing at the leader, and at the agent at most the switch it names |
| AgentKeyRetry.ProofIsNeeded | internal/cluster/agent_key_rotation.go:226-276 | a key is issued, and a confirm obeyed, only for a proof by the right key, for an agent and the last generation |
| AgentKeyRetry.LostKeyIsTold | internal/cluster/agent_key_rotation.go:226-240 | an agent without the key the managers switched to is told so, by the hint or in the answer to its fetch |
| AgentKeyGrace.KeyLeftIff | internal/cluster/agent_keys.go:170-196 | every header a lagging manager signs is taken, if and only if lag, clock skew and header life are within the grace and the rest between a confirm and the next switch, with no restart |
| AgentKeyGrace.StepKeeps | internal/cluster/agent_keys.go:94-121 | whatever lags, the one key remembered is the one before the agent's own, and those before it are a rest old |
| AgentKeyTheorems.KeysStayOut | internal/cluster/manager.go:1211-1236 | once both deletes of a removal are in, nothing handled later writes a key of the agent's again |
| AgentKeyTheorems.DropLeavesBare | internal/cluster/manager.go:1216-1223 | both deletes leave no key and no record |
| AgentKeyTheorems.LateDropLeavesKey | internal/cluster/manager.go:1211-1223 | a reachable state with both deletes of a removal landed and the node out, whose key is in replicated state: a confirm came between |
| AgentKeyTheorems.ManagerGetsNoKey | internal/cluster/manager.go:919-941 | a promoted agent gets no signing key again, even after the first delete alone |
| CARecord.NextCAStep | internal/cluster/ca_rotation.go:248-320 | the loop decides as the rule does, names exactly those it waits for, and gives a reason only for going back |
| CALeader.CompleteGivesTable | internal/cluster/ca_rotation.go:134-209 | a state that holds its record's CAs gives a node exactly the phase table's signer, ca.crt and trust |
| CALeader.OpKeepsComplete | internal/cluster/ca_rotation_leader.go:105-129 | whichever write of an operation was the last, the state holds all its record names, and the record turns once |
| CALeader.AdvanceKeepsComplete | internal/cluster/ca_rotation_leader.go:149-205 | the same of an advance that first finishes the step before it |
| CALeader.LandedTurns | internal/cluster/ca_rotation_leader.go:149-240 | whatever the slots hold, each state that lands shows the record before or the operation's, and after that one no other |
| CALeader.LateDeleteIff | internal/cluster/ca_rotation_leader.go:345-358 | a delete of an old next CA that lands late leaves nodes their material, if and only if the record no longer reads that slot |
| CALate.WriteKeepsIff | internal/cluster/ca_rotation.go:151-209 | any write on any state, whoever makes it, leaves nodes what the record says, if and only if it changes no slot the record reads or brings one whose CAs are there |
| CALate.OpGives | internal/cluster/ca_rotation_leader.go:48-240 | every operation on time keeps it, however far it comes, even on a state that late writes have made |
| CALate.MaterialSurvivesIff | internal/cluster/ca_rotation.go:134-209 | along every run with rests of operations landing at any later time every state gives the table's material, if and only if each late write leaves that where it lands |
| CALate.MembersServedIff | internal/cluster/ca_apply.go:36-70 | along such runs every state has the table's material for every member that has applied any state before it, if and only if each late write leaves it and no late record is older than, or another of the number of, the one it finds |
| CALate.LateDeleteHurts | internal/cluster/ca_rotation_leader.go:345-358 | a run from a cluster's first rotation in which a late delete leaves a new rotation's record without its CA |
| CALate.LateRecordFalls | internal/cluster/ca_rotation_leader.go:149-205 | a run in which a late done, its CAs all there, takes the record back, and a manager at its floor is due nothing |
| CALeader.LeaderCA.StartCARotation | internal/cluster/ca_rotation_leader.go:48-132 | certificate, key, record in that order behind every gate, as far as they land |
| CALeader.LeaderCA.AdvanceCARotation | internal/cluster/ca_rotation_leader.go:149-205 | finishes a cut step, then takes at most one, with the writes of AdvanceWrites |
| CALeader.LeaderCA.AbortCARotation | internal/cluster/ca_rotation_leader.go:207-240 | a stop writes one record, to drop or rollback, and is refused past promote |
| CALeader.LeaderCA.FinishStep | internal/cluster/ca_rotation_leader.go:149-185 | what a leader that stopped left of a promote is written first, and its failure stops the advance |
| CALeader.LeaderCA.RecordStep | internal/cluster/ca_rotation_leader.go:180-205 | the record, and only after it what its phase leaves for then |
| CALeader.LeaderCA.WriteNextCAAsTheClusters | internal/cluster/ca_rotation_leader.go:323-343 | writes the missing halves of the next CA, and fails when it is nowhere |
| CALeader.LeaderCA.RemoveNextCA | internal/cluster/ca_rotation_leader.go:345-358 | deletes the next CA, its key first |
| CAWorld.LogKeeps | internal/cluster/ca_rotation_leader.go:149-240 | the log's records stay one chain of steps, each state at one of them, whatever part of an operation lands and whatever the slots hold |
| CATrust.StepKeeps | internal/cluster/ca_apply.go:36-119 | every step of leader, manager, agent, heartbeat and clock keeps the invariant |
| CATrust.TrustEvidence | internal/cluster/ca_rotation.go:257-320 | however old the heartbeat, a member counted for the reissue has recorded the trust step |
| CATrust.ReissueEvidence | internal/cluster/ca_rotation.go:257-320 | a member counted for the promote has its certificate from the next CA for good |
| CATrust.RollbackEvidence | internal/cluster/ca_rotation.go:239-246 | an agent heard since the rollback with an old certificate has no renewal from the next CA on its way |
| CATrust.InvGivesCrossTrust | internal/cluster/ca_rotation.go:151-196 | the invariant makes every member's issuer one every member trusts |
| CATheorems.MaterialOnEveryPrefix | internal/cluster/ca_rotation.go:134-209 | from the first record on every state on the log of every run gives exactly the table's material |
| CATheorems.AgentsAreNeverCutOff | internal/cluster/agent_link.go:960-1041 | in every reachable state every member trusts an agent's issuer, forward and back |
| CATheorems.AgentsAreBackAtDrop | internal/cluster/renew.go:76-115 | once drop is recorded every agent's certificate, and any renewal on its way, is the old CA's |
| CATheorems.CertificatesAreTrusted | internal/cluster/ca_apply.go:36-119 | along every run that makes no early drop every member trusts every member's issuer |
| CADrop.DropSafeIff | internal/cluster/ca_rotation.go:239-246 | a drop after a rollback leaves all later certificates trusted, if and only if every manager has applied the rollback |
| CADrop.LeftBehindIsCutOff | internal/cluster/ca_apply.go:36-119 | a manager that had not may still apply the reissue and present what another refuses |
| CADrop.LeaderDropsTooEarly | internal/cluster/ca_rotation.go:257-320 | the leader's own rule takes that drop in a reachable state |
| CAEnds.EveryRotationIsOne | internal/cluster/ca_rotation.go:257-341 | every rotation goes one of three ways, seq rising by one, the next only after a whole one |
| CAEnds.RunGrows | internal/cluster/ca_apply.go:121-179 | no member's recorded step falls in any run |
| CAEnds.PromotedForGood | internal/cluster/ca_apply.go:43-66 | a member past the promote never trusts or signs with the CA it replaced again |
| CAEnds.RetiredForGood | internal/cluster/ca_apply.go:43-66 | once a leader records done no manager ever trusts or presents the old CA again |
| CAEnds.DroppedForGood | internal/cluster/renew.go:76-115 | from the drop on no agent's certificate, nor a renewal on its way, is from the CA given up, in any later run |
| CAEnds.FollowedStepsOn | internal/cluster/ca_rotation.go:248-320 | once all a phase waits for have followed it and been heard the leader takes the next, nearer the end |
| CAEnds.RotationIsShort | internal/cluster/ca_rotation.go:322-341 | each record is nearer the end, so a rotation has at most four after its first |
| CATimes.TurnsBackInTime | internal/cluster/ca_rotation.go:248-320 | in every run trust goes to drop and reissue to rollback by an operator's stop or past the phase's own time, and the record says which; every phase time is five minutes to a day |
| CATimes.AdvanceIs | internal/cluster/ca_rotation.go:248-320 | in every reachable state an advance goes on exactly when every member needed has followed, back exactly when one has not and the phase's time is past, and else leaves the records as they are |
| CATimes.WaitedForIs | internal/cluster/ca_rotation.go:285-315 | those named as waited for are the members needed that have not followed |
| CATimes.StartIs | internal/cluster/ca_rotation_leader.go:48-132 | in every reachable state a start records exactly when its gates are met, and what it records |
| CATimes.StopIs | internal/cluster/ca_rotation_leader.go:207-240 | in every reachable state an operator's stop turns trust to drop and reissue to rollback and changes no other record |
| CATimes.StopAnswerIs | internal/cluster/ca_rotation.go:322-341 | what a stop is answered in each phase |
| CATimes.LostCAIsLeft | internal/cluster/ca_rotation_leader.go:323-343 | with the CA of a promote in neither place an advance writes nothing |
| CATimes.CertsComeFirst | internal/cluster/ca_rotation_leader.go:323-358 | in every state of every run a key of the next CA stands beside its certificate, and the cluster's key turns after its certificate |
| CATimes.EndedIsClean | internal/cluster/ca_rotation_leader.go:149-205 | an advance that ends a rotation or finds it ended leaves nothing of the next CA |
| CAClocks.TimedIsRun | internal/cluster/ca_rotation.go:257-320 | with clocks no further apart than a change of leader takes, every run by leaders' own clocks is one of CAWorld's |
| CAClocks.BackAtDropIff | internal/cluster/ca_rotation.go:239-246 | over all such runs every agent is back at the drop, if and only if the clocks are no further apart than that |
| CALateTrust.OpOwes | internal/cluster/ca_rotation_leader.go:149-240 | what an operation cut anywhere leaves to write is a record its members' heartbeats still bear out while none other is written |
| CALateTrust.RotationsAreWholeIff | internal/cluster/ca_rotation.go:257-341 | over every run with rests landing at any later time rotations go one after another, each one of the three ways, if and only if late records are newer than those they find |
| CALateTrust.FairStepKeeps | internal/cluster/ca_rotation_leader.go:149-240 | every step keeps the members' invariant, a record landing late too when it is newer and no rollback is heard past |
| CALateTrust.AgentsAreNeverCutOff | internal/cluster/agent_link.go:960-1041 | over all such runs every member trusts an agent's issuer |
| CALateTrust.AgentsAreBackAtDrop | internal/cluster/renew.go:76-115 | and once drop is recorded every agent, with any renewal on its way, is on the old CA |
| CALateTrust.CertificatesAreTrusted | internal/cluster/ca_apply.go:36-119 | and with no early drop every member trusts every member's issuer |
| CALateHarm.TrustedLateIff | internal/cluster/ca_rotation_leader.go:149-240 | every certificate stays trusted in all such runs, if and only if late records are newer than those they find and none is a rollback heard past |
| CALateHarm.OlderCutsOff | internal/cluster/ca_rotation_leader.go:105-132 | a start's record that lands late over another start's leads a member to refuse its own certificate |
| CALateHarm.HeardCutsOff | internal/cluster/ca_rotation_leader.go:207-240 | an agent heard between a stop's decision and its record counts for the drop with a renewed certificate |
| CANodes.ManagerCA.ApplyClusterCA | internal/cluster/ca_apply.go:28-70 | applies exactly a state not behind the floor that names all its CAs: trust, certificate, floor, as far as they succeed |
| CANodes.ManagerCA.ApplyTrust | internal/cluster/ca_apply.go:72-98 | ca.crt before the key before the pool |
| CANodes.ManagerCA.ApplyCert | internal/cluster/ca_apply.go:99-119 | the certificate moves only when the CA that signs is another, and is then presented |
| CANodes.ManagerCA.CARotationFloor | internal/cluster/ca_apply.go:130-158 | the floor is the file's, read once |
| CANodes.ManagerCA.RaiseCARotationFloor | internal/cluster/ca_apply.go:160-179 | the floor rises only, in memory once the file holds it |
| CANodes.ApplyEndsThere | internal/cluster/ca_apply.go:72-119 | all done, disk and process agree on the material, and applying again does nothing |
| CANodes.ApplyIsInOrder | internal/cluster/ca_apply.go:72-119 | ca.crt, its key, the pool, node.crt, the certificate served and the floor, each at most once and in that order |
| CANodes.ApplyIsSteps | internal/cluster/ca_apply.go:36-119 | wherever an apply stops, after any number cut before it, the process that goes on and a restart of it are states CAWorld's steps lead to, while any certificate presented is the one on disk |
| CANodes.RestartPresentsIff | internal/cluster/ca_apply.go:99-119 | a whole apply leaves a restart that presents what the record says, if and only if a certificate already right in the process is right on disk |
| CAAgent.AgentCA.TakeCAHint | internal/cluster/agent_link.go:994-1041 | a bundle is trusted whole, with the root of this very connection, ca.crt first, or not at all |
| CAAgent.AgentCA.ApplyCAHint | internal/cluster/agent_link.go:943-992 | a hint is taken once, the step never falls, and the newest trusted signer asked for is the one renewed from |
| CAAgent.AgentCA.InstallRenewed | internal/cluster/agent_link.go:1095-1106 | a renewal is installed only from the CA the hint named and the agent trusts |
| CAAgent.HintIsMaterial | internal/cluster/ca_rotation_leader.go:276-295 | the leader's hint is taken with exactly the material's trust, if and only if the connection's root is in it |
| CAAgent.HintNames | internal/cluster/ca_rotation_leader.go:276-295 | a hint names the next CA in reissue, promote and done and the old one in every other phase, and the CAs the phase trusts |
| CAAgent.CheckIs | internal/cluster/agent_link.go:994-1020 | a bundle is taken exactly when it is small, certificates of CAs alone, and holds the connection's CA; lacking only that it is asked for again |
| CAAgent.RenewCertificate | internal/cluster/agent_link.go:1062-1108 | a renewal installs the certificate asked for, or leaves the agent's as it was, exactly as the leader's gates and the record's phase say |
| CAAgent.RenewOnHint | internal/cluster/agent_link.go:960-1041 | on a reissue's or a rollback's hint an agent on the other CA ends on the one the record signs with, if and only if every gate passes |
| CAAgent.TakingIsSteps | internal/cluster/agent_link.go:994-1041 | taking the hint of any state on the log is CAWorld's adopt, then record |
| CAAgent.RenewalDesk.HandleRenewCertificate | internal/cluster/renew.go:45-125 | signs if and only if every gate passes, by the phase's signer, one agent's signatures a minute apart |
| ProxyKeys.InstalledBounds | internal/cluster/proxy_rotation.go:106-121 | a manager accepts what it signs with, at most two secrets, and an older list holds all a newer one would |
| ProxyKeys.NextProxyStep | internal/cluster/proxy_rotation.go:137-175 | switches when every manager takes the generation, names exactly those that do not, and ends after the settle time |
| ProxyEvidence.DecisionIs | internal/cluster/proxy_rotation.go:137-175 | a re-rotation goes to its switch exactly when every manager is online, follows one and says it takes the generation, and to its end exactly five minutes after |
| ProxyEvidence.SwitchIsBorneOut | internal/cluster/proxy_rotation.go:249-330 | in every reachable state a switch decided on a genuine picture is borne out by what each manager said, and every manager takes the new secret for good |
| ProxyEvidence.RotateIsBorneOut | internal/cluster/proxy_secret.go:71-88 | and so is the first switch |
| ProxyEvidence.FinishIsBorneOut | internal/cluster/proxy_rotation.go:160-175 | an end decided is the world's, and leaves the new secret alone |
| ProxyEvidence.StartIs | internal/cluster/proxy_rotation.go:177-240 | a start's gates, and that it changes nobody's signing and adds the new secret to what is taken |
| ProxyKeys.ShouldRotate | internal/cluster/proxy_secret.go:71-88 | rotates if and only if the secret is a minute old and every other member takes it |
| ProxyHistory.HistIsLater | internal/cluster/proxy_rotation.go:75-82 | every state goes on from all before it: secret and time once set stay, records move up |
| ProxyHistory.RecordsAreNewer | internal/cluster/proxy_rotation.go:75-82 | each record written is the one before it or newer than it |
| ProxyHistory.GoneForGood | internal/cluster/proxy_rotation.go:106-121 | a secret no state accepts any more is accepted by none that follows |
| ProxyTheorems.EvidenceTakes | internal/cluster/proxy_rotation.go:249-300 | whatever secret a write makes the managers sign with, each accepts it already and for good |
| ProxyTheorems.StableIsAnInterval | internal/cluster/proxy_secret.go:47-69 | a secret accepted for good at one state and a later one is so at every state between |
| ProxyTheorems.GraceLasts | internal/cluster/proxy_secret.go:35-45 | nothing written ends a grace until the settle time, less the skew, has passed |
| ProxyTheorems.HeadersAreAccepted | internal/auth/proxyauth.go:40-51 | a header any manager signs is accepted by every other for 30 seconds, through every switch, within the grace |
| ProxyTheorems.ManagersMoveOn | internal/cluster/proxy_secret.go:219-250 | no manager goes back to an older state |
| ProxyTheorems.RetiredForGood | internal/cluster/proxy_secret.go:219-250 | a secret gone from what a manager goes by is one it never accepts again |
| ProxyBound.BoundIsExact | internal/cluster/proxy_secret.go:336-353 | every header of every run is accepted, if and only if lag, skew, 30 seconds and 999 milliseconds are within the grace |
| ProxyGrace.GraceOfARecord | internal/cluster/proxy_rotation.go:106-121 | under a switched record the secret replaced is taken for two minutes by the manager's clock and no longer |
| ProxyGrace.GraceOfTheFirst | internal/cluster/proxy_secret.go:35-69 | and so at the first switch, unless the cluster has an agent |
| ProxyGrace.OutsideAGrace | internal/cluster/proxy_secret.go:35-69 | before a switch both are taken and the old one signed with, after done the new one alone |
| ProxyGrace.LaterBoundIsExact | internal/cluster/proxy_rotation.go:106-121 | through re-rotations every header of every run is accepted, if and only if lag, skew and 30 seconds are within the grace |
| ProxyManager.EffectiveIsNewest | internal/cluster/proxy_secret.go:219-304 | whatever state replay shows, floor and state together install the secrets of the newer |
| ProxyManager.FloorIsBetween | internal/cluster/proxy_secret.go:219-304 | wherever a stop falls among the floor's writes the file keeps a state no older than before and no newer than the one gone by |
| ProxyManager.ShownIsInstall | internal/cluster/proxy_secret.go:154-197 | an apply of any state shown is ProxyWorld's install, to a state no older, with that state's secrets |
| ProxyManager.ProxySecretManager.ApplyProxySecrets | internal/cluster/proxy_secret.go:154-197 | installs the effective state's secrets whatever becomes of the floor, and keeps it as far as the file's writes are done |
| ProxyManager.ProxySecretManager.ApplyShown | internal/cluster/proxy_secret.go:154-197 | a manager at one place of the log, shown any other, goes by the later, and its next start by one between the two |
| ProxyManager.ProxySecretManager.WithProxyKeyFloor | internal/cluster/proxy_secret.go:219-250 | the newer of record and floor, kept when it is the record |
| ProxyManager.ProxySecretManager.WithProxySecretFloor | internal/cluster/proxy_secret.go:252-279 | the floor fills in what replay does not show yet |
| ProxyManager.ProxySecretManager.AgentsSeen | internal/cluster/proxy_secret.go:281-304 | once seen, an agent stays seen, across restarts as far as the floor is written |
| ProxyLeader.LeaderProxy.MaybeRotateProxySecret | internal/cluster/proxy_secret.go:306-364 | seeds, rotates or does nothing, each exactly under its gates |
| ProxyLeader.LeaderProxy.StartProxyRotation | internal/cluster/proxy_rotation.go:177-240 | starts if and only if every gate passes, from what the managers sign with, under the next generation |
| ProxyLeader.LeaderProxy.AdvanceProxyRotation | internal/cluster/proxy_rotation.go:249-300 | takes the step decided; the mirror is what it was, or what the record signed or signs with, as far as writes land, and the last once all do |
| ProxyLeader.WatchLeaderTick | internal/cluster/manager.go:536-553 | a leader that switches accepts the secret itself, as its tick goes by the replicated state first |
| ProxyAuth.SignedIsGenuineIff | internal/auth/proxyauth.go:162-189 | a header is good exactly for its own request, an accepted key and 30 seconds either way |
| ProxyAuth.NonceCache.RegisterNonce | internal/auth/proxyauth.go:224-269 | the swept cache decides as the history of all that was ever let in |
| ProxyAuth.NonceCache.Sweep | internal/auth/proxyauth.go:258-267 | a sweep drops only what is past its life, and nothing below the cap |
| ProxyAuth.NonceCache.ValidateV2 | internal/auth/proxyauth.go:191-222 | a nonce is taken only once the MAC matches |
| ProxyAuth.NonceCache.IsInternalProxyRequest | internal/auth/proxyauth.go:121-160 | accepts exactly genuine headers not let in before or within 50 milliseconds of it; a fresh one is never refused |
| JwtKeys.OneKeyAGeneration | internal/cluster/jwt_rotation.go:91-142 | generations never fall along the log, and each names one key |
| JwtKeys.NewestRunsNewest | internal/cluster/jwt_rotation.go:61-86 | in every run a node of the newest generation runs the newest key, joiners included |
| JwtKeys.ShownRunsNewest | internal/cluster/jwt_rotation.go:61-86 | any node shown the newest state runs the newest key |
| JwtKeys.GenerationNeverFalls | internal/cluster/jwt_rotation.go:61-86 | a member's running generation never falls |
| JwtKeys.OtherOrderStrands | internal/cluster/grpc_server.go:365-371 | with the key read before the generation a rotation in between strands the joiner, whatever it is shown, until a generation newer still |
| JwtKeys.UnreadIsLeft | internal/cluster/jwt_rotation.go:91-142 | a record that does not read leaves the plain key in force and is never written over |
| JwtKeys.ReadIsNext | internal/cluster/jwt_rotation.go:91-167 | one that reads is the cluster's key, a rotation writes the next generation over both keys, and a repair the plain one |
| JwtKeys.JWTManager.ApplyJWTKey | internal/cluster/jwt_rotation.go:61-86 | a manager moves only to a newer generation |
| JwtKeys.JWTManager.RotateJWTKey | internal/cluster/jwt_rotation.go:91-142 | one record, then its mirror, under the next generation, refused on a garbled record |
| JwtKeys.JWTManager.RepairJWTMirror | internal/cluster/jwt_rotation.go:144-167 | the mirror is the cluster's key again, and the key itself does not change |
| ConnTrust.OpenIsCovered | internal/cluster/conn_trust.go:28-81 | in every interleaving an open connection is closing, trusted, or still to be closed by a reload |
| ConnTrust.SettledIsTrusted | internal/cluster/conn_trust.go:58-81 | with every close done no open connection is from an untrusted CA |
| ConnTrust.CloseIsFinal | internal/cluster/conn_trust.go:58-81 | after a reload's close none outside its trust is tracked, nor comes in while that trust stands |
| ConnTrust.TLSConns.TrackConn | internal/cluster/conn_trust.go:28-49 | tracks by the chain's root, and refuses one no longer trusted |
| ConnTrust.TLSConns.CloseUntrustedConns | internal/cluster/conn_trust.go:58-81 | closes exactly the connections of CAs outside the list |
| ConnTrust.TLSConns.ReloadCAPool | internal/cluster/tls.go:432-448 | an unreadable or empty ca.crt changes nothing |
| Reach.ChoosePreferredLeader | internal/cluster/reach.go:273-326 | the best manager strictly above the leader's own count, or none when there is none |
| Reach.BetterIsOrder | internal/cluster/reach.go:309-321 | the preference is a strict total order |
| Reach.BestIsOne | internal/cluster/reach.go:309-321 | the choice does not depend on the order of the candidates |
| Reach.NoHandBack | internal/cluster/reach.go:273-278 | on the same facts the manager chosen hands the role to nobody |
| Reach.StaysIff | internal/cluster/reach.go:279-300 | the role may be handed over exactly when nothing holds it, the leader and the last hand-over are old enough, and the leader's own reach is known and short |
| Reach.BestReachesMost | internal/cluster/reach.go:301-321 | the manager chosen reaches no fewer agents than any other, and of those that reach as many comes first by name, then ID |
| Reach.CountIs | internal/cluster/reach.go:301-308 | reach is the number of the cluster's agents among those reported, each once |
| Reach.BeforeIsDictionary | internal/cluster/reach.go:309-321 | names are ordered as a dictionary orders them |
| Reach.ReachedBy | internal/cluster/reach.go:180-192 | a fresh probe's reached agents, sorted; those tried and not listed are exactly the unreached |
| Targets.RankedPermutes | internal/cluster/agent_link.go:300-319 | ranking is a permutation |
| Targets.RankAddresses | internal/cluster/agent_link.go:300-319 | those on the agent's network, then the others, each in the order given |
| Targets.TargetsAreAll | internal/cluster/agent_link.go:321-352 | every target of a manager once, whatever the agent's network, one last reached first |
| Targets.TargetsFor | internal/cluster/agent_link.go:321-352 | the loop makes that list |
| Targets.NextTargets | internal/cluster/agent_link.go:256-288 | the loops make Order of the offers: the leader's, then each manager's |
| Targets.OrderIs | internal/cluster/agent_link.go:256-288 | each target once, near before far, each group by first offers |
| Targets.NextTargetsAreAll | internal/cluster/agent_link.go:264-288 | all dialable addresses of all managers and no other, but for a redirect's leader |
| Targets.LeaderComesFirst | internal/cluster/agent_link.go:264-288 | a leader the agent lists comes first: its near targets before all others, the rest before all that are not near |
| Targets.RedirectComesFirst | internal/cluster/agent_link.go:264-288 | a leader it does not list is asked before any other |
| Targets.RankedIsNearFirst | internal/cluster/agent_link.go:300-319 | addresses on the agent's network come before the others |
| Targets.UnreachedIsRanked | internal/cluster/agent_link.go:321-352 | a manager never reached is tried at its addresses as ranked, then at its own gRPC address |
| Fsm.LastWriteWins | internal/cluster/raft_fsm.go:184-196 | a key holds what the log's last write of it left |
| Fsm.FSM.Apply | internal/cluster/raft_fsm.go:122-253 | one more entry of the fold; no changed key goes untold, and only a live disband is |
| Fsm.FSM.Restore | internal/cluster/raft_fsm.go:267-295 | the state is the snapshot's log's, and everything is told |
| Fsm.FSM.Replay | internal/cluster/raft_fsm.go:122-253 | the entries after a snapshot, applied one by one, extend its log by just those |
| Fsm.SnapshotAndRest | internal/cluster/raft_fsm.go:255-295 | a snapshot at any place and the rest replayed make the whole log's state |
| Fsm.FoldIsKeyed | internal/cluster/raft_fsm.go:133-182 | every node's record stays under its own ID |
| Fsm.NodeIsAsSaid | internal/cluster/raft_fsm.go:133-182 | a node is there exactly when added and not removed since, and each of its fields holds what was last said of it |

## Left out

- Joins, registrations and promotions as workflows, and a joiner's replay of an old log: a member set that grows during a rotation is not modelled; an agent's promotion is its key deletion alone, without the write that undoes a failed one (internal/cluster/manager.go:989-999).
- Raft, gRPC, TLS handshakes, X.509, PEM and HMAC internals: pins, terms and steps stand for them.
- Corrupt or unreadable files, failed floor writes, and a manager without a data directory, whose floors a restart forgets.
- Logging, notes said once, heartbeat timers, back-off, the RPC dials of the drivers, and applyPong's manager list.
- The agent's key proof and rate limit inside CAWorld: its renewals are any the leader could sign; RenewalDesk has the gates.
- The check of a hint against the connection's root inside CAWorld: an agent may take any hint there; AgentCA has the check.
- Rotation IDs, start times and the wording and sorting of waiting lists.
- CATrust.TrustEvidence: the leader's own entry is a settled heartbeat, as the assumption on its tick has it; a record applied while that tick runs, counted before its floor is written, is not modelled.
- CATrust.ReissueEvidence: the same of the leader's own certificate.
- AgentKeyLink.RotateKey: a follower's redirect and RPC errors are left out; either is a call never answered in AgentKeyProtocol.
- CANodes.ApplyIsSteps: between cut applies the rest of the cluster stands still.
- ProxyTheorems.HeadersAreAccepted: members are fixed, and an agent's first registration is modelled before the first re-rotation's record matters, as it changes nothing after.
- AgentKeyStore.AgentKeys.Install: the timer that installs again when the grace ends.
- Targets.OrderIs: an address two managers share is near or far by the manager that offers it first.
- ReachedBy's sort is an insertion at each find, and the preference's second probe is I/O.
- Accounts, recovery codes and last-seen times of the replicated state; corrupt log entries are one kind.
