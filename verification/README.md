# Gluon: verification of the threshold wallet protocols

Gluon keeps the private key of a wallet in pieces. In *key generation* one node, the
delegator, elects an executor and n initial pinners among attested peers; the executor
generates the key, shares it into n slices, any k of which recover it, and every pinner
deploys one slice. In *signing* a delegator collects slices from pinners, hands them to an
executor it has attested, and the executor recovers the key and signs the transaction.

The project models both protocols step by step, together with the two algorithms the
delegator runs on its own (the election of candidates and the selection of peers by
distance), and proves what they promise each other and layer 1.

## How it is built

| files | what they hold |
|---|---|
| `Types`, `SymbolicCrypto`, `TaskInfos`, `Environment` | identifiers, terms for keys and ciphers, task parameters, shared blocks and deployments |
| `ElectionLoop`, `KeyGenElection`, `ElectionOrder`, `Candidates` | the two algorithms: specification, loops, exact results; who is elected, by order of arrival |
| `KeyGenTypes`, `PeerKeyGen`, `DelegatorKeyGen`, `SignTypes`, `PeerSign`, `DelegatorSign` | every handler and every callback as a function on what is stored |
| `DelegatorKeyGenStoreItem`, `KeyGenDelegator`, `KeyGenPeer`, `DelegatorSignStoreItem`, `SignDelegator`, `SignPeer` | the same handlers as the code has them, changing objects in place, each proved to do what its function says |
| `KeyGenProtocol`, `SignProtocol` | one task as a transition system: stored items, messages under way, callbacks that wait |
| `KeyGenInvariant`, `KeyGenSteps`, `KeyGenDelegatorSteps`, `KeyGenSafety`, `KeyGenResults` | the key generation invariant, its preservation, what follows from it |
| `KeyGenProgress` | key generation without losses: it never gets stuck and always ends with the report |
| `SignInvariant`, `SignSteps`, `SignPeerSteps`, `SignBookSteps`, `SignSafety`, `SignResults` | the same for signing |
| `SignStages`, `SignRuns` | when the stage of a signing task goes back; whole runs |
| `Agreement` | every stored copy of a task's parameters is the delegator's |
| `Wallet`, `Requests`, `EndToEnd` | any number of tasks of both kinds together, what layer 1 asked of each, and the results that span them |
| `Secrecy` | what can be read in messages and items, and with whose keys |
| `Possible` | what reachable worlds can come to, and the exact conditions of what can go wrong |
| `RaProperties` | the property bags of remote attestation |

The protocol steps use the functions; a method of a class has the function in its
`ensures`, so that what is proved of the steps is proved of the methods.

## Assumptions

- Nodes are honest: a message is under way only because a handler sent it.
- A message or callback is delivered at most once; it may be lost and may be overtaken.
  Layer 1 delivers each task event once, to one delegator, under an id of its own, and
  names for an account the deployments that were reported for it.
- `send_message` succeeds. (If it failed after the save at
  `src/delegator/key_gen/observers/client_observer.rs:69`, the stored item would be ready
  and not elected.)
- Peer ids are distinct and not empty; the profile that is looked up for a delegate is that
  delegate's.
- Generated keys, RSA pairs, sessions and deployment ids are fresh; stored values do not
  expire.
- Cryptography is symbolic: a cipher opens exactly under its own key. Recovery refuses
  fewer than `k` distinct slices; from enough of one sharing it gives the shared secret,
  otherwise a value that has nothing to do with it.
- `generate_multi_sig_asset` succeeds for every k. (It makes a k-of-2 account; were it to
  refuse k > 2, tasks with a larger k would end at their executor, and the thresholds of
  `Possible` would be those it accepts.)
- A pinner's own actor holds the deployments that the pinner registered; whether it holds
  others is left open.
- `u8` arithmetic wraps, as in the release build that is deployed (`build-in-docker.sh:13`).

## What the code does not keep

- **n = 255.** `n + 1` at `src/delegator/key_gen/store_item.rs:50` wraps to 0, the first
  executor candidate starts the election, and unless 255 other candidates came before it
  the pinner loop never ends. `KeyGenElection.RunExact` says what every run of every task
  does, and `KeyGenElection.ElectionSoundIff` that no run fails if and only if n <= 254.
  The worlds of `Wallet` take key generation tasks with n <= 254.
- **k of signing.** `src/delegator/sign.rs:38-40` signs every task with n = 2, k = 1. With
  k slices the executor recovers a wrong key whenever the key needs more, and it commits a
  signature under it. `Possible.ForgeableIff`: a reachable world with such a commit exists
  for keys of threshold t if and only if the task asks for fewer than t slices;
  `Possible.FixedParametersForgeableIff`: with the numbers in the code, for every t >= 2.
  `SignRuns.SignaturesAuthenticIff` says the same of all runs of one task. The parameters
  of a signing task are an argument of the model, so that both are covered.
- **The stage of signing.** It goes back if and only if, after the commit, the first slice
  of one of the task's deployments arrives (`EndToEnd.SigningStageGoesBackIff`), and this
  can happen whenever fewer slices are asked for than there are
  (`Possible.StageCanGoBack`).
- **The announcement.** When layer 1 announces an account, the handler of every peer that
  applied as pinner and was not elected returns an error, because that peer has an item and
  no upload (`EndToEnd.AnnouncementFailsIff`); 2n are invited and n elected, so this is the
  ordinary case (`EndToEnd.LeftoversFail`). Elected pinners commit, all others ignore it.

The model's signing parameters also allow k = 0, which the code never uses: the queue of
candidates would then be drained unasked, exactly as `SignResults.QueueAskedIff` says.

## Model

| member | source | states |
|---|---|---|
| `ElectionLoop.LoopStopsIff` | src/delegator/key_gen/store_item.rs:176-192 | the pinner loop ends if and only if pinners and candidates together are at least n |
| `ElectionLoop.LoopExact` | src/delegator/key_gen/store_item.rs:176-192 | the loop's result in closed form: reversed pinner candidates, then reversed executor candidates, and what is left over |
| `ElectionLoop.ElectedCount` | src/delegator/key_gen/store_item.rs:176-192 | from an empty list it elects n, or all pinner candidates if they are more and an executor candidate is there |
| `ElectionLoop.LoopConserves` | src/delegator/key_gen/store_item.rs:176-192 | elected and left over together are the candidates there were, as multisets |
| `ElectionLoop.LoopReaches` | src/delegator/key_gen/store_item.rs:176-192 | the iterations of the loop reach its result, the guard holding before each |
| `KeyGenElection.DecisiveElectsExactly` | src/delegator/key_gen/store_item.rs:47-50 | when an item first becomes ready it has n + 1 candidates or a single executor candidate, and electing gives exactly n pinners and an executor |
| `KeyGenElection.RunExact` | src/delegator/key_gen.rs:68-100 | any run of attestation successes, of any task, leaves what the specification says: candidates collected, or the election over the shortest sufficient prefix and one request, later successes without effect; or, with n = 255 and the first executor candidate too early, a loop that does not end |
| `KeyGenElection.ElectionConserves` | src/delegator/key_gen.rs:68-81 | a run ends unless an election is started too early; then the stored item is never ready between events, and once elected, executor, n pinners and leftovers are the candidates of the decisive prefix |
| `KeyGenElection.ElectionSoundIff` | src/delegator/key_gen/store_item.rs:47-51 | no run fails or loops if and only if n <= 254 |
| `ElectionOrder.ElectionByArrival` | src/delegator/key_gen/store_item.rs:165-192 | over every run of successes that ends, told by arrival: the first m that are more than n with one to execute are elected from; the last of these that would execute becomes executor, the pinner arrivals from last to first and then the earlier executor arrivals from last to first are the n pinners and the leftovers, and the one request goes to that executor with those pinners, k, key type and first public key; without enough all wait in order |
| `Candidates.SortedIsTheStableSort` | src/delegator/key_gen/candidates.rs:25-51 | the specification order is the one and only stable sort by distance |
| `Candidates.SplitConserves` | src/delegator/key_gen/candidates.rs:34-49 | after every round selected and left-over peers together are the input |
| `Candidates.SplitShort` | src/delegator/key_gen/candidates.rs:34 | the selection falls short exactly before the decisive round, and while it does the left-over list is not empty, so that guard never ends the loop |
| `Candidates.FilterRound` | src/delegator/key_gen/candidates.rs:35-47 | one pass with i16 difference and u8 cast moves exactly the peers within the current distance, in order, and keeps the others, in order |
| `Candidates.RandomSelectPeers` | src/delegator/key_gen/candidates.rs:25-51 | with 2n peers or more: the whole distance classes up to the first that reach 2n, within n rounds and without u8 overflow; with fewer: all of them |
| `Candidates.InvitedPeers` | src/delegator/key_gen/candidates.rs:4-23 | filter, select and take give the first 2n of the stable sort of the eligible peers |
| `Candidates.InvitedAreNearest` | src/delegator/key_gen/candidates.rs:4-23 | min(eligible, 2n) peers are invited, no filtered one, and no eligible peer passed over is closer |
| `Candidates.InvitedByLastByte` | src/delegator/key_gen/candidates.rs:4-55 | told by the bytes: no eligible peer that was passed over has a last byte nearer, modulo n, to that of the task id than an invited one has |
| `Candidates.CongruentInvited` | src/delegator/key_gen/candidates.rs:25-55 | with 2n eligible peers whose last byte agrees with the task id's modulo n, every invited peer's does |
| `Candidates.ExcludingSplits` | src/delegator/key_gen/candidates.rs:4-14 | filtering goes through the list one by one, drops what is filtered and keeps the order |
| `Candidates.InvitedDistinct` | src/delegator/key_gen/candidates.rs:4-23 | distinct swarm peers are invited once each |
| `TaskInfos.AcceptedIff` | src/common/task_info.rs:11-69 | a task is accepted exactly if the narrowed numbers satisfy 1 <= k < n; what is stored then has the event's id, key type, n and k modulo 256; and an invited peer stores the delegator's parameters |
| `DelegatorKeyGenStoreItem.StoreItem.InsertExecutor` | src/delegator/key_gen/store_item.rs:53-55 | the executor candidate is pushed, nothing else changes |
| `DelegatorKeyGenStoreItem.StoreItem.InsertInitialPinner` | src/delegator/key_gen/store_item.rs:57-59 | the pinner candidate is pushed, nothing else changes |
| `DelegatorKeyGenStoreItem.StoreItem.SelectExecutor` | src/delegator/key_gen/store_item.rs:165-174 | pops the last executor candidate; an error exactly if there is none |
| `DelegatorKeyGenStoreItem.StoreItem.SelectInitialPinners` | src/delegator/key_gen/store_item.rs:176-192 | the loop, in place, ends in the specified result if and only if there are candidates enough; otherwise it is left where an iteration changes nothing and the guard stays true |
| `DelegatorKeyGenStoreItem.StoreItem.ElectAll` | src/delegator/key_gen/store_item.rs:61-64 | both selections in sequence: an error without executor candidates, an endless loop without n others, else the election |
| `DelegatorKeyGenStoreItem.StoreItem.Generate` | src/delegator/key_gen/store_item.rs:121-136 | the request lists the elected pinners in order with their keys, and the task's k |
| `DelegatorKeyGenStoreItem.StoreItem.IsAllInitialPinnersReady` | src/delegator/key_gen/store_item.rs:156-163 | true if and only if every response is in, in whatever order the map is walked |
| `DelegatorKeyGenStoreItem.StoreItem.IntoResult` | src/delegator/key_gen/store_item.rs:90-112 | the result for layer 1, an error exactly if account or public key is missing |
| `KeyGenDelegator.Delegator.ProcessKeyGenerationEvent` | src/delegator/key_gen.rs:36-66 | exactly if 1 <= k < n after narrowing, stores the invited item with the event's id, n, k, key type, first public key and the nonce, and asks for the delegates |
| `KeyGenDelegator.Delegator.InviteCandidates` | src/common/utils.rs:37-88 | every delegate is looked up, then the nearest other peers are invited |
| `KeyGenDelegator.Delegator.TrySendToExecutor` | src/delegator/key_gen.rs:68-100 | elects, sends and saves, or waits, or fails, or never returns, exactly as the specification says |
| `KeyGenDelegator.Delegator.OnExecutorRaSuccess` | src/delegator/key_gen/observers/client_observer.rs:53-72 | the handler with its two saves: what is stored and sent, and whether it returns, fails or loops |
| `KeyGenDelegator.Delegator.OnInitialPinnerRaSuccess` | src/delegator/key_gen/observers/client_observer.rs:74-93 | likewise for a pinner candidate |
| `KeyGenDelegator.Delegator.ProcessTaskExecutionResponse` | src/delegator/key_gen.rs:102-133 | records key and account, sends the i-th pinner of the response its slice, keeps a place for each answer, both saves |
| `KeyGenDelegator.Delegator.ProcessTaskPinnerKeySliceResponse` | src/delegator/key_gen.rs:135-194 | records the answer of a pinner that was asked, ignores anybody else, and reports exactly when it completes the responses |
| `KeyGenPeer.Peer.TaskKeyGenerationCandidateRequest` | src/executor.rs:11-20 | the gates that keep a peer to one role in a task |
| `KeyGenPeer.Peer.CandidateVerified` | src/executor/key_gen.rs:12-42 | the item, a fresh key pair and the application, or an error on invalid parameters |
| `KeyGenPeer.Peer.SendKeyGenerationRequest` | src/common/key_generation.rs:115-142 | a fresh private key stored, its public half sent |
| `KeyGenPeer.Peer.GenerateTaskExecutionResponse` | src/executor/key_gen.rs:99-142 | the pairing loop closes the i-th slice for the i-th pinner; it runs out of slices exactly from 256 pinners on |
| `KeyGenPeer.Peer.TaskExecutionRequest` | src/executor/key_gen.rs:56-97 | the executor's item, the new wallet key and the response |
| `KeyGenPeer.Peer.TaskPinnerKeySliceRequest` | src/initial_pinner/handler.rs:96-148 | takes up the pinner item or the converted executor item, and asks for an upload key |
| `KeyGenPeer.Peer.UploadKeyArrived` | src/initial_pinner/handler.rs:170-212 | opens the slice, closes it under a fresh key, puts the block and remembers its cid |
| `KeyGenPeer.Peer.UploadCompleted` | src/initial_pinner/handler.rs:106-132 | registers and remembers the deployment, saves the captured item under the item's own task, answers |
| `KeyGenPeer.Peer.TryingCommitDataUpload` | src/initial_pinner/handler.rs:26-61 | commits exactly with an item and both records |
| `KeyGenSafety.NextKeeps` | src/delegator/key_gen.rs:36-194 | every delivery and every loss keeps the invariant of a key generation task, meets no error branch, and touches only the task's own records |
| `KeyGenResults.ReportSound` | src/delegator/key_gen.rs:165-182 | at most one report, exactly in the final state, with the task's nonce and n distinct deployments that hold n distinct slices of the key whose public half and account it names |
| `KeyGenResults.RequestExecuted` | src/executor/key_gen.rs:56-97 | the executor's handler meets no error, answers with a sharing of a fresh key made out to the elected pinners in order, and leaves its item executed |
| `KeyGenResults.AnyKRecover` | src/executor/key_gen.rs:107-125 | any choice of reported deployments recovers the key if and only if it has k of them and as many as are asked for |
| `KeyGenResults.StagesAdvance` | src/delegator/key_gen.rs:102-182 | no step takes the delegator's state back; each advance has its one cause |
| `SymbolicCrypto.RecoveryExact` | src/executor/sign.rs:34-35 | distinct slices of one sharing give the secret back exactly from the threshold on |
| `DelegatorSignStoreItem.StoreItem.InitDeploymentResources` | src/delegator/sign/store_item.rs:86-91 | both tables get an empty entry for exactly the deployment ids, over what they held |
| `DelegatorSignStoreItem.StoreItem.InsertDeployment` | src/delegator/sign/store_item.rs:100-111 | queues the peer, an error exactly for an unknown deployment |
| `DelegatorSignStoreItem.StoreItem.InsertKeySliceInfo` | src/delegator/sign/store_item.rs:113-128 | stores the slice, an error exactly for an unknown deployment |
| `DelegatorSignStoreItem.StoreItem.ReadySendToExecutor` | src/delegator/sign/store_item.rs:130-137 | at least k deployments have their slice |
| `DelegatorSignStoreItem.StoreItem.PopAllCandidates` | src/delegator/sign/store_item.rs:139-141 | the whole queue is handed out and emptied |
| `DelegatorSignStoreItem.StoreItem.GetEncryptedKeySlices` | src/delegator/sign/store_item.rs:143-152 | the stored slices in the order the map is walked |
| `SignDelegator.Delegator.ProcessSignEvent` | src/delegator/sign.rs:25-49 | the item that is saved: the request's account, p1 signature and transaction, the nonce, the parameters, and empty entries for exactly the deployment ids |
| `SignDelegator.Delegator.InviteCandidates` | src/delegator/sign.rs:50-83 | every delegate is looked up, the i-th search is for the i-th deployment id, with the properties of the task, and the item starts looking for deployments |
| `SignDelegator.SearchesLeadBack` | src/delegator/sign.rs:72-74 | the properties of the i-th search, with that deployment added and walked in any order, lead back to the role of a pinner of this task for the i-th deployment id |
| `SignDelegator.Delegator.ProcessExecutorRequest` | src/delegator/sign.rs:151-173 | attests an executor exactly if there is none |
| `SignDelegator.Delegator.OnExecutorRaSuccess` | src/delegator/sign/observers/client_observer.rs:66-96 | the first executor stays; the queue is drained and everybody in it asked, unless slices suffice |
| `SignDelegator.Delegator.OnPinnerRaSuccess` | src/delegator/sign/observers/client_observer.rs:98-119 | ignored, queued or asked |
| `SignDelegator.Delegator.ProcessPinnerKeySliceResponse` | src/delegator/sign.rs:198-226 | the first slice of a deployment stays, and the executor is tried |
| `SignDelegator.Delegator.TrySendToExecutor` | src/delegator/sign.rs:228-268 | sends all slices from k on; an error exactly without executor |
| `SignDelegator.Delegator.ProcessCommit` | src/delegator/sign.rs:175-196 | the item is marked as committed |
| `SignPeer.Peer.ProcessSignWithKeySlices` | src/executor/sign.rs:71-136 | the item, a fresh key pair and the offer |
| `SignPeer.Peer.TaskSignGetSlice` | src/pinner/handler.rs:6-43 | asks the own pinner actor, opens the deployment and closes the slice for the executor; an error exactly where the actor does not hold the deployment or it does not open |
| `SignPeer.Peer.DecryptAll` | src/executor/sign.rs:29-32 | every slice opened in order, or an error at the first that does not open |
| `SignPeer.Peer.TaskSignWithKeySlicesResponse` | src/executor/sign.rs:15-69 | opens, recovers, signs and commits, or stays in `Responded` with an error |
| `SignSafety.SignNextKeeps` | src/delegator/sign.rs:151-268 | every step keeps the invariant of a signing task; executor, slices and histories only grow |
| `SignResults.SendCount` | src/delegator/sign/store_item.rs:130-152 | with found answers there are max(0, found - k + 1) bundles, the i-th with k + i slices, each strictly contained in the later ones |
| `SignResults.BundleRecovers` | src/executor/sign.rs:29-64 | the executor recovers the wallet key from its i-th bundle exactly if k + i reaches the threshold of the sharing, and always signs with something |
| `SignResults.CommitsAuthentic` | src/executor/sign.rs:34-64 | every commit carries the signature under the reported key if the task asks for enough slices |
| `SignResults.BundleHandled` | src/executor/sign.rs:23-68 | the executor's handler meets no error, sends the witness it makes of the bundle, and leaves its item executed |
| `SignResults.PinnerTakenUp` | src/delegator/sign/observers/client_observer.rs:98-119 | an attested pinner is accepted exactly if its deployment has not answered and there is an executor or the deployment is the task's; it is asked at once with an executor, and otherwise comes last in the queue |
| `SignResults.QueueAskedIff` | src/delegator/sign/observers/client_observer.rs:80-95 | choosing the executor asks everybody in the queue if and only if k >= 1 or nobody waits |
| `SignRuns.SignaturesAuthenticIff` | src/delegator/sign.rs:38-45 | all commits of all runs are authentic if and only if the key's threshold is at most the task's k |
| `SignRuns.FixedParametersAuthenticIff` | src/delegator/sign.rs:38-40 | with the numbers in the code: if and only if the threshold is 1 |
| `SignRuns.ForgedRun` | src/executor/sign.rs:29-64 | for an account that needs more slices than the task asks for there is a run to a wrong commit |
| `SignStages.StageGoesBackIff` | src/delegator/sign.rs:151-268 | over every step of a task the stage goes back exactly with the first slice of a deployment after the commit |
| `KeyGenProgress.NeverStuck` | src/delegator/key_gen.rs:68-182 | where nothing that is waited for has been lost and nothing is under way, the report has been made |
| `KeyGenProgress.DeliveryProgresses` | src/delegator/key_gen.rs:36-194 | every delivery keeps all that is waited for under way and leaves strictly less to do |
| `KeyGenProgress.LosslessRunReports` | src/delegator/key_gen.rs:36-194 | a run without losses is bounded, and at its end the report has been made |
| `KeyGenProgress.CanReportIffSupplied` | src/delegator/key_gen/store_item.rs:41-51 | while candidates are collected, a task can come to its report if and only if arrivals and invitations under way together are n + 1 and one of them is to execute |
| `KeyGenProgress.StartReportsIff` | src/common/utils.rs:37-88 | once the delegates are known a task can come to its report if and only if there is a delegate, and delegates and invited pinners together are n + 1 or more |
| `Agreement.PeersKept` | src/executor/store_item.rs:25-73 | every step of a key generation task keeps all stored copies of its parameters equal |
| `Agreement.SignersKept` | src/executor/sign.rs:71-100 | so does every step of a signing task |
| `Wallet.KeyGenFrame` | src/initial_pinner/handler.rs:263-277 | what other tasks do, their temporary records included, does not disturb a key generation task |
| `Wallet.ReachableGood` | src/delegator/key_gen.rs:36-194 | in every reachable world of any number of interleaved tasks, each task's invariant holds |
| `EndToEnd.NoHandlerFails` | src/delegator/key_gen.rs:68-194 | no message between delegator and peers, and no callback, of a key generation task meets an error in a reachable world, and none changes the parameters, first public key or nonce of its task |
| `EndToEnd.ReportedKeyRecovers` | src/executor/key_gen.rs:107-134 | what was reported is k-of-n recoverable, and the account uses the same k |
| `EndToEnd.AccountHasOneSource` | src/executor/key_gen.rs:128-134 | two tasks never report the same account |
| `EndToEnd.CommitsMatchUploads` | src/initial_pinner/handler.rs:26-61 | in a reachable world exactly the elected pinners commit, each a reported deployment with its own cid |
| `EndToEnd.AnnouncementFailsIff` | src/initial_pinner/handler.rs:26-37 | the announcement of an account meets the missing-record error at a peer if and only if it applied as pinner and was not elected |
| `EndToEnd.LeftoversFail` | src/portal/layer1_events.rs:50-60 | every candidate pinner that was left over meets it |
| `Requests.RunHonours` | src/delegator/key_gen.rs:36-66 | over every run: what the event or request that began a task asked for, n and k narrowed, key type, first public key, nonce, account, p1 signature, transaction, is what the task's item holds to the end |
| `Requests.WasBegun` | src/delegator/sign/store_item.rs:44-64 | every task of a run was begun by a step of it with the task's id |
| `EndToEnd.EventCarried` | src/delegator/key_gen/store_item.rs:90-136 | over every run: candidate requests, the execution request, responses, slice requests and the report carry the event's id, n, k, key type and first public key, and the report the event's nonce; the reported key is shared k of n |
| `EndToEnd.RequestCarried` | src/delegator/sign.rs:228-268 | over every run: every candidate request and every bundle carries the request's account or transaction and p1 signature, with the task's parameters; bundles go to the executor |
| `EndToEnd.KeyIntegrity` | src/executor/sign.rs:29-64 | over every run: each commit of a signing task goes back to a request to sign and to the event that asked for the key; the account is that of the event's first public key and the reported second one with the event's k; and if as many slices are asked for as the event says, the commit is one signature of the requested transaction under the secret whose public half was reported |
| `EndToEnd.FaithfulIff` | src/delegator/sign.rs:38-45 | and only if: with a bundle sent, the executor is faithful on all bundles exactly then |
| `EndToEnd.ExecutorNeverStuck` | src/executor/sign.rs:15-69 | in a reachable world the executor can use every bundle it gets: it commits once what it makes of it and has then executed its item |
| `EndToEnd.ExecutorExecutes` | src/executor/key_gen.rs:56-97 | in a reachable world delivering the execution request leaves the executor's item executed, and only the response with a fresh wallet key goes out |
| `EndToEnd.SigningInvites` | src/delegator/sign.rs:50-83 | in a reachable world the delegate list has exactly the delegates looked up, each once |
| `EndToEnd.OfferAttestedIff` | src/delegator/sign.rs:151-173 | in a reachable world an offer to execute changes nothing stored, is attested without an executor and has no effect with one |
| `EndToEnd.SlicesForTheExecutor` | src/delegator/sign/observers/client_observer.rs:73-140 | every query, reply and stored slice of a task is made out to its one executor, who still holds the private key, and closes the slice behind its deployment |
| `EndToEnd.QueueComplete` | src/delegator/sign/observers/client_observer.rs:73-118 | accepted attestations are queued or asked, each as often as it was accepted; no slice and no query before the executor, no queue after |
| `EndToEnd.BundlesCounted` | src/delegator/sign/store_item.rs:130-152 | in a reachable world there are max(0, found - k + 1) bundles, the i-th with k + i slices, each strictly contained in the later ones |
| `EndToEnd.RepliesHandled` | src/delegator/sign.rs:198-260 | a slice that arrives finds an executor chosen, is stored with its sender if its deployment has not answered, and is refused if and only if its deployment is unknown |
| `EndToEnd.SigningStageGoesBackIff` | src/delegator/sign.rs:175-226 | in a reachable world a step of a signing task takes its stage back if and only if it delivers, after the commit, the first slice of one of the task's deployments |
| `EndToEnd.QueriesAnswered` | src/pinner/handler.rs:6-43 | a query for a deployment of the task is answered if and only if the peer that is asked holds the deployment, as the peer that registered it does |
| `EndToEnd.ThresholdsAgree` | src/executor/key_gen.rs:108-134 | in a reachable world 1 <= k < n, every copy of the parameters at any peer is the delegator's, the key is shared with them, and the account has the same k |
| `EndToEnd.SigningThresholdsAgree` | src/executor/sign.rs:34-35 | the k with which the executor, or any peer of the task, would recover is the k at which the delegator sends |
| `EndToEnd.StagesNeverGoBack` | src/delegator/key_gen.rs:102-182 | in a reachable world no step takes a key generation item back |
| `EndToEnd.PinnersServe` | src/initial_pinner/handler.rs:101-105 | a slice request finds the pinner's item, its own or converted from an executor candidate, in state `Requested`, and its stored key opens its share |
| `Possible.TaskCanReport` | src/delegator/key_gen.rs:36-182 | from every reachable world every key generation task that can be begun there can come to its report |
| `Possible.CanBeForged` | src/delegator/sign.rs:38-45 | from every reachable world with a reported key that needs more slices than its signing task asks for, a reachable world with a wrong commit |
| `Possible.ForgeableIff` | src/delegator/sign.rs:38-45 | reachable worlds with a wrong commit exist for keys of threshold t exactly if the signing task asks for fewer than t slices, t being one that key generation can have |
| `Possible.FixedParametersForgeableIff` | src/delegator/sign.rs:38-40 | with the numbers in the code: for every threshold from 2 on |
| `Possible.StageCanGoBack` | src/delegator/sign.rs:198-226 | from every reachable world a signing task that asks for fewer slices than there are can come to a step that takes its stage back |
| `Secrecy.NothingToRead` | src/executor/key_gen.rs:107-125 | in a reachable world no message of key generation and nothing its delegator stores shows any part of the wallet key, of a slice or of a deployment's key to whoever has no private key |
| `Secrecy.KeysOfThresholdNeeded` | src/executor/key_gen.rs:107-125 | from what the executor sends the wallet key can be recovered if and only if the private keys of k elected pinners are held |
| `Secrecy.NothingToReadInSigning` | src/executor/sign.rs:29-64 | messages and stored item of a signing task show nothing either |
| `KeyGenProtocol.AttestedIsApplied` | src/lib.rs:98-122 | however the bag of an attestation was walked, its success reaches the handler of the role the peer applied for, with the task and the peer's key |
| `RaProperties.KeyGenAttestation` | src/delegator/key_gen/ra.rs:12-67 | builds the bag of the role |
| `RaProperties.SignAttestation` | src/delegator/sign/ra.rs:12-34 | builds the bag of the signing executor |
| `RaProperties.PinnerProperties` | src/delegator/sign/ra.rs:36-45 | the properties of a search; with the deployment id added, the bag of the pinner |
| `RaProperties.FromHashMap` | src/common/utils.rs:7-15 | the loop lists exactly the properties, in the order the map is walked |
| `RaProperties.RoleRoundTrip` | src/lib.rs:98-122 | for every order a bag leads back to its own role, task id and key, and carries no other protocol's flag |
| `RaProperties.RolesApart` | src/delegator/key_gen/observers/client_observer.rs:20-49 | bags of different roles are never dispatched alike |

## Left out

- Message routing, protobuf, the actor framework, NATS replies, logging and closing of connections: plumbing; handlers get decoded requests.
- `try_to_be_delegator` and the signature check of candidate requests: a task has one delegator, and a request is checked against its sender's profile by a guard that honest nodes pass.
- `src/delegator/dump_methods.rs` and the `dev` feature: debugging helpers.
- `update_conflict_list`, `willing_to_run`, `check_capabilities` and what is marked as still to do: constant or external.
- Arithmetic of RSA, AES, Shamir sharing, Ed25519 and multi-signatures: symbolic terms; base64 is an injective wrapper.
- The lock around the store and the expiry of stored values: each handler and each callback is one atomic step, and stored values stay.
- Liveness where messages are lost: the code has no timeouts or retries. Without losses key generation ends with its report whenever it has peers enough, and only then (`KeyGenProgress`); for signing that depends on which pinners are attested.
- The remote attestation itself: an application leads to at most one success, and pinners may be attested for any deployment at any moment, any number of times.
- The property bags of signing attestations inside `SignProtocol`: an attestation arrives as the role it is for, which is where `RaProperties.RoleRoundTrip` shows its bag leads. Key generation dispatches the walked bag in the protocol step.
- `shamir_recovery` below the threshold of the sharing: a value unrelated to the secret; nothing is assumed about what it is.
