# Verification of the Verify Directory operator

A Dafny model of the replica reconciliation protocol of the operator, and of the texts and trees it generates and
reads, with proofs. `dafny verify dfyconfig.toml` checks the project.

## What is modelled

The operator keeps one directory: for each PVC that the document lists, a ReplicaSet with one pod, a service, and a
volume which holds replication agreements with other replicas; and in front of them a proxy with a generated
configuration. One run of the reconcile loop reads the document, lists the pods, marks the document as being processed,
commands agreements on a principal, stops it, seeds the new volumes from the principal's volume, starts and links the
new replicas, starts the principal again, saves the proxy's configuration, deletes the replicas which are not listed any
more, and records the outcome in the conditions of the document. The admission webhook decides which documents and
which updates are let through.

* `Names.dfy`: names, labels and label selectors.
* `State.dfy`: the document with its version and conditions, every object of the cluster, and the steps of everybody but
  the operator: the ReplicaSet controller, which starts and replaces pods, the Job controller, garbage collection, the
  seed jobs, and users who edit the document.
* `Cluster.dfy`: the class `Cluster`, the API server as the operator sees it. Every request can fail. A ghost trace holds
  every state there ever was, each with the request or step that made it of the one before; no method forgets any of it.
  `Valid()` says of all of them: volume exclusion (`Exclusive`) holds in every one exactly when no request has been counted
  as a breach; there is no duplicate agreement as long as no removal command has failed; and, window by window, which
  replicas were up and what document and proxy configuration were stored. Between two requests the others move (`Others`).
  A request which is answered with an error may have been performed. The trace also holds what went wrong (`Erred`): requests
  answered with an error, unless that is ignored, waits which ended badly, pods which were not found; each procedure proves
  that its outcome is what the trace tells (`Told`), no better and no worse. What the operator cannot see is counted (`Faults`): a
  pod replaced while it was going to be stopped, a failed request taken for the absence of a pod, another pod taken for
  the one of a ReplicaSet which could not be read, a ReplicaSet which was refused.
* `Replicas.dfy`, `Agreements.dfy`, `Links.dfy`, `Seeding.dfy`, `Serve.dfy`, `Create.dfy`, `Delete.dfy`: the methods of the
  protocol.
* `Json.dfy`, `ProxyText.dfy`, `Proxy.dfy`: JSON texts (RFC 8259), the text surgery which makes the proxy's
  configuration, and the deployment of the proxy.
* `Yaml.dfy`, `Config.dfy`: conversion of and lookup in parsed YAML trees, and what is taken from them.
* `Controller.dfy`, `History.dfy`: one run of the loop from any state, and whole histories of runs, each with the
  configuration it finds, interleaved with everything else.
* `Courses.dfy`: courses of events, and those in which a run that has found no safe start breaks volume exclusion.
* `Witnesses.dfy`: concrete runs from a new directory on, in which what is claimed under a condition fails without it.
* `Webhook.dfy`: the admission checks.

## Main results

* Volume exclusion: no replica pod mounts a PVC which an active seed job reads or writes, and no seed overwrites a live
  volume (`States.SeedWritesNoLiveVolume`). A run, whatever state it finds and however it ends, keeps it when the start
  it finds in listing the pods is safe (`SafeStart`, in terms of the active jobs, the ReplicaSets and what the run will add)
  and the stops of replicas were seen right (`Calm`): `Controller.Reconcile`. So do any number of runs, from an empty
  cluster while every outcome is recorded and no success has met a fault (`History.Operate`). The condition on the start is
  exact in every state with volume exclusion: when it fails, the run's own requests, in their order, can break it
  (`Courses.UnsafeStartBreaks`); and not seeing the pod of the principal means that it has stopped if and only if it is the
  one which was there when its ReplicaSet was deleted (`Replicas.StopIsSeenExactlyWhen`). `Witnesses.LostRecordBreaks`,
  `Witnesses.PodlessReplicaBreaks` and `Witnesses.UnseenStopBreaks` are runs from nothing in which it fails.
* Agreements: after any history in which every outcome was recorded and no success has met a fault (what is counted, of any
  kind), unless the document is failing, every two replicas have an agreement in at least
  one direction, each has its pod and service, and a deployed proxy has its service (`History.HistoryIsGood`,
  `History.Operate`); one run commands each pair exactly once, the principal's with its own kind of command, and seeds each
  new volume exactly once, from the principal (`Create.CreateReplicas`), whatever principal is chosen
  (`History.OutcomeDoesNotDependOnOrder`).
* Every state of a run: the stored document is the one it has read, all replicas but the principal stay up, and every
  replica which the stored proxy configuration lists is up, before its save, while it is saved and from then on, also in
  runs which fail, as long as no fault is met (`Controller.Process`, `History.ListedAreUp`, `History.HistoryListsOnly`).
* A successful run makes the cluster what the document says exactly when no ReplicaSet was refused, if every replica had its
  pod and service before, the stops were seen right, and no other pod than its own was ever taken for a ReplicaSet's, be
  it read or not (`Controller.SucceedsExactlyWhen`); neither the refusals nor the last of these can be dropped
  (`Witnesses.RefusedRunSucceeds`, `Witnesses.MisledRunSucceeds`). A second run changes nothing (`History.RunningAgainChangesNothing`), and a failing
  document stays failing (`History.FailingIsForever`).
* The outcome: a run which starts succeeds exactly when the user's configuration can be used, every request whose answer
  matters was answered without an error, no wait ended badly and no pod was missing; it is recorded as failed exactly for the
  errors among these, and the process ends for the panics (`History.RunSucceedsExactlyWhen`). One which does not start has met
  a failing document, or could not read the document, list the pods or write the status (`Controller.Reconcile`).
* The order of a run: each replica which is seeded is seen ready while the principal is down, before any two replicas
  other than the principal are linked, and no two are linked any more once a service is created
  (`History.NewReplicasComeInTurn`); the seed ConfigMap is gone afterwards unless its deletion failed
  (`Controller.Reconcile`).
* The proxy: a success leaves it on the configured port, and has restarted one which was deployed if and only if its
  configuration changed, after that was saved (`History.RestartsExactlyWhen`, `History.ProxyServesItsConfig`).
* The text surgery inserts exactly one member into the user's JSON object, if and only if that object has a member already
  (`ProxyTexts.SurgeryIsInsertion`, `ProxyTexts.SurgeryNeedsMember`), and lists exactly the document's replicas
  (`ProxyTexts.ListsExactly`). Read back by field names, schemes, hosts and decimal places, that member says what it was made
  of (`ProxyTexts.TargetReads`, `ProxyTexts.ProxyReads`, `ProxyDeployment.SavedConfigIsSound`).
* Admission: an update is admitted if and only if the document is neither being processed nor failing, everything it refers to
  is there, only its PVC lists have changed, and the pods allow it (`Webhook.ValidateUpdate`). With the listing which the
  controller uses, that would keep every primary write master and change the replicas only while those which stay are ready
  (`Webhook.RepairedAdmissionIsSafe`, `Webhook.RepairedAdmitsExactlyWhen`); as it is written, it does not look at the replicas
  at all (`Webhook.AdmissionIsBlind`).

## Where the code does not do what it says

* `delete.go:65-77` says that the agreement is removed from each of the existing replicas. The command runs on the deleted
  replica each time, so a survivor keeps its agreements until the replica is added again (`History.StaleAgreementsStay`);
  `History.IntentFails` shows the plainest history, and `Delete.RemovedFromMeetsIntent` that the same commands on the
  survivors would do.
* A ReplicaSet whose creation is refused is ignored, and then the run goes on with any pod of the namespace. It can end
  with the document available and no replica (`Witnesses.RefusedRunSucceeds`).
* So does a ReplicaSet which is there but cannot be read: the commands which link two replicas can run on another pod, and the
  run succeeds without linking them (`Witnesses.MisledRunSucceeds`).
* A failure whose record is lost leaves a document which the next run takes for a new one, while a seed job is active
  (`Witnesses.LostRecordBreaks`). With no active job, a start is safe if and only if nothing which is going to be seeded has
  a ReplicaSet (`History.QuietIsSafeExactlyWhen`); a run which ends before the pod of a new ReplicaSet has shown up leaves one
  which is not (`Witnesses.PodlessReplicaBreaks`).
* The port of an existing service is not changed with the configuration, so the proxy's target reaches it if and only if it
  was created under that port (`History.TargetsReachExactlyWhen`, `Witnesses.PortChangeMissesTarget`); which services are
  created anew depends on the choice of the principal (`History.ServicesDependOnPrincipal`). The same holds for the
  proxy's own service (`ProxyDeployment.ProxyServiceExactly`).
* A proxy whose service could not be created, and whose failure could not be recorded, is never given one
  (`History.UnservedProxyStays`); while failures are recorded, no later run meets such a proxy (`History.HistoryIsGood`).
* The webhook lists pods by labels which no pod of the operator carries, so its readiness check and its protection of the
  primary write master never refuse anything (`Webhook.PodCheckIsBlind`, `Webhook.AdmissionIsBlind`); with the labels which the controller uses they
  would (`Webhook.RepairedCheckProtectsPrimary`).
* The webhook refuses `proxy.server-groups` and `proxy.suffixes` in the user's proxy configuration, but no other `proxy`
  entry (`Webhook.ProxyMemberPasses`); the result then has two `proxy` members (`ProxyTexts.SurgeryKeepsNamesUnique`).
* `README.md:35` promises that there is no down-time once there is a replica. The principal is down while it is copied, so
  there is a state with no replica up if and only if there was a single one (`History.NoneUpExactlyWhen`).
* A port which refers to a secret is never the one in the secret: when the secret is there its value is a string, which is an
  error, and when it is missing the default port is taken (`Configs.PortsTaken`).
* Two directories of one namespace can compute the same names, and a PVC called `proxy` clashes with the proxy
  (`Names.DirectoriesCanClash`, `Names.ProxyNameClash`).

## Model

| member | source | states |
|---|---|---|
| Names.ReplicaName | src/controllers/ibmsecurityverifydirectory_utils.go:51-55 | the PVC can be read off the end of the name of its ReplicaSet and service |
| Names.SeedJobName | src/controllers/ibmsecurityverifydirectory_utils.go:192-195 | the name of the replica is a prefix of the name of its seed job |
| Names.LastIndex | src/controllers/ibmsecurityverifydirectory_utils.go:160-171 | the last place of a character, or -1 when there is none |
| Names.PodName | src/controllers/ibmsecurityverifydirectory_utils.go:160-171 | cutting a pod's name at its last dash gives back the ReplicaSet's name, whatever suffix was appended |
| Names.NamesAreInjective | src/controllers/ibmsecurityverifydirectory_utils.go:51-55 | within a directory, two PVCs have the same replica name, or job name, only if they are the same |
| Names.NamesAreLower | src/controllers/ibmsecurityverifydirectory_utils.go:51-55 | the names have no upper-case letter, and begin with the directory as it is when that has none |
| Names.ProxyNameClash | src/utils/names.go:35-48 | a replica takes the proxy's name exactly when its PVC is called proxy |
| Names.DirectoriesCanClash | src/controllers/ibmsecurityverifydirectory_utils.go:51-55 | replicas of two directories can have the same name if and only if the lower-case name of one, with its dash, begins that of the other |
| Labels.ReplicaSelectorIsExact | src/utils/names.go:75-104 | the controller's selector picks the replica pods of its own directory, no other directory's and no proxy, and their label is their PVC |
| Labels.ServiceSelectorIsExact | src/controllers/ibmsecurityverifydirectory_utils.go:473-492 | a replica's service picks exactly that directory's pods of that PVC |
| Labels.AppSelectorMissesEveryPod | src/utils/names.go:56-67 | the selector which the webhook uses picks no pod that the operator creates |
| Documents.EditIsDocEffect | src/api/v1/ibmsecurityverifydirectory_webhook.go:107-200 | an update is admitted if and only if every check passes; then it changes neither condition, only happens when the document is neither being processed nor failing, keeps the PVCs distinct and makes a new version |
| Documents.ValidateDelete | src/api/v1/ibmsecurityverifydirectory_webhook.go:183-200 | a deletion is admitted if and only if the document is not being processed |
| States.ReactKeepsExclusive | src/controllers/ibmsecurityverifydirectory_create.go:141-230 | no step of another actor breaks volume exclusion, the replacement of a pod included |
| States.ReactKeepsInv | src/controllers/ibmsecurityverifydirectory_create.go:179-187 | nor the account of jobs: one which succeeded has seeded its destination once, from its source |
| States.SeedWritesNoLiveVolume | src/controllers/ibmsecurityverifydirectory_create.go:321-354 | what a seed overwrites, no pod mounts, no ReplicaSet can mount, and no job copies from |
| States.ReactIsEnvEffect | src/api/v1/ibmsecurityverifydirectory_webhook.go:116-121 | the steps of all others keep ReplicaSets, services, ConfigMaps and a document being processed; as long as a ReplicaSet is there it keeps a pod, which may be another one |
| States.EnvEffectTransitive | src/api/v1/ibmsecurityverifydirectory_webhook.go:116-121 | so do any number of them |
| Clusters.Cluster.constructor | src/controllers/ibmsecurityverifydirectory_controller.go:106-118 | a cluster starts from any state with volume exclusion and without duplicate agreements; the trace begins with it |
| Clusters.Cluster.Others | src/controllers/ibmsecurityverifydirectory_controller.go:106-277 | whatever the others do between two requests, the trace grows by one step at a time, each state following from the one before; the replicas watched stay up, the pinned document and the configuration stay |
| Clusters.Cluster.UpdateStatus | src/controllers/ibmsecurityverifydirectory_controller.go:194-205 | a status is only written on the version which was read, and only its conditions; it may have been written although the request failed, and a failure is recorded |
| Clusters.Cluster.ListPods | src/controllers/ibmsecurityverifydirectory_controller.go:355-369 | a successful listing shows exactly the PVCs which have a pod, each with the name of its replica |
| Clusters.Cluster.GetPod | src/controllers/ibmsecurityverifydirectory_utils.go:340-344 | a pod is found exactly under its own name, unless the request fails, which looks like its absence |
| Clusters.Cluster.CreateReplicaSet | src/controllers/ibmsecurityverifydirectory_create.go:674-732 | fails on a name which is taken, which is counted as a clash, and may have been performed although it failed; one which is not there afterwards is counted as refused, and one which breaks volume exclusion as a breach |
| Clusters.Cluster.DeleteReplicaSet | src/controllers/ibmsecurityverifydirectory_delete.go:143-157 | may only be asked for a replica which is not being kept; absence is no error, and a failed request may have been performed |
| Clusters.Cluster.CreateService | src/controllers/ibmsecurityverifydirectory_utils.go:473-515 | fails on a name which is taken, which is counted as a clash, and may have been performed although it failed; a service whose name is no replica's is a stray one |
| Clusters.Cluster.DeleteService | src/controllers/ibmsecurityverifydirectory_delete.go:123-137 | absence is no error, and a failed request may have been performed |
| Clusters.Cluster.CreateJob | src/controllers/ibmsecurityverifydirectory_create.go:398-444 | needs the configuration for a clean seed and an unused name, and may have been performed although it failed; one which breaks volume exclusion is counted as a breach |
| Clusters.Cluster.GetJob | src/controllers/ibmsecurityverifydirectory_utils.go:302-313 | what is found is the job of that destination |
| Clusters.Cluster.Exec | src/controllers/ibmsecurityverifydirectory_utils.go:525-590 | a command succeeds only while its pod is there, may have been performed although it failed, changes no volume of the directory on another's pod, and adds an agreement only where none is left as long as no removal has failed |
| Clusters.Cluster.GetConfigMap | src/controllers/ibmsecurityverifydirectory_proxy.go:424-435 | a missing ConfigMap is told apart from a failed request |
| Clusters.Cluster.CreateConfigMap | src/controllers/ibmsecurityverifydirectory_utils.go:232-240 | creates it if the name is free; that the name is taken is told apart from another failure |
| Clusters.Cluster.UpdateConfigMap | src/controllers/ibmsecurityverifydirectory_utils.go:239-246 | updates it if it is there |
| Clusters.Cluster.Fetch | src/controllers/ibmsecurityverifydirectory_config.go:44-60 | reading one of the user's ConfigMaps changes nothing, and a failure ends the procedure |
| Clusters.Cluster.CreateProxyService | src/controllers/ibmsecurityverifydirectory_proxy.go:757-802 | fails when the proxy's service is there, and may have been performed although it failed |
| Replicas.CreateConfigMap | src/controllers/ibmsecurityverifydirectory_utils.go:205-256 | created, or updated when the name was taken; a failed request may have been performed |
| Replicas.GetReplicaSetPodName | src/controllers/ibmsecurityverifydirectory_utils.go:62-152 | the pod which that ReplicaSet has now, if it is there and could be read; else any pod of the namespace, as its selector is empty then; nothing else has moved but the others, and it panics only when no pod is found |
| Replicas.WaitForPod | src/controllers/ibmsecurityverifydirectory_utils.go:334-419 | waiting changes nothing; success means that the pod is ready now, and failure that it has ended, keeps restarting, or the time is over |
| Replicas.WaitForStop | src/controllers/ibmsecurityverifydirectory_delete.go:159-175 | success means that no pod of that name is left, exactly unless a failed request was taken for that |
| Replicas.StopIsSeenExactlyWhen | src/controllers/ibmsecurityverifydirectory_delete.go:107-175 | that a pod of the resolved name is not seen any more means that the replica has stopped if and only if that pod is the one which was there when the ReplicaSet was deleted |
| Replicas.DeleteReplica | src/controllers/ibmsecurityverifydirectory_delete.go:99-178 | success means that exactly this ReplicaSet and its service are gone, the service first, and no volume has changed; and its pod, if the one resolved was the one to stop and no request failed while waiting; it fails only for a request which failed, or a pod which did not stop in time |
| Replicas.DeployReplica | src/controllers/ibmsecurityverifydirectory_create.go:548-740 | at most this ReplicaSet has come, exactly this one unless its creation was refused, which is ignored; then another pod may be returned; volume exclusion stays if no active job mounts the PVC |
| Agreements.CommandFor | src/controllers/ibmsecurityverifydirectory_create.go:498-537 | the command names the destination's service and the configured port, is of the principal's kind exactly when the source is the principal, and else names the principal |
| Agreements.CommandEdges | src/controllers/ibmsecurityverifydirectory_create.go:513-533 | a command changes the agreement of its pod's volume with its destination, and no other |
| Agreements.ClearAgreement | src/controllers/ibmsecurityverifydirectory_create.go:505-514 | unless a removal has failed, no agreement with that destination is left on that pod |
| Agreements.CreateReplicationAgreement | src/controllers/ibmsecurityverifydirectory_create.go:488-540 | success adds exactly the agreement from source to destination, by one removal and one command, that of CommandFor, if the source's own pod was found; whatever happens, only volumes have changed |
| Links.CommandPrincipal | src/controllers/ibmsecurityverifydirectory_create.go:128-135 | the principal gets exactly one agreement with each new replica |
| Links.CreateReplicationAgreements | src/controllers/ibmsecurityverifydirectory_create.go:454-480 | in any order of the map, every existing replica but the principal and the new one gets exactly one agreement with the new one |
| Links.LinkReplicas | src/controllers/ibmsecurityverifydirectory_create.go:237-243 | so for every new replica |
| SeedJobs.NextSeedIsSafe | src/controllers/ibmsecurityverifydirectory_create.go:169-177 | once what is seeded and the principal are unmounted, every seed job which can be created keeps volume exclusion, if no active job copies from a volume due for seeding but into one due before it |
| SeedJobs.SeedingLeavesUntouched | src/controllers/ibmsecurityverifydirectory_create.go:179-221 | when all jobs have been seen to succeed, no active job mounts the principal's volume or a seeded one |
| SeedJobs.SeedPhaseJob | src/controllers/ibmsecurityverifydirectory_create.go:169-177 | a seed job may start into every new volume once the principal is gone, alongside those already running |
| SeedJobs.TrackedEnded | src/controllers/ibmsecurityverifydirectory_create.go:179-187 | seeing a job succeed means that its volume has been seeded from the principal since the run began |
| SeedJobs.WaitForJob | src/controllers/ibmsecurityverifydirectory_utils.go:297-325 | success means that the job has succeeded and not failed before, and failure that it has failed or the time is over |
| SeedJobs.RemoveSeedConfigMap | src/controllers/ibmsecurityverifydirectory_create.go:189-193 | the seed ConfigMap is gone unless its deletion failed, and nothing else has changed |
| SeedJobs.StartJobs | src/controllers/ibmsecurityverifydirectory_create.go:169-177 | every job finds the configuration for a clean seed; whatever the outcome, only jobs from the principal into the new volumes have come, on success one into each, requested in order |
| SeedJobs.AwaitJobs | src/controllers/ibmsecurityverifydirectory_create.go:179-187 | after waiting for one after the other, none is running, and each has seeded its volume last |
| SeedJobs.SeedReplicas | src/controllers/ibmsecurityverifydirectory_create.go:147-193 | success means that each new volume has been seeded last from the principal, and only so since, no other volume has been written but by a job which was active before, none of the new jobs is left running, and only the seed ConfigMap has changed; that is gone unless its deletion failed, also after an error, if any job was requested |
| Serve.CreateClusterService | src/controllers/ibmsecurityverifydirectory_utils.go:458-516 | success adds exactly this service, and its name was free |
| Serve.OtherPodIsStray | src/controllers/ibmsecurityverifydirectory_create.go:83-103 | when every replica has its service, the service made for a pod which is not the new one's is a stray one |
| Serve.ServePod | src/controllers/ibmsecurityverifydirectory_create.go:271-285 | the service gets the name recovered from the pod's name, which is the replica's for its own pod; then the pod is ready |
| Serve.StartServed | src/controllers/ibmsecurityverifydirectory_create.go:257-285 | without a fault, exactly one ReplicaSet, its pod, which is ready, and its service have come; when the ReplicaSet was refused and the step succeeded all the same, there is a stray service |
| Serve.StartReplicas | src/controllers/ibmsecurityverifydirectory_create.go:200-221 | exactly the new replicas have come, with their names, unless some creation was refused; then not all of them are there |
| Serve.AwaitReplicas | src/controllers/ibmsecurityverifydirectory_create.go:223-230 | waiting, in any order, changes nothing, whatever the outcome; success means that the trace has a state for each pod in which it is ready, with these ReplicaSets |
| Serve.ServeReplicas | src/controllers/ibmsecurityverifydirectory_create.go:245-255 | in any order, exactly the services of the new replicas have come, all on one port |
| Create.SeedFromPrincipal | src/controllers/ibmsecurityverifydirectory_create.go:123-193 | the principal is down, the new volumes are seeded, and the agreements of the principal are on its volume; volume exclusion stays if no active job is in the way and the principal's stop was seen right |
| Create.IsRaised | src/controllers/ibmsecurityverifydirectory_create.go:200-255 | deploying, awaiting, linking and serving one after the other: each new replica is ready in a state with the principal down before any is linked, and all are linked before any has its service |
| Create.BringUp | src/controllers/ibmsecurityverifydirectory_create.go:195-287 | the new replicas and the principal are up, ready in turn and served, and all others have agreements with the new ones; the principal comes last and is ready; if a ReplicaSet was refused, one of them is missing or there is a stray service |
| Create.CommandsSplit | src/controllers/ibmsecurityverifydirectory_create.go:468-477 | the commands of the principal and those of the others make up each pair exactly once |
| Create.IsJoined | src/controllers/ibmsecurityverifydirectory_create.go:128-243 | agreements made before the principal's stop survive it; every new volume has been seeded from the principal, and has the agreements made since |
| Create.AddReplicas | src/controllers/ibmsecurityverifydirectory_create.go:123-287 | the whole procedure from an existing principal, in any state: which requests it makes in which order, what it leaves without a fault, and a state on the way with all ReplicaSets but the principal's |
| Create.CreateFromNothing | src/controllers/ibmsecurityverifydirectory_create.go:72-121 | the first of the new replicas becomes the principal of the others |
| Create.CreateFromExisting | src/controllers/ibmsecurityverifydirectory_create.go:54-70 | any existing replica may be the principal, and only that one is not kept up |
| Create.CreateReplicas | src/controllers/ibmsecurityverifydirectory_create.go:36-288 | in any state, for any choice of the principal: it ends as the trace tells; volume exclusion stays from a safe start; no name is created twice; without a fault exactly old and new replicas are there, each new volume seeded last from the principal and its replica seen ready before it is linked, all linked, by each pair's command exactly once, and the principal is ready again; a success is faithful exactly when no creation was refused, if each ReplicaSet's own pod was found and its stop seen right |
| Delete.OwnRemovalKeepsEdges | src/controllers/ibmsecurityverifydirectory_delete.go:65-77 | the removal as it is issued leaves every agreement between different replicas |
| Delete.DeleteReplicationAgreement | src/controllers/ibmsecurityverifydirectory_delete.go:186-197 | one removal is sent to that pod, and when that is the deleted replica's own, leaves every agreement between different replicas |
| Delete.RemoveAgreements | src/controllers/ibmsecurityverifydirectory_delete.go:70-77 | as many are sent as replicas stay, all to one pod, the deleted one's if its ReplicaSet could be read, and then leave these too, whether they fail or not |
| Delete.OneMoreDeleting | src/controllers/ibmsecurityverifydirectory_delete.go:60-88 | one replica and its service are gone, and no agreement of the others, if its own pod was found |
| Delete.DeleteReplicas | src/controllers/ibmsecurityverifydirectory_delete.go:36-91 | success leaves exactly the other replicas and services, by one deletion each in order; without a fault with their agreements, each deleted one having been sent its removals; none that is watched is ever touched; nothing to delete means no request |
| Delete.RemovedFromMeetsIntent | src/controllers/ibmsecurityverifydirectory_delete.go:65-77 | run on each survivor instead, the removals would leave no survivor an agreement with the deleted replica, and every other agreement |
| Jsons.ToksAreDistinct | src/controllers/ibmsecurityverifydirectory_proxy.go:384-395 | no two JSON values have the same tokens, and no value's tokens are the beginning of another's |
| Jsons.DenotesOne | src/controllers/ibmsecurityverifydirectory_proxy.go:384-395 | a text denotes at most one JSON value |
| Jsons.LexAppend | src/controllers/ibmsecurityverifydirectory_proxy.go:376-378 | texts side by side have the tokens of both, unless a word runs on |
| Jsons.CutAtLastBrace | src/controllers/ibmsecurityverifydirectory_proxy.go:255-266 | in a text which ends with the brace token, the last brace character is that token, even with braces in strings before it |
| ProxyTexts.BuildServers | src/controllers/ibmsecurityverifydirectory_proxy.go:289-301 | the loop writes the list of references, with commas between them |
| ProxyTexts.BuildSuffixes | src/controllers/ibmsecurityverifydirectory_proxy.go:309-328 | the loop writes one entry for each suffix, numbered from 0 |
| ProxyTexts.BuildServerGroups | src/controllers/ibmsecurityverifydirectory_proxy.go:349-370 | the loop writes the one group with all servers |
| ProxyTexts.ConstructProxyYaml | src/controllers/ibmsecurityverifydirectory_proxy.go:243-401 | the text cut and appended to, which denotes what ProxyReads and SurgeryIsInsertion say; empty, and no error, when there is no brace |
| ProxyTexts.LexServer | src/controllers/ibmsecurityverifydirectory_proxy.go:353-368 | the text of a server denotes the entry with its name, id, target and user |
| ProxyTexts.LexSuffix | src/controllers/ibmsecurityverifydirectory_proxy.go:313-326 | the text of a suffix denotes the entry with its base, name and servers |
| ProxyTexts.LexServerGroups | src/controllers/ibmsecurityverifydirectory_proxy.go:330-370 | the text of the server groups denotes one group of all servers, in order |
| ProxyTexts.ProxyTextToks | src/controllers/ibmsecurityverifydirectory_proxy.go:255-378 | the tokens of the result are those of the base without its last brace, and those of the operator's member |
| ProxyTexts.SurgeryIsInsertion | src/controllers/ibmsecurityverifydirectory_proxy.go:255-378 | the surgery on the text of a non-empty object denotes that object with exactly one more member |
| ProxyTexts.SurgeryNeedsMember | src/controllers/ibmsecurityverifydirectory_proxy.go:376-378 | its result is a JSON text if and only if the base object is not empty |
| ProxyTexts.SurgeryKeepsNamesUnique | src/controllers/ibmsecurityverifydirectory_proxy.go:376-378 | its member names are distinct if and only if those of the base are, and none of them is proxy |
| ProxyTexts.DigitsAreInjective | src/controllers/ibmsecurityverifydirectory_proxy.go:321-323 | different numbers are printed differently |
| ProxyTexts.DigitsRead | src/controllers/ibmsecurityverifydirectory_proxy.go:353-368 | printed numbers are read by the places of their digits |
| ProxyTexts.SplitsAreSound | src/controllers/ibmsecurityverifydirectory_proxy.go:303-328 | splits of different suffixes have different names, and each refers to exactly the servers of the group, in order |
| ProxyTexts.ListsExactly | src/controllers/ibmsecurityverifydirectory_proxy.go:349-370 | the servers which a generated configuration lists are exactly those it was made for, whatever else the text contains |
| ProxyTexts.TargetTellsPort | src/controllers/ibmsecurityverifydirectory_proxy.go:353-368 | two targets of one replica are the same text only for the same port |
| ProxyTexts.TargetReads | src/controllers/ibmsecurityverifydirectory_proxy.go:341-368 | a target read up to its first :// and its last colon is ldaps exactly with a secure port, the replica, and the port |
| ProxyTexts.ServerReads | src/controllers/ibmsecurityverifydirectory_proxy.go:353-368 | the fields of a server are the replica as its name and id, that target, and the administrator with the password |
| ProxyTexts.SplitReads | src/controllers/ibmsecurityverifydirectory_proxy.go:303-326 | the fields of a split are the suffix, its number, and the replicas in order |
| ProxyTexts.ProxyReads | src/controllers/ibmsecurityverifydirectory_proxy.go:330-378 | the generated member is called proxy, and is one group of exactly the document's replicas and one split for each suffix |
| Yamls.ConvertYaml | src/utils/yaml.go:41-62 | panics exactly on a key which is no string; else the converted tree |
| Yamls.ConvertIsIdempotent | src/utils/yaml.go:41-62 | converting again changes nothing and cannot panic |
| Yamls.ConvertPreservesLookup | src/utils/yaml.go:41-116 | lookup in the converted tree finds the conversion of what is at the path of the parsed tree, nothing exactly when the path is absent or holds null |
| Yamls.FindFrom | src/utils/yaml.go:133-137 | a name found is not empty and, behind its first character, has no slash; a key found is one line |
| Yamls.SecretRoundTrip | src/utils/yaml.go:125-157 | a reference to a secret is taken apart as it was put together, exactly for names and keys of that form |
| Yamls.ReferencesResolve | src/utils/yaml.go:125-160 | a well-formed reference gives the secret's value, or nothing when secret or key are missing; any other value stays |
| Configs.Int32 | src/controllers/ibmsecurityverifydirectory_config.go:118 | ports wrap around to 32 bits |
| Configs.PortIsZeroOnlyIfDisabled | src/controllers/ibmsecurityverifydirectory_config.go:91-153 | the port is 0 only if the user has disabled both; the secure one is used exactly when ldap is 0 |
| Configs.PortsTaken | src/controllers/ibmsecurityverifydirectory_config.go:91-153 | the ldap port, 9389 if there is none; if it is 0 the ldaps port, 9636 if there is none; a port which refers to a secret counts as none if that is missing, and is an error if it is there |
| Configs.WrittenConfig | src/controllers/ibmsecurityverifydirectory_config.go:91-234 | from a configuration which is written out, each value is taken from its place, with cn=root for a missing DN |
| Configs.Found | src/utils/yaml.go:70-116 | every value the operator reads is the one at that path of the parsed tree |
| Configs.GetConfigSuffixes | src/controllers/ibmsecurityverifydirectory_config.go:243-323 | the DNs of all entries in order, an error unless it is a list of maps, a panic if a DN is missing or no string |
| Configs.SetPort | src/controllers/ibmsecurityverifydirectory_config.go:91-153 | the endpoint which the parsed tree configures, an error exactly when there is none |
| Configs.GetServerConfig | src/controllers/ibmsecurityverifydirectory_config.go:35-234 | succeeds exactly on trees which configure everything that is required, with what they configure; panics only on a misplaced type |
| ProxyDeployment.GetProxyJson | src/controllers/ibmsecurityverifydirectory_proxy.go:108-235 | succeeds exactly on a map with string keys and a port which is a number; the base configuration, and that port |
| ProxyDeployment.SaveProxyConfig | src/controllers/ibmsecurityverifydirectory_proxy.go:410-470 | updated is false exactly when the same text was there; it is there afterwards; a failure changes nothing, or has saved it |
| ProxyDeployment.RestartProxy | src/controllers/ibmsecurityverifydirectory_proxy.go:681-733 | an existing deployment gets the configured port, and is restarted exactly when the configuration was updated; what that means for a run is History.RestartsExactlyWhen |
| ProxyDeployment.StartProxy | src/controllers/ibmsecurityverifydirectory_proxy.go:735-802 | deployment and service are created, and the service's name was free |
| ProxyDeployment.ProxyServiceExactly | src/controllers/ibmsecurityverifydirectory_proxy.go:681-802 | afterwards there is a service if and only if there was one or no deployment, and it has the deployment's port if and only if it is new or was created under that port |
| ProxyDeployment.CreateProxyDeployment | src/controllers/ibmsecurityverifydirectory_proxy.go:479-805 | the one or the other, with the port; the service comes only with the deployment |
| ProxyDeployment.DeployProxy | src/controllers/ibmsecurityverifydirectory_proxy.go:48-99 | success leaves the configuration of the document's replicas and changes no replica, service or volume; once it is saved, with the proxy still as it was, it and these replicas are watched, whatever the outcome; it fails only as the trace tells, or for a configuration which cannot be used |
| ProxyDeployment.SavedConfigIsSound | src/controllers/ibmsecurityverifydirectory_proxy.go:353-368 | the saved text is the user's object and one member, called proxy, which reads as one group of the document's replicas in order, each with its account and its target - scheme, service name and configured port -, and a split for each suffix; a target has its service's port if and only if that was created under the configured one |
| Controller.GetExistingPods | src/controllers/ibmsecurityverifydirectory_controller.go:345-372 | the keys are exactly the PVCs which have a pod |
| Controller.Missing | src/controllers/ibmsecurityverifydirectory_controller.go:419-423 | exactly the listed PVCs without a replica, distinct if the document's are |
| Controller.MissingInOrder | src/controllers/ibmsecurityverifydirectory_controller.go:419-423 | they stand in the order of the document |
| Controller.NotListed | src/controllers/ibmsecurityverifydirectory_controller.go:392-415 | exactly the replicas which are not listed, each once, whatever the order of the map |
| Controller.AnalyseExistingPods | src/controllers/ibmsecurityverifydirectory_controller.go:381-426 | these, and the missing ones in the document's order |
| Controller.SetCondition | src/controllers/ibmsecurityverifydirectory_controller.go:285-335 | a recorded outcome leaves InProgress false and Available true exactly without an error, on the version which was read, and changes nothing else, whatever was answered |
| Controller.IsReconciled | src/controllers/ibmsecurityverifydirectory_controller.go:220-265 | creating, publishing and deleting together make the cluster what the document says, with exactly the new volumes seeded |
| Controller.TilesHold | src/controllers/ibmsecurityverifydirectory_controller.go:194-265 | windows of the trace without a gap hold for all of it |
| Controller.FetchConfig | src/controllers/ibmsecurityverifydirectory_controller.go:207-218 | fails exactly when the ConfigMap cannot be read or the configuration in it cannot be used |
| Controller.DeployWatched | src/controllers/ibmsecurityverifydirectory_controller.go:239-254 | deploying the proxy touches no ReplicaSet, counts nothing, and ends as the trace tells or for an unusable configuration; what is watched meanwhile stays |
| Controller.Grow | src/controllers/ibmsecurityverifydirectory_controller.go:210-237 | configuration and new replicas in any state, ending as the trace tells or for an unusable configuration, with the windows in which the spared replicas stay up and document and configuration stay |
| Controller.Publish | src/controllers/ibmsecurityverifydirectory_controller.go:239-265 | the proxy and then the deletions: until the configuration is saved everything found or added stays up, and from then on the document's replicas and that configuration |
| Controller.Process | src/controllers/ibmsecurityverifydirectory_controller.go:207-265 | whatever the outcome, in every state since the InProgress write the document is the one which was read; the replicas found but the principal are up with the old configuration until the proxy is deployed, and from the save on those of the document with the new one; the outcome is a success exactly when the configuration can be used and the trace tells of no error |
| Controller.Examine | src/controllers/ibmsecurityverifydirectory_controller.go:123-178 | a failing document ends the run without a change; else what was found is still so; the run ends here only for a failing document, one which could not be read, or pods which could not be listed |
| Controller.Begin | src/controllers/ibmsecurityverifydirectory_controller.go:123-205 | the run goes on only with the stored document marked as being processed and equal to what was read; the state in which the pods were listed is one of the trace; it ends here only for the reasons of Examine or a status which could not be written |
| Controller.Finish | src/controllers/ibmsecurityverifydirectory_controller.go:267-335 | an error is recorded as failing and a success as available, unless the status could not be written, which the trace tells |
| Controller.Execute | src/controllers/ibmsecurityverifydirectory_controller.go:207-277 | the run from there on, by its result, which is a success exactly when the configuration can be used and nothing went wrong, a recorded failure or a lost one exactly for an error, and a crash for a panic |
| Controller.SucceedsExactlyWhen | src/controllers/ibmsecurityverifydirectory_create.go:725-732 | a success makes the cluster what the document says if and only if no creation of a ReplicaSet was refused, when every replica had its pod and service before, no stop was misjudged and no other pod than its own was taken for a ReplicaSet's |
| Controller.Reconcile | src/controllers/ibmsecurityverifydirectory_controller.go:106-277 | from any state, and extending the trace: volume exclusion stays when the start it has found in listing the pods is safe and the principal's stop was seen right; a success reconciles under the exact condition of SucceedsExactlyWhen; why it has its result; the order in which it goes; what holds in every state of the run; the exact requests; a failing document is left alone, an error is recorded as failing |
| History.EmptyIsGood | src/controllers/ibmsecurityverifydirectory_create.go:72-121 | histories may start from nothing |
| History.GrownConnects | src/controllers/ibmsecurityverifydirectory_create.go:128-243 | a run which found all pairs linked leaves all pairs linked, with replicas added, seeded, removed and added again |
| History.StepIsGood | src/controllers/ibmsecurityverifydirectory_controller.go:106-277 | every recorded step of a history whose successes met no fault keeps the cluster complete, linked and its deployed proxy served, or the document failing, also when the configuration changes between runs |
| History.HistoryIsGood | src/controllers/ibmsecurityverifydirectory_create.go:128-243 | so does every history |
| History.FailingIsForever | src/controllers/ibmsecurityverifydirectory_controller.go:163-165 | once the document is failing, the operator changes nothing any more and no update is admitted, whatever was before and however any run ends |
| History.RunSucceedsExactlyWhen | src/controllers/ibmsecurityverifydirectory_controller.go:207-277 | a started run succeeds if and only if the configuration can be used and from the InProgress write on nothing went wrong; it fails only for an error or an unusable configuration, and crashes only for a panic |
| History.NewReplicasComeInTurn | src/controllers/ibmsecurityverifydirectory_create.go:137-287 | without a fault, each replica which is seeded is seen ready while the principal is down and before any two others are linked; the principal is ready when the proxy is deployed; with replicas before, no two are linked once a service is created |
| History.RestartsExactlyWhen | src/controllers/ibmsecurityverifydirectory_proxy.go:681-733 | a success leaves the proxy on the configured port, and restarts one which was deployed if and only if the stored configuration changed |
| History.ProxyServesItsConfig | src/controllers/ibmsecurityverifydirectory_proxy.go:48-99 | a run which changes the servers of a deployed proxy has restarted it since the state in which it saved them |
| History.QuietIsSafeExactlyWhen | src/controllers/ibmsecurityverifydirectory_create.go:128-230 | with no active job, a start is safe if and only if nothing which is going to be seeded has a ReplicaSet |
| History.RunOnce | src/controllers/ibmsecurityverifydirectory_controller.go:106-277 | one of these runs is a step of a history, and keeps the cluster good when its outcome is recorded and a success has met no fault |
| History.Operate | src/controllers/ibmsecurityverifydirectory_controller.go:106-277 | any number of runs, whatever states they find, their outcomes and configurations, interleaved with everything else, and logged as a history: no breach of volume exclusion as long as each run has found a safe start and was calm, which they do from an empty cluster while every outcome is recorded and no success has met a fault; and then the log is a history as in HistoryIsGood |
| History.RunningAgainChangesNothing | src/controllers/ibmsecurityverifydirectory_proxy.go:445-454 | a second run of the same document leaves replicas, services, volumes, the proxy and its configuration |
| History.CommandsDoNotDependOnPrincipal | src/controllers/ibmsecurityverifydirectory_create.go:62-67 | the pairs which are commanded are the same for every principal; their kind tells the principal |
| History.OutcomeDoesNotDependOnOrder | src/controllers/ibmsecurityverifydirectory_create.go:62-67 | replicas, configuration, proxy and the agreements made are the same for every principal and order |
| History.ServicesDependOnPrincipal | src/controllers/ibmsecurityverifydirectory_create.go:141-145 | so is a replica's service, exactly unless it was created under another port and the choice of the principal decides whether it is created anew |
| History.TargetsReachExactlyWhen | src/controllers/ibmsecurityverifydirectory_proxy.go:353-368 | after a success, a replica's target names its service, and its port if and only if this run has created the service, or it was created under the configured port |
| History.UnservedProxyStays | src/controllers/ibmsecurityverifydirectory_proxy.go:757-802 | a success leaves a proxy service if and only if there was one or no deployment |
| History.StaleAgreementsStay | src/controllers/ibmsecurityverifydirectory_delete.go:65-77 | over histories, a replica which stays keeps exactly its agreements with one that is taken out, until that is added again |
| History.IntentFails | src/controllers/ibmsecurityverifydirectory_delete.go:65-77 | two replicas from nothing and then the second taken away: the first one keeps its agreement |
| History.NoneUpExactlyWhen | src/controllers/ibmsecurityverifydirectory_create.go:137-145 | a run which adds replicas without a fault has a state with no replica up if and only if it found a single one |
| History.ListedAreUp | src/controllers/ibmsecurityverifydirectory_proxy.go:410-470 | in every state of a run without a fault, whatever its result, every replica which the proxy's configuration lists there is up, but the principal before the proxy is deployed, and that only if replicas are added |
| History.SuccessListsOnly | src/controllers/ibmsecurityverifydirectory_proxy.go:349-370 | a success leaves a configuration which lists only replicas which are there |
| History.HistoryListsOnly | src/controllers/ibmsecurityverifydirectory_proxy.go:349-370 | over histories, unless the document is failing, the stored configuration lists only replicas which are there |
| Courses.UnsafeStartBreaks | src/controllers/ibmsecurityverifydirectory_create.go:123-230 | from every state with volume exclusion in which a run lists the pods and finds no safe start there is a course of events in which the run's own requests, in their order, break volume exclusion |
| Witnesses.FirstRunReconciles | src/controllers/ibmsecurityverifydirectory_create.go:72-121 | from nothing: the first run of one PVC, request by request, reconciles |
| Witnesses.LostRecordBreaks | src/controllers/ibmsecurityverifydirectory_controller.go:323-328 | from nothing: a first run which fails while it seeds and cannot record that, and the next run's first request, which breaks volume exclusion |
| Witnesses.UnseenStopBreaks | src/controllers/ibmsecurityverifydirectory_delete.go:107-175 | from nothing: the principal's pod is replaced between the look-up of its name and the deletion, or a failed request is taken for its absence, and the seed job mounts a volume in use |
| Witnesses.PodlessReplicaBreaks | src/controllers/ibmsecurityverifydirectory_utils.go:89-143 | from nothing: a run ends because the pod of a new ReplicaSet has not shown up in time, and the next run, which finds no active job, seeds the volume which that ReplicaSet mounts |
| Witnesses.RefusedRunSucceeds | src/controllers/ibmsecurityverifydirectory_create.go:725-732 | from nothing: the ReplicaSet is refused, the run goes on with the pod of another deployment, and the document becomes available with no replica |
| Witnesses.MisledRunSucceeds | src/controllers/ibmsecurityverifydirectory_utils.go:108-143 | from nothing: a ReplicaSet cannot be read while its pod is looked for, the commands run on another pod, and the run succeeds with two replicas which are not linked |
| Witnesses.PortChangeMissesTarget | src/controllers/ibmsecurityverifydirectory_proxy.go:353-368 | from nothing: the configured port changes, and the saved target names a port on which the service does not listen |
| Webhook.ValidateProxyConfigMap | src/api/v1/ibmsecurityverifydirectory_webhook.go:445-515 | passes exactly when neither generated entry is configured |
| Webhook.ProxyMemberPasses | src/api/v1/ibmsecurityverifydirectory_webhook.go:494-512 | a proxy member with one entry passes if and only if that is neither of the generated ones, or null |
| Webhook.ValidateUnique | src/api/v1/ibmsecurityverifydirectory_webhook.go:230-257 | passes exactly when no PVC occurs twice, the proxy's included |
| Webhook.ValidateEnvFrom | src/api/v1/ibmsecurityverifydirectory_webhook.go:282-310 | passes exactly when every ConfigMap and secret that is referred to and not optional is there |
| Webhook.ValidateDocument | src/api/v1/ibmsecurityverifydirectory_webhook.go:204-324 | passes exactly when all PVCs, ConfigMaps, keys and secrets which are referred to exist, no PVC occurs twice, and the proxy's configuration is fit; panics exactly when only that has a key which is no string |
| Webhook.ByPvc | src/api/v1/ibmsecurityverifydirectory_webhook.go:652-654 | the pods by their label, one for each |
| Webhook.LastWins | src/api/v1/ibmsecurityverifydirectory_webhook.go:652-654 | of several pods with one label, the last one counts |
| Webhook.Classify | src/api/v1/ibmsecurityverifydirectory_webhook.go:656-696 | which pods go, which stay, and whether any comes |
| Webhook.ValidatePods | src/api/v1/ibmsecurityverifydirectory_webhook.go:624-763 | allowed exactly when nothing changes, or each pod which stays is read by its name and ready and none which goes is a primary write master |
| Webhook.PodCheckIsBlind | src/api/v1/ibmsecurityverifydirectory_webhook.go:636-641 | what the check allows depends only on pods which the operator has not created; when none of them carries its labels, it refuses only when the proxy does not answer |
| Webhook.AdmissionIsBlind | src/api/v1/ibmsecurityverifydirectory_webhook.go:636-641 | as it is written, an update which passes the other checks is admitted if and only if the proxy has answered or the new list is empty, whatever replicas it takes away |
| Webhook.ValidateDocumentUpdates | src/api/v1/ibmsecurityverifydirectory_webhook.go:565-615 | passes exactly when nothing but the PVC lists differs |
| Webhook.ValidateUpdate | src/api/v1/ibmsecurityverifydirectory_webhook.go:107-173 | the verdict in the order of the checks; admitted if and only if the document is idle and not failing, complete and fit, changed only in its PVC lists, and the pods allow it; panics exactly when it is idle and only its proxy configuration has a key which is no string |
| Webhook.ReplicaListingIsExact | src/controllers/ibmsecurityverifydirectory_controller.go:355-369 | with the controller's labels, the listing is about exactly the replicas of the directory |
| Webhook.RepairedCheckProtectsPrimary | src/api/v1/ibmsecurityverifydirectory_webhook.go:742-760 | with these, taking away the primary write master is refused |
| Webhook.RepairedAdmissionIsSafe | src/api/v1/ibmsecurityverifydirectory_webhook.go:624-763 | with the controller's labels, an admitted update never takes away a primary write master, and changes the replicas only while every one which stays has a pod that is ready |
| Webhook.RepairedAdmitsExactlyWhen | src/api/v1/ibmsecurityverifydirectory_webhook.go:624-763 | and it is admitted if and only if that is so and the other checks pass, when no two pods have the same PVC |
| Webhook.LastHit | src/api/v1/ibmsecurityverifydirectory_webhook.go:972-981 | where a greedy prefix ends: the last match |
| Webhook.WriteMasterRoundTrip | src/api/v1/ibmsecurityverifydirectory_webhook.go:972-985 | from a DN whose last backend server is the printed name of a replica, exactly that PVC is extracted, if and only if no plus sign or comma stands behind its first character |
| Webhook.PrimaryIsRead | src/api/v1/ibmsecurityverifydirectory_webhook.go:972-989 | from an entry as the proxy returns it, the PVC of its last backend server is a primary write master exactly with the role primarywriteserver |
| Webhook.PrimaryWriteMasters | src/api/v1/ibmsecurityverifydirectory_webhook.go:976-989 | exactly the PVCs extracted from entries with the primary role |

## Left out

- States.React: what a seed job leaves on its destination is any set of agreements, which is more than the external tool
  is known to do; a ReplicaSet is taken to have at most one pod, which is replaced in one step. Of the updates of users,
  only what they do to the PVC list and the version is kept, whatever the other validators say.
- Clusters.Cluster.Valid: objects are keyed by PVC instead of by name, and every request shows that the name it sends is
  that of the PVC; objects of other directories, and a PVC called proxy, are not in the cluster of this model.
- Clusters.Cluster.Exec: the command is taken to add or remove exactly the agreement which its flags name; what agreements
  replicate, and whether the two directions of one need each other, is outside of the repository.
- Clusters.Answered: a request which is performed although it failed has been performed before it is answered.
- States.Up: a replica is up while its ReplicaSet and its pod are there; that a pod stays ready is not claimed.
- Replicas.GetReplicaSetPodName: pods which are not the directory's have no names like those of its replicas' pods; when the
  namespace has no pod at all the source panics, and the run ends (Lost).
- Controller.Reconcile: what a run makes of the cluster is claimed for a start in which every ReplicaSet has its pod and every
  pod its ReplicaSet, as the operator takes it when it lists pods; volume exclusion, what the document and the
  proxy's configuration are in every state of the run, is claimed for every start.
  The reason and the message of conditions, and the deletion of the document, are not modelled.
- Create.CreateReplicas: nothing is said of the agreements of volumes into which a seed job was active before the run.
- ProxyTexts.ConstructProxyYaml: the saved text is the JSON text; its conversion to YAML, and that of the user's YAML to
  JSON, is library code, which here may fail but changes nothing.
- ProxyTexts.SurgeryIsInsertion: names, suffixes, DN and password are taken to need no escaping in JSON; the source does not
  escape them.
- Jsons.ToksAreDistinct: the inner grammar of numbers is not checked, and string lexemes are compared without decoding
  their escapes.
- ProxyDeployment.CreateProxyDeployment: of the deployment only its port is kept; whether it differs otherwise is decided by
  defaulting in the API server, so it is an arbitrary choice here.
- Yamls.ConvertYaml: trees are values, so the conversion of a list in place is not seen by others who hold that list.
- Yamls.ResolveEntry: secrets can always be read; a failed read counts as a missing secret in the source.
- Webhook.ValidateDocument: an object which cannot be read counts as missing.
- Webhook.ValidatePods: asking the proxy, and the listing, are inputs.
- Webhook.ValidateDocumentUpdates: image, resources, environment and service account are opaque values; that an empty list
  and a missing one are different values to the source's comparison is not seen.
- Webhook.WriteMasterRoundTrip: DNs have no line breaks, and directory names no special characters but dots, as names in
  Kubernetes have.
- Real time: polling ends after any number of rounds, which the trace records as such; the time to live of a job may remove it before it is seen.
- Pod, Job and Deployment templates, probes, environment, logging, TLS, the LDAP protocol, and the set-up of the manager.
