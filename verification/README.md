# The Machine reconciler of docker-machine-operator, verified

The operator turns a `Machine` object into a docker machine. For AWS it first builds a network (VPC, subnet, internet
gateway, attachment, default route), records the ids in annotations, runs `docker-machine create`, polls a result file,
and on deletion undoes everything before it removes its finalizer. Every external call may fail, and with it
the pass. This project models the reconciler as a state machine over three stores (EC2, the API server, the operator's
host) plus the reconciler's own memory, and proves what holds over every run.

## How it is built

- `Cloud`, `Ec2Api`: EC2 as a value and the calls on it, each of which may fail. `Hosts`: `docker-machine` and the result
  file. `Store`: the API server. These are the environment; their contracts are the assumptions listed below.
- `Machines`, `ScriptResult`, `Polling`, `Arguments`: conditions and phases, the result file, `waitForState`, the argument list.
- `Sessions` (util.go), `Aws` (aws.go), `Controller` (machine_controller.go, machine.go, cluster.go): the operator, method by
  method, as classes that change the stores in place. `Environment` and `SagaSteps` hold the reasoning about EC2.
- `Worlds`, `Passes`: the invariant `WorldOk` over all stores, and `PassEffect`, which says what one pass may do.
  `Controller.MachineReconciler.Reconcile` is proved to keep the one and to have the other.
- `Runs`, `Theorems`: runs are sequences of passes for any Machines in any order, interleaved with users creating and
  deleting Machines; the theorems are inductions over runs. A pass enters a run through the contract of `Reconcile` and
  nothing else (if the invariant held before, it holds afterwards, the effect is a `PassEffect`, the pass `Closes` with an
  attempt to store what is in memory, and it `Progresses`), so the work behind an invariant is in `Reconcile`. `Operation.Operate` shows that operating the reconciler produces nothing but such
  runs. Inside a pass the user may delete the Machine just before any request to the API server.

Failures are counted by the environment alone (`Bill`): requests to the API server, commands on the host, result files that
could not be opened, EC2 calls and compensating EC2 calls that failed although EC2's rules allow them. So no contract of the
operator can be met by counting a failure that did not happen.

Leaks are counted by `Environment.Debts`: live VPCs, subnets and gateways created for a Machine that its annotations do
not name, and also a named gateway that is detached, because a retry may overwrite its record.

## Assumptions

EC2 refuses to delete a VPC that holds a subnet, an attached gateway or a non-default group, a subnet with an instance,
or an attached gateway; it attaches at most one gateway to a VPC; ids are never reused; nobody else edits these
resources. A failed call changes nothing. `docker-machine rm` that succeeds has removed the instance. Machines have
names of their own even across namespaces, because `docker-machine` only gets the bare name. Passes are serialized and
reads are current. The spec is fixed and users do not write the three annotations. A summary is True if
all present conditions are True, otherwise False with the reason of the first False one, and absent if none is present.
The base64 encoding (section 4 of RFC 4648) is injective and leaves the empty value empty.

## What the code does not do

- Success is not final: the lookup at pkg/controller/cluster.go:39 uses phase names as condition types and never finds
  anything, so every pass copies and reads the result file again (`Machines.OutcomeDecidesPhase`).
- The VPC annotation survives a rollback, so a Machine that was rolled back completely never gets its network
  (`Theorems.NoCreationAfterRollback`).
- Cleanup does not reach an unrecorded subnet or attached gateway; such a leftover keeps the finalizer in place for good
  (`Theorems.CleanupConserves`). A gateway that was detached but not deleted does not.
- After a transient read error, the pass commits whatever copy an earlier pass left in memory, possibly of another Machine
  (`Controller.MachineReconciler.CommitMemory`). This is harmless for every property below as
  long as a name is not used again: after `k` was let go, memory still holds `k` as deleted, and if a user created `k`
  again, such a pass would write Terminating and the old readiness to the new object, which would then never be launched
  (`Runs.ReusedName`, with the exact condition).
- A Machine ns2/x is not kept apart from ns1/x on the host: `docker-machine` is called with `x` for both
  (pkg/controller/util.go:136), and "already exists" counts as ready (pkg/controller/machine.go:71). Theorems about EC2
  resources, annotations, statuses and finalizers hold all the same; those about docker machines speak of the name
  (`Theorems.InstanceIsolation`, the machine of a result file).

## Model

| member | source | states |
|---|---|---|
| Aws.LastTableOf | pkg/controller/aws.go:124-129 | the search loop finds the last listed route table of the VPC, and none exactly when none is listed |
| Aws.AwsEnvironment.CreateAwsRoute | pkg/controller/aws.go:119-145 | success puts the default route into one table of this VPC; failure changes nothing, and comes only from a failed call, a VPC without a table or a route that is there already; other Machines' resources stay |
| Aws.AwsEnvironment.DeleteAwsRoute | pkg/controller/aws.go:147-171 | success takes the default route out of one table of this VPC; failure changes nothing |
| Aws.AwsEnvironment.DeleteAwsInternetGateway | pkg/controller/aws.go:220-240 | although route and detach errors are swallowed, success means that the gateway is gone, and each gateway left behind is one failed delete; without faults the default route of a VPC with one table is gone |
| Aws.AwsEnvironment.ConnectGateway | pkg/controller/aws.go:194-211 | a new gateway is attached and routed; that fails only if a call fails or the VPC has a gateway, a default route or no table |
| Aws.AwsEnvironment.RaiseGateway | pkg/controller/aws.go:189-211 | a gateway that is attached and routed, or compensation that restores the account unless a compensating call fails against EC2's rules; it fails only if a call fails or the VPC is not open to a gateway and a route |
| Aws.AwsEnvironment.CreateAwsInternetGateway | pkg/controller/aws.go:189-218 | success records a gateway that is attached and routed; new debts are at most the failed calls, even when an older record is overwritten |
| Aws.AwsEnvironment.DeleteAwsSubnet | pkg/controller/aws.go:272-291 | success means that the subnet is gone; what remains of subnet and gateway equals the failed deletes |
| Aws.AwsEnvironment.DeleteSecurityGroups | pkg/controller/aws.go:392-416 | only groups of this VPC go away; without faults only the default one is left |
| Aws.AwsEnvironment.DeleteAwsVpc | pkg/controller/aws.go:364-390 | the account a complete cleanup leads to is the same before and after, whatever fails; without faults it succeeds exactly when nothing unreachable is in the VPC, and then that account is reached |
| Aws.AwsEnvironment.ConnectSubnet | pkg/controller/aws.go:255-267 | the subnet is recorded in a complete environment, or taken back; each leak is a failed call |
| Aws.AwsEnvironment.CreateAwsSubnet | pkg/controller/aws.go:242-270 | without a region it fails and creates nothing; with one it fails only if a call or a patch fails or the VPC is not open; success means a complete recorded environment; failure without faults restores the account |
| Aws.AwsEnvironment.RecordVpc | pkg/controller/aws.go:320-342 | a new VPC that is recorded is kept exactly if it becomes available within 13 polls, and taken back otherwise; the account is as before unless a patch or a compensating call failed |
| Aws.AwsEnvironment.FindOrCreateVpc | pkg/controller/aws.go:309-348 | a VPC is created only if none is recorded; a new VPC is used only after it became available within 13 polls; otherwise it is taken back |
| Aws.AwsEnvironment.CreateAwsVpc | pkg/controller/aws.go:309-362 | exact rollback from no annotations; every leak is a failed patch or delete; VPCs made equal the record plus failed VPC patches; a recorded VPC that is gone means that nothing happens; it fails only if a call or a patch fails, the VPC does not become available, or the region or EC2's rules forbid it |
| Aws.AwsEnvironment.CreateAwsEnvironment | pkg/controller/aws.go:418-428 | success means that VPC, subnet and gateway are recorded, live, attached and routed; failure from no annotations is an exact rollback; it fails only if a call or a patch fails or the region or EC2's rules forbid it |
| Aws.AwsEnvironment.CleanupAwsResources | pkg/controller/aws.go:64-70 | success means that the recorded VPC is gone; the target of cleanup is conserved; without faults success is equivalent to there being no leftover |
| SagaSteps.VpcTakenBack | pkg/controller/aws.go:336-341 | deleting a new VPC with nothing in it restores the account exactly |
| Environment.CleanReadyMeaning | pkg/controller/aws.go:364-390 | cleanup can finish exactly when no unrecorded subnet or attached gateway and no instance is in the VPC |
| Environment.UnrecordedAreDebts | pkg/controller/aws.go:212-214 | the leaks that are counted include every unrecorded live VPC, subnet and gateway |
| SagaSteps.RecordedDebts | pkg/controller/aws.go:212-214 | overwriting the gateway record loses nothing that was not counted before |
| Polling.WaitForState | pkg/controller/util.go:229-243 | succeeds exactly if a positive answer comes within floor(timeout/retry)+1 polls before any error, and never polls more often |
| Polling.RoundsStep | pkg/controller/util.go:230 | the n-th round starts within the timeout exactly when n is below floor(timeout/retry)+1 |
| ScriptResult.ScanForInteger | pkg/controller/cluster.go:61-85 | finds the first line that reads as a 64 bit integer, and nothing exactly when no line does |
| ScriptResult.FirstIntegerUnique | pkg/controller/cluster.go:61-85 | the verdict is a function of the file |
| Machines.FirstFalseMeaning | api/v1alpha1/helper.go:56-63 | the summary is True exactly when all present conditions are, otherwise it has the reason of the first False one |
| Machines.PhaseMeaning | api/v1alpha1/helper.go:65-100 | each committed phase read off the conditions; Pending is impossible |
| Machines.PhasesFollow | api/v1alpha1/helper.go:65-100 | conditions that only progress commit phases in the fixed order |
| Machines.SummarizedOk | pkg/controller/util.go:173-174 | summarizing keeps every invariant of the conditions and undoes nothing decided |
| Machines.OutcomeDecidesPhase | pkg/controller/cluster.go:39-86 | the phase of a ready Machine is exactly what the last look at the result file says, so Success is not final |
| Sessions.Session.UpdateMachineStatus | pkg/controller/util.go:168-180 | the status in memory is stored in full or not at all; phases stay in order under concurrent deletion |
| Sessions.Session.SetInitialConditions | pkg/controller/util.go:182-193 | the initial marks take back nothing that was stored |
| Sessions.Session.PatchAnnotation | pkg/controller/util.go:203-215 | success sets one annotation, on an object that is made anew if it is gone, and replaces memory, status included, by the stored object; failure changes neither; a Machine held by its finalizer stays held |
| Sessions.Session.EnsureFinalizer | pkg/controller/util.go:52-62 | success means that the finalizer is stored, even if the object had to be created again |
| Sessions.Session.DropFinalizer | pkg/controller/util.go:81-93 | the object of a deleted Machine goes away together with its finalizer |
| Sessions.WrittenOk | pkg/controller/util.go:173-178 | one commit keeps all stored statuses sound and all committed phases in order |
| Arguments.PairArgs | pkg/controller/machine.go:95-98 | in any map order, decoding the pairs gives back exactly the entries of the map |
| Arguments.AuthArgs | pkg/controller/machine.go:124-147 | succeeds exactly if no key or value is empty, whatever the order; the pairs decode to the (for Google, encoded) data |
| Arguments.AmiArgs | pkg/controller/aws_region.go:52-60 | one pair exactly if the region has an image |
| Arguments.AnnotationArgs | pkg/controller/aws.go:49-62 | the pairs decode to the recorded VPC and subnet |
| Arguments.MachineArgs | pkg/controller/machine.go:91-122 | `create --driver D`, pairs, then the name; each pair is listed exactly as often as it is a parameter, the script's, the secret's (encoded for Google and for no other driver), the image's of the region, or for AWS the recorded VPC's or subnet's |
| Arguments.DecodeAppend | pkg/controller/machine.go:91-122 | decoding is compositional |
| Arguments.ArgumentsDetermine | pkg/controller/machine.go:124-147 | two secrets never give the same command, even when values are encoded |
| Hosts.Host.DockerMachineCreate | pkg/controller/machine.go:64-77 | adds at most a group and an instance of this Machine; each command is recorded with what it was given, the state it found and how it ended |
| Hosts.Host.DockerMachineRemove | pkg/controller/util.go:135-148 | success means that the instance is gone; instances under other names are untouched |
| Controller.MachineReconciler.UpdateMachineStatus | pkg/controller/util.go:168-180 | keeps the invariant of all stores; what is in memory is committed or kept |
| Controller.MachineReconciler.CreatePrerequisites | pkg/controller/machine.go:84-89 | success means a complete environment; books, isolation and exact rollback as for a whole pass |
| Controller.MachineReconciler.PrepareMachine | pkg/controller/machine.go:46-54 | launching goes on only with the initial conditions stored and the environment complete; it fails only if a request failed or the environment could not be built |
| Controller.MachineReconciler.ReadSecrets | pkg/controller/machine.go:100-116 | success marks AuthDataReady, and ScriptReady if a script is referenced, and the auth arguments decode to the data of the secret just read; failure marks the one that is missing, and comes only from a failed read or an incomplete secret |
| Controller.MachineReconciler.ReadAuth | pkg/controller/machine.go:110-116 | AuthDataReady is True exactly if a complete secret was read just now, to whose data the arguments decode |
| Controller.MachineReconciler.GetMachineCreationArgs | pkg/controller/machine.go:91-122 | arguments are returned only after the status was committed, and list exactly the parameters, the script pair, the secret's data, the image and the recorded ids |
| Controller.MachineReconciler.MarkLaunched | pkg/controller/machine.go:71-79 | the mark of MachineReady is the one that belongs to how the command ended; "already exists" counts as success |
| Controller.MachineReconciler.LaunchMachine | pkg/controller/machine.go:61-81 | exactly one command, for the spec and annotations of the stored object in the environment it still has; a command that failed is an error and marks MachineReady False with CreationFailed, one that worked or found its machine marks it True; success means that this is stored |
| Controller.MachineReconciler.CreateMachine | pkg/controller/machine.go:40-82 | at most one launch, of the Machine as it is stored, only if neither MachineCreating nor MachineReady was True; it fails only if a request, a command, the environment or the secret fails |
| Controller.MachineReconciler.IsScriptFinished | pkg/controller/cluster.go:35-86 | the verdict rests on the very file that this call copied from this machine, whatever file lay there before; without a file the Machine waits; a file that could be opened decides by its first integer; every error path |
| Controller.MachineReconciler.ReadResult | pkg/controller/cluster.go:57-86 | nothing is marked only if the file could not be opened or no line is an integer; a first integer 0 marks success and any other failure, on the lines of that file; success means that it says 0 and was removed |
| Controller.MachineReconciler.CleanupMachineResources | pkg/controller/util.go:95-119 | success means that the files were removed, rm of this Machine succeeded, the Azure group was deleted or the VPC is gone; without faults success is equivalent to there being no leftover |
| Controller.MachineReconciler.RemoveFinalizerAfterCleanup | pkg/controller/util.go:64-79 | the Machine is let go only after Terminating was stored and a complete cleanup succeeded in this pass, and after a cleanup without faults unless the finalizer patch fails |
| Controller.MachineReconciler.CommitMemory | pkg/controller/util.go:158-166 | committing a copy of whatever age, of whatever Machine, keeps everything in order; success means that what is in memory is stored |
| Controller.MachineReconciler.EnsureFinalizer | pkg/controller/util.go:52-62 | creation goes on only with the finalizer stored |
| Controller.MachineReconciler.Watch | pkg/controller/machine_controller.go:94-102 | what the copied file says is in memory at the end, and stored if the last update did not fail |
| Controller.MachineReconciler.CreateAndWatch | pkg/controller/machine_controller.go:89-102 | every way through this part ends with an attempt to store what is in memory, also after a failed createMachine |
| Controller.MachineReconciler.Proceed | pkg/controller/machine_controller.go:81-102 | the creating half of a pass has the effect of a pass, ends with an attempt to store what is in memory, and reports an error only if it was in trouble |
| Controller.MachineReconciler.Retire | pkg/controller/machine_controller.go:73-79 | the deleting half of a pass has the effect of a pass; success means that the object is gone |
| Controller.MachineReconciler.Reconcile | pkg/controller/machine_controller.go:57-103 | every pass keeps the invariant of all stores, has only the effect `PassEffect` allows, and ends with an attempt to store what is in memory, whatever happened in it; a pass that reports success has done its work; one that reports an error was in trouble |
| Passes.EffectCompose | pkg/controller/machine_controller.go:57-103 | effects of the parts of a pass add up |
| Runs.ReusedName | pkg/controller/machine_controller.go:62-67 | creating a Machine under the name of one that was let go keeps memory in step exactly if memory does not hold that name; otherwise the next commit would mark it Terminating |
| Runs.RunOk | pkg/controller/machine_controller.go:57-103 | the invariant of all stores holds in every state of every run, given that each pass keeps it as `Reconcile` does |
| Operation.Operate | pkg/controller/machine_controller.go:57-103 | any sequence of passes and user actions is a run in the sense of the theorems, with the invariant in each of its states |
| Theorems.LeakAccounting | pkg/controller/aws.go:189-390 | at every point of every run, live but unrecorded VPCs, subnets and gateways of a Machine are at most its failed annotation patches plus failed subnet and gateway deletes |
| Theorems.VpcCount | pkg/controller/aws.go:309-348 | VPCs created for a Machine are at most one plus the failed VPC patches |
| Theorems.ExactRollback | pkg/controller/aws.go:189-362 | a pass that starts without annotations, has no failed patch and no compensating call failing against EC2's rules, and does not complete the environment, leaves the account as it was |
| Theorems.NoCreationAfterRollback | pkg/controller/aws.go:336-348 | once the recorded VPC is gone, no later pass creates anything for the Machine |
| Theorems.LaunchCount | pkg/controller/machine.go:40-82 | launches are at most one plus the passes that launched and in which every later status update failed |
| Theorems.BarredForGood | pkg/controller/machine.go:41-44 | a committed MachineCreating or MachineReady blocks all further launches |
| Theorems.LaunchPrecondition | pkg/controller/machine.go:51-70 | every create command of every run was run by a pass for its Machine and listed each pair exactly as often as it is a parameter or a recorded id of the stored object, or the script's, the complete secret's or the image's; for AWS all annotations were set and everything they name was live, attached and routed at the launch and after the pass |
| Theorems.FinalizerFirst | pkg/controller/machine_controller.go:73-92 | whatever was created, launched or recorded, the finalizer is stored until the Machine is let go |
| Theorems.FinalizerSafety | pkg/controller/util.go:64-119 | a Machine is let go only by its own pass, after rm of that Machine succeeded in that pass, with its VPC gone and nothing in it |
| Theorems.ReleasedForGood | pkg/controller/util.go:64-119 | a Machine that was let go does not come back, nor does its VPC |
| Theorems.FaultFreePass | pkg/controller/machine_controller.go:57-103 | a pass in which nothing fails lets go of a deleted Machine whose account is tidy and leaves any other with a status; if the region and EC2's rules let the environment be built, the secret is complete and no result but 0 was found, it leaves the Machine launched and the outcome of a launch that worked looked for |
| Theorems.LaunchSettled | pkg/controller/machine.go:71-81 | how a launch ended is stored by the pass that ran it, unless a request failed in it: CreationFailed and phase Failed (or Terminating) for a failed one, MachineReady True for one that worked |
| Theorems.VerdictSettled | pkg/controller/cluster.go:61-85 | what a copied file says that could be opened is stored by the pass that copied it, unless a request failed in it |
| Theorems.OutcomeSoundness | pkg/controller/machine.go:71-81 | every stored or committed MachineReady True rests on a create command that worked, every CreationFailed on one that failed |
| Theorems.AnnotationOrder | pkg/controller/aws.go:418-421 | annotations are set in order, so the three-way guard tests the subnet alone |
| Theorems.Isolation | pkg/controller/aws.go:220-416 | passes for other Machines leave a Machine's EC2 network, groups and annotations unchanged |
| Theorems.InstanceIsolation | pkg/controller/util.go:135-148 | only passes for a Machine of that name start or stop the docker machine of that name |
| Theorems.PhaseOrder | api/v1alpha1/helper.go:65-100 | Terminating is absorbing, Failed leads only to Failed or Terminating, MachineReady is never taken back, a polled Machine never returns to InProgress or Failed |
| Theorems.SuccessSoundness | pkg/controller/cluster.go:61-85 | every committed Success has its conditions True, follows a create command that worked, and rests on a file copied for that Machine whose first integer is 0; every ClusterOperationFailed on one whose first integer is not; Pending is never committed |
| Theorems.VerdictOrigin | pkg/controller/cluster.go:43-86 | a verdict committed in a pass rests on the file that this pass copied for that Machine, unless it is the verdict that memory or the store held for it already |
| Theorems.FailedStops | pkg/controller/cluster.go:36-38 | after a committed Failed there is no further create or scp command |
| Theorems.CleanupConserves | pkg/controller/util.go:95-119 | however often cleanup is cut short, it aims at the same account; a leftover it does not reach keeps the finalizer |
| Theorems.CleanupCompletes | pkg/controller/util.go:95-119 | from any such point, a pass without faults reaches the account of an uninterrupted cleanup, and the Machine is let go unless the finalizer patch fails |
| Theorems.CleanedForGood | pkg/controller/util.go:95-119 | once that account is reached, further reruns change nothing, whatever fails |

## Left out

- The command line of scp and the user names in it (pkg/controller/cluster.go:88-110): constants.
- Azure cleanup (pkg/controller/azure.go): a call that may fail; the resource group may be shared, so isolation is not claimed for it.
- AWS sessions and credentials, Kubernetes and EC2 clients, process execution: calls that may fail.
- Startup script files (pkg/controller/machine.go:149-191, pkg/controller/util.go:121-133): one call that yields a flag/value pair or fails.
- `DriverReconciler`, command line, generated code, CRDs: no logic worth proving.
- The image table: an arbitrary map. Condition messages, severities and times, logging, sleeping and request timeouts are not modelled.
- Re-use of the name of a Machine that existed before is not modelled; every run gives each Machine a name of its own.
- Crashes in the middle of a pass are not modelled; a pass ends by returning.
- Within a pass only the Machine being handled can be deleted by a user; others are deleted between passes.
- Aws.AwsEnvironment.RaiseGateway: the two identical compensation blocks of `createAwsInternetGateway` are one block here.
- Controller.MachineReconciler.CommitMemory: a read error before anything was ever read dereferences a nil pointer in the original; here the pass just fails.
- Controller.MachineReconciler.RemoveFinalizerAfterCleanup: finalizers of others are not modelled; a deleted Machine that only another finalizer keeps, which the original skips, does not occur.
