# A verified model of the FPGA operator's reconciler

The FPGA operator keeps a ClusterPolicy true on a Kubernetes cluster. It walks three states (container
runtime, device plugin, host setup). In each it turns DaemonSet templates and the policy's spec into desired
objects, drives an API server whose requests may fail towards them, and reports one state on the policy.
This project models that controller and proves what holds over single passes and over whole runs, and, in a
second small part, the version comparison and the card tables of the host setup script.

## How the model is built

- Values first. `Policy`, `Objects`, `Transforms`, `Cluster`, `Enforcement` and `Machine` say what one request,
  one template, one control function, one step and one reconcile request do, as functions.
- The operator itself is imperative: `GoObjects`, `GoTransforms`, `Api` and `Operator` hold the classes whose
  methods change fields in place, with the loops of the source. `Operator.ClusterPolicyController.RunReconcile`
  is proved to do what `Machine.Reconcile` says, so every theorem about the functions is one about the classes.
- Failures. Each request of a pass is labelled with the place that issues it (`Cluster.Site`). A schedule gives
  every label an answer: it works, is refused without effect, or fails after it took effect. A schedule also
  gives the unavailable pods a readiness check sees. Theorems are for all schedules unless they ask for
  `FailureFree`. A process killed in the middle of a pass is a pass whose later requests are all refused,
  followed by a `Restart`.
- The hash is an arbitrary function of the object before the hash annotation is added. Where a theorem needs
  that hashes do not collide, it says so for the two objects concerned (`NoCollision`).
- The theorems ask for distinct template names and sound templates (`SoundManifests`); `Shipped.ShippedSound`
  proves that the shipped manifests meet this, with the parts of the manifests no code looks at left away.

## What the proofs show about the code

- One failure-free pass after any run makes the managed DaemonSets a function of policy, manifests, detected
  runtime and namespace (`Runs.RecoversFromAnyRun`), and the operator then rests (`Runs.RestForever`). No pass has
  to be free of failures for that: a run of passes converges exactly if each object that was not as asked is
  reached by one of them (`Liveness.ConvergesIff`). A pass in which nothing fails and no pod is unavailable makes
  the policy Ready, after any run (`Liveness.ReadyAfterAnyRun`).
- DaemonSets edited by someone else are repaired by the next failure-free pass, with two exceptions and no other
  (`Convergence.PassRepairsIff`): an edit that keeps the hash annotation is not noticed, and an object of an
  enabled state that has lost all its annotations makes the operator panic and stays as it is.
- A failed cleanup of a disabled state is masked by the last removal of the state, so a pass can report Ready
  with the DaemonSet still stored (`Cleanup.ReadyDespiteLeftover`). Where Ready can be reported at all, it is sure
  to mean a clean cluster exactly if each DaemonSet stored for a disabled state is the one its state removes last
  (`Cleanup.CleanupIff`). Of the six shipped DaemonSets that holds for two (`Shipped.ShippedDecisive`).
- With working status requests, a policy that was Ready stays Ready if the pass panics before any state is found
  wanting (`StatusReport.StatusAgreement`). Over stored objects with true hashes no pass panics, and then the stored
  state is Ready exactly if every state is fine (`StatusReport.StatusAgreesOverTrueHashes`).
- A final status write that does not take effect is lost: the pass succeeds and asks for no other pass
  (`StatusReport.LostPromotion`). `StatusReport.StoredStateExact` gives the stored state for every failure.
- How every request ends, with any failures, is `Requests.RequestEnds`; what is stored after one, down to the fields,
  is `Requests.FlagsRuleManifests` and `Requests.ClassStored` together with the laws of `Contents`.
- The container runtime is detected once per process; later edits of the default runtime have no effect
  (`Runs.RuntimeFrozen`).
- The documentation (docs/src/customization.rst) says the listed cards restrict what is flashed. In the code
  they change nothing that is deployed (`TransformLaws.CardsIgnored`); the model follows the code.
- The host setup script pairs card types and card locations by position, which is right, for all cards as for one
  platform, exactly if no card asked for is listed after an unrecognised one (`Cards.ChecksRightIff`).

## Model

| member | source | states |
|---|---|---|
| `Operator.ClusterPolicyController.RunReconcile` | controllers/clusterpolicy_controller.go:75-150 | one reconcile request does to the controller and the cluster what `Machine.Reconcile` says, for every schedule; the templates and the shared label map keep their values, and the states stay registered as they were |
| `Operator.ClusterPolicyController.RunEnact` | controllers/clusterpolicy_controller.go:103-149 | the same for a request that is taken up: initialisation, then the steps; how such a request ends is `Requests.RequestEnds` |
| `Requests.RequestEnds` | controllers/clusterpolicy_controller.go:75-150 | for every request and any failures: an error if the policy cannot be fetched, or is taken up while the cluster cannot be read, with the cluster left as it is; nothing done and nothing asked for if the policy is absent or another one was taken up; else success exactly if every state is fine, and otherwise another pass asked for or a panic |
| `Requests.SucceedsIff` | controllers/clusterpolicy_controller.go:82-149 | exactly which requests succeed, over the fetch, the stored policies, the controller and what is found out about the cluster |
| `Requests.StartsIffProceeds` | controllers/state_manger.go:145-193 | exactly which requests get to the step loop, and the runtime they work with, over the nodes' version strings |
| `Operator.ClusterPolicyController.RunSteps` | controllers/clusterpolicy_controller.go:113-149 | the step loop ends in the controller, cluster and ending of `Machine.StepsFrom` |
| `Operator.ClusterPolicyController.RunTurn` | controllers/clusterpolicy_controller.go:116-134 | one turn of it runs the step at the cursor and demotes the policy after an error, and after NotReady if it was Ready when fetched; when the step returns, `idx-1` is in range |
| `Operator.ClusterPolicyController.UpdateCRState` | controllers/clusterpolicy_controller.go:152-172 | fetches again, writes only a different state, and changes nothing but the status of that policy |
| `Operator.ClusterPolicyController.RunInit` | controllers/state_manger.go:145-193 | takes up the policy and, the first time it gets that far, registers the states; all of them or none |
| `Operator.ClusterPolicyController.RunFirstInit` | controllers/state_manger.go:150-178 | without a valid server version and a node list nothing but the namespace changes |
| `Operator.ClusterPolicyController.AddState` | controllers/state_manger.go:136-142 | appends to the three parallel arrays |
| `Operator.AddResourceControls` | controllers/resource_manager.go:80-124 | builds fresh template objects with the manifests' values and the control functions of `Machine.Register` |
| `Registering.RegisterExact` | controllers/resource_manager.go:92-122 | a state keeps its DaemonSets in file order and the class of its last RuntimeClass manifest; its controls are, in file order, one for its DaemonSets, where the first is met, and one for each RuntimeClass manifest |
| `Operator.GetRuntime` | controllers/state_manger.go:269-297 | the early-exit loop gives that runtime, whatever the order of the nodes |
| `RuntimeDetection.DetectRuntimeExact` | controllers/state_manger.go:251-297 | containerd if some node's version string begins with that name, else docker if some begins with that, else the policy's default |
| `Runs.RuntimeFrozen` | controllers/state_manger.go:150-178 | until a restart no pass changes the runtime or the registered templates |
| `Operator.ClusterPolicyController.RunStep` | controllers/state_manger.go:195-213 | runs the controls of the state; an error leaves the cursor, success advances it |
| `Requests.FlagsRuleManifests` | controllers/state_manger.go:219-233 | which flag rules which manifests: after a failure-free request over true hashes each DaemonSet of a state's directory is absent if that state's flag is false, and is otherwise stored as its transformation makes it, with owner and hash, or absent if the policy has no entry for it |
| `Operator.ClusterPolicyController.RunDaemonSets` | controllers/object_controls.go:258-361 | the template loop computes `Enforcement.DaemonSetsFrom` |
| `Operator.ClusterPolicyController.VisitTemplate` | controllers/object_controls.go:265-358 | one template: a copy is prepared and brought to the cluster, or its object is removed; the template is not touched |
| `Operator.ClusterPolicyController.ApplyDaemonSet` | controllers/object_controls.go:317-358 | create, update on a different hash, or skip, then the readiness check |
| `Operator.ClusterPolicyController.IsDaemonSetReadyNow` | controllers/object_controls.go:129-147 | ready exactly if the object is read back with no pod unavailable |
| `Operator.ClusterPolicyController.PrepareObject` | controllers/object_controls.go:284-315 | transforms, owns and annotates the copy, changing nothing else |
| `Operator.IsDaemonsetSpecChanged` | controllers/object_controls.go:149-178 | the annotation loop reports a change exactly if the stored hash is missing or different, and only then stamps the new object |
| `Operator.ClusterPolicyController.RunClass` | controllers/object_controls.go:67-119 | the RuntimeClass control computes `Enforcement.ApplyClass`; what that stores is `Requests.ClassStored` |
| `Requests.ClassStored` | controllers/object_controls.go:59-119 | a request that runs to its end with working class requests leaves the class under the policy's name for it: name and handler are that name, the policy owns it, the rest is the last manifest's; and none if the container runtime is disabled |
| `Requests.ClassStoredWhenReady` | controllers/object_controls.go:67-119 | whatever fails, a request that succeeds leaves it so while the container runtime is enabled |
| `GoObjects.DaemonSetObject.DeepCopy` | controllers/object_controls.go:266 | an equal object that shares nothing with the template |
| `GoObjects.DaemonSetObject.SetContainerEnv` | controllers/object_controls.go:193-203 | in place for a known name, else at the end |
| `GoObjects.DaemonSetObject.SetDaemonSetSelector` | controllers/object_controls.go:181-190 | adds the labels, or takes the shared map itself; the shared map keeps its value |
| `GoTransforms.RunContainerRuntime` | controllers/object_controls.go:364-476 | the in-place changes make the object `Transforms.TransformContainerRuntime` of its old value |
| `GoTransforms.RunDevicePlugin` | controllers/object_controls.go:478-503 | likewise for the device plugin |
| `GoTransforms.RunHostSetup` | controllers/object_controls.go:505-583 | the search loop and the changes compute `Transforms.TransformHostSetup`; what that makes is `Contents.HostSetupSelection` |
| `GoTransforms.RunPreProcess` | controllers/object_controls.go:230-255 | the transformation is looked up by name; name, namespace and annotations stay |
| `EnvLaws.UpsertAllOverrides` | controllers/object_controls.go:381-385 | the policy's variables override the template's as one map overrides another; names stay unique and in place, the last duplicate wins |
| `Contents.HostSetupSelection` | controllers/object_controls.go:514-582 | left out exactly if every entry differs from the template's selector in identifier or major version, in lower case; else set up from the first entry that does not: its image, version, XRM and flash switches, and nothing else changed |
| `Contents.ToolkitContents` | controllers/object_controls.go:364-476 | the container runtime's object field by field: image, pull policy, environment, one volume and one mount for each shared path, the runtime's two files by name, the script's parameters, the FPGA label, and nothing else changed |
| `Contents.PluginContents` | controllers/object_controls.go:478-503 | the same for the device plugin |
| `Contents.TransformByName` | controllers/object_controls.go:232-241 | which name gets which transformation |
| `Contents.OtherTemplatesKept` | controllers/object_controls.go:243-247 | a template of another name is deployed as it is |
| `TransformLaws.OneHostSetupPerNode` | assets/state-host-setup/0100_host_setup_ubuntu18.yaml:34-36 | no node runs two host-setup DaemonSets whose templates pin different systems |
| `TransformLaws.FpgaNodesOnly` | controllers/state_manger.go:45-48 | container runtime and device plugin run on nodes labelled as having an FPGA only |
| `TransformLaws.CardsIgnored` | controllers/object_controls.go:556-571 | the cards listed for a system have no influence on the deployed object |
| `TransformLaws.ImageChangeShows` | controllers/object_controls.go:478-483 | a changed image of the device plugin is a changed object, for image names without '/', ':' and '@' and tags without '/' |
| `ImageReference.ImagePathInjective` | api/v1/clusterpolicy_types.go:277-292 | repository, image and tag can be read off the reference, across bare, tagged and digest forms |
| `ImageReference.ImagePathAmbiguous` | api/v1/clusterpolicy_types.go:277-292 | with a colon allowed in image names every image shares a reference with another one |
| `ImageReference.ColonAmbiguousIff` | api/v1/clusterpolicy_types.go:277-292 | a name with a colon shares a reference with the part before it exactly if the part behind it does not announce a digest |
| `ImageReference.AtSignAmbiguousIff` | api/v1/clusterpolicy_types.go:277-292 | a name with an at sign does so exactly if the part behind it announces a digest or is its algorithm's name |
| `SlotLaws.VisitKeepsStamp` | controllers/object_controls.go:313-351 | no failure, ambiguous or not, leaves a stored object whose hash is not that of its content |
| `SlotLaws.PanicIff` | controllers/object_controls.go:153-155 | a visit panics exactly on missing containers or on a stored object without annotations |
| `SlotLaws.HashDetermines` | controllers/object_controls.go:157-168 | without a collision, an object that carries the desired hash is the desired object |
| `OutcomeJoin.EnabledJoin` | controllers/object_controls.go:284-358 | in an enabled state: panic, else NotReady if any template failed, else Ignored if any had no spec, else Ready |
| `OutcomeJoin.EnabledOrderFree` | controllers/object_controls.go:265-358 | the order of the templates does not matter |
| `OutcomeJoin.DisabledLast` | controllers/object_controls.go:273-282 | in a disabled state the last removal alone decides |
| `Pointwise.DaemonSetsSlot` | controllers/object_controls.go:265-358 | the loop visits the templates before the first panic and no others: each of their objects ends as its own visit leaves it, the rest stay as they were |
| `Pointwise.DaemonSetsVerdict` | controllers/object_controls.go:258-361 | the loop's result is the join of the outcomes, each judged on what was stored before the loop |
| `Pointwise.ControlsSlot` | controllers/state_manger.go:198-208 | the same for a step: none of its templates is visited if a RuntimeClass control before the DaemonSet control fails, and all are if the step returns |
| `Pointwise.ControlsVerdict` | controllers/state_manger.go:195-213 | the step's answer is a fold of its controls' answers, each judged on what was stored before the step |
| `Passes.PassSlot` | controllers/clusterpolicy_controller.go:116-137 | whatever fails, a pass visits a prefix of the templates, in state and file order: all of the states before the final cursor and, in the state at the cursor, those its step gets to; each other object is untouched |
| `Passes.PassCursor` | controllers/clusterpolicy_controller.go:116-137 | the cursor stops, within range, at the first step that does not return, judged on what was stored when the pass began; the pass is completed exactly if there is none |
| `Passes.PassFrame` | controllers/object_controls.go:265-358 | a pass touches no DaemonSet but those of its templates |
| `Passes.PassEnding` | controllers/clusterpolicy_controller.go:113-149 | the ending is decided by what was stored when the pass began |
| `Passes.EndingFromVerdicts` | controllers/clusterpolicy_controller.go:116-149 | success exactly if every step is fine; every other ending asks for another pass or is a panic |
| `Readiness.EnabledStepFine` | controllers/state_manger.go:195-213 | nothing is masked in an enabled state |
| `Readiness.ServedIff` | controllers/object_controls.go:284-358 | served, request by request: a template to be left out is removed; one to be deployed is looked up, written if missing or out of date, and read back with no pod unavailable; a class may be owned, and its lookup and write work |
| `Readiness.DisabledStepFine` | controllers/state_manger.go:204-208 | a disabled state is judged by its last removal |
| `Readiness.ReadyIff` | controllers/clusterpolicy_controller.go:113-149 | a pass reports Ready exactly if every enabled state is served and every disabled state's last removal works |
| `Readiness.StepEndsIff` | controllers/state_manger.go:195-213 | a step panics exactly if a visit does and the RuntimeClass controls before it work, and returns exactly if no visit panics and all of them work |
| `Readiness.CompletedIff` | controllers/clusterpolicy_controller.go:116-137 | so, for every schedule, which passes run to their end and which panic |
| `Readiness.ReadyMeansReadBack` | controllers/clusterpolicy_controller.go:147-149 | whatever was stored, Ready means: each enabled template was created, updated or found with the desired hash and was read back with all pods available, or is rightly absent, and each RuntimeClass request worked |
| `Readiness.ReadyMeansDeployed` | controllers/object_controls.go:342-358 | over true hashes without collisions each enabled template is then stored exactly as desired |
| `Cleanup.RetiredIff` | controllers/object_controls.go:273-282 | for every schedule, the object of a disabled template is gone after a pass exactly if it was not there, or the pass got to it and its removal took effect |
| `Cleanup.FailedCleanupMasked` | controllers/object_controls.go:273-282 | a disabled state is fine although a DaemonSet could not be removed, whenever another removal comes last: of the RuntimeClass or of a later template |
| `Cleanup.StateCleanupIff` | controllers/state_manger.go:204-208 | a fine answer of a disabled state is sure to mean that nothing is left, whatever fails, exactly if the only DaemonSet it has stored is the one removed last |
| `Cleanup.ReadyDespiteLeftover` | controllers/state_manger.go:204-208 | a pass can report Ready with any other DaemonSet of a disabled state still stored |
| `Cleanup.CleanupIff` | controllers/clusterpolicy_controller.go:113-149 | Ready is sure to mean that no DaemonSet of a disabled state is left exactly if each one stored before is the one its state removes last, or Ready cannot be reported |
| `Cleanup.ReadyAttainableIff` | controllers/clusterpolicy_controller.go:113-149 | a pass can report Ready exactly if every enabled template can be prepared, none of their objects has lost its annotations, and the policy may own the RuntimeClass |
| `RequestLog.PassSendsExactly` | controllers/object_controls.go:265-358 | the changing DaemonSet requests of a pass are those of the visits it gets to, one visit after the other in state and file order |
| `RequestLog.CompletedSendsExactly` | controllers/clusterpolicy_controller.go:116-137 | the changing DaemonSet requests of a completed pass are those of one visit to each template, in that order |
| `RequestLog.PassSends` | controllers/object_controls.go:265-358 | what a pass sends to change a template's object is what the template's one visit sends, and nothing if the pass does not get there |
| `Refinement.VisitRefines` | controllers/object_controls.go:342-358 | skipping and always writing leave the same object for every schedule; they differ only if the extra write fails |
| `Refinement.SkipIff` | controllers/object_controls.go:342-354 | the update is skipped exactly if the desired content is what was last applied |
| `Refinement.PassSkipsIff` | controllers/object_controls.go:317-354 | over a whole pass: about an object it finds it sends nothing but an update to the desired content, exactly if it gets there, can read it, and the desired content is not what was last applied |
| `Refinement.PassRefines` | controllers/object_controls.go:149-178 | for every schedule a caching pass and an always-writing pass leave the same DaemonSets and RuntimeClasses and break off together, in the same state |
| `RunRefinement.RunsRefine` | controllers/object_controls.go:149-178 | over every run of passes, failures, restarts and edits the two operators keep the same DaemonSets and RuntimeClasses; they differ at most in the state they report |
| `Refinement.CachingNeverWorse` | controllers/object_controls.go:342-358 | whenever the always-writing pass reports Ready, so does the caching pass |
| `Convergence.FailureFreeCompletes` | controllers/clusterpolicy_controller.go:116-137 | a failure-free pass runs to its end exactly if no object stored for an enabled template has lost its annotations |
| `Convergence.StampedNeverPanics` | controllers/object_controls.go:153-155 | a pass over true hashes never panics, whatever fails |
| `Convergence.PassRepairsIff` | controllers/object_controls.go:258-361 | a failure-free pass repairs all managed objects, whoever changed them, exactly if none carries the right hash over the wrong content and none has lost its annotations |
| `Convergence.OnTargetIff` | controllers/object_controls.go:265-358 | for every schedule, an object that is not fooling is as asked after a pass exactly if it was before, or the pass got to it and the requests about it took effect |
| `Convergence.HistoryIndependence` | controllers/object_controls.go:258-361 | from any stored state with true hashes and no collisions one failure-free pass makes the managed DaemonSets what the plan alone asks for |
| `Convergence.PassBringsRest` | controllers/object_controls.go:317-354 | a failure-free pass leaves nothing to do exactly if no object has lost its annotations, even where hashes collide |
| `Convergence.RestLasts` | controllers/object_controls.go:265-358 | at rest a pass changes no DaemonSet and sends no create or update for one, whatever fails |
| `StatusReport.StoredStateExact` | controllers/clusterpolicy_controller.go:116-149 | for every schedule: the stored state is Ready if the pass succeeds and its promotion reaches the store, else NotReady if a demotion does, else what it was |
| `StatusReport.ReportedState` | controllers/clusterpolicy_controller.go:116-149 | with working status requests: Ready if every state is fine; else NotReady if a step that runs fails, or is not ready while the policy was Ready; else the state the pass found |
| `StatusReport.StatusAgreement` | controllers/clusterpolicy_controller.go:116-149 | with working status requests the stored state is Ready exactly if every state is fine, or it was Ready and the pass panicked with all states fine up to there; any other ending asks for another pass or is a panic |
| `StatusReport.StatusAgreesOverTrueHashes` | controllers/clusterpolicy_controller.go:116-149 | over true hashes: Ready exactly if every state is fine, and otherwise another pass is asked for |
| `StatusReport.LostPromotion` | controllers/clusterpolicy_controller.go:147-149 | a promotion that does not reach the store is lost and asks for no other pass |
| `StatusReport.ReadyStaysUnwritten` | controllers/clusterpolicy_controller.go:163-167 | a pass that finds a Ready policy and every state fine writes no status |
| `Classes.PassClass` | controllers/object_controls.go:67-119 | the RuntimeClass of the policy's name becomes what the policy wants and then stays; one of an earlier name is left behind |
| `Runs.ReconcileKeepsRegistered` | controllers/state_manger.go:145-193 | the three states are registered once and the arrays stay parallel over any mix of failing and working passes |
| `Runs.StepsKeepController` | controllers/state_manger.go:195-217 | a pass moves the cursor forward within range and changes nothing else of the controller |
| `Runs.ReconcileIsPass` | controllers/clusterpolicy_controller.go:103-137 | a request that is taken up is one pass from cursor 0 over the plan of the fetched policy |
| `Runs.ReconcileOwned` | controllers/clusterpolicy_controller.go:82-111 | every object a reconcile creates or updates is owned by the policy it is for, every status it writes is that policy's, Ready or NotReady, with the operator's namespace; for a second policy nothing is changed |
| `Runs.ReconcileKeepsTrueHashes` | controllers/object_controls.go:313-351 | every pass keeps the stored hashes true |
| `Runs.RunsKeepTrueHashes` | controllers/object_controls.go:149-178 | over every run of passes, failures, restarts, policy edits and removals the stored hashes stay true and the operator never panics |
| `Runs.RecoversFromAnyRun` | controllers/object_controls.go:258-361 | after any run one failure-free pass makes the managed DaemonSets what policy, manifests, runtime and namespace ask for, and leaves all others alone |
| `Liveness.ReachedStaysOnTarget` | controllers/object_controls.go:265-358 | over any number of passes with any failures, a managed object ends as asked exactly if it was so before or some pass reached it |
| `Liveness.ConvergesIff` | controllers/object_controls.go:258-361 | so a run converges exactly if each object that was not as asked is reached, without any pass free of failures |
| `Liveness.ReadyAfterAnyRun` | controllers/clusterpolicy_controller.go:147-149 | after any run, a pass in which nothing fails and no pod is unavailable succeeds and stores Ready |
| `Runs.ConvergedUnique` | controllers/object_controls.go:258-361 | so operators with different histories agree |
| `Runs.SingletonSafety` | controllers/clusterpolicy_controller.go:95-111 | until a restart the operator works for the policy it took up: its name stays, and every object and status it writes belongs to that policy |
| `Runs.PassPolicies` | controllers/clusterpolicy_controller.go:152-172 | a pass changes nothing of any policy but the status of its own |
| `Runs.RestSurvivesPass` | controllers/object_controls.go:109-118 | at rest one more pass, for any policy and with any failures, changes no DaemonSet and no RuntimeClass |
| `Runs.RestForever` | controllers/object_controls.go:265-358 | and so for any number of passes |
| `Runs.FailureFreePassRests` | controllers/object_controls.go:258-361 | one failure-free pass brings the operator to rest |
| `Shipped.ShippedSound` | assets/state-container-runtime/0200_runtime_class.yaml:18-27 | the shipped manifests have distinct names, can be prepared for every policy, and keep the one RuntimeClass in one state |
| `Shipped.ShippedDecisive` | controllers/object_controls.go:273-282 | of the shipped templates exactly the device plugin and the last host setup decide over the answer of their state when it is disabled |
| `VersionComparison.Vercomp` | hostSetup/host_setup.sh:69-98 | the padding and comparing loops return 0 for equal, 1 for greater and 2 for smaller versions, fields compared as numbers |
| `VersionComparison.DecimalRead` | hostSetup/host_setup.sh:88-95 | a field is read in base ten: reading the decimal notation of a number gives the number |
| `VersionComparison.LeadingZero` | hostSetup/host_setup.sh:88-95 | leading zeros do not count |
| `VersionComparison.ExactlyOne` | hostSetup/host_setup.sh:69-98 | exactly one of the three answers is right |
| `VersionComparison.BelowTransitive` | hostSetup/host_setup.sh:69-98 | the comparison is transitive and respects equality after zero padding |
| `Cards.CardTable.CardSetup` | hostSetup/host_setup.sh:141-166 | appends the types of the recognised devices, bumps their counters, and appends the locations of all devices |
| `Cards.CardTable.ShellFlash` | hostSetup/host_setup.sh:600-617 | the card loop advances the global index with the types and checks, at that index, the type as platform and the location, for one platform or for all |
| `Cards.ListLengths` | hostSetup/host_setup.sh:141-166 | the two arrays are equally long exactly if every device is recognised |
| `Cards.CardTypes` | hostSetup/host_setup.sh:142-161 | which device identifiers are which card, and that there are no others |
| `Cards.CountersSum` | hostSetup/host_setup.sh:143-160 | the six counters add up to the number of types |
| `Cards.AlignedChecks` | hostSetup/host_setup.sh:600-617 | with no card asked for after an unrecognised one, the loop checks exactly the cards asked for, each once, as its own type and at its own location |
| `Cards.MisalignedChecks` | hostSetup/host_setup.sh:600-617 | otherwise a check is wrong |
| `Cards.ChecksRightIff` | hostSetup/host_setup.sh:600-617 | for the platform asked for, or for all cards without one, the checks are right exactly if no card asked for is listed after an unrecognised one |
| `Cards.AllChecksRightIff` | hostSetup/host_setup.sh:600-617 | so all checks, and those of every platform, are right exactly if no recognised card is listed after an unrecognised one |

## Left out

- Vercomp: fields are decimal numbers of any size; the shell's 64-bit wrap-around, empty fields and patterns in the second argument are not modelled.
- UpsertAllOverrides: a variable is a name and a value; variables filled from other sources are not modelled.
- HostSetupSelection: case is folded for ASCII letters only.
- SetContainerEnv: a container is a value in the object's slice, changed through the object; a separate pointer to it is not modelled.
- FailureFreePassRests: asks that RuntimeClass manifests sit in one state directory, as shipped; with several states of different enablement each pass would remove and create the class again.
- PassSendsExactly: is about DaemonSet requests; the RuntimeClass and status requests in between are bounded by rules and by their effects only.
- CardSetup: the two listings of the devices are taken to be the same.
- User edits land between passes; conflicts on writes and stale reads are failed requests.
- Ownership is a name and a uid; the ownership check compares names, and the garbage collector is a removal between passes.
- The shell scripts given to containers are kept as the data they are formatted from, and paths are cut at their last slash.
- Reading, classifying and decoding manifest files; the shipped templates are modelled with the parts the code looks at.
- The server version, the node labels and the OS distributions matter only by the failures of reading them; nothing else uses them.
- The client library's in-place update of an object it was given from the server's reply.
- Rate limiting, watches, leader election, logging, metrics and the process entry point.
- The rest of the host setup script: package installation, downloads, prompts, flashing, and the counter check on the platform name.
- Helm charts, custom resource definitions, roles and documentation.
