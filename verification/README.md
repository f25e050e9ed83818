# The two controllers of the GCP project operator

The operator turns a `ProjectClaim` into a Google Cloud project. Two controllers share the work. The claim controller
checks a claim, creates a `ProjectReference` for it, links the two and puts finalizers on the claim and on a customer's
secret. The reference controller waits for the claim to say `PendingProject`, then makes and configures the project,
marks the reference `Ready`, hands zones and project ID over to the claim, and takes everything down again when the
reference is deleted. They never call each other: all they share is a store with optimistic concurrency, and a cloud.
Every call of theirs may fail, may be carried out and reported as failed, and may be the last before a crash.

The project models this in three layers and proves that they fit together.

* **The protocol** (`Objects`, `Protocol`): users, both controllers, other people with access to the cloud, and crashes, as one
  labelled transition system over stored objects with versions, deletion marks and finalizers, and over cloud projects.
  A controller's step is one API call of a pass, guarded by what that pass has read so far and by nothing else. An answer
  is `Ok`, `Fail`, or `Lost`: carried out, but reported as failed. `Invariant`, `ClaimSteps`, `ReferenceSteps`, `CloudSteps`
  and `Safety` prove an inductive invariant; `Theorems` says what it means for every run, with the exact condition where the code
  falls short of what one would like; `Scripts` and `Gaps` give the runs that show it, call by call.
* **The code** (`Conditions`, `Lists`, `BindingLists`, `Policies`, `ReferenceAdapter`, `ReferenceController`, `ClaimAdapter`,
  `ClaimController`): classes that keep objects in memory, change them and write them back, operation by operation, in
  the order of the source. They run in a `World`, where everybody else may take any number of steps before every call. Each
  call they make is proved to be a step the protocol allows, so `World.Valid()` after every method means that the code
  has produced nothing but a run of the protocol, and all of `Theorems` holds of it.
* **Progress** (`Shapes`, `Progress`, `Schedules`): the same `Reconcile` methods, in a world where nobody disturbs them and no call
  fails, are proved to move the stored objects exactly one stage on (`smooth` in the contracts). From that follow convergence
  to `Ready`, complete deletion, and that a served claim is not written again, for every fair schedule of the two controllers;
  and that neither controller is ever forgotten while it has something to do.

The IAM policy of a project is modelled twice. `Bindings`, `BindingLists` and `Policies` have the in-place merge of binding lists and
the read-modify-write loop with its version tag, and prove that what a successful call commits is what was stored just
before, plus or minus the operator's own grants; `Lifecycle` draws the conclusion for any sequence of calls on a policy that others
change too. In the protocol and in `ReferenceAdapter` the whole loop is therefore one step on a set of grants.

## What is taken for granted

* The store and the cloud answer reads with their current contents, and each controller works on one object in one pass at a time.
* `ListProjects` returns every project; the code reads one page of the answer.
* A create call that failed with nothing lost has created nothing. Generated project IDs and service account names were never
  used before. That a project of the name already exists counts as success.
* Users create and delete claims, references and secrets. They do not edit specifications, finalizers or status, and nobody but the
  reference controller creates operator-made secrets. Two claims share neither a reference name nor a secret, so every
  claim name has a slot of its own. `Gaps.ReferenceNamesCollide` says exactly which claim names share a reference name.
* Other people may do anything to a project but bring it back from deletion, and do not use the names the operator generates.
  What they take away from a project is remembered, thing by thing, until the operator restores it (`taken`); a group that one claim's
  clean-up revokes in a shared project counts as taken from the others. What is granted is remembered until it is revoked (`given`).
* In the protocol a revocation takes everything away from its member, so it supposes that no binding of the policy lists that member
  twice; `Bindings.RemovedMeaning` says that otherwise something is left, and `Bindings.ListedTwiceStays` gives such a policy.
* A project that does not exist answers that there is no such service account. One that is being deleted still answers calls on
  accounts, policies and APIs as an active one does; a repeated clean-up relies on that.
* Projects never disappear: that a project which is being deleted is purged for good after a while is not part of this model.
  A customer's project may be missing from the start.
* Times are whole seconds.

## Where comments and code differ

* `deleteProject` is described as deleting a project that is not active; it deletes one that is (lines 447-472 of the reference adapter).
* `EnsureRegionSupported` is described as returning an error for an unsupported region; it returns what storing the condition
  returned, so no error if that went well (lines 358-375 of the claim adapter).
* `IsProjectReferenceDeletion` looks at the reference built in memory, which is never marked, so `Delete` is sent on every pass over
  a claim that is being deleted (lines 119-121 and 169-175 of the claim adapter).
* `Requeue` asks for a requeue with no delay, and the handler drops the request and keeps the delay (lines 145-147 of the reference
  controller), so by itself it asks for nothing.

The code is followed in each case.

## Model

| member | source | states |
|---|---|---|
| Theorems.NoOrphanedProject | controllers/projectreference/projectreference_adapter.go:503-535 | In every state of every run, an active project made for a claim is named by that claim's reference, with the finalizer to clean it up, if and only if its ID was not cleared, after a failed creation, at any step of the run. |
| Theorems.AbandonedWasCleared | controllers/projectreference/projectreference_adapter.go:523-532 | A project counts as abandoned if and only if some step of the run cleared its ID from its reference. |
| Theorems.ClaimOutlivesReference | controllers/projectclaim/projectclaimadapter.go:163-192 | While a reference holds its finalizer, its claim exists and holds its own. |
| Theorems.CleanupFindsClaim | controllers/projectreference/projectreference_adapter.go:311-319 | A pass on a reference that holds its finalizer never hears that the claim does not exist. |
| Theorems.FinishedDeletion | controllers/projectreference/projectreference_adapter.go:379-428 | A reference loses its finalizer in one kind of step only. Then the account and the operator's own active project are gone; the account has a role left if and only if it was given that role since it was last revoked and nobody else took it away, and then this pass did not revoke the account and others had taken it; the revoked groups have only what they were given afterwards; and an operator-made secret is left if and only if the pass last failed to read it while it was there. |
| Theorems.MintedHasWhatItWasGiven | controllers/projectreference/projectreference_adapter.go:776-842 | In every state of every run, a service account the operator made has a role if and only if it was given the role since it was last revoked and nobody else took it away. |
| Theorems.MintedHaveMeantRoles | controllers/projectreference/projectreference_adapter.go:264-273 | In every state of every run, a service account the operator made has no role, and was given none, but the twelve that service accounts are meant to have. |
| Theorems.AccountRolesByName | controllers/projectreference/projectreference_adapter.go:53-95 | The account's roles are these eight, and these four more exactly with access to a shared network. |
| Theorems.ConsoleRolesByName | controllers/projectreference/projectreference_adapter.go:66-84 | The groups' roles are these nine, or viewing alone. |
| Theorems.CleanupOnlyTakesAway | controllers/projectreference/projectreference_adapter.go:449-501 | Whatever fails, a cleaning pass touches its own project and secret only and adds nothing, and each step that changes one of them leaves strictly less of it: accounts, grants and the active project counted together, or the secret. |
| Theorems.ReadyIsSound | controllers/projectreference/projectreference_adapter.go:256-309 | A stored Ready reference has finalizer, ID and account name; each required API, the account, each role, the operator's active project, its billing and the unmarked secret is there if and only if nobody else took that very thing away. A Ready claim has zones and a project ID. |
| Theorems.CredentialsOutliveReference | controllers/projectclaim/projectclaimadapter.go:130-146 | While a customer's reference holds its finalizer, the secret it reads credentials from exists and is held by the operator if and only if the reference matches the stored claim, unless a user forged the finalizer. |
| Theorems.MismatchArises | controllers/projectclaim/projectclaimadapter.go:278-289 | A reference comes not to match its claim in exactly two ways: a claim is made while an earlier one's reference is still there, or a pass that read an earlier claim makes the reference, with that claim's flag or secret. |
| Theorems.DifferenceArises | controllers/projectclaim/projectclaimadapter.go:55-72 | The same for all that a reference takes over from its claim, the access to a shared network included: a reference that asks for what its claim asks for comes to differ in these two kinds of step only, and exactly if the two specifications then differ. |
| Theorems.ProjectIDIsStable | controllers/projectreference/projectreference_adapter.go:523-532 | Once a reference has a project ID, a step changes it if and only if a pass clears it and the store takes the update, and only a pass whose own creating call reported a failure does so. |
| Theorems.PublishedIDAgrees | controllers/projectreference/projectreference_adapter.go:730-737 | An ID published into an empty claim stays equal to the reference's for as long as both live. |
| Theorems.OneProjectPerPass | controllers/projectreference/projectreference_controller.go:156-177 | Whatever a pass changes in the cloud is the one project its stored reference names, never the empty name, and under its finalizer unless it gives the name up; only the operator's own projects are created. |
| Theorems.ClaimTransitions | controllers/projectclaim/projectclaimadapter.go:302-319 | Every stored change of a claim's state is one of the allowed transitions; PendingProject is entered with reference, link, finalizer and held secret in place, Ready only with a Ready reference. |
| Safety.ReachableHasInv | controllers/projectreference/projectreference_controller.go:126-153 | Every reachable state satisfies the invariant from which these statements follow. |
| Safety.StepKeepsInv | controllers/projectclaim/projectclaim_controller.go:101-125 | Every step of anybody, under any outcome, keeps the invariant for every claim name. |
| Safety.OthersKeepInv | controllers/projectreference/projectreference_adapter.go:550-617 | What one claim's reference controller does to the cloud keeps the invariant of every other claim. |
| Gaps.LostCreationOrphans | controllers/projectreference/projectreference_adapter.go:523-532 | A run: the answer to the creating call is lost, the ID is cleared, and the active project is left without a reference. `Theorems.NoOrphanedProject` says exactly when. |
| Gaps.StaleReferenceLosesCredentials | controllers/projectclaim/projectclaimadapter.go:278-289 | A run: a claim is deleted before it has a finalizer, a claim of the same name with another secret adopts its reference, and the secret that this reference needs disappears when its user deletes it. `Theorems.CredentialsOutliveReference` and `Theorems.MismatchArises` say exactly when. |
| Gaps.FailedReadLeavesSecret | controllers/projectreference/projectreference_adapter.go:660-683 | A run: reading the credential secret fails once during clean-up, reference and claim go, and the operator's secret stays. `Theorems.FinishedDeletion` says exactly when. |
| Gaps.TakenAccountLeavesGrants | controllers/projectreference/projectreference_adapter.go:474-501 | A run: somebody deletes the service account, clean-up finds it missing and finishes, and its grants stay in the customer's project. `Theorems.FinishedDeletion` says exactly when. |
| Gaps.ZonesPassForgets | controllers/projectreference/projectreference_adapter.go:697-706 | A run: a pass stores the zones in the claim, and its write at the end, whose answer the code ignores, fails; the pass ends without error or delay, the reference is Ready and unwritten, and the claim is not Ready. `ReconcileHandler` and `Reconcile` show that this is the only such pass. |
| Gaps.ReferenceNamesCollide | controllers/projectclaim/projectclaimadapter.go:55-59 | Two claims get one reference name exactly when one namespace continues the other after a dash with the start of the other claim's name. |
| Gaps.DashesCollide | controllers/projectclaim/projectclaimadapter.go:55-59 | Two concrete claims with one reference name. |
| Conditions.SetMeaning | pkg/condition/conditions.go:27-43 | A report lands in the first condition of its kind, appended if missing: status, reason and probe time are the report's, the message too unless it is empty, and the transition time is the report's unless status, reason and message are what they were. Every other kind keeps its condition. |
| Conditions.SetConditionMeaning | pkg/condition/conditions.go:27-43 | A list with one condition a kind stays one. |
| Conditions.RepeatKeepsTransition | pkg/condition/conditions.go:30-39 | Saying the same thing twice keeps the transition time exactly when the message is not empty or none was stored. |
| Conditions.BlankIsNeutral | pkg/condition/conditions.go:56-63 | The blank condition that a lookup appends makes no difference to the report that follows. |
| Conditions.TimeoutCountsFromFirstProbe | controllers/projectreference/projectreference_adapter.go:709-728 | Over failed probes with any other reports in between, the transition time stays the first probe's, so a probe times out exactly when more than 600 seconds have passed since. |
| Conditions.AfterKeepsOthers | controllers/projectreference/projectreference_adapter.go:709-728 | Failed probes leave the conditions of other kinds alone. |
| Conditions.ConditionList.SetCondition | pkg/condition/conditions.go:27-43 | The list afterwards is the specified one; all fields are written through the position found. |
| Conditions.ConditionList.FindCondition | pkg/condition/conditions.go:49-64 | The first position of the kind; a missing condition is appended blank. |
| Conditions.ConditionList.HasCondition | pkg/condition/conditions.go:67-74 | Whether there is a condition of the kind. |
| Lists.Contains | pkg/util/util.go:189-196 | Membership. |
| Lists.Filter | pkg/util/util.go:199-206 | The list without any occurrence of the string, in order. |
| Lists.InArray | pkg/util/util.go:168-186 | The first position of the string, or -1. |
| Lists.FilteredUndoesAppend | controllers/projectclaim/projectclaimadapter.go:149-160 | Taking a finalizer off again gives back the list it was put on. |
| Bindings.AddedMeaning | pkg/util/util.go:113-149 | Adding is set union on the (role, member) relation; old bindings keep their order, and their members as prefixes. |
| Bindings.AddedTwice | pkg/util/util.go:113-149 | After adding, a second call has nothing to do, whatever order the map was visited in. |
| Bindings.CompleteStays | pkg/util/util.go:138-148 | Adding changes the list exactly when there is something to add. |
| Bindings.CompleteMeaning | pkg/util/util.go:119-137 | There is nothing to add if and only if the first binding of each role lists the member; then the member has the roles. |
| Bindings.RemovedMeaning | pkg/util/util.go:88-107 | Removing leaves everybody else's grants; it takes all of the member's, and a second removal finds nothing, if and only if no binding lists the member twice. |
| Bindings.ListedTwiceStays | pkg/util/util.go:95-105 | A policy whose one binding lists the member twice keeps the grant. |
| Bindings.WithoutFirstAt | pkg/util/util.go:97-104 | What is lost is exactly the first occurrence. |
| BindingLists.Binding.RemoveFirst | pkg/util/util.go:97-104 | Shifting within the array removes the first occurrence. |
| BindingLists.Binding.Append | pkg/util/util.go:133-134 | Appending within the capacity or in a new array leaves the old slice as it was. |
| BindingLists.RemoveOrUpdateBinding | pkg/util/util.go:88-107 | In place, every binding loses the first occurrence; modified if and only if some binding had the member. |
| BindingLists.AddOrUpdateBinding | pkg/util/util.go:113-149 | New objects, sharing arrays with the old, hold the specified result; the old list keeps its values; modified if and only if the result differs. |
| BindingLists.MemberNamesDiffer | pkg/util/util.go:88-92 | A member's name is `group:` or `serviceAccount:` and the address, so equal names mean the same kind and address. |
| BindingLists.RoleBindingMap | pkg/util/util.go:152-165 | One entry a role, with the member and its prefix. |
| Policies.PolicyServer.GetIamPolicy | pkg/gcpclient/client.go:295-302 | A policy read is the stored one, with its version, in objects of its own. |
| Policies.PolicyServer.SetIamPolicy | pkg/gcpclient/client.go:304-310 | A write is committed only on the version it was read at; otherwise it is a conflict or a failure. |
| Policies.AddOrUpdateBindings | controllers/projectreference/projectreference_adapter.go:758-773 | The copy read, with the member added to the roles. |
| Policies.SetIAMPolicy | controllers/projectreference/projectreference_adapter.go:776-807 | Success is one commit that adds exactly the grants to what was stored just before, or nothing to add; either way the member then has the roles; an error commits nothing unless the answer was lost. The call fails if and only if one of its reads or writes failed or all of four writes met with a conflict, and every conflict costs the others a commit: if nothing fails and others commit three times at most, it succeeds. |
| Policies.DeleteIAMPolicy | controllers/projectreference/projectreference_adapter.go:809-842 | The same for a revocation, retries included; after its commit the policy does not mention the member if and only if no binding listed it twice just before, and with nothing to remove it did not mention it. |
| Lifecycle.CommitsAreChanges | pkg/util/util.go:88-149 | On the relation a commit of the adding loop is union; one of the removing loop is the difference if and only if no binding listed the member twice; neither makes any binding list anybody twice. |
| Lifecycle.RoundTrip | controllers/projectreference/projectreference_adapter.go:412-428 | If the operator's members had nothing before, then after any stretch of a policy's history the relation is what the others' commits alone would have made of it if and only if these members have nothing now. |
| Lifecycle.Perform | controllers/projectreference/projectreference_adapter.go:776-842 | Any sequence of calls of the two loops on one policy, whatever fails and whatever others commit: whoever's last call is a revocation that succeeded is out; once that is everybody, the relation is what the others' commits alone would have made of it. |
| Lifecycle.PerformOne | controllers/projectreference/projectreference_adapter.go:809-842 | One call and the history that passes meanwhile: the operator's commits change the call's member only, and a revocation that succeeds leaves nothing of it. |
| ReferenceAdapters.ReferenceAdapter.EnsureProjectReferenceInitialized | controllers/projectreference/projectreference_adapter.go:739-749 | Every operation: only protocol steps; what holds for the next operation if the loop goes on; otherwise, undisturbed, the one stage gained, and in any world, without an error, a delay, a write of the reference taken, or nothing left to do that the pass saw. Here: goes on with conditions; otherwise an empty list is stored, or the error of that write returned. |
| ReferenceAdapters.ReferenceAdapter.EnsureDeletionProcessed | controllers/projectreference/projectreference_adapter.go:340-350 | As above: an undisturbed pass over a deleted reference ends with the reference gone, and one whose project stops it with an error and nothing stored; without an error the finalizer was dropped, or was not there. |
| ReferenceAdapters.ReferenceAdapter.EnsureProjectCleanedUp | controllers/projectreference/projectreference_adapter.go:379-410 | Success means that account, project, customer's console access, secret and finalizer were all seen to be gone or taken away in this pass, and that what the configured groups have in a customer's stored project they were given afterwards; undisturbed it succeeds from any partly cleaned state. |
| ReferenceAdapters.ReferenceAdapter.DeleteServiceAccount | controllers/projectreference/projectreference_adapter.go:474-501 | Success means that the account is absent, and that its grants were revoked in this pass unless it was missing from the start. |
| ReferenceAdapters.ReferenceAdapter.DeleteProject | controllers/projectreference/projectreference_adapter.go:449-472 | Success means that the project is missing or being deleted. |
| ReferenceAdapters.ReferenceAdapter.EnsureCCSProjectCleanedUp | controllers/projectreference/projectreference_adapter.go:412-428 | Success means that every configured group was revoked in a customer's project, and that whatever such a group has in the stored project it was given after that; however it ends, no other group counts as revoked and what the pass knows otherwise stays; undisturbed, it fails if the project is gone while there are groups. |
| ReferenceAdapters.ReferenceAdapter.DeleteCredentials | controllers/projectreference/projectreference_adapter.go:660-683 | Success means that the secret is gone as far as it can be read. |
| ReferenceAdapters.ReferenceAdapter.EnsureFinalizerDeleted | controllers/projectreference/projectreference_adapter.go:368-376 | The finalizer is dropped in a cleaned-up pass; undisturbed, the reference disappears. |
| ReferenceAdapters.ReferenceAdapter.EnsureProjectClaimReady | controllers/projectreference/projectreference_adapter.go:132-158 | Goes on only if the reference is not Ready; undisturbed, a Ready reference gives the claim its zones, and then its ID and state; in any world a pass that ends here without an error has seen both Ready, waits, or stored the zones with a condition still to be written. |
| ReferenceAdapters.ReferenceAdapter.EnsureClaimAvailabilityZonesSet | controllers/projectreference/projectreference_adapter.go:687-707 | Goes on only with zones in the claim; otherwise, undisturbed, it stores exactly those the cloud named. |
| ReferenceAdapters.ReferenceAdapter.HandleAvailabilityZonesError | controllers/projectreference/projectreference_adapter.go:709-728 | Another error is passed on with nothing changed; a Compute API that is not ready is reported, and is an error exactly when the condition timed out, or when storing it failed. |
| ReferenceAdapters.ReferenceAdapter.EnsureClaimProjectIDSet | controllers/projectreference/projectreference_adapter.go:730-737 | An empty project ID of the claim becomes the reference's, any other stays. |
| ReferenceAdapters.ReferenceAdapter.VerifyProjectClaimPending | controllers/projectreference/projectreference_adapter.go:161-166 | Goes on exactly for a claim in PendingProject, waits five seconds for any other, and stores nothing. |
| ReferenceAdapters.ReferenceAdapter.EnsureProjectReferenceStatusCreating | controllers/projectreference/projectreference_adapter.go:168-179 | Goes on only with a state; otherwise Creating is stored, with nothing else of the status changed, or the error of that write returned. |
| ReferenceAdapters.ReferenceAdapter.EnsureProjectID | controllers/projectreference/projectreference_adapter.go:211-222 | Goes on only with a project ID; otherwise a generated one is stored, with nothing else of the specification changed, or the error of that write returned. |
| ReferenceAdapters.ReferenceAdapter.EnsureServiceAccountName | controllers/projectreference/projectreference_adapter.go:195-209 | Goes on only with an acceptable account name; otherwise a generated one is stored, with nothing else of the specification changed, or the error of that write returned. |
| ReferenceAdapters.ReferenceAdapter.EnsureFinalizerAdded | controllers/projectreference/projectreference_adapter.go:359-365 | Goes on only with the finalizer; otherwise it is appended and stored, or the error of that write returned. |
| ReferenceAdapters.ReferenceAdapter.EnsureProjectCreated | controllers/projectreference/projectreference_adapter.go:224-250 | Goes on only with a customer's project, or with an active one that has the billing API and is linked to the configured billing account, by name; in a quiet world a project that is being deleted always gives the state Error. |
| ReferenceAdapters.ReferenceAdapter.CreateProject | controllers/projectreference/projectreference_adapter.go:503-535 | Success means an active project; in a quiet world a project being deleted is told apart from other failures; a creating call that failed ends the pass with the attempt to clear the ID, which is cleared unless storing that failed too. |
| ReferenceAdapters.ReferenceAdapter.ConfigureBillingAPI | controllers/projectreference/projectreference_adapter.go:550-570 | Success means that the billing API is enabled and the project linked to the configured account: `billingAccounts/` and the account, without the newline that may follow it. |
| ReferenceAdapters.ReferenceAdapter.CreateCloudBillingAccount | pkg/gcpclient/client.go:357-395 | For every account that does not end in a newline, if the configured one is it or it and a newline, success means that the pass knows the project to be linked to `billingAccounts/` and that account, and in a quiet world that the stored project is. |
| ReferenceAdapters.ReferenceAdapter.EnableAPI | pkg/gcpclient/client.go:326-353 | Between one and four tries, one if undisturbed: every try but the last was forbidden, and a forbidden last one was the fourth; the API is known to be enabled exactly if there is no error, and nothing else is learnt. |
| ReferenceAdapters.ReferenceAdapter.ConfigureAPIS | controllers/projectreference/projectreference_adapter.go:572-588 | Success means that every required API is enabled. |
| ReferenceAdapters.ReferenceAdapter.ConfigureServiceAccount | controllers/projectreference/projectreference_adapter.go:590-617 | Going on means that the account is there and has every role asked for; no other role is granted; without an error it goes on, or waits thirty seconds after the creating call said that the account exists, though it could not be read. |
| ReferenceAdapters.ReferenceAdapter.SetIAMPolicy | controllers/projectreference/projectreference_adapter.go:776-807 | The account, or a group, is granted the roles it is meant to have and no others: the pass knows exactly these in addition if the call succeeds, and in a quiet world the project's grants are those before and exactly these pairs. |
| ReferenceAdapters.ReferenceAdapter.CreateCredentials | controllers/projectreference/projectreference_adapter.go:619-658 | Going on means that the secret is there; nothing learnt before is lost; without an error it goes on, or waits thirty seconds after the account was not found. |
| ReferenceAdapters.ReferenceAdapter.EnsureProjectConfigured | controllers/projectreference/projectreference_adapter.go:256-300 | Goes on only when everything a Ready reference stands for was seen in this pass, and, in a customer's project, every configured group has its roles in the stored project unless others took them away. However it ends, the account was granted its own roles and the groups theirs, and nothing more; going on, the groups were granted exactly that. Without an error it goes on or waits thirty seconds. |
| ReferenceAdapters.ReferenceAdapter.EnsureStateReady | controllers/projectreference/projectreference_adapter.go:302-309 | Writes Ready, only with everything seen and with nothing else of the status changed, and ends the pass with the answer to that write. |
| ReferenceAdapters.ReferenceAdapter.SetProjectReferenceCondition | controllers/projectreference/projectreference_adapter.go:848-863 | The write at the end of a pass is a step the protocol allows, whatever the operations left in memory: an error is reported, an earlier one marked as resolved, other kinds stay, and nothing is written if nothing was ever reported. |
| ReferenceControllers.ProjectReferenceReconciler.ReconcileHandler | controllers/projectreference/projectreference_controller.go:126-153 | The operations in order, stopped by an error, a requeue or a cancel; undisturbed, the whole loop gains one stage, and it asks for another run after a while unless it has changed the reference, has a condition to store, or leaves nothing to do; in any world, without an error, it asks for another run, has written the reference, has seen nothing left to do, or has stored the zones and has a condition to store. |
| ReferenceControllers.ProjectReferenceReconciler.Reconcile | controllers/projectreference/projectreference_controller.go:66-120 | From reading the reference to the write at the end: only protocol steps, whatever else happens. In any world a run without an error found no reference, or has a delay, or wrote the reference, or saw that nothing was left to do; but for a pass over a Ready reference that stored zones and whose write at the end was not taken (`Gaps.ZonesPassForgets`). Undisturbed, no error, one stage gained, a reported error resolved, nothing in the way of the next run, and another run to come unless nothing is left to do; where the clean-up is stuck, an error and nothing but conditions stored; while the Compute API is not ready, a failed probe and a report stored. |
| ReferenceControllers.ProjectReferenceReconciler.GetGcpClient | controllers/projectreference/projectreference_controller.go:156-177 | A customer's reference needs its secret; undisturbed, credentials are found exactly if it exists. |
| ReferenceControllers.ProjectReferenceReconciler.Reject | controllers/projectreference/projectreference_controller.go:81-95 | An invalid reference is stored with the state Error, by a step the protocol allows, unless it has that state, and the error of that write is returned. |
| ReferenceControllers.ProjectReferenceReconciler.Attend | controllers/projectreference/projectreference_controller.go:81-120 | A customer's reference that is not being deleted and reads its secret in another namespace than its claim's ends with the state Error unless there is an error; any other is handled, and no pass ends forgotten but for the one that stores zones. |
| ReferenceControllers.ProjectReferenceReconciler.GetConfigMap | controllers/projectreference/projectreference_controller.go:102-105 | A configuration without billing account or parent folder is an error; in a quiet world nothing else is. |
| ClaimAdapters.ClaimAdapter.EnsureProjectClaimDeletionProcessed | controllers/projectclaim/projectclaimadapter.go:102-111 | Every operation: only protocol steps; what holds for the next operation if the loop goes on; otherwise, undisturbed, what the whole pass makes of the objects, and in any world, without an error, a delay, a write of the claim taken, or nothing left to do that the pass saw; a settled claim is not touched. Here: goes on exactly for a claim that is not being deleted; waits five seconds unless it is done. |
| ClaimAdapters.ClaimAdapter.FinalizeProjectClaim | controllers/projectclaim/projectclaimadapter.go:163-192 | Undisturbed: an existing reference is marked or gone; with none, the customer's secret no longer carries the operator's finalizer, and the claim loses its own. In any world it is done without an error only if the claim was written or held no finalizer, and waits without an error only if the reference was seen and its deletion accepted. |
| ClaimAdapters.ClaimAdapter.EnsureCCSSecretFinalizerDeleted | controllers/projectclaim/projectclaimadapter.go:130-146 | Undisturbed, the secret no longer carries the finalizer, claim and reference are left alone, and a missing secret is no error. |
| ClaimAdapters.ClaimAdapter.EnsureProjectClaimFinalizerDeleted | controllers/projectclaim/projectclaimadapter.go:124-127 | Undisturbed, the claim loses the operator's finalizer and disappears if it was the last. |
| ClaimAdapters.ClaimAdapter.EnsureProjectClaimValidated | controllers/projectclaim/projectclaimadapter.go:89-99 | Goes on exactly for a claim whose own secret, and a customer's, are in its namespace or in none; any other gets the state Error, or the error of storing that is returned. |
| ClaimAdapters.ClaimAdapter.EnsureProjectClaimInitialized | controllers/projectclaim/projectclaimadapter.go:195-206 | Goes on exactly with conditions; otherwise an empty list is stored, or the error of that write returned. |
| ClaimAdapters.ClaimAdapter.EnsureRegionSupported | controllers/projectclaim/projectclaimadapter.go:360-375 | Goes on only with a served region and no state Error in memory; any other region gives the state Error and the condition that says so; an earlier complaint is stored as resolved first. |
| ClaimAdapters.ClaimAdapter.IsRegionSupported | controllers/projectclaim/projectclaimadapter.go:343-356 | Without error, true exactly for a customer's project and for a region that the configuration does not disable. |
| ClaimAdapters.ClaimAdapter.SetProjectClaimCondition | controllers/projectclaim/projectclaimadapter.go:322-339 | Goes on, with nothing changed, only if there is no failure and nothing unresolved; otherwise the report is stored, with the state in memory, and other kinds stay. |
| ClaimAdapters.ClaimAdapter.EnsureProjectClaimState | controllers/projectclaim/projectclaimadapter.go:302-319 | Pending is stored from the empty state, PendingProject from Pending, and only when the protocol allows it, with nothing else of the status changed; the error of that write is returned. |
| ClaimAdapters.ClaimAdapter.EnsureProjectReferenceExists | controllers/projectclaim/projectclaimadapter.go:278-289 | Goes on only with the reference seen or created in this pass. In a quiet world a missing reference is stored, field by field: the claim's shared-network access, customer flag and secret, its name as link, a customer's project ID or none, no account, no finalizer, no state. |
| ClaimAdapters.ClaimAdapter.EnsureProjectReferenceLink | controllers/projectclaim/projectclaimadapter.go:209-223 | Goes on only with the link in the stored claim; otherwise it is stored, with nothing else of the specification changed, or the error of that write returned. |
| ClaimAdapters.ClaimAdapter.EnsureFinalizer | controllers/projectclaim/projectclaimadapter.go:226-233 | Goes on only with the finalizer in the stored claim; otherwise it is appended and stored, or the error of that write returned. |
| ClaimAdapters.ClaimAdapter.EnsureCCSSecretFinalizer | controllers/projectclaim/projectclaimadapter.go:236-247 | Goes on only with a customer's secret held. |
| ClaimAdapters.ClaimAdapter.constructor | controllers/projectclaim/projectclaimadapter.go:43-72 | The reference in memory has from the claim, field by field, the shared-network access, the customer flag and secret, the name as link and a customer's project ID, and nothing else. |
| ClaimControllers.ProjectClaimReconciler.ReconcileHandler | controllers/projectclaim/projectclaim_controller.go:101-125 | The operations in order, stopped by an error, a requeue or a cancel; undisturbed, exactly the pass specified, and it asks for another run after a while when it waits for the reference to go; in any world, without an error, it asks for another run, has written the claim, or has seen nothing left to do. |
| ClaimControllers.ProjectClaimReconciler.Reconcile | controllers/projectclaim/projectclaim_controller.go:70-92 | From reading the claim to the write at the end: only protocol steps. In any world a run without an error found no claim, or has a delay, or wrote the claim, or saw that nothing was left to do. Undisturbed, one stage gained, a reported error resolved, and another run to come unless nothing is left to do; a settled claim is not written at all. |
| Progress.FreshStages | controllers/projectclaim/projectclaim_controller.go:101-125 | A new claim is at most five productive claim passes and eight productive reference passes away from Ready. |
| Progress.ClaimPassBuilds | controllers/projectclaim/projectclaim_controller.go:101-125 | A claim pass changes nothing exactly when no stage of its own is left, and leaves fewer otherwise. |
| Progress.ReferencePassBuilds | controllers/projectreference/projectreference_controller.go:126-153 | A reference pass that changes anything leaves fewer stages, and does change something once the claim controller is done. |
| Progress.PassBuilds | controllers/projectreference/projectreference_adapter.go:161-166 | No pass of either controller adds to what is left, and one of them always leaves less until both are Ready. |
| Progress.PassDeletes | controllers/projectclaim/projectclaimadapter.go:163-192 | In deletion the controllers wait for each other in turn; no pass adds to what remains, and the one whose turn it is leaves less. |
| Progress.NothingLeftIsReady | controllers/projectreference/projectreference_adapter.go:132-158 | With no stage left, claim and reference are Ready and the claim has zones. |
| Schedules.Serve | controllers/projectreference/projectreference_controller.go:126-153 | Convergence of the reconcile runs: as many fair rounds as stages are left, in any order within a round, end with both Ready. Unless the reference was there before and has it otherwise, the account then has its eight roles in the stored project, and four more, by name, if the claim asks for access to a shared network, each unless others took it away. |
| Schedules.Retire | controllers/projectreference/projectreference_adapter.go:340-410 | Deletion progress of the reconcile runs: as many fair rounds as something remains for end with the reference gone, the claim too if only the operator held it, and no active project of theirs but one whose ID was cleared after a failed creation. |
| Schedules.FromNothingToNothing | controllers/projectclaim/projectclaim_controller.go:70-92 | A new valid claim is served in thirteen fair rounds and, once deleted, four leave neither claim nor reference nor an active project of theirs, but for one whose ID was cleared before. |
| Schedules.OnePassSettles | controllers/projectclaim/projectclaimadapter.go:322-339 | One pass over a served claim settles its conditions, and a second changes nothing. |
| Schedules.Settle | controllers/projectclaim/projectclaim_controller.go:84-90 | Quiescence: after one pass over a served claim, no number of further passes writes anything. |
| Schedules.Pass | controllers/projectreference/projectreference_controller.go:139-152 | After an undisturbed pass its controller runs again of its own accord, after a delay or because it wrote its own kind of object, unless nothing is left for it to do. |
| Schedules.Watch | controllers/projectclaim/projectclaim_controller.go:128-132 | No wake-up is lost: whatever the order of passes, when no run of either controller is to come, the claim is served, or gone if it is being deleted. |
| Schedules.FavourableUnlessStuck | controllers/projectreference/projectreference_adapter.go:379-428 | In every state of every run, the clean-up of a reference has nothing in its way if and only if it is not stuck: a customer's credentials are gone, or its project while there are groups to revoke, or the operator's own project is neither active nor being deleted. |
| Schedules.StayStuck | controllers/projectreference/projectreference_adapter.go:379-428 | If it is stuck, no number of passes of the two controllers, in any order, gets rid of the reference or its claim. |
| Schedules.Wait | controllers/projectreference/projectreference_adapter.go:687-728 | Any number of reconcile runs while the Compute API is not ready: the stored conditions are those of one failed probe and one report a run, exactly the runs whose probe comes more than 600 seconds after the first one's fail, and nothing else is stored. |

## Left out

- Fake claims (the `managed.openshift.com/fake` annotation): the annotation is taken to be absent, so that operation always goes on.
- Building HTTP clients, decoding credentials, parsing the config map, sleeps and backoff: their results are any outcome, or success where nothing goes wrong.
- Stale caches, leader election, rate limits, wiring, logging and error texts: errors are an enumeration, and a message is any string.
- Service account keys: that a failed write of the secret leaves a key behind is not counted; making a key may fail.
- IAM conditions on bindings: a binding is a role and members, which is all the merge copies.
- The legal entity of a claim and the labels of a project: nothing depends on them.
- How IDs and names are generated: they are any names never used before; `MintID` draws and stores in one step.
- Whether the reference stops being written: its condition is refreshed on every pass, so there is nothing to prove.
- An update that changes nothing gets a new version here, while a real store may keep the old one; the code depends on neither.
- More than one undisturbed claim at a time: `Schedules` runs the controllers for one claim name.
- How often requested runs take place: `Serve` and `Retire` take a fair schedule as given; `Watch` shows that runs are requested for as long as there is something to do.
- Schedules.Pass: that the zones' pass is followed by another rests on the condition written at its end, whose probe time is new; if that write fails, nothing else follows (`Gaps.ZonesPassForgets`).
- Policies.DeleteIAMPolicy: a member that a binding lists twice keeps its grant there (`Bindings.ListedTwiceStays`), because a binding loses one occurrence.
- Theorems.CredentialsOutliveReference: says nothing of a finalizer that a user put on the secret by hand.
- Schedules.Retire: its conclusion fails exactly where the clean-up is stuck (`Schedules.FavourableUnlessStuck`, `Schedules.StayStuck`): the code tries for ever.
- ReferenceControllers.ProjectReferenceReconciler.GetGcpClient: takes every secret to hold a key that can be decoded; one without counts as missing.
- ReferenceAdapters.ReferenceAdapter.EnsureStateReady: omits the branch for a reference that is Ready already, because an earlier operation has ended such a pass.
- BindingLists.AddOrUpdateBinding: adds a role's one member directly where the source loops over a list that always has one element.
