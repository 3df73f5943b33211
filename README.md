# cleaneks job — a Dafny model

`terraform-provider-cleaneks` is a Terraform provider that cleans the vendor
add-ons off a freshly created Amazon EKS cluster. Its one resource, the
`cleaneks_job`, does the following:

- It deletes the `aws-node` CNI DaemonSet.
- It deletes the `kube-proxy` DaemonSet and its ConfigMap.
- For the CoreDNS objects (Deployment, `kube-dns` Service, ServiceAccount,
  ConfigMap and PodDisruptionBudget), it does one of two things:
  - it deletes them;
  - or it adopts them into a Helm release named `coredns`. Adoption sets the
    Helm release annotations and the managed-by label, and drops the
    vendor's component label.
- It then reads the cluster back and stores what it found as the resource
  state.

This project models the core of that provider:

- **the job resource** (`job.dfy`, module `Job`), as a class whose methods
  change a provider and a cluster:
  - the desired flags;
  - the DNS address fallback;
  - the mutation block with its early return on the first failing call;
  - the read-back;
  - the record written to the state;
  - the provider patches and client caching at the start of each operation.
- **the Kubernetes client functions** (`client.dfy`, module `Client`), as a
  class over an in-memory store:
  - existence by listing;
  - delete with not-found folded away;
  - the four-flag Helm ownership classifier;
  - the Helm adoption patch inside retry-on-conflict.
- **the provider configuration** (`provider.dfy`, module `ProviderConfig`):
  - null/unknown normalisation;
  - kubeconfig path precedence;
  - the two credential checks;
  - the fields written on success.
- **the environment-variable defaults** (`env_defaults.dfy`, module
  `EnvDefaults`).
- **shared vocabulary** (`kube.dfy`, module `Kube`):
  - the fixed object identities and the marker keys;
  - the log of client calls against which every operation is specified.
- **supporting modules**: `strings.dfy` (Go's `strings.Split`/`Join` and the
  "replace the last segment" rewrite) and `wrappers.dfy` (Option, Result and
  the null/unknown/known value of a Terraform attribute).

## How the orchestration is specified

Each client function appends one `Call` (its step and whether it failed) to
the cluster's ghost log.

Each phase of an operation has a plan, which is a sequence of steps. For
example, `MutationSteps(f, c)` depends on the flags `f` and on what the
ownership checks `c` returned.

The statement `Ran(after, before, plan, stop, ok)` says this:

- the calls logged between `before` and `after` are the plan's steps, in
  order;
- the calls before index `stop` succeeded;
- when `stop < |plan|`, the call at `stop` failed and nothing came after it;
- `ok` holds exactly when the whole plan ran.

`RunMeaning` turns this into a statement about the sequence of calls. The
lemmas about the plans then state the resource's promises:

- which objects are deleted or adopted, and under which flags;
- that the ownership checks come first;
- that a Read never mutates anything.

Create and Update are stated in two phases, the changes and then the
read-back (`RanInPhases`). `AppliedAsOneRun` shows that the two phases form
one run of the whole plan.

Alongside the calls, each mutating phase states what it did to the store
with `Effected(cluster, plan, before, after, ok)`:

- an object that no delete or adoption in the plan names is unchanged,
  whatever the outcome;
- when `ok`, every delete or adoption of the plan took effect (`Achieved`):
  a deleted DaemonSet, Deployment or Service is gone, and an adopted
  Deployment or Service holds `AdoptedMeta` of what was there.

The same statement is carried from `Mutate` up through the CoreDNS block,
the mutation block and `Execute` to `Create` and `Update`. Lemmas such as
`NodeAddonsRemoved`, `CoreDnsRemovedOrAdopted` and `LeftAlone` then read off
what a run leaves in the cluster.

## Where the code and its description differ

The model follows the code in each of these places:

- **The amazon key.** The ownership classifier looks up the vendor's
  component key in the annotations. The adoption patch deletes it from the
  labels, and only when it is present in the annotations. So after adoption
  the key is still absent from the annotations (`ClassifyAdopted`), and a
  component label with no matching annotation survives
  (`AmazonLabelSurvivesAdoption`).
- **Nil annotations.** The adoption patch writes into the annotation map
  before its nil check. An object with no annotations therefore makes the
  Go code panic. The model makes this the error `NilMapWrite`.
- **A missing object.** `DeploymentImportedIntoHelm` and
  `ServiceImportedIntoHelm` return a not-found Get as an error, not as four
  false flags. The read-back calls both without a presence
  check. So a run that deletes the vendor's CoreDNS Deployment or kube-dns
  Service always fails at the read-back and records no state
  (`RemovedCoreDnsNeverSaved`).
- **The PodDisruptionBudget markers.** The read-back fills the
  PodDisruptionBudget's four marker attributes from a second read of the
  CoreDNS ConfigMap (`MarkersNeverReadPdb`).
- **Create's CNI formulas.** Create records the CNI pair with formulas of
  its own. Read and Update share another pair (`Record`, `creating`).
- **The fallback address list.** The list from the `kubernetes` service is
  collapsed to one derived address only when its first entry holds ':' or
  '.'. Otherwise it is stored whole (`FallbackKeepsSeveral`).

## Model

| member | source | states |
|---|---|---|
| Job.DesiredFlags | internal/provider/resource_job.go:403-423 | each removal flag is on unless the plan says false; adoption is on only when the plan says true |
| Job.FallbackIps | internal/provider/resource_job.go:434-459 | a first address with ':' or '.' becomes the single derived address; any other list, the empty one included, is kept unchanged |
| Job.DeriveDnsIpV4 | internal/provider/resource_job.go:451-457 | an IPv4 address keeps everything up to its last '.' and ends in "10" |
| Job.DeriveDnsIpV6 | internal/provider/resource_job.go:442-448 | an IPv6 address keeps everything up to its last ':' and ends in "a" (the '.' rewrite then leaves it alone) |
| Job.FallbackKeepsSeveral | internal/provider/resource_job.go:441-458 | a counterexample to "the fallback leaves at most one address": ["kube", "dns"], whose first entry has neither separator, is kept whole with both elements |
| Job.RecordedIps | internal/provider/resource_job.go:810-823 | the stored DNS list is the found addresses, else the state's known list, else an empty list |
| Job.Record | internal/provider/resource_job.go:651-825 | the stored state: each flag reads back as its desired value exactly when there is no drift (kube-proxy: not both objects remain; CoreDNS: not all five remain; adoption: all twenty markers set); Create's CNI pair differs from Read/Update's; the seven other presence attributes and the five objects' twenty markers are the observation's, copied as known values; the id is the provider host |
| Job.PatchModel | internal/provider/resource_job.go:345-351 | an unknown host takes the job's known id; an unknown `insecure` becomes true when the client certificate is unknown; nothing else changes |
| Job.AppliedAsOneRun | internal/provider/resource_job.go:425-825 | the changes followed by the read-back (skipped after a failure) are one run of the whole Create/Update plan |
| Job.InCoreDnsOps | internal/provider/resource_job.go:536-646 | a CoreDNS operation is issued for an object exactly when its ownership check reported it as the vendor's |
| Job.NodeDeletesFollowFlags | internal/provider/resource_job.go:462-491 | aws-node is deleted iff CNI removal is wanted; the kube-proxy DaemonSet and ConfigMap iff kube-proxy removal is wanted |
| Job.NodeStepsOnly | internal/provider/resource_job.go:461-648 | outside the CoreDNS objects, the mutation block issues exactly the node add-on deletes |
| Job.KubeProxyDeletesAdjacent | internal/provider/resource_job.go:474-491 | the kube-proxy ConfigMap delete comes right after the DaemonSet delete |
| Job.CoreDnsStepsRefs | internal/provider/resource_job.go:493-646 | the CoreDNS block touches only the five CoreDNS objects |
| Job.OnlyManagedObjectsDeleted | internal/provider/resource_job.go:461-648 | nothing but the node add-ons and the CoreDNS objects is ever deleted |
| Job.NodeStepsShape | internal/provider/resource_job.go:462-491 | every node add-on step is a delete of a non-CoreDNS object |
| Job.CoreDnsStepsShape | internal/provider/resource_job.go:493-646 | in the CoreDNS block the first four steps, and only they, are ownership checks |
| Job.InCoreDnsSteps | internal/provider/resource_job.go:493-646 | the CoreDNS block runs only when removal or adoption is wanted, and holds the checks plus operations of the chosen kind |
| Job.CoreDnsActionsFollowChecks | internal/provider/resource_job.go:536-646 | a CoreDNS object is deleted iff removal is wanted and its check says vendor-owned; it is adopted iff adoption is wanted, removal is not, and its check says so |
| Job.RemovalExcludesAdoption | internal/provider/resource_job.go:536-646 | when removal is wanted nothing is adopted, whatever the adoption flag says |
| Job.ChecksPrecedeCoreDnsMutations | internal/provider/resource_job.go:493-646 | every ownership check comes before every CoreDNS delete or adoption |
| Job.ReadOnlyObserves | internal/provider/resource_job.go:937-1140 | a Read issues no delete and no adoption |
| Job.MarkersNeverReadPdb | internal/provider/resource_job.go:792-803 | the marker reads never look at the PodDisruptionBudget; the ConfigMap is read twice |
| Job.Mutate | internal/provider/resource_job.go:464-641 | one delete or adoption call, logged with its failure; a failure leaves the store as it was; a success deletes the DaemonSet, Deployment or Service, adopts the Deployment or Service (which existed with annotations), or does what the cluster's other client calls do; no other object changes |
| Job.MutateIf | internal/provider/resource_job.go:536-646 | a gated step runs exactly when its gate holds; the store changes only at the step's object, as `Mutate` says, and not at all when the gate is off |
| Job.RemoveNodeAddons | internal/provider/resource_job.go:462-491 | the node add-on deletes run in plan order and stop at the first failure; only aws-node and the kube-proxy pair may change, and on success each wanted delete took effect |
| Job.ClassifyCoreDns | internal/provider/resource_job.go:494-533 | the four ownership checks run in order and stop at the first failure; on success each result is the object's ownership; the store is unchanged |
| Job.MutateCoreDns | internal/provider/resource_job.go:536-646 | the deletes or adoptions of the objects reported as the vendor's, in fixed order, stopping at the first failure; only those objects may change, and on success each took effect |
| Job.MutateNext | internal/provider/resource_job.go:536-646 | one gated step of a run still going, skipped after a failure; its object is new to the run, so the store effect of the run so far is extended by this step's |
| Job.MutateCoreDnsRest | internal/provider/resource_job.go:558-646 | the ServiceAccount, ConfigMap and PodDisruptionBudget steps as the continuation of a CoreDNS run, with their calls and their store effect |
| Job.ReconcileCoreDns | internal/provider/resource_job.go:493-646 | the CoreDNS block: checks, then the deletes (removal wins) or the adoptions; the checks change nothing and the operations change only their objects, each as intended when all succeeded |
| Job.Reconcile | internal/provider/resource_job.go:461-648 | the mutation block runs only when some flag is on, and follows its plan up to the first failure; the store outside the plan's objects is unchanged, and on success every step took effect |
| Job.MutateAll | internal/provider/resource_job.go:461-648 | node add-ons first, then CoreDNS only if they all succeeded; the store effect is that of the whole mutation plan |
| Job.ResolveClusterIps | internal/provider/resource_job.go:434-459 | the fallback call is issued exactly when kube-dns gave no address and the state holds no list; the result is the rewritten list; the store is unchanged |
| Job.ProbeNodeAddons | internal/provider/resource_job.go:651-681 | the three node add-on probes, in order, up to the first failure; the results are the true presence |
| Job.ProbeCoreDns | internal/provider/resource_job.go:685-725 | the four CoreDNS ownership checks of the read-back and the kube-dns addresses |
| Job.ObservePresence | internal/provider/resource_job.go:651-725 | presence of the node add-ons and the CoreDNS objects, as one run |
| Job.ObservePdb | internal/provider/resource_job.go:727-735 | the PodDisruptionBudget ownership check |
| Job.ObserveMarkers | internal/provider/resource_job.go:737-804 | the five marker reads, the last one of the ConfigMap; on success the markers are the cluster's |
| Job.ObserveHelm | internal/provider/resource_job.go:727-804 | the PodDisruptionBudget check, then the marker reads |
| Job.Observe | internal/provider/resource_job.go:650-804 | the whole read-back of a Create or Update; on success the observation is the cluster's; the store is unchanged |
| Job.LocateDns | internal/provider/resource_job.go:424-459 | the kube-dns check, then the fallback only while nothing failed; the store is unchanged |
| Job.ReconcileAfter | internal/provider/resource_job.go:461-648 | the mutation block as the continuation of a run, skipped (store unchanged) after a failure; otherwise with the mutation plan's store effect |
| Job.Change | internal/provider/resource_job.go:424-648 | kube-dns check, fallback and mutations as one run of the change plan; the store changes only as the mutation plan says |
| Job.Execute | internal/provider/resource_job.go:424-804 | the changes, then the read-back only when all changes succeeded; the store changes only as the mutation plan says, every step taking effect when the changes succeeded |
| Job.SurveyPresence | internal/provider/resource_job.go:937-1036 | presence, then the fallback, as one run; the store is unchanged |
| Job.Inspect | internal/provider/resource_job.go:937-1120 | a Read's calls, in plan order up to the first failure; on success the observation is the cluster's |
| Job.JobResource.constructor | internal/provider/resource_job.go:302-319 | the resource holds the configured provider |
| Job.JobResource.Prepare | internal/provider/resource_job.go:334-401 | no provider is an error; host and `insecure` are patched in the provider model; a missing client is built and cached, and a failure to build it is an error; the provider's host and burst limit are never written |
| Job.JobResource.Apply | internal/provider/resource_job.go:321-826 | the whole Create/Update: error before any call, or the change plan then the read-back up to the first failure, or the record of the observed cluster; a failed cluster call or a saved state comes with the mutation plan's store effect (complete when saved); the provider's host and burst limit are never written; a client that was cached, or built, stays cached whatever the cluster calls do |
| Job.JobResource.Create | internal/provider/resource_job.go:321-826 | Create with Create's CNI formulas, and the store effect of its mutation plan; the provider's host and burst limit are never written; a client that was cached, or built, stays cached whatever the cluster calls do |
| Job.JobResource.Update | internal/provider/resource_job.go:1143-1657 | Update: the same run, recorded with Read's CNI formulas, and the store effect of its mutation plan; the provider's host and burst limit are never written; a client that was cached, or built, stays cached whatever the cluster calls do |
| Job.JobResource.Read | internal/provider/resource_job.go:828-1141 | observation only (store unchanged); an empty kubeconfig while the host is unknown is a warning; otherwise the Read plan and the record; the provider's host and burst limit are never written; a client that was cached, or built, stays cached whatever the cluster calls do |
| Job.JobResource.Delete | internal/provider/resource_job.go:1659-1662 | nothing to undo; the state is dropped |
| Job.EffectedOne | internal/provider/resource_job.go:464-641 | one delete or adoption that changes only its object is the store effect of a one-step plan |
| Job.EffectedThen | internal/provider/resource_job.go:461-648 | two plans over different objects, the second after the first succeeded, have the store effect of their concatenation |
| Job.EffectedStopped | internal/provider/resource_job.go:461-648 | a plan that failed part-way has the store effect of a failed run of any longer plan |
| Job.EffectedAfterReads | internal/provider/resource_job.go:493-533 | ownership checks before a plan add nothing to its store effect |
| Job.TouchedObjects | internal/provider/resource_job.go:461-648 | the mutation block may change aws-node iff CNI removal is wanted, the kube-proxy pair iff kube-proxy removal is wanted, a CoreDNS object iff removal or adoption is wanted and its check said vendor-owned; nothing else |
| Job.NodeAndCoreDnsDisjoint | internal/provider/resource_job.go:461-648 | the node add-on block and the CoreDNS block never touch the same object |
| Job.CoreDnsBlockThen | internal/provider/resource_job.go:493-646 | the checks, then the selected operations, are the CoreDNS block, in calls and in store effect |
| Job.CoreDnsBlockStopped | internal/provider/resource_job.go:493-533 | a failed ownership check ends the CoreDNS block with the store unchanged |
| Job.MutationBlockThen | internal/provider/resource_job.go:461-648 | the node add-on block, then the CoreDNS block, are the mutation block, in calls and in store effect |
| Job.MutationBlockStopped | internal/provider/resource_job.go:462-491 | a failed node add-on delete ends the mutation block there |
| Job.LeftAlone | internal/provider/resource_job.go:461-648 | whatever the outcome, an object outside the touched set is unchanged |
| Job.NodeAddonsRemoved | internal/provider/resource_job.go:462-491 | after a successful mutation block, aws-node is gone if its removal was wanted; the kube-proxy DaemonSet is gone and its ConfigMap is as the delete leaves it if kube-proxy removal was wanted |
| Job.CoreDnsRemovedOrAdopted | internal/provider/resource_job.go:536-646 | after a successful mutation block, a vendor-owned CoreDNS Deployment or kube-dns Service is gone under removal; under adoption alone it holds the adopted metadata of what was there, with the three Helm markers set |
| Job.RemovedCoreDnsNeverSaved | internal/provider/resource_job.go:737-760 | when removal deleted the CoreDNS Deployment or the kube-dns Service, the read-back cannot find both: a run whose read-back found both deleted neither |
| Job.CniRemovalRecorded | internal/provider/resource_job.go:651-825 | a successful run that wanted aws-node removed records the removal as kept and the DaemonSet as absent, for Create and Update |
| Client.Lookup | internal/provider/client.go:168-186 | a read of a possibly nil map: nil reads as empty |
| Client.Classify | internal/provider/client.go:159-188 | nil labels or annotations give four false flags; otherwise the release annotations, the managed-by label, and the amazon key's absence from the annotations |
| Client.AdoptedMeta | internal/provider/client.go:231-268 | the release annotations and the managed-by label hold their Helm values; every other key is kept; the amazon label is dropped iff the annotation has that key |
| Client.PatchForHelm | internal/provider/client.go:231-268 | nil annotations give the nil-map error; otherwise the patched copy is `AdoptedMeta`, and a change is reported iff the object was not fully adopted |
| Client.SameLookups | internal/provider/client.go:231-268 | two maps with the same lookups are equal |
| Client.ContainsName | internal/provider/client.go:75-83 | the name search finds the name iff it is listed |
| Client.Attempt | internal/provider/client.go:270-283 | one Get/patch/Update; a write is always the adopted object; one or two requests |
| Client.Retry | internal/provider/client.go:270-284 | a conflict repeats the attempt while attempts remain; between 1 and 2×attempts requests |
| Client.RetryWritesOnlyAdopted | internal/provider/client.go:270-284 | the only write the loop ever issues is the adopted object, and a write means success |
| Client.RetrySucceedsOnlyAdopted | internal/provider/client.go:231-283 | the loop succeeds only on an object with annotations that it either wrote as adopted or found fully adopted already |
| Client.RetryAdoptedIsNoOp | internal/provider/client.go:231-283 | an already adopted object is never written |
| Client.RetryGivesUp | internal/provider/client.go:270-284 | under constant conflicts the loop ends in a conflict after exactly its five attempts' Gets |
| Client.RetryStopsOnOtherError | internal/provider/client.go:270-284 | an error other than a conflict ends the loop at once |
| Client.RetryRecoversFromConflict | internal/provider/client.go:270-284 | one conflict on the Update, then success: the adopted object is written after four requests |
| Client.ClassifyAdopted | internal/provider/client.go:164-188 | after adoption, three markers are set, and the amazon marker is set iff the annotations lacked the key |
| Client.AdoptedMetaIdempotent | internal/provider/client.go:231-268 | adopting twice is adopting once |
| Client.AdoptedMetaFixesAdopted | internal/provider/client.go:231-268 | an object the classifier sees as fully adopted is left unchanged by the adoption patch |
| Client.AdoptionNeverSettlesWithAmazonAnnotation | internal/provider/client.go:183-186 | with the amazon key among the annotations, adoption never reaches all four markers, however often it runs |
| Client.AmazonLabelSurvivesAdoption | internal/provider/client.go:261-265 | a component label with no matching annotation counts as removed and survives adoption |
| Client.Cluster.constructor | internal/provider/client.go:29-66 | a cluster with the given objects, no requests and an empty log |
| Client.Cluster.List | internal/provider/client.go:70-73 | a List fails with the scheduled error or returns exactly the names of that kind in that namespace |
| Client.Cluster.Get | internal/provider/client.go:159-161 | a Get fails with the scheduled error, or not-found for an absent object, or returns the object |
| Client.Cluster.Remove | internal/provider/client.go:87-94 | a Delete removes the object exactly when it succeeds |
| Client.Cluster.Put | internal/provider/client.go:281-282 | an Update stores the object exactly when it succeeds |
| Client.Cluster.Exist | internal/provider/client.go:69-84 | found iff the List succeeded and the object is stored; a List error is returned |
| Client.Cluster.DeleteObject | internal/provider/client.go:86-95 | deleted iff stored and no fault, and then the object is gone and nothing else changes; not-found counts as success and changes nothing; any other error is returned and nothing changes |
| Client.Cluster.ImportedIntoHelm | internal/provider/client.go:153-189 | a failed Get, not-found included, gives four false flags and the error; otherwise the classification |
| Client.Cluster.AttemptImport | internal/provider/client.go:271-282 | one attempt changes the store exactly as `Attempt` says |
| Client.Cluster.ImportIntoHelm | internal/provider/client.go:230-285 | the retry loop changes the store exactly as `Retry` says over five attempts, and logs one call; on failure nothing changes; on success the object existed with annotations and now holds its adopted metadata, nothing else changing |
| Client.Cluster.Request | internal/provider/resource_job.go:425-432 | the one API request that each client call outside `client.go` makes (here `ServiceExistsAndIsAwsOne`): its error is the fault schedule's entry for that request; the store and the call log are unchanged |
| Client.Cluster.ExistsAndIsAwsOne | internal/provider/resource_job.go:425-432 | the ownership check and cluster addresses of an object, as an oracle of the cluster |
| Client.Cluster.ListedExist | internal/provider/resource_job.go:673-680 | the ConfigMap existence probe, as an oracle |
| Client.Cluster.ReportedImportedIntoHelm | internal/provider/resource_job.go:764-803 | the ServiceAccount and ConfigMap marker reads, as an oracle |
| Client.Cluster.Mutation | internal/provider/resource_job.go:484-641 | the ConfigMap, ServiceAccount and PodDisruptionBudget deletes and adoptions, as an oracle of the cluster that changes only the object it names, and only on success |
| ProviderConfig.ConfigPaths | internal/provider/provider.go:304-313 | `config_path` wins, then `config_paths`, then `KUBE_CONFIG_PATHS` split on ':' into non-empty-list, separator-free pieces that join back to the variable, else none |
| ProviderConfig.Normalise | internal/provider/provider.go:264-345 | every null or unknown attribute becomes its zero value; known ones are kept |
| ProviderConfig.Validate | internal/provider/provider.go:349-363 | a certificate without a key, or a key without a certificate, is the first error; neither token nor certificate is the second; otherwise valid |
| ProviderConfig.ValidHasCredentials | internal/provider/provider.go:349-363 | a valid configuration has a token, or both a certificate and a key |
| ProviderConfig.Provider.constructor | internal/provider/provider.go:424-430 | a fresh provider, as `New` returns it, has no host and no burst limit; it also holds the job's view of the provider configuration (`model`) and no cached client (`clientSet`), the two fields the job resource reads and writes at resource_job.go:345-351 and 389-400, which the provider struct does not declare |
| ProviderConfig.Provider.Configure | internal/provider/provider.go:264-370 | host and burst limit are written exactly when both credential checks pass |
| EnvDefaults.ParseBool | internal/provider/bool_env_defaults.go:46-49 | the twelve spellings `strconv.ParseBool` accepts, each with its value; anything else is rejected |
| EnvDefaults.FormatBool | internal/provider/bool_env_defaults.go:46-49 | the formatted boolean parses back to itself |
| EnvDefaults.DefaultBool | internal/provider/bool_env_defaults.go:41-53 | the variable's value when the name is non-empty, the variable is set and parses; the default otherwise; always known |
| EnvDefaults.DefaultBoolReadsBack | internal/provider/bool_env_defaults.go:41-53 | a boolean written to the variable is the default read back |
| EnvDefaults.DefaultBoolIgnoresGarbage | internal/provider/bool_env_defaults.go:41-53 | a variable that does not parse gives the configured default |
| EnvDefaults.DefaultString | internal/provider/string_env_defaults.go:40-49 | the variable's value verbatim (empty included) when the name is non-empty and the variable is set; the default otherwise; always known |
| Strings.Split | internal/provider/resource_job.go:444-445 | splitting gives at least one piece, and no piece holds the separator |
| Strings.JoinSplit | internal/provider/resource_job.go:444-447 | joining the pieces of a split restores the string |
| Strings.SplitWithoutSeparator | internal/provider/resource_job.go:444-445 | a string without the separator splits into itself |
| Strings.SplitFirst | internal/provider/provider.go:309-313 | a separator-free first piece, the separator and a rest split into that piece followed by the rest's pieces |
| Strings.SplitJoin | internal/provider/provider.go:309-313 | splitting the join of separator-free pieces gives the pieces back |
| Strings.SplitLast | internal/provider/resource_job.go:444-446 | the piece after the last separator is the split's last element |
| Strings.LastIndex | internal/provider/resource_job.go:444-446 | the index of the last separator |
| Strings.ReplaceLastSegmentKeepsPrefix | internal/provider/resource_job.go:444-447 | dropping the last piece and appending a tail keeps everything up to the last separator |
| Kube.Steps | internal/provider/resource_job.go:461-648 | the steps of a sequence of calls, one for one |
| Kube.StepsAppend | internal/provider/resource_job.go:461-648 | the steps of concatenated calls are the concatenated steps |
| Kube.OkCallsFollow | internal/provider/resource_job.go:461-648 | the first k successful calls of a plan are clean and issue its first k steps |
| Kube.IssuedFollows | internal/provider/resource_job.go:461-648 | a run issues its whole plan when nothing fails, else a prefix ending at its only failure |
| Kube.RanStep | internal/provider/resource_job.go:461-648 | one more call of a plan: a failure ends the run, a success extends it |
| Kube.OkRunCalls | internal/provider/resource_job.go:461-648 | a successful run appends exactly its calls to the log |
| Kube.RunMeaning | internal/provider/resource_job.go:461-648 | what a run adds to the log is exactly its issued calls, so it follows its plan |
| Kube.OkRunThen | internal/provider/resource_job.go:461-648 | a full run of a, then a run of b, is a run of a + b |
| Kube.OkRunPrefix | internal/provider/resource_job.go:461-648 | a run inside a is the same run of any extension of a |
| Kube.RanThen | internal/provider/resource_job.go:461-648 | a run of a in full, then a run of b, is a run of a + b |
| Kube.RanPhase | internal/provider/resource_job.go:461-648 | a phase skipped after a failure keeps the run stopped; after a success it extends the run |
| Kube.RanStopped | internal/provider/resource_job.go:461-648 | a run stopped inside a is a stopped run of any longer plan |
| Kube.KeptOutsideThen | internal/provider/resource_job.go:461-648 | two runs that each keep the objects outside their plans keep the objects outside the concatenated plan |

## Left out

- Building the Kubernetes client (`GetClientSet`, kubeconfig loading, TLS, exec plugins and the proxy, from `Configure` past line 370) is not modelled. `structure_kubeconfig.go` and `provider_configure.go` are not part of this model. Its success or failure is the `connect` parameter of the job's operations.
- The client functions that are not in `client.go` are not part of this model: `ServiceExistsAndIsAwsOne` and the other ownership checks, `ConfigMapExist`, the ConfigMap, ServiceAccount and PodDisruptionBudget deletes and adoptions, and their marker reads. They are oracle fields of `Cluster`: `awsOwned`, `clusterIpsOf`, `listed`, `markersOf` and `mutate`. Each logs one call and fails as the fault schedule says.
- The API server is a fault schedule `faultAt(i)`, giving the error of the i-th request. The schedule holds only conflicts and server errors; not-found comes from the store itself. Network behaviour and concurrent writers are not modelled.
- Client.Cluster.Mutation: the client calls outside `client.go` are an oracle `mutate` of the cluster that changes only the object it names. What such a call does to that object is not constrained further.
- Job.JobResource.Apply: after a failed cluster call the store effect says only that objects outside the mutation plan are unchanged. Which of the plan's earlier deletes and adoptions took effect can be read from the call log, but the store effect does not spell it out, because it is stated for whole plans and not for the prefix a failure leaves.
- Job.JobResource.Create: after a failed cluster call the store effect says only that objects outside the mutation plan are unchanged. Which of the plan's earlier deletes and adoptions took effect can be read from the call log, but the store effect does not spell it out, because it is stated for whole plans and not for the prefix a failure leaves.
- Job.JobResource.Update: after a failed cluster call the store effect says only that objects outside the mutation plan are unchanged. Which of the plan's earlier deletes and adoptions took effect can be read from the call log, but the store effect does not spell it out, because it is stated for whole plans and not for the prefix a failure leaves.
- Job.Execute: after a failed cluster call the store effect says only that objects outside the mutation plan are unchanged. Which of the plan's earlier deletes and adoptions took effect can be read from the call log, but the store effect does not spell it out, because it is stated for whole plans and not for the prefix a failure leaves.
- Client.Cluster.ImportIntoHelm: the retry has client-go's five attempts but no backoff delays, since time is not modelled.
- Client.PatchForHelm: the Go code panics on an object with nil annotations. The model returns the error `NilMapWrite` instead of crashing the process.
- Job.FallbackIps: `strings.ToLower` in the separator test is left out, because it does not change whether ':' or '.' occurs.
- ProviderConfig.ConfigPaths: the Windows list separator (';') is not modelled; the Unix ':' is used.
- Logging (`tflog`), the masked debug output, `Metadata`, `Schema`, `ImportState` and the framework's reading and writing of plan and state are not modelled. The framework's diagnostics are the `Response` datatype.
- Job.JobResource.Create, Job.JobResource.Update and Job.JobResource.Apply: the call plan is stated in two phases, the changes and the read-back. `Job.AppliedAsOneRun` proves these are one run of the whole plan.
- The ghost call log records which client function was called on which object, not the individual HTTP requests. The request count is tracked separately as `requests`.
