/**
 * The cluster objects the job touches, the fixed identities and marker keys it
 * uses, and the log of client calls against which the orchestration is specified.
 */
module Kube {
  import opened Wrappers

  datatype Kind = DaemonSet | Deployment | Service | ServiceAccount | ConfigMap | PodDisruptionBudget

  /** Identity of an object in the cluster. */
  datatype Ref = Ref(kind: Kind, namespace: string, name: string)

  type StringMap = map<string, string>

  /** The part of an object the job reads and writes; `None` is a nil Go map. */
  datatype ObjectMeta = ObjectMeta(labels: Option<StringMap>, annotations: Option<StringMap>)

  /** The in-memory cluster: every object by identity. */
  type Store = map<Ref, ObjectMeta>

  /** An API failure, or the runtime panic of a write into a nil map. */
  datatype Error = NotFound | Conflict | ServerError(reason: string) | NilMapWrite

  /**
   * An error the API server may return to any request whatever the store
   * holds; a not-found answer comes from the store, and a nil-map write is
   * not an answer of the server.
   */
  type Fault = e: Error | e.Conflict? || e.ServerError? witness Conflict

  // Marker keys and values (internal/provider/client.go:18-27).
  const ReleaseNameKey: string := "meta.helm.sh/release-name"
  const ReleaseNameValue: string := "coredns"
  const ReleaseNamespaceKey: string := "meta.helm.sh/release-namespace"
  const ReleaseNamespaceValue: string := "kube-system"
  const ManagedByKey: string := "app.kubernetes.io/managed-by"
  const ManagedByValue: string := "Helm"
  const AmazonManagedKey: string := "eks.amazonaws.com/component"

  // The fixed objects the job manages.
  const KubeSystem: string := "kube-system"
  const AwsNode: Ref := Ref(DaemonSet, KubeSystem, "aws-node")
  const KubeProxyDaemonSet: Ref := Ref(DaemonSet, KubeSystem, "kube-proxy")
  const KubeProxyConfigMap: Ref := Ref(ConfigMap, KubeSystem, "kube-proxy")
  const CorednsDeployment: Ref := Ref(Deployment, KubeSystem, "coredns")
  const KubeDnsService: Ref := Ref(Service, KubeSystem, "kube-dns")
  const CorednsServiceAccount: Ref := Ref(ServiceAccount, KubeSystem, "coredns")
  const CorednsConfigMap: Ref := Ref(ConfigMap, KubeSystem, "coredns")
  const CorednsPodDisruptionBudget: Ref := Ref(PodDisruptionBudget, KubeSystem, "coredns")
  /** Read only to infer the DNS service address. */
  const KubernetesService: Ref := Ref(Service, "default", "kubernetes")

  const CorednsObjects: set<Ref> :=
    {CorednsDeployment, KubeDnsService, CorednsServiceAccount, CorednsConfigMap, CorednsPodDisruptionBudget}

  /** The four ownership facts the classifier derives from one object. */
  datatype Markers = Markers(releaseName: bool, releaseNamespace: bool, managedBy: bool, amazonRemoved: bool) {
    predicate AllSet() {
      releaseName && releaseNamespace && managedBy && amazonRemoved
    }
  }

  const NoMarkers: Markers := Markers(false, false, false, false)

  /** The client functions of the job, by what they do to which object. */
  datatype Op = Exist | Delete | ExistsAndIsAwsOne | ImportedIntoHelm | ImportIntoHelm

  datatype Step = Step(op: Op, ref: Ref)

  /** The steps that may change the store. */
  predicate Mutating(s: Step) {
    s.op == Op.Delete || s.op == Op.ImportIntoHelm
  }

  /** One client call as issued, and whether it returned an error. */
  datatype Call = Call(step: Step, failed: bool)

  function Steps(t: seq<Call>): (s: seq<Step>)
    ensures |s| == |t|
    ensures forall i :: 0 <= i < |t| ==> s[i] == t[i].step
  {
    if t == [] then [] else [t[0].step] + Steps(t[1..])
  }

  lemma StepsAppend(a: seq<Call>, b: seq<Call>)
    ensures Steps(a + b) == Steps(a) + Steps(b)
  {
    assert forall i :: 0 <= i < |a + b| ==> Steps(a + b)[i] == (Steps(a) + Steps(b))[i];
  }

  /** No call of the segment failed. */
  predicate Clean(t: seq<Call>) {
    forall i :: 0 <= i < |t| ==> !t[i].failed
  }

  /** The segment ends with its only failed call. */
  predicate StoppedAtFailure(t: seq<Call>) {
    t != [] && t[|t| - 1].failed && Clean(t[..|t| - 1])
  }

  predicate IsPrefix<T(==)>(a: seq<T>, b: seq<T>) {
    |a| <= |b| && a == b[..|a|]
  }

  /**
   * A segment of the log followed `spec`: on success it issued exactly those
   * steps without a failure; otherwise it issued a prefix of them and stopped
   * at its only failed call.
   */
  predicate Followed(t: seq<Call>, spec: seq<Step>, ok: bool) {
    if ok then Clean(t) && Steps(t) == spec else StoppedAtFailure(t) && IsPrefix(Steps(t), spec)
  }

  /**
   * The calls issued in a run of `spec` in which the call at index `stop`
   * fails: the calls before it succeed and nothing after it is issued. With
   * `stop == |spec|` every call succeeds.
   */
  function Issued(spec: seq<Step>, stop: nat): seq<Call>
    requires stop <= |spec|
  {
    OkCalls(spec, stop) + (if stop < |spec| then [Call(spec[stop], true)] else [])
  }

  /** The first `k` steps of `spec`, each successful. */
  function OkCalls(spec: seq<Step>, k: nat): seq<Call>
    requires k <= |spec|
  {
    if k == 0 then [] else OkCalls(spec, k - 1) + [Call(spec[k - 1], false)]
  }

  lemma {:induction false} OkCallsFollow(spec: seq<Step>, k: nat)
    requires k <= |spec|
    ensures Clean(OkCalls(spec, k)) && Steps(OkCalls(spec, k)) == spec[..k]
  {
    if k > 0 {
      OkCallsFollow(spec, k - 1);
      StepsAppend(OkCalls(spec, k - 1), [Call(spec[k - 1], false)]);
      assert spec[..k] == spec[..k - 1] + [spec[k - 1]];
    }
  }

  /** The issued calls follow their plan: in full when nothing failed, up to their only failure otherwise. */
  lemma IssuedFollows(spec: seq<Step>, stop: nat)
    requires stop <= |spec|
    ensures Followed(Issued(spec, stop), spec, stop == |spec|)
  {
    OkCallsFollow(spec, stop);
    var t := Issued(spec, stop);
    if stop < |spec| {
      StepsAppend(OkCalls(spec, stop), [Call(spec[stop], true)]);
      assert t[..|t| - 1] == OkCalls(spec, stop);
      assert Steps(t) == spec[..stop + 1];
    } else {
      assert t == OkCalls(spec, stop);
    }
  }

  /**
   * The call log as the cluster keeps it: a list that grows at its end, so that
   * each call is one `Snoc`.
   */
  datatype Log = Empty | Snoc(init: Log, last: Call)

  /** The log as a sequence of calls, oldest first. */
  function Calls(l: Log): seq<Call> {
    match l
    case Empty => []
    case Snoc(init, last) => Calls(init) + [last]
  }

  /** `log` followed by the first `k` steps of `spec`, each successful. */
  function OkRun(log: Log, spec: seq<Step>, k: nat): Log
    requires k <= |spec|
  {
    if k == 0 then log else Snoc(OkRun(log, spec, k - 1), Call(spec[k - 1], false))
  }

  /** `log` followed by a run of `spec` that stops at `stop`. */
  function Run(log: Log, spec: seq<Step>, stop: nat): Log
    requires stop <= |spec|
  {
    if stop < |spec| then Snoc(OkRun(log, spec, stop), Call(spec[stop], true)) else OkRun(log, spec, stop)
  }

  /** `after` is `before` followed by a run of `spec` stopped at `stop`; `ok` says that nothing failed. */
  predicate Ran(after: Log, before: Log, spec: seq<Step>, stop: nat, ok: bool) {
    stop <= |spec| && (ok <==> stop == |spec|) && after == Run(before, spec, stop)
  }

  /** One more call of a plan at index `k`: a failure ends the run there, a success extends it. */
  lemma RanStep(after: Log, before: Log, spec: seq<Step>, k: nat, failed: bool)
    requires k < |spec| && after == Snoc(OkRun(before, spec, k), Call(spec[k], failed))
    ensures failed ==> Ran(after, before, spec, k, false)
    ensures !failed ==> after == OkRun(before, spec, k + 1)
    ensures !failed && k + 1 == |spec| ==> Ran(after, before, spec, k + 1, true)
  {
  }

  lemma {:induction false} OkRunCalls(log: Log, spec: seq<Step>, k: nat)
    requires k <= |spec|
    ensures Calls(OkRun(log, spec, k)) == Calls(log) + OkCalls(spec, k)
  {
    if k > 0 {
      OkRunCalls(log, spec, k - 1);
    }
  }

  /** What a run adds to the log is exactly the issued calls, so it follows its plan. */
  lemma RunMeaning(log: Log, spec: seq<Step>, stop: nat)
    requires stop <= |spec|
    ensures Calls(Run(log, spec, stop)) == Calls(log) + Issued(spec, stop)
    ensures Followed(Issued(spec, stop), spec, stop == |spec|)
  {
    OkRunCalls(log, spec, stop);
    IssuedFollows(spec, stop);
  }

  lemma {:induction false} OkRunThen(log: Log, a: seq<Step>, b: seq<Step>, k: nat)
    requires k <= |b|
    ensures OkRun(OkRun(log, a, |a|), b, k) == OkRun(log, a + b, |a| + k)
  {
    if k > 0 {
      OkRunThen(log, a, b, k - 1);
      assert (a + b)[|a| + k - 1] == b[k - 1];
    } else {
      OkRunPrefix(log, a, b, |a|);
    }
  }

  lemma {:induction false} OkRunPrefix(log: Log, a: seq<Step>, b: seq<Step>, k: nat)
    requires k <= |a|
    ensures OkRun(log, a, k) == OkRun(log, a + b, k)
  {
    if k > 0 {
      OkRunPrefix(log, a, b, k - 1);
      assert (a + b)[k - 1] == a[k - 1];
    }
  }

  /** A run of `a` in full, then a run of `b`, is a run of `a + b`. */
  lemma RanThen(mid: Log, before: Log, a: seq<Step>, sa: nat, after: Log, b: seq<Step>, sb: nat, ok: bool)
    requires Ran(mid, before, a, sa, true) && Ran(after, mid, b, sb, ok)
    ensures Ran(after, before, a + b, sa + sb, ok)
  {
    OkRunThen(before, a, b, sb);
    if sb < |b| {
      assert (a + b)[|a| + sb] == b[sb];
    }
  }

  /**
   * `after` is `before` followed by a run of `a` that stopped at `sa`, reaching
   * `mid`, and then, only when that run succeeded, by a run of `b` stopped at `sb`.
   */
  predicate RanInPhases(after: Log, mid: Log, before: Log, a: seq<Step>, sa: nat, wasOk: bool, b: seq<Step>, sb: nat, ok: bool) {
    Ran(mid, before, a, sa, wasOk)
    && (wasOk ==> Ran(after, mid, b, sb, ok))
    && (!wasOk ==> after == mid && sb == 0 && !ok)
  }

  /**
   * A phase that runs only while nothing has failed: after a success it extends
   * the run, after a failure it is skipped and the run stays stopped.
   */
  lemma RanPhase(mid: Log, before: Log, a: seq<Step>, sa: nat, wasOk: bool, after: Log, b: seq<Step>, sb: nat, ok: bool)
    requires RanInPhases(after, mid, before, a, sa, wasOk, b, sb, ok)
    ensures Ran(after, before, a + b, sa + sb, ok)
  {
    if wasOk {
      RanThen(mid, before, a, sa, after, b, sb, ok);
    } else {
      RanStopped(after, before, a, sa, b);
    }
  }

  /** A run that stopped inside `a` is also a run of any longer plan. */
  lemma RanStopped(after: Log, before: Log, a: seq<Step>, s: nat, b: seq<Step>)
    requires Ran(after, before, a, s, false)
    ensures Ran(after, before, a + b, s, false)
  {
    OkRunPrefix(before, a, b, s);
    assert (a + b)[s] == a[s];
  }

  // ---------------------------------------------------------------------------
  // What a plan of calls may change in the store.

  /** The object stored under `r`, if any. */
  function At(st: Store, r: Ref): Option<ObjectMeta> {
    if r in st then Some(st[r]) else None
  }

  /** Some step of `plan` deletes or adopts `r`. */
  predicate Touches(plan: seq<Step>, r: Ref) {
    Step(Op.Delete, r) in plan || Step(Op.ImportIntoHelm, r) in plan
  }

  /** `after` holds what `before` held at every object `plan` neither deletes nor adopts. */
  ghost predicate KeptOutside(after: Store, before: Store, plan: seq<Step>) {
    forall r :: !Touches(plan, r) ==> At(after, r) == At(before, r)
  }

  /** No object is deleted or adopted by both plans. */
  ghost predicate Disjoint(a: seq<Step>, b: seq<Step>) {
    forall r :: Touches(a, r) ==> !Touches(b, r)
  }

  /** A store kept outside `a`, then outside `b`, is kept outside `a + b`. */
  lemma KeptOutsideThen(s0: Store, s1: Store, s2: Store, a: seq<Step>, b: seq<Step>)
    requires KeptOutside(s1, s0, a) && KeptOutside(s2, s1, b)
    ensures KeptOutside(s2, s0, a + b)
  {
    forall r | !Touches(a + b, r) ensures At(s2, r) == At(s0, r) {
      assert !Touches(a, r) && !Touches(b, r);
    }
  }
}
