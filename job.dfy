/**
 * The `cleaneks_job` resource: the desired flags, the DNS address fallback,
 * the reconciliation (node add-on removal, then CoreDNS classification and
 * removal or Helm adoption), the re-observation of the cluster and the
 * record stored as the resource state.
 */
module Job {
  import opened Wrappers
  import opened Kube
  import opened Client
  import opened Strings
  import opened ProviderConfig

  /** The resource state (and plan): every attribute of the job. */
  datatype JobModel = JobModel(
    id: Tf<string>,
    removeAwsCni: Tf<bool>,
    removeKubeProxy: Tf<bool>,
    removeCoreDns: Tf<bool>,
    importCorednsToHelm: Tf<bool>,
    awsCniDaemonsetExists: Tf<bool>,
    kubeProxyDaemonsetExists: Tf<bool>,
    kubeProxyConfigMapExists: Tf<bool>,
    awsCoreDnsDeploymentExists: Tf<bool>,
    awsCoreDnsServiceExists: Tf<bool>,
    awsCoreDnsServiceAccountExists: Tf<bool>,
    awsCoreDnsServiceClusterIps: Tf<seq<string>>,
    awsCoreDnsConfigMapExists: Tf<bool>,
    awsCoreDnsPodDisruptionBudgetExists: Tf<bool>,
    corednsDeploymentMarkers: Tf<Markers>,
    corednsServiceMarkers: Tf<Markers>,
    corednsServiceAccountMarkers: Tf<Markers>,
    corednsConfigMapMarkers: Tf<Markers>,
    corednsPodDisruptionBudgetMarkers: Tf<Markers>)

  datatype Flags = Flags(removeAwsCni: bool, removeKubeProxy: bool, removeCoreDns: bool, importCoreDns: bool)

  /** Removal is wanted unless explicitly switched off; adoption only when explicitly switched on. */
  function DesiredFlags(m: JobModel): (f: Flags)
    ensures f.removeAwsCni <==> m.removeAwsCni != Known(false)
    ensures f.removeKubeProxy <==> m.removeKubeProxy != Known(false)
    ensures f.removeCoreDns <==> m.removeCoreDns != Known(false)
    ensures f.importCoreDns <==> m.importCorednsToHelm == Known(true)
  {
    Flags(
      if m.removeAwsCni.IsNullOrUnknown() then true else m.removeAwsCni.value,
      if m.removeKubeProxy.IsNullOrUnknown() then true else m.removeKubeProxy.value,
      if m.removeCoreDns.IsNullOrUnknown() then true else m.removeCoreDns.value,
      if m.importCorednsToHelm.IsNullOrUnknown() then false else m.importCorednsToHelm.value)
  }

  // ---------------------------------------------------------------------------
  // The DNS service address fallback.

  /**
   * The guess at the DNS address from the API server's address: an address with
   * a ':' gets its last ':'-piece replaced by "a", then an address with a '.'
   * gets its last '.'-piece replaced by "10".
   */
  function DeriveDnsIp(s: string): string {
    var v6 := if ':' in s then ReplaceLastSegment(s, ':', "a") else s;
    if '.' in v6 then ReplaceLastSegment(v6, '.', "10") else v6
  }

  /** An IPv4 address keeps its first three octets and ends in ".10". */
  lemma DeriveDnsIpV4(s: string)
    requires ':' !in s && '.' in s
    ensures DeriveDnsIp(s) == s[..LastIndex(s, '.') + 1] + "10"
  {
    ReplaceLastSegmentKeepsPrefix(s, '.', "10");
  }

  /** An IPv6 address keeps everything up to its last ':' and ends in ":a". */
  lemma DeriveDnsIpV6(s: string)
    requires ':' in s && '.' !in s
    ensures DeriveDnsIp(s) == s[..LastIndex(s, ':') + 1] + "a"
  {
    ReplaceLastSegmentKeepsPrefix(s, ':', "a");
    var r := s[..LastIndex(s, ':') + 1] + "a";
    assert '.' !in r by {
      forall k | 0 <= k < |r| ensures r[k] != '.' {
        if k < LastIndex(s, ':') + 1 {
          assert r[k] == s[k];
        }
      }
    }
  }

  /**
   * The rewrite of the address list read from the `kubernetes` service: a
   * first address holding ':' or '.' becomes the single derived address; any
   * other list, the empty one included, is kept as it is.
   */
  function FallbackIps(ips: seq<string>): (r: seq<string>)
    ensures |ips| > 0 && (':' in ips[0] || '.' in ips[0]) ==> r == [DeriveDnsIp(ips[0])]
    ensures |ips| == 0 || (':' !in ips[0] && '.' !in ips[0]) ==> r == ips
  {
    var afterColon := if |ips| > 0 && ':' in ips[0] then [ReplaceLastSegment(ips[0], ':', "a")] else ips;
    if |afterColon| > 0 && '.' in afterColon[0] then [ReplaceLastSegment(afterColon[0], '.', "10")] else afterColon
  }

  /** A list whose first address has neither separator passes through whole, so it can hold several addresses. */
  lemma FallbackKeepsSeveral()
    ensures |FallbackIps(["kube", "dns"])| == 2
  {
    assert ':' !in "kube" && '.' !in "kube";
  }

  /** The fallback runs only when kube-dns gave no address and the state holds no list. */
  predicate NeedsFallback(plan: JobModel, dnsIps: seq<string>) {
    |dnsIps| < 1 && plan.awsCoreDnsServiceClusterIps.IsNullOrUnknown()
  }

  function ResolvedIps(plan: JobModel, dnsIps: seq<string>, kubeIps: seq<string>): seq<string> {
    if NeedsFallback(plan, dnsIps) then FallbackIps(kubeIps) else dnsIps
  }

  // ---------------------------------------------------------------------------
  // The plan of client calls.

  /** What the four CoreDNS ownership checks and the kube-dns check returned. */
  datatype AwsChecks = AwsChecks(deployment: bool, service: bool, serviceAccount: bool, configMap: bool, podDisruptionBudget: bool)

  function Gate(b: bool, s: Step): seq<Step> {
    if b then [s] else []
  }

  const DnsCheck: Step := Step(Op.ExistsAndIsAwsOne, KubeDnsService)

  function FallbackSteps(fallback: bool): seq<Step> {
    Gate(fallback, Step(Op.ExistsAndIsAwsOne, KubernetesService))
  }

  function NodeSteps(f: Flags): seq<Step> {
    Gate(f.removeAwsCni, Step(Op.Delete, AwsNode))
    + (if f.removeKubeProxy then [Step(Op.Delete, KubeProxyDaemonSet), Step(Op.Delete, KubeProxyConfigMap)] else [])
  }

  const CoreDnsChecks: seq<Step> := [
    Step(Op.ExistsAndIsAwsOne, CorednsDeployment),
    Step(Op.ExistsAndIsAwsOne, CorednsServiceAccount),
    Step(Op.ExistsAndIsAwsOne, CorednsConfigMap),
    Step(Op.ExistsAndIsAwsOne, CorednsPodDisruptionBudget)]

  function CoreDnsOps(op: Op, c: AwsChecks): seq<Step> {
    Gate(c.deployment, Step(op, CorednsDeployment))
    + Gate(c.service, Step(op, KubeDnsService))
    + Gate(c.serviceAccount, Step(op, CorednsServiceAccount))
    + Gate(c.configMap, Step(op, CorednsConfigMap))
    + Gate(c.podDisruptionBudget, Step(op, CorednsPodDisruptionBudget))
  }

  function CoreDnsSteps(f: Flags, c: AwsChecks): seq<Step> {
    if f.removeCoreDns || f.importCoreDns then
      CoreDnsChecks + (if f.removeCoreDns then CoreDnsOps(Op.Delete, c) else CoreDnsOps(Op.ImportIntoHelm, c))
    else []
  }

  /** The mutation block of Create and Update. */
  function MutationSteps(f: Flags, c: AwsChecks): seq<Step> {
    NodeSteps(f) + CoreDnsSteps(f, c)
  }

  /** The node add-on probes of the read-back. */
  const NodeProbeSteps: seq<Step> := [
    Step(Op.Exist, AwsNode),
    Step(Op.Exist, KubeProxyDaemonSet),
    Step(Op.Exist, KubeProxyConfigMap)]

  /** The CoreDNS checks of the read-back; the PodDisruptionBudget comes later. */
  const CoreDnsProbeSteps: seq<Step> := [
    Step(Op.ExistsAndIsAwsOne, CorednsDeployment),
    Step(Op.ExistsAndIsAwsOne, KubeDnsService),
    Step(Op.ExistsAndIsAwsOne, CorednsServiceAccount),
    Step(Op.ExistsAndIsAwsOne, CorednsConfigMap)]

  const PresenceSteps: seq<Step> := NodeProbeSteps + CoreDnsProbeSteps

  const PdbSteps: seq<Step> := [Step(Op.ExistsAndIsAwsOne, CorednsPodDisruptionBudget)]

  /** The marker reads; the ConfigMap is read a second time where the PodDisruptionBudget belongs. */
  const MarkerSteps: seq<Step> := [
    Step(Op.ImportedIntoHelm, CorednsDeployment),
    Step(Op.ImportedIntoHelm, KubeDnsService),
    Step(Op.ImportedIntoHelm, CorednsServiceAccount),
    Step(Op.ImportedIntoHelm, CorednsConfigMap),
    Step(Op.ImportedIntoHelm, CorednsConfigMap)]

  const DnsSteps: seq<Step> := [DnsCheck]

  /** The kube-dns check, then the address fallback. */
  function LocateSteps(fallback: bool): seq<Step> {
    DnsSteps + FallbackSteps(fallback)
  }

  /** The calls of a Create or Update before the read-back: the kube-dns check, the address fallback, the mutations. */
  function ChangeSteps(f: Flags, fallback: bool, c: AwsChecks): seq<Step> {
    LocateSteps(fallback) + MutationSteps(f, c)
  }

  /** The end of every run: the PodDisruptionBudget check, then the marker reads. */
  const HelmSteps: seq<Step> := PdbSteps + MarkerSteps

  /** The read-back of a Create or Update. */
  const ObserveSteps: seq<Step> := PresenceSteps + HelmSteps

  /** Every client call of a Create or Update, in order. */
  function ApplySteps(f: Flags, fallback: bool, c: AwsChecks): seq<Step> {
    ChangeSteps(f, fallback, c) + ObserveSteps
  }

  /** A Create or Update, read as one run of its whole plan: the changes, then the read-back. */
  lemma AppliedAsOneRun(after: Log, mid: Log, before: Log, f: Flags, fallback: bool, c: AwsChecks,
                        stop: nat, changed: bool, so: nat, ok: bool)
    requires RanInPhases(after, mid, before, ChangeSteps(f, fallback, c), stop, changed, ObserveSteps, so, ok)
    ensures Ran(after, before, ApplySteps(f, fallback, c), stop + so, ok)
  {
    RanPhase(mid, before, ChangeSteps(f, fallback, c), stop, changed, after, ObserveSteps, so, ok);
  }

  /** Every client call of a Read, in order. */
  function ReadSteps(fallback: bool): seq<Step> {
    PresenceSteps + FallbackSteps(fallback) + HelmSteps
  }

  function Checked(c: AwsChecks, r: Ref): bool {
    if r == CorednsDeployment then c.deployment
    else if r == KubeDnsService then c.service
    else if r == CorednsServiceAccount then c.serviceAccount
    else if r == CorednsConfigMap then c.configMap
    else c.podDisruptionBudget
  }

  lemma InCoreDnsOps(op: Op, c: AwsChecks, x: Step)
    ensures x in CoreDnsOps(op, c) <==> x.op == op && x.ref in CorednsObjects && Checked(c, x.ref)
  {
    assert CoreDnsOps(op, c) == Gate(c.deployment, Step(op, CorednsDeployment))
      + Gate(c.service, Step(op, KubeDnsService))
      + Gate(c.serviceAccount, Step(op, CorednsServiceAccount))
      + Gate(c.configMap, Step(op, CorednsConfigMap))
      + Gate(c.podDisruptionBudget, Step(op, CorednsPodDisruptionBudget));
  }

  /**
   * aws-node is deleted exactly when its removal is wanted, and the kube-proxy
   * DaemonSet and ConfigMap exactly when kube-proxy's removal is wanted.
   */
  lemma NodeDeletesFollowFlags(f: Flags, c: AwsChecks)
    ensures Step(Op.Delete, AwsNode) in MutationSteps(f, c) <==> f.removeAwsCni
    ensures Step(Op.Delete, KubeProxyDaemonSet) in MutationSteps(f, c) <==> f.removeKubeProxy
    ensures Step(Op.Delete, KubeProxyConfigMap) in MutationSteps(f, c) <==> f.removeKubeProxy
  {
    NodeStepsOnly(f, c, Step(Op.Delete, AwsNode));
    NodeStepsOnly(f, c, Step(Op.Delete, KubeProxyDaemonSet));
    NodeStepsOnly(f, c, Step(Op.Delete, KubeProxyConfigMap));
  }

  /** Outside the CoreDNS objects, the mutation block is the node add-on block. */
  lemma NodeStepsOnly(f: Flags, c: AwsChecks, x: Step)
    requires x.ref !in CorednsObjects
    ensures x in MutationSteps(f, c) <==> x in NodeSteps(f)
  {
    assert MutationSteps(f, c) == NodeSteps(f) + CoreDnsSteps(f, c);
    CoreDnsStepsRefs(f, c, x);
  }

  /** The kube-proxy ConfigMap is deleted right after its DaemonSet. */
  lemma KubeProxyDeletesAdjacent(f: Flags, c: AwsChecks)
    requires f.removeKubeProxy
    ensures exists i ::
      (0 <= i < |MutationSteps(f, c)| - 1
       && MutationSteps(f, c)[i] == Step(Op.Delete, KubeProxyDaemonSet)
       && MutationSteps(f, c)[i + 1] == Step(Op.Delete, KubeProxyConfigMap))
  {
    var s := MutationSteps(f, c);
    var i := |Gate(f.removeAwsCni, Step(Op.Delete, AwsNode))|;
    assert s[i] == Step(Op.Delete, KubeProxyDaemonSet);
    assert s[i + 1] == Step(Op.Delete, KubeProxyConfigMap);
  }

  /** The CoreDNS block touches only CoreDNS objects. */
  lemma CoreDnsStepsRefs(f: Flags, c: AwsChecks, x: Step)
    ensures x in CoreDnsSteps(f, c) ==> x.ref in CorednsObjects
  {
    InCoreDnsSteps(f, c, x);
    InCoreDnsOps(if f.removeCoreDns then Op.Delete else Op.ImportIntoHelm, c, x);
  }

  /** The only objects ever deleted are the node add-ons and the CoreDNS objects. */
  lemma OnlyManagedObjectsDeleted(f: Flags, c: AwsChecks, x: Step)
    requires x in MutationSteps(f, c) && x.op == Op.Delete
    ensures x.ref in {AwsNode, KubeProxyDaemonSet, KubeProxyConfigMap} + CorednsObjects
  {
    if x in CoreDnsSteps(f, c) && x !in CoreDnsChecks {
      InCoreDnsOps(Op.Delete, c, x);
      InCoreDnsOps(Op.ImportIntoHelm, c, x);
    }
  }

  /** Node add-on steps are deletes of non-CoreDNS objects. */
  lemma NodeStepsShape(f: Flags)
    ensures forall k :: 0 <= k < |NodeSteps(f)| ==>
      NodeSteps(f)[k].op == Op.Delete && NodeSteps(f)[k].ref !in CorednsObjects
  {
  }

  /** In the CoreDNS block exactly the first four steps are checks. */
  lemma {:induction false} CoreDnsStepsShape(f: Flags, c: AwsChecks)
    ensures forall k :: 0 <= k < |CoreDnsSteps(f, c)| ==>
      (k < |CoreDnsChecks| <==> CoreDnsSteps(f, c)[k].op == Op.ExistsAndIsAwsOne)
  {
    var core := CoreDnsSteps(f, c);
    var op := if f.removeCoreDns then Op.Delete else Op.ImportIntoHelm;
    forall k | 0 <= k < |core|
      ensures k < |CoreDnsChecks| <==> core[k].op == Op.ExistsAndIsAwsOne
    {
      if k >= |CoreDnsChecks| {
        var ops := CoreDnsOps(op, c);
        assert core == CoreDnsChecks + ops;
        assert core[k] == ops[k - |CoreDnsChecks|];
        InCoreDnsOps(op, c, core[k]);
      }
    }
  }

  /** Membership in the CoreDNS block: a check, or an operation of the chosen kind. */
  lemma InCoreDnsSteps(f: Flags, c: AwsChecks, x: Step)
    ensures x in CoreDnsSteps(f, c) <==>
      (f.removeCoreDns || f.importCoreDns)
      && (x in CoreDnsChecks || x in CoreDnsOps(if f.removeCoreDns then Op.Delete else Op.ImportIntoHelm, c))
  {
  }

  /**
   * A CoreDNS object is deleted exactly when removal is wanted and its check
   * said it is the vendor's; it is adopted exactly when adoption is wanted,
   * removal is not, and its check said so. Removal wins over adoption.
   */
  lemma CoreDnsActionsFollowChecks(f: Flags, c: AwsChecks, r: Ref)
    requires r in CorednsObjects
    ensures Step(Op.Delete, r) in MutationSteps(f, c) <==> f.removeCoreDns && Checked(c, r)
    ensures Step(Op.ImportIntoHelm, r) in MutationSteps(f, c) <==> !f.removeCoreDns && f.importCoreDns && Checked(c, r)
  {
    var del, adopt := Step(Op.Delete, r), Step(Op.ImportIntoHelm, r);
    assert MutationSteps(f, c) == NodeSteps(f) + CoreDnsSteps(f, c);
    assert del !in NodeSteps(f) && adopt !in NodeSteps(f);
    assert del !in CoreDnsChecks && adopt !in CoreDnsChecks;
    InCoreDnsSteps(f, c, del);
    InCoreDnsSteps(f, c, adopt);
    InCoreDnsOps(Op.Delete, c, del);
    InCoreDnsOps(Op.ImportIntoHelm, c, adopt);
    InCoreDnsOps(Op.Delete, c, adopt);
    InCoreDnsOps(Op.ImportIntoHelm, c, del);
  }

  /** When removal is wanted nothing is adopted, whatever the adoption flag says. */
  lemma RemovalExcludesAdoption(f: Flags, c: AwsChecks, x: Step)
    requires f.removeCoreDns && x in MutationSteps(f, c)
    ensures x.op != Op.ImportIntoHelm
  {
    if x in CoreDnsSteps(f, c) && x !in CoreDnsChecks {
      InCoreDnsOps(Op.Delete, c, x);
    }
  }

  /** Every CoreDNS ownership check comes before the first CoreDNS delete or adoption. */
  lemma ChecksPrecedeCoreDnsMutations(f: Flags, c: AwsChecks, i: int, j: int)
    requires 0 <= i < |MutationSteps(f, c)| && 0 <= j < |MutationSteps(f, c)|
    requires MutationSteps(f, c)[i].op == Op.ExistsAndIsAwsOne
    requires MutationSteps(f, c)[j].ref in CorednsObjects
    requires MutationSteps(f, c)[j].op == Op.Delete || MutationSteps(f, c)[j].op == Op.ImportIntoHelm
    ensures i < j
  {
    var s, node, core := MutationSteps(f, c), NodeSteps(f), CoreDnsSteps(f, c);
    assert s == node + core;
    NodeStepsShape(f);
    CoreDnsStepsShape(f, c);
  }

  /** A Read issues no delete and no adoption. */
  lemma ReadOnlyObserves(fallback: bool, x: Step)
    requires x in ReadSteps(fallback)
    ensures x.op != Op.Delete && x.op != Op.ImportIntoHelm
  {
  }

  /** The marker reads never look at the PodDisruptionBudget; the ConfigMap is read twice instead. */
  lemma MarkersNeverReadPdb()
    ensures Step(Op.ImportedIntoHelm, CorednsPodDisruptionBudget) !in MarkerSteps
    ensures MarkerSteps[3] == MarkerSteps[4] == Step(Op.ImportedIntoHelm, CorednsConfigMap)
  {
  }

  // ---------------------------------------------------------------------------
  // Observation and the stored record.

  datatype Presence = Presence(awsCni: bool, kubeProxyDaemonSet: bool, kubeProxyConfigMap: bool,
                               deployment: bool, service: bool, serviceAccount: bool, configMap: bool)

  datatype HelmMarkers = HelmMarkers(deployment: Markers, service: Markers, serviceAccount: Markers,
                                     configMap: Markers, podDisruptionBudget: Markers)

  datatype Observation = Observation(presence: Presence, podDisruptionBudget: bool, markers: HelmMarkers)

  /** What the presence calls report for the cluster as it stands. */
  function PresenceIn(cluster: Cluster): Presence
    reads cluster
  {
    var st := cluster.store;
    Presence(AwsNode in st, KubeProxyDaemonSet in st, cluster.listed(KubeProxyConfigMap, st),
      cluster.awsOwned(CorednsDeployment, st), cluster.awsOwned(KubeDnsService, st),
      cluster.awsOwned(CorednsServiceAccount, st), cluster.awsOwned(CorednsConfigMap, st))
  }

  /** What the marker calls report; the PodDisruptionBudget slot gets the ConfigMap's markers. */
  function MarkersIn(cluster: Cluster): HelmMarkers
    reads cluster
    requires CorednsDeployment in cluster.store && KubeDnsService in cluster.store
  {
    var st := cluster.store;
    HelmMarkers(Classify(st[CorednsDeployment]), Classify(st[KubeDnsService]),
      cluster.markersOf(CorednsServiceAccount, st), cluster.markersOf(CorednsConfigMap, st),
      cluster.markersOf(CorednsConfigMap, st))
  }

  function ObservedIn(cluster: Cluster): Observation
    reads cluster
    requires CorednsDeployment in cluster.store && KubeDnsService in cluster.store
  {
    Observation(PresenceIn(cluster), cluster.awsOwned(CorednsPodDisruptionBudget, cluster.store), MarkersIn(cluster))
  }

  predicate AllCoreDnsPresent(o: Observation) {
    o.presence.deployment && o.presence.service && o.presence.serviceAccount && o.presence.configMap && o.podDisruptionBudget
  }

  predicate AllAdopted(h: HelmMarkers) {
    h.deployment.AllSet() && h.service.AllSet() && h.serviceAccount.AllSet() && h.configMap.AllSet()
    && h.podDisruptionBudget.AllSet()
  }

  // The recorded values, one function per attribute that is computed rather
  // than copied.

  /** `remove_aws_cni` as recorded: Create keeps it on while aws-node is gone; the others also need it wanted. */
  predicate CniRemovalKept(creating: bool, f: Flags, p: Presence) {
    if creating then !p.awsCni else f.removeAwsCni && !p.awsCni
  }

  /** `aws_cni_daemonset_exists` as recorded: Create reports it only when removal was wanted. */
  predicate CniReported(creating: bool, f: Flags, p: Presence) {
    if creating then f.removeAwsCni && p.awsCni else p.awsCni
  }

  predicate KubeProxyRemovalKept(f: Flags, p: Presence) {
    f.removeKubeProxy && !(p.kubeProxyDaemonSet && p.kubeProxyConfigMap)
  }

  predicate CoreDnsRemovalKept(f: Flags, o: Observation) {
    f.removeCoreDns && !AllCoreDnsPresent(o)
  }

  predicate AdoptionKept(f: Flags, h: HelmMarkers) {
    f.importCoreDns && AllAdopted(h)
  }

  /** The DNS addresses as recorded: those found, else the state's list, else an empty list. */
  function RecordedIps(plan: JobModel, ips: seq<string>): (r: Tf<seq<string>>)
    ensures |ips| > 0 ==> r == Known(ips)
    ensures |ips| == 0 && plan.awsCoreDnsServiceClusterIps.IsNullOrUnknown() ==> r == Known([])
    ensures |ips| == 0 && plan.awsCoreDnsServiceClusterIps.Known? ==> r == plan.awsCoreDnsServiceClusterIps
  {
    if |ips| > 0 then Known(ips)
    else if plan.awsCoreDnsServiceClusterIps.IsNullOrUnknown() then Known([])
    else plan.awsCoreDnsServiceClusterIps
  }

  /**
   * The state written after a run. Each flag reads back as the desired value
   * exactly when there is no drift to report: for kube-proxy when not both its
   * objects remain, for CoreDNS when not all five remain, for adoption when
   * all twenty markers are set. Create and the other operations differ on the
   * CNI pair.
   */
  function Record(creating: bool, f: Flags, plan: JobModel, o: Observation, ips: seq<string>, host: string): (m: JobModel)
    ensures m.id == Known(host)
    ensures creating ==> m.awsCniDaemonsetExists == Known(f.removeAwsCni && o.presence.awsCni)
    ensures !creating ==> m.awsCniDaemonsetExists == Known(o.presence.awsCni)
    ensures creating ==> (m.removeAwsCni == Known(f.removeAwsCni) <==> f.removeAwsCni != o.presence.awsCni)
    ensures !creating ==> (m.removeAwsCni == Known(f.removeAwsCni) <==> !(f.removeAwsCni && o.presence.awsCni))
    ensures m.removeKubeProxy == Known(f.removeKubeProxy) <==>
      !(f.removeKubeProxy && o.presence.kubeProxyDaemonSet && o.presence.kubeProxyConfigMap)
    ensures m.removeCoreDns == Known(f.removeCoreDns) <==> !(f.removeCoreDns && AllCoreDnsPresent(o))
    ensures m.importCorednsToHelm == Known(f.importCoreDns) <==> (!f.importCoreDns || AllAdopted(o.markers))
    ensures m.removeAwsCni.Known? && m.removeKubeProxy.Known? && m.removeCoreDns.Known? && m.importCorednsToHelm.Known?
    ensures m.awsCoreDnsServiceClusterIps == RecordedIps(plan, ips)
    ensures m.kubeProxyDaemonsetExists == Known(o.presence.kubeProxyDaemonSet)
    ensures m.kubeProxyConfigMapExists == Known(o.presence.kubeProxyConfigMap)
    ensures m.awsCoreDnsDeploymentExists == Known(o.presence.deployment)
    ensures m.awsCoreDnsServiceExists == Known(o.presence.service)
    ensures m.awsCoreDnsServiceAccountExists == Known(o.presence.serviceAccount)
    ensures m.awsCoreDnsConfigMapExists == Known(o.presence.configMap)
    ensures m.awsCoreDnsPodDisruptionBudgetExists == Known(o.podDisruptionBudget)
    ensures m.corednsDeploymentMarkers == Known(o.markers.deployment)
    ensures m.corednsServiceMarkers == Known(o.markers.service)
    ensures m.corednsServiceAccountMarkers == Known(o.markers.serviceAccount)
    ensures m.corednsConfigMapMarkers == Known(o.markers.configMap)
    ensures m.corednsPodDisruptionBudgetMarkers == Known(o.markers.podDisruptionBudget)
  {
    var p := o.presence;
    JobModel(
      id := Known(host),
      removeAwsCni := Known(CniRemovalKept(creating, f, p)),
      removeKubeProxy := Known(KubeProxyRemovalKept(f, p)),
      removeCoreDns := Known(CoreDnsRemovalKept(f, o)),
      importCorednsToHelm := Known(AdoptionKept(f, o.markers)),
      awsCniDaemonsetExists := Known(CniReported(creating, f, p)),
      kubeProxyDaemonsetExists := Known(p.kubeProxyDaemonSet),
      kubeProxyConfigMapExists := Known(p.kubeProxyConfigMap),
      awsCoreDnsDeploymentExists := Known(p.deployment),
      awsCoreDnsServiceExists := Known(p.service),
      awsCoreDnsServiceAccountExists := Known(p.serviceAccount),
      awsCoreDnsServiceClusterIps := RecordedIps(plan, ips),
      awsCoreDnsConfigMapExists := Known(p.configMap),
      awsCoreDnsPodDisruptionBudgetExists := Known(o.podDisruptionBudget),
      corednsDeploymentMarkers := Known(o.markers.deployment),
      corednsServiceMarkers := Known(o.markers.service),
      corednsServiceAccountMarkers := Known(o.markers.serviceAccount),
      corednsConfigMapMarkers := Known(o.markers.configMap),
      corednsPodDisruptionBudgetMarkers := Known(o.markers.podDisruptionBudget))
  }

  /**
   * The provider configuration as a run leaves it: an unknown host takes the
   * job's id when that is known, and an unknown `insecure` becomes true when the
   * client certificate is unknown too. Nothing else changes.
   */
  function PatchModel(m: ProviderModel, id: Tf<string>): (r: ProviderModel)
    ensures r == m.(host := r.host, insecure := r.insecure)
    ensures m.host.Unknown? && id.Known? ==> r.host == id
    ensures !(m.host.Unknown? && id.Known?) ==> r.host == m.host
    ensures m.clientCertificate.Unknown? && m.insecure.Unknown? ==> r.insecure == Known(true)
    ensures !(m.clientCertificate.Unknown? && m.insecure.Unknown?) ==> r.insecure == m.insecure
  {
    var withHost := if m.host.Unknown? && !id.IsNullOrUnknown() then m.(host := id) else m;
    if withHost.clientCertificate.Unknown? && withHost.insecure.Unknown? then withHost.(insecure := Known(true))
    else withHost
  }

  // ---------------------------------------------------------------------------
  // What the mutation block does to the store. A plan of calls leaves every
  // object it neither deletes nor adopts as it was; when every call succeeds,
  // each object it deletes or adopts ends as `Achieved` says.

  /**
   * What a successful delete or adoption leaves at its object, given what was
   * there: a deleted DaemonSet, Deployment or Service is gone; an adopted
   * Deployment or Service existed with annotations and now holds the adopted
   * metadata; any other object is what the cluster's `mutate` makes of it.
   */
  predicate Achieved(cluster: Cluster, step: Step, x: Option<ObjectMeta>, y: Option<ObjectMeta>) {
    if step.op == Op.Delete && step.ref.kind in {DaemonSet, Deployment, Service} then y.None?
    else if step.op == Op.ImportIntoHelm && step.ref.kind in {Deployment, Service} then
      x.Some? && x.value.annotations.Some? && y == Some(AdoptedMeta(x.value))
    else y == cluster.mutate(step, x)
  }

  ghost predicate AllAchieved(cluster: Cluster, plan: seq<Step>, before: Store, after: Store) {
    forall x :: x in plan && Mutating(x) ==> Achieved(cluster, x, At(before, x.ref), At(after, x.ref))
  }

  /** `plan`, run from `before` to `after`, changed nothing else and, if `ok`, did all it set out to do. */
  ghost predicate Effected(cluster: Cluster, plan: seq<Step>, before: Store, after: Store, ok: bool) {
    KeptOutside(after, before, plan) && (ok ==> AllAchieved(cluster, plan, before, after))
  }

  /** One delete or adoption, described object by object, as a plan of one step. */
  lemma EffectedOne(cluster: Cluster, step: Step, before: Store, after: Store, ok: bool)
    requires Mutating(step)
    requires ok ==> Achieved(cluster, step, At(before, step.ref), At(after, step.ref))
    requires forall r :: r != step.ref ==> At(after, r) == At(before, r)
    ensures Effected(cluster, [step], before, after, ok)
  {
    assert step == Step(step.op, step.ref);
    assert Touches([step], step.ref);
  }

  /** Two plans over different objects, the second run after the first succeeded, as one plan. */
  lemma EffectedThen(cluster: Cluster, a: seq<Step>, b: seq<Step>, s0: Store, s1: Store, s2: Store, ok: bool)
    requires Effected(cluster, a, s0, s1, true) && Effected(cluster, b, s1, s2, ok)
    requires Disjoint(a, b)
    ensures Effected(cluster, a + b, s0, s2, ok)
  {
    KeptOutsideThen(s0, s1, s2, a, b);
    if ok {
      forall x | x in a + b && Mutating(x)
        ensures Achieved(cluster, x, At(s0, x.ref), At(s2, x.ref))
      {
        assert x == Step(x.op, x.ref);
        if x in a {
          assert Touches(a, x.ref);
        } else {
          assert Touches(b, x.ref);
        }
      }
    }
  }

  /** A plan that failed part-way is a failed run of any longer plan. */
  lemma EffectedStopped(cluster: Cluster, a: seq<Step>, b: seq<Step>, s0: Store, s1: Store)
    requires Effected(cluster, a, s0, s1, false)
    ensures Effected(cluster, a + b, s0, s1, false)
  {
    forall r | !Touches(a + b, r) ensures At(s1, r) == At(s0, r) {
      assert !Touches(a, r);
    }
  }

  /** Calls that only read may precede a plan without changing what it does. */
  lemma EffectedAfterReads(cluster: Cluster, a: seq<Step>, b: seq<Step>, s0: Store, s1: Store, ok: bool)
    requires forall x :: x in a ==> !Mutating(x)
    requires Effected(cluster, b, s0, s1, ok)
    ensures Effected(cluster, a + b, s0, s1, ok)
  {
    forall r | !Touches(a + b, r) ensures At(s1, r) == At(s0, r) {
      assert !Touches(b, r);
    }
    if ok {
      forall x | x in a + b && Mutating(x)
        ensures Achieved(cluster, x, At(s0, x.ref), At(s1, x.ref))
      {
        assert x in b;
      }
    }
  }

  /**
   * The objects the mutation block may change: aws-node when its removal is
   * wanted, the kube-proxy pair when kube-proxy's removal is wanted, and a
   * CoreDNS object when removal or adoption is wanted and its check reported
   * it as the vendor's. Nothing else.
   */
  lemma TouchedObjects(f: Flags, c: AwsChecks, r: Ref)
    ensures Touches(MutationSteps(f, c), r) <==>
      (r == AwsNode && f.removeAwsCni)
      || ((r == KubeProxyDaemonSet || r == KubeProxyConfigMap) && f.removeKubeProxy)
      || (r in CorednsObjects && (f.removeCoreDns || f.importCoreDns) && Checked(c, r))
  {
    if r in CorednsObjects {
      CoreDnsActionsFollowChecks(f, c, r);
    } else {
      NodeStepsOnly(f, c, Step(Op.Delete, r));
      NodeStepsOnly(f, c, Step(Op.ImportIntoHelm, r));
    }
  }

  /** The node add-on block and the CoreDNS block never touch the same object. */
  lemma NodeAndCoreDnsDisjoint(f: Flags, c: AwsChecks)
    ensures Disjoint(NodeSteps(f), CoreDnsSteps(f, c))
  {
    forall r | Touches(NodeSteps(f), r) ensures !Touches(CoreDnsSteps(f, c), r) {
      assert r == AwsNode || r == KubeProxyDaemonSet || r == KubeProxyConfigMap;
      assert r !in CorednsObjects;
      CoreDnsStepsRefs(f, c, Step(Op.Delete, r));
      CoreDnsStepsRefs(f, c, Step(Op.ImportIntoHelm, r));
    }
  }

  /** The ownership checks, then the deletes or adoptions they select, as the CoreDNS block. */
  lemma CoreDnsBlockThen(cluster: Cluster, f: Flags, c: AwsChecks, before: Log, mid: Log, after: Log, sc: nat, sm: nat, ok: bool,
                         s0: Store, s1: Store)
    requires f.removeCoreDns || f.importCoreDns
    requires Ran(mid, before, CoreDnsChecks, sc, true)
    requires var op := if f.removeCoreDns then Op.Delete else Op.ImportIntoHelm;
      Ran(after, mid, CoreDnsOps(op, c), sm, ok) && Effected(cluster, CoreDnsOps(op, c), s0, s1, ok)
    ensures Ran(after, before, CoreDnsSteps(f, c), sc + sm, ok) && Effected(cluster, CoreDnsSteps(f, c), s0, s1, ok)
  {
    var op := if f.removeCoreDns then Op.Delete else Op.ImportIntoHelm;
    RanThen(mid, before, CoreDnsChecks, sc, after, CoreDnsOps(op, c), sm, ok);
    EffectedAfterReads(cluster, CoreDnsChecks, CoreDnsOps(op, c), s0, s1, ok);
  }

  /** A failed ownership check stops the CoreDNS block before any change. */
  lemma CoreDnsBlockStopped(cluster: Cluster, f: Flags, c: AwsChecks, before: Log, after: Log, sc: nat, s0: Store)
    requires f.removeCoreDns || f.importCoreDns
    requires Ran(after, before, CoreDnsChecks, sc, false)
    ensures Ran(after, before, CoreDnsSteps(f, c), sc, false) && Effected(cluster, CoreDnsSteps(f, c), s0, s0, false)
  {
    RanStopped(after, before, CoreDnsChecks, sc, CoreDnsOps(if f.removeCoreDns then Op.Delete else Op.ImportIntoHelm, c));
  }

  /** The node add-on block, then (after it succeeded) the CoreDNS block, as the mutation block. */
  lemma MutationBlockThen(cluster: Cluster, f: Flags, c: AwsChecks, before: Log, mid: Log, after: Log, sn: nat, sc: nat, ok: bool,
                          s0: Store, s1: Store, s2: Store)
    requires Ran(mid, before, NodeSteps(f), sn, true) && Effected(cluster, NodeSteps(f), s0, s1, true)
    requires Ran(after, mid, CoreDnsSteps(f, c), sc, ok) && Effected(cluster, CoreDnsSteps(f, c), s1, s2, ok)
    ensures Ran(after, before, MutationSteps(f, c), sn + sc, ok) && Effected(cluster, MutationSteps(f, c), s0, s2, ok)
  {
    RanThen(mid, before, NodeSteps(f), sn, after, CoreDnsSteps(f, c), sc, ok);
    NodeAndCoreDnsDisjoint(f, c);
    EffectedThen(cluster, NodeSteps(f), CoreDnsSteps(f, c), s0, s1, s2, ok);
  }

  /** A failure among the node add-ons stops the mutation block there. */
  lemma MutationBlockStopped(cluster: Cluster, f: Flags, c: AwsChecks, before: Log, after: Log, sn: nat, s0: Store, s1: Store)
    requires Ran(after, before, NodeSteps(f), sn, false) && Effected(cluster, NodeSteps(f), s0, s1, false)
    ensures Ran(after, before, MutationSteps(f, c), sn, false) && Effected(cluster, MutationSteps(f, c), s0, s1, false)
  {
    RanStopped(after, before, NodeSteps(f), sn, CoreDnsSteps(f, c));
    EffectedStopped(cluster, NodeSteps(f), CoreDnsSteps(f, c), s0, s1);
  }

  /** Whatever the outcome, an object the mutation block has no business with is left as it was. */
  lemma LeftAlone(cluster: Cluster, f: Flags, c: AwsChecks, before: Store, after: Store, ok: bool, r: Ref)
    requires Effected(cluster, MutationSteps(f, c), before, after, ok)
    requires !(r == AwsNode && f.removeAwsCni)
    requires !((r == KubeProxyDaemonSet || r == KubeProxyConfigMap) && f.removeKubeProxy)
    requires !(r in CorednsObjects && (f.removeCoreDns || f.importCoreDns) && Checked(c, r))
    ensures At(after, r) == At(before, r)
  {
    TouchedObjects(f, c, r);
  }

  /**
   * After a mutation block that succeeded, aws-node and the kube-proxy
   * DaemonSet are gone when their removal was wanted, and the kube-proxy
   * ConfigMap is what the ConfigMap delete makes of it.
   */
  lemma NodeAddonsRemoved(cluster: Cluster, f: Flags, c: AwsChecks, before: Store, after: Store)
    requires Effected(cluster, MutationSteps(f, c), before, after, true)
    ensures f.removeAwsCni ==> AwsNode !in after
    ensures f.removeKubeProxy ==>
      KubeProxyDaemonSet !in after && At(after, KubeProxyConfigMap) == cluster.mutate(Step(Op.Delete, KubeProxyConfigMap), At(before, KubeProxyConfigMap))
  {
    NodeDeletesFollowFlags(f, c);
  }

  /**
   * After a mutation block that succeeded, a CoreDNS Deployment or kube-dns
   * Service that its check reported as the vendor's is gone when removal was
   * wanted, and otherwise, when adoption was wanted, holds the adopted
   * metadata, which the classifier sees with all three Helm markers.
   */
  lemma CoreDnsRemovedOrAdopted(cluster: Cluster, f: Flags, c: AwsChecks, before: Store, after: Store, r: Ref)
    requires Effected(cluster, MutationSteps(f, c), before, after, true)
    requires (r == CorednsDeployment || r == KubeDnsService) && Checked(c, r)
    ensures f.removeCoreDns ==> r !in after
    ensures !f.removeCoreDns && f.importCoreDns ==>
      r in before && before[r].annotations.Some? && r in after && after[r] == AdoptedMeta(before[r])
      && Classify(after[r]).releaseName && Classify(after[r]).releaseNamespace && Classify(after[r]).managedBy
  {
    CoreDnsActionsFollowChecks(f, c, r);
    if !f.removeCoreDns && f.importCoreDns {
      assert Step(Op.ImportIntoHelm, r) in MutationSteps(f, c);
      ClassifyAdopted(before[r]);
    }
  }

  /**
   * The read-back classifies the CoreDNS Deployment and the kube-dns Service
   * and fails when either is missing, so a run that deleted either of them
   * never records a state: a successful run whose read-back found both had
   * nothing to delete there.
   */
  lemma RemovedCoreDnsNeverSaved(cluster: Cluster, f: Flags, c: AwsChecks, before: Store, after: Store)
    requires Effected(cluster, MutationSteps(f, c), before, after, true)
    requires f.removeCoreDns
    requires CorednsDeployment in after && KubeDnsService in after
    ensures !c.deployment && !c.service
  {
    if c.deployment {
      CoreDnsRemovedOrAdopted(cluster, f, c, before, after, CorednsDeployment);
    }
    if c.service {
      CoreDnsRemovedOrAdopted(cluster, f, c, before, after, KubeDnsService);
    }
  }

  /**
   * A successful run that wanted aws-node removed records the removal as
   * kept and the DaemonSet as absent, for Create and Update alike: the next
   * plan sees no drift.
   */
  lemma CniRemovalRecorded(cluster: Cluster, creating: bool, f: Flags, c: AwsChecks, before: Store, after: Store,
                           plan: JobModel, o: Observation, ips: seq<string>, host: string)
    requires Effected(cluster, MutationSteps(f, c), before, after, true)
    requires f.removeAwsCni && o.presence.awsCni == (AwsNode in after)
    ensures Record(creating, f, plan, o, ips, host).removeAwsCni == Known(true)
    ensures Record(creating, f, plan, o, ips, host).awsCniDaemonsetExists == Known(false)
  {
    NodeAddonsRemoved(cluster, f, c, before, after);
  }

  // ---------------------------------------------------------------------------
  // The phases of a run. Each issues its own plan of calls and stops at the
  // first failure: `Ran(cluster.calls, old(cluster.calls), plan, stop, ok)` says
  // the calls it logged are its plan run up to index `stop`.

  /**
   * Which client function performs a delete or an adoption, by object kind. A
   * failure leaves the store as it was; a success leaves the named object as
   * `Achieved` says; no other object changes either way.
   */
  method Mutate(cluster: Cluster, step: Step) returns (err: Option<Error>)
    requires step.op == Op.Delete || step.op == Op.ImportIntoHelm
    modifies cluster
    ensures cluster.calls == Snoc(old(cluster.calls), Call(step, err.Some?))
    ensures err.Some? ==> cluster.store == old(cluster.store)
    ensures err.None? ==> Achieved(cluster, step, At(old(cluster.store), step.ref), At(cluster.store, step.ref))
    ensures forall r :: r != step.ref ==> At(cluster.store, r) == At(old(cluster.store), r)
  {
    if step.op == Op.Delete && step.ref.kind in {DaemonSet, Deployment, Service} {
      var deleted;
      deleted, err := cluster.DeleteObject(step.ref);
    } else if step.op == Op.ImportIntoHelm && step.ref.kind in {Deployment, Service} {
      err := cluster.ImportIntoHelm(step.ref);
    } else {
      err := cluster.Mutation(step);
    }
  }

  method MutateIf(cluster: Cluster, b: bool, step: Step) returns (err: Option<Error>, ghost stop: nat)
    requires step.op == Op.Delete || step.op == Op.ImportIntoHelm
    modifies cluster
    ensures Ran(cluster.calls, old(cluster.calls), Gate(b, step), stop, err.None?)
    ensures Effected(cluster, Gate(b, step), old(cluster.store), cluster.store, err.None?)
    ensures err.Some? ==> cluster.store == old(cluster.store)
  {
    ghost var before := cluster.calls;
    err, stop := None, 0;
    if b {
      err := Mutate(cluster, step);
      RanStep(cluster.calls, before, Gate(b, step), 0, err.Some?);
      EffectedOne(cluster, step, old(cluster.store), cluster.store, err.None?);
      stop := if err.Some? then 0 else 1;
    }
  }

  /** aws-node, then the kube-proxy DaemonSet and its ConfigMap. */
  method RemoveNodeAddons(cluster: Cluster, f: Flags) returns (err: Option<Error>, ghost stop: nat)
    modifies cluster
    ensures Ran(cluster.calls, old(cluster.calls), NodeSteps(f), stop, err.None?)
    ensures Effected(cluster, NodeSteps(f), old(cluster.store), cluster.store, err.None?)
  {
    ghost var before, s0 := cluster.calls, cluster.store;
    ghost var done: seq<Step> := [];
    ghost var seen: set<Ref> := {};
    err, stop := None, 0;
    err, stop, done := MutateNext(cluster, f.removeAwsCni, Step(Op.Delete, AwsNode), before, s0, seen, done, stop, err);
    seen := seen + {AwsNode};
    assert done == Gate(f.removeAwsCni, Step(Op.Delete, AwsNode));
    err, stop, done := MutateNext(cluster, f.removeKubeProxy, Step(Op.Delete, KubeProxyDaemonSet), before, s0, seen, done, stop, err);
    seen := seen + {KubeProxyDaemonSet};
    err, stop, done := MutateNext(cluster, f.removeKubeProxy, Step(Op.Delete, KubeProxyConfigMap), before, s0, seen, done, stop, err);
    assert done == NodeSteps(f);
  }

  /** The four ownership checks, all before any CoreDNS mutation. */
  method ClassifyCoreDns(cluster: Cluster)
    returns (err: Option<Error>, deployment: bool, serviceAccount: bool, configMap: bool, pdb: bool, ghost stop: nat)
    modifies cluster
    ensures cluster.store == old(cluster.store)
    ensures Ran(cluster.calls, old(cluster.calls), CoreDnsChecks, stop, err.None?)
    ensures err.None? ==> var st := cluster.store;
      deployment == cluster.awsOwned(CorednsDeployment, st) && serviceAccount == cluster.awsOwned(CorednsServiceAccount, st)
      && configMap == cluster.awsOwned(CorednsConfigMap, st) && pdb == cluster.awsOwned(CorednsPodDisruptionBudget, st)
  {
    ghost var before := cluster.calls;
    var ips;
    deployment, serviceAccount, configMap, pdb, stop := false, false, false, false, 0;
    deployment, ips, err := cluster.ExistsAndIsAwsOne(CorednsDeployment);
    RanStep(cluster.calls, before, CoreDnsChecks, stop, err.Some?);
    if err.Some? {
      return;
    }
    stop := 1;
    serviceAccount, ips, err := cluster.ExistsAndIsAwsOne(CorednsServiceAccount);
    RanStep(cluster.calls, before, CoreDnsChecks, stop, err.Some?);
    if err.Some? {
      return;
    }
    stop := 2;
    configMap, ips, err := cluster.ExistsAndIsAwsOne(CorednsConfigMap);
    RanStep(cluster.calls, before, CoreDnsChecks, stop, err.Some?);
    if err.Some? {
      return;
    }
    stop := 3;
    pdb, ips, err := cluster.ExistsAndIsAwsOne(CorednsPodDisruptionBudget);
    RanStep(cluster.calls, before, CoreDnsChecks, stop, err.Some?);
    if err.Some? {
      return;
    }
    stop := 4;
  }

  /** Delete or adopt, in a fixed order, each object its check reported as the vendor's. */
  method MutateCoreDns(cluster: Cluster, op: Op, c: AwsChecks) returns (err: Option<Error>, ghost stop: nat)
    requires op == Op.Delete || op == Op.ImportIntoHelm
    modifies cluster
    ensures Ran(cluster.calls, old(cluster.calls), CoreDnsOps(op, c), stop, err.None?)
    ensures Effected(cluster, CoreDnsOps(op, c), old(cluster.store), cluster.store, err.None?)
  {
    ghost var before, s0 := cluster.calls, cluster.store;
    ghost var done: seq<Step> := [];
    ghost var seen: set<Ref> := {};
    err, stop := None, 0;
    err, stop, done := MutateNext(cluster, c.deployment, Step(op, CorednsDeployment), before, s0, seen, done, stop, err);
    seen := seen + {CorednsDeployment};
    assert done == Gate(c.deployment, Step(op, CorednsDeployment));
    err, stop, done := MutateNext(cluster, c.service, Step(op, KubeDnsService), before, s0, seen, done, stop, err);
    seen := seen + {KubeDnsService};
    err, stop, done := MutateCoreDnsRest(cluster, op, c, before, s0, seen, done, stop, err);
    assert done == CoreDnsOps(op, c);
  }

  /** The ServiceAccount, ConfigMap and PodDisruptionBudget part of `MutateCoreDns`, continuing its run. */
  method MutateCoreDnsRest(cluster: Cluster, op: Op, c: AwsChecks, ghost before: Log, ghost s0: Store, ghost seen: set<Ref>,
                           ghost done: seq<Step>, ghost stop: nat, err: Option<Error>)
    returns (err': Option<Error>, ghost stop': nat, ghost done': seq<Step>)
    requires op == Op.Delete || op == Op.ImportIntoHelm
    requires Ran(cluster.calls, before, done, stop, err.None?)
    requires Effected(cluster, done, s0, cluster.store, err.None?)
    requires forall r :: Touches(done, r) ==> r in seen
    requires CorednsServiceAccount !in seen && CorednsConfigMap !in seen && CorednsPodDisruptionBudget !in seen
    modifies cluster
    ensures done' == done + Gate(c.serviceAccount, Step(op, CorednsServiceAccount)) + Gate(c.configMap, Step(op, CorednsConfigMap))
                    + Gate(c.podDisruptionBudget, Step(op, CorednsPodDisruptionBudget))
    ensures Ran(cluster.calls, before, done', stop', err'.None?)
    ensures Effected(cluster, done', s0, cluster.store, err'.None?)
  {
    var seen' := seen;
    err', stop', done' := MutateNext(cluster, c.serviceAccount, Step(op, CorednsServiceAccount), before, s0, seen', done, stop, err);
    seen' := seen' + {CorednsServiceAccount};
    err', stop', done' := MutateNext(cluster, c.configMap, Step(op, CorednsConfigMap), before, s0, seen', done', stop', err');
    seen' := seen' + {CorednsConfigMap};
    err', stop', done' := MutateNext(cluster, c.podDisruptionBudget, Step(op, CorednsPodDisruptionBudget), before, s0, seen', done', stop', err');
  }

  /**
   * One gated step of a run that is still going: skipped after a failure, else
   * performed when `b` holds. The run so far is `done` up to `stop`; it took
   * the store from `s0` to the current one and touched only objects in `seen`.
   */
  method MutateNext(cluster: Cluster, b: bool, step: Step, ghost before: Log, ghost s0: Store, ghost seen: set<Ref>,
                    ghost done: seq<Step>, ghost stop: nat, err: Option<Error>)
    returns (err': Option<Error>, ghost stop': nat, ghost done': seq<Step>)
    requires step.op == Op.Delete || step.op == Op.ImportIntoHelm
    requires Ran(cluster.calls, before, done, stop, err.None?)
    requires Effected(cluster, done, s0, cluster.store, err.None?)
    requires forall r :: Touches(done, r) ==> r in seen
    requires step.ref !in seen
    modifies cluster
    ensures done' == done + Gate(b, step)
    ensures Ran(cluster.calls, before, done', stop', err'.None?)
    ensures Effected(cluster, done', s0, cluster.store, err'.None?)
    ensures forall r :: Touches(done', r) ==> r in seen + {step.ref}
    ensures err.Some? ==> err' == err && cluster.calls == old(cluster.calls) && cluster.store == old(cluster.store)
  {
    done' := done + Gate(b, step);
    if err.Some? {
      err', stop' := err, stop;
      RanStopped(cluster.calls, before, done, stop, Gate(b, step));
      EffectedStopped(cluster, done, Gate(b, step), s0, cluster.store);
      return;
    }
    ghost var mid, s1 := cluster.calls, cluster.store;
    ghost var sk: nat;
    err', sk := MutateIf(cluster, b, step);
    RanThen(mid, before, done, stop, cluster.calls, Gate(b, step), sk, err'.None?);
    assert Disjoint(done, Gate(b, step)) by {
      forall r | Touches(done, r) ensures !Touches(Gate(b, step), r) {
        assert r != step.ref;
      }
    }
    assert forall r :: Touches(done', r) ==> Touches(done, r) || Touches(Gate(b, step), r);
    EffectedThen(cluster, done, Gate(b, step), s0, s1, cluster.store, err'.None?);
    stop' := stop + sk;
  }

  /** The CoreDNS block, entered when removal or adoption is wanted; removal wins. */
  method ReconcileCoreDns(cluster: Cluster, f: Flags, serviceAwsOne: bool)
    returns (err: Option<Error>, ghost stop: nat, ghost c: AwsChecks)
    modifies cluster
    ensures Ran(cluster.calls, old(cluster.calls), CoreDnsSteps(f, c), stop, err.None?)
    ensures Effected(cluster, CoreDnsSteps(f, c), old(cluster.store), cluster.store, err.None?)
    ensures c.service == serviceAwsOne
  {
    ghost var before := cluster.calls;
    err, stop, c := None, 0, AwsChecks(false, serviceAwsOne, false, false, false);
    if !(f.removeCoreDns || f.importCoreDns) {
      return;
    }
    var deployment, serviceAccount, configMap, pdb;
    err, deployment, serviceAccount, configMap, pdb, stop := ClassifyCoreDns(cluster);
    var checks := AwsChecks(deployment, serviceAwsOne, serviceAccount, configMap, pdb);
    c := checks;
    var op := if f.removeCoreDns then Op.Delete else Op.ImportIntoHelm;
    if err.Some? {
      CoreDnsBlockStopped(cluster, f, c, before, cluster.calls, stop, cluster.store);
      return;
    }
    ghost var mid := cluster.calls;
    ghost var sm: nat;
    ghost var s1 := cluster.store;
    err, sm := MutateCoreDns(cluster, op, checks);
    CoreDnsBlockThen(cluster, f, c, before, mid, cluster.calls, stop, sm, err.None?, s1, cluster.store);
    stop := stop + sm;
  }

  /** The whole mutation block, entered when any removal or adoption is wanted. */
  method Reconcile(cluster: Cluster, f: Flags, serviceAwsOne: bool)
    returns (err: Option<Error>, ghost stop: nat, ghost c: AwsChecks)
    modifies cluster
    ensures Ran(cluster.calls, old(cluster.calls), MutationSteps(f, c), stop, err.None?)
    ensures Effected(cluster, MutationSteps(f, c), old(cluster.store), cluster.store, err.None?)
    ensures c.service == serviceAwsOne
  {
    if f.removeAwsCni || f.removeKubeProxy || f.removeCoreDns || f.importCoreDns {
      err, stop, c := MutateAll(cluster, f, serviceAwsOne);
    } else {
      err, stop, c := None, 0, AwsChecks(false, serviceAwsOne, false, false, false);
      assert MutationSteps(f, c) == [];
    }
  }

  /** Node add-ons first, then CoreDNS, the latter only when the former all succeeded. */
  method MutateAll(cluster: Cluster, f: Flags, serviceAwsOne: bool)
    returns (err: Option<Error>, ghost stop: nat, ghost c: AwsChecks)
    modifies cluster
    ensures Ran(cluster.calls, old(cluster.calls), MutationSteps(f, c), stop, err.None?)
    ensures Effected(cluster, MutationSteps(f, c), old(cluster.store), cluster.store, err.None?)
    ensures c.service == serviceAwsOne
  {
    ghost var before := cluster.calls;
    c := AwsChecks(false, serviceAwsOne, false, false, false);
    err, stop := RemoveNodeAddons(cluster, f);
    if err.Some? {
      MutationBlockStopped(cluster, f, c, before, cluster.calls, stop, old(cluster.store), cluster.store);
      return;
    }
    ghost var mid, s1 := cluster.calls, cluster.store;
    ghost var sc;
    err, sc, c := ReconcileCoreDns(cluster, f, serviceAwsOne);
    MutationBlockThen(cluster, f, c, before, mid, cluster.calls, stop, sc, err.None?, old(cluster.store), s1, cluster.store);
    stop := stop + sc;
  }

  /** The address fallback through the `kubernetes` service. */
  method ResolveClusterIps(cluster: Cluster, plan: JobModel, dnsIps: seq<string>)
    returns (err: Option<Error>, ips: seq<string>, ghost stop: nat)
    modifies cluster
    ensures cluster.store == old(cluster.store)
    ensures Ran(cluster.calls, old(cluster.calls), FallbackSteps(NeedsFallback(plan, dnsIps)), stop, err.None?)
    ensures err.None? ==> ips == ResolvedIps(plan, dnsIps, cluster.clusterIpsOf(KubernetesService, cluster.store))
  {
    ghost var before := cluster.calls;
    err, ips, stop := None, dnsIps, 0;
    if |ips| < 1 && plan.awsCoreDnsServiceClusterIps.IsNullOrUnknown() {
      var awsOne, kubeIps, e := cluster.ExistsAndIsAwsOne(KubernetesService);
      RanStep(cluster.calls, before, FallbackSteps(true), 0, e.Some?);
      if e.Some? {
        err := e;
        return;
      }
      stop := 1;
      ips := kubeIps;
      if |ips| > 0 {
        if ':' in ips[0] {
          ips := [ReplaceLastSegment(ips[0], ':', "a")];
        }
      }
      if |ips| > 0 {
        if '.' in ips[0] {
          ips := [ReplaceLastSegment(ips[0], '.', "10")];
        }
      }
    }
  }

  /** Whether aws-node, the kube-proxy DaemonSet and the kube-proxy ConfigMap exist. */
  method ProbeNodeAddons(cluster: Cluster)
    returns (err: Option<Error>, awsCni: bool, kubeProxyDs: bool, kubeProxyCm: bool, ghost stop: nat)
    modifies cluster
    ensures cluster.store == old(cluster.store)
    ensures Ran(cluster.calls, old(cluster.calls), NodeProbeSteps, stop, err.None?)
    ensures err.None? ==>
      awsCni == (AwsNode in cluster.store) && kubeProxyDs == (KubeProxyDaemonSet in cluster.store)
      && kubeProxyCm == cluster.listed(KubeProxyConfigMap, cluster.store)
  {
    ghost var before := cluster.calls;
    stop, kubeProxyDs, kubeProxyCm := 0, false, false;
    awsCni, err := cluster.Exist(AwsNode);
    RanStep(cluster.calls, before, NodeProbeSteps, stop, err.Some?);
    if err.Some? {
      return;
    }
    stop := 1;
    kubeProxyDs, err := cluster.Exist(KubeProxyDaemonSet);
    RanStep(cluster.calls, before, NodeProbeSteps, stop, err.Some?);
    if err.Some? {
      return;
    }
    stop := 2;
    kubeProxyCm, err := cluster.ListedExist(KubeProxyConfigMap);
    RanStep(cluster.calls, before, NodeProbeSteps, stop, err.Some?);
    if err.Some? {
      return;
    }
    stop := 3;
  }

  /** The ownership checks of the CoreDNS Deployment, Service, ServiceAccount and ConfigMap. */
  method ProbeCoreDns(cluster: Cluster)
    returns (err: Option<Error>, deployment: bool, service: bool, serviceAccount: bool, configMap: bool,
             dnsIps: seq<string>, ghost stop: nat)
    modifies cluster
    ensures cluster.store == old(cluster.store)
    ensures Ran(cluster.calls, old(cluster.calls), CoreDnsProbeSteps, stop, err.None?)
    ensures err.None? ==>
      deployment == cluster.awsOwned(CorednsDeployment, cluster.store)
      && service == cluster.awsOwned(KubeDnsService, cluster.store)
      && serviceAccount == cluster.awsOwned(CorednsServiceAccount, cluster.store)
      && configMap == cluster.awsOwned(CorednsConfigMap, cluster.store)
      && dnsIps == cluster.clusterIpsOf(KubeDnsService, cluster.store)
  {
    var ips: seq<string>;
    ghost var before := cluster.calls;
    stop, service, serviceAccount, configMap, dnsIps := 0, false, false, false, [];
    deployment, ips, err := cluster.ExistsAndIsAwsOne(CorednsDeployment);
    RanStep(cluster.calls, before, CoreDnsProbeSteps, stop, err.Some?);
    if err.Some? {
      return;
    }
    stop := 1;
    service, dnsIps, err := cluster.ExistsAndIsAwsOne(KubeDnsService);
    RanStep(cluster.calls, before, CoreDnsProbeSteps, stop, err.Some?);
    if err.Some? {
      return;
    }
    stop := 2;
    serviceAccount, ips, err := cluster.ExistsAndIsAwsOne(CorednsServiceAccount);
    RanStep(cluster.calls, before, CoreDnsProbeSteps, stop, err.Some?);
    if err.Some? {
      return;
    }
    stop := 3;
    configMap, ips, err := cluster.ExistsAndIsAwsOne(CorednsConfigMap);
    RanStep(cluster.calls, before, CoreDnsProbeSteps, stop, err.Some?);
    if err.Some? {
      return;
    }
    stop := 4;
  }

  /** The node add-on probes and the four CoreDNS checks. */
  method ObservePresence(cluster: Cluster)
    returns (err: Option<Error>, p: Presence, dnsIps: seq<string>, ghost stop: nat)
    modifies cluster
    ensures cluster.store == old(cluster.store)
    ensures Ran(cluster.calls, old(cluster.calls), PresenceSteps, stop, err.None?)
    ensures err.None? ==> p == PresenceIn(cluster) && dnsIps == cluster.clusterIpsOf(KubeDnsService, cluster.store)
  {
    ghost var before := cluster.calls;
    var awsCni, kubeProxyDs, kubeProxyCm;
    err, awsCni, kubeProxyDs, kubeProxyCm, stop := ProbeNodeAddons(cluster);
    ghost var mid, wasOk, sc := cluster.calls, err.None?, 0;
    var deployment, service, serviceAccount, configMap := false, false, false, false;
    dnsIps := [];
    if err.None? {
      err, deployment, service, serviceAccount, configMap, dnsIps, sc := ProbeCoreDns(cluster);
    }
    RanPhase(mid, before, NodeProbeSteps, stop, wasOk, cluster.calls, CoreDnsProbeSteps, sc, err.None?);
    stop := stop + sc;
    p := Presence(awsCni, kubeProxyDs, kubeProxyCm, deployment, service, serviceAccount, configMap);
  }

  /** The PodDisruptionBudget check. */
  method ObservePdb(cluster: Cluster) returns (err: Option<Error>, pdb: bool, ghost stop: nat)
    modifies cluster
    ensures cluster.store == old(cluster.store)
    ensures Ran(cluster.calls, old(cluster.calls), PdbSteps, stop, err.None?)
    ensures err.None? ==> pdb == cluster.awsOwned(CorednsPodDisruptionBudget, cluster.store)
  {
    ghost var before := cluster.calls;
    var ips;
    pdb, ips, err := cluster.ExistsAndIsAwsOne(CorednsPodDisruptionBudget);
    RanStep(cluster.calls, before, PdbSteps, 0, err.Some?);
    stop := if err.Some? then 0 else 1;
  }

  /** The marker reads; the PodDisruptionBudget slot is filled from the ConfigMap. */
  method ObserveMarkers(cluster: Cluster) returns (err: Option<Error>, h: HelmMarkers, ghost stop: nat)
    modifies cluster
    ensures cluster.store == old(cluster.store)
    ensures Ran(cluster.calls, old(cluster.calls), MarkerSteps, stop, err.None?)
    ensures err.None? ==> CorednsDeployment in cluster.store && KubeDnsService in cluster.store && h == MarkersIn(cluster)
  {
    var deployment, service, serviceAccount, configMap, pdb;
    ghost var before := cluster.calls;
    h, stop := HelmMarkers(NoMarkers, NoMarkers, NoMarkers, NoMarkers, NoMarkers), 0;
    deployment, err := cluster.ImportedIntoHelm(CorednsDeployment);
    RanStep(cluster.calls, before, MarkerSteps, stop, err.Some?);
    if err.Some? {
      return;
    }
    stop := 1;
    service, err := cluster.ImportedIntoHelm(KubeDnsService);
    RanStep(cluster.calls, before, MarkerSteps, stop, err.Some?);
    if err.Some? {
      return;
    }
    stop := 2;
    serviceAccount, err := cluster.ReportedImportedIntoHelm(CorednsServiceAccount);
    RanStep(cluster.calls, before, MarkerSteps, stop, err.Some?);
    if err.Some? {
      return;
    }
    stop := 3;
    configMap, err := cluster.ReportedImportedIntoHelm(CorednsConfigMap);
    RanStep(cluster.calls, before, MarkerSteps, stop, err.Some?);
    if err.Some? {
      return;
    }
    stop := 4;
    pdb, err := cluster.ReportedImportedIntoHelm(CorednsConfigMap);
    RanStep(cluster.calls, before, MarkerSteps, stop, err.Some?);
    if err.Some? {
      return;
    }
    stop := 5;
    h := HelmMarkers(deployment, service, serviceAccount, configMap, pdb);
  }

  /** The PodDisruptionBudget check and the marker reads. */
  method ObserveHelm(cluster: Cluster) returns (err: Option<Error>, pdb: bool, h: HelmMarkers, ghost stop: nat)
    modifies cluster
    ensures cluster.store == old(cluster.store)
    ensures Ran(cluster.calls, old(cluster.calls), HelmSteps, stop, err.None?)
    ensures err.None? ==>
      pdb == cluster.awsOwned(CorednsPodDisruptionBudget, cluster.store)
      && CorednsDeployment in cluster.store && KubeDnsService in cluster.store && h == MarkersIn(cluster)
  {
    ghost var before := cluster.calls;
    err, pdb, stop := ObservePdb(cluster);
    ghost var mid, wasOk, sm := cluster.calls, err.None?, 0;
    h := HelmMarkers(NoMarkers, NoMarkers, NoMarkers, NoMarkers, NoMarkers);
    if err.None? {
      err, h, sm := ObserveMarkers(cluster);
    }
    RanPhase(mid, before, PdbSteps, stop, wasOk, cluster.calls, MarkerSteps, sm, err.None?);
    stop := stop + sm;
  }

  /** The read-back of a Create or Update: presence, then the PodDisruptionBudget and the markers. */
  method Observe(cluster: Cluster) returns (err: Option<Error>, o: Observation, ghost stop: nat)
    modifies cluster
    ensures cluster.store == old(cluster.store)
    ensures Ran(cluster.calls, old(cluster.calls), ObserveSteps, stop, err.None?)
    ensures err.None? ==>
      CorednsDeployment in cluster.store && KubeDnsService in cluster.store && o == ObservedIn(cluster)
  {
    ghost var before := cluster.calls;
    var p, dnsIps;
    err, p, dnsIps, stop := ObservePresence(cluster);
    ghost var mid, wasOk, sh := cluster.calls, err.None?, 0;
    var pdb, h := false, HelmMarkers(NoMarkers, NoMarkers, NoMarkers, NoMarkers, NoMarkers);
    if err.None? {
      err, pdb, h, sh := ObserveHelm(cluster);
    }
    RanPhase(mid, before, PresenceSteps, stop, wasOk, cluster.calls, HelmSteps, sh, err.None?);
    stop := stop + sh;
    o := Observation(p, pdb, h);
  }

  /** The kube-dns check and, when it reported no address, the fallback. */
  method LocateDns(cluster: Cluster, plan: JobModel)
    returns (err: Option<Error>, serviceAwsOne: bool, ips: seq<string>, ghost stop: nat, ghost fallback: bool)
    modifies cluster
    ensures cluster.store == old(cluster.store)
    ensures Ran(cluster.calls, old(cluster.calls), LocateSteps(fallback), stop, err.None?)
    ensures err.None? ==>
      fallback == NeedsFallback(plan, cluster.clusterIpsOf(KubeDnsService, cluster.store))
      && serviceAwsOne == cluster.awsOwned(KubeDnsService, cluster.store)
      && ips == ResolvedIps(plan, cluster.clusterIpsOf(KubeDnsService, cluster.store),
                            cluster.clusterIpsOf(KubernetesService, cluster.store))
  {
    ghost var before := cluster.calls;
    var dnsIps;
    serviceAwsOne, dnsIps, err := cluster.ExistsAndIsAwsOne(KubeDnsService);
    RanStep(cluster.calls, before, DnsSteps, 0, err.Some?);
    stop := if err.Some? then 0 else 1;
    fallback := NeedsFallback(plan, dnsIps);
    ghost var mid, wasOk, sp := cluster.calls, err.None?, 0;
    ips := dnsIps;
    if err.None? {
      err, ips, sp := ResolveClusterIps(cluster, plan, dnsIps);
    }
    RanPhase(mid, before, DnsSteps, stop, wasOk, cluster.calls, FallbackSteps(fallback), sp, err.None?);
    stop := stop + sp;
  }

  /**
   * The mutation block as the continuation of a run that is still going:
   * skipped after a failure. The run so far is `done` up to `stop`.
   */
  method ReconcileAfter(cluster: Cluster, f: Flags, serviceAwsOne: bool,
                        ghost before: Log, ghost done: seq<Step>, ghost stop: nat, err: Option<Error>)
    returns (err': Option<Error>, ghost stop': nat, ghost c: AwsChecks)
    requires Ran(cluster.calls, before, done, stop, err.None?)
    modifies cluster
    ensures Ran(cluster.calls, before, done + MutationSteps(f, c), stop', err'.None?)
    ensures Effected(cluster, MutationSteps(f, c), old(cluster.store), cluster.store, err'.None?)
    ensures c.service == serviceAwsOne
    ensures err.Some? ==> err' == err
  {
    c := AwsChecks(false, serviceAwsOne, false, false, false);
    if err.Some? {
      err', stop' := err, stop;
      RanStopped(cluster.calls, before, done, stop, MutationSteps(f, c));
      assert KeptOutside(cluster.store, old(cluster.store), MutationSteps(f, c));
      return;
    }
    ghost var mid := cluster.calls;
    ghost var sm;
    err', sm, c := Reconcile(cluster, f, serviceAwsOne);
    RanThen(mid, before, done, stop, cluster.calls, MutationSteps(f, c), sm, err'.None?);
    stop' := stop + sm;
  }

  /**
   * The part of a Create or Update that changes the cluster: the kube-dns
   * check, the address fallback and the mutations, each only while nothing has
   * failed.
   */
  method Change(cluster: Cluster, plan: JobModel, f: Flags)
    returns (err: Option<Error>, ips: seq<string>, ghost stop: nat, ghost fallback: bool, ghost c: AwsChecks)
    modifies cluster
    ensures Ran(cluster.calls, old(cluster.calls), ChangeSteps(f, fallback, c), stop, err.None?)
    ensures Effected(cluster, MutationSteps(f, c), old(cluster.store), cluster.store, err.None?)
    ensures err.None? ==>
      fallback == NeedsFallback(plan, cluster.clusterIpsOf(KubeDnsService, old(cluster.store)))
      && c.service == cluster.awsOwned(KubeDnsService, old(cluster.store))
      && ips == ResolvedIps(plan, cluster.clusterIpsOf(KubeDnsService, old(cluster.store)),
                            cluster.clusterIpsOf(KubernetesService, old(cluster.store)))
  {
    ghost var before := cluster.calls;
    var serviceAwsOne;
    err, serviceAwsOne, ips, stop, fallback := LocateDns(cluster, plan);
    err, stop, c := ReconcileAfter(cluster, f, serviceAwsOne, before, LocateSteps(fallback), stop, err);
  }

  /**
   * The cluster side of a Create or Update: the changes, then, only when all of
   * them succeeded, the read-back. `mid` is the log between the two.
   */
  method Execute(cluster: Cluster, plan: JobModel)
    returns (err: Option<Error>, o: Observation, ips: seq<string>,
             ghost stop: nat, ghost fallback: bool, ghost c: AwsChecks, ghost mid: Log, ghost changed: bool, ghost so: nat)
    modifies cluster
    ensures RanInPhases(cluster.calls, mid, old(cluster.calls), ChangeSteps(DesiredFlags(plan), fallback, c), stop, changed,
                        ObserveSteps, so, err.None?)
    ensures Effected(cluster, MutationSteps(DesiredFlags(plan), c), old(cluster.store), cluster.store, changed)
    ensures err.None? ==> changed
    ensures err.None? ==>
      fallback == NeedsFallback(plan, cluster.clusterIpsOf(KubeDnsService, old(cluster.store)))
      && c.service == cluster.awsOwned(KubeDnsService, old(cluster.store))
      && ips == ResolvedIps(plan, cluster.clusterIpsOf(KubeDnsService, old(cluster.store)),
                            cluster.clusterIpsOf(KubernetesService, old(cluster.store)))
      && CorednsDeployment in cluster.store && KubeDnsService in cluster.store && o == ObservedIn(cluster)
  {
    err, ips, stop, fallback, c := Change(cluster, plan, DesiredFlags(plan));
    mid, changed, so := cluster.calls, err.None?, 0;
    o := Observation(Presence(false, false, false, false, false, false, false), false,
                     HelmMarkers(NoMarkers, NoMarkers, NoMarkers, NoMarkers, NoMarkers));
    if err.None? {
      err, o, so := Observe(cluster);
    }
  }

  /** The first part of a Read: presence, then the address fallback. */
  method SurveyPresence(cluster: Cluster, state: JobModel)
    returns (err: Option<Error>, p: Presence, ips: seq<string>, ghost stop: nat, ghost fallback: bool)
    modifies cluster
    ensures cluster.store == old(cluster.store)
    ensures Ran(cluster.calls, old(cluster.calls), PresenceSteps + FallbackSteps(fallback), stop, err.None?)
    ensures err.None? ==>
      fallback == NeedsFallback(state, cluster.clusterIpsOf(KubeDnsService, cluster.store))
      && ips == ResolvedIps(state, cluster.clusterIpsOf(KubeDnsService, cluster.store),
                            cluster.clusterIpsOf(KubernetesService, cluster.store))
      && p == PresenceIn(cluster)
  {
    ghost var before := cluster.calls;
    var dnsIps;
    err, p, dnsIps, stop := ObservePresence(cluster);
    fallback := NeedsFallback(state, dnsIps);
    ips := dnsIps;
    if err.Some? {
      RanStopped(cluster.calls, before, PresenceSteps, stop, FallbackSteps(fallback));
      return;
    }
    ghost var mid := cluster.calls;
    ghost var sp;
    err, ips, sp := ResolveClusterIps(cluster, state, dnsIps);
    RanThen(mid, before, PresenceSteps, stop, cluster.calls, FallbackSteps(fallback), sp, err.None?);
    stop := stop + sp;
  }

  /** The cluster side of a Read: presence, the address fallback, then the PodDisruptionBudget and the markers. */
  method Inspect(cluster: Cluster, state: JobModel)
    returns (err: Option<Error>, o: Observation, ips: seq<string>, ghost stop: nat, ghost fallback: bool)
    modifies cluster
    ensures cluster.store == old(cluster.store)
    ensures Ran(cluster.calls, old(cluster.calls), ReadSteps(fallback), stop, err.None?)
    ensures err.None? ==>
      fallback == NeedsFallback(state, cluster.clusterIpsOf(KubeDnsService, cluster.store))
      && ips == ResolvedIps(state, cluster.clusterIpsOf(KubeDnsService, cluster.store),
                            cluster.clusterIpsOf(KubernetesService, cluster.store))
      && CorednsDeployment in cluster.store && KubeDnsService in cluster.store && o == ObservedIn(cluster)
  {
    ghost var before := cluster.calls;
    var p;
    err, p, ips, stop, fallback := SurveyPresence(cluster, state);
    o := Observation(p, false, HelmMarkers(NoMarkers, NoMarkers, NoMarkers, NoMarkers, NoMarkers));
    if err.Some? {
      RanStopped(cluster.calls, before, PresenceSteps + FallbackSteps(fallback), stop, HelmSteps);
      return;
    }
    ghost var mid := cluster.calls;
    ghost var sh;
    var pdb, h;
    err, pdb, h, sh := ObserveHelm(cluster);
    RanThen(mid, before, PresenceSteps + FallbackSteps(fallback), stop, cluster.calls, HelmSteps, sh, err.None?);
    stop := stop + sh;
    o := Observation(p, pdb, h);
  }

  // ---------------------------------------------------------------------------
  // The resource.

  /** Why building the Kubernetes client failed: no configuration at all, or anything else. */
  datatype ConnectFailure = EmptyConfig | OtherConnectFailure

  datatype Diagnostic =
    | ProviderNotConfigured
    | ClientUnavailable(failure: ConnectFailure)
    | HostNotKnownYet(failure: ConnectFailure)
    | ClusterCallFailed(cause: Error)

  /** What an operation hands back to the framework. */
  datatype Response = Saved(state: JobModel) | Failed(diag: Diagnostic) | Warned(diag: Diagnostic) | Removed

  /**
   * The job resource. `connect` stands for the result of building the client
   * when the provider has none cached: `None` is success.
   */
  class JobResource {
    var provider: Provider?

    constructor (provider: Provider?)
      ensures this.provider == provider
    {
      this.provider := provider;
    }

    /**
     * The start of Create and Update: no provider is an error; the provider's
     * host and `insecure` are patched; a missing client is built and cached.
     */
    method Prepare(plan: JobModel, connect: Option<ConnectFailure>) returns (diag: Option<Diagnostic>)
      modifies provider
      ensures provider != null ==> provider.host == old(provider.host) && provider.burstLimit == old(provider.burstLimit)
      ensures provider == null ==> diag == Some(ProviderNotConfigured)
      ensures provider != null ==> provider.model == PatchModel(old(provider.model), plan.id)
      ensures provider != null && (old(provider.clientSet) || connect.None?) ==> diag.None? && provider.clientSet
      ensures provider != null && !old(provider.clientSet) && connect.Some? ==>
        diag == Some(ClientUnavailable(connect.value)) && !provider.clientSet
    {
      if provider == null {
        return Some(ProviderNotConfigured);
      }
      provider.model := PatchModel(provider.model, plan.id);
      if !provider.clientSet {
        if connect.Some? {
          return Some(ClientUnavailable(connect.value));
        }
        provider.clientSet := true;
      }
      diag := None;
    }

    /** Create and Update: the whole run, with `creating` selecting Create's formulas for the CNI pair. */
    method Apply(creating: bool, plan: JobModel, cluster: Cluster, connect: Option<ConnectFailure>)
      returns (resp: Response,
               ghost stop: nat, ghost fallback: bool, ghost c: AwsChecks, ghost mid: Log, ghost changed: bool, ghost so: nat)
      modifies provider, cluster
      ensures provider != null ==> provider.host == old(provider.host) && provider.burstLimit == old(provider.burstLimit)
      ensures provider != null && (old(provider.clientSet) || connect.None?) ==> provider.clientSet
      ensures resp.Saved? || resp.Failed?
      ensures provider == null ==> resp == Failed(ProviderNotConfigured)
      ensures provider != null ==> provider.model == PatchModel(old(provider.model), plan.id)
      ensures provider != null && !old(provider.clientSet) && connect.Some? ==>
        resp == Failed(ClientUnavailable(connect.value))
      ensures resp.Failed? && !resp.diag.ClusterCallFailed? ==>
        cluster.calls == old(cluster.calls) && cluster.store == old(cluster.store)
      ensures resp.Failed? && resp.diag.ClusterCallFailed? ==>
        RanInPhases(cluster.calls, mid, old(cluster.calls), ChangeSteps(DesiredFlags(plan), fallback, c), stop, changed,
                    ObserveSteps, so, false)
      ensures resp.Failed? && resp.diag.ClusterCallFailed? ==>
        Effected(cluster, MutationSteps(DesiredFlags(plan), c), old(cluster.store), cluster.store, changed)
      ensures resp.Saved? ==> Effected(cluster, MutationSteps(DesiredFlags(plan), c), old(cluster.store), cluster.store, true)
      ensures resp.Saved? ==>
        (provider != null && provider.clientSet
         && RanInPhases(cluster.calls, mid, old(cluster.calls), ChangeSteps(DesiredFlags(plan), fallback, c), stop, changed,
                        ObserveSteps, so, true)
         && fallback == NeedsFallback(plan, cluster.clusterIpsOf(KubeDnsService, old(cluster.store)))
         && c.service == cluster.awsOwned(KubeDnsService, old(cluster.store))
         && CorednsDeployment in cluster.store && KubeDnsService in cluster.store
         && resp.state == Record(creating, DesiredFlags(plan), plan, ObservedIn(cluster),
              ResolvedIps(plan, cluster.clusterIpsOf(KubeDnsService, old(cluster.store)),
                          cluster.clusterIpsOf(KubernetesService, old(cluster.store))),
              provider.model.host.ValueOr("")))
    {
      stop, fallback, c, mid, changed, so := 0, false, AwsChecks(false, false, false, false, false), cluster.calls, false, 0;
      var diag := Prepare(plan, connect);
      if diag.Some? {
        return Failed(diag.value), stop, fallback, c, mid, changed, so;
      }
      var f := DesiredFlags(plan);
      var err, o, ips;
      err, o, ips, stop, fallback, c, mid, changed, so := Execute(cluster, plan);
      if err.Some? {
        return Failed(ClusterCallFailed(err.value)), stop, fallback, c, mid, changed, so;
      }
      resp := Saved(Record(creating, f, plan, o, ips, provider.model.host.ValueOr("")));
    }

    /** `Create`: Apply with Create's formulas for the CNI pair. */
    method Create(plan: JobModel, cluster: Cluster, connect: Option<ConnectFailure>)
      returns (resp: Response,
               ghost stop: nat, ghost fallback: bool, ghost c: AwsChecks, ghost mid: Log, ghost changed: bool, ghost so: nat)
      modifies provider, cluster
      ensures provider != null ==> provider.host == old(provider.host) && provider.burstLimit == old(provider.burstLimit)
      ensures provider != null && (old(provider.clientSet) || connect.None?) ==> provider.clientSet
      ensures resp.Saved? || resp.Failed?
      ensures provider == null ==> resp == Failed(ProviderNotConfigured)
      ensures provider != null ==> provider.model == PatchModel(old(provider.model), plan.id)
      ensures provider != null && !old(provider.clientSet) && connect.Some? ==>
        resp == Failed(ClientUnavailable(connect.value))
      ensures resp.Failed? && !resp.diag.ClusterCallFailed? ==>
        cluster.calls == old(cluster.calls) && cluster.store == old(cluster.store)
      ensures resp.Failed? && resp.diag.ClusterCallFailed? ==>
        RanInPhases(cluster.calls, mid, old(cluster.calls), ChangeSteps(DesiredFlags(plan), fallback, c), stop, changed,
                    ObserveSteps, so, false)
      ensures resp.Failed? && resp.diag.ClusterCallFailed? ==>
        Effected(cluster, MutationSteps(DesiredFlags(plan), c), old(cluster.store), cluster.store, changed)
      ensures resp.Saved? ==> Effected(cluster, MutationSteps(DesiredFlags(plan), c), old(cluster.store), cluster.store, true)
      ensures resp.Saved? ==>
        (provider != null && provider.clientSet
         && RanInPhases(cluster.calls, mid, old(cluster.calls), ChangeSteps(DesiredFlags(plan), fallback, c), stop, changed,
                        ObserveSteps, so, true)
         && fallback == NeedsFallback(plan, cluster.clusterIpsOf(KubeDnsService, old(cluster.store)))
         && c.service == cluster.awsOwned(KubeDnsService, old(cluster.store))
         && CorednsDeployment in cluster.store && KubeDnsService in cluster.store
         && resp.state == Record(true, DesiredFlags(plan), plan, ObservedIn(cluster),
              ResolvedIps(plan, cluster.clusterIpsOf(KubeDnsService, old(cluster.store)),
                          cluster.clusterIpsOf(KubernetesService, old(cluster.store))),
              provider.model.host.ValueOr("")))
    {
      resp, stop, fallback, c, mid, changed, so := Apply(true, plan, cluster, connect);
    }

    /** `Update`: the same run, recorded with the formulas Read uses for the CNI pair. */
    method Update(plan: JobModel, cluster: Cluster, connect: Option<ConnectFailure>)
      returns (resp: Response,
               ghost stop: nat, ghost fallback: bool, ghost c: AwsChecks, ghost mid: Log, ghost changed: bool, ghost so: nat)
      modifies provider, cluster
      ensures provider != null ==> provider.host == old(provider.host) && provider.burstLimit == old(provider.burstLimit)
      ensures provider != null && (old(provider.clientSet) || connect.None?) ==> provider.clientSet
      ensures resp.Saved? || resp.Failed?
      ensures provider == null ==> resp == Failed(ProviderNotConfigured)
      ensures provider != null ==> provider.model == PatchModel(old(provider.model), plan.id)
      ensures provider != null && !old(provider.clientSet) && connect.Some? ==>
        resp == Failed(ClientUnavailable(connect.value))
      ensures resp.Failed? && !resp.diag.ClusterCallFailed? ==>
        cluster.calls == old(cluster.calls) && cluster.store == old(cluster.store)
      ensures resp.Failed? && resp.diag.ClusterCallFailed? ==>
        RanInPhases(cluster.calls, mid, old(cluster.calls), ChangeSteps(DesiredFlags(plan), fallback, c), stop, changed,
                    ObserveSteps, so, false)
      ensures resp.Failed? && resp.diag.ClusterCallFailed? ==>
        Effected(cluster, MutationSteps(DesiredFlags(plan), c), old(cluster.store), cluster.store, changed)
      ensures resp.Saved? ==> Effected(cluster, MutationSteps(DesiredFlags(plan), c), old(cluster.store), cluster.store, true)
      ensures resp.Saved? ==>
        (provider != null && provider.clientSet
         && RanInPhases(cluster.calls, mid, old(cluster.calls), ChangeSteps(DesiredFlags(plan), fallback, c), stop, changed,
                        ObserveSteps, so, true)
         && fallback == NeedsFallback(plan, cluster.clusterIpsOf(KubeDnsService, old(cluster.store)))
         && c.service == cluster.awsOwned(KubeDnsService, old(cluster.store))
         && CorednsDeployment in cluster.store && KubeDnsService in cluster.store
         && resp.state == Record(false, DesiredFlags(plan), plan, ObservedIn(cluster),
              ResolvedIps(plan, cluster.clusterIpsOf(KubeDnsService, old(cluster.store)),
                          cluster.clusterIpsOf(KubernetesService, old(cluster.store))),
              provider.model.host.ValueOr("")))
    {
      resp, stop, fallback, c, mid, changed, so := Apply(false, plan, cluster, connect);
    }

    /**
     * `Read`: observation only, so the cluster's objects never change. A missing
     * configuration while the host is still unknown is a warning, not an error.
     */
    method Read(state: JobModel, cluster: Cluster, connect: Option<ConnectFailure>)
      returns (resp: Response, ghost stop: nat, ghost fallback: bool)
      modifies provider, cluster
      ensures provider != null ==> provider.host == old(provider.host) && provider.burstLimit == old(provider.burstLimit)
      ensures provider != null && (old(provider.clientSet) || connect.None?) ==> provider.clientSet
      ensures cluster.store == old(cluster.store)
      ensures provider == null ==> resp == Failed(ProviderNotConfigured)
      ensures provider != null ==> provider.model == PatchModel(old(provider.model), state.id)
      ensures provider != null && !old(provider.clientSet) && connect.Some? ==>
        if connect == Some(EmptyConfig) && provider.model.host.Unknown?
        then resp == Warned(HostNotKnownYet(EmptyConfig))
        else resp == Failed(ClientUnavailable(connect.value))
      ensures resp.Warned? || (resp.Failed? && !resp.diag.ClusterCallFailed?) ==> cluster.calls == old(cluster.calls)
      ensures resp.Failed? && resp.diag.ClusterCallFailed? ==>
        Ran(cluster.calls, old(cluster.calls), ReadSteps(fallback), stop, false)
      ensures resp.Saved? ==>
        (provider != null && provider.clientSet
         && Ran(cluster.calls, old(cluster.calls), ReadSteps(fallback), stop, true)
         && fallback == NeedsFallback(state, cluster.clusterIpsOf(KubeDnsService, cluster.store))
         && CorednsDeployment in cluster.store && KubeDnsService in cluster.store
         && resp.state == Record(false, DesiredFlags(state), state, ObservedIn(cluster),
              ResolvedIps(state, cluster.clusterIpsOf(KubeDnsService, cluster.store),
                          cluster.clusterIpsOf(KubernetesService, cluster.store)),
              provider.model.host.ValueOr("")))
    {
      stop, fallback := 0, false;
      if provider == null {
        return Failed(ProviderNotConfigured), stop, fallback;
      }
      provider.model := PatchModel(provider.model, state.id);
      if !provider.clientSet {
        if connect.Some? {
          if connect.value == EmptyConfig && provider.model.host.Unknown? {
            return Warned(HostNotKnownYet(EmptyConfig)), stop, fallback;
          }
          return Failed(ClientUnavailable(connect.value)), stop, fallback;
        }
        provider.clientSet := true;
      }
      var err, o, ips;
      err, o, ips, stop, fallback := Inspect(cluster, state);
      if err.Some? {
        return Failed(ClusterCallFailed(err.value)), stop, fallback;
      }
      resp := Saved(Record(false, DesiredFlags(state), state, o, ips, provider.model.host.ValueOr("")));
    }

    /** `Delete`: nothing to undo; the framework drops the state. */
    method Delete() returns (resp: Response)
      ensures resp == Removed
    {
      resp := Removed;
    }
  }
}
