/** cmd/root.go: the component data model (a chart together with the one-time manifests
    applied before and after it), the default component catalogue, and the check that helm
    is installed and healthy. */
module Components {
  import opened Shell
  import opened Text
  import opened Helm

  /** A Kubernetes resource by name, kind and namespace. Go's zero value, all fields empty,
      stands for "no resource". */
  datatype KubernetesResource = KubernetesResource(name: string, kind: string, namespace: string)

  const NoResource: KubernetesResource := KubernetesResource("", "", "")

  /** A resource to wait for before applying a manifest, and how many replicas it needs. */
  datatype PreconditionReadySpec = PreconditionReadySpec(resource: KubernetesResource, minReplicas: int)

  const NoPrecondition: PreconditionReadySpec := PreconditionReadySpec(NoResource, 0)

  /** A one-time manifest (such as a configuration pod): what must be ready first, the
      manifest, the resource whose completion is awaited, and whether the manifest's
      resources stay after that wait. PreInstallResource and PostInstallResource have the
      same fields. */
  datatype InstallResource = InstallResource(
    preconditionReady: PreconditionReadySpec,
    manifestPath: string,
    waitForDone: KubernetesResource,
    persistentAfterWait: bool)

  type PreInstallResource = InstallResource
  type PostInstallResource = InstallResource

  datatype ShipComponent = ShipComponent(
    chart: Chart,
    preInstallResources: seq<PreInstallResource>,
    postInstallResources: seq<PostInstallResource>)

  // ---------------------------------------------------------------------------
  // The default catalogue
  // ---------------------------------------------------------------------------

  /** A component that is only a chart. */
  function ChartOnly(chart: Chart): ShipComponent {
    ShipComponent(chart, [], [])
  }

  /** A manifest with only a path and `PersistentAfterWait: true`, the other fields left at
      their zero values. */
  function KeptManifest(manifestPath: string): InstallResource {
    InstallResource(NoPrecondition, manifestPath, NoResource, true)
  }

  const Sysmetric: ShipComponent :=
    ChartOnly(Chart("stable/heapster", "kube-system", "sysmetric", ["rbac.create=true"], ""))

  const Inggwdb: ShipComponent :=
    ChartOnly(Chart("sprinthive-dev-charts/postgresql", "infra", "inggwdb",
      ["fullnameOverride=kong-postgres", "postgresUser=kong", "postgresDatabase=kong"], ""))

  const Repo: ShipComponent :=
    ChartOnly(Chart("sprinthive-dev-charts/nexus", "infra", "repo", [], ""))

  const Metricdb: ShipComponent :=
    ChartOnly(Chart("stable/prometheus", "infra", "metricdb", [], "resources/prometheus/values.yaml"))

  const Tracing: ShipComponent :=
    ChartOnly(Chart("sprinthive-dev-charts/zipkin", "infra", "tracing",
      ["ingress.enabled=true", "ingress.host=zipkin.${domain}", "ingress.class=kong", "ingress.path=/"], ""))

  const Cicd: ShipComponent :=
    ChartOnly(Chart("sprinthive-dev-charts/jenkins", "infra", "cicd",
      ["Master.HostName=jenkins.${domain}",
       "Master.Ingress.Annotations.kubernetes\\.io/ingress\\.class=kong",
       "Master.Ingress.TLS[0].secretName=cicd-jenkins-tls",
       "Master.Ingress.TLS[0].hosts[0]=jenkins.${domain}"], ""))

  const Logviz: ShipComponent :=
    ChartOnly(Chart("sprinthive-dev-charts/kibana", "infra", "logviz",
      ["ingress.enabled=true", "ingress.host=kibana.${domain}", "ingress.class=kong", "ingress.path=/"], ""))

  const Logcollect: ShipComponent :=
    ChartOnly(Chart("sprinthive-dev-charts/fluent-bit", "infra", "logcollect", [], ""))

  const Logdb: ShipComponent :=
    ChartOnly(Chart("sprinthive-dev-charts/elasticsearch", "infra", "logdb", ["ClusterProfile=production"], ""))

  const Metricviz: ShipComponent :=
    ShipComponent(
      Chart("stable/grafana", "infra", "metricviz",
        ["sidecar.dashboards.enabled=true",
         "sidecar.dashboards.label=grafana_dashboard",
         "sidecar.datasources.enabled=true",
         "sidecar.datasources.label=grafana_datasource",
         "ingress.enabled=true",
         "ingress.hosts={grafana.${domain}}",
         "ingress.tls[0].hosts={grafana.${domain}}"],
        "resources/grafana/values.yaml"),
      [KeptManifest("resources/grafana/datasource-elasticsearch.yaml"),
       KeptManifest("resources/grafana/datasource-prometheus.yaml"),
       KeptManifest("resources/grafana/dashboard-cluster-alarms.yaml"),
       KeptManifest("resources/grafana/dashboard-ingress.yaml"),
       KeptManifest("resources/grafana/dashboard-kubernetes.yaml"),
       KeptManifest("resources/grafana/dashboard-pod-alarms.yaml")],
      [])

  const Inggw: ShipComponent :=
    ShipComponent(
      Chart("sprinthive-dev-charts/kong", "infra", "inggw",
        ["ProxyService.Type=ClusterIP", "IstioSidecar.enabled=false", "HostPort=true"], ""),
      [InstallResource(
        PreconditionReadySpec(KubernetesResource("kong-postgres", "deployment", "infra"), 1),
        "resources/kong/pod-kong-pre-configure.yaml",
        KubernetesResource("kong-pre-configure", "pod", "infra"),
        false)],
      [InstallResource(
        PreconditionReadySpec(KubernetesResource("inggw-kong", "daemonset", "infra"), 1),
        "resources/kong/pod-kong-configure.yaml",
        KubernetesResource("kong-configure", "pod", "infra"),
        false)])

  const Ingcontrol: ShipComponent :=
    ChartOnly(Chart("sprinthive-dev-charts/kong-ingress-controller", "infra", "ingcontrol", [], ""))

  const Certman: ShipComponent :=
    ShipComponent(
      Chart("stable/cert-manager", "infra", "certman",
        ["ingressShim.defaultIssuerName=letsencrypt-prod", "ingressShim.defaultIssuerKind=ClusterIssuer"], ""),
      [],
      [KeptManifest("resources/cert-manager/clusterissuer-letsencrypt-prod.yaml")])

  /** The default components, in installation order. */
  const ShipComponents: seq<ShipComponent> := [
    Sysmetric, Inggwdb, Repo, Metricdb, Tracing, Cicd, Logviz, Logcollect, Logdb, Metricviz,
    Inggw, Ingcontrol, Certman]

  /** The release names of a component list, in order. */
  function ReleaseNames(components: seq<ShipComponent>): (names: seq<string>)
    ensures |names| == |components|
    ensures forall i :: 0 <= i < |components| ==> names[i] == components[i].chart.releaseName
  {
    if components == [] then [] else [components[0].chart.releaseName] + ReleaseNames(components[1..])
  }

  predicate Distinct(names: seq<string>) {
    forall i, j :: 0 <= i < j < |names| ==> names[i] != names[j]
  }

  /** A name's length and first character: names with different keys differ. Distinctness
      of the catalogue's names is proved through these keys, because comparing the thirteen
      release names pairwise as strings, 78 sequence disequalities, is more than the solver
      settles within its resource bound; the keys turn each comparison into one on a pair
      of an integer and a character. */
  function NameKey(name: string): (int, char) {
    (|name|, if name == [] then ' ' else name[0])
  }

  function NameKeys(names: seq<string>): (keys: seq<(int, char)>)
    ensures |keys| == |names| && forall i :: 0 <= i < |names| ==> keys[i] == NameKey(names[i])
  {
    if names == [] then [] else [NameKey(names[0])] + NameKeys(names[1..])
  }

  /** The position in the catalogue of the release whose name has the key (-1 for none). */
  function CatalogueKeyPosition(key: (int, char)): int {
    match key
    case (9, 's') => 0 case (7, 'i') => 1 case (4, 'r') => 2 case (8, 'm') => 3
    case (7, 't') => 4 case (4, 'c') => 5 case (6, 'l') => 6 case (10, 'l') => 7
    case (5, 'l') => 8 case (9, 'm') => 9 case (5, 'i') => 10 case (10, 'i') => 11
    case (7, 'c') => 12 case _ => -1
  }

  /** A manifest whose resources are removed after the wait names what it waits for, and so
      (the same statement read backwards) a manifest that waits for nothing is kept. */
  predicate AwaitsBeforeRemoval(r: InstallResource) {
    !r.persistentAfterWait ==> r.waitForDone != NoResource
  }

  /** A precondition that is set asks for at least one ready replica. */
  predicate PreconditionNeedsReplica(r: InstallResource) {
    r.preconditionReady.resource != NoResource ==> r.preconditionReady.minReplicas >= 1
  }

  predicate WellFormedManifests(c: ShipComponent) {
    forall r :: r in c.preInstallResources + c.postInstallResources ==>
      AwaitsBeforeRemoval(r) && PreconditionNeedsReplica(r)
  }

  lemma {:induction false} CatalogueKeysDistinct(keys: seq<(int, char)>)
    requires keys == [(9, 's'), (7, 'i'), (4, 'r'), (8, 'm'), (7, 't'), (4, 'c'), (6, 'l'),
                      (10, 'l'), (5, 'l'), (9, 'm'), (5, 'i'), (10, 'i'), (7, 'c')]
    ensures forall i, j :: 0 <= i < j < |keys| ==> keys[i] != keys[j]
  {
    forall i | 0 <= i < |keys| ensures CatalogueKeyPosition(keys[i]) == i { }
  }

  /** The components' release names are pairwise distinct, so each names one helm release. */
  lemma {:induction false} ReleaseNamesDistinct()
    ensures Distinct(ReleaseNames(ShipComponents))
  {
    var names := ReleaseNames(ShipComponents);
    var keys := NameKeys(names);
    assert keys == [(9, 's'), (7, 'i'), (4, 'r'), (8, 'm'), (7, 't'), (4, 'c'), (6, 'l'),
                    (10, 'l'), (5, 'l'), (9, 'm'), (5, 'i'), (10, 'i'), (7, 'c')];
    CatalogueKeysDistinct(keys);
    forall i, j | 0 <= i < j < |names| ensures names[i] != names[j] {
      assert keys[i] != keys[j];
    }
  }

  /** Every manifest of the catalogue that is not kept after its wait names the resource it
      waits for, and every set precondition needs at least one replica. */
  lemma {:induction false} CatalogueManifestsWellFormed()
    ensures forall c :: c in ShipComponents ==> WellFormedManifests(c)
  {
    ChartOnlyWellFormed();
    MetricvizWellFormed();
    InggwWellFormed();
    CertmanWellFormed();
  }

  lemma ChartOnlyWellFormed()
    ensures forall chart :: WellFormedManifests(ChartOnly(chart))
  {
  }

  lemma MetricvizWellFormed()
    ensures WellFormedManifests(Metricviz)
  {
    assert Metricviz.preInstallResources + Metricviz.postInstallResources == Metricviz.preInstallResources;
  }

  lemma InggwWellFormed()
    ensures WellFormedManifests(Inggw)
  {
    assert Inggw.preInstallResources + Inggw.postInstallResources
      == [Inggw.preInstallResources[0], Inggw.postInstallResources[0]];
  }

  lemma CertmanWellFormed()
    ensures WellFormedManifests(Certman)
  {
    assert Certman.preInstallResources + Certman.postInstallResources == Certman.postInstallResources;
  }

  /** The component's chart gives its resources the name. */
  predicate Produces(c: ShipComponent, name: string) {
    "fullnameOverride=" + name in c.chart.overrides
  }

  /** The deployment a pre-install precondition waits for is brought up by a component that
      comes earlier in the list, whose chart renames its resources to that deployment's name. */
  lemma {:induction false} PreInstallPreconditionsComeEarlier(j: nat, r: InstallResource)
    requires j < |ShipComponents| && r in ShipComponents[j].preInstallResources
    requires r.preconditionReady.resource != NoResource
    ensures exists i :: 0 <= i < j && Produces(ShipComponents[i], r.preconditionReady.resource.name)
  {
    assert j == 10 && r.preconditionReady.resource.name == "kong-postgres";
    assert "fullnameOverride=" + "kong-postgres" == "fullnameOverride=kong-postgres";
    assert ShipComponents[1] == Inggwdb;
    assert Produces(ShipComponents[1], "kong-postgres");
  }

  /** The catalogue's inggw component waits, before installing, for the kong-postgres
      deployment that the earlier inggwdb component creates. */
  lemma {:induction false} InggwWaitsForInggwdb()
    ensures ShipComponents[10].chart.releaseName == "inggw"
    ensures ShipComponents[10].preInstallResources[0].preconditionReady
      == PreconditionReadySpec(KubernetesResource("kong-postgres", "deployment", "infra"), 1)
    ensures ShipComponents[1].chart.releaseName == "inggwdb"
    ensures "fullnameOverride=kong-postgres" in ShipComponents[1].chart.overrides
  {
  }

  // ---------------------------------------------------------------------------
  // checkDependencies
  // ---------------------------------------------------------------------------

  const VersionCommand: Command := Command(HelmProgram, ["version"])

  /** How the result of `helm version` is read. */
  datatype HelmCheck = Proceed | NotInstalled | Unhealthy(output: string)

  /** A successful `helm version` lets the program go on; a failed one stops it when it
      printed nothing (helm is missing) or printed something mentioning `Error` (helm is
      unhealthy), and is ignored otherwise. */
  function ClassifyHelmVersion(reply: Reply): (check: HelmCheck)
    ensures check == Proceed <==> !reply.failed || (reply.output != [] && !Contains(reply.output, "Error"))
    ensures check == NotInstalled <==> reply.failed && reply.output == []
    ensures check.Unhealthy? ==> check.output == reply.output && Contains(reply.output, "Error")
  {
    if !reply.failed then Proceed
    else if |reply.output| == 0 then NotInstalled
    else if Contains(reply.output, "Error") then Unhealthy(reply.output)
    else Proceed
  }

  const NotInstalledMessage: string :=
    "Helm is not installed. Please see https://github.com/kubernetes/helm for instructions on how to install helm.\n"

  function UnhealthyMessage(output: string): string {
    "Helm installation is not healthy:\n\n" + output
      + "\nPlease see https://github.com/kubernetes/helm for instructions on how to install helm correctly."
  }

  /** checkDependencies: one `helm version`, then exit on a missing or unhealthy helm. */
  function CheckDependenciesRun(replies: seq<Reply>): (r: Run)
    ensures Consistent(r, replies)
    ensures replies != [] ==> r.calls == [VersionCommand]
    ensures replies != [] ==> (r.outcome == Completed <==> ClassifyHelmVersion(replies[0]) == Proceed)
  {
    if replies == [] then Run([], Unfinished)
    else
      match ClassifyHelmVersion(replies[0])
      case Proceed => Run([VersionCommand], Completed)
      case NotInstalled => Run([VersionCommand], Aborted(NotInstalledMessage))
      case Unhealthy(output) => Run([VersionCommand], Aborted(UnhealthyMessage(output)))
  }

  /** A failed `helm version` whose output is not empty and does not mention `Error` does
      not stop the program, whatever replies follow. */
  lemma {:induction false} FailureWithoutErrorWordIgnored(output: string, rest: seq<Reply>)
    requires output != [] && !Contains(output, "Error")
    ensures CheckDependenciesRun([Reply(output, true)] + rest) == Run([VersionCommand], Completed)
  {
    assert ([Reply(output, true)] + rest)[0] == Reply(output, true);
  }

  /** For instance a client that cannot reach its server and says only that. */
  lemma {:induction false} UnreachableTillerIgnored()
    ensures CheckDependenciesRun([Reply("could not find tiller", true)]).outcome == Completed
  {
    var s := "could not find tiller";
    assert !Contains(s, "Error") by {
      forall i | 0 <= i <= |s| ensures !StartsWith(s[i..], "Error") {
        assert s[i..] == [] || s[i..][0] != 'E';
      }
      NotContainsWhenNoStart(s, "Error");
    }
    FailureWithoutErrorWordIgnored(s, []);
    assert [Reply(s, true)] + [] == [Reply(s, true)];
  }

  /** An `Error` anywhere in the output of a failed check stops the program with that
      output in the message. */
  lemma {:induction false} ErrorOutputStops(before: string, after: string)
    ensures var output := before + "Error" + after;
      CheckDependenciesRun([Reply(output, true)]) == Run([VersionCommand], Aborted(UnhealthyMessage(output)))
  {
    ContainsInMiddle(before, "Error", after);
  }
}
