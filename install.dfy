/** cmd/install.go: the `install` command. It checks helm, adds the chart repository,
    installs the default charts, and then configures Grafana and Kong. Each configuration
    waits for its workload, applies a configuration pod, waits for that pod to finish and
    cleans up. The file's own copies of the helm and kubectl helpers behave exactly like the
    Helm and Kubectl members, which are used here. */
module Install {
  import opened Shell
  import opened Text
  import opened Helm
  import opened Kubectl
  import opened Components
  import opened Sequencing

  // ---------------------------------------------------------------------------
  // Stages: the steps of a command, each answered by the next replies
  // ---------------------------------------------------------------------------

  /** The three polling waits: a deployment's or a daemonset's ready count, or a pod's
      completion. */
  datatype Wait =
    | DeployReady(deployment: string, minNumberReady: int, namespace: string)
    | DaemonSetReady(daemonSet: string, minNumberReady: int, namespace: string)
    | PodCompleted(pod: string, namespace: string)

  /** The status read a wait repeats. */
  function Query(w: Wait): Command {
    match w
    case DeployReady(name, _, namespace) => ReadyQuery(name, "deploy", "readyReplicas", namespace)
    case DaemonSetReady(name, _, namespace) => ReadyQuery(name, "daemonset", "numberReady", namespace)
    case PodCompleted(pod, namespace) => PhaseQuery(pod, namespace)
  }

  /** What a wait waits for. */
  function Target(w: Wait): Goal {
    match w
    case DeployReady(_, minNumberReady, _) => ReadyCount(minNumberReady)
    case DaemonSetReady(_, minNumberReady, _) => ReadyCount(minNumberReady)
    case PodCompleted(_, _) => PodSucceeded
  }

  /** A step of the configuration functions: a polling wait, or a kubectl command whose
      failure is only printed. */
  datatype Stage =
    | Waiting(wait: Wait)
    | Logged(cmd: Command)

  function StageRun(stage: Stage, replies: seq<Reply>): (r: Run)
    ensures Consistent(r, replies)
  {
    match stage
    case Waiting(w) => PollRun(Query(w), Target(w), replies)
    case Logged(cmd) => Reported(cmd, replies)
  }

  /** One step of a configuration function, by the kubectl helper it calls. */
  method RunStage(stage: Stage, replies: seq<Reply>) returns (calls: seq<Command>, outcome: Outcome)
    ensures Run(calls, outcome) == StageRun(stage, replies)
  {
    match stage
    case Waiting(DeployReady(name, minNumberReady, namespace)) =>
      calls, outcome := WaitDeployReady(name, minNumberReady, namespace, replies);
    case Waiting(DaemonSetReady(name, minNumberReady, namespace)) =>
      calls, outcome := WaitDaemonSetReady(name, minNumberReady, namespace, replies);
    case Waiting(PodCompleted(pod, namespace)) =>
      calls, outcome := WaitPodCompleted(pod, namespace, replies);
    case Logged(cmd) =>
      var r := Reported(cmd, replies);
      calls, outcome := r.calls, r.outcome;
  }

  lemma {:induction false} StageRunSound()
    ensures Sound(StageRun)
  {
    forall stage, replies ensures Consistent(StageRun(stage, replies), replies) {
    }
  }

  /** The stages one after the other, each on the replies the previous ones left; the first
      stage that does not complete ends the run. */
  function StagesRun(stages: seq<Stage>, replies: seq<Reply>): Run {
    StageRunSound();
    Sequence(StageRun, stages, replies)
  }

  /** A step of the helm part: `helm version` as checkDependencies reads it, a command whose
      failure ends the program, or the installation of a chart list. */
  datatype HelmStage =
    | CheckHelm
    | Fatal(step: Step)
    | InstallAll(charts: seq<Chart>, domain: string)

  function HelmStageRun(stage: HelmStage, replies: seq<Reply>): (r: Run)
    ensures Consistent(r, replies)
  {
    match stage
    case CheckHelm => CheckDependenciesRun(replies)
    case Fatal(step) => Checked(step.cmd, replies, step.failure)
    case InstallAll(charts, domain) => InstallChartsRun(charts, domain, replies)
  }

  lemma {:induction false} HelmStageRunSound()
    ensures Sound(HelmStageRun)
  {
    forall stage, replies ensures Consistent(HelmStageRun(stage, replies), replies) {
    }
  }

  function HelmStagesRun(stages: seq<HelmStage>, replies: seq<Reply>): Run {
    HelmStageRunSound();
    Sequence(HelmStageRun, stages, replies)
  }

  // ---------------------------------------------------------------------------
  // The commands a completed stage list issues
  // ---------------------------------------------------------------------------

  /** A completed wait read its query at least once, and did nothing else. */
  lemma {:induction false} WaitCompleted(w: Wait, replies: seq<Reply>)
    requires StagesRun([Waiting(w)], replies).outcome == Completed
    ensures exists n: nat :: n >= 1 && StagesRun([Waiting(w)], replies).calls == Repeat(Query(w), n)
  {
    StageRunSound();
    SequenceOfOne(StageRun, Waiting(w), replies);
    PollStopsAtFirstDecisive(Query(w), Target(w), replies);
    var r := PollRun(Query(w), Target(w), replies);
    assert r.calls == Repeat(Query(w), |r.calls|);
  }

  /** The stages run one after the other until one does not complete. */
  method RunStages(stages: seq<Stage>, replies: seq<Reply>) returns (calls: seq<Command>, outcome: Outcome)
    ensures Run(calls, outcome) == StagesRun(stages, replies)
  {
    StageRunSound();
    BetweenStart(StageRun, stages, replies);
    calls, outcome := [], Completed;
    var k := 0;
    while k < |stages|
      invariant Between(StageRun, stages, k, replies, calls) && outcome == Completed
      decreases |stages| - k
    {
      var c, o := RunStage(stages[k], replies[|calls|..]);
      BetweenAdvance(StageRun, stages, k, replies, calls, Run(c, o));
      calls, outcome := calls + c, o;
      if o != Completed {
        return;
      }
      k := k + 1;
    }
    BetweenEnd(StageRun, stages, replies, calls);
  }

  /** Commands whose failures are only reported, one stage each. */
  function Logs(cmds: seq<Command>): (stages: seq<Stage>)
    ensures |stages| == |cmds| && forall k :: 0 <= k < |cmds| ==> stages[k] == Logged(cmds[k])
  {
    if cmds == [] then [] else [Logged(cmds[0])] + Logs(cmds[1..])
  }

  /** Reported commands never abort the run: given a reply each, they all go out in order. */
  lemma {:induction false} LogsRun(cmds: seq<Command>, replies: seq<Reply>)
    ensures var r := StagesRun(Logs(cmds), replies);
      && !r.outcome.Aborted?
      && (r.outcome == Completed ==> r.calls == cmds)
      && (|replies| >= |cmds| ==> r == Run(cmds, Completed))
    decreases |cmds|
  {
    if cmds != [] {
      var s := Logs(cmds);
      assert s[0] == Logged(cmds[0]) && s[1..] == Logs(cmds[1..]);
      var first := Reported(cmds[0], replies);
      LogsRun(cmds[1..], Drop(replies, |first.calls|));
      if replies != [] {
        assert [cmds[0]] + cmds[1..] == cmds;
      }
    }
  }

  // ---------------------------------------------------------------------------
  // configureGrafana and configureKong
  // ---------------------------------------------------------------------------

  /** The shape both configuration steps share: wait for a workload, create some resources,
      wait for a configuration pod to succeed, then clean up. The creates and the clean-ups
      only report their failures; a failed read aborts. */
  datatype Configuration = Configuration(
    ready: Wait, creates: seq<Command>, pod: Wait, cleanups: seq<Command>)

  function ConfigureStages(c: Configuration): seq<Stage> {
    [Waiting(c.ready)] + Logs(c.creates) + [Waiting(c.pod)] + Logs(c.cleanups)
  }

  /** The calls of a completed configuration: readiness reads, the creates in order, reads of
      the pod's phase, then the clean-ups in order. */
  ghost predicate IsConfigureTrace(c: Configuration, calls: seq<Command>) {
    exists a: nat, b: nat :: a >= 1 && b >= 1
      && calls == Repeat(Query(c.ready), a) + c.creates + Repeat(Query(c.pod), b) + c.cleanups
  }

  lemma {:induction false} ConfigureOrder(c: Configuration, replies: seq<Reply>)
    requires StagesRun(ConfigureStages(c), replies).outcome == Completed
    ensures IsConfigureTrace(c, StagesRun(ConfigureStages(c), replies).calls)
  {
    StageRunSound();
    var w1 := [Waiting(c.ready)];
    var w2 := [Waiting(c.pod)];
    var l1 := Logs(c.creates);
    var l2 := Logs(c.cleanups);
    CompletedInTwo(StageRun, w1 + l1 + w2, l2, replies);
    var r3 := StagesRun(w1 + l1 + w2, replies);
    LogsRun(c.cleanups, Drop(replies, |r3.calls|));
    CompletedInTwo(StageRun, w1 + l1, w2, replies);
    var r2 := StagesRun(w1 + l1, replies);
    WaitCompleted(c.pod, Drop(replies, |r2.calls|));
    var b: nat :| b >= 1 && StagesRun(w2, Drop(replies, |r2.calls|)).calls == Repeat(Query(c.pod), b);
    CompletedInTwo(StageRun, w1, l1, replies);
    var r1 := StagesRun(w1, replies);
    LogsRun(c.creates, Drop(replies, |r1.calls|));
    WaitCompleted(c.ready, replies);
    var a: nat :| a >= 1 && r1.calls == Repeat(Query(c.ready), a);
    assert StagesRun(ConfigureStages(c), replies).calls
      == Repeat(Query(c.ready), a) + c.creates + Repeat(Query(c.pod), b) + c.cleanups;
  }

  const Infra: string := "infra"

  /** `kubectl delete pod` of a configuration pod. */
  function DeletePodCommand(pod: string, namespace: string): Command {
    Command(KubectlProgram, ["delete", "pod", pod, "--namespace", namespace])
  }

  /** What configureGrafana works on: the deployment it waits for, the three manifests it
      creates, the configuration pod they start, and the two config maps it removes. */
  datatype GrafanaResources = GrafanaResources(
    namespace: string, deployment: string,
    datasourcesFile: string, dashboardsFile: string, podFile: string,
    pod: string, dashboardsMap: string, datasourcesMap: string)

  /** The names configureGrafana is written with. */
  const GrafanaDefaults: GrafanaResources := GrafanaResources(
    Infra, "metricviz-grafana",
    "resources/grafana/cm-grafana-datasources.yaml", "resources/grafana/cm-grafana-dashboards.yaml",
    "resources/grafana/pod-grafana-configure.yaml",
    "grafana-configure", "grafana-dashboards", "grafana-datasources")

  function DeleteConfigMapsCommand(g: GrafanaResources): Command {
    Command(KubectlProgram, ["delete", "configmap", g.dashboardsMap, g.datasourcesMap, "--namespace", g.namespace])
  }

  function GrafanaConfiguration(g: GrafanaResources): Configuration {
    Configuration(
      DeployReady(g.deployment, 1, g.namespace),
      [CreateCommand(g.datasourcesFile, g.namespace),
       CreateCommand(g.dashboardsFile, g.namespace),
       CreateCommand(g.podFile, g.namespace)],
      PodCompleted(g.pod, g.namespace),
      [DeletePodCommand(g.pod, g.namespace), DeleteConfigMapsCommand(g)])
  }

  /** The steps of configureGrafana, one per statement. */
  function GrafanaStages(g: GrafanaResources): seq<Stage> {
    [Waiting(DeployReady(g.deployment, 1, g.namespace)),
     Logged(CreateCommand(g.datasourcesFile, g.namespace)),
     Logged(CreateCommand(g.dashboardsFile, g.namespace)),
     Logged(CreateCommand(g.podFile, g.namespace)),
     Waiting(PodCompleted(g.pod, g.namespace)),
     Logged(DeletePodCommand(g.pod, g.namespace)),
     Logged(DeleteConfigMapsCommand(g))]
  }

  /** What configureKong works on: the daemonset it waits for, the manifest of the
      configuration pod, and that pod. */
  datatype KongResources = KongResources(namespace: string, daemonSet: string, podFile: string, pod: string)

  /** The names configureKong is written with. */
  const KongDefaults: KongResources :=
    KongResources(Infra, "inggw-kong", "resources/kong/pod-kong-configure.yaml", "kong-configure")

  function KongConfiguration(k: KongResources): Configuration {
    Configuration(
      DaemonSetReady(k.daemonSet, 1, k.namespace),
      [CreateCommand(k.podFile, k.namespace)],
      PodCompleted(k.pod, k.namespace),
      [DeletePodCommand(k.pod, k.namespace)])
  }

  /** The steps of configureKong, one per statement. */
  function KongStages(k: KongResources): seq<Stage> {
    [Waiting(DaemonSetReady(k.daemonSet, 1, k.namespace)),
     Logged(CreateCommand(k.podFile, k.namespace)),
     Waiting(PodCompleted(k.pod, k.namespace)),
     Logged(DeletePodCommand(k.pod, k.namespace))]
  }

  /** The Grafana steps are those of its configuration. */
  lemma {:induction false} GrafanaStagesShape(g: GrafanaResources)
    ensures GrafanaStages(g) == ConfigureStages(GrafanaConfiguration(g))
  {
    var c := GrafanaConfiguration(g);
    var stages := GrafanaStages(g);
    assert Logs(c.creates) == stages[1..4];
    assert Logs(c.cleanups) == stages[5..];
  }

  lemma {:induction false} KongStagesShape(k: KongResources)
    ensures KongStages(k) == ConfigureStages(KongConfiguration(k))
  {
    var c := KongConfiguration(k);
    var stages := KongStages(k);
    assert Logs(c.creates) == stages[1..2];
    assert Logs(c.cleanups) == stages[3..];
  }

  /** configureGrafana, on the resources it names: its statements in order. */
  method ConfigureGrafana(g: GrafanaResources, replies: seq<Reply>) returns (calls: seq<Command>, outcome: Outcome)
    ensures Run(calls, outcome) == StagesRun(GrafanaStages(g), replies)
  {
    calls, outcome := RunStages(GrafanaStages(g), replies);
  }

  /** configureKong, on the resources it names: its statements in order. */
  method ConfigureKong(k: KongResources, replies: seq<Reply>) returns (calls: seq<Command>, outcome: Outcome)
    ensures Run(calls, outcome) == StagesRun(KongStages(k), replies)
  {
    calls, outcome := RunStages(KongStages(k), replies);
  }

  /** A completed configureGrafana: readiness reads of the Grafana deployment, the three
      creates in order, reads of the configuration pod's phase, then the pod's and the two
      config maps' removal. */
  lemma {:induction false} GrafanaOrder(g: GrafanaResources, replies: seq<Reply>)
    requires StagesRun(GrafanaStages(g), replies).outcome == Completed
    ensures IsConfigureTrace(GrafanaConfiguration(g), StagesRun(GrafanaStages(g), replies).calls)
  {
    GrafanaStagesShape(g);
    ConfigureOrder(GrafanaConfiguration(g), replies);
  }

  /** A completed configureKong: readiness reads of the Kong daemonset, the create of the
      configuration pod, reads of its phase, then its removal. */
  lemma {:induction false} KongOrder(k: KongResources, replies: seq<Reply>)
    requires StagesRun(KongStages(k), replies).outcome == Completed
    ensures IsConfigureTrace(KongConfiguration(k), StagesRun(KongStages(k), replies).calls)
  {
    KongStagesShape(k);
    ConfigureOrder(KongConfiguration(k), replies);
  }

  // ---------------------------------------------------------------------------
  // The install command
  // ---------------------------------------------------------------------------

  const DefaultCharts: seq<Chart> := [
    Chart("sprinthive-dev-charts/kong-cassandra", Infra, "inggwdb", ["clusterProfile=local"], ""),
    Chart("sprinthive-dev-charts/nexus", Infra, "repo", [], ""),
    Chart("sprinthive-dev-charts/prometheus", Infra, "metricdb", [], ""),
    Chart("sprinthive-dev-charts/zipkin", Infra, "tracing",
      ["ingress.enabled=true", "ingress.host=zipkin.${domain}", "ingress.class=kong", "ingress.path=/"], ""),
    Chart("sprinthive-dev-charts/jenkins", Infra, "cicd", ["Master.HostName=jenkins.${domain}"], ""),
    Chart("sprinthive-dev-charts/kibana", Infra, "logviz",
      ["ingress.enabled=true", "ingress.host=kibana.${domain}", "ingress.class=kong", "ingress.path=/"], ""),
    Chart("sprinthive-dev-charts/fluent-bit", Infra, "logcollect", [], ""),
    Chart("sprinthive-dev-charts/elasticsearch", Infra, "logdb", ["ClusterProfile=local"], ""),
    Chart("stable/grafana", Infra, "metricviz",
      ["server.ingress.enabled=true", "server.ingress.hosts={grafana.${domain}}"], "resources/grafana/values.yaml"),
    Chart("sprinthive-dev-charts/kong", Infra, "inggw", ["clusterProfile=local", "HostPort=true"], ""),
    Chart("sprinthive-dev-charts/kong-ingress-controller", Infra, "ingcontrol", [], "")]

  /** checkDependencies, installChartRepo and installCharts of a chart list. */
  function HelmStages(charts: seq<Chart>, domain: string): seq<HelmStage> {
    [CheckHelm, Fatal(Step(RepoAddCommand, RepoAddFailure)), InstallAll(charts, domain)]
  }

  /** What the install command is written with: the charts it installs and the resources
      the two configuration steps work on. */
  datatype Setup = Setup(charts: seq<Chart>, grafana: GrafanaResources, kong: KongResources)

  const DefaultSetup: Setup := Setup(DefaultCharts, GrafanaDefaults, KongDefaults)

  /** The install command: the helm part, then configureGrafana and configureKong, each on
      the replies the previous part left; a part that does not complete ends the command. */
  function InstallRun(setup: Setup, domain: string, replies: seq<Reply>): Run {
    var helm := HelmStagesRun(HelmStages(setup.charts, domain), replies);
    var grafana := StagesRun(GrafanaStages(setup.grafana), Drop(replies, |helm.calls|));
    var kong := StagesRun(KongStages(setup.kong), Drop(replies, |helm.calls| + |grafana.calls|));
    Then(helm, Then(grafana, kong))
  }

  /** The helm part of the install command: checkDependencies, installChartRepo and
      installCharts. */
  method InstallHelm(charts: seq<Chart>, domain: string, replies: seq<Reply>)
    returns (calls: seq<Command>, outcome: Outcome)
    ensures Run(calls, outcome) == HelmStagesRun(HelmStages(charts, domain), replies)
  {
    HelmStageRunSound();
    ghost var stages := HelmStages(charts, domain);
    BetweenStart(HelmStageRun, stages, replies);
    calls := [];
    var r := CheckDependenciesRun(replies);
    BetweenAdvance(HelmStageRun, stages, 0, replies, calls, r);
    calls, outcome := calls + r.calls, r.outcome;
    if outcome != Completed { return; }
    r := InstallChartRepoRun(replies[|calls|..]);
    BetweenAdvance(HelmStageRun, stages, 1, replies, calls, r);
    calls, outcome := calls + r.calls, r.outcome;
    if outcome != Completed { return; }
    var c, o := InstallCharts(charts, domain, replies[|calls|..]);
    BetweenAdvance(HelmStageRun, stages, 2, replies, calls, Run(c, o));
    calls, outcome := calls + c, o;
    if outcome != Completed { return; }
    BetweenEnd(HelmStageRun, stages, replies, calls);
  }

  /** The install command's Run function, after the domain flag was read, with what it is
      written with (DefaultSetup in the command) as a parameter. */
  method InstallCommand(setup: Setup, domain: string, replies: seq<Reply>)
    returns (calls: seq<Command>, outcome: Outcome)
    ensures Run(calls, outcome) == InstallRun(setup, domain, replies)
  {
    var c1, o1 := InstallHelm(setup.charts, domain, replies);
    calls, outcome := c1, o1;
    if o1 == Completed {
      var c2, o2 := ConfigureGrafana(setup.grafana, Drop(replies, |c1|));
      calls, outcome := calls + c2, o2;
      if o2 == Completed {
        var c3, o3 := ConfigureKong(setup.kong, Drop(replies, |c1| + |c2|));
        calls, outcome := calls + c3, o3;
        assert c1 + (c2 + c3) == calls;
      }
    }
  }

  /** The helm part of a completed install: `helm version`, the repository add, then one
      install per chart in list order. */
  lemma {:induction false} HelmOrder(charts: seq<Chart>, domain: string, replies: seq<Reply>)
    requires HelmStagesRun(HelmStages(charts, domain), replies).outcome == Completed
    ensures HelmStagesRun(HelmStages(charts, domain), replies).calls
      == [VersionCommand, RepoAddCommand] + InstallCommands(charts, domain)
  {
    HelmStageRunSound();
    var check := [CheckHelm];
    var repo := [Fatal(Step(RepoAddCommand, RepoAddFailure))];
    var install := [InstallAll(charts, domain)];
    assert HelmStages(charts, domain) == check + repo + install;
    CompletedInTwo(HelmStageRun, check + repo, install, replies);
    var r2 := HelmStagesRun(check + repo, replies);
    CompletedInTwo(HelmStageRun, check, repo, replies);
    var r1 := HelmStagesRun(check, replies);
    SequenceOfOne(HelmStageRun, CheckHelm, replies);
    SequenceOfOne(HelmStageRun, repo[0], Drop(replies, |r1.calls|));
    SequenceOfOne(HelmStageRun, install[0], Drop(replies, |r2.calls|));
    InstallChartsInOrder(charts, domain, Drop(replies, |r2.calls|));
    assert r2.calls == [VersionCommand, RepoAddCommand];
  }

  /** A completed install completed each of its three parts, and issued their calls one
      after the other. */
  lemma {:induction false} InstallRunCompleted(setup: Setup, domain: string, replies: seq<Reply>)
    requires InstallRun(setup, domain, replies).outcome == Completed
    ensures var helm := HelmStagesRun(HelmStages(setup.charts, domain), replies);
      var grafana := StagesRun(GrafanaStages(setup.grafana), Drop(replies, |helm.calls|));
      var kong := StagesRun(KongStages(setup.kong), Drop(replies, |helm.calls| + |grafana.calls|));
      && helm.outcome == Completed && grafana.outcome == Completed && kong.outcome == Completed
      && InstallRun(setup, domain, replies).calls == helm.calls + grafana.calls + kong.calls
  {
    var helm := HelmStagesRun(HelmStages(setup.charts, domain), replies);
    var grafana := StagesRun(GrafanaStages(setup.grafana), Drop(replies, |helm.calls|));
    var kong := StagesRun(KongStages(setup.kong), Drop(replies, |helm.calls| + |grafana.calls|));
    ThenCompleted(helm, Then(grafana, kong));
    ThenCompleted(grafana, kong);
    assert helm.calls + (grafana.calls + kong.calls) == helm.calls + grafana.calls + kong.calls;
  }

  /** A completed install issues, in order: `helm version`, the repository add, one install
      per chart in list order, then the Grafana and the Kong configuration. */
  lemma {:induction false} InstallOrder(setup: Setup, domain: string, replies: seq<Reply>)
    requires InstallRun(setup, domain, replies).outcome == Completed
    ensures exists grafana, kong ::
      InstallRun(setup, domain, replies).calls
        == [VersionCommand, RepoAddCommand] + InstallCommands(setup.charts, domain) + grafana + kong
      && IsConfigureTrace(GrafanaConfiguration(setup.grafana), grafana)
      && IsConfigureTrace(KongConfiguration(setup.kong), kong)
  {
    var helm := HelmStagesRun(HelmStages(setup.charts, domain), replies);
    var grafana := StagesRun(GrafanaStages(setup.grafana), Drop(replies, |helm.calls|));
    var kong := StagesRun(KongStages(setup.kong), Drop(replies, |helm.calls| + |grafana.calls|));
    InstallRunCompleted(setup, domain, replies);
    HelmOrder(setup.charts, domain, replies);
    GrafanaOrder(setup.grafana, Drop(replies, |helm.calls|));
    KongOrder(setup.kong, Drop(replies, |helm.calls| + |grafana.calls|));
    assert InstallRun(setup, domain, replies).calls
      == [VersionCommand, RepoAddCommand] + InstallCommands(setup.charts, domain) + grafana.calls + kong.calls;
  }

  /** Every stage of the helm part runs helm only, provided its fatal commands are helm
      commands. */
  lemma {:induction false} HelmStageUsesHelm(stage: HelmStage, replies: seq<Reply>)
    requires stage.Fatal? ==> stage.step.cmd.program == HelmProgram
    ensures forall c :: c in HelmStageRun(stage, replies).calls ==> c.program == HelmProgram
  {
    if stage.InstallAll? {
      InstallChartsInOrder(stage.charts, stage.domain, replies);
    }
  }

  /** The helm part issues helm commands only. */
  lemma {:induction false} HelmPartUsesHelm(charts: seq<Chart>, domain: string, replies: seq<Reply>)
    ensures forall c :: c in HelmStagesRun(HelmStages(charts, domain), replies).calls ==> c.program == HelmProgram
  {
    var stages := HelmStages(charts, domain);
    forall i, rs, c | 0 <= i < |stages| && c in HelmStageRun(stages[i], rs).calls
      ensures c.program == HelmProgram
    {
      HelmStageUsesHelm(stages[i], rs);
    }
    HelmStageRunSound();
    SequenceUsesOnly(HelmStageRun, stages, replies, HelmProgram);
  }

  /** Until the charts are installed, only helm runs: when checkDependencies, the repository
      add or a chart install stops the command, the command's run is the helm part's, so no
      kubectl command was issued. */
  lemma {:induction false} HelmFailureStopsInstall(setup: Setup, domain: string, replies: seq<Reply>)
    requires HelmStagesRun(HelmStages(setup.charts, domain), replies).outcome != Completed
    ensures InstallRun(setup, domain, replies) == HelmStagesRun(HelmStages(setup.charts, domain), replies)
  {
  }

  /** A helm that is missing stops the install after `helm version` alone. */
  lemma {:induction false} MissingHelmStopsInstall(setup: Setup, domain: string, replies: seq<Reply>)
    requires replies != [] && replies[0] == Reply("", true)
    ensures InstallRun(setup, domain, replies) == Run([VersionCommand], Aborted(NotInstalledMessage))
  {
    HelmStageRunSound();
    FirstStepStops(HelmStageRun, HelmStages(setup.charts, domain), replies);
  }
}
