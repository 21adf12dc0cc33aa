/** pkg/helm/helm.go: installing charts with helm, listing the installed releases and
    removing the releases that belong to a list of charts. cmd/install.go repeats
    `installCharts` line for line and uses these members as well. */
module Helm {
  import opened Shell
  import opened Text

  const HelmProgram: string := "helm"

  /** The placeholder in an override that is replaced by the domain at install time. */
  const DomainToken: string := "${domain}"

  /** A helm chart to install: where it comes from, where it goes, under which release
      name, with which `--set` overrides and optional values file ("" for none). */
  datatype Chart = Chart(
    chartPath: string,
    namespace: string,
    releaseName: string,
    overrides: seq<string>,
    valuesPath: string)

  // ---------------------------------------------------------------------------
  // Installing
  // ---------------------------------------------------------------------------

  /** The override as passed to helm: every `${domain}` replaced by the domain. */
  function Substituted(override: string, domain: string): string {
    ReplaceAll(override, DomainToken, domain)
  }

  /** One `--set` pair per override, in the overrides' order. */
  function SetFlags(overrides: seq<string>, domain: string): seq<string> {
    if overrides == [] then []
    else
      SetFlags(overrides[..|overrides| - 1], domain)
        + ["--set", Substituted(overrides[|overrides| - 1], domain)]
  }

  /** The k-th override becomes the k-th `--set` pair, with the domain substituted. */
  lemma {:induction false} SetFlagsLayout(overrides: seq<string>, domain: string)
    ensures var flags := SetFlags(overrides, domain);
      && |flags| == 2 * |overrides|
      && forall k :: 0 <= k < |overrides| ==>
           flags[2 * k] == "--set" && flags[2 * k + 1] == Substituted(overrides[k], domain)
    decreases |overrides|
  {
    if overrides != [] {
      var init := overrides[..|overrides| - 1];
      SetFlagsLayout(init, domain);
      forall k | 0 <= k < |init| ensures overrides[k] == init[k] { }
    }
  }

  /** The fixed head of every install argument list. */
  function InstallPrefix(chart: Chart): seq<string> {
    ["install", chart.chartPath, "-n", chart.releaseName, "--namespace", chart.namespace]
  }

  /** The arguments of `helm install` for a chart. */
  function InstallArgs(chart: Chart, domain: string): seq<string> {
    InstallPrefix(chart) + SetFlags(chart.overrides, domain)
      + (if chart.valuesPath != "" then ["--values", chart.valuesPath] else [])
  }

  /** The install arguments are the fixed head, one `--set` pair per override in order,
      and, last and only for a non-empty values path, `--values` with that path. */
  lemma {:induction false} InstallArgsLayout(chart: Chart, domain: string)
    ensures var args := InstallArgs(chart, domain);
      && |args| == 6 + 2 * |chart.overrides| + (if chart.valuesPath != "" then 2 else 0)
      && args[..6] == InstallPrefix(chart)
      && (forall k :: 0 <= k < |chart.overrides| ==>
            args[6 + 2 * k] == "--set" && args[7 + 2 * k] == Substituted(chart.overrides[k], domain))
      && (chart.valuesPath != "" ==> args[|args| - 2..] == ["--values", chart.valuesPath])
  {
    SetFlagsLayout(chart.overrides, domain);
    var args := InstallArgs(chart, domain);
    var flags := SetFlags(chart.overrides, domain);
    forall k | 0 <= k < |chart.overrides|
      ensures args[6 + 2 * k] == "--set" && args[7 + 2 * k] == Substituted(chart.overrides[k], domain)
    {
      assert args[6 + 2 * k] == flags[2 * k] && args[7 + 2 * k] == flags[2 * k + 1];
    }
  }

  /** An override without the placeholder reaches helm unchanged. */
  lemma {:induction false} OverrideWithoutTokenUnchanged(override: string, domain: string)
    requires !Contains(override, DomainToken)
    ensures Substituted(override, domain) == override
  {
    ReplaceAllWithoutToken(override, DomainToken, domain);
  }

  /** A placeholder after text without `$`, followed by text without a placeholder, reaches
      helm with the domain in its place and the text around it unchanged. */
  lemma {:induction false} PlaceholderReplaced(prefix: string, suffix: string, domain: string)
    requires '$' !in prefix && !Contains(suffix, DomainToken)
    ensures Substituted(prefix + DomainToken + suffix, domain) == prefix + domain + suffix
  {
    ReplaceAllCopiesPlainPrefix(prefix, DomainToken + suffix, DomainToken, domain);
    ReplaceAllAtToken(suffix, DomainToken, domain);
    ReplaceAllWithoutToken(suffix, DomainToken, domain);
    assert prefix + DomainToken + suffix == prefix + (DomainToken + suffix);
  }

  /** The Grafana host override of the default charts. */
  lemma {:induction false} GrafanaHostSubstituted(domain: string)
    ensures Substituted("server.ingress.hosts={grafana.${domain}}", domain)
      == "server.ingress.hosts={grafana." + domain + "}"
  {
    assert !Contains("}", DomainToken) by {
      NotContainsWhenNoStart("}", DomainToken);
    }
    PlaceholderReplaced("server.ingress.hosts={grafana.", "}", domain);
    assert "server.ingress.hosts={grafana." + DomainToken + "}" == "server.ingress.hosts={grafana.${domain}}";
  }

  /** Builds the install arguments by appending, as InstallCharts does. */
  method BuildInstallArgs(chart: Chart, domain: string) returns (args: seq<string>)
    ensures args == InstallArgs(chart, domain)
  {
    args := ["install", chart.chartPath, "-n", chart.releaseName, "--namespace", chart.namespace];
    for i := 0 to |chart.overrides|
      invariant args == InstallPrefix(chart) + SetFlags(chart.overrides[..i], domain)
    {
      assert chart.overrides[..i + 1][..i] == chart.overrides[..i];
      args := args + ["--set", ReplaceAll(chart.overrides[i], DomainToken, domain)];
    }
    assert chart.overrides[..|chart.overrides|] == chart.overrides;
    if chart.valuesPath != "" {
      args := args + ["--values", chart.valuesPath];
    }
  }

  function InstallCommand(chart: Chart, domain: string): Command {
    Command(HelmProgram, InstallArgs(chart, domain))
  }

  const InstallFailure: string := "Failed to install chart: "

  /** One fatal `helm install` per chart, in list order. */
  function InstallSteps(charts: seq<Chart>, domain: string): (steps: seq<Step>)
    ensures |steps| == |charts|
    ensures forall k :: 0 <= k < |charts| ==>
      steps[k] == Step(InstallCommand(charts[k], domain), InstallFailure)
  {
    if charts == [] then []
    else [Step(InstallCommand(charts[0], domain), InstallFailure)] + InstallSteps(charts[1..], domain)
  }

  /** The install commands of a chart list, in order. */
  function InstallCommands(charts: seq<Chart>, domain: string): (cmds: seq<Command>)
    ensures |cmds| == |charts|
    ensures forall k :: 0 <= k < |charts| ==> cmds[k] == InstallCommand(charts[k], domain)
  {
    if charts == [] then [] else [InstallCommand(charts[0], domain)] + InstallCommands(charts[1..], domain)
  }

  /** Installs the charts one after the other; the first failed install panics. */
  function InstallChartsRun(charts: seq<Chart>, domain: string, replies: seq<Reply>): Run {
    CheckedSteps(InstallSteps(charts, domain), replies)
  }

  /** Charts are installed in list order, each with its own argument list; a failed install
      is always the last command issued, and the run completes exactly when every chart was
      installed without failure. */
  lemma {:induction false} InstallChartsInOrder(charts: seq<Chart>, domain: string, replies: seq<Reply>)
    ensures var r := InstallChartsRun(charts, domain, replies);
      && Consistent(r, replies)
      && |r.calls| <= |charts|
      && (forall k :: 0 <= k < |r.calls| ==> r.calls[k] == InstallCommand(charts[k], domain))
      && (forall k :: 0 <= k < |r.calls| ==>
            (replies[k].failed <==> k == |r.calls| - 1 && r.outcome.Aborted?))
      && (r.outcome == Completed <==>
            |r.calls| == |charts| && forall k :: 0 <= k < |charts| ==> !replies[k].failed)
      && (r.outcome.Aborted? ==> r.outcome.message == InstallFailure + replies[|r.calls| - 1].output)
  {
    CheckedStepsInOrder(InstallSteps(charts, domain), replies);
  }

  /** InstallCharts (pkg/helm/helm.go) and installCharts (cmd/install.go). */
  method InstallCharts(charts: seq<Chart>, domain: string, replies: seq<Reply>)
    returns (calls: seq<Command>, outcome: Outcome)
    ensures Run(calls, outcome) == InstallChartsRun(charts, domain, replies)
  {
    ghost var steps := InstallSteps(charts, domain);
    calls := [];
    var i := 0;
    assert steps[0..] == steps && replies[0..] == replies;
    while i < |charts|
      invariant 0 <= i <= |charts| && i <= |replies| && |calls| == i
      invariant InstallChartsRun(charts, domain, replies)
        == Then(Run(calls, Completed), CheckedSteps(steps[i..], replies[i..]))
    {
      var args := BuildInstallArgs(charts[i], domain);
      if i == |replies| {
        return calls, Unfinished;
      }
      CheckedStepsAt(steps, i, replies);
      var reply := replies[i];
      calls := calls + [Command(HelmProgram, args)];
      if reply.failed {
        return calls, Aborted(InstallFailure + reply.output);
      }
      ThenExtend(calls[..i], steps[i].cmd, CheckedSteps(steps[i + 1..], replies[i + 1..]));
      assert calls == calls[..i] + [steps[i].cmd];
      i := i + 1;
    }
    outcome := Completed;
  }

  /** The chart repository every install depends on. */
  const RepoAddCommand: Command := Command(HelmProgram,
    ["repo", "add", "sprinthive-dev-charts", "https://s3.eu-west-2.amazonaws.com/sprinthive-dev-charts"])

  const RepoAddFailure: string := "Failed to install sprinthive charts: "

  /** InstallChartRepo: adding the repository once; a failure exits the process. */
  function InstallChartRepoRun(replies: seq<Reply>): (r: Run)
    ensures Consistent(r, replies)
    ensures replies != [] ==> r.calls == [RepoAddCommand]
    ensures replies != [] ==> (r.outcome == Completed <==> !replies[0].failed)
    ensures r.outcome.Aborted? ==> replies != [] && r.outcome.message == RepoAddFailure + replies[0].output
  {
    Checked(RepoAddCommand, replies, RepoAddFailure)
  }

  // ---------------------------------------------------------------------------
  // Listing releases
  // ---------------------------------------------------------------------------

  const ListCommand: Command := Command(HelmProgram, ["list", "-q"])

  /** The characters trimmed from both ends of the listing. */
  const ListingCutset: set<char> := {'"', ' '}

  /** The release names in the output of `helm list -q`: trimmed, split into lines, and the
      last line dropped. A split always yields a line, so the drop never underflows. */
  function ParseReleases(output: string): (releases: seq<string>)
    ensures |releases| + 1 == |Split(Trim(output, ListingCutset), "\n")|
    ensures releases == Split(Trim(output, ListingCutset), "\n")[..|releases|]
  {
    var lines := Split(Trim(output, ListingCutset), "\n");
    lines[..|lines| - 1]
  }

  /** What `helm list -q` prints for a list of releases: each name on its own line. */
  function Listing(names: seq<string>): string {
    if names == [] then [] else names[0] + "\n" + Listing(names[1..])
  }

  lemma {:induction false} SplitListing(names: seq<string>)
    requires forall i :: 0 <= i < |names| ==> '\n' !in names[i]
    ensures Split(Listing(names), "\n") == names + [[]]
    decreases |names|
  {
    if names != [] {
      SplitListing(names[1..]);
      SplitAtFirst(names[0], "\n", Listing(names[1..]));
      assert names == [names[0]] + names[1..];
    }
  }

  /** Trimming leaves such a listing as it is: it ends with a line break and starts with a
      character outside the cutset. */
  lemma {:induction false} ListingUntrimmed(names: seq<string>)
    requires names != [] && names[0] != [] ==> names[0][0] !in ListingCutset
    ensures Trim(Listing(names), ListingCutset) == Listing(names)
  {
    var out := Listing(names);
    if names != [] {
      ListingEndsWithNewline(names);
      assert out == names[0] + "\n" + Listing(names[1..]);
      assert out[0] !in ListingCutset by {
        if names[0] == [] {
          assert out[0] == '\n';
        } else {
          assert out[0] == names[0][0];
        }
      }
    }
    TrimLeftKeeps(out, ListingCutset);
    TrimRightKeeps(out, ListingCutset);
  }

  /** Parsing the listing gives back the release names, in order, provided no name holds a
      line break and the listing does not start with a trimmed character. */
  lemma {:induction false} ParseListing(names: seq<string>)
    requires forall i :: 0 <= i < |names| ==> '\n' !in names[i]
    requires names != [] && names[0] != [] ==> names[0][0] !in ListingCutset
    ensures ParseReleases(Listing(names)) == names
  {
    var out := Listing(names);
    ListingUntrimmed(names);
    SplitListing(names);
    var lines := Split(out, "\n");
    assert Split(Trim(out, ListingCutset), "\n") == lines;
    assert (names + [[]])[..|names|] == names;
  }

  lemma {:induction false} ListingEndsWithNewline(names: seq<string>)
    requires names != []
    ensures |Listing(names)| > 0 && Listing(names)[|Listing(names)| - 1] == '\n'
    decreases |names|
  {
    if |names| > 1 {
      ListingEndsWithNewline(names[1..]);
    }
  }

  /** GetHelmReleases: a failed listing panics. */
  function ReleasesRun(replies: seq<Reply>): (r: Run)
    ensures Consistent(r, replies)
  {
    Checked(ListCommand, replies, "Failed to remove charts: ")
  }

  method GetHelmReleases(replies: seq<Reply>)
    returns (calls: seq<Command>, outcome: Outcome, releases: seq<string>)
    ensures Run(calls, outcome) == ReleasesRun(replies)
    ensures outcome == Completed ==> releases == ParseReleases(replies[0].output)
  {
    if replies == [] {
      return [], Unfinished, [];
    }
    calls := [ListCommand];
    if replies[0].failed {
      return calls, Aborted("Failed to remove charts: " + replies[0].output), [];
    }
    var lines := Split(Trim(replies[0].output, ListingCutset), "\n");
    releases := lines[..|lines| - 1];
    outcome := Completed;
  }

  // ---------------------------------------------------------------------------
  // Removing releases
  // ---------------------------------------------------------------------------

  function RemoveCommand(releaseName: string): Command {
    Command(HelmProgram, ["delete", "--purge", releaseName])
  }

  /** The release names of the charts that are installed, in chart-list order. */
  function RemovalTargets(charts: seq<Chart>, installed: set<string>): (names: seq<string>)
    ensures |names| <= |charts|
  {
    if charts == [] then []
    else
      (if charts[0].releaseName in installed then [charts[0].releaseName] else [])
        + RemovalTargets(charts[1..], installed)
  }

  /** One chart further along the list. */
  lemma {:induction false} RemovalTargetsStep(charts: seq<Chart>, i: nat, installed: set<string>)
    requires i < |charts|
    ensures RemovalTargets(charts[i..], installed)
      == (if charts[i].releaseName in installed then [charts[i].releaseName] else [])
        + RemovalTargets(charts[i + 1..], installed)
  {
    assert charts[i..][1..] == charts[i + 1..];
  }

  /** Every target is an installed release of some chart, and a chart's release is a target
      exactly when it is installed. */
  lemma {:induction false} RemovalTargetsMembers(charts: seq<Chart>, installed: set<string>)
    ensures var names := RemovalTargets(charts, installed);
      && (forall n :: n in names ==> n in installed)
      && (forall c :: c in charts ==> (c.releaseName in names <==> c.releaseName in installed))
      && (forall n :: n in names ==> exists c :: c in charts && c.releaseName == n)
    decreases |charts|
  {
    if charts != [] {
      RemovalTargetsMembers(charts[1..], installed);
      assert forall c :: c in charts ==> c == charts[0] || c in charts[1..];
    }
  }

  /** Selection keeps chart order: the targets of a list of charts are the targets of its
      first part followed by those of its second part. */
  lemma {:induction false} RemovalTargetsKeepOrder(front: seq<Chart>, back: seq<Chart>, installed: set<string>)
    ensures RemovalTargets(front + back, installed)
      == RemovalTargets(front, installed) + RemovalTargets(back, installed)
    decreases |front|
  {
    if front != [] {
      assert (front + back)[1..] == front[1..] + back;
      RemovalTargetsKeepOrder(front[1..], back, installed);
    } else {
      assert front + back == back;
    }
  }

  function RemoveFailure(releaseName: string): string {
    "Failed to remove helm release '" + releaseName + "': "
  }

  /** One fatal `helm delete --purge` per name, in order. */
  function RemovalSteps(names: seq<string>): (steps: seq<Step>)
    ensures |steps| == |names|
    ensures forall k :: 0 <= k < |names| ==>
      steps[k] == Step(RemoveCommand(names[k]), RemoveFailure(names[k]))
  {
    if names == [] then []
    else [Step(RemoveCommand(names[0]), RemoveFailure(names[0]))] + RemovalSteps(names[1..])
  }

  /** The set of names a listing holds (the source's currentReleasesMap). */
  function ReleaseSet(releases: seq<string>): set<string> {
    set r | r in releases
  }

  /** RemoveReleases: list the releases once, then remove the installed charts' releases. */
  function RemoveReleasesRun(charts: seq<Chart>, replies: seq<Reply>): (r: Run)
    ensures Consistent(r, replies)
  {
    var listing := ReleasesRun(replies);
    if !listing.outcome.Completed? then listing
    else
      var installed := ReleaseSet(ParseReleases(replies[0].output));
      var next := CheckedSteps(RemovalSteps(RemovalTargets(charts, installed)), replies[1..]);
      ThenConsistent(listing, next, replies);
      Then(listing, next)
  }

  /** After a successful listing, the run lists once and then removes exactly one release per
      installed chart, in chart order, stopping at the first failed removal with its message. */
  lemma {:induction false} RemovalsInOrder(charts: seq<Chart>, replies: seq<Reply>)
    requires replies != [] && !replies[0].failed
    ensures var r := RemoveReleasesRun(charts, replies);
      var names := RemovalTargets(charts, ReleaseSet(ParseReleases(replies[0].output)));
      && 1 <= |r.calls| <= 1 + |names|
      && r.calls[0] == ListCommand
      && (forall k :: 0 < k < |r.calls| ==> r.calls[k] == RemoveCommand(names[k - 1]))
      && (r.outcome == Completed <==>
            |r.calls| == 1 + |names| && forall k :: 0 < k <= |names| ==> !replies[k].failed)
      && (r.outcome.Aborted? ==>
            r.outcome.message == RemoveFailure(names[|r.calls| - 2]) + replies[|r.calls| - 1].output)
  {
    var names := RemovalTargets(charts, ReleaseSet(ParseReleases(replies[0].output)));
    var rest := CheckedSteps(RemovalSteps(names), replies[1..]);
    CheckedStepsInOrder(RemovalSteps(names), replies[1..]);
    var r := RemoveReleasesRun(charts, replies);
    assert r == Run([ListCommand] + rest.calls, rest.outcome);
    forall k | 0 < k < |r.calls| ensures r.calls[k] == RemoveCommand(names[k - 1]) {
      assert r.calls[k] == rest.calls[k - 1];
    }
    if r.outcome == Completed {
      forall k | 0 < k <= |names| ensures !replies[k].failed {
        assert replies[k] == replies[1..][k - 1];
      }
    }
    if |r.calls| == 1 + |names| && forall k :: 0 < k <= |names| ==> !replies[k].failed {
      forall k | 0 <= k < |names| ensures !replies[1..][k].failed {
        assert replies[1..][k] == replies[k + 1];
      }
    }
  }

  /** A chart whose release is not installed is never removed, and a completed removal run
      removed every installed chart's release. */
  lemma {:induction false} RemoveOnlyInstalled(charts: seq<Chart>, replies: seq<Reply>, c: Chart)
    requires c in charts
    requires replies != [] && !replies[0].failed
    ensures var r := RemoveReleasesRun(charts, replies);
      var installed := ReleaseSet(ParseReleases(replies[0].output));
      && (c.releaseName !in installed ==> RemoveCommand(c.releaseName) !in r.calls)
      && (r.outcome == Completed && c.releaseName in installed ==> RemoveCommand(c.releaseName) in r.calls)
  {
    if c.releaseName in ReleaseSet(ParseReleases(replies[0].output)) {
      InstalledRemoved(charts, replies, c);
    } else {
      NotInstalledNotRemoved(charts, replies, c.releaseName);
    }
  }

  lemma {:induction false} NotInstalledNotRemoved(charts: seq<Chart>, replies: seq<Reply>, name: string)
    requires replies != [] && !replies[0].failed
    requires name !in ReleaseSet(ParseReleases(replies[0].output))
    ensures RemoveCommand(name) !in RemoveReleasesRun(charts, replies).calls
  {
    var installed := ReleaseSet(ParseReleases(replies[0].output));
    var names := RemovalTargets(charts, installed);
    var r := RemoveReleasesRun(charts, replies);
    RemovalsInOrder(charts, replies);
    RemovalTargetsInstalled(charts, installed);
    forall k | 0 <= k < |r.calls| ensures r.calls[k] != RemoveCommand(name) {
      if k > 0 {
        assert r.calls[k].args[2] == names[k - 1] && names[k - 1] in installed;
      }
    }
  }

  /** Every target is installed. */
  lemma {:induction false} RemovalTargetsInstalled(charts: seq<Chart>, installed: set<string>)
    ensures forall k :: 0 <= k < |RemovalTargets(charts, installed)| ==> RemovalTargets(charts, installed)[k] in installed
    decreases |charts|
  {
    if charts != [] {
      RemovalTargetsInstalled(charts[1..], installed);
      var head := if charts[0].releaseName in installed then [charts[0].releaseName] else [];
      var tail := RemovalTargets(charts[1..], installed);
      assert forall k :: |head| <= k < |head + tail| ==> (head + tail)[k] == tail[k - |head|];
    }
  }

  lemma {:induction false} InstalledRemoved(charts: seq<Chart>, replies: seq<Reply>, c: Chart)
    requires c in charts
    requires replies != [] && !replies[0].failed
    requires c.releaseName in ReleaseSet(ParseReleases(replies[0].output))
    ensures var r := RemoveReleasesRun(charts, replies);
      r.outcome == Completed ==> RemoveCommand(c.releaseName) in r.calls
  {
    var installed := ReleaseSet(ParseReleases(replies[0].output));
    var names := RemovalTargets(charts, installed);
    var r := RemoveReleasesRun(charts, replies);
    RemovalsInOrder(charts, replies);
    RemovalTargetsMembers(charts, installed);
    if r.outcome == Completed {
      var j :| 0 <= j < |names| && names[j] == c.releaseName;
      assert r.calls[j + 1] == RemoveCommand(c.releaseName);
    }
  }

  /** The map of current releases RemoveReleases builds from the listing. */
  method BuildReleaseSet(releases: seq<string>) returns (installed: set<string>)
    ensures installed == ReleaseSet(releases)
  {
    installed := {};
    for i := 0 to |releases|
      invariant installed == ReleaseSet(releases[..i])
    {
      assert releases[..i + 1] == releases[..i] + [releases[i]];
      installed := installed + {releases[i]};
    }
    assert releases[..|releases|] == releases;
  }

  /** The removal loop of RemoveReleases: one removal per chart whose release is installed. */
  method RemoveInstalled(charts: seq<Chart>, installed: set<string>, replies: seq<Reply>)
    returns (calls: seq<Command>, outcome: Outcome)
    ensures Run(calls, outcome) == CheckedSteps(RemovalSteps(RemovalTargets(charts, installed)), replies)
  {
    calls := [];
    var done := 0;
    RemovingFromStart(charts, installed, replies);
    for i := 0 to |charts|
      invariant Removing(charts, installed, replies, i, done, calls)
    {
      if charts[i].releaseName in installed {
        var name := charts[i].releaseName;
        RemovingStops(charts, installed, replies, i, done, calls);
        if done == |replies| {
          return calls, Unfinished;
        }
        if replies[done].failed {
          return calls + [RemoveCommand(name)], Aborted(RemoveFailure(name) + replies[done].output);
        }
        RemovingRemoves(charts, installed, replies, i, done, calls);
        calls := calls + [RemoveCommand(name)];
        done := done + 1;
      } else {
        RemovingSkips(charts, installed, replies, i, done, calls);
      }
    }
    RemovingDone(charts, installed, replies, done, calls);
    outcome := Completed;
  }

  /** The loop of RemoveInstalled after the first i charts: `calls` removed the first `done`
      targets, and the rest of the run is that of the remaining ones. */
  ghost predicate Removing(charts: seq<Chart>, installed: set<string>, replies: seq<Reply>, i: nat, done: nat, calls: seq<Command>) {
    var names := RemovalTargets(charts, installed);
    var steps := RemovalSteps(names);
    && i <= |charts| && done <= |names| && done <= |replies| && |calls| == done
    && RemovalTargets(charts[i..], installed) == names[done..]
    && CheckedSteps(steps, replies) == Then(Run(calls, Completed), CheckedSteps(steps[done..], replies[done..]))
  }

  lemma {:induction false} RemovingFromStart(charts: seq<Chart>, installed: set<string>, replies: seq<Reply>)
    ensures Removing(charts, installed, replies, 0, 0, [])
  {
    var steps := RemovalSteps(RemovalTargets(charts, installed));
    assert steps[0..] == steps && replies[0..] == replies && charts[0..] == charts;
  }

  /** A chart whose release is not installed is passed over. */
  lemma {:induction false} RemovingSkips(charts: seq<Chart>, installed: set<string>, replies: seq<Reply>, i: nat, done: nat, calls: seq<Command>)
    requires Removing(charts, installed, replies, i, done, calls) && i < |charts|
    requires charts[i].releaseName !in installed
    ensures Removing(charts, installed, replies, i + 1, done, calls)
  {
    RemovalTargetsStep(charts, i, installed);
  }

  /** An installed chart whose removal is not answered, or fails, ends the run. */
  lemma {:induction false} RemovingStops(charts: seq<Chart>, installed: set<string>, replies: seq<Reply>, i: nat, done: nat, calls: seq<Command>)
    requires Removing(charts, installed, replies, i, done, calls) && i < |charts|
    requires charts[i].releaseName in installed
    ensures var whole := CheckedSteps(RemovalSteps(RemovalTargets(charts, installed)), replies);
      var name := charts[i].releaseName;
      && (done == |replies| ==> whole == Run(calls, Unfinished))
      && (done < |replies| && replies[done].failed ==>
            whole == Run(calls + [RemoveCommand(name)], Aborted(RemoveFailure(name) + replies[done].output)))
  {
    var names := RemovalTargets(charts, installed);
    var steps := RemovalSteps(names);
    RemovalTargetsStep(charts, i, installed);
    assert names[done..][0] == charts[i].releaseName;
    CheckedStepsAt(steps, done, replies);
    assert calls + [] == calls;
  }

  /** An installed chart whose removal succeeds is one more target done. */
  lemma {:induction false} RemovingRemoves(charts: seq<Chart>, installed: set<string>, replies: seq<Reply>, i: nat, done: nat, calls: seq<Command>)
    requires Removing(charts, installed, replies, i, done, calls) && i < |charts|
    requires charts[i].releaseName in installed
    requires done < |replies| && !replies[done].failed
    ensures Removing(charts, installed, replies, i + 1, done + 1, calls + [RemoveCommand(charts[i].releaseName)])
  {
    var names := RemovalTargets(charts, installed);
    var steps := RemovalSteps(names);
    var name := charts[i].releaseName;
    RemovalTargetsStep(charts, i, installed);
    assert names[done..][0] == name && names[done..][1..] == names[done + 1..];
    CheckedStepsAt(steps, done, replies);
    ThenAssociative(Run(calls, Completed), Run([steps[done].cmd], Completed), CheckedSteps(steps[done + 1..], replies[done + 1..]));
  }

  /** Past the last chart, every target was removed. */
  lemma {:induction false} RemovingDone(charts: seq<Chart>, installed: set<string>, replies: seq<Reply>, done: nat, calls: seq<Command>)
    requires Removing(charts, installed, replies, |charts|, done, calls)
    ensures CheckedSteps(RemovalSteps(RemovalTargets(charts, installed)), replies) == Run(calls, Completed)
  {
    var steps := RemovalSteps(RemovalTargets(charts, installed));
    assert charts[|charts|..] == [];
    assert steps[done..] == [];
    assert calls + [] == calls;
  }

  /** RemoveReleases. */
  method RemoveReleases(charts: seq<Chart>, replies: seq<Reply>)
    returns (calls: seq<Command>, outcome: Outcome)
    ensures Run(calls, outcome) == RemoveReleasesRun(charts, replies)
  {
    var releases;
    calls, outcome, releases := GetHelmReleases(replies);
    if outcome != Completed {
      return;
    }
    var installed := BuildReleaseSet(releases);
    var removals, last := RemoveInstalled(charts, installed, replies[1..]);
    calls, outcome := calls + removals, last;
  }
}
