# ship — a Dafny model of its installer and its cluster script

`ship` sets up a Kubernetes platform in two ways:
- A Go command-line tool (`ship install`) checks that `helm` is usable and adds the chart repository. It then installs a fixed list of Helm charts, substituting the cluster's domain into their `--set` overrides. Finally it configures Grafana and Kong by creating manifests with `kubectl`, polling until workloads are ready or a pod has succeeded, and cleaning up. Helm releases can also be listed and the installed ones removed.
- A Python script (`ship.py`) creates, updates and destroys a kops cluster on AWS behind Terraform. It checks the two binaries, reads the Terraform state into the cluster configuration, and runs `terraform` and `kops` in a fixed order. Its tests compare output with an ordered line matcher (`ordered_output_subset_matches`).

Every external command is modelled as a `Command` (program and arguments) that receives the next `Reply` from a finite sequence `seq<Reply>`. A reply holds the command's output and whether it failed. An operation yields a `Run`: the commands it issued, in order, and an `Outcome`:
- `Completed`;
- `Aborted(message)`, for a Go `panic`, `os.Exit`, a Python `sys.exit` or an uncaught exception;
- `Unfinished`, when the recorded replies ran out before the program would stop. A polling loop with no decisive answer is the main case.

Each loop or effectful step of the source is a `method`. Its `ensures` ties the result to a pure function of the inputs (`…Run`), and lemmas state what those functions promise: the order of calls, when a run stops, with which message, and which releases are touched.

Modules:
- `Wrappers`: Option.
- `Text`: Go and Python string helpers: split, join, replace, trim, strip, Atoi and Itoa.
- `Shell`: commands, replies, runs, and steps that abort on failure.
- `Sequencing`: running stages one after another.
- `Helm`: `pkg/helm`.
- `Kubectl`: `pkg/kubectl`.
- `Components`: the component catalogue and `checkDependencies` in `cmd/root.go`.
- `Install`: `cmd/install.go`.
- `Ship`: `ship.py`.
- `OutputMatch`: the test helper.

## Model

| member | source | states |
|---|---|---|
| Shell.Checked | pkg/helm/helm.go:81-83 | a command whose reply failed aborts the run with the step's message followed by the command's output; a command that succeeded completes; either way it is the only call |
| Shell.Reported | pkg/kubectl/kubectl.go:21-23 | a command whose failure is only printed always completes after its single call |
| Shell.CheckedStepsInOrder | pkg/helm/helm.go:69-84 | steps run in list order; the run stops at the first failed reply with that step's message plus its output; it completes exactly when every step succeeded |
| Helm.SetFlagsLayout | pkg/helm/helm.go:73-75 | every override becomes a `--set` flag followed by the override with the domain substituted, in order |
| Helm.InstallArgsLayout | pkg/helm/helm.go:71-79 | the argument list is `install <chart> -n <release> --namespace <ns>`, then one `--set` pair per override, then `--values` and the values file exactly when a values path is set |
| Helm.OverrideWithoutTokenUnchanged | pkg/helm/helm.go:74 | an override that does not mention `${domain}` is passed through unchanged |
| Helm.PlaceholderReplaced | pkg/helm/helm.go:74 | a `${domain}` with no `$` before it and no further placeholder after it is replaced by the domain, and the text around it is kept |
| Helm.GrafanaHostSubstituted | pkg/helm/helm.go:74 | the Grafana chart's `server.ingress.hosts={grafana.${domain}}` override reaches helm as `server.ingress.hosts={grafana.<domain>}` |
| Helm.BuildInstallArgs | pkg/helm/helm.go:71-79 | the loop that appends the flags builds exactly the argument list above |
| Helm.InstallSteps | pkg/helm/helm.go:68-83 | one install step per chart, in chart order, each carrying the install-failure message |
| Helm.InstallChartsInOrder | pkg/helm/helm.go:68-85 | the k-th call installs the k-th chart; the first failed install stops the run with the install-failure message plus helm's output; the run completes exactly when every chart installed |
| Helm.InstallCharts | pkg/helm/helm.go:68-85 | the install loop issues exactly the run described by `InstallChartsInOrder` |
| Helm.InstallChartRepoRun | pkg/helm/helm.go:56-65 | one `helm repo add` call; it completes exactly when that call succeeded, and otherwise aborts with the repository message plus the output |
| Helm.ParseReleases | pkg/helm/helm.go:32-34 | the releases are the lines of the listing trimmed of quotes and spaces, in order, without the final piece |
| Helm.ParseListing | pkg/helm/helm.go:32-34 | parsing a newline-terminated listing of release names gives back exactly those names |
| Helm.GetHelmReleases | pkg/helm/helm.go:24-37 | one `helm list -q` call; when it completes, the releases are the parsed listing; a failed listing aborts |
| Helm.RemovalTargetsMembers | pkg/helm/helm.go:47-52 | a chart's release is selected for removal exactly when it is installed, and only chart releases are selected |
| Helm.RemovalTargetsKeepOrder | pkg/helm/helm.go:47-52 | selection keeps chart order: it distributes over concatenation |
| Helm.RemovalSteps | pkg/helm/helm.go:87-92 | one `helm delete --purge <release>` step per selected release, with that release's failure message |
| Helm.RemovalsInOrder | pkg/helm/helm.go:40-53 | after a successful listing, the calls are the listing followed by the deletions of the selected releases in chart order; the run completes exactly when every deletion succeeded |
| Helm.RemoveOnlyInstalled | pkg/helm/helm.go:47-51 | a chart whose release is not installed is never deleted; a completed run deleted every installed chart release |
| Helm.BuildReleaseSet | pkg/helm/helm.go:42-45 | the set built in the loop holds exactly the listed releases |
| Helm.RemoveInstalled | pkg/helm/helm.go:47-52 | the deletion loop issues exactly the checked steps for the selected releases |
| Helm.RemoveReleases | pkg/helm/helm.go:40-53 | lists the releases, then deletes the selected ones, exactly as `RemoveReleasesRun` describes |
| Kubectl.CreateRun | pkg/kubectl/kubectl.go:17-24 | one `kubectl create -f <file> --namespace <ns>` call; it never aborts |
| Kubectl.DeleteRun | pkg/kubectl/kubectl.go:27-33 | one `kubectl delete -f <file> --namespace <ns>` call; it never aborts |
| Kubectl.PollCalls | pkg/kubectl/kubectl.go:66-84 | the loop only repeats its query, and every read before the last was not decisive |
| Kubectl.PollStops | pkg/kubectl/kubectl.go:50-63 | the loop keeps reading exactly while no reply is decisive, and otherwise stops on a decisive reply after at least one read |
| Kubectl.PollEnds | pkg/kubectl/kubectl.go:74-82 | the loop completes exactly when its last read succeeded and met the goal; a failed read panics with the resource message plus kubectl's output |
| Kubectl.PollStopsAtFirstDecisive | pkg/kubectl/kubectl.go:70-83 | the loop stops at the first decisive reply and at no other |
| Kubectl.WaitResourceReady | pkg/kubectl/kubectl.go:66-84 | the polling loop issues exactly the run `PollRun` describes for the ready-count query and goal |
| Kubectl.WaitDeployReady | pkg/kubectl/kubectl.go:36-38 | polls `kubectl get deploy` for `status.readyReplicas` until the ready count is reached |
| Kubectl.WaitDaemonSetReady | pkg/kubectl/kubectl.go:41-43 | polls `kubectl get daemonset` for `status.numberReady` until the ready count is reached |
| Kubectl.WaitPodCompleted | pkg/kubectl/kubectl.go:46-64 | polls the pod's phase until it reads `Succeeded`; a failed read panics |
| Kubectl.UnquoteQuoted | pkg/kubectl/kubectl.go:79 | removing the quotes from a quoted value gives back the value |
| Kubectl.ReadyThreshold | pkg/kubectl/kubectl.go:79-82 | a quoted count meets the goal exactly when it is at least the minimum; one below the minimum never does |
| Kubectl.EmptyCountKeepsPolling | pkg/kubectl/kubectl.go:79-82 | an empty count, as kubectl prints before any replica is ready, never meets the goal |
| Kubectl.UnparsableKeepsPolling | pkg/kubectl/kubectl.go:79-82 | a count that is empty, starts with neither a digit nor a sign, is a sign alone, has a later non-digit, or lies outside the 64-bit range never meets the goal |
| Kubectl.PhaseTest | pkg/kubectl/kubectl.go:59-62 | a quoted phase meets the goal exactly when it is `Succeeded` |
| Components.ReleaseNamesDistinct | cmd/root.go:92-153 | no two components of the catalogue share a release name |
| Components.CatalogueManifestsWellFormed | cmd/root.go:92-153 | every catalogue manifest that is removed after its wait names the resource it waits for, and every precondition that is set asks for at least one ready replica |
| Components.PreInstallPreconditionsComeEarlier | cmd/root.go:136-149 | every resource a pre-install precondition waits for is produced by an earlier component |
| Components.InggwWaitsForInggwdb | cmd/root.go:95-96 | the Kong gateway's pre-install manifest waits for readiness, and its database is installed earlier under the name the gateway uses |
| Components.ClassifyHelmVersion | cmd/root.go:206-220 | installation proceeds when `helm version` succeeded or printed a message without `Error`; empty output on failure means helm is missing; failed output containing `Error` means tiller is unhealthy |
| Components.CheckDependenciesRun | cmd/root.go:202-221 | one `helm version` call; the run completes exactly when the reply is classified as proceeding |
| Components.FailureWithoutErrorWordIgnored | cmd/root.go:211-219 | a failing `helm version` with non-empty output that lacks `Error` does not stop the tool: the check completes after its one call |
| Components.UnreachableTillerIgnored | cmd/root.go:211-219 | for instance, a failure that prints only `could not find tiller` lets the install go on |
| Components.ErrorOutputStops | cmd/root.go:211-218 | a failing `helm version` whose output contains `Error` stops the tool with that output |
| Install.RunStage | cmd/install.go:187-237 | one stage (a checked step, a report-only create or delete, or a wait) issues exactly its stage run |
| Install.WaitCompleted | cmd/install.go:195-237 | a completed wait issued its query one or more times and nothing else |
| Install.RunStages | cmd/install.go:81-120 | the stages run one after another, each on the replies left by the previous one, stopping at the first stage that does not complete |
| Install.LogsRun | cmd/install.go:122-129 | report-only commands never abort, and run all of their commands in order when there are enough replies |
| Install.ConfigureOrder | cmd/install.go:81-120 | a completed configuration issues: readiness reads, the creates in order, reads of the pod's phase, then the clean-ups in order |
| Install.GrafanaStagesShape | cmd/install.go:81-104 | Grafana's configuration has the shared shape: wait for the deployment, create the data source and dashboards, wait for the import pod, delete the pod and config maps |
| Install.KongStagesShape | cmd/install.go:106-120 | Kong's configuration has the shared shape: wait for the ingress daemon set, create its resources, wait for the migration pod, delete it |
| Install.ConfigureGrafana | cmd/install.go:81-104 | runs exactly Grafana's configuration stages |
| Install.ConfigureKong | cmd/install.go:106-120 | runs exactly Kong's configuration stages |
| Install.GrafanaOrder | cmd/install.go:82-103 | a completed Grafana configuration follows the configuration order above |
| Install.KongOrder | cmd/install.go:107-119 | a completed Kong configuration follows the configuration order above |
| Install.InstallHelm | cmd/install.go:73-75 | runs the dependency check, the repository add and the chart installs as one sequence of stages |
| Install.InstallCommand | cmd/install.go:67-78 | runs the helm part, then Grafana's and Kong's configuration, exactly as `InstallRun` describes |
| Install.HelmOrder | cmd/install.go:73-75 | a completed helm part issued `helm version`, `helm repo add`, then one install per chart in list order |
| Install.InstallRunCompleted | cmd/install.go:73-77 | a completed install completed its helm part, then Grafana's and then Kong's configuration, with their calls concatenated |
| Install.InstallOrder | cmd/install.go:73-77 | a completed install issues the helm calls, then a Grafana trace, then a Kong trace, each in its configuration order |
| Install.HelmPartUsesHelm | cmd/install.go:131-186 | the helm part runs no program but helm |
| Install.HelmFailureStopsInstall | cmd/install.go:73-77 | when the helm part does not complete, nothing runs after it |
| Install.MissingHelmStopsInstall | cmd/install.go:135-139 | a failing `helm version` with no output stops the install with the not-installed message after that one call |
| Ship.BinaryChecksInOrder | ship.py:102-117 | the configured paths (else the defaults) are checked with `terraform --version` and then `kops version`; the check completes exactly when both succeed, and a failure exits with that binary's message |
| Ship.Binaries.constructor | ship.py:16-17 | the binaries start as `terraform` and `kops` |
| Ship.Binaries.SetBinaryPaths | ship.py:102-117 | checks the binaries and sets each configured path, the kops path only after terraform's check passed |
| Ship.KopsConfig | ship.py:34-52 | when the configuration is written, it goes to `kops.config` in the output directory |
| Ship.AssignSetsAll | ship.py:41-44 | no error exactly when every state key is present, and then each configuration entry is set to its resource's id and added to the keys |
| Ship.AssignStopsAtFirstMissing | ship.py:41-44 | when a resource is missing, the first missing key is the error, and exactly the entries before it have been set to their ids |
| Ship.KopsConfigWrittenIff | ship.py:34-52 | the configuration is written exactly when the state has a module, the region, zone and short name are configured, and every derived resource key is in the first module |
| Ship.KopsConfigEntries | ship.py:38-44 | entries other than the four derived ones are untouched; a written configuration adds exactly the VPC, NAT gateway and the two subnets, each from its resource |
| Ship.KopsConfigKeeps | ship.py:41-44 | an entry that is not derived from the state keeps its value |
| Ship.OnlyFirstModuleRead | ship.py:38 | modules after the first do not affect the result |
| Ship.ClusterConfig.constructor | ship.py:144-146 | the configuration object holds the loaded entries |
| Ship.GenerateKopsConfig | ship.py:34-52 | updates the configuration in place and returns the result, exactly as `KopsConfig` describes |
| Ship.AddClusterOrder | ship.py:152-158 | adding a cluster runs `kops create`, then the SSH key, then `kops update --yes`, stopping at the first failure |
| Ship.CreateOrder | ship.py:142-161 | create issues a prefix of terraform apply then the kops sequence; it completes exactly when the configuration was written, the keys are present and all four commands succeeded; any failure exits with the create message |
| Ship.Create | ship.py:142-161 | runs create and leaves the configuration updated only after terraform apply succeeded |
| Ship.ReplaceClusterOrder | ship.py:193-203 | updating a cluster replaces it, updates it, then rolls it only when rolling is confirmed, stopping at the first failure |
| Ship.UpdateOrder | ship.py:179-206 | without the cluster name update fails before any call; a declined prompt issues nothing; otherwise it issues a prefix of the update commands, and any failure exits with the update message |
| Ship.Update | ship.py:179-206 | runs update and updates the configuration only after terraform apply succeeded |
| Ship.Destroy | ship.py:163-177 | runs destroy: the prompt, then `kops delete cluster`, then `terraform destroy` |
| Ship.DestroyOrder | ship.py:163-177 | a declined prompt issues nothing; otherwise kops is deleted before terraform destroys; it completes exactly when confirmed, configured and both commands succeeded |
| OutputMatch.FirstMatch | test_ship.py:259-262 | finds the first stripped line at or after the index equal to the expected line, or reports there is none |
| OutputMatch.FindLine | test_ship.py:259-262 | the inner loop stops at exactly that first match, or at the end of the lines |
| OutputMatch.OrderedOutputSubsetMatches | test_ship.py:253-265 | returns a prefix of the expected lines, exactly the greedy match, without reading past the output's lines |
| OutputMatch.ScannedStep | test_ship.py:258-264 | each iteration either matches one more expected line or ends the match |
| OutputMatch.GreedyMatchesAllIffEmbedding | test_ship.py:253-265 | the greedy scan matches every expected line exactly when the lines occur in order, each at or after the previous one |
| OutputMatch.PrefixIsAllIffEmbedding | test_ship.py:253-265 | the matched prefix is the whole expected list exactly when such an in-order occurrence exists |
| OutputMatch.AllMatchedIffFoundInOrder | test_ship.py:253-265 | the function returns all expected lines exactly when they occur, stripped, in order in the output |
| OutputMatch.MatchedLinesInOrder | test_ship.py:253-265 | whatever is returned occurs in order in the stripped output |
| OutputMatch.RepeatedLineMatchesAgain | test_ship.py:259-264 | the index does not advance past a match, so a repeated expected line matches the same output line |
| OutputMatch.NothingExpected | test_ship.py:258-265 | nothing expected gives an empty result |
| Text.JoinSplit | pkg/helm/helm.go:32-34 | joining the split pieces with the separator restores the text |
| Text.ReplaceAllIsJoinSplit | pkg/helm/helm.go:74 | replacing every occurrence is splitting at the token and joining with the replacement |
| Text.AtoiOfItoa | pkg/kubectl/kubectl.go:79 | parsing a printed 64-bit integer gives the integer back |

## Left out

- Printing, colour and sleeping (`fmt.Printf`, `time.Sleep`, `click.echo`) are left out. The model keeps only the commands issued and how a run ends.
- Command-line wiring is left out: cobra commands and flags, viper (`cmd/root.go:155-200`, `cmd/install.go:239-253`), and click groups and options (`ship.py:119-140`). The domain that `install` reads from viper (`cmd/install.go:68-72`) is a parameter.
- `cmd/root.go` runs `checkDependencies` from `init` (line 167) and `install` runs it again. The check is modelled once, as the first stage of the install.
- Install.InstallCommand: the charts and the Grafana and Kong resources are a `Setup` parameter. `DefaultSetup` holds the default charts; the manifest paths are abstract.
- Polling is bounded by the recorded replies. When every reply is undecisive the run is `Unfinished` rather than an endless loop.
- Ready counts are parsed as Go's `strconv.Atoi` does on a 64-bit platform. An out-of-range count is an error, and the loop keeps polling. Platforms with 32-bit `int` are not modelled.
- Go byte strings and Python strings are both `seq<char>`. Encodings are left out.
- Output printed with `fmt.Fprintf` uses the command's output as the format string. That formatting is not modelled; the abort message is the plain output.
- Python `str(e)` of a failed command is modelled as that command's output. For a missing configuration key it is the key's text.
- Jinja templating is left out: `generate_terraform_config` (`ship.py:23-32`) and the rendering and writing of `kops.config` in `generate_kops_config`. Only the entries it derives and the path it writes are modelled.
- YAML and JSON loading (`get_config`, reading `terraform.tfstate`) is left out. The configuration and the state are parameters.
- The Terraform state is abstracted to modules holding resource ids. A resource without `primary` or `id`, or a state without `modules`, is not distinguished from a missing resource key.
- Configuration values are modelled as strings only.
- `validate_config`: the file-existence checks are left out. Only the guarantee that the paths it validates are present is kept, as `PathsValidated`.
- The confirmation prompts of `update` and `destroy` are boolean parameters, and the terminal interaction is left out.
- Go's `helm.ValueOverride` is a plain string.
