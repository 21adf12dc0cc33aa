/** ship.py: the cluster-provisioning script. It renders a terraform configuration, applies
    it, reads the ids of the network it created back out of the terraform state into the
    cluster configuration, and drives kops to create, update or delete the cluster. Each
    terraform and kops invocation is a command answered by the next reply; a failed one
    raises, and the command's handler reports "<verb> cluster failed: <error>" and exits. */
module Ship {
  import opened Wrappers
  import opened Text
  import opened Shell

  // ---------------------------------------------------------------------------
  // Argument lists
  // ---------------------------------------------------------------------------

  function TerraformApply(bin: string, configDir: string, statePath: string): Command {
    Command(bin, ["apply", "-state=" + statePath, configDir])
  }

  /** `-force` keeps terraform from asking for confirmation. */
  function TerraformDestroy(bin: string, configDir: string): Command {
    Command(bin, ["destroy", "-force", configDir])
  }

  function KopsAddCluster(bin: string, kopsConfigPath: string, statePath: string): Command {
    Command(bin, ["create", "-f", kopsConfigPath, "--state", statePath])
  }

  function KopsAddSshKey(bin: string, clusterName: string, keyPath: string, statePath: string): Command {
    Command(bin, ["create", "secret", "--name", clusterName, "sshpublickey", "admin", "-i", keyPath, "--state", statePath])
  }

  function KopsUpdateCluster(bin: string, clusterName: string, statePath: string): Command {
    Command(bin, ["update", "cluster", "--name", clusterName, "--state", statePath, "--yes"])
  }

  function KopsReplaceCluster(bin: string, kopsConfigPath: string, statePath: string): Command {
    Command(bin, ["replace", "cluster", "-f", kopsConfigPath, "--state", statePath])
  }

  function KopsRollingUpdate(bin: string, clusterName: string, statePath: string): Command {
    Command(bin, ["rolling-update", "cluster", "--name", clusterName, "--state", statePath])
  }

  function KopsDestroyCluster(bin: string, clusterName: string, statePath: string): Command {
    Command(bin, ["delete", "cluster", clusterName, "--state", statePath, "--yes"])
  }

  // ---------------------------------------------------------------------------
  // Binary paths
  // ---------------------------------------------------------------------------

  /** The binary used for `key`: the configured path when there is one, the current one
      otherwise. */
  function Chosen(paths: map<string, string>, key: string, current: string): string {
    if key in paths then paths[key] else current
  }

  /** set_binary_paths: the terraform binary is chosen and asked for its version; only when
      that succeeded is the kops binary chosen and asked for its version. */
  function BinaryChecks(terraform: string, kops: string, paths: map<string, string>, replies: seq<Reply>): Run {
    var first := Checked(Command(Chosen(paths, "terraform", terraform), ["--version"]), replies,
                         "terraform executable not valid: ");
    if !first.outcome.Completed? then first
    else Then(first, Checked(Command(Chosen(paths, "kops", kops), ["version"]), replies[1..],
                             "kops executable not valid: "))
  }

  /** The checks that set_binary_paths runs: each binary is the configured path exactly when
      one is configured, and the default otherwise; kops is checked only after terraform
      passed, and a failure names the binary that failed. */
  lemma {:induction false} BinaryChecksInOrder(terraform: string, kops: string, paths: map<string, string>, replies: seq<Reply>)
    ensures var r := BinaryChecks(terraform, kops, paths, replies);
      var t := if "terraform" in paths then paths["terraform"] else terraform;
      var k := if "kops" in paths then paths["kops"] else kops;
      && (r.outcome == Completed <==> |replies| >= 2 && !replies[0].failed && !replies[1].failed)
      && (r.outcome == Completed ==> r.calls == [Command(t, ["--version"]), Command(k, ["version"])])
      && (replies != [] && replies[0].failed ==>
            r == Run([Command(t, ["--version"])], Aborted("terraform executable not valid: " + replies[0].output)))
      && (|replies| >= 2 && !replies[0].failed && replies[1].failed ==>
            r.outcome == Aborted("kops executable not valid: " + replies[1].output))
  {
    if |replies| >= 2 {
      assert replies[1..][0] == replies[1];
    }
  }

  /** The two binaries the script runs: module-level settings that set_binary_paths
      overrides from the configured paths. */
  class Binaries {
    var terraform: string
    var kops: string

    /** Both are looked up on $PATH until configured otherwise. */
    constructor ()
      ensures terraform == "terraform" && kops == "kops"
    {
      terraform := "terraform";
      kops := "kops";
    }

    /** set_binary_paths: the terraform binary is replaced before its check, the kops binary
        only when the terraform check passed. */
    method SetBinaryPaths(paths: map<string, string>, replies: seq<Reply>) returns (r: Run)
      modifies this
      ensures r == BinaryChecks(old(terraform), old(kops), paths, replies)
      ensures terraform == Chosen(paths, "terraform", old(terraform))
      ensures kops == if replies != [] && !replies[0].failed then Chosen(paths, "kops", old(kops)) else old(kops)
    {
      if "terraform" in paths {
        terraform := paths["terraform"];
      }
      r := Checked(Command(terraform, ["--version"]), replies, "terraform executable not valid: ");
      if !r.outcome.Completed? {
        return;
      }
      if "kops" in paths {
        kops := paths["kops"];
      }
      r := Then(r, Checked(Command(kops, ["version"]), replies[1..], "kops executable not valid: "));
    }
  }

  // ---------------------------------------------------------------------------
  // The kops configuration
  // ---------------------------------------------------------------------------

  /** What the script reads of a terraform state file: for each module, the primary id of
      each of its resources. */
  datatype StateModule = StateModule(resources: map<string, string>)
  datatype TerraformState = TerraformState(modules: seq<StateModule>)

  /** A failed lookup: a missing dictionary key, or no module in the state. */
  datatype LookupError = MissingKey(key: string) | NoModule

  /** Python's text for the exception. */
  function ErrorText(e: LookupError): string {
    match e
    case MissingKey(key) => "'" + key + "'"
    case NoModule => "list index out of range"
  }

  datatype KopsConfigResult = Written(path: string) | Failed(error: LookupError)

  /** The entries generate_kops_config adds to the cluster configuration, in order. */
  const DerivedEntries: seq<string> := ["VPCID", "PublicNATGatewayID", "NodeSubnetID", "PublicSubnetID"]

  /** The state resources those entries are read from, in the same order. */
  function StateKeys(shortName: string, region: string): (keys: seq<string>)
    ensures |keys| == |DerivedEntries|
  {
    ["aws_vpc." + shortName, "aws_nat_gateway.public-" + region,
     "aws_subnet.nodes-" + region, "aws_subnet.public-" + region]
  }

  /** One entry after the other, set to the id of its resource, until a resource is
      missing. */
  function Assign(config: map<string, string>, resources: map<string, string>, names: seq<string>, keys: seq<string>)
    : (r: (map<string, string>, Option<LookupError>))
    requires |names| == |keys|
    decreases |names|
  {
    if names == [] then (config, None)
    else if keys[0] !in resources then (config, Some(MissingKey(keys[0])))
    else Assign(config[names[0] := resources[keys[0]]], resources, names[1..], keys[1..])
  }

  /** generate_kops_config: the cluster configuration afterwards (entries set before a
      failure stay set) and the path of the kops configuration or the error. */
  function KopsConfig(config: map<string, string>, state: TerraformState, outputDir: string)
    : (r: (map<string, string>, KopsConfigResult))
    ensures r.1.Written? ==> r.1.path == outputDir + "/kops.config"
  {
    if state.modules == [] then (config, Failed(NoModule))
    else if "AWSRegion" !in config then (config, Failed(MissingKey("AWSRegion")))
    else if "AWSAZ1" !in config then (config, Failed(MissingKey("AWSAZ1")))
    else if "ShortName" !in config then (config, Failed(MissingKey("ShortName")))
    else
      var region := config["AWSRegion"] + config["AWSAZ1"];
      var (updated, error) := Assign(config, state.modules[0].resources, DerivedEntries,
                                     StateKeys(config["ShortName"], region));
      if error.Some? then (updated, Failed(error.value)) else (updated, Written(outputDir + "/kops.config"))
  }

  /** Entries other than the assigned ones are untouched. */
  lemma {:induction false} AssignKeepsOthers(config: map<string, string>, resources: map<string, string>, names: seq<string>, keys: seq<string>)
    requires |names| == |keys|
    ensures var updated := Assign(config, resources, names, keys).0;
      forall k :: k !in names ==> (k in updated <==> k in config) && (k in config ==> updated[k] == config[k])
    decreases |names|
  {
    if names != [] && keys[0] in resources {
      AssignKeepsOthers(config[names[0] := resources[keys[0]]], resources, names[1..], keys[1..]);
      assert forall k :: k !in names ==> k != names[0] && k !in names[1..];
    }
  }

  /** Without an error, every name is set to the id of its resource, and the names are
      added to the keys. */
  lemma {:induction false} AssignSetsAll(config: map<string, string>, resources: map<string, string>, names: seq<string>, keys: seq<string>)
    requires |names| == |keys|
    requires forall i, j :: 0 <= i < j < |names| ==> names[i] != names[j]
    ensures var (updated, error) := Assign(config, resources, names, keys);
      error.None? <==> forall i :: 0 <= i < |keys| ==> keys[i] in resources
    ensures var (updated, error) := Assign(config, resources, names, keys);
      error.None? ==>
        && updated.Keys == config.Keys + (set i | 0 <= i < |names| :: names[i])
        && forall i :: 0 <= i < |names| ==> updated[names[i]] == resources[keys[i]]
    decreases |names|
  {
    if names != [] && keys[0] in resources {
      var next := config[names[0] := resources[keys[0]]];
      AssignSetsAll(next, resources, names[1..], keys[1..]);
      AssignKeepsOthers(next, resources, names[1..], keys[1..]);
      var updated := Assign(next, resources, names[1..], keys[1..]).0;
      assert names[0] !in names[1..] by {
        forall i | 0 <= i < |names[1..]| ensures names[1..][i] != names[0] {
          assert names[1..][i] == names[i + 1];
        }
      }
      assert forall i :: 0 < i < |names| ==> names[i] == names[1..][i - 1] && keys[i] == keys[1..][i - 1];
      var tail := set i | 0 <= i < |names[1..]| :: names[1..][i];
      var all := set i | 0 <= i < |names| :: names[i];
      assert all == {names[0]} + tail by {
        forall n | n in all ensures n in {names[0]} + tail {
          var i :| 0 <= i < |names| && names[i] == n;
          if i > 0 {
            assert names[1..][i - 1] == n;
          }
        }
      }
    }
  }

  /** When the m-th resource is the first one missing, the assignment stops there with that
      key as the error, after setting exactly the entries before it to their ids. */
  lemma {:induction false} AssignStopsAtFirstMissing(config: map<string, string>, resources: map<string, string>,
                                                     names: seq<string>, keys: seq<string>, m: nat)
    requires |names| == |keys|
    requires forall i, j :: 0 <= i < j < |names| ==> names[i] != names[j]
    requires m < |keys| && keys[m] !in resources && forall i :: 0 <= i < m ==> keys[i] in resources
    ensures var (updated, error) := Assign(config, resources, names, keys);
      && error == Some(MissingKey(keys[m]))
      && updated.Keys == config.Keys + (set i | 0 <= i < m :: names[i])
      && forall i :: 0 <= i < m ==> updated[names[i]] == resources[keys[i]]
    decreases |names|
  {
    if m > 0 {
      var next := config[names[0] := resources[keys[0]]];
      assert forall i :: 0 < i < |names| ==> names[i] == names[1..][i - 1] && keys[i] == keys[1..][i - 1];
      AssignStopsAtFirstMissing(next, resources, names[1..], keys[1..], m - 1);
      AssignKeepsOthers(next, resources, names[1..], keys[1..]);
      assert names[0] !in names[1..] by {
        forall i | 0 <= i < |names[1..]| ensures names[1..][i] != names[0] {
          assert names[1..][i] == names[i + 1];
        }
      }
      var tail := set i | 0 <= i < m - 1 :: names[1..][i];
      var all := set i | 0 <= i < m :: names[i];
      assert all == {names[0]} + tail by {
        forall n | n in all ensures n in {names[0]} + tail {
          var i :| 0 <= i < m && names[i] == n;
          if i > 0 {
            assert names[1..][i - 1] == n;
          }
        }
      }
    }
  }

  /** The kops configuration is written exactly when the state has a module, the cluster
      configuration has AWSRegion, AWSAZ1 and ShortName, and the module has the four
      resources derived from them. */
  lemma {:induction false} KopsConfigWrittenIff(config: map<string, string>, state: TerraformState, outputDir: string)
    ensures KopsConfig(config, state, outputDir).1.Written? <==>
      && state.modules != []
      && "AWSRegion" in config && "AWSAZ1" in config && "ShortName" in config
      && (forall key :: key in StateKeys(config["ShortName"], config["AWSRegion"] + config["AWSAZ1"])
            ==> key in state.modules[0].resources)
  {
    if state.modules != [] && "AWSRegion" in config && "AWSAZ1" in config && "ShortName" in config {
      var keys := StateKeys(config["ShortName"], config["AWSRegion"] + config["AWSAZ1"]);
      DerivedEntriesDistinct();
      AssignSetsAll(config, state.modules[0].resources, DerivedEntries, keys);
      assert (forall key :: key in keys ==> key in state.modules[0].resources)
        <==> (forall i :: 0 <= i < |keys| ==> keys[i] in state.modules[0].resources);
    }
  }

  lemma DerivedEntriesDistinct()
    ensures forall i, j :: 0 <= i < j < |DerivedEntries| ==> DerivedEntries[i] != DerivedEntries[j]
  {
  }

  /** When the kops configuration is written, the cluster configuration has gained exactly
      the four derived entries, each the id of the resource derived from AWSRegion + AWSAZ1
      or ShortName; whatever happens, every other entry is as it was. */
  lemma {:induction false} KopsConfigEntries(config: map<string, string>, state: TerraformState, outputDir: string)
    ensures var (updated, result) := KopsConfig(config, state, outputDir);
      forall k :: k !in DerivedEntries ==> (k in updated <==> k in config) && (k in config ==> updated[k] == config[k])
    ensures var (updated, result) := KopsConfig(config, state, outputDir);
      result.Written? ==>
        var resources := state.modules[0].resources;
        var region := config["AWSRegion"] + config["AWSAZ1"];
        && updated.Keys == config.Keys + {"VPCID", "PublicNATGatewayID", "NodeSubnetID", "PublicSubnetID"}
        && updated["VPCID"] == resources["aws_vpc." + config["ShortName"]]
        && updated["PublicNATGatewayID"] == resources["aws_nat_gateway.public-" + region]
        && updated["NodeSubnetID"] == resources["aws_subnet.nodes-" + region]
        && updated["PublicSubnetID"] == resources["aws_subnet.public-" + region]
  {
    if state.modules != [] && "AWSRegion" in config && "AWSAZ1" in config && "ShortName" in config {
      var resources := state.modules[0].resources;
      var keys := StateKeys(config["ShortName"], config["AWSRegion"] + config["AWSAZ1"]);
      AssignKeepsOthers(config, resources, DerivedEntries, keys);
      DerivedEntriesDistinct();
      AssignSetsAll(config, resources, DerivedEntries, keys);
      var names := set i | 0 <= i < |DerivedEntries| :: DerivedEntries[i];
      assert names == {"VPCID", "PublicNATGatewayID", "NodeSubnetID", "PublicSubnetID"} by {
        assert DerivedEntries[0] in names && DerivedEntries[1] in names;
        assert DerivedEntries[2] in names && DerivedEntries[3] in names;
      }
    }
  }

  /** Only the first module of the state is read. */
  lemma {:induction false} OnlyFirstModuleRead(config: map<string, string>, first: StateModule, rest: seq<StateModule>, others: seq<StateModule>, outputDir: string)
    ensures KopsConfig(config, TerraformState([first] + rest), outputDir)
         == KopsConfig(config, TerraformState([first] + others), outputDir)
  {
    assert ([first] + rest)[0] == first && ([first] + others)[0] == first;
  }

  /** The cluster configuration, a dictionary generate_kops_config adds entries to in
      place. Values are kept as text. */
  class ClusterConfig {
    var entries: map<string, string>

    constructor (entries: map<string, string>)
      ensures this.entries == entries
    {
      this.entries := entries;
    }
  }

  /** generate_kops_config: only module 0 of the state is read; AWSRegion, AWSAZ1 and
      ShortName are looked up, then each entry is set as soon as its resource is found. The
      template rendering and the file write are not modelled: the result is the path. */
  method GenerateKopsConfig(config: ClusterConfig, state: TerraformState, outputDir: string) returns (result: KopsConfigResult)
    modifies config
    ensures (config.entries, result) == KopsConfig(old(config.entries), state, outputDir)
  {
    if |state.modules| == 0 {
      return Failed(NoModule);
    }
    var resources := state.modules[0].resources;
    if "AWSRegion" !in config.entries {
      return Failed(MissingKey("AWSRegion"));
    }
    if "AWSAZ1" !in config.entries {
      return Failed(MissingKey("AWSAZ1"));
    }
    var region := config.entries["AWSRegion"] + config.entries["AWSAZ1"];
    if "ShortName" !in config.entries {
      return Failed(MissingKey("ShortName"));
    }
    ghost var keys := StateKeys(config.entries["ShortName"], region);
    ghost var start := config.entries;
    var key := "aws_vpc." + config.entries["ShortName"];
    if key !in resources {
      return Failed(MissingKey(key));
    }
    config.entries := config.entries["VPCID" := resources[key]];
    assert Assign(start, resources, DerivedEntries, keys)
        == Assign(config.entries, resources, DerivedEntries[1..], keys[1..]);
    key := "aws_nat_gateway.public-" + region;
    if key !in resources {
      return Failed(MissingKey(key));
    }
    config.entries := config.entries["PublicNATGatewayID" := resources[key]];
    assert Assign(start, resources, DerivedEntries, keys)
        == Assign(config.entries, resources, DerivedEntries[2..], keys[2..]);
    key := "aws_subnet.nodes-" + region;
    if key !in resources {
      return Failed(MissingKey(key));
    }
    config.entries := config.entries["NodeSubnetID" := resources[key]];
    assert Assign(start, resources, DerivedEntries, keys)
        == Assign(config.entries, resources, DerivedEntries[3..], keys[3..]);
    key := "aws_subnet.public-" + region;
    if key !in resources {
      return Failed(MissingKey(key));
    }
    config.entries := config.entries["PublicSubnetID" := resources[key]];
    return Written(outputDir + "/kops.config");
  }

  // ---------------------------------------------------------------------------
  // The create, update and destroy commands
  // ---------------------------------------------------------------------------

  /** validate_config has read these paths before any command runs (a missing one stops the
      script there), so the commands can rely on them. */
  predicate PathsValidated(paths: map<string, string>) {
    && "outputDir" in paths && "sshPublicKeyPath" in paths
    && "terraformTemplatePath" in paths && "kopsTemplatePath" in paths
  }

  const CreateFailed := "Create cluster failed: "
  const UpdateFailed := "Update cluster failed: "
  const DestroyFailed := "Destroy cluster failed: "

  /** What click prints when a confirmation that aborts is declined. */
  const Declined := "Aborted!"

  /** A missing entry read outside a command's try block ends the script with the exception
      itself. */
  function Uncaught(key: string): string {
    "KeyError: " + ErrorText(MissingKey(key))
  }

  /** create: apply the terraform configuration, read the network back into the kops
      configuration, then create the cluster, its ssh key secret, and update it. */
  function CreateRun(terraform: string, kops: string, paths: map<string, string>, config: map<string, string>,
                     state: TerraformState, replies: seq<Reply>): Run
    requires PathsValidated(paths)
  {
    var dir := paths["outputDir"];
    var apply := Checked(TerraformApply(terraform, dir, dir + "/terraform.tfstate"), replies, CreateFailed);
    if !apply.outcome.Completed? then apply
    else
      var (updated, result) := KopsConfig(config, state, dir);
      match result
      case Failed(e) => Run(apply.calls, Aborted(CreateFailed + ErrorText(e)))
      case Written(path) => Then(apply, AddCluster(kops, paths["sshPublicKeyPath"], updated, path, replies[1..]))
  }

  /** The kops half of create, on the cluster configuration the kops configuration was
      generated from. */
  function AddCluster(kops: string, keyPath: string, config: map<string, string>, kopsConfigPath: string,
                      replies: seq<Reply>): Run
  {
    if "ConfigBaseURL" !in config then Run([], Aborted(CreateFailed + ErrorText(MissingKey("ConfigBaseURL"))))
    else
      var base := config["ConfigBaseURL"];
      var add := Checked(KopsAddCluster(kops, kopsConfigPath, base), replies, CreateFailed);
      if !add.outcome.Completed? then add
      else if "FullyQualifiedName" !in config then
        Run(add.calls, Aborted(CreateFailed + ErrorText(MissingKey("FullyQualifiedName"))))
      else
        var name := config["FullyQualifiedName"];
        var secret := Checked(KopsAddSshKey(kops, name, keyPath, base), replies[1..], CreateFailed);
        if !secret.outcome.Completed? then Then(add, secret)
        else Then(add, Then(secret, Checked(KopsUpdateCluster(kops, name, base), replies[2..], CreateFailed)))
  }

  /** The kops commands create issues when all goes well, as its test expects them. */
  function ClusterCommands(kops: string, keyPath: string, dir: string, base: string, name: string): seq<Command> {
    [Command(kops, ["create", "-f", dir + "/kops.config", "--state", base]),
     Command(kops, ["create", "secret", "--name", name, "sshpublickey", "admin", "-i", keyPath, "--state", base]),
     Command(kops, ["update", "cluster", "--name", name, "--state", base, "--yes"])]
  }

  /** All the commands create issues when all goes well, as its test expects them. */
  function CreateCommands(terraform: string, kops: string, paths: map<string, string>, config: map<string, string>): seq<Command>
    requires PathsValidated(paths) && "ConfigBaseURL" in config && "FullyQualifiedName" in config
  {
    var dir := paths["outputDir"];
    var statePath := dir + "/terraform.tfstate";
    [Command(terraform, ["apply", "-state=" + statePath, dir])]
      + ClusterCommands(kops, paths["sshPublicKeyPath"], dir, config["ConfigBaseURL"], config["FullyQualifiedName"])
  }

  /** The kops half of create issues a prefix of its three commands, in order, and completes
      exactly when all three succeeded. */
  lemma {:induction false} AddClusterOrder(kops: string, keyPath: string, config: map<string, string>, dir: string,
                                           replies: seq<Reply>)
    requires "ConfigBaseURL" in config && "FullyQualifiedName" in config
    ensures var r := AddCluster(kops, keyPath, config, dir + "/kops.config", replies);
      var commands := ClusterCommands(kops, keyPath, dir, config["ConfigBaseURL"], config["FullyQualifiedName"]);
      && r.calls <= commands
      && (r.outcome == Completed <==> |replies| >= 3 && !replies[0].failed && !replies[1].failed && !replies[2].failed)
      && (r.outcome == Completed ==> r.calls == commands)
      && (r.outcome.Aborted? ==> CreateFailed <= r.outcome.message)
  {
    if |replies| >= 3 {
      assert replies[1..][0] == replies[1] && replies[2..][0] == replies[2];
    } else if |replies| >= 2 {
      assert replies[1..][0] == replies[1];
    }
  }

  /** Entries other than the derived ones read the same after generate_kops_config. */
  lemma {:induction false} KopsConfigKeeps(config: map<string, string>, state: TerraformState, outputDir: string, key: string)
    requires key !in DerivedEntries
    ensures var updated := KopsConfig(config, state, outputDir).0;
      (key in updated <==> key in config) && (key in config ==> updated[key] == config[key])
  {
    KopsConfigEntries(config, state, outputDir);
  }

  /** create issues a prefix of apply, create cluster, create secret and update cluster, in
      that order; it completes exactly when the kops configuration was written, the entries
      it reads are there and all four commands succeeded; every failure is reported as a
      failed create. */
  lemma {:induction false} CreateOrder(terraform: string, kops: string, paths: map<string, string>, config: map<string, string>,
                                       state: TerraformState, replies: seq<Reply>)
    requires PathsValidated(paths)
    ensures var r := CreateRun(terraform, kops, paths, config, state, replies);
      && ("ConfigBaseURL" in config && "FullyQualifiedName" in config ==>
            r.calls <= CreateCommands(terraform, kops, paths, config))
      && (r.outcome == Completed <==>
            && KopsConfig(config, state, paths["outputDir"]).1.Written?
            && "ConfigBaseURL" in config && "FullyQualifiedName" in config
            && |replies| >= 4 && !replies[0].failed && !replies[1].failed && !replies[2].failed && !replies[3].failed)
      && (r.outcome == Completed ==> r.calls == CreateCommands(terraform, kops, paths, config))
      && (r.outcome.Aborted? ==> CreateFailed <= r.outcome.message)
  {
    var dir := paths["outputDir"];
    var (updated, result) := KopsConfig(config, state, dir);
    KopsConfigKeeps(config, state, dir, "ConfigBaseURL");
    KopsConfigKeeps(config, state, dir, "FullyQualifiedName");
    if replies != [] && !replies[0].failed && result.Written? && "ConfigBaseURL" in config && "FullyQualifiedName" in config {
      var statePath := dir + "/terraform.tfstate";
      var apply := Command(terraform, ["apply", "-state=" + statePath, dir]);
      var rest := AddCluster(kops, paths["sshPublicKeyPath"], updated, dir + "/kops.config", replies[1..]);
      assert CreateRun(terraform, kops, paths, config, state, replies) == Then(Run([apply], Completed), rest);
      AddClusterOrder(kops, paths["sshPublicKeyPath"], updated, dir, replies[1..]);
      PrefixCons(apply, rest.calls, ClusterCommands(kops, paths["sshPublicKeyPath"], dir, config["ConfigBaseURL"], config["FullyQualifiedName"]));
      if |replies| >= 4 {
        assert replies[1..][0] == replies[1] && replies[1..][1] == replies[2] && replies[1..][2] == replies[3];
      }
    }
  }

  lemma {:induction false} PrefixCons<T>(x: T, a: seq<T>, b: seq<T>)
    requires a <= b
    ensures [x] + a <= [x] + b
  {
    assert ([x] + b)[..|[x] + a|] == [x] + b[..|a|];
  }

  /** create. The cluster configuration gains the derived entries once terraform has
      applied; the terraform state it reads is a parameter. */
  method Create(binaries: Binaries, paths: map<string, string>, config: ClusterConfig, state: TerraformState,
                replies: seq<Reply>) returns (r: Run)
    requires PathsValidated(paths)
    modifies config
    ensures r == CreateRun(binaries.terraform, binaries.kops, paths, old(config.entries), state, replies)
    ensures config.entries == if replies != [] && !replies[0].failed
                              then KopsConfig(old(config.entries), state, paths["outputDir"]).0
                              else old(config.entries)
  {
    var outputDir := paths["outputDir"];
    r := Checked(TerraformApply(binaries.terraform, outputDir, outputDir + "/terraform.tfstate"), replies, CreateFailed);
    if !r.outcome.Completed? {
      return;
    }
    var apply := r;
    var kopsConfig := GenerateKopsConfig(config, state, outputDir);
    if kopsConfig.Failed? {
      return Run(r.calls, Aborted(CreateFailed + ErrorText(kopsConfig.error)));
    }
    if "ConfigBaseURL" !in config.entries {
      return Run(r.calls, Aborted(CreateFailed + ErrorText(MissingKey("ConfigBaseURL"))));
    }
    var base := config.entries["ConfigBaseURL"];
    var add := Checked(KopsAddCluster(binaries.kops, kopsConfig.path, base), replies[1..], CreateFailed);
    r := Then(r, add);
    if !add.outcome.Completed? {
      return;
    }
    if "FullyQualifiedName" !in config.entries {
      return Run(r.calls, Aborted(CreateFailed + ErrorText(MissingKey("FullyQualifiedName"))));
    }
    var name := config.entries["FullyQualifiedName"];
    var secret := Checked(KopsAddSshKey(binaries.kops, name, paths["sshPublicKeyPath"], base), replies[2..], CreateFailed);
    r := Then(r, secret);
    if !secret.outcome.Completed? {
      return;
    }
    assert replies[1..][1..] == replies[2..];
    var update := Checked(KopsUpdateCluster(binaries.kops, name, base), replies[3..], CreateFailed);
    r := Then(r, update);
    assert replies[1..][2..] == replies[3..];
    ThenAssociative(apply, add, secret);
    ThenAssociative(Then(apply, add), secret, update);
    ThenAssociative(apply, add, Then(secret, update));
  }

  /** update: the cluster name is read first, outside the try block; unless `yes`, the user
      must confirm; then terraform applies, the kops configuration is regenerated, kops
      replaces and updates the cluster, and a rolling update follows when `yes` was given
      or the user accepts it at the second prompt. */
  function UpdateRun(terraform: string, kops: string, paths: map<string, string>, config: map<string, string>,
                     state: TerraformState, yes: bool, confirmUpdate: bool, confirmRolling: bool,
                     replies: seq<Reply>): Run
    requires PathsValidated(paths)
  {
    if "FullyQualifiedName" !in config then Run([], Aborted(Uncaught("FullyQualifiedName")))
    else if !yes && !confirmUpdate then Run([], Aborted(Declined))
    else
      var name := config["FullyQualifiedName"];
      var dir := paths["outputDir"];
      var apply := Checked(TerraformApply(terraform, dir, dir + "/terraform.tfstate"), replies, UpdateFailed);
      if !apply.outcome.Completed? then apply
      else
        var (updated, result) := KopsConfig(config, state, dir);
        match result
        case Failed(e) => Run(apply.calls, Aborted(UpdateFailed + ErrorText(e)))
        case Written(path) => Then(apply, ReplaceCluster(kops, name, updated, path, yes || confirmRolling, replies[1..]))
  }

  /** The kops half of update, on the cluster configuration the kops configuration was
      generated from. */
  function ReplaceCluster(kops: string, name: string, config: map<string, string>, kopsConfigPath: string,
                          rolling: bool, replies: seq<Reply>): Run
  {
    if "ConfigBaseURL" !in config then Run([], Aborted(UpdateFailed + ErrorText(MissingKey("ConfigBaseURL"))))
    else
      var base := config["ConfigBaseURL"];
      var replace := Checked(KopsReplaceCluster(kops, kopsConfigPath, base), replies, UpdateFailed);
      if !replace.outcome.Completed? then replace
      else
        var update := Checked(KopsUpdateCluster(kops, name, base), replies[1..], UpdateFailed);
        if !update.outcome.Completed? || !rolling then Then(replace, update)
        else Then(replace, Then(update, Checked(KopsRollingUpdate(kops, name, base), replies[2..], UpdateFailed)))
  }

  /** The kops commands update issues when all goes well, as its test expects them. */
  function RolloutCommands(kops: string, dir: string, base: string, name: string, rolling: bool): seq<Command> {
    [Command(kops, ["replace", "cluster", "-f", dir + "/kops.config", "--state", base]),
     Command(kops, ["update", "cluster", "--name", name, "--state", base, "--yes"])]
    + if rolling then [Command(kops, ["rolling-update", "cluster", "--name", name, "--state", base])] else []
  }

  /** All the commands update issues when all goes well. */
  function UpdateCommands(terraform: string, kops: string, paths: map<string, string>, config: map<string, string>,
                          rolling: bool): seq<Command>
    requires PathsValidated(paths) && "ConfigBaseURL" in config && "FullyQualifiedName" in config
  {
    var dir := paths["outputDir"];
    var statePath := dir + "/terraform.tfstate";
    [Command(terraform, ["apply", "-state=" + statePath, dir])]
      + RolloutCommands(kops, dir, config["ConfigBaseURL"], config["FullyQualifiedName"], rolling)
  }

  /** The kops half of update issues a prefix of replace, update and, only when asked for,
      the rolling update; it completes exactly when each of those succeeded. */
  lemma {:induction false} ReplaceClusterOrder(kops: string, name: string, config: map<string, string>, dir: string,
                                               rolling: bool, replies: seq<Reply>)
    requires "ConfigBaseURL" in config
    ensures var r := ReplaceCluster(kops, name, config, dir + "/kops.config", rolling, replies);
      var commands := RolloutCommands(kops, dir, config["ConfigBaseURL"], name, rolling);
      && r.calls <= commands
      && (r.outcome == Completed <==>
            |replies| >= |commands| && forall k :: 0 <= k < |commands| ==> !replies[k].failed)
      && (r.outcome == Completed ==> r.calls == commands)
      && (r.outcome.Aborted? ==> UpdateFailed <= r.outcome.message)
  {
    if |replies| >= 3 {
      assert replies[1..][0] == replies[1] && replies[2..][0] == replies[2];
    } else if |replies| >= 2 {
      assert replies[1..][0] == replies[1];
    }
  }

  /** update stops before any command when the cluster name is missing or the user declines;
      otherwise it issues a prefix of apply, replace, update and the rolling update, the last
      only when `yes` was given or the user accepted it, and every failure is reported as a
      failed update. */
  lemma {:induction false} UpdateOrder(terraform: string, kops: string, paths: map<string, string>, config: map<string, string>,
                                       state: TerraformState, yes: bool, confirmUpdate: bool, confirmRolling: bool,
                                       replies: seq<Reply>)
    requires PathsValidated(paths)
    ensures var r := UpdateRun(terraform, kops, paths, config, state, yes, confirmUpdate, confirmRolling, replies);
      && ("FullyQualifiedName" !in config ==> r == Run([], Aborted(Uncaught("FullyQualifiedName"))))
      && ("FullyQualifiedName" in config && !yes && !confirmUpdate ==> r == Run([], Aborted(Declined)))
      && ("ConfigBaseURL" in config && "FullyQualifiedName" in config && (yes || confirmUpdate) ==>
            r.calls <= UpdateCommands(terraform, kops, paths, config, yes || confirmRolling))
      && (r.outcome == Completed ==>
            && "ConfigBaseURL" in config && "FullyQualifiedName" in config && (yes || confirmUpdate)
            && KopsConfig(config, state, paths["outputDir"]).1.Written?
            && r.calls == UpdateCommands(terraform, kops, paths, config, yes || confirmRolling))
      && (r.outcome.Aborted? && "FullyQualifiedName" in config && (yes || confirmUpdate) ==>
            UpdateFailed <= r.outcome.message)
  {
    var dir := paths["outputDir"];
    var (updated, result) := KopsConfig(config, state, dir);
    KopsConfigKeeps(config, state, dir, "ConfigBaseURL");
    if "FullyQualifiedName" in config && (yes || confirmUpdate) && replies != [] && !replies[0].failed
       && result.Written? && "ConfigBaseURL" in config {
      var statePath := dir + "/terraform.tfstate";
      var apply := Command(terraform, ["apply", "-state=" + statePath, dir]);
      var rolling := yes || confirmRolling;
      var rest := ReplaceCluster(kops, config["FullyQualifiedName"], updated, dir + "/kops.config", rolling, replies[1..]);
      assert UpdateRun(terraform, kops, paths, config, state, yes, confirmUpdate, confirmRolling, replies)
          == Then(Run([apply], Completed), rest);
      ReplaceClusterOrder(kops, config["FullyQualifiedName"], updated, dir, rolling, replies[1..]);
      PrefixCons(apply, rest.calls, RolloutCommands(kops, dir, config["ConfigBaseURL"], config["FullyQualifiedName"], rolling));
    }
  }

  /** update. The cluster configuration gains the derived entries once terraform has
      applied; the answers to the two prompts and the terraform state are parameters. */
  method Update(binaries: Binaries, paths: map<string, string>, config: ClusterConfig, state: TerraformState,
                yes: bool, confirmUpdate: bool, confirmRolling: bool, replies: seq<Reply>) returns (r: Run)
    requires PathsValidated(paths)
    modifies config
    ensures r == UpdateRun(binaries.terraform, binaries.kops, paths, old(config.entries), state, yes, confirmUpdate,
                           confirmRolling, replies)
    ensures config.entries ==
      if "FullyQualifiedName" in old(config.entries) && (yes || confirmUpdate) && replies != [] && !replies[0].failed
      then KopsConfig(old(config.entries), state, paths["outputDir"]).0
      else old(config.entries)
  {
    if "FullyQualifiedName" !in config.entries {
      return Run([], Aborted(Uncaught("FullyQualifiedName")));
    }
    var clusterName := config.entries["FullyQualifiedName"];
    var outputDir := paths["outputDir"];
    if !yes && !confirmUpdate {
      return Run([], Aborted(Declined));
    }
    r := Checked(TerraformApply(binaries.terraform, outputDir, outputDir + "/terraform.tfstate"), replies, UpdateFailed);
    if !r.outcome.Completed? {
      return;
    }
    var apply := r;
    var kopsConfig := GenerateKopsConfig(config, state, outputDir);
    if kopsConfig.Failed? {
      return Run(r.calls, Aborted(UpdateFailed + ErrorText(kopsConfig.error)));
    }
    if "ConfigBaseURL" !in config.entries {
      return Run(r.calls, Aborted(UpdateFailed + ErrorText(MissingKey("ConfigBaseURL"))));
    }
    var base := config.entries["ConfigBaseURL"];
    var replace := Checked(KopsReplaceCluster(binaries.kops, kopsConfig.path, base), replies[1..], UpdateFailed);
    r := Then(r, replace);
    if !replace.outcome.Completed? {
      return;
    }
    var update := Checked(KopsUpdateCluster(binaries.kops, clusterName, base), replies[2..], UpdateFailed);
    r := Then(r, update);
    assert replies[1..][1..] == replies[2..];
    if !update.outcome.Completed? {
      ThenAssociative(apply, replace, update);
      return;
    }
    if yes || confirmRolling {
      var rolling := Checked(KopsRollingUpdate(binaries.kops, clusterName, base), replies[3..], UpdateFailed);
      r := Then(r, rolling);
      assert replies[1..][2..] == replies[3..];
      ThenAssociative(apply, replace, update);
      ThenAssociative(Then(apply, replace), update, rolling);
      ThenAssociative(apply, replace, Then(update, rolling));
    } else {
      ThenAssociative(apply, replace, update);
    }
  }

  /** destroy: unless `yes`, the user must confirm (the cluster name for the prompt is read
      outside the try block); then kops deletes the cluster and terraform destroys the
      network. */
  function DestroyRun(terraform: string, kops: string, paths: map<string, string>, config: map<string, string>,
                      yes: bool, confirmed: bool, replies: seq<Reply>): Run
    requires PathsValidated(paths)
  {
    if !yes && "FullyQualifiedName" !in config then Run([], Aborted(Uncaught("FullyQualifiedName")))
    else if !yes && !confirmed then Run([], Aborted(Declined))
    else if "FullyQualifiedName" !in config then Run([], Aborted(DestroyFailed + ErrorText(MissingKey("FullyQualifiedName"))))
    else if "ConfigBaseURL" !in config then Run([], Aborted(DestroyFailed + ErrorText(MissingKey("ConfigBaseURL"))))
    else
      var delete := Checked(KopsDestroyCluster(kops, config["FullyQualifiedName"], config["ConfigBaseURL"]), replies, DestroyFailed);
      if !delete.outcome.Completed? then delete
      else Then(delete, Checked(TerraformDestroy(terraform, paths["outputDir"]), replies[1..], DestroyFailed))
  }

  /** destroy. The answer to the prompt is a parameter. */
  method Destroy(binaries: Binaries, paths: map<string, string>, config: map<string, string>, yes: bool, confirmed: bool,
                 replies: seq<Reply>) returns (r: Run)
    requires PathsValidated(paths)
    ensures r == DestroyRun(binaries.terraform, binaries.kops, paths, config, yes, confirmed, replies)
  {
    if !yes {
      if "FullyQualifiedName" !in config {
        return Run([], Aborted(Uncaught("FullyQualifiedName")));
      }
      if !confirmed {
        return Run([], Aborted(Declined));
      }
    }
    if "FullyQualifiedName" !in config {
      return Run([], Aborted(DestroyFailed + ErrorText(MissingKey("FullyQualifiedName"))));
    }
    if "ConfigBaseURL" !in config {
      return Run([], Aborted(DestroyFailed + ErrorText(MissingKey("ConfigBaseURL"))));
    }
    r := Checked(KopsDestroyCluster(binaries.kops, config["FullyQualifiedName"], config["ConfigBaseURL"]), replies,
                 DestroyFailed);
    if !r.outcome.Completed? {
      return;
    }
    r := Then(r, Checked(TerraformDestroy(binaries.terraform, paths["outputDir"]), replies[1..], DestroyFailed));
  }

  /** The commands destroy issues when all goes well, as its test expects them. */
  function DestroyCommands(terraform: string, kops: string, paths: map<string, string>, config: map<string, string>): seq<Command>
    requires PathsValidated(paths) && "ConfigBaseURL" in config && "FullyQualifiedName" in config
  {
    [Command(kops, ["delete", "cluster", config["FullyQualifiedName"], "--state", config["ConfigBaseURL"], "--yes"]),
     Command(terraform, ["destroy", "-force", paths["outputDir"]])]
  }

  /** destroy issues nothing when the user declines; otherwise a prefix of the kops delete
      and the terraform destroy, the second only once the first succeeded; it completes
      exactly when both succeeded. */
  lemma {:induction false} DestroyOrder(terraform: string, kops: string, paths: map<string, string>, config: map<string, string>,
                                        yes: bool, confirmed: bool, replies: seq<Reply>)
    requires PathsValidated(paths)
    ensures var r := DestroyRun(terraform, kops, paths, config, yes, confirmed, replies);
      && (!yes && !confirmed ==> r.calls == [])
      && ("ConfigBaseURL" in config && "FullyQualifiedName" in config ==>
            r.calls <= DestroyCommands(terraform, kops, paths, config))
      && (|r.calls| == 2 ==> !replies[0].failed)
      && (r.outcome == Completed <==>
            && (yes || confirmed) && "ConfigBaseURL" in config && "FullyQualifiedName" in config
            && |replies| >= 2 && !replies[0].failed && !replies[1].failed)
  {
    if |replies| >= 2 {
      assert replies[1..][0] == replies[1];
    }
  }
}
