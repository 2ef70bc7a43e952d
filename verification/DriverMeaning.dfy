/**
 * What the options of a new driver mean, read off the option map by name (driver/kubernetes/factory.go): whether it
 * can be made, what its Deployment and ConfigMap say, and what its pods find on the host.
 */
module DriverMeaning {
  import opened Text
  import opened Manifest
  import opened Factory

  function Given(opts: Options, name: string): Option<string> {
    if name in opts then Some(opts[name]) else None
  }

  /** Only the command's own values of an option are accepted, and no other option. */
  lemma ExactlyTheseAreAccepted(k: string, v: string)
    ensures Accepted(k, v) <==>
      || k in ["image", "namespace", "containerd-namespace", "containerd-sock", "docker-sock", "custom-config", "env"]
      || (k == "replicas" && Atoi(v).Some?)
      || (k == "rootless" && ParseBool(v).Some?)
      || (k == "loadbalance" && (v == "sticky" || v == "random"))
      || (k == "worker" && (v == "auto" || v == "containerd" || v == "runc"))
      || (k == "runtime" && (v == "auto" || v == "docker" || v == "containerd"))
  {
    hide KeyOf, ParseBool, Atoi;
    KeyOfName(Image);
    KeyOfName(Namespace);
    KeyOfName(Replicas);
    KeyOfName(Rootless);
    KeyOfName(LoadBalance);
    KeyOfName(Worker);
    KeyOfName(ContainerdNamespace);
    KeyOfName(ContainerdSock);
    KeyOfName(DockerSock);
    KeyOfName(Runtime);
    KeyOfName(CustomConfig);
    KeyOfName(Env);
    if KeyOf(k).Some? {
      assert NameOf(KeyOf(k).value) == k;
    }
  }

  predicate RootlessMeant(opts: Options) {
    Given(opts, "rootless").Some? && ParseBool(opts["rootless"]) == Some(true)
  }

  /** An image option that is not empty wins over the default, which for a rootless builder is another one. */
  function ImageMeant(opts: Options): string {
    if Given(opts, "image").Some? && opts["image"] != "" then opts["image"]
    else if RootlessMeant(opts) then "docker.io/moby/buildkit:buildx-stable-1-rootless"
    else "docker.io/moby/buildkit:buildx-stable-1"
  }

  function RuntimeMeant(opts: Options): string {
    if Given(opts, "runtime") == Some("containerd") then "containerd" else "docker"
  }

  /** The worker "auto" follows the runtime; without the option the worker stays unset. */
  function WorkerMeant(opts: Options): string {
    match Given(opts, "worker")
    case None => ""
    case Some(worker) =>
      if worker != "auto" then worker
      else if Given(opts, "runtime") == Some("containerd") then "containerd"
      else "runc"
  }

  function ReplicasMeant(opts: Options): int {
    if Given(opts, "replicas").Some? && Atoi(opts["replicas"]).Some? then Atoi(opts["replicas"]).value else 1
  }

  function Meant(cfg: Config): DeploymentOpt {
    var o := cfg.opts;
    DeploymentOpt(
      "", if cfg.name == "" then "buildkit" else cfg.name, ImageMeant(o), ReplicasMeant(o), cfg.buildkitFlags,
      RootlessMeant(o), WorkerMeant(o),
      if Given(o, "containerd-namespace").Some? then o["containerd-namespace"] else "k8s.io",
      if Given(o, "containerd-sock").Some? then o["containerd-sock"] else "/run/containerd/containerd.sock",
      if Given(o, "docker-sock").Some? then o["docker-sock"] else "/var/run/docker.sock",
      RuntimeMeant(o),
      if Given(o, "custom-config").Some? then o["custom-config"] else "",
      if Given(o, "env").Some? then ParseEnv(o["env"]) else map[])
  }

  lemma WorkerAndRuntimeAreMeant(s: Settings, opts: Options)
    requires s.opt.containerRuntime == (if Given(opts, "runtime").Some? then opts["runtime"] else "docker")
    requires s.opt.worker == (if Given(opts, "worker").Some? then opts["worker"] else "")
    requires Given(opts, "runtime").Some? ==>
      opts["runtime"] == "auto" || opts["runtime"] == "docker" || opts["runtime"] == "containerd"
    ensures ResolveAuto(s.opt).worker == WorkerMeant(opts) && ResolveAuto(s.opt).containerRuntime == RuntimeMeant(opts)
  {
    assert |"auto"| == 4 && |"docker"| == 6 && |"containerd"| == 10;
  }

  /** The settings that the options of a new driver mean. */
  function Read(cfg: Config, namespace: string): Settings {
    Chosen(StartSettings(NewFields(namespace), cfg), cfg.opts)
  }

  lemma ImageIsMeant(cfg: Config, namespace: string)
    ensures FinalOpt(Read(cfg, namespace)).image == ImageMeant(cfg.opts)
    ensures FinalOpt(Read(cfg, namespace)).rootless == RootlessMeant(cfg.opts)
  {
    hide ParseEnv, Atoi, ParseBool;
  }

  lemma PathsAreMeant(cfg: Config, namespace: string)
    ensures Read(cfg, namespace).opt.containerdSockHostPath == Meant(cfg).containerdSockHostPath
    ensures Read(cfg, namespace).opt.dockerSockHostPath == Meant(cfg).dockerSockHostPath
    ensures Read(cfg, namespace).opt.containerdNamespace == Meant(cfg).containerdNamespace
  {
    hide ParseEnv, Atoi, ParseBool, WorkerMeant, RuntimeMeant, ImageMeant, RootlessMeant, ReplicasMeant;
  }

  lemma NamesAreMeant(cfg: Config, namespace: string)
    ensures Read(cfg, namespace).opt.namespace == Meant(cfg).namespace
    ensures Read(cfg, namespace).opt.name == Meant(cfg).name
    ensures Read(cfg, namespace).opt.customConfig == Meant(cfg).customConfig
  {
    hide ParseEnv, Atoi, ParseBool, WorkerMeant, RuntimeMeant, ImageMeant, RootlessMeant, ReplicasMeant;
  }

  lemma ValuesAreMeant(cfg: Config, namespace: string)
    ensures Read(cfg, namespace).opt.replicas == Meant(cfg).replicas
    ensures Read(cfg, namespace).opt.buildkitFlags == Meant(cfg).buildkitFlags
    ensures Read(cfg, namespace).opt.environments == Meant(cfg).environments
  {
    hide ParseEnv, Atoi, ParseBool, WorkerMeant, RuntimeMeant, ImageMeant, RootlessMeant;
    assert "env" in cfg.opts ==> map[] + ParseEnv(cfg.opts["env"]) == ParseEnv(cfg.opts["env"]);
  }

  lemma FinalOptKeeps(s: Settings)
    ensures
      var opt := FinalOpt(s);
      opt == s.opt.(image := opt.image, worker := opt.worker, containerRuntime := opt.containerRuntime)
  {
  }

  lemma RuntimeIsMeant(cfg: Config, namespace: string)
    requires AllAccepted(cfg.opts)
    ensures FinalOpt(Read(cfg, namespace)).worker == WorkerMeant(cfg.opts)
    ensures FinalOpt(Read(cfg, namespace)).containerRuntime == RuntimeMeant(cfg.opts)
  {
    hide ParseEnv, Atoi, ParseBool, WorkerMeant, RuntimeMeant, ResolveAuto, KeyOf, Accepted;
    if "runtime" in cfg.opts {
      assert Accepted("runtime", cfg.opts["runtime"]);
      RuntimeValues(cfg.opts["runtime"]);
    }
    WorkerAndRuntimeAreMeant(Read(cfg, namespace), cfg.opts);
  }

  lemma OptionsMean(cfg: Config, namespace: string)
    requires AllAccepted(cfg.opts)
    ensures FinalOpt(Read(cfg, namespace)) == Meant(cfg)
  {
    hide FinalOpt, Read, ImageMeant, RootlessMeant, WorkerMeant, RuntimeMeant, ReplicasMeant, ParseEnv;
    ImageIsMeant(cfg, namespace);
    RuntimeIsMeant(cfg, namespace);
    PathsAreMeant(cfg, namespace);
    NamesAreMeant(cfg, namespace);
    ValuesAreMeant(cfg, namespace);
    FinalOptKeeps(Read(cfg, namespace));
  }

  lemma RuntimeValues(v: string)
    requires Accepted("runtime", v)
    ensures v == "auto" || v == "docker" || v == "containerd"
  {
    KeyOfName(Runtime);
  }

  /**
   * A driver can be made exactly when the options do not ask for rootless together with a containerd worker, named or
   * by following a containerd runtime, and the config file, if any, can be read.
   */
  lemma NewDriverSucceedsExactly(cfg: Config, namespace: string, file: Option<string>)
    requires AllAccepted(cfg.opts)
    ensures Init(NewFields(namespace), cfg, file).ok <==>
      && !(Given(cfg.opts, "rootless").Some? && ParseBool(cfg.opts["rootless"]) == Some(true)
           && (Given(cfg.opts, "worker") == Some("containerd")
               || (Given(cfg.opts, "worker") == Some("auto") && Given(cfg.opts, "runtime") == Some("containerd"))))
      && (cfg.configFile == "" || file.Some?)
  {
    hide DeploymentFor, FinalOpt, Chosen, ParseBool;
    OptionsMean(cfg, namespace);
    WorkerIsContainerd(cfg.opts);
  }

  lemma WorkerIsContainerd(opts: Options)
    ensures WorkerMeant(opts) == "containerd" <==>
      || Given(opts, "worker") == Some("containerd")
      || (Given(opts, "worker") == Some("auto") && Given(opts, "runtime") == Some("containerd"))
  {
    assert |"containerd"| == 10 && |"auto"| == 4 && |"runc"| == 4;
  }

  lemma NamesOfDeployment(opt: DeploymentOpt)
    ensures DeploymentFor(opt).name == opt.name && DeploymentFor(opt).labels == LabelsOf(opt)
    ensures DeploymentFor(opt).annotations == AnnotationsOf(opt)
  {
    hide MountList, VolumeList, ArgList;
  }

  /** The fields of a driver that was made. */
  lemma NewDriverFieldsMean(cfg: Config, namespace: string, file: Option<string>)
    requires AllAccepted(cfg.opts) && Init(NewFields(namespace), cfg, file).ok
    ensures
      var d := Init(NewFields(namespace), cfg, file).fields;
      && d.namespace == (if Given(cfg.opts, "namespace").Some? then cfg.opts["namespace"] else namespace)
      && d.loadbalance == (if Given(cfg.opts, "loadbalance").Some? then cfg.opts["loadbalance"] else "sticky")
      && d.minReplicas == ReplicasMeant(cfg.opts)
      && d.deployment == Some(DeploymentFor(Meant(cfg))) && d.configMap.Some?
      && d.configMap.value.name == d.deployment.value.name && d.configMap.value.labels == d.deployment.value.labels
      && d.configMap.value.annotations == d.deployment.value.annotations
      && d.configMap.value.contents ==
           (if cfg.configFile != "" then UserConfig(file.value)
            else if Given(cfg.opts, "containerd-namespace").Some? then DefaultConfig(cfg.opts["containerd-namespace"])
            else DefaultConfig("k8s.io"))
  {
    hide FinalOpt, ParseBool, Atoi, DeploymentFor, RuntimeMeant, WorkerMeant;
    NamesOfDeployment(Meant(cfg));
    OptionsMean(cfg, namespace);
  }

  /** What the Deployment of a new driver says. */
  lemma NewDriverBuilds(cfg: Config, namespace: string, file: Option<string>)
    requires AllAccepted(cfg.opts) && Init(NewFields(namespace), cfg, file).ok
    ensures Init(NewFields(namespace), cfg, file).fields.deployment.Some?
    ensures
      var d, o := Init(NewFields(namespace), cfg, file).fields.deployment.value, cfg.opts;
      var containerd := WorkerMeant(o) == "containerd";
      && d.name == (if cfg.name == "" then "buildkit" else cfg.name)
      && d.image == ImageMeant(o) && d.replicas == Int32(ReplicasMeant(o))
      && d.selector == map["app" := d.name] && d.labels == d.podLabels
      && d.podLabels == map[
           "app" := d.name, "runtime" := RuntimeMeant(o), "worker" := WorkerMeant(o),
           "rootless" := if RootlessMeant(o) then "true" else "false"]
      && d.privileged == !RootlessMeant(o)
      && d.args == cfg.buildkitFlags
           + (if RootlessMeant(o) then ["--oci-worker-no-process-sandbox"] else [])
           + (if containerd then
                ["--oci-worker=false", "--containerd-worker=true", "--root", "/var/lib/buildkit/" + d.name] else [])
      && d.env == (if Given(o, "env").Some? then ParseEnv(o["env"]) else map[])
      && d.antiAffinity ==
           (if containerd || (RuntimeMeant(o) == "docker" && !RootlessMeant(o)) then Some(d.podLabels) else None)
  {
    hide Init, MountList, VolumeList, ImageMeant, ReplicasMeant, RuntimeMeant, WorkerMeant, RootlessMeant, ParseEnv;
    NewDriverFieldsMean(cfg, namespace, file);
  }

  /** A rootless builder's pods are annotated as unconfined, others are not annotated. */
  lemma RootlessPodsAreUnconfined(cfg: Config, namespace: string, file: Option<string>)
    requires AllAccepted(cfg.opts) && Init(NewFields(namespace), cfg, file).ok
    ensures
      var d := Init(NewFields(namespace), cfg, file).fields.deployment;
      d.Some? && d.value.podAnnotations ==
        if RootlessMeant(cfg.opts) then map[
          "container.apparmor.security.beta.kubernetes.io/buildkitd" := "unconfined",
          "container.seccomp.security.alpha.kubernetes.io/buildkitd" := "unconfined"]
        else map[]
  {
    hide Init, MountList, VolumeList, ArgList, ImageMeant, ReplicasMeant, RuntimeMeant, WorkerMeant, ParseEnv;
    NewDriverFieldsMean(cfg, namespace, file);
    var apparmor := "container.apparmor.security.beta.kubernetes.io/";
    var seccomp := "container.seccomp.security.alpha.kubernetes.io/";
    assert apparmor + "buildkitd" == "container.apparmor.security.beta.kubernetes.io/buildkitd";
    assert seccomp + "buildkitd" == "container.seccomp.security.alpha.kubernetes.io/buildkitd";
  }

  /** For every runtime: which sockets the pods have, by the options. */
  lemma NewDriverSockets(cfg: Config, namespace: string, file: Option<string>)
    requires AllAccepted(cfg.opts) && Init(NewFields(namespace), cfg, file).ok
    ensures Init(NewFields(namespace), cfg, file).fields.deployment.Some?
    ensures
      var d := Init(NewFields(namespace), cfg, file).fields.deployment.value;
      && (HasName(d.mounts, "containerd-sock") <==>
            || Given(cfg.opts, "worker") == Some("containerd")
            || (Given(cfg.opts, "worker") == Some("auto") && Given(cfg.opts, "runtime") == Some("containerd")))
      && (HasName(d.mounts, "docker-sock") <==>
            Given(cfg.opts, "runtime") != Some("containerd")
            && !(Given(cfg.opts, "rootless").Some? && ParseBool(cfg.opts["rootless"]) == Some(true)))
  {
    hide Init, DeploymentFor, ImageMeant, ReplicasMeant, ParseEnv, ParseBool;
    NewDriverFieldsMean(cfg, namespace, file);
    MountsByName(Meant(cfg));
    WorkerIsContainerd(cfg.opts);
    assert |"containerd"| == 10 && |"docker"| == 6;
  }

  /**
   * What the pods of a new driver find at each mounted path: the host's sockets as the options name them, the
   * driver's own ConfigMap and the custom one, and otherwise the host's directory of that very path.
   */
  lemma NewDriverMountsShowRight(cfg: Config, namespace: string, file: Option<string>, i: nat, j: nat)
    requires AllAccepted(cfg.opts) && Init(NewFields(namespace), cfg, file).ok
    requires Init(NewFields(namespace), cfg, file).fields.deployment.Some?
    requires i < |Init(NewFields(namespace), cfg, file).fields.deployment.value.mounts|
    requires j < |Init(NewFields(namespace), cfg, file).fields.deployment.value.volumes|
    requires
      var d := Init(NewFields(namespace), cfg, file).fields.deployment.value;
      d.mounts[i].name == d.volumes[j].name
    ensures Init(NewFields(namespace), cfg, file).fields.configMap.Some?
    ensures
      var fields, o := Init(NewFields(namespace), cfg, file).fields, cfg.opts;
      var path, source := fields.deployment.value.mounts[i].path, fields.deployment.value.volumes[j].source;
      if path == "/etc/buildkit/" then source == FromConfigMap(fields.configMap.value.name)
      else if path == "/etc/config/" then Given(o, "custom-config") == Some(SourceName(source)) && source.FromConfigMap?
      else if path == "/run/containerd/containerd.sock" then
        source == FromHost(
          if Given(o, "containerd-sock").Some? then o["containerd-sock"] else "/run/containerd/containerd.sock", Socket)
      else if path == "/run/docker.sock" then
        source == FromHost(if Given(o, "docker-sock").Some? then o["docker-sock"] else "/var/run/docker.sock", Socket)
      else if path == "/var/lib/buildkit/" + (if cfg.name == "" then "buildkit" else cfg.name) then
        source == FromHost(path, DirectoryOrCreate)
      else source == FromHost(path, Directory)
  {
    hide Init, MountList, VolumeList, ArgList, LabelsOf, ImageMeant, ReplicasMeant, ParseEnv, RuntimeMeant, WorkerMeant;
    NewDriverFieldsMean(cfg, namespace, file);
    MountsShowRight(Meant(cfg), i, j);
    if DeploymentFor(Meant(cfg)).mounts[i].path == "/etc/config/" {
      CustomMountNeedsOption(Meant(cfg), i);
    }
  }

  function SourceName(source: VolumeSource): string {
    match source case FromConfigMap(name) => name case FromHost(path, _) => path
  }

  lemma CustomMountNeedsOption(opt: DeploymentOpt, i: nat)
    requires i < |MountList(opt)| && MountList(opt)[i].path == "/etc/config/"
    ensures opt.customConfig != ""
  {
    hide ContainerdMounts;
    LateMountsAreApart(opt);
    assert |"/etc/config/"| == 12 && |"/etc/buildkit/"| == 14 && |"/run/docker.sock"| == 16;
    NoContainerdMountIsCustom(opt);
  }

  lemma NoContainerdMountIsCustom(opt: DeploymentOpt)
    ensures forall i :: 0 <= i < |ContainerdMounts(opt)| ==> |ContainerdMounts(opt)[i].path| != 12
  {
    BuildkitRootIsDistinct(opt);
    var ms := ContainerdMounts(opt);
    assert |ms[0].path| == 31 && |ms[2].path| == 19 && |ms[3].path| == 15 && |ms[4].path| == 8 && |ms[5].path| == 4;
  }

  // ----- numbers and flags as the command line writes them

  function Digits(n: nat): string {
    if n < 10 then [('0' as int + n) as char] else Digits(n / 10) + [('0' as int + n % 10) as char]
  }

  /** Go's strconv.Itoa. */
  function Itoa(n: int): string {
    if n < 0 then "-" + Digits(-n) else Digits(n)
  }

  lemma {:induction false} NumberOfDigits(n: nat)
    ensures IsDigits(Digits(n)) && Number(Digits(n)) == n
  {
    var s := Digits(n);
    if n < 10 {
      assert s[..|s| - 1] == "";
    } else {
      NumberOfDigits(n / 10);
      assert s[..|s| - 1] == Digits(n / 10);
    }
  }

  /** The number of replicas comes through: what Itoa writes, Atoi reads, for every 64-bit number. */
  lemma AtoiOfItoa(n: int)
    requires -0x8000_0000_0000_0000 <= n < 0x8000_0000_0000_0000
    ensures Atoi(Itoa(n)) == Some(n)
  {
    hide Number, Digits;
    if n < 0 {
      NumberOfDigits(-n);
      assert Itoa(n)[1..] == Digits(-n);
    } else {
      NumberOfDigits(n);
      assert '0' <= Digits(n)[0] <= '9';
    }
  }

  /** What Atoi reads: digits with at most a sign before them, of a number that fits; a plus sign changes nothing. */
  lemma AtoiReadsSignedDigits(s: string)
    ensures Atoi(s).Some? ==>
      && s != "" && (forall i :: 1 <= i < |s| ==> '0' <= s[i] <= '9')
      && ('0' <= s[0] <= '9' || ((s[0] == '+' || s[0] == '-') && |s| > 1))
    ensures IsDigits(s) ==> Atoi("+" + s) == Atoi(s)
  {
    hide Number;
    assert ("+" + s)[1..] == s;
    if Atoi(s).Some? {
      if s[0] == '+' || s[0] == '-' {
        assert forall i :: 1 <= i < |s| ==> s[i] == s[1..][i - 1];
      }
    }
  }

  /** The twelve words that are a truth value. */
  lemma ParseBoolKnowsTwelveWords(s: string)
    ensures ParseBool(s) == Some(true) <==>
      s == "1" || s == "t" || s == "T" || s == "true" || s == "TRUE" || s == "True"
    ensures ParseBool(s) == Some(false) <==>
      s == "0" || s == "f" || s == "F" || s == "false" || s == "FALSE" || s == "False"
  {
    assert "1"[0] == '1' && "t"[0] == 't' && "T"[0] == 'T' && "true"[0] == 't' && "TRUE"[0] == 'T' && "True"[0] == 'T';
    assert "0"[0] == '0' && "f"[0] == 'f' && "F"[0] == 'F' && "false"[0] == 'f' && "FALSE"[0] == 'F';
  }
}
