/**
 * The Deployment and ConfigMap objects of a builder (manifest/manifest.go), and what a builder pod's labels
 * advertise.
 */
module Manifest {
  import opened Text

  const CONTAINER_NAME := "buildkitd"
  const ANNOTATION_KEY := "buildkit.mobyproject.org/builder"
  const VERSION := "v0.0.0+unknown"

  datatype DeploymentOpt = DeploymentOpt(
    namespace: string,
    name: string,
    image: string,
    replicas: int,
    buildkitFlags: seq<string>,
    rootless: bool,
    worker: string,
    containerdNamespace: string,
    containerdSockHostPath: string,
    dockerSockHostPath: string,
    containerRuntime: string,
    customConfig: string,
    environments: map<string, string>)

  type Labels = map<string, string>

  datatype HostPathKind = Socket | Directory | DirectoryOrCreate
  datatype VolumeSource = FromConfigMap(name: string) | FromHost(path: string, kind: HostPathKind)
  datatype Volume = Volume(name: string, source: VolumeSource)
  datatype Mount = Mount(name: string, path: string, bidirectional: bool)
  datatype EnvVar = EnvVar(name: string, value: string)

  /** The part of a Deployment that varies between builders; `env` is the map that its EnvVar list stands for. */
  datatype Deployment = Deployment(
    namespace: string,
    name: string,
    labels: Labels,
    annotations: Labels,
    replicas: int,
    selector: Labels,
    podLabels: Labels,
    podAnnotations: Labels,
    image: string,
    args: seq<string>,
    privileged: bool,
    mounts: seq<Mount>,
    volumes: seq<Volume>,
    env: map<string, string>,
    antiAffinity: Option<Labels>)

  /** buildkitd.toml: the default template executed with a containerd namespace, or the user's own file. */
  datatype Contents = DefaultConfig(containerdNamespace: string) | UserConfig(data: string)

  datatype ConfigMap = ConfigMap(
    namespace: string,
    name: string,
    labels: Labels,
    annotations: Labels,
    contents: Contents)

  /** Go's conversion to int32. */
  function Int32(x: int): (r: int)
    ensures -0x8000_0000 <= r < 0x8000_0000
    ensures -0x8000_0000 <= x < 0x8000_0000 ==> r == x
    ensures (x - r) % 0x1_0000_0000 == 0
  {
    (x + 0x8000_0000) % 0x1_0000_0000 - 0x8000_0000
  }

  function BoolText(b: bool): string {
    if b then "true" else "false"
  }

  function LabelsOf(opt: DeploymentOpt): Labels {
    map[
      "app" := opt.name,
      "runtime" := opt.containerRuntime,
      "worker" := opt.worker,
      "rootless" := BoolText(opt.rootless)]
  }

  function AnnotationsOf(opt: DeploymentOpt): Labels {
    map[ANNOTATION_KEY := VERSION]
  }

  function NewConfigMap(opt: DeploymentOpt, contents: Contents): ConfigMap {
    ConfigMap(opt.namespace, opt.name, LabelsOf(opt), AnnotationsOf(opt), contents)
  }

  // ----- the environment list

  /** What a list of variables stands for: the last entry of a name wins. */
  function EnvMap(envs: seq<EnvVar>): map<string, string> {
    if envs == [] then map[]
    else
      var last := envs[|envs| - 1];
      EnvMap(envs[..|envs| - 1])[last.name := last.value]
  }

  predicate DistinctNames(envs: seq<EnvVar>) {
    forall i, j :: 0 <= i < j < |envs| ==> envs[i].name != envs[j].name
  }

  /** Renders the map in any order: every name once, with its value. */
  method Environments(environments: map<string, string>) returns (envs: seq<EnvVar>)
    ensures EnvMap(envs) == environments
    ensures DistinctNames(envs)
  {
    envs := [];
    var left := environments.Keys;
    while left != {}
      invariant left <= environments.Keys
      invariant EnvMap(envs) == map k | k in environments && k !in left :: environments[k]
      invariant DistinctNames(envs)
      invariant forall i :: 0 <= i < |envs| ==> envs[i].name in environments && envs[i].name !in left
      decreases left
    {
      var name :| name in left;
      var more := envs + [EnvVar(name, environments[name])];
      assert more[..|envs|] == envs;
      envs, left := more, left - {name};
    }
  }

  // ----- the Deployment

  const CONFIG_MOUNT := Mount("buildkitd-config", "/etc/buildkit/", false)
  const DOCKER_MOUNT := Mount("docker-sock", "/run/docker.sock", false)
  const CUSTOM_MOUNT := Mount("custom-config", "/etc/config/", false)

  function BaseDeployment(opt: DeploymentOpt): Deployment {
    Deployment(
      opt.namespace, opt.name, LabelsOf(opt), AnnotationsOf(opt), Int32(opt.replicas), map["app" := opt.name],
      LabelsOf(opt), map[], opt.image, opt.buildkitFlags, true,
      [CONFIG_MOUNT],
      [Volume("buildkitd-config", FromConfigMap(opt.name))],
      opt.environments, None)
  }

  function RootlessAnnotations(): Labels {
    map[
      "container.apparmor.security.beta.kubernetes.io/" + CONTAINER_NAME := "unconfined",
      "container.seccomp.security.alpha.kubernetes.io/" + CONTAINER_NAME := "unconfined"]
  }

  function BuildkitRoot(opt: DeploymentOpt): string {
    "/var/lib/buildkit/" + opt.name
  }

  function ContainerdArgs(opt: DeploymentOpt): seq<string> {
    ["--oci-worker=false", "--containerd-worker=true", "--root", BuildkitRoot(opt)]
  }

  function ContainerdMounts(opt: DeploymentOpt): seq<Mount> {
    [ Mount("containerd-sock", "/run/containerd/containerd.sock", false),
      Mount("var-lib-buildkit", BuildkitRoot(opt), true),
      Mount("var-lib-containerd", "/var/lib/containerd", true),
      Mount("run-containerd", "/run/containerd", true),
      Mount("var-log", "/var/log", true),
      Mount("tmp", "/tmp", true) ]
  }

  function ContainerdVolumes(opt: DeploymentOpt): seq<Volume> {
    [ Volume("containerd-sock", FromHost(opt.containerdSockHostPath, Socket)),
      Volume("var-lib-buildkit", FromHost(BuildkitRoot(opt), DirectoryOrCreate)),
      Volume("var-lib-containerd", FromHost("/var/lib/containerd", Directory)),
      Volume("run-containerd", FromHost("/run/containerd", Directory)),
      Volume("var-log", FromHost("/var/log", Directory)),
      Volume("tmp", FromHost("/tmp", Directory)) ]
  }

  function DockerMounts(opt: DeploymentOpt): seq<Mount> {
    if HasDockerSock(opt) then [DOCKER_MOUNT] else []
  }

  function CustomMounts(opt: DeploymentOpt): seq<Mount> {
    if opt.customConfig != "" then [CUSTOM_MOUNT] else []
  }

  function SandboxArgs(opt: DeploymentOpt): seq<string> {
    if opt.rootless then ["--oci-worker-no-process-sandbox"] else []
  }

  function WorkerArgs(opt: DeploymentOpt): seq<string> {
    if UsesContainerd(opt) then ContainerdArgs(opt) else []
  }

  function WorkerMounts(opt: DeploymentOpt): seq<Mount> {
    if UsesContainerd(opt) then ContainerdMounts(opt) else []
  }

  function WorkerVolumes(opt: DeploymentOpt): seq<Volume> {
    if UsesContainerd(opt) then ContainerdVolumes(opt) else []
  }

  function DockerVolumes(opt: DeploymentOpt): seq<Volume> {
    if HasDockerSock(opt) then [Volume("docker-sock", FromHost(opt.dockerSockHostPath, Socket))] else []
  }

  function CustomVolumes(opt: DeploymentOpt): seq<Volume> {
    if opt.customConfig != "" then [Volume("custom-config", FromConfigMap(opt.customConfig))] else []
  }

  predicate UsesContainerd(opt: DeploymentOpt) {
    opt.worker == "containerd"
  }

  predicate HasDockerSock(opt: DeploymentOpt) {
    opt.containerRuntime == "docker" && !opt.rootless
  }

  function MountList(opt: DeploymentOpt): seq<Mount> {
    [CONFIG_MOUNT] + WorkerMounts(opt) + DockerMounts(opt) + CustomMounts(opt)
  }

  function VolumeList(opt: DeploymentOpt): seq<Volume> {
    [Volume("buildkitd-config", FromConfigMap(opt.name))] + WorkerVolumes(opt) + DockerVolumes(opt) + CustomVolumes(opt)
  }

  function ArgList(opt: DeploymentOpt): seq<string> {
    opt.buildkitFlags + SandboxArgs(opt) + WorkerArgs(opt)
  }

  /** What NewDeployment returns, field by field. */
  function DeploymentFor(opt: DeploymentOpt): Deployment {
    BaseDeployment(opt).(
      args := ArgList(opt),
      privileged := !opt.rootless,
      podAnnotations := if opt.rootless then RootlessAnnotations() else map[],
      mounts := MountList(opt),
      volumes := VolumeList(opt),
      antiAffinity := if UsesContainerd(opt) || HasDockerSock(opt) then Some(LabelsOf(opt)) else None)
  }

  /** The Deployment object under construction: the fields that the amendments change, over the base. */
  class DeploymentObject {
    const opt: DeploymentOpt
    const env: seq<EnvVar>
    var podAnnotations: Labels
    var args: seq<string>
    var privileged: bool
    var mounts: seq<Mount>
    var volumes: seq<Volume>
    var antiAffinity: Option<Labels>

    function Content(): Deployment
      reads this
    {
      BaseDeployment(opt).(
        env := EnvMap(env), podAnnotations := podAnnotations, args := args, privileged := privileged,
        mounts := mounts, volumes := volumes, antiAffinity := antiAffinity)
    }

    constructor (opt: DeploymentOpt, env: seq<EnvVar>)
      requires EnvMap(env) == opt.environments
      ensures this.opt == opt && this.env == env
      ensures podAnnotations == map[] && args == opt.buildkitFlags && privileged
      ensures mounts == [CONFIG_MOUNT] && volumes == [Volume("buildkitd-config", FromConfigMap(opt.name))]
      ensures antiAffinity == None
    {
      this.opt, this.env := opt, env;
      podAnnotations, args, privileged := map[], opt.buildkitFlags, true;
      mounts := [CONFIG_MOUNT];
      volumes := [Volume("buildkitd-config", FromConfigMap(opt.name))];
      antiAffinity := None;
    }

    method ToRootless()
      modifies `args, `privileged, `podAnnotations
      ensures args == old(args) + ["--oci-worker-no-process-sandbox"]
      ensures !privileged
      ensures podAnnotations == old(podAnnotations) + RootlessAnnotations()
    {
      args := args + ["--oci-worker-no-process-sandbox"];
      privileged := false;
      podAnnotations :=
        podAnnotations["container.apparmor.security.beta.kubernetes.io/" + CONTAINER_NAME := "unconfined"];
      podAnnotations :=
        podAnnotations["container.seccomp.security.alpha.kubernetes.io/" + CONTAINER_NAME := "unconfined"];
      assert podAnnotations == old(podAnnotations) + RootlessAnnotations();
    }

    method ToContainerdWorker()
      modifies `args, `mounts, `volumes, `antiAffinity
      ensures args == old(args) + ContainerdArgs(opt)
      ensures mounts == old(mounts) + ContainerdMounts(opt) && volumes == old(volumes) + ContainerdVolumes(opt)
      ensures antiAffinity == Some(LabelsOf(opt))
    {
      args := args + ContainerdArgs(opt);
      mounts := mounts + ContainerdMounts(opt);
      volumes := volumes + ContainerdVolumes(opt);
      antiAffinity := Some(LabelsOf(opt));
    }

    method AddDockerSockMount()
      modifies `mounts, `volumes, `antiAffinity
      ensures mounts == old(mounts) + [DOCKER_MOUNT]
      ensures volumes == old(volumes) + [Volume("docker-sock", FromHost(opt.dockerSockHostPath, Socket))]
      ensures antiAffinity == Some(LabelsOf(opt))
    {
      mounts := mounts + [DOCKER_MOUNT];
      volumes := volumes + [Volume("docker-sock", FromHost(opt.dockerSockHostPath, Socket))];
      antiAffinity := Some(LabelsOf(opt));
    }

    /** The middle part of NewDeployment: the amendments that depend on rootless and worker. */
    method ToVariant()
      modifies this
      ensures args == old(args) + SandboxArgs(opt) + WorkerArgs(opt)
      ensures mounts == old(mounts) + WorkerMounts(opt) && volumes == old(volumes) + WorkerVolumes(opt)
      ensures privileged == (old(privileged) && !opt.rootless)
      ensures podAnnotations ==
        if opt.rootless then old(podAnnotations) + RootlessAnnotations() else old(podAnnotations)
      ensures antiAffinity == if UsesContainerd(opt) then Some(LabelsOf(opt)) else old(antiAffinity)
    {
      if opt.rootless {
        ToRootless();
      }
      if opt.worker == "containerd" {
        ToContainerdWorker();
      }
    }

    /** The last part of NewDeployment. */
    method AddOptionalMounts()
      modifies `mounts, `volumes, `antiAffinity
      ensures mounts == old(mounts) + DockerMounts(opt) + CustomMounts(opt)
      ensures volumes == old(volumes) + DockerVolumes(opt) + CustomVolumes(opt)
      ensures antiAffinity == if HasDockerSock(opt) then Some(LabelsOf(opt)) else old(antiAffinity)
    {
      if opt.containerRuntime == "docker" && !opt.rootless {
        AddDockerSockMount();
      }
      if opt.customConfig != "" {
        AddCustomConfigMount();
      }
    }

    method AddCustomConfigMount()
      modifies `mounts, `volumes
      ensures mounts == old(mounts) + [CUSTOM_MOUNT]
      ensures volumes == old(volumes) + [Volume("custom-config", FromConfigMap(opt.customConfig))]
    {
      mounts := mounts + [CUSTOM_MOUNT];
      volumes := volumes + [Volume("custom-config", FromConfigMap(opt.customConfig))];
    }
  }

  lemma FieldsMakeContent(d: DeploymentObject)
    requires EnvMap(d.env) == d.opt.environments
    requires d.podAnnotations == if d.opt.rootless then map[] + RootlessAnnotations() else map[]
    requires d.args == ArgList(d.opt) && d.privileged == !d.opt.rootless
    requires d.mounts == MountList(d.opt) && d.volumes == VolumeList(d.opt)
    requires d.antiAffinity == if UsesContainerd(d.opt) || HasDockerSock(d.opt) then Some(LabelsOf(d.opt)) else None
    ensures d.Content() == DeploymentFor(d.opt)
  {
    AddedToNothing(RootlessAnnotations());
  }

  lemma AddedToNothing(m: Labels)
    ensures map[] + m == m
  {
  }

  method NewDeployment(opt: DeploymentOpt) returns (d: DeploymentObject)
    ensures fresh(d) && d.opt == opt && d.Content() == DeploymentFor(opt)
    ensures DistinctNames(d.env)
  {
    hide DeploymentFor, BaseDeployment, WorkerMounts, WorkerVolumes, WorkerArgs, SandboxArgs, DockerMounts,
      DockerVolumes, CustomMounts, CustomVolumes, RootlessAnnotations, LabelsOf;
    var env := Environments(opt.environments);
    d := new DeploymentObject(opt, env);
    d.ToVariant();
    d.AddOptionalMounts();
    FieldsMakeContent(d);
  }

  // ----- every deployment is well formed

  predicate WellFormed(d: Deployment) {
    && Matching(d.mounts, d.volumes)
    && NoClash(d.mounts)
    && SelectorFinds(d.selector, d.podLabels)
  }

  predicate SelectorFinds(selector: Labels, labels: Labels) {
    selector != map[] && forall k :: k in selector ==> k in labels && labels[k] == selector[k]
  }

  /** Names are unique, and so are mount paths. */
  predicate NoClash(mounts: seq<Mount>) {
    && (forall i, j :: 0 <= i < j < |mounts| ==> mounts[i].name != mounts[j].name)
    && (forall i, j :: 0 <= i < j < |mounts| ==> mounts[i].path != mounts[j].path)
  }

  predicate Apart(a: seq<Mount>, b: seq<Mount>) {
    forall i, j :: 0 <= i < |a| && 0 <= j < |b| ==> a[i].name != b[j].name && a[i].path != b[j].path
  }

  lemma NoClashOfConcat(a: seq<Mount>, b: seq<Mount>)
    requires NoClash(a) && NoClash(b) && Apart(a, b)
    ensures NoClash(a + b)
  {
  }

  predicate Matching(mounts: seq<Mount>, volumes: seq<Volume>) {
    |mounts| == |volumes| && forall i :: 0 <= i < |mounts| ==> mounts[i].name == volumes[i].name
  }

  lemma MatchingOfConcat(a: seq<Mount>, va: seq<Volume>, b: seq<Mount>, vb: seq<Volume>)
    requires Matching(a, va) && Matching(b, vb)
    ensures Matching(a + b, va + vb)
  {
  }

  lemma MountsMatchVolumes(opt: DeploymentOpt)
    ensures Matching(MountList(opt), VolumeList(opt))
  {
    var m0, v0 := [CONFIG_MOUNT], [Volume("buildkitd-config", FromConfigMap(opt.name))];
    var m1 := WorkerMounts(opt);
    var v1 := WorkerVolumes(opt);
    MatchingOfConcat(m0, v0, m1, v1);
    MatchingOfConcat(m0 + m1, v0 + v1, DockerMounts(opt), DockerVolumes(opt));
    MatchingOfConcat(m0 + m1 + DockerMounts(opt), v0 + v1 + DockerVolumes(opt), CustomMounts(opt), CustomVolumes(opt));
  }

  /** Different mounts differ in the length of their path, or in a letter that the builder's name cannot reach. */
  lemma BuildkitRootIsDistinct(opt: DeploymentOpt)
    ensures BuildkitRoot(opt) != "/var/lib/containerd"
    ensures BuildkitRoot(opt) != "/run/containerd/containerd.sock"
    ensures |BuildkitRoot(opt)| >= 18
  {
    assert BuildkitRoot(opt)[9] == 'b' && "/var/lib/containerd"[9] == 'c';
    assert BuildkitRoot(opt)[1] == 'v' && "/run/containerd/containerd.sock"[1] == 'r';
  }

  lemma ContainerdMountsDoNotClash(opt: DeploymentOpt)
    ensures NoClash([CONFIG_MOUNT] + ContainerdMounts(opt))
  {
    BuildkitRootIsDistinct(opt);
    assert "buildkitd-config"[0] != "var-lib-buildkit"[0];
    var ms := ContainerdMounts(opt);
    assert |ms[0].path| == 31 && |ms[2].path| == 19 && |ms[3].path| == 15 && |ms[4].path| == 8 && |ms[5].path| == 4;
    assert |ms[0].name| == 15 && |ms[1].name| == 16 && |ms[2].name| == 18;
    assert |ms[3].name| == 14 && |ms[4].name| == 7 && |ms[5].name| == 3;
    NoClashOfConcat([CONFIG_MOUNT], ms);
  }

  lemma LateMountsAreApart(opt: DeploymentOpt)
    ensures
      var early := [CONFIG_MOUNT] + ContainerdMounts(opt);
      Apart(early, DockerMounts(opt)) && Apart(early, CustomMounts(opt))
    ensures Apart(DockerMounts(opt), CustomMounts(opt))
  {
    BuildkitRootIsDistinct(opt);
    var ms := ContainerdMounts(opt);
    assert |ms[0].path| == 31 && |ms[2].path| == 19 && |ms[3].path| == 15 && |ms[4].path| == 8 && |ms[5].path| == 4;
    assert |"docker-sock"| == 11 && |"/run/docker.sock"| == 16 && |"custom-config"| == 13 && |"/etc/config/"| == 12;
  }

  lemma ThreePartsDoNotClash(all: seq<Mount>, early: seq<Mount>, b: seq<Mount>, c: seq<Mount>)
    requires NoClash(all) && early <= all && |b| <= 1 && |c| <= 1
    requires Apart(all, b) && Apart(all, c) && Apart(b, c)
    ensures NoClash(early + b + c)
  {
    assert forall i :: 0 <= i < |early| ==> early[i] == all[i];
    NoClashOfConcat(early, b);
    NoClashOfConcat(early + b, c);
  }

  lemma MountsDoNotClash(opt: DeploymentOpt)
    ensures NoClash(MountList(opt))
  {
    ContainerdMountsDoNotClash(opt);
    LateMountsAreApart(opt);
    var base := [CONFIG_MOUNT];
    var early := base + WorkerMounts(opt);
    ThreePartsDoNotClash(base + ContainerdMounts(opt), early, DockerMounts(opt), CustomMounts(opt));
  }

  lemma SelectorFindsPods(name: string, labels: Labels)
    requires "app" in labels && labels["app"] == name
    ensures SelectorFinds(map["app" := name], labels)
  {
    assert "app" in map["app" := name];
  }

  /** For any options at all: mounts and volumes match one to one, nothing clashes, and the selector finds the pods. */
  lemma DeploymentIsWellFormed(opt: DeploymentOpt)
    ensures WellFormed(DeploymentFor(opt))
  {
    MountsMatchVolumes(opt);
    MountsDoNotClash(opt);
    SelectorFindsPods(opt.name, LabelsOf(opt));
  }

  // ----- what is behind each mount

  /** What a container must find at a path: the host's own sockets, the host's same directory, or a ConfigMap. */
  predicate RightSource(opt: DeploymentOpt, path: string, source: VolumeSource) {
    if path == "/etc/buildkit/" then source == FromConfigMap(opt.name)
    else if path == "/etc/config/" then source == FromConfigMap(opt.customConfig)
    else if path == "/run/containerd/containerd.sock" then source == FromHost(opt.containerdSockHostPath, Socket)
    else if path == "/run/docker.sock" then source == FromHost(opt.dockerSockHostPath, Socket)
    else if path == "/var/lib/buildkit/" + opt.name then source == FromHost(path, DirectoryOrCreate)
    else source == FromHost(path, Directory)
  }

  /** Mounts and volumes go together, one by one, and each mount shows the right thing. */
  predicate ShowsRight(opt: DeploymentOpt, mounts: seq<Mount>, volumes: seq<Volume>) {
    && |mounts| == |volumes|
    && forall i :: 0 <= i < |mounts| ==>
         mounts[i].name == volumes[i].name && RightSource(opt, mounts[i].path, volumes[i].source)
  }

  lemma ShowsRightOfConcat(opt: DeploymentOpt, a: seq<Mount>, va: seq<Volume>, b: seq<Mount>, vb: seq<Volume>)
    requires ShowsRight(opt, a, va) && ShowsRight(opt, b, vb)
    ensures ShowsRight(opt, a + b, va + vb)
  {
    hide RightSource;
  }

  // No two of the fixed paths have the same length, but for those in which the second letter differs.

  lemma ConfigShowsRight(opt: DeploymentOpt)
    ensures ShowsRight(opt, [CONFIG_MOUNT], [Volume("buildkitd-config", FromConfigMap(opt.name))])
  {
  }

  lemma DockerShowsRight(opt: DeploymentOpt)
    ensures ShowsRight(opt, DockerMounts(opt), DockerVolumes(opt))
  {
    assert |"/run/docker.sock"| == 16 && |"/etc/buildkit/"| == 14 && |"/etc/config/"| == 12;
    assert |"/run/containerd/containerd.sock"| == 31;
  }

  lemma CustomShowsRight(opt: DeploymentOpt)
    ensures ShowsRight(opt, CustomMounts(opt), CustomVolumes(opt))
  {
    assert |"/etc/buildkit/"| == 14 && |"/etc/config/"| == 12;
  }

  lemma HostPathIsRight(opt: DeploymentOpt, path: string)
    requires path != "/var/lib/buildkit/" + opt.name
    requires |path| != 14 && |path| != 12 && |path| != 31 && |path| != 16
    ensures RightSource(opt, path, FromHost(path, Directory))
  {
    assert |"/run/docker.sock"| == 16 && |"/etc/buildkit/"| == 14 && |"/etc/config/"| == 12;
    assert |"/run/containerd/containerd.sock"| == 31;
  }

  lemma ContainerdSocketIsRight(opt: DeploymentOpt)
    ensures RightSource(opt, "/run/containerd/containerd.sock", FromHost(opt.containerdSockHostPath, Socket))
  {
    assert |"/run/containerd/containerd.sock"| == 31 && |"/etc/buildkit/"| == 14 && |"/etc/config/"| == 12;
  }

  lemma BuildkitRootIsRight(opt: DeploymentOpt)
    ensures
      var root := "/var/lib/buildkit/" + opt.name;
      RightSource(opt, root, FromHost(root, DirectoryOrCreate))
  {
    var root := "/var/lib/buildkit/" + opt.name;
    assert root[1] == 'v' && |root| >= 18;
    assert "/run/containerd/containerd.sock"[1] == 'r' && |"/run/docker.sock"| == 16;
    assert |"/etc/buildkit/"| == 14 && |"/etc/config/"| == 12;
  }

  lemma ContainerdShowsRight(opt: DeploymentOpt)
    ensures ShowsRight(opt, ContainerdMounts(opt), ContainerdVolumes(opt))
  {
    hide RightSource;
    var ms, vs, root := ContainerdMounts(opt), ContainerdVolumes(opt), "/var/lib/buildkit/" + opt.name;
    BuildkitRootIsDistinct(opt);
    assert |"/var/lib/containerd"| == 19 && |"/run/containerd"| == 15 && |"/var/log"| == 8 && |"/tmp"| == 4;
    ContainerdSocketIsRight(opt);
    BuildkitRootIsRight(opt);
    HostPathIsRight(opt, "/var/lib/containerd");
    HostPathIsRight(opt, "/run/containerd");
    HostPathIsRight(opt, "/var/log");
    HostPathIsRight(opt, "/tmp");
  }

  /** In every Deployment each mounted path shows what it should. */
  lemma MountsShowRight(opt: DeploymentOpt, i: nat, j: nat)
    requires i < |DeploymentFor(opt).mounts| && j < |DeploymentFor(opt).volumes|
    requires DeploymentFor(opt).mounts[i].name == DeploymentFor(opt).volumes[j].name
    ensures RightSource(opt, DeploymentFor(opt).mounts[i].path, DeploymentFor(opt).volumes[j].source)
  {
    hide RightSource, ContainerdMounts, ContainerdVolumes, DockerMounts, DockerVolumes, CustomMounts, CustomVolumes;
    ConfigShowsRight(opt);
    ContainerdShowsRight(opt);
    DockerShowsRight(opt);
    CustomShowsRight(opt);
    var m, v := [CONFIG_MOUNT], [Volume("buildkitd-config", FromConfigMap(opt.name))];
    ShowsRightOfConcat(opt, m, v, WorkerMounts(opt), WorkerVolumes(opt));
    ShowsRightOfConcat(opt, m + WorkerMounts(opt), v + WorkerVolumes(opt), DockerMounts(opt), DockerVolumes(opt));
    ShowsRightOfConcat(
      opt, m + WorkerMounts(opt) + DockerMounts(opt), v + WorkerVolumes(opt) + DockerVolumes(opt),
      CustomMounts(opt), CustomVolumes(opt));
    MountsDoNotClash(opt);
  }

  // ----- what the labels of a pod advertise (driver.go)

  datatype Feature = OciExporter | DockerExporter | ContainerdExporter | CacheExport | MultiPlatform

  datatype Pod = Pod(labels: Labels, containers: nat)

  /** Go's strconv.ParseBool. */
  function ParseBool(s: string): (r: Option<bool>) {
    if s in ["1", "t", "T", "TRUE", "true", "True"] then Some(true)
    else if s in ["0", "f", "F", "FALSE", "false", "False"] then Some(false)
    else None
  }

  predicate IsRootless(rootless: string) {
    ParseBool(rootless) == Some(true)
  }

  function LabelOf(labels: Labels, key: string): string {
    if key in labels then labels[key] else ""
  }

  predicate Advertises(pod: Pod, runtime: string) {
    pod.containers > 0 && !IsRootless(LabelOf(pod.labels, "rootless")) && LabelOf(pod.labels, "runtime") == runtime
  }

  /** `choice` is the pod that the chooser picked, or None when choosing failed. */
  method Features(choice: Option<Pod>) returns (res: map<Feature, bool>)
    ensures res.Keys == {OciExporter, DockerExporter, ContainerdExporter, CacheExport, MultiPlatform}
    ensures res[OciExporter] && res[CacheExport] && res[MultiPlatform]
    ensures res[DockerExporter] <==> choice.Some? && Advertises(choice.value, "docker")
    ensures res[ContainerdExporter] <==> choice.Some? && Advertises(choice.value, "containerd")
  {
    res := map[
      OciExporter := true,
      DockerExporter := false,
      ContainerdExporter := false,
      CacheExport := true,
      MultiPlatform := true];
    if choice.Some? && choice.value.containers > 0 && !IsRootless(LabelOf(choice.value.labels, "rootless")) {
      var runtime := LabelOf(choice.value.labels, "runtime");
      if runtime == "containerd" {
        res := res[ContainerdExporter := true];
      } else if runtime == "docker" {
        res := res[DockerExporter := true];
      }
    }
  }

  lemma BoolTextParses(b: bool)
    ensures IsRootless(BoolText(b)) == b
  {
    if !b {
      assert "false"[0] == 'f';
      forall s | s in ["1", "t", "T", "TRUE", "true", "True"]
        ensures s != "false"
      {
        assert |s| < 5;
      }
    }
  }

  predicate HasName(ms: seq<Mount>, name: string) {
    exists i :: 0 <= i < |ms| && ms[i].name == name
  }

  lemma HasNameOfConcat(a: seq<Mount>, b: seq<Mount>, name: string)
    ensures HasName(a + b, name) <==> HasName(a, name) || HasName(b, name)
  {
    if HasName(a, name) {
      var i :| 0 <= i < |a| && a[i].name == name;
      assert (a + b)[i].name == name;
    }
    if HasName(b, name) {
      var i :| 0 <= i < |b| && b[i].name == name;
      assert (a + b)[|a| + i].name == name;
    }
  }

  lemma HasNameInMountList(opt: DeploymentOpt, name: string)
    ensures HasName(MountList(opt), name) <==>
      || HasName([CONFIG_MOUNT], name)
      || HasName(WorkerMounts(opt), name)
      || HasName(DockerMounts(opt), name)
      || HasName(CustomMounts(opt), name)
  {
    HasNameOfConcat([CONFIG_MOUNT], WorkerMounts(opt), name);
    HasNameOfConcat([CONFIG_MOUNT] + WorkerMounts(opt), DockerMounts(opt), name);
    HasNameOfConcat([CONFIG_MOUNT] + WorkerMounts(opt) + DockerMounts(opt), CustomMounts(opt), name);
  }

  // No two mounts that matter here have names of the same length.

  lemma SocketsOfWorker(opt: DeploymentOpt)
    ensures !HasName(ContainerdMounts(opt), "docker-sock")
    ensures HasName(ContainerdMounts(opt), "containerd-sock")
  {
    var ms := ContainerdMounts(opt);
    assert forall i :: 0 <= i < |ms| ==> |ms[i].name| != 11;
    assert ms[0].name == "containerd-sock";
  }

  lemma SocketsElsewhere()
    ensures !HasName([CONFIG_MOUNT], "docker-sock") && !HasName([CONFIG_MOUNT], "containerd-sock")
    ensures HasName([DOCKER_MOUNT], "docker-sock") && !HasName([DOCKER_MOUNT], "containerd-sock")
    ensures !HasName([CUSTOM_MOUNT], "docker-sock") && !HasName([CUSTOM_MOUNT], "containerd-sock")
  {
    assert |[CONFIG_MOUNT][0].name| == 16 && |[CUSTOM_MOUNT][0].name| == 13;
    assert [DOCKER_MOUNT][0].name == "docker-sock" && |[DOCKER_MOUNT][0].name| == 11;
  }

  lemma MountsByName(opt: DeploymentOpt)
    ensures HasName(DeploymentFor(opt).mounts, "docker-sock") <==> opt.containerRuntime == "docker" && !opt.rootless
    ensures HasName(DeploymentFor(opt).mounts, "containerd-sock") <==> opt.worker == "containerd"
  {
    HasNameInMountList(opt, "docker-sock");
    HasNameInMountList(opt, "containerd-sock");
    SocketsOfWorker(opt);
    SocketsElsewhere();
  }

  /** The docker socket is mounted exactly when the builder's own pods advertise the docker exporter. */
  lemma DockerSocketMatchesFeature(opt: DeploymentOpt, pod: Pod)
    requires pod.labels == DeploymentFor(opt).podLabels && pod.containers > 0
    ensures HasName(DeploymentFor(opt).mounts, "docker-sock") <==> Advertises(pod, "docker")
  {
    MountsByName(opt);
    PodAdvertises(opt, pod);
  }

  lemma PodAdvertises(opt: DeploymentOpt, pod: Pod)
    requires pod.labels == DeploymentFor(opt).podLabels && pod.containers > 0
    ensures forall runtime :: Advertises(pod, runtime) <==> opt.containerRuntime == runtime && !opt.rootless
  {
    BoolTextParses(opt.rootless);
    assert pod.labels == LabelsOf(opt);
  }

  /** The containerd socket is another matter: it follows the worker, while the exporter follows the runtime. */
  lemma ContainerdSocketMatchesFeature(opt: DeploymentOpt, pod: Pod)
    requires pod.labels == DeploymentFor(opt).podLabels && pod.containers > 0
    ensures
      (HasName(DeploymentFor(opt).mounts, "containerd-sock") <==> Advertises(pod, "containerd"))
      <==> (opt.worker == "containerd" <==> opt.containerRuntime == "containerd" && !opt.rootless)
  {
    MountsByName(opt);
    PodAdvertises(opt, pod);
  }
}
