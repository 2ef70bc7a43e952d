/**
 * Driver options to driver fields (driver/kubernetes/factory.go): `initDriverFromConfig` walks a Go map, whose order
 * is arbitrary, then resolves "auto" settings and builds the Deployment and the ConfigMap.
 */
module Factory {
  import opened Text
  import opened Manifest

  const DEFAULT_IMAGE := "docker.io/moby/buildkit:buildx-stable-1"
  const DEFAULT_ROOTLESS_IMAGE := "docker.io/moby/buildkit:buildx-stable-1-rootless"
  const DEFAULT_RUNTIME := "docker"

  type Options = map<string, string>

  datatype Config = Config(name: string, buildkitFlags: seq<string>, configFile: string, opts: Options)

  function DeploymentName(name: string): string {
    if name == "" then "buildkit" else name
  }

  // ----- numbers

  predicate IsDigits(s: string) {
    s != "" && forall i :: 0 <= i < |s| ==> '0' <= s[i] <= '9'
  }

  function Number(s: string): nat
    requires s == "" || IsDigits(s)
  {
    if s == "" then 0 else Number(s[..|s| - 1]) * 10 + (s[|s| - 1] as int - '0' as int)
  }

  /** Go's strconv.Atoi on a 64-bit platform. */
  function Atoi(s: string): (r: Option<int>)
    ensures r.Some? ==> -0x8000_0000_0000_0000 <= r.value < 0x8000_0000_0000_0000
  {
    var digits := if s != "" && (s[0] == '+' || s[0] == '-') then s[1..] else s;
    if !IsDigits(digits) then None
    else
      var n: int := Number(digits);
      var n := if s[0] == '-' then -n else n;
      if -0x8000_0000_0000_0000 <= n < 0x8000_0000_0000_0000 then Some(n) else None
  }

  // ----- the environment option

  /** strings.SplitN(item, "=", 2), when it gives two parts. */
  function Cut(item: string): Option<EnvVar> {
    var i := IndexOf(item, '=');
    if i == |item| then None else Some(EnvVar(item[..i], item[i + 1..]))
  }

  /**
   * The map that a list of entries stands for: `name` has the value of its last entry, and entries without '='
   * count for nothing.
   */
  ghost predicate IsLastWins(m: Options, entries: seq<string>) {
    forall name ::
      match LastEntry(entries, name)
      case None => name !in m
      case Some(value) => name in m && m[name] == value
  }

  function LastEntry(entries: seq<string>, name: string): Option<string> {
    if entries == [] then None
    else
      var cut := Cut(entries[|entries| - 1]);
      if cut.Some? && cut.value.name == name then Some(cut.value.value) else LastEntry(entries[..|entries| - 1], name)
  }

  /** The loop over the ';'-separated items of an "env" option. */
  function CollectEnv(items: seq<string>): Options {
    if items == [] then map[]
    else
      var m := CollectEnv(items[..|items| - 1]);
      var cut := Cut(items[|items| - 1]);
      if cut.None? then m else m[cut.value.name := cut.value.value]
  }

  function ParseEnv(v: string): Options {
    CollectEnv(Split(v, ';'))
  }

  lemma {:induction false} CollectEnvIsLastWins(items: seq<string>)
    ensures IsLastWins(CollectEnv(items), items)
  {
    if items != [] {
      CollectEnvIsLastWins(items[..|items| - 1]);
    }
  }

  lemma {:induction false} SplitOfConcat(a: string, b: string)
    ensures Split(a + ";" + b, ';') == Split(a, ';') + Split(b, ';')
    decreases |a|
  {
    hide Split;
    var i := IndexOf(a, ';');
    if i == |a| {
      SplitOnePiece(a, ';');
      SplitAfterPiece(a, b, ';');
    } else {
      var p, rest := a[..i], a[i + 1..];
      assert a == p + ";" + rest;
      SplitOfConcat(rest, b);
      assert p + ";" + rest + ";" + b == p + ";" + (rest + ";" + b);
      SplitAfterPiece(p, rest + ";" + b, ';');
      SplitAfterPiece(p, rest, ';');
      ConcatIsAssociative([p], Split(rest, ';'), Split(b, ';'));
    }
  }

  lemma {:induction false} SplitOfJoin(entries: seq<string>)
    requires entries != []
    ensures Split(Join(entries, ';'), ';') == Pieces(entries, ';')
  {
    var first, rest := entries[0], entries[1..];
    assert entries == [first] + rest;
    PiecesOfConcat([first], rest, ';');
    assert Pieces([first], ';') == Split(first, ';') by {
      assert [first][..0] == [];
    }
    if rest != [] {
      SplitOfJoin(rest);
      SplitOfConcat(first, Join(rest, ';'));
    }
  }

  /** What `create --env` hands over, for any entries at all: the last-wins map of their ';'-separated pieces. */
  lemma EnvOptionRoundTrip(entries: seq<string>)
    ensures IsLastWins(ParseEnv(Join(entries, ';')), Pieces(entries, ';'))
  {
    if entries == [] {
      assert Split("", ';') == [""];
      assert CollectEnv([""]) == CollectEnv([""][..0]);
    } else {
      SplitOfJoin(entries);
      CollectEnvIsLastWins(Pieces(entries, ';'));
    }
  }

  /** For entries without ';' the whole way round: the last entry of a name wins, and its value may hold '=' itself. */
  lemma PlainEntriesRoundTrip(entries: seq<string>)
    requires forall i :: 0 <= i < |entries| ==> ';' !in entries[i]
    ensures IsLastWins(ParseEnv(Join(entries, ';')), entries)
  {
    EnvOptionRoundTrip(entries);
    PiecesOfPlain(entries, ';');
  }

  // ----- the option loop

  /** What the loop over the options writes: the deployment options and three driver fields. */
  datatype Settings = Settings(
    opt: DeploymentOpt,
    imageOverride: string,
    namespace: string,
    loadbalance: string,
    userSpecifiedRuntime: bool)

  function InitialOpt(cfg: Config): DeploymentOpt {
    DeploymentOpt(
      "", DeploymentName(cfg.name), DEFAULT_IMAGE, 1, cfg.buildkitFlags, false, "", "k8s.io",
      "/run/containerd/containerd.sock", "/var/run/docker.sock", DEFAULT_RUNTIME, "", map[])
  }

  datatype Key =
    | Image | Namespace | Replicas | Rootless | LoadBalance | Worker | ContainerdNamespace
    | ContainerdSock | DockerSock | Runtime | CustomConfig | Env

  function NameOf(key: Key): string {
    match key
    case Image => "image"
    case Namespace => "namespace"
    case Replicas => "replicas"
    case Rootless => "rootless"
    case LoadBalance => "loadbalance"
    case Worker => "worker"
    case ContainerdNamespace => "containerd-namespace"
    case ContainerdSock => "containerd-sock"
    case DockerSock => "docker-sock"
    case Runtime => "runtime"
    case CustomConfig => "custom-config"
    case Env => "env"
  }

  /** The case of the loop's switch that a name selects. */
  function KeyOf(name: string): (key: Option<Key>)
    ensures key.Some? ==> NameOf(key.value) == name
  {
    if name == "image" then Some(Image)
    else if name == "namespace" then Some(Namespace)
    else if name == "replicas" then Some(Replicas)
    else if name == "rootless" then Some(Rootless)
    else if name == "loadbalance" then Some(LoadBalance)
    else if name == "worker" then Some(Worker)
    else if name == "containerd-namespace" then Some(ContainerdNamespace)
    else if name == "containerd-sock" then Some(ContainerdSock)
    else if name == "docker-sock" then Some(DockerSock)
    else if name == "runtime" then Some(Runtime)
    else if name == "custom-config" then Some(CustomConfig)
    else if name == "env" then Some(Env)
    else None
  }

  lemma NameLengths(key: Key)
    ensures |NameOf(key)| ==
      match key
      case Image => 5 case Namespace => 9 case Replicas => 8 case Rootless => 8 case LoadBalance => 11 case Worker => 6
      case ContainerdNamespace => 20 case ContainerdSock => 15 case DockerSock => 11 case Runtime => 7
      case CustomConfig => 13 case Env => 3
  {
  }

  lemma NamesAreDistinct(a: Key, b: Key)
    ensures NameOf(a) == NameOf(b) ==> a == b
  {
    NameLengths(a);
    NameLengths(b);
    assert "replicas"[1] != "rootless"[1] && "loadbalance"[0] != "docker-sock"[0];
  }

  /** One iteration of the loop; None for an early return. */
  function ApplyOption(s: Settings, k: string, v: string): Option<Settings> {
    if KeyOf(k).None? || !AcceptedValue(KeyOf(k).value, v) then None else Some(Set(s, KeyOf(k).value, v))
  }

  predicate AcceptedValue(key: Key, v: string) {
    match key
    case Replicas => Atoi(v).Some?
    case Rootless => ParseBool(v).Some?
    case LoadBalance => v == "sticky" || v == "random"
    case Worker => v == "auto" || v == "containerd" || v == "runc"
    case Runtime => v == "auto" || v == "docker" || v == "containerd"
    case _ => true
  }

  function Set(s: Settings, key: Key, v: string): Settings
    requires AcceptedValue(key, v)
  {
    match key
    case Image => s.(imageOverride := v)
    case Namespace => s.(namespace := v)
    case Replicas => s.(opt := s.opt.(replicas := Atoi(v).value))
    case Rootless =>
      if ParseBool(v).value then s.(opt := s.opt.(rootless := true, image := DEFAULT_ROOTLESS_IMAGE))
      else s.(opt := s.opt.(rootless := false))
    case LoadBalance => s.(loadbalance := v)
    case Worker => s.(opt := s.opt.(worker := v))
    case ContainerdNamespace => s.(opt := s.opt.(containerdNamespace := v))
    case ContainerdSock => s.(opt := s.opt.(containerdSockHostPath := v))
    case DockerSock => s.(opt := s.opt.(dockerSockHostPath := v))
    case Runtime => s.(opt := s.opt.(containerRuntime := v), userSpecifiedRuntime := v != "auto")
    case CustomConfig => s.(opt := s.opt.(customConfig := v))
    case Env => s.(opt := s.opt.(environments := s.opt.environments + ParseEnv(v)))
  }

  /** The loop over the options in a given order. */
  function ApplyAll(s: Settings, opts: Options, order: seq<string>): Option<Settings>
    requires forall k :: k in order ==> k in opts
  {
    if order == [] then Some(s)
    else
      var last := |order| - 1;
      match ApplyAll(s, opts, order[..last])
      case None => None
      case Some(t) => ApplyOption(t, order[last], opts[order[last]])
  }

  // ----- the same without an order

  predicate Accepted(k: string, v: string) {
    KeyOf(k).Some? && AcceptedValue(KeyOf(k).value, v)
  }

  predicate AllAccepted(opts: Options) {
    forall k :: k in opts ==> Accepted(k, opts[k])
  }

  function Lookup(opts: Options, key: Key): Option<string> {
    if NameOf(key) in opts then Some(opts[NameOf(key)]) else None
  }

  function ValueOr(v: Option<string>, default: string): string {
    if v.Some? then v.value else default
  }

  predicate WantsRootless(opts: Options) {
    var v := Lookup(opts, Rootless);
    v.Some? && ParseBool(v.value) == Some(true)
  }

  function ReplicasOr(v: Option<string>, default: int): int {
    if v.Some? && Atoi(v.value).Some? then Atoi(v.value).value else default
  }

  /** The settings that a set of accepted options means, each field on its own. */
  function Chosen(s: Settings, opts: Options): Settings {
    var env, runtime := Lookup(opts, Env), Lookup(opts, Runtime);
    Settings(
      s.opt.(
        replicas := ReplicasOr(Lookup(opts, Replicas), s.opt.replicas),
        rootless := if Lookup(opts, Rootless).Some? then WantsRootless(opts) else s.opt.rootless,
        image := if WantsRootless(opts) then DEFAULT_ROOTLESS_IMAGE else s.opt.image,
        worker := ValueOr(Lookup(opts, Worker), s.opt.worker),
        containerdNamespace := ValueOr(Lookup(opts, ContainerdNamespace), s.opt.containerdNamespace),
        containerdSockHostPath := ValueOr(Lookup(opts, ContainerdSock), s.opt.containerdSockHostPath),
        dockerSockHostPath := ValueOr(Lookup(opts, DockerSock), s.opt.dockerSockHostPath),
        containerRuntime := ValueOr(runtime, s.opt.containerRuntime),
        customConfig := ValueOr(Lookup(opts, CustomConfig), s.opt.customConfig),
        environments := if env.Some? then s.opt.environments + ParseEnv(env.value) else s.opt.environments),
      ValueOr(Lookup(opts, Image), s.imageOverride),
      ValueOr(Lookup(opts, Namespace), s.namespace),
      ValueOr(Lookup(opts, LoadBalance), s.loadbalance),
      if runtime.Some? then runtime.value != "auto" else s.userSpecifiedRuntime)
  }

  ghost predicate IsOrderOf(order: seq<string>, opts: Options) {
    && (forall k :: k in order <==> k in opts)
    && (forall i, j :: 0 <= i < j < |order| ==> order[i] != order[j])
  }

  function Restrict(opts: Options, keys: seq<string>): Options {
    map k | k in opts && k in keys :: opts[k]
  }

  lemma LookupAfter(opts: Options, added: Key, v: string, key: Key)
    ensures Lookup(opts[NameOf(added) := v], key) == if key == added then Some(v) else Lookup(opts, key)
  {
    NamesAreDistinct(added, key);
  }

  lemma ApplyOptionStep(s: Settings, opts: Options, k: string, v: string)
    requires k !in opts && AllAccepted(opts)
    ensures ApplyOption(Chosen(s, opts), k, v) == if Accepted(k, v) then Some(Chosen(s, opts[k := v])) else None
  {
    if Accepted(k, v) {
      var added := KeyOf(k).value;
      forall key: Key
        ensures Lookup(opts[k := v], key) == if key == added then Some(v) else Lookup(opts, key)
      {
        LookupAfter(opts, added, v, key);
      }
      assert Lookup(opts, added) == None;
      SetAddsOption(s, opts, opts[k := v], added, v);
    }
  }

  lemma SetAddsOption(s: Settings, opts: Options, more: Options, added: Key, v: string)
    requires AcceptedValue(added, v)
    requires Lookup(opts, added) == None
    requires forall key: Key :: Lookup(more, key) == if key == added then Some(v) else Lookup(opts, key)
    ensures Set(Chosen(s, opts), added, v) == Chosen(s, more)
  {
    var now, then' := Set(Chosen(s, opts), added, v), Chosen(s, more);
    assert now.opt == then'.opt;
  }

  lemma ChosenOfNothing(s: Settings)
    ensures Chosen(s, map[]) == s
  {
    assert s.opt.environments + map[] == s.opt.environments;
    assert Chosen(s, map[]).opt == s.opt;
  }

  lemma RestrictOfOneMore(opts: Options, order: seq<string>)
    requires order != [] && order[|order| - 1] in opts && order[|order| - 1] !in order[..|order| - 1]
    ensures
      var front, k := order[..|order| - 1], order[|order| - 1];
      Restrict(opts, order) == Restrict(opts, front)[k := opts[k]] && k !in Restrict(opts, front)
  {
    var front, k := order[..|order| - 1], order[|order| - 1];
    assert order == front + [k];
  }

  lemma AcceptedOneMore(before: Options, k: string, v: string)
    requires k !in before
    ensures AllAccepted(before[k := v]) <==> AllAccepted(before) && Accepted(k, v)
  {
    hide Accepted;
    if AllAccepted(before[k := v]) {
      assert k in before[k := v];
      forall g | g in before
        ensures Accepted(g, before[g])
      {
        assert g in before[k := v] && before[k := v][g] == before[g];
      }
    }
  }

  lemma {:induction false} ApplyAllPrefix(s: Settings, opts: Options, order: seq<string>)
    requires forall k :: k in order ==> k in opts
    requires forall i, j :: 0 <= i < j < |order| ==> order[i] != order[j]
    ensures
      var done := Restrict(opts, order);
      ApplyAll(s, opts, order) == if AllAccepted(done) then Some(Chosen(s, done)) else None
  {
    hide Chosen, ApplyOption, Accepted, Restrict, AllAccepted;
    if order == [] {
      NothingIsAccepted(opts);
      ChosenOfNothing(s);
    } else {
      var last := |order| - 1;
      var front, k := order[..last], order[last];
      ApplyAllPrefix(s, opts, front);
      RestrictOfOneMore(opts, order);
      var before := Restrict(opts, front);
      AcceptedOneMore(before, k, opts[k]);
      if AllAccepted(before) {
        ApplyOptionStep(s, before, k, opts[k]);
      }
    }
  }

  lemma NothingIsAccepted(opts: Options)
    ensures Restrict(opts, []) == map[] && AllAccepted(map[])
  {
  }

  /**
   * Whatever order Go's map iteration takes: the loop fails iff some option is not accepted, and else gives the
   * chosen settings.
   */
  lemma OptionsAreOrderIndependent(s: Settings, opts: Options, order: seq<string>)
    requires IsOrderOf(order, opts)
    ensures ApplyAll(s, opts, order) == if AllAccepted(opts) then Some(Chosen(s, opts)) else None
  {
    ApplyAllPrefix(s, opts, order);
    assert Restrict(opts, order) == opts;
  }

  // ----- after the loop

  datatype DriverFields = DriverFields(
    namespace: string,
    loadbalance: string,
    userSpecifiedRuntime: bool,
    userSpecifiedConfig: bool,
    deployment: Option<Deployment>,
    configMap: Option<ConfigMap>,
    minReplicas: int)

  function ResolveAuto(opt: DeploymentOpt): DeploymentOpt {
    var runtime := if opt.containerRuntime == "auto" then DEFAULT_RUNTIME else opt.containerRuntime;
    var worker :=
      if opt.worker != "auto" then opt.worker
      else if runtime == "containerd" then "containerd"
      else if runtime == "docker" then "runc"
      else opt.worker;
    opt.(containerRuntime := runtime, worker := worker)
  }

  function FinalOpt(s: Settings): DeploymentOpt {
    var opt := ResolveAuto(s.opt);
    if s.imageOverride != "" then opt.(image := s.imageOverride) else opt
  }

  predicate Incompatible(opt: DeploymentOpt) {
    opt.rootless && opt.worker == "containerd"
  }

  datatype InitResult = InitResult(fields: DriverFields, ok: bool)

  function WithSettings(d: DriverFields, s: Settings): DriverFields {
    d.(namespace := s.namespace, loadbalance := s.loadbalance, userSpecifiedRuntime := s.userSpecifiedRuntime)
  }

  /** The rest of initDriverFromConfig; `file` is what reading the config file gives, None for an error. */
  function Finish(d0: DriverFields, cfg: Config, s: Settings, file: Option<string>): InitResult {
    var d, opt := WithSettings(d0, s), FinalOpt(s);
    if Incompatible(opt) then InitResult(d, false) else BuildResult(d, cfg, opt, file)
  }

  /** The fields that the settings overwrite do not matter. */
  lemma FinishOverwrites(d: DriverFields, e: DriverFields, cfg: Config, s: Settings, file: Option<string>)
    requires e.userSpecifiedConfig == d.userSpecifiedConfig && e.deployment == d.deployment
    requires e.configMap == d.configMap && e.minReplicas == d.minReplicas
    ensures Finish(d, cfg, s, file) == Finish(e, cfg, s, file)
  {
    hide DeploymentFor;
    assert WithSettings(d, s) == WithSettings(e, s);
  }

  function BuildResult(d: DriverFields, cfg: Config, opt: DeploymentOpt, file: Option<string>): InitResult {
    var d := d.(deployment := Some(DeploymentFor(opt)), minReplicas := opt.replicas);
    if cfg.configFile == "" then
      InitResult(d.(configMap := Some(NewConfigMap(opt, DefaultConfig(opt.containerdNamespace)))), true)
    else
      match file
      case None => InitResult(d, false)
      case Some(data) =>
        InitResult(d.(configMap := Some(NewConfigMap(opt, UserConfig(data))), userSpecifiedConfig := true), true)
  }

  /** The fields of a driver before its first initialisation. */
  function NewFields(namespace: string): DriverFields {
    DriverFields(namespace, "sticky", false, false, None, None, 0)
  }

  function StartSettings(d: DriverFields, cfg: Config): Settings {
    Settings(InitialOpt(cfg), "", d.namespace, d.loadbalance, d.userSpecifiedRuntime)
  }

  /** initDriverFromConfig for options that the loop accepts. */
  function Init(d: DriverFields, cfg: Config, file: Option<string>): InitResult {
    Finish(d, cfg, Chosen(StartSettings(d, cfg), cfg.opts), file)
  }

  class Driver {
    var config: Config
    var namespace: string
    var loadbalance: string
    var userSpecifiedRuntime: bool
    var userSpecifiedConfig: bool
    var deployment: Option<Deployment>
    var configMap: Option<ConfigMap>
    var minReplicas: int

    function Fields(): DriverFields
      reads this
    {
      DriverFields(
        namespace, loadbalance, userSpecifiedRuntime, userSpecifiedConfig, deployment, configMap, minReplicas)
    }

    constructor (config: Config, namespace: string)
      ensures this.config == config
      ensures Fields() == NewFields(namespace)
    {
      this.config, this.namespace, this.loadbalance := config, namespace, "sticky";
      userSpecifiedRuntime, userSpecifiedConfig, deployment, configMap, minReplicas := false, false, None, None, 0;
    }

    /** The option loop, in the order of this run's map iteration. */
    method ReadOptions(order: seq<string>) returns (s: Settings, ok: bool)
      requires IsOrderOf(order, config.opts)
      modifies `namespace, `loadbalance, `userSpecifiedRuntime
      ensures ApplyAll(StartSettings(old(Fields()), config), config.opts, order) == if ok then Some(s) else None
      ensures ok ==> Agrees(s)
    {
      hide ApplyOption;
      s, ok := StartSettings(Fields(), config), true;
      ghost var start := s;
      for i := 0 to |order|
        invariant Agrees(s) && ApplyAll(start, config.opts, order[..i]) == Some(s)
      {
        var next := ApplyOption(s, order[i], config.opts[order[i]]);
        ApplyAllStep(start, config.opts, order, i);
        if next.None? {
          RejectionIsFinal(start, config.opts, order, i + 1);
          ok := false;
          return;
        }
        s := next.value;
        Store(s);
      }
      assert order[..|order|] == order;
    }

    /** The driver fields that the option loop writes are those of `s`. */
    predicate Agrees(s: Settings)
      reads `namespace, `loadbalance, `userSpecifiedRuntime
    {
      namespace == s.namespace && loadbalance == s.loadbalance && userSpecifiedRuntime == s.userSpecifiedRuntime
    }

    method Store(s: Settings)
      modifies `namespace, `loadbalance, `userSpecifiedRuntime
      ensures Agrees(s)
    {
      namespace, loadbalance, userSpecifiedRuntime := s.namespace, s.loadbalance, s.userSpecifiedRuntime;
    }

    /** `order` is the order of this run's map iteration; no result depends on it. */
    method InitDriverFromConfig(order: seq<string>, file: Option<string>) returns (ok: bool)
      requires IsOrderOf(order, config.opts)
      modifies this
      ensures config == old(config)
      ensures
        if AllAccepted(config.opts) then InitResult(Fields(), ok) == Init(old(Fields()), config, file)
        else !ok && deployment == old(deployment) && configMap == old(configMap) && minReplicas == old(minReplicas)
    {
      hide DeploymentFor, BuildResult, FinalOpt, Chosen, ApplyAll;
      ghost var before := Fields();
      OptionsAreOrderIndependent(StartSettings(before, config), config.opts, order);
      var s, accepted := ReadOptions(order);
      if !accepted {
        return false;
      }
      FinishOverwrites(before, Fields(), config, s, file);
      ok := Complete(s, file);
    }

    /** What follows the option loop. */
    method Complete(s: Settings, file: Option<string>) returns (ok: bool)
      requires Agrees(s)
      modifies `deployment, `minReplicas, `configMap, `userSpecifiedConfig
      ensures InitResult(Fields(), ok) == Finish(old(Fields()), config, s, file)
    {
      assert WithSettings(Fields(), s) == Fields();
      var opt := ResolveAuto(s.opt);
      if opt.rootless && opt.worker == "containerd" {
        return false;
      }
      if s.imageOverride != "" {
        opt := opt.(image := s.imageOverride);
      }
      ok := Build(opt, file);
    }

    method Build(opt: DeploymentOpt, file: Option<string>) returns (ok: bool)
      modifies `deployment, `minReplicas, `configMap, `userSpecifiedConfig
      ensures InitResult(Fields(), ok) == BuildResult(old(Fields()), config, opt, file)
    {
      var built := NewDeployment(opt);
      deployment := Some(built.Content());
      minReplicas := opt.replicas;
      if config.configFile == "" {
        configMap := Some(NewConfigMap(opt, DefaultConfig(opt.containerdNamespace)));
      } else {
        if file.None? {
          return false;
        }
        configMap := Some(NewConfigMap(opt, UserConfig(file.value)));
        userSpecifiedConfig := true;
      }
      return true;
    }
  }

  lemma ApplyAllStep(s: Settings, opts: Options, order: seq<string>, i: nat)
    requires i < |order| && forall k :: k in order ==> k in opts
    ensures
      var before := ApplyAll(s, opts, order[..i]);
      ApplyAll(s, opts, order[..i + 1]) ==
        if before.None? then None else ApplyOption(before.value, order[i], opts[order[i]])
  {
    assert order[..i + 1][..i] == order[..i];
  }

  lemma {:induction false} RejectionIsFinal(s: Settings, opts: Options, order: seq<string>, i: nat)
    requires i <= |order| && forall k :: k in order ==> k in opts
    requires ApplyAll(s, opts, order[..i]).None?
    ensures ApplyAll(s, opts, order).None?
    decreases |order| - i
  {
    if i < |order| {
      assert order[..i + 1][..i] == order[..i];
      RejectionIsFinal(s, opts, order, i + 1);
    } else {
      assert order[..i] == order;
    }
  }

  // ----- the flip of the runtime

  /** The edit that the bootstrap makes before it initialises the driver again. */
  function Flipped(cfg: Config): Config {
    cfg.(opts := cfg.opts[NameOf(Runtime) := "containerd"][NameOf(Worker) := "auto"])
  }

  predicate RuntimeOf(d: Deployment, runtime: string) {
    "runtime" in d.podLabels && d.podLabels["runtime"] == runtime
  }

  /** Fields as some successful initialisation with these options left them. */
  ghost predicate Initialised(d: DriverFields, cfg: Config) {
    AllAccepted(cfg.opts) && exists before: DriverFields, file :: Init(before, cfg, file) == InitResult(d, true)
  }

  /** An option's value after runtime and worker were edited. */
  function Edited(opts: Options, key: Key, runtime: string, worker: string): Option<string> {
    match key case Runtime => Some(runtime) case Worker => Some(worker) case _ => Lookup(opts, key)
  }

  lemma FlippedLookup(cfg: Config, key: Key)
    ensures Lookup(Flipped(cfg).opts, key) == Edited(cfg.opts, key, "containerd", "auto")
  {
    LookupAfter(cfg.opts, Runtime, "containerd", key);
    LookupAfter(cfg.opts[NameOf(Runtime) := "containerd"], Worker, "auto", key);
  }

  lemma KeyOfName(key: Key)
    ensures KeyOf(NameOf(key)) == Some(key)
  {
    if KeyOf(NameOf(key)).Some? {
      NamesAreDistinct(key, KeyOf(NameOf(key)).value);
    }
  }

  /** Accepted options stay accepted after the flip. */
  lemma FlipStaysAccepted(cfg: Config)
    requires AllAccepted(cfg.opts)
    ensures AllAccepted(Flipped(cfg).opts)
  {
    KeyOfName(Runtime);
    KeyOfName(Worker);
  }

  lemma InitSettings(d: DriverFields, cfg: Config, file: Option<string>)
    ensures
      var fields, s := Init(d, cfg, file).fields, Chosen(StartSettings(d, cfg), cfg.opts);
      fields.userSpecifiedRuntime == s.userSpecifiedRuntime
  {
    hide DeploymentFor;
  }

  /** From the flip on the runtime counts as the user's choice, whatever fails after the option loop. */
  lemma FlipSetsUserSpecified(d: DriverFields, cfg: Config, file: Option<string>)
    requires AllAccepted(cfg.opts)
    ensures AllAccepted(Flipped(cfg).opts)
    ensures Init(d, Flipped(cfg), file).fields.userSpecifiedRuntime
  {
    hide DeploymentFor;
    FlipStaysAccepted(cfg);
    FlippedLookup(cfg, Runtime);
    InitSettings(d, Flipped(cfg), file);
  }

  lemma FlippedSettings(s: Settings, t: Settings, cfg: Config)
    requires s.opt == t.opt
    ensures
      var was, now := Chosen(s, cfg.opts), Chosen(t, Flipped(cfg).opts);
      && now.opt == was.opt.(containerRuntime := "containerd", worker := "auto")
      && (s.imageOverride == t.imageOverride ==> now.imageOverride == was.imageOverride)
  {
    forall key: Key
      ensures Lookup(Flipped(cfg).opts, key) == Edited(cfg.opts, key, "containerd", "auto")
    {
      FlippedLookup(cfg, key);
    }
    SettingsAfterEdit(s, t, cfg.opts, Flipped(cfg).opts, "containerd", "auto");
  }

  lemma SettingsAfterEdit(s: Settings, t: Settings, opts: Options, more: Options, runtime: string, worker: string)
    requires s.opt == t.opt
    requires forall key: Key :: Lookup(more, key) == Edited(opts, key, runtime, worker)
    ensures
      var was, now := Chosen(s, opts), Chosen(t, more);
      && now.opt == was.opt.(containerRuntime := runtime, worker := worker)
      && (s.imageOverride == t.imageOverride ==> now.imageOverride == was.imageOverride)
  {
    var was, now := Chosen(s, opts), Chosen(t, more);
    assert WantsRootless(more) == WantsRootless(opts);
    assert now.opt == was.opt.(containerRuntime := runtime, worker := worker);
  }

  lemma FlippedOpt(d: DriverFields, before: DriverFields, cfg: Config)
    ensures
      var was := FinalOpt(Chosen(StartSettings(before, cfg), cfg.opts));
      var now := FinalOpt(Chosen(StartSettings(d, cfg), Flipped(cfg).opts));
      now == was.(containerRuntime := "containerd", worker := "containerd")
  {
    FlippedSettings(StartSettings(before, cfg), StartSettings(d, cfg), cfg);
  }

  /** The parts of a Deployment that name and size the builder. */
  predicate SameIdentity(a: Deployment, b: Deployment) {
    && a.name == b.name && a.selector == b.selector && a.replicas == b.replicas && a.image == b.image && a.env == b.env
    && "rootless" in a.podLabels && "rootless" in b.podLabels && a.podLabels["rootless"] == b.podLabels["rootless"]
  }

  lemma RuntimeChangeKeepsIdentity(was: DeploymentOpt, now: DeploymentOpt)
    requires now == was.(containerRuntime := "containerd", worker := "containerd")
    ensures SameIdentity(DeploymentFor(was), DeploymentFor(now))
    ensures RuntimeOf(DeploymentFor(now), "containerd")
  {
    hide MountList, VolumeList, ArgList;
  }

  lemma InitBuilds(d: DriverFields, cfg: Config, file: Option<string>)
    ensures
      var r, opt := Init(d, cfg, file), FinalOpt(Chosen(StartSettings(d, cfg), cfg.opts));
      && (r.ok ==> !Incompatible(opt))
      && r.fields.deployment == if Incompatible(opt) then d.deployment else Some(DeploymentFor(opt))
  {
    hide DeploymentFor;
  }

  /** A flip changes the runtime, and nothing that identifies the builder, whether it succeeds or not. */
  lemma FlipKeepsIdentity(d: DriverFields, cfg: Config, file: Option<string>)
    requires Initialised(d, cfg)
    ensures
      var r := Init(d, Flipped(cfg), file);
      var was, now := d.deployment, r.fields.deployment;
      && was.Some? && now.Some? && (now != was ==> SameIdentity(was.value, now.value))
      && (r.ok ==> RuntimeOf(now.value, "containerd") && SameIdentity(was.value, now.value))
  {
    hide DeploymentFor;
    var before: DriverFields, oldFile :| Init(before, cfg, oldFile) == InitResult(d, true);
    InitBuilds(before, cfg, oldFile);
    InitBuilds(d, Flipped(cfg), file);
    assert StartSettings(d, Flipped(cfg)) == StartSettings(d, cfg);
    FlippedOpt(d, before, cfg);
    RuntimeChangeKeepsIdentity(
      FinalOpt(Chosen(StartSettings(before, cfg), cfg.opts)),
      FinalOpt(Chosen(StartSettings(d, cfg), Flipped(cfg).opts)));
  }

  /** Whether the config is the user's is decided by the first initialisation, and no flip changes it. */
  lemma UserConfigIsFixed(
      cfg: Config, namespace: string, oldFile: Option<string>, d: DriverFields, file: Option<string>)
    requires Init(NewFields(namespace), cfg, oldFile) == InitResult(d, true)
    ensures d.userSpecifiedConfig <==> cfg.configFile != ""
    ensures Init(d, Flipped(cfg), file).fields.userSpecifiedConfig == d.userSpecifiedConfig
  {
    hide DeploymentFor, Chosen, FinalOpt;
  }

  /** A flip can succeed only on a builder that is not rootless. */
  lemma FlipFailsExactlyWhenRootlessOrUnreadable(d: DriverFields, cfg: Config, file: Option<string>)
    requires AllAccepted(cfg.opts)
    ensures Init(d, Flipped(cfg), file).ok <==> !WantsRootless(cfg.opts) && (cfg.configFile == "" || file.Some?)
  {
    hide DeploymentFor;
    FlippedOpt(d, d, cfg);
    assert StartSettings(d, Flipped(cfg)) == StartSettings(d, cfg);
    var was := FinalOpt(Chosen(StartSettings(d, cfg), cfg.opts));
    assert was.rootless == WantsRootless(cfg.opts);
  }

  /** A new driver counts the runtime as the user's choice exactly when an option names one. */
  lemma NewDriverFields(cfg: Config, namespace: string, file: Option<string>)
    requires AllAccepted(cfg.opts)
    ensures
      var r := Init(NewFields(namespace), cfg, file);
      && (r.fields.userSpecifiedRuntime <==>
           Lookup(cfg.opts, Runtime).Some? && Lookup(cfg.opts, Runtime) != Some("auto"))
      && (r.ok ==> r.fields.deployment.Some?)
      && (r.ok && !r.fields.userSpecifiedRuntime ==> RuntimeOf(r.fields.deployment.value, "docker"))
  {
    hide DeploymentFor;
    var d := NewFields(namespace);
    InitSettings(d, cfg, file);
    var opt := FinalOpt(Chosen(StartSettings(d, cfg), cfg.opts));
    if Init(d, cfg, file).ok {
      InitBuilds(d, cfg, file);
      RuntimeLabel(opt);
    }
  }

  lemma RuntimeLabel(opt: DeploymentOpt)
    ensures RuntimeOf(DeploymentFor(opt), opt.containerRuntime)
  {
  }

  /**
   * A builder for the containerd runtime advertises the containerd exporter, but has the containerd socket only when
   * its worker option says so: without that option the worker stays unset.
   */
  lemma ContainerdSocketNeedsWorker(cfg: Config, namespace: string, file: Option<string>)
    requires Init(NewFields(namespace), cfg, file).ok
    requires Lookup(cfg.opts, Runtime) == Some("containerd") && !WantsRootless(cfg.opts)
    ensures
      var d := Init(NewFields(namespace), cfg, file).fields.deployment;
      && d.Some? && RuntimeOf(d.value, "containerd")
      && (HasName(d.value.mounts, "containerd-sock") <==>
            Lookup(cfg.opts, Worker) == Some("auto") || Lookup(cfg.opts, Worker) == Some("containerd"))
  {
    hide DeploymentFor;
    var s := Chosen(StartSettings(NewFields(namespace), cfg), cfg.opts);
    InitBuilds(NewFields(namespace), cfg, file);
    MountsByName(FinalOpt(s));
    RuntimeLabel(FinalOpt(s));
    WorkerOf(s);
  }

  lemma WorkerOf(s: Settings)
    requires s.opt.containerRuntime == "containerd"
    ensures FinalOpt(s).containerRuntime == "containerd"
    ensures UsesContainerd(FinalOpt(s)) <==> s.opt.worker == "auto" || s.opt.worker == "containerd"
  {
  }

  /**
   * From the command line to the Deployment: what `create --env` hands over comes out, in the EnvVar list that
   * NewDeployment renders, as the last-wins map of the entries' pieces.
   */
  lemma EnvReachesDeployment(
      entries: seq<string>, d: DriverFields, cfg: Config, file: Option<string>, envs: seq<EnvVar>)
    requires Lookup(cfg.opts, Env) == Some(Join(entries, ';'))
    requires Init(d, cfg, file).fields.deployment.Some? && Init(d, cfg, file).ok
    requires EnvMap(envs) == Init(d, cfg, file).fields.deployment.value.env
    ensures IsLastWins(EnvMap(envs), Pieces(entries, ';'))
    ensures (forall i :: 0 <= i < |entries| ==> ';' !in entries[i]) ==> IsLastWins(EnvMap(envs), entries)
  {
    hide Init, IsLastWins, MountList, VolumeList, ArgList;
    InitBuilds(d, cfg, file);
    EnvIsChosen(d, cfg);
    EnvOptionRoundTrip(entries);
    if forall i :: 0 <= i < |entries| ==> ';' !in entries[i] {
      PlainEntriesRoundTrip(entries);
    }
  }

  lemma EnvIsChosen(d: DriverFields, cfg: Config)
    requires Lookup(cfg.opts, Env).Some?
    ensures
      FinalOpt(Chosen(StartSettings(d, cfg), cfg.opts)).environments == ParseEnv(Lookup(cfg.opts, Env).value)
  {
    hide ParseEnv;
    assert map[] + ParseEnv(Lookup(cfg.opts, Env).value) == ParseEnv(Lookup(cfg.opts, Env).value);
  }
}
