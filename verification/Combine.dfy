/**
 * `Combine` (imagetools/create.go): fetch every source in parallel, then merge their entries into one image index.
 * The registry and the JSON library are parameters; what `Combine` does with their answers is modelled here.
 */
module Combine {
  import opened Text
  import opened ImageIndex

  type Bytes = string

  const DOCKER_MANIFEST := "application/vnd.docker.distribution.manifest.v2+json"
  const OCI_MANIFEST := "application/vnd.oci.image.manifest.v1+json"
  const DOCKER_LIST := "application/vnd.docker.distribution.manifest.list.v2+json"
  const OCI_INDEX := "application/vnd.oci.image.index.v1+json"
  const DOCKER_SCHEMA1 := "application/vnd.docker.distribution.manifest.v1+prettyjws"

  /** What detectMediaType reads of a document. */
  datatype Header = Header(mediaType: string, hasConfig: bool, fsLayers: nat)

  /** The answers of the registry and of the JSON library; None is an error. */
  datatype Registry = Registry(
    fetch: Descriptor -> Option<Bytes>,
    header: Bytes -> Option<Header>,
    platform: Bytes -> Option<Platform>,
    manifests: Bytes -> Option<seq<Descriptor>>,
    marshal: seq<Descriptor> -> Bytes,
    digestOf: Bytes -> string)

  /** Unmarshalling a marshalled index gives its entries back, with empty annotation maps read as nil. */
  ghost predicate JsonIsLossless(reg: Registry) {
    && (forall ds :: reg.manifests(reg.marshal(ds)) == Some(CanonicalAll(ds)))
    && (forall a, b :: SameJson(a, b) ==> reg.marshal(a) == reg.marshal(b))
  }

  // ----- one source

  datatype Source = Source(bytes: Bytes, desc: Descriptor)

  predicate IsIndexType(mediaType: string) {
    mediaType == DOCKER_LIST || mediaType == OCI_INDEX
  }

  function DetectMediaType(h: Header): string {
    if h.mediaType != "" then h.mediaType
    else if h.hasConfig then DOCKER_MANIFEST
    else if h.fsLayers > 0 then DOCKER_SCHEMA1
    else DOCKER_LIST
  }

  function WithMediaType(reg: Registry, d: Descriptor, dt: Bytes): Option<Descriptor> {
    if d.mediaType != "" then Some(d)
    else match reg.header(dt)
         case None => None
         case Some(h) => Some(d.(mediaType := DetectMediaType(h)))
  }

  predicate NeedsPlatform(d: Descriptor) {
    (d.mediaType == DOCKER_MANIFEST || d.mediaType == OCI_MANIFEST) && d.platform.None?
  }

  function WithPlatform(reg: Registry, d: Descriptor, dt: Bytes): Option<Descriptor> {
    if NeedsPlatform(d) then
      match reg.platform(dt)
      case None => None
      case Some(p) => Some(d.(platform := Some(p)))
    else if d.mediaType == DOCKER_SCHEMA1 then None
    else Some(d)
  }

  /** What the goroutine of one source ends with; None when it returns an error. */
  function Resolve(reg: Registry, d: Descriptor): Option<Source> {
    match reg.fetch(d)
    case None => None
    case Some(dt) =>
      match WithMediaType(reg, d, dt)
      case None => None
      case Some(typed) =>
        match WithPlatform(reg, typed, dt)
        case None => None
        case Some(desc) => Some(Source(dt, desc))
  }

  function ResolveAll(reg: Registry, ds: seq<Descriptor>): (r: Option<seq<Source>>)
    ensures r.None? <==> exists i :: 0 <= i < |ds| && Resolve(reg, ds[i]).None?
    ensures r.Some? ==> |r.value| == |ds| && forall i :: 0 <= i < |ds| ==> Resolve(reg, ds[i]) == Some(r.value[i])
  {
    if ds == [] then Some([])
    else
      var first, rest := Resolve(reg, ds[0]), ResolveAll(reg, ds[1..]);
      assert rest.None? ==> exists i :: 0 <= i < |ds| - 1 && Resolve(reg, ds[1..][i]).None? && ds[1..][i] == ds[i + 1];
      if first.None? || rest.None? then None else Some([first.value] + rest.value)
  }

  // ----- the parallel gather: one goroutine a source, in any interleaving

  datatype Progress = AtFetch | AtMediaType | AtPlatform | Succeeded | Failed

  datatype Gather = Gather(progress: seq<Progress>, dts: seq<Option<Bytes>>, descs: seq<Descriptor>, failed: bool)
  {
    predicate Sized(n: nat) {
      |progress| == n && |dts| == n && |descs| == n
    }

    predicate Finished() {
      forall i :: 0 <= i < |progress| ==> progress[i].Succeeded? || progress[i].Failed?
    }

    function Fail(i: nat): Gather
      requires i < |progress|
    {
      this.(progress := progress[i := Failed], failed := true)
    }

    function Advance(i: nat, next: Progress): Gather
      requires i < |progress|
    {
      this.(progress := progress[i := next])
    }
  }

  function GatherStart(ds: seq<Descriptor>): Gather {
    Gather(seq(|ds|, _ => AtFetch), seq(|ds|, _ => None), ds, false)
  }

  /**
   * Goroutine i moves. Once some goroutine failed the group's context is cancelled, and any later request may fail
   * too.
   */
  predicate GatherStep(reg: Registry, s: Gather, t: Gather, i: nat)
    requires s.Sized(|s.progress|) && i < |s.progress|
  {
    match s.progress[i]
    case AtFetch =>
      var dt := reg.fetch(s.descs[i]);
      || (dt.Some? && t == s.(dts := s.dts[i := dt]).Advance(i, AtMediaType))
      || ((dt.None? || s.failed) && t == s.Fail(i))
    case AtMediaType =>
      s.dts[i].Some? &&
      var d := WithMediaType(reg, s.descs[i], s.dts[i].value);
      if d.None? then t == s.Fail(i)
      else t == s.(descs := s.descs[i := d.value]).Advance(i, AtPlatform)
    case AtPlatform =>
      s.dts[i].Some? &&
      var d := WithPlatform(reg, s.descs[i], s.dts[i].value);
      || (d.Some? && t == s.(descs := s.descs[i := d.value]).Advance(i, Succeeded))
      || ((d.None? || (s.failed && NeedsPlatform(s.descs[i]))) && t == s.Fail(i))
    case Succeeded => false
    case Failed => false
  }

  ghost predicate GatherMove(reg: Registry, s: Gather, t: Gather) {
    s.Sized(|s.progress|) && exists i :: 0 <= i < |s.progress| && GatherStep(reg, s, t, i)
  }

  ghost predicate IsGatherRun(reg: Registry, ds: seq<Descriptor>, run: seq<Gather>) {
    && run != [] && run[0] == GatherStart(ds)
    && forall k :: 0 <= k < |run| - 1 ==> GatherMove(reg, run[k], run[k + 1])
  }

  ghost predicate SomeSourceFails(reg: Registry, ds: seq<Descriptor>) {
    exists i :: 0 <= i < |ds| && Resolve(reg, ds[i]).None?
  }

  /** How far goroutine i got with its own source. */
  predicate SlotInv(reg: Registry, d: Descriptor, p: Progress, dt: Option<Bytes>, desc: Descriptor) {
    match p
    case AtFetch => desc == d && dt == None
    case AtMediaType => desc == d && dt.Some? && dt == reg.fetch(d)
    case AtPlatform => dt.Some? && dt == reg.fetch(d) && WithMediaType(reg, d, dt.value) == Some(desc)
    case Succeeded => dt.Some? && Resolve(reg, d) == Some(Source(dt.value, desc))
    case Failed => true
  }

  ghost predicate GatherInv(reg: Registry, ds: seq<Descriptor>, s: Gather) {
    && s.Sized(|ds|)
    && (forall i :: 0 <= i < |ds| ==> SlotInv(reg, ds[i], s.progress[i], s.dts[i], s.descs[i]))
    && (s.failed <==> exists i :: 0 <= i < |ds| && s.progress[i].Failed?)
    && (s.failed ==> SomeSourceFails(reg, ds))
  }

  lemma GatherStepKeepsInv(reg: Registry, ds: seq<Descriptor>, s: Gather, t: Gather, i: nat)
    requires GatherInv(reg, ds, s)
    requires i < |ds| && GatherStep(reg, s, t, i)
    ensures GatherInv(reg, ds, t)
    ensures forall j :: 0 <= j < |ds| && j != i ==>
      t.progress[j] == s.progress[j] && t.dts[j] == s.dts[j] && t.descs[j] == s.descs[j]
  {
    assert SlotInv(reg, ds[i], s.progress[i], s.dts[i], s.descs[i]);
    assert t.failed == (s.failed || t.progress[i].Failed?);
    if t.progress[i].Failed? && !s.failed {
      assert Resolve(reg, ds[i]).None?;
    }
    if s.failed {
      var j :| 0 <= j < |ds| && s.progress[j].Failed?;
      assert t.progress[j].Failed?;
    }
  }

  lemma {:induction false} GatherRunKeepsInv(reg: Registry, ds: seq<Descriptor>, run: seq<Gather>)
    requires IsGatherRun(reg, ds, run)
    ensures forall k :: 0 <= k < |run| ==> GatherInv(reg, ds, run[k])
  {
    var last := |run| - 1;
    if last > 0 {
      GatherRunKeepsInv(reg, ds, run[..last]);
      assert run[..last][last - 1] == run[last - 1];
      assert GatherMove(reg, run[last - 1], run[last]);
      var i :| 0 <= i < |ds| && GatherStep(reg, run[last - 1], run[last], i);
      GatherStepKeepsInv(reg, ds, run[last - 1], run[last], i);
      forall k | 0 <= k < |run|
        ensures GatherInv(reg, ds, run[k])
      {
        if k < last {
          assert run[k] == run[..last][k];
        }
      }
    }
  }

  /** What eg.Wait leaves behind: an error, or the slots. */
  function Gathered(s: Gather): Option<seq<Source>>
    requires s.Sized(|s.progress|)
  {
    if s.failed || exists i :: 0 <= i < |s.dts| && s.dts[i].None? then None
    else Some(seq(|s.dts|, i requires 0 <= i < |s.dts| => Source(s.dts[i].value, s.descs[i])))
  }

  /** Every complete schedule ends with the same slots, and fails exactly when some source does. */
  lemma GatherIsScheduleIndependent(reg: Registry, ds: seq<Descriptor>, run: seq<Gather>)
    requires IsGatherRun(reg, ds, run)
    requires run[|run| - 1].Finished()
    ensures run[|run| - 1].Sized(|ds|)
    ensures Gathered(run[|run| - 1]) == ResolveAll(reg, ds)
  {
    GatherRunKeepsInv(reg, ds, run);
    var end, all := run[|run| - 1], ResolveAll(reg, ds);
    assert GatherInv(reg, ds, end);
    if !end.failed {
      forall i | 0 <= i < |ds|
        ensures end.dts[i].Some? && Resolve(reg, ds[i]) == Some(Source(end.dts[i].value, end.descs[i]))
      {
        assert SlotInv(reg, ds[i], end.progress[i], end.dts[i], end.descs[i]);
      }
      assert Gathered(end).value == all.value;
    }
  }

  function StepsLeft(p: Progress): nat {
    match p case AtFetch => 3 case AtMediaType => 2 case AtPlatform => 1 case Succeeded => 0 case Failed => 0
  }

  function TotalStepsLeft(ps: seq<Progress>): nat {
    if ps == [] then 0 else StepsLeft(ps[0]) + TotalStepsLeft(ps[1..])
  }

  lemma {:induction false} TotalStepsLeftDrops(ps: seq<Progress>, i: nat, next: Progress)
    requires i < |ps| && StepsLeft(next) < StepsLeft(ps[i])
    ensures TotalStepsLeft(ps[i := next]) < TotalStepsLeft(ps)
  {
    if i > 0 {
      TotalStepsLeftDrops(ps[1..], i - 1, next);
      assert ps[i := next][1..] == ps[1..][i - 1 := next];
    }
  }

  lemma GatherStepUsesBudget(reg: Registry, s: Gather, t: Gather, i: nat)
    requires s.Sized(|s.progress|) && i < |s.progress| && GatherStep(reg, s, t, i)
    ensures TotalStepsLeft(t.progress) < TotalStepsLeft(s.progress)
  {
    TotalStepsLeftDrops(s.progress, i, t.progress[i]);
  }

  lemma GatherCanMove(reg: Registry, ds: seq<Descriptor>, s: Gather, i: nat)
    requires GatherInv(reg, ds, s)
    requires i < |ds| && !s.progress[i].Succeeded? && !s.progress[i].Failed?
    ensures exists t :: GatherMove(reg, s, t)
  {
    assert SlotInv(reg, ds[i], s.progress[i], s.dts[i], s.descs[i]);
    var t := NextOf(reg, s, i);
    assert GatherStep(reg, s, t, i);
    assert GatherMove(reg, s, t);
  }

  /**
   * A gather cannot get stuck: while it is unfinished some goroutine can move, and every move uses up a bounded
   * budget.
   */
  lemma GatherTerminates(reg: Registry, ds: seq<Descriptor>, s: Gather)
    requires GatherInv(reg, ds, s)
    ensures s.Finished() || exists t :: GatherMove(reg, s, t)
    ensures forall t :: GatherMove(reg, s, t) ==> TotalStepsLeft(t.progress) < TotalStepsLeft(s.progress)
  {
    if !s.Finished() {
      var i :| 0 <= i < |s.progress| && !s.progress[i].Succeeded? && !s.progress[i].Failed?;
      GatherCanMove(reg, ds, s, i);
    }
    forall t | GatherMove(reg, s, t)
      ensures TotalStepsLeft(t.progress) < TotalStepsLeft(s.progress)
    {
      var i :| 0 <= i < |s.progress| && GatherStep(reg, s, t, i);
      GatherStepUsesBudget(reg, s, t, i);
    }
  }

  /** One possible move of goroutine i. */
  function NextOf(reg: Registry, s: Gather, i: nat): Gather
    requires s.Sized(|s.progress|) && i < |s.progress|
    requires s.progress[i].AtMediaType? || s.progress[i].AtPlatform? ==> s.dts[i].Some?
  {
    match s.progress[i]
    case AtFetch =>
      var dt := reg.fetch(s.descs[i]);
      if dt.None? then s.Fail(i) else s.(dts := s.dts[i := dt]).Advance(i, AtMediaType)
    case AtMediaType =>
      var d := WithMediaType(reg, s.descs[i], s.dts[i].value);
      if d.None? then s.Fail(i) else s.(descs := s.descs[i := d.value]).Advance(i, AtPlatform)
    case AtPlatform =>
      var d := WithPlatform(reg, s.descs[i], s.dts[i].value);
      if d.None? then s.Fail(i) else s.(descs := s.descs[i := d.value]).Advance(i, Succeeded)
    case _ => s
  }

  // ----- the result of Combine

  /** The entries the merge loop goes through; None when an index does not parse. */
  function Flatten(reg: Registry, sources: seq<Source>): Option<seq<Descriptor>> {
    if sources == [] then Some([])
    else
      var first := EntriesOf(reg, sources[0]);
      var rest := Flatten(reg, sources[1..]);
      if first.None? || rest.None? then None else Some(first.value + rest.value)
  }

  function EntriesOf(reg: Registry, source: Source): Option<seq<Descriptor>> {
    if IsIndexType(source.desc.mediaType) then reg.manifests(source.bytes) else Some([source.desc])
  }

  function IndexOutput(reg: Registry, entries: seq<Descriptor>): Source {
    var bytes := reg.marshal(entries);
    Source(bytes, Descriptor(DOCKER_LIST, reg.digestOf(bytes), |bytes|, [], None, None))
  }

  predicate IsLoneIndex(sources: seq<Source>) {
    |sources| == 1 && IsIndexType(sources[0].desc.mediaType)
  }

  function CombineSources(reg: Registry, sources: seq<Source>): Option<Source> {
    if IsLoneIndex(sources) then Some(sources[0])
    else
      match Flatten(reg, sources)
      case None => None
      case Some(entries) => Some(IndexOutput(reg, Merge(entries)))
  }

  /** What Combine returns, as bytes and descriptor; None for any error. */
  function CombineSpec(reg: Registry, ds: seq<Descriptor>): Option<Source> {
    match ResolveAll(reg, ds)
    case None => None
    case Some(sources) => CombineSources(reg, sources)
  }

  // ----- what the caller gets, in terms of the registry's answers

  /** The media type that the code goes by: the given one, or else what the document says or looks like. */
  function TypeInForce(reg: Registry, d: Descriptor, dt: Bytes): Option<string> {
    if d.mediaType != "" then Some(d.mediaType)
    else
      match reg.header(dt)
      case None => None
      case Some(Header(mediaType, hasConfig, fsLayers)) =>
        if mediaType != "" then Some(mediaType)
        else if hasConfig then Some("application/vnd.docker.distribution.manifest.v2+json")
        else if fsLayers > 0 then Some("application/vnd.docker.distribution.manifest.v1+prettyjws")
        else Some("application/vnd.docker.distribution.manifest.list.v2+json")
  }

  predicate IsImageManifest(mediaType: string) {
    || mediaType == "application/vnd.docker.distribution.manifest.v2+json"
    || mediaType == "application/vnd.oci.image.manifest.v1+json"
  }

  /**
   * What a source becomes: its bytes, its media type, and the platform that was given, or that its config says if it
   * is an image manifest; everything else as given.
   */
  lemma ResolvedSource(reg: Registry, ds: seq<Descriptor>, sources: seq<Source>, i: nat)
    requires ResolveAll(reg, ds) == Some(sources) && i < |ds|
    ensures |sources| == |ds| && reg.fetch(ds[i]) == Some(sources[i].bytes)
    ensures TypeInForce(reg, ds[i], sources[i].bytes) == Some(sources[i].desc.mediaType)
    ensures sources[i].desc.mediaType != "application/vnd.docker.distribution.manifest.v1+prettyjws"
    ensures sources[i].desc.platform ==
      if ds[i].platform.None? && IsImageManifest(sources[i].desc.mediaType) then reg.platform(sources[i].bytes)
      else ds[i].platform
    ensures ds[i].platform.None? && IsImageManifest(sources[i].desc.mediaType) ==> sources[i].desc.platform.Some?
    ensures sources[i].desc ==
      ds[i].(mediaType := sources[i].desc.mediaType, platform := sources[i].desc.platform)
  {
    hide TypeInForce, WithMediaType;
    assert Resolve(reg, ds[i]) == Some(sources[i]);
    TypeInForceIsUsed(reg, ds[i], sources[i].bytes);
  }

  /** The sources that make the whole gather fail. */
  predicate CannotResolve(reg: Registry, d: Descriptor) {
    match reg.fetch(d)
    case None => true
    case Some(dt) =>
      match TypeInForce(reg, d, dt)
      case None => true
      case Some(mediaType) =>
        || mediaType == "application/vnd.docker.distribution.manifest.v1+prettyjws"
        || (IsImageManifest(mediaType) && d.platform.None? && reg.platform(dt).None?)
  }

  lemma TypeInForceIsUsed(reg: Registry, d: Descriptor, dt: Bytes)
    ensures
      var mediaType := TypeInForce(reg, d, dt);
      WithMediaType(reg, d, dt) == if mediaType.None? then None else Some(d.(mediaType := mediaType.value))
  {
  }

  lemma PlatformIsNeeded(reg: Registry, d: Descriptor, dt: Bytes)
    ensures WithPlatform(reg, d, dt).None? <==>
      || d.mediaType == "application/vnd.docker.distribution.manifest.v1+prettyjws"
      || (IsImageManifest(d.mediaType) && d.platform.None? && reg.platform(dt).None?)
  {
    assert |DOCKER_SCHEMA1| == 57;
    assert |"application/vnd.docker.distribution.manifest.v2+json"| == 52;
    assert |"application/vnd.oci.image.manifest.v1+json"| == 42;
  }

  lemma OneFailsExactly(reg: Registry, d: Descriptor)
    ensures Resolve(reg, d).None? <==> CannotResolve(reg, d)
  {
    hide TypeInForce, WithMediaType, WithPlatform, IsImageManifest;
    if reg.fetch(d).Some? {
      var dt := reg.fetch(d).value;
      TypeInForceIsUsed(reg, d, dt);
      if TypeInForce(reg, d, dt).Some? {
        PlatformIsNeeded(reg, d.(mediaType := TypeInForce(reg, d, dt).value), dt);
      }
    }
  }

  lemma ResolveFailsExactly(reg: Registry, ds: seq<Descriptor>)
    ensures ResolveAll(reg, ds).None? <==> exists i :: 0 <= i < |ds| && CannotResolve(reg, ds[i])
  {
    hide Resolve, CannotResolve;
    forall i | 0 <= i < |ds|
      ensures Resolve(reg, ds[i]).None? <==> CannotResolve(reg, ds[i])
    {
      OneFailsExactly(reg, ds[i]);
    }
  }

  /** The two media types of an image index. */
  predicate IsImageIndex(mediaType: string) {
    || mediaType == "application/vnd.docker.distribution.manifest.list.v2+json"
    || mediaType == "application/vnd.oci.image.index.v1+json"
  }

  /** Combine fails exactly when a source cannot be resolved, or an index among several sources cannot be parsed. */
  lemma CombineFailsExactly(reg: Registry, ds: seq<Descriptor>)
    ensures CombineSpec(reg, ds).None? <==>
      || (exists i :: 0 <= i < |ds| && CannotResolve(reg, ds[i]))
      || (|ds| > 1 && exists i :: 0 <= i < |ds| && IsUnreadableIndex(reg, ds[i]))
  {
    ResolveFailsExactly(reg, ds);
    var sources := ResolveAll(reg, ds);
    if sources.Some? {
      FlattenFailsExactly(reg, sources.value);
      forall i | 0 <= i < |ds|
        ensures EntriesOf(reg, sources.value[i]).None? <==> IsUnreadableIndex(reg, ds[i])
      {
        ResolvedSource(reg, ds, sources.value, i);
      }
    }
  }

  predicate IsUnreadableIndex(reg: Registry, d: Descriptor) {
    var dt := reg.fetch(d);
    && dt.Some? && TypeInForce(reg, d, dt.value).Some? && IsImageIndex(TypeInForce(reg, d, dt.value).value)
    && reg.manifests(dt.value).None?
  }

  lemma {:induction false} FlattenFailsExactly(reg: Registry, sources: seq<Source>)
    ensures Flatten(reg, sources).None? <==> exists i :: 0 <= i < |sources| && EntriesOf(reg, sources[i]).None?
    decreases |sources|
  {
    if sources != [] {
      FlattenFailsExactly(reg, sources[1..]);
      if i :| 0 <= i < |sources| && EntriesOf(reg, sources[i]).None? {
        assert i > 0 ==> sources[1..][i - 1] == sources[i];
      }
    }
  }

  /** A new index describes itself: its own media type, length and digest, and nothing else. */
  lemma OutputDescribesItself(reg: Registry, ds: seq<Descriptor>, r: Source)
    requires CombineSpec(reg, ds) == Some(r)
    requires |ds| != 1 || (reg.fetch(ds[0]).Some? && !IsIndexSource(reg, ds[0]))
    ensures r.desc.mediaType == "application/vnd.docker.distribution.manifest.list.v2+json"
    ensures r.desc.size == |r.bytes| && r.desc.digest == reg.digestOf(r.bytes)
    ensures r.desc.urls == [] && r.desc.annotations == None && r.desc.platform == None
  {
    var sources := ResolveAll(reg, ds).value;
    if |ds| == 1 {
      ResolvedSource(reg, ds, sources, 0);
    }
  }

  predicate IsIndexSource(reg: Registry, d: Descriptor) {
    var dt := reg.fetch(d);
    dt.Some? && TypeInForce(reg, d, dt.value).Some? && IsImageIndex(TypeInForce(reg, d, dt.value).value)
  }

  /** A lone index comes back as it was fetched, and described as it was given. */
  lemma LoneIndexComesBack(reg: Registry, d: Descriptor, r: Source)
    requires CombineSpec(reg, [d]) == Some(r) && IsIndexSource(reg, d)
    ensures reg.fetch(d) == Some(r.bytes) && r.desc == d.(mediaType := r.desc.mediaType)
    ensures IsImageIndex(r.desc.mediaType) && (d.mediaType != "" ==> r.desc == d)
  {
    ResolvedSource(reg, [d], ResolveAll(reg, [d]).value, 0);
  }

  lemma {:induction false} FlattenOfManifests(reg: Registry, sources: seq<Source>)
    requires forall i :: 0 <= i < |sources| ==> !IsIndexType(sources[i].desc.mediaType)
    ensures Flatten(reg, sources).Some? && |Flatten(reg, sources).value| == |sources|
    ensures forall i :: 0 <= i < |sources| ==> Flatten(reg, sources).value[i] == sources[i].desc
    decreases |sources|
  {
    if sources != [] {
      FlattenOfManifests(reg, sources[1..]);
      forall i | 0 <= i < |sources|
        ensures Flatten(reg, sources).value[i] == sources[i].desc
      {
        assert i > 0 ==> sources[1..][i - 1] == sources[i];
      }
    }
  }

  /**
   * The everyday use: image manifests with different digests come out as the entries of the new index, in order, each
   * with the platform that was given, or else the one that its own config says.
   */
  lemma ManifestsKeepTheirPlatforms(reg: Registry, ds: seq<Descriptor>, r: Source)
    requires JsonIsLossless(reg) && CombineSpec(reg, ds) == Some(r)
    requires forall i, j :: 0 <= i < j < |ds| ==> ds[i].digest != ds[j].digest
    requires forall i :: 0 <= i < |ds| ==> IsImageManifest(ds[i].mediaType)
    ensures reg.manifests(r.bytes).Some?
    ensures
      var entries := reg.manifests(r.bytes).value;
      |entries| == |ds| && forall i :: 0 <= i < |ds| ==>
        && reg.fetch(ds[i]).Some?
        && entries[i].digest == ds[i].digest && entries[i].mediaType == ds[i].mediaType
        && entries[i].size == ds[i].size && entries[i].urls == ds[i].urls
        && entries[i].annotations == (if ds[i].annotations == Some(map[]) then None else ds[i].annotations)
        && entries[i].platform.Some?
        && entries[i].platform ==
             if ds[i].platform.Some? then ds[i].platform else reg.platform(reg.fetch(ds[i]).value)
  {
    var sources := ResolveAll(reg, ds).value;
    forall i | 0 <= i < |ds|
      ensures reg.fetch(ds[i]) == Some(sources[i].bytes) && sources[i].desc ==
        ds[i].(platform := if ds[i].platform.Some? then ds[i].platform else reg.platform(sources[i].bytes))
      ensures sources[i].desc.platform.Some? && !IsIndexType(sources[i].desc.mediaType)
    {
      ResolvedSource(reg, ds, sources, i);
      NoIndex(ds[i].mediaType);
    }
    FlattenOfManifests(reg, sources);
    var entries := Flatten(reg, sources).value;
    MergeFixesExactlyDistinct(entries);
    assert r == IndexOutput(reg, entries);
    assert reg.manifests(r.bytes) == Some(CanonicalAll(entries));
  }

  /** No image manifest is an index: the media types differ in length. */
  lemma NoIndex(mediaType: string)
    requires IsImageManifest(mediaType)
    ensures !IsIndexType(mediaType)
  {
    assert |DOCKER_LIST| == 57 && |OCI_INDEX| == 39;
    assert |"application/vnd.docker.distribution.manifest.v2+json"| == 52;
    assert |"application/vnd.oci.image.manifest.v1+json"| == 42;
  }

  // ----- combining in two rounds

  lemma ResolveAllOfConcat(reg: Registry, a: seq<Descriptor>, b: seq<Descriptor>)
    ensures
      var ra, rb := ResolveAll(reg, a), ResolveAll(reg, b);
      ResolveAll(reg, a + b) == if ra.None? || rb.None? then None else Some(ra.value + rb.value)
  {
    var ra, rb, r := ResolveAll(reg, a), ResolveAll(reg, b), ResolveAll(reg, a + b);
    if ra.None? {
      var i :| 0 <= i < |a| && Resolve(reg, a[i]).None?;
      assert (a + b)[i] == a[i];
    } else if rb.None? {
      var i :| 0 <= i < |b| && Resolve(reg, b[i]).None?;
      assert (a + b)[|a| + i] == b[i];
    } else {
      forall i | 0 <= i < |a + b|
        ensures Resolve(reg, (a + b)[i]) == Some((ra.value + rb.value)[i])
      {
        assert (a + b)[i] == if i < |a| then a[i] else b[i - |a|];
      }
      assert r.Some?;
      assert r.value == ra.value + rb.value;
    }
  }

  lemma {:induction false} FlattenOfConcat(reg: Registry, a: seq<Source>, b: seq<Source>)
    ensures
      var fa, fb := Flatten(reg, a), Flatten(reg, b);
      Flatten(reg, a + b) == if fa.None? || fb.None? then None else Some(fa.value + fb.value)
  {
    if a == [] {
      assert a + b == b;
      assert Flatten(reg, b).Some? ==> [] + Flatten(reg, b).value == Flatten(reg, b).value;
    } else {
      assert (a + b)[1..] == a[1..] + b;
      FlattenOfConcat(reg, a[1..], b);
      var first, rest, fb := EntriesOf(reg, a[0]), Flatten(reg, a[1..]), Flatten(reg, b);
      if first.Some? && rest.Some? && fb.Some? {
        assert first.value + (rest.value + fb.value) == first.value + rest.value + fb.value;
      }
    }
  }

  lemma FlattenOfOne(reg: Registry, source: Source)
    ensures Flatten(reg, [source]) == EntriesOf(reg, source)
  {
    assert [source][1..] == [];
    assert EntriesOf(reg, source).Some? ==> EntriesOf(reg, source).value + [] == EntriesOf(reg, source).value;
  }

  /** A pushed result of Combine is, as a source, what it was as a result. */
  lemma OutputResolves(reg: Registry, b: seq<Descriptor>, inner: Source)
    requires CombineSpec(reg, b) == Some(inner)
    requires reg.fetch(inner.desc) == Some(inner.bytes)
    ensures IsIndexType(inner.desc.mediaType)
    ensures ResolveAll(reg, [inner.desc]) == Some([inner])
  {
    assert Resolve(reg, inner.desc) == Some(inner);
    assert [inner.desc][1..] == [];
    assert [inner] + [] == [inner];
  }

  /** The entries of a result, against the entries of the sources it was made from. */
  lemma OutputEntries(reg: Registry, sources: seq<Source>, inner: Source)
    requires JsonIsLossless(reg)
    requires CombineSources(reg, sources) == Some(inner)
    ensures
      var outer, flat := EntriesOf(reg, inner), Flatten(reg, sources);
      if IsLoneIndex(sources) then outer == flat
      else outer.Some? && flat.Some? && outer.value == CanonicalAll(Merge(flat.value))
  {
    if IsLoneIndex(sources) {
      assert sources == [inner];
      FlattenOfOne(reg, inner);
    }
  }

  lemma CanonicalAllOfConcat(a: seq<Descriptor>, b: seq<Descriptor>)
    ensures CanonicalAll(a + b) == CanonicalAll(a) + CanonicalAll(b)
    ensures SameJson(CanonicalAll(a), a)
  {
  }

  lemma ReencodedStretch(a: seq<Descriptor>, b: seq<Descriptor>, c: seq<Descriptor>)
    ensures SameJson(Merge(a + CanonicalAll(Merge(b)) + c), Merge(a + b + c))
  {
    CanonicalAllOfConcat(a, Merge(b));
    CanonicalAllOfConcat(a, CanonicalAll(Merge(b)));
    CanonicalAllOfConcat(Merge(b), []);
    CanonicalAllOfConcat(a + Merge(b), c);
    CanonicalAllOfConcat(a + CanonicalAll(Merge(b)), c);
    MergeOfSameJson(a + CanonicalAll(Merge(b)) + c, a + Merge(b) + c);
    MergeNested(a, b, c);
  }

  lemma CombineSourcesNested(reg: Registry, a: seq<Source>, b: seq<Source>, c: seq<Source>, inner: Source)
    requires JsonIsLossless(reg)
    requires CombineSources(reg, b) == Some(inner) && IsIndexType(inner.desc.mediaType)
    requires b != [] || !IsLoneIndex(a + c)
    ensures CombineSources(reg, a + [inner] + c) == CombineSources(reg, a + b + c)
  {
    if a == [] && c == [] {
      assert a + [inner] + c == [inner] && a + b + c == b;
    } else {
      if b == [] {
        assert a + b + c == a + c;
      }
      FlattenOfConcat(reg, a, [inner]);
      FlattenOfConcat(reg, a + [inner], c);
      FlattenOfConcat(reg, a, b);
      FlattenOfConcat(reg, a + b, c);
      FlattenOfOne(reg, inner);
      OutputEntries(reg, b, inner);
      var fa, fb, fc := Flatten(reg, a), Flatten(reg, b), Flatten(reg, c);
      if fa.Some? && fb.Some? && fc.Some? && !IsLoneIndex(b) {
        ReencodedStretch(fa.value, fb.value, fc.value);
      }
    }
  }

  /**
   * Combining a pushed result with more sources gives, byte for byte, what combining all the original sources
   * gives. The one exception: combining nothing first, and a single index afterwards, re-encodes that index.
   */
  lemma CombineIsAssociative(reg: Registry, a: seq<Descriptor>, b: seq<Descriptor>, c: seq<Descriptor>, inner: Source)
    requires JsonIsLossless(reg)
    requires CombineSpec(reg, b) == Some(inner)
    requires reg.fetch(inner.desc) == Some(inner.bytes)
    ensures
      var nested, flat := CombineSpec(reg, a + [inner.desc] + c), CombineSpec(reg, a + b + c);
      var sources := ResolveAll(reg, a + c);
      if b == [] && sources.Some? && IsLoneIndex(sources.value) then
        && flat == Some(sources.value[0])
        && nested == match reg.manifests(sources.value[0].bytes)
                     case None => None
                     case Some(entries) => Some(IndexOutput(reg, Merge(entries)))
      else nested == flat
  {
    OutputResolves(reg, b, inner);
    ResolveAllOfConcat(reg, a, [inner.desc]);
    ResolveAllOfConcat(reg, a + [inner.desc], c);
    ResolveAllOfConcat(reg, a, b);
    ResolveAllOfConcat(reg, a + b, c);
    ResolveAllOfConcat(reg, a, c);
    var ra, rb, rc := ResolveAll(reg, a), ResolveAll(reg, b), ResolveAll(reg, c);
    if ra.Some? && rc.Some? {
      if b == [] && IsLoneIndex(ra.value + rc.value) {
        LoneIndexAfterNothing(reg, ra.value, rc.value, inner);
        assert a + b + c == a + c;
      } else {
        CombineSourcesNested(reg, ra.value, rb.value, rc.value, inner);
      }
    }
  }

  lemma LoneIndexAfterNothing(reg: Registry, a: seq<Source>, c: seq<Source>, inner: Source)
    requires JsonIsLossless(reg)
    requires CombineSources(reg, []) == Some(inner) && IsIndexType(inner.desc.mediaType)
    requires IsLoneIndex(a + c)
    ensures
      CombineSources(reg, a + [inner] + c) ==
        match reg.manifests((a + c)[0].bytes)
        case None => None
        case Some(entries) => Some(IndexOutput(reg, Merge(entries)))
  {
    OutputEntries(reg, [], inner);
    assert Merge([]) == [] && CanonicalAll([]) == [];
    FlattenOfConcat(reg, a, [inner]);
    FlattenOfConcat(reg, a + [inner], c);
    FlattenOfOne(reg, inner);
    FlattenOfOne(reg, (a + c)[0]);
    if a == [] {
      assert c == [(a + c)[0]];
    } else {
      assert a == [(a + c)[0]] && c == [];
    }
    var entries := EntriesOf(reg, (a + c)[0]);
    if entries.Some? {
      assert [] + [] + entries.value == entries.value && entries.value + [] + [] == entries.value;
    }
  }

  /** The single-source fast path agrees with the merge loop exactly on indexes whose entries are duplicate-free. */
  lemma FastPathAgreesWithLoop(reg: Registry, source: Source, entries: seq<Descriptor>)
    requires IsIndexType(source.desc.mediaType)
    requires reg.manifests(source.bytes) == Some(entries)
    ensures CombineSources(reg, [source]) == Some(source)
    ensures Flatten(reg, [source]) == Some(entries)
    ensures Merge(entries) == entries <==> DistinctDigests(entries)
  {
    FlattenOfOne(reg, source);
    MergeFixesExactlyDistinct(entries);
  }

  // ----- the merge loop on the heap: annotation maps are shared by reference and updated in place

  class AnnotationMap {
    var entries: map<string, string>

    constructor ()
      ensures entries == map[]
    {
      entries := map[];
    }
  }

  datatype Entry = Entry(
    mediaType: string,
    digest: string,
    size: int,
    urls: seq<string>,
    annotations: AnnotationMap?,
    platform: Option<Platform>)

  function View(e: Entry): (d: Descriptor)
    reads e.annotations
    ensures d.digest == e.digest
  {
    var annotations := if e.annotations == null then None else Some(e.annotations.entries);
    Descriptor(e.mediaType, e.digest, e.size, e.urls, annotations, e.platform)
  }

  /** The first entry with its digest: the merge keeps this entry's own map. */
  predicate IsFirst(es: seq<Entry>, f: nat)
    requires f < |es|
  {
    forall h :: 0 <= h < f ==> es[h].digest != es[f].digest
  }

  /** When the loop comes to entry k it writes into the map of entry f. */
  predicate WritesInto(es: seq<Entry>, f: nat, k: nat) {
    && f < k < |es| && es[f].digest == es[k].digest && IsFirst(es, f)
    && es[f].annotations != null && es[k].annotations != null && es[k].annotations != es[f].annotations
  }

  /** No other entry that shares a written map is read after the write, or keeps the map in the result. */
  ghost predicate WritesAreUnseen(es: seq<Entry>) {
    forall f: nat, k: nat, j: nat ::
      WritesInto(es, f, k) && j < |es| && j != f && es[j].annotations == es[f].annotations ==>
      j < k && !IsFirst(es, j)
  }

  /**
   * In particular a list may hold one descriptor several times, with its own map, as long as nothing else has the
   * digest.
   */
  lemma RepeatsAreUnseen(es: seq<Entry>)
    requires forall i, j :: 0 <= i < |es| && 0 <= j < |es| && es[i].digest == es[j].digest ==>
      es[i].annotations == es[j].annotations
    ensures WritesAreUnseen(es)
  {
  }

  /** The loop that copies the entries of one annotation map into another. */
  method PutAll(target: AnnotationMap, source: map<string, string>)
    modifies target
    ensures target.entries == old(target.entries) + source
  {
    var left := source.Keys;
    while left != {}
      invariant left <= source.Keys
      invariant target.entries == old(target.entries) + map k | k in source && k !in left :: source[k]
      decreases left
    {
      var k :| k in left;
      target.entries := target.entries[k := source[k]];
      left := left - {k};
    }
  }

  /** Each digest has the position of its entry. */
  ghost predicate PositionsMatch(positions: map<string, nat>, newDescs: seq<Entry>, contents: seq<Descriptor>) {
    && |contents| == |newDescs|
    && (forall i :: 0 <= i < |newDescs| ==> newDescs[i].digest == contents[i].digest)
    && (forall i :: 0 <= i < |contents| ==> contents[i].digest in positions && positions[contents[i].digest] == i)
    && (forall g :: g in positions ==> positions[g] < |contents| && contents[positions[g]].digest == g)
  }

  lemma PositionsAfterAppend(
      positions: map<string, nat>, newDescs: seq<Entry>, contents: seq<Descriptor>, d: Entry, view: Descriptor)
    requires PositionsMatch(positions, newDescs, contents) && d.digest !in positions && view.digest == d.digest
    ensures PositionsMatch(positions[d.digest := |newDescs|], newDescs + [d], contents + [view])
  {
  }

  lemma PositionsAfterReplace(
      positions: map<string, nat>, newDescs: seq<Entry>, contents: seq<Descriptor>, index: nat, e: Entry,
      view: Descriptor)
    requires PositionsMatch(positions, newDescs, contents) && index < |newDescs|
    requires e.digest == view.digest == contents[index].digest
    ensures PositionsMatch(positions, newDescs[index := e], contents[index := view])
  {
  }

  /** The variables of the merge loop: entries so far, and where the entry of each digest is. */
  class Merger {
    var positions: map<string, nat>
    var newDescs: seq<Entry>
    ghost var contents: seq<Descriptor>
    ghost var repr: set<AnnotationMap>

    ghost predicate Valid()
      reads this, repr
    {
      && PositionsValid()
      && (forall i :: 0 <= i < |newDescs| ==> newDescs[i].annotations == null || newDescs[i].annotations in repr)
      && (forall i :: 0 <= i < |newDescs| ==> View(newDescs[i]) == contents[i])
    }

    ghost predicate PositionsValid()
      reads this
    {
      PositionsMatch(positions, newDescs, contents)
    }

    /** The map into which adding `d` copies annotations, if there is one. */
    ghost function Target(d: Entry): set<AnnotationMap>
      requires PositionsValid()
      reads this
    {
      if d.digest !in positions || d.annotations == null || newDescs[positions[d.digest]].annotations == null then {}
      else {newDescs[positions[d.digest]].annotations}
    }

    /** If adding `d` changes a map, no other entry has that map. */
    ghost predicate ChangeIsUnseen(d: Entry)
      requires PositionsValid()
      reads this
    {
      Target(d) != {} && d.annotations !in Target(d) ==>
        forall i :: 0 <= i < |newDescs| && i != positions[d.digest] ==> newDescs[i].annotations !in Target(d)
    }

    constructor ()
      ensures Valid() && contents == [] && repr == {} && positions == map[]
    {
      positions, newDescs, contents, repr := map[], [], [], {};
    }

    method AddDesc(d: Entry)
      requires Valid() && ChangeIsUnseen(d)
      modifies this, Target(d)
      ensures Valid()
      ensures contents == ImageIndex.AddDesc(old(contents), old(View(d)))
      ensures forall o :: o in repr ==> o in old(repr) || o == d.annotations || fresh(o)
      ensures d.annotations in old(Target(d)) ==> d.annotations.entries == old(d.annotations.entries)
      ensures d.digest !in old(positions) ==>
        positions == old(positions)[d.digest := old(|newDescs|)] && newDescs == old(newDescs) + [d]
      ensures d.digest in old(positions) ==>
        && positions == old(positions) && |newDescs| == old(|newDescs|)
        && newDescs == old(newDescs)[positions[d.digest] := newDescs[positions[d.digest]]]
        && IsOwnMap(newDescs[positions[d.digest]].annotations, old(newDescs[positions[d.digest]].annotations))
      ensures d.digest in old(positions) && old(newDescs[positions[d.digest]].annotations) == null ==>
        fresh(newDescs[positions[d.digest]].annotations)
    {
      ghost var p := PositionOf(contents, d.digest);
      if d.digest in positions {
        var index := positions[d.digest];
        assert p == index;
        var merged := MergeEntry(newDescs[index], d);
        ReplaceEntry(index, merged);
      } else {
        assert forall i :: 0 <= i < |contents| ==> contents[i].digest != d.digest;
        Append(d);
      }
    }

    method Append(d: Entry)
      requires Valid() && d.digest !in positions
      modifies this
      ensures Valid()
      ensures contents == old(contents) + [View(d)]
      ensures positions == old(positions)[d.digest := old(|newDescs|)] && newDescs == old(newDescs) + [d]
      ensures repr == old(repr) + if d.annotations == null then {} else {d.annotations}
    {
      hide View;
      PositionsAfterAppend(positions, newDescs, contents, d, View(d));
      positions := positions[d.digest := |newDescs|];
      newDescs := newDescs + [d];
      contents := contents + [View(d)];
      if d.annotations != null {
        repr := repr + {d.annotations};
      }
    }

    method ReplaceEntry(index: nat, merged: Entry)
      requires PositionsValid() && index < |newDescs| && merged.annotations != null
      requires merged.digest == contents[index].digest
      requires forall i :: 0 <= i < |newDescs| ==> newDescs[i].annotations == null || newDescs[i].annotations in repr
      requires forall i :: 0 <= i < |newDescs| && i != index ==> View(newDescs[i]) == contents[i]
      modifies this
      ensures Valid()
      ensures contents == old(contents)[index := View(merged)]
      ensures positions == old(positions) && newDescs == old(newDescs)[index := merged]
      ensures repr == old(repr) + {merged.annotations}
    {
      hide View;
      PositionsAfterReplace(positions, newDescs, contents, index, merged, View(merged));
      newDescs := newDescs[index := merged];
      contents := contents[index := View(merged)];
      repr := repr + {merged.annotations};
    }
  }

  /** A merged entry has the map of the old entry, or one where that had none. */
  predicate IsOwnMap(merged: AnnotationMap?, was: AnnotationMap?) {
    merged != null && (was != null ==> merged == was)
  }

  /** What addDesc does to the entry that is already there. */
  method MergeEntry(entry: Entry, d: Entry) returns (merged: Entry)
    modifies if entry.annotations == null || d.annotations == null then {} else {entry.annotations}
    ensures View(merged) == old(MergeInto(View(entry), View(d)))
    ensures if entry.annotations == null then fresh(merged.annotations) else merged.annotations == entry.annotations
    ensures merged.annotations != null
    ensures d.annotations != null && d.annotations == entry.annotations ==>
      d.annotations.entries == old(d.annotations.entries)
  {
    merged := entry;
    if entry.mediaType == "" {
      merged := merged.(mediaType := d.mediaType);
    }
    if d.platform.Some? {
      merged := merged.(platform := d.platform);
    }
    if entry.annotations == null {
      var empty := new AnnotationMap();
      merged := merged.(annotations := empty);
    }
    ghost var own := merged.annotations.entries;
    assert own + map[] == own && own + own == own;
    if d.annotations != null {
      PutAll(merged.annotations, d.annotations.entries);
    }
  }

  /**
   * Sharing does harm when a third entry sees a write: an entry with the map of `entry` but another digest changes
   * with it, unless the copied annotations are there already.
   */
  method SharedMapShowsWrite(entry: Entry, d: Entry, bystander: Entry) returns (merged: Entry)
    requires entry.annotations != null && bystander.annotations == entry.annotations && d.annotations != null
    modifies entry.annotations
    ensures View(merged) == old(MergeInto(View(entry), View(d)))
    ensures View(bystander) == old(View(bystander)) <==>
      old(entry.annotations.entries) + old(d.annotations.entries) == old(entry.annotations.entries)
  {
    merged := MergeEntry(entry, d);
    assert View(merged).annotations == Some(entry.annotations.entries);
  }

  /**
   * The loop over a, b and d, where b has the map of a and d the digest of a: the result is the merge of what the list
   * says if and only if d neither adds nor changes a key.
   */
  method MergeSharedUnderTwoDigests(a: Entry, b: Entry, d: Entry) returns (newDescs: seq<Entry>)
    requires a.annotations != null && b.annotations == a.annotations
    requires d.annotations != null && d.annotations != a.annotations
    requires d.digest == a.digest != b.digest
    modifies a.annotations
    ensures |newDescs| == 2
    ensures [View(newDescs[0]), View(newDescs[1])] == old(Merge([View(a), View(b), View(d)])) <==>
      old(a.annotations.entries) + old(d.annotations.entries) == old(a.annotations.entries)
  {
    ghost var va, vb, vd := View(a), View(b), View(d);
    MergeOfThree(va, vb, vd);
    var merged := SharedMapShowsWrite(a, d, b);
    newDescs := [merged, b];
    assert [View(merged), View(b)][1] == View(b) && [MergeInto(va, vd), vb][1] == vb;
  }

  lemma MergeOfTriple(a: Descriptor, b: Descriptor, c: Descriptor)
    ensures Merge([a, b, c]) == ImageIndex.AddDesc(ImageIndex.AddDesc([a], b), c)
  {
    var ab := ImageIndex.AddDesc([a], b);
    assert [a, b, c][1..] == [b, c] && [b, c][1..] == [c] && [c][1..] == [];
    assert ImageIndex.AddDesc([], a) == [a];
    assert MergeFrom([], [a, b, c]) == MergeFrom([a], [b, c]) == MergeFrom(ab, [c]);
    assert MergeFrom(ab, [c]) == MergeFrom(ImageIndex.AddDesc(ab, c), []);
  }

  lemma MergeOfThree(a: Descriptor, b: Descriptor, d: Descriptor)
    requires d.digest == a.digest != b.digest
    ensures Merge([a, b, d]) == [MergeInto(a, d), b]
  {
    MergeOfTriple(a, b, d);
    assert PositionOf([a], b.digest) == 1 && PositionOf([a, b], d.digest) == 0;
    assert ImageIndex.AddDesc([a], b) == [a, b] && ImageIndex.AddDesc([a, b], d) == [MergeInto(a, d), b];
  }

  /**
   * The loop over a, d and e, all of one digest, where e has the map of a: the result is the merge of what the list
   * says if and only if d changes no key of that map.
   */
  method MergeSharedAcrossWrite(a: Entry, d: Entry, e: Entry) returns (newDescs: seq<Entry>)
    requires a.annotations != null && e.annotations == a.annotations
    requires d.annotations != null && d.annotations != a.annotations
    requires a.digest == d.digest == e.digest
    modifies a.annotations
    ensures |newDescs| == 1
    ensures [View(newDescs[0])] == old(Merge([View(a), View(d), View(e)])) <==>
      old(forall k :: k in a.annotations.entries && k in d.annotations.entries ==>
        a.annotations.entries[k] == d.annotations.entries[k])
  {
    ghost var va, vd, ve := View(a), View(d), View(e);
    ghost var m, n := a.annotations.entries, d.annotations.entries;
    MergeOfOneDigest(va, vd, ve);
    var merged := MergeEntry(a, d);
    merged := MergeEntry(merged, e);
    newDescs := [merged];
    assert View(merged).annotations == Some(m + n);
    assert MergeInto(MergeInto(va, vd), ve).annotations == Some(m + n + m);
    AddedBack(m, n);
    assert [View(merged)][0] == View(merged);
    assert [MergeInto(MergeInto(va, vd), ve)][0] == MergeInto(MergeInto(va, vd), ve);
  }

  lemma AddedBack(m: map<string, string>, n: map<string, string>)
    ensures m + n + m == m + n <==> forall k :: k in m && k in n ==> m[k] == n[k]
    ensures m + n + (m + n) == m + n
  {
    if m + n + m == m + n {
      forall k | k in m && k in n
        ensures m[k] == n[k]
      {
        assert (m + n + m)[k] == (m + n)[k];
      }
    }
  }

  lemma MergeOfOneDigest(a: Descriptor, d: Descriptor, e: Descriptor)
    requires a.digest == d.digest == e.digest
    ensures Merge([a, d, e]) == [MergeInto(MergeInto(a, d), e)]
  {
    MergeOfTriple(a, d, e);
    assert ImageIndex.AddDesc([a], d) == [MergeInto(a, d)];
  }

  lemma ClosedFormStep(views: seq<Descriptor>, i: nat)
    requires i < |views|
    ensures ImageIndex.AddDesc(ClosedForm(views[..i]), views[i]) == ClosedForm(views[..i + 1])
  {
    AddDescStep(views[..i], views[i]);
    assert views[..i + 1] == views[..i] + [views[i]];
  }

  /** The index of the first entry with a digest. */
  function FirstOf(es: seq<Entry>, digest: string): (f: nat)
    ensures f <= |es|
    ensures f < |es| ==> es[f].digest == digest && IsFirst(es, f)
    ensures forall h :: 0 <= h < f ==> es[h].digest != digest
  {
    if es == [] || es[0].digest == digest then 0 else 1 + FirstOf(es[1..], digest)
  }

  /** The map of entry p of the result comes from the first entry with its digest, or is its own if that had none. */
  ghost predicate IsTraced(newDescs: seq<Entry>, es: seq<Entry>, i: nat, maps: set<AnnotationMap>, p: nat)
    requires p < |newDescs| && i <= |es|
  {
    var f, o := FirstOf(es, newDescs[p].digest), newDescs[p].annotations;
    && f < i
    && (o == es[f].annotations
        || (es[f].annotations == null && o !in maps
            && forall q :: 0 <= q < |newDescs| && q != p ==> newDescs[q].annotations != o))
  }

  ghost predicate Traced(newDescs: seq<Entry>, es: seq<Entry>, i: nat, maps: set<AnnotationMap>)
    requires i <= |es|
  {
    forall p :: 0 <= p < |newDescs| ==> IsTraced(newDescs, es, i, maps, p)
  }

  lemma TracedAfterAppend(newDescs: seq<Entry>, es: seq<Entry>, i: nat, maps: set<AnnotationMap>)
    requires i < |es| && Traced(newDescs, es, i, maps)
    requires forall p :: 0 <= p < |newDescs| ==> newDescs[p].digest != es[i].digest
    requires forall k :: 0 <= k < i && es[k].digest == es[i].digest ==>
      exists p :: 0 <= p < |newDescs| && newDescs[p].digest == es[k].digest
    requires es[i].annotations == null || es[i].annotations in maps
    ensures Traced(newDescs + [es[i]], es, i + 1, maps)
  {
    var next, n := newDescs + [es[i]], i + 1;
    assert FirstOf(es, es[i].digest) == i;
    forall p | 0 <= p < |next|
      ensures IsTraced(next, es, n, maps, p)
    {
      if p < |newDescs| {
        assert IsTraced(newDescs, es, i, maps, p);
      }
    }
  }

  lemma TracedAfterReplace(
      newDescs: seq<Entry>, es: seq<Entry>, i: nat, maps: set<AnnotationMap>, index: nat, merged: Entry)
    requires i < |es| && Traced(newDescs, es, i, maps) && index < |newDescs|
    requires merged.digest == newDescs[index].digest
    requires merged.annotations == newDescs[index].annotations
      || (newDescs[index].annotations == null && merged.annotations !in maps
          && forall q :: 0 <= q < |newDescs| ==> newDescs[q].annotations != merged.annotations)
    ensures Traced(newDescs[index := merged], es, i + 1, maps)
  {
    var next, n := newDescs[index := merged], i + 1;
    forall p | 0 <= p < |next|
      ensures IsTraced(next, es, n, maps, p)
    {
      assert IsTraced(newDescs, es, i, maps, p);
    }
  }

  /** One iteration of the merge loop. */
  method MergeNext(merger: Merger, es: seq<Entry>, i: nat, ghost maps: set<AnnotationMap>, ghost views: seq<Descriptor>)
    requires i < |es| == |views| && WritesAreUnseen(es) && merger.Valid()
    requires forall k :: 0 <= k < |es| ==> es[k].annotations == null || es[k].annotations in maps
    requires Covers(merger.positions, es, i) && Traced(merger.newDescs, es, i, maps)
    requires forall k :: i <= k < |es| ==> View(es[k]) == views[k]
    modifies merger, merger.Target(es[i])
    ensures merger.Valid() && merger.contents == ImageIndex.AddDesc(old(merger.contents), views[i])
    ensures Covers(merger.positions, es, i + 1) && Traced(merger.newDescs, es, i + 1, maps)
    ensures forall k :: i < k < |es| ==> View(es[k]) == views[k]
    ensures forall o :: o in merger.repr ==> o in old(merger.repr) || o in maps || fresh(o)
  {
    hide IsTraced, WritesAreUnseen, ImageIndex.AddDesc;
    ChangesAreUnseen(merger, es, i, maps);
    merger.AddDesc(es[i]);
    assert old(allocated(maps));
    if es[i].digest in old(merger.positions) {
      var index := merger.positions[es[i].digest];
      TracedAfterReplace(old(merger.newDescs), es, i, maps, index, merger.newDescs[index]);
    } else {
      TracedAfterAppend(old(merger.newDescs), es, i, maps);
    }
  }

  /** Every digest of the first i entries has its place. */
  predicate Covers(positions: map<string, nat>, es: seq<Entry>, i: nat)
    requires i <= |es|
  {
    forall k :: 0 <= k < i ==> es[k].digest in positions
  }

  /**
   * The merge loop over a flattened list, with any sharing of annotation maps that it does not see: it computes the
   * merge. `maps` holds those maps, and `views` is what the list says on entry.
   */
  method MergeEntries(es: seq<Entry>, ghost maps: set<AnnotationMap>, ghost views: seq<Descriptor>)
    returns (newDescs: seq<Entry>)
    requires WritesAreUnseen(es)
    requires forall k :: 0 <= k < |es| ==> es[k].annotations == null || es[k].annotations in maps
    requires |views| == |es| && forall k :: 0 <= k < |es| ==> View(es[k]) == views[k]
    modifies maps
    ensures |newDescs| == |Merge(views)|
    ensures forall i :: 0 <= i < |newDescs| ==> View(newDescs[i]) == Merge(views)[i]
  {
    var merger := new Merger();
    assert views[..0] == [];
    for i := 0 to |es|
      invariant fresh(merger) && merger.Valid()
      invariant merger.contents == ClosedForm(views[..i])
      invariant forall o :: o in merger.repr ==> fresh(o) || o in maps
      invariant Covers(merger.positions, es, i) && Traced(merger.newDescs, es, i, maps)
      invariant forall k :: i <= k < |es| ==> View(es[k]) == views[k]
    {
      ClosedFormStep(views, i);
      MergeNext(merger, es, i, maps, views);
    }
    assert views[..|es|] == views;
    MergeIsClosedForm(views);
    newDescs := merger.newDescs;
  }

  /** Adding entry i changes no map that another entry of the result or of the rest of the list has. */
  lemma ChangesAreUnseen(merger: Merger, es: seq<Entry>, i: nat, maps: set<AnnotationMap>)
    requires i < |es| && merger.PositionsValid() && Traced(merger.newDescs, es, i, maps) && WritesAreUnseen(es)
    requires forall k :: 0 <= k < |es| ==> es[k].annotations == null || es[k].annotations in maps
    ensures merger.ChangeIsUnseen(es[i])
    ensures es[i].annotations !in merger.Target(es[i]) ==>
      forall k :: i <= k < |es| ==> es[k].annotations !in merger.Target(es[i])
  {
    var d := es[i];
    if merger.Target(d) != {} && d.annotations !in merger.Target(d) {
      var p := merger.positions[d.digest];
      var f := FirstOf(es, d.digest);
      var o := merger.newDescs[p].annotations;
      assert merger.newDescs[p].digest == d.digest;
      assert IsTraced(merger.newDescs, es, i, maps, p);
      if o == es[f].annotations {
        assert WritesInto(es, f, i);
        forall q | 0 <= q < |merger.newDescs| && q != p
          ensures merger.newDescs[q].annotations != o
        {
          assert IsTraced(merger.newDescs, es, i, maps, q);
          var g := FirstOf(es, merger.newDescs[q].digest);
          assert IsFirst(es, g) && g != f;
        }
      }
    }
  }

  // ----- all of Combine, once the goroutines have finished

  /** Entries with maps of their own, as unmarshalling makes them. */
  method Load(ds: seq<Descriptor>) returns (es: seq<Entry>, ghost maps: set<AnnotationMap>)
    ensures fresh(maps) && |es| == |ds|
    ensures forall k :: 0 <= k < |es| ==> View(es[k]) == ds[k]
    ensures forall k :: 0 <= k < |es| ==> es[k].annotations == null || es[k].annotations in maps
    ensures WritesAreUnseen(es)
  {
    es, maps := [], {};
    for i := 0 to |ds|
      invariant fresh(maps) && |es| == i
      invariant forall k :: 0 <= k < i ==> View(es[k]) == ds[k]
      invariant forall k :: 0 <= k < i ==> es[k].annotations == null || es[k].annotations in maps
      invariant forall j, k :: 0 <= j < k < i && es[j].annotations != null ==> es[j].annotations != es[k].annotations
    {
      var d := ds[i];
      var e := Entry(d.mediaType, d.digest, d.size, d.urls, null, d.platform);
      if d.annotations.Some? {
        var own := new AnnotationMap();
        PutAll(own, d.annotations.value);
        assert own.entries == d.annotations.value;
        e := e.(annotations := own);
        maps := maps + {own};
      }
      es := es + [e];
    }
  }

  /** The entries of all sources in order; None when an index does not parse. */
  method FlattenSources(reg: Registry, sources: seq<Source>) returns (entries: Option<seq<Descriptor>>)
    ensures entries == Flatten(reg, sources)
  {
    var out := [];
    for i := 0 to |sources|
      invariant Flatten(reg, sources[..i]) == Some(out)
    {
      var more := EntriesOf(reg, sources[i]);
      FlattenOneMore(reg, sources, i);
      if more.None? {
        return None;
      }
      out := out + more.value;
    }
    assert sources[..|sources|] == sources;
    return Some(out);
  }

  lemma FlattenOneMore(reg: Registry, sources: seq<Source>, i: nat)
    requires i < |sources|
    ensures
      var before, more := Flatten(reg, sources[..i]), EntriesOf(reg, sources[i]);
      Flatten(reg, sources[..i + 1]) == if before.None? || more.None? then None else Some(before.value + more.value)
    ensures EntriesOf(reg, sources[i]).None? ==> Flatten(reg, sources).None?
  {
    FlattenOfConcat(reg, sources[..i], [sources[i]]);
    FlattenOfOne(reg, sources[i]);
    assert sources[..i + 1] == sources[..i] + [sources[i]];
    FlattenOfConcat(reg, sources[..i + 1], sources[i + 1..]);
    assert sources == sources[..i + 1] + sources[i + 1..];
  }

  /**
   * What Combine does after any complete schedule of its goroutines: the error check, the fast path, the merge loop on
   * the heap, and the output. Whatever the schedule was, the result is the same.
   */
  method CombineAfter(reg: Registry, ghost ds: seq<Descriptor>, ghost run: seq<Gather>, end: Gather)
    returns (r: Option<Source>)
    requires IsGatherRun(reg, ds, run) && end == run[|run| - 1] && end.Finished()
    ensures r == CombineSpec(reg, ds)
  {
    GatherIsScheduleIndependent(reg, ds, run);
    var sources := Gathered(end);
    if sources.None? {
      return None;
    }
    if |sources.value| == 1 && IsIndexType(sources.value[0].desc.mediaType) {
      return Some(sources.value[0]);
    }
    var entries := FlattenSources(reg, sources.value);
    if entries.None? {
      return None;
    }
    var es, maps := Load(entries.value);
    var newDescs := MergeEntries(es, maps, entries.value);
    var merged := ReadEntries(newDescs);
    assert merged == Merge(entries.value);
    return Some(IndexOutput(reg, merged));
  }

  /** What a list of entries says. */
  method ReadEntries(es: seq<Entry>) returns (views: seq<Descriptor>)
    ensures |views| == |es| && forall i :: 0 <= i < |es| ==> views[i] == View(es[i])
  {
    views := [];
    for i := 0 to |es|
      invariant |views| == i && forall k :: 0 <= k < i ==> views[k] == View(es[k])
    {
      views := views + [View(es[i])];
    }
  }
}
