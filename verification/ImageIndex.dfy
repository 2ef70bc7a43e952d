/**
 * The merge of image index entries behind `Combine` (imagetools/create.go): entries with the same digest
 * become one. This file gives the merge as a fold, a closed form of it, and the laws that follow.
 */
module ImageIndex {
  import opened Text

  datatype Platform = Platform(
    architecture: string,
    os: string,
    osVersion: string,
    osFeatures: seq<string>,
    variant: string)

  /** `annotations` is None for a nil map; nil and empty URL lists are one. */
  datatype Descriptor = Descriptor(
    mediaType: string,
    digest: string,
    size: int,
    urls: seq<string>,
    annotations: Option<map<string, string>>,
    platform: Option<Platform>)

  function Entries(annotations: Option<map<string, string>>): map<string, string> {
    if annotations.Some? then annotations.value else map[]
  }

  // ----- the merge, one descriptor at a time

  /** addDesc on an entry that is already there. */
  function MergeInto(entry: Descriptor, d: Descriptor): Descriptor {
    entry.(
      mediaType := if entry.mediaType == "" then d.mediaType else entry.mediaType,
      platform := if d.platform.Some? then d.platform else entry.platform,
      annotations := Some(Entries(entry.annotations) + Entries(d.annotations)))
  }

  function PositionOf(ds: seq<Descriptor>, digest: string): (i: nat)
    ensures i <= |ds|
    ensures i < |ds| ==> ds[i].digest == digest
    ensures forall j :: 0 <= j < i ==> ds[j].digest != digest
  {
    if ds == [] || ds[0].digest == digest then 0 else 1 + PositionOf(ds[1..], digest)
  }

  function AddDesc(ds: seq<Descriptor>, d: Descriptor): seq<Descriptor> {
    var i := PositionOf(ds, d.digest);
    if i < |ds| then ds[i := MergeInto(ds[i], d)] else ds + [d]
  }

  function MergeFrom(acc: seq<Descriptor>, ds: seq<Descriptor>): seq<Descriptor>
    decreases ds
  {
    if ds == [] then acc else MergeFrom(AddDesc(acc, ds[0]), ds[1..])
  }

  function Merge(ds: seq<Descriptor>): seq<Descriptor> {
    MergeFrom([], ds)
  }

  // ----- the closed form: first digests, and one entry for each group

  function Digests(ds: seq<Descriptor>): (r: seq<string>)
    ensures |r| == |ds|
    ensures forall i :: 0 <= i < |r| ==> r[i] == ds[i].digest
  {
    seq(|ds|, i requires 0 <= i < |ds| => ds[i].digest)
  }

  predicate DistinctDigests(ds: seq<Descriptor>) {
    forall i, j :: 0 <= i < j < |ds| ==> ds[i].digest != ds[j].digest
  }

  /** The distinct elements of a list, in the order in which they first occur. */
  function Firsts(keys: seq<string>): seq<string> {
    if keys == [] then []
    else
      var last := |keys| - 1;
      var r := Firsts(keys[..last]);
      if keys[last] in r then r else r + [keys[last]]
  }

  lemma {:induction false} FirstsAreTheElements(keys: seq<string>)
    ensures forall g :: g in Firsts(keys) <==> g in keys
    ensures forall i, j :: 0 <= i < j < |Firsts(keys)| ==> Firsts(keys)[i] != Firsts(keys)[j]
  {
    if keys != [] {
      var last := |keys| - 1;
      FirstsAreTheElements(keys[..last]);
      assert keys == keys[..last] + [keys[last]];
    }
  }

  lemma FirstsOfAppend(keys: seq<string>, k: string)
    ensures Firsts(keys + [k]) == if k in keys then Firsts(keys) else Firsts(keys) + [k]
  {
    assert (keys + [k])[..|keys|] == keys;
    FirstsAreTheElements(keys);
  }

  lemma {:induction false} FirstsOfConcat(a: seq<string>, b: seq<string>, c: seq<string>)
    requires Firsts(a) == Firsts(b)
    ensures Firsts(a + c) == Firsts(b + c)
    decreases |c|
  {
    if c == [] {
      assert a + c == a && b + c == b;
    } else {
      var front, last := c[..|c| - 1], c[|c| - 1];
      assert a + c == a + front + [last] && b + c == b + front + [last];
      FirstsOfConcat(a, b, front);
      assert (a + front + [last])[..|a + front|] == a + front;
      assert (b + front + [last])[..|b + front|] == b + front;
    }
  }

  /** Appending a list's distinct elements is as good as appending all of them. */
  lemma {:induction false} FirstsOfFirsts(a: seq<string>, b: seq<string>)
    ensures Firsts(a + Firsts(b)) == Firsts(a + b)
    decreases |b|
  {
    if b != [] {
      var front, k := b[..|b| - 1], b[|b| - 1];
      FirstsOfFirsts(a, front);
      FirstsAreTheElements(front);
      FirstsOfAppend(a + front, k);
      assert a + b == a + front + [k];
      if k !in front {
        assert a + (Firsts(front) + [k]) == a + Firsts(front) + [k];
        FirstsOfAppend(a + Firsts(front), k);
      }
    }
  }

  /** The digests of `ds` in the order in which they first occur. */
  function FirstDigests(ds: seq<Descriptor>): seq<string> {
    Firsts(Digests(ds))
  }

  /** The occurrences of one digest. */
  function Group(ds: seq<Descriptor>, digest: string): (r: seq<Descriptor>)
    ensures r != [] <==> digest in Digests(ds)
    ensures forall i :: 0 <= i < |r| ==> r[i].digest == digest
  {
    if ds == [] then []
    else
      var last := |ds| - 1;
      assert Digests(ds) == Digests(ds[..last]) + [ds[last].digest];
      Group(ds[..last], digest) + if ds[last].digest == digest then [ds[last]] else []
  }

  function FirstMediaType(ds: seq<Descriptor>): string {
    if ds == [] then "" else if ds[0].mediaType != "" then ds[0].mediaType else FirstMediaType(ds[1..])
  }

  function LastPlatform(ds: seq<Descriptor>): Option<Platform> {
    if ds == [] then None
    else if ds[|ds| - 1].platform.Some? then ds[|ds| - 1].platform
    else LastPlatform(ds[..|ds| - 1])
  }

  /** The right-biased union of all annotations. */
  function AllAnnotations(ds: seq<Descriptor>): map<string, string> {
    if ds == [] then map[] else AllAnnotations(ds[..|ds| - 1]) + Entries(ds[|ds| - 1].annotations)
  }

  /** The one entry that stands for a group; only a lone occurrence keeps its annotation map as it was. */
  function EntryOf(group: seq<Descriptor>): Descriptor
    requires group != []
  {
    group[0].(
      mediaType := FirstMediaType(group),
      platform := LastPlatform(group),
      annotations := if |group| == 1 then group[0].annotations else Some(AllAnnotations(group)))
  }

  function ClosedForm(ds: seq<Descriptor>): (r: seq<Descriptor>)
    ensures |r| == |FirstDigests(ds)|
  {
    FirstsAreTheElements(Digests(ds));
    var keys := FirstDigests(ds);
    seq(|keys|, i requires 0 <= i < |keys| => EntryOf(Group(ds, keys[i])))
  }

  // ----- the fold equals the closed form

  lemma {:induction false} FirstMediaTypeOfAppend(ds: seq<Descriptor>, d: Descriptor)
    ensures FirstMediaType(ds + [d]) == if FirstMediaType(ds) == "" then d.mediaType else FirstMediaType(ds)
  {
    if ds != [] {
      assert (ds + [d])[1..] == ds[1..] + [d];
      FirstMediaTypeOfAppend(ds[1..], d);
    }
  }

  lemma EntryOfAppend(group: seq<Descriptor>, d: Descriptor)
    requires group != []
    ensures EntryOf(group + [d]) == MergeInto(EntryOf(group), d)
  {
    var all := group + [d];
    assert all[..|all| - 1] == group && all[|all| - 1] == d;
    FirstMediaTypeOfAppend(group, d);
    assert LastPlatform(all) == if d.platform.Some? then d.platform else LastPlatform(group);
    AllAnnotationsOfAppend(group, d);
    if |group| == 1 {
      assert group == [group[0]];
      AllAnnotationsOfOne(group[0]);
    }
  }

  lemma AllAnnotationsOfOne(d: Descriptor)
    ensures AllAnnotations([d]) == Entries(d.annotations)
  {
    assert [d][..0] == [];
    assert map[] + Entries(d.annotations) == Entries(d.annotations);
  }

  lemma EntryOfOne(d: Descriptor)
    ensures EntryOf([d]) == d
  {
    assert [d][..0] == [] && [d][1..] == [];
    assert FirstMediaType([d]) == d.mediaType && LastPlatform([d]) == d.platform;
  }

  lemma GroupOfAppend(ds: seq<Descriptor>, d: Descriptor, digest: string)
    ensures Group(ds + [d], digest) == Group(ds, digest) + if d.digest == digest then [d] else []
  {
    assert (ds + [d])[..|ds|] == ds;
  }

  lemma FirstDigestsOfAppend(ds: seq<Descriptor>, d: Descriptor)
    ensures FirstDigests(ds + [d]) ==
      if d.digest in Digests(ds) then FirstDigests(ds) else FirstDigests(ds) + [d.digest]
  {
    assert Digests(ds + [d]) == Digests(ds) + [d.digest];
    FirstsOfAppend(Digests(ds), d.digest);
  }

  /** The entry for the `i`-th distinct digest. */
  lemma EntryAt(ds: seq<Descriptor>, i: nat)
    requires i < |FirstDigests(ds)|
    ensures FirstDigests(ds)[i] in Digests(ds)
    ensures ClosedForm(ds)[i] == EntryOf(Group(ds, FirstDigests(ds)[i]))
    ensures ClosedForm(ds)[i].digest == FirstDigests(ds)[i]
  {
    FirstsAreTheElements(Digests(ds));
    assert FirstDigests(ds)[i] in FirstDigests(ds);
  }

  lemma ClosedFormDigests(ds: seq<Descriptor>)
    ensures Digests(ClosedForm(ds)) == FirstDigests(ds)
    ensures DistinctDigests(ClosedForm(ds))
  {
    var keys, r := FirstDigests(ds), ClosedForm(ds);
    FirstsAreTheElements(Digests(ds));
    forall i | 0 <= i < |keys|
      ensures r[i].digest == keys[i]
    {
      EntryAt(ds, i);
    }
  }

  lemma EntryAfterAppend(ds: seq<Descriptor>, d: Descriptor, i: nat)
    requires i < |FirstDigests(ds)|
    ensures i < |FirstDigests(ds + [d])|
    ensures ClosedForm(ds + [d])[i] ==
      if FirstDigests(ds)[i] == d.digest then MergeInto(ClosedForm(ds)[i], d) else ClosedForm(ds)[i]
  {
    FirstDigestsOfAppend(ds, d);
    EntryAt(ds, i);
    EntryAt(ds + [d], i);
    var key := FirstDigests(ds)[i];
    GroupOfAppend(ds, d, key);
    if key == d.digest {
      EntryOfAppend(Group(ds, key), d);
    } else {
      assert Group(ds, key) + [] == Group(ds, key);
    }
  }

  lemma NewEntryAfterAppend(ds: seq<Descriptor>, d: Descriptor)
    requires d.digest !in Digests(ds)
    ensures |ClosedForm(ds + [d])| == |ClosedForm(ds)| + 1
    ensures ClosedForm(ds + [d])[|ClosedForm(ds)|] == d
  {
    FirstDigestsOfAppend(ds, d);
    EntryAt(ds + [d], |FirstDigests(ds)|);
    GroupOfAppend(ds, d, d.digest);
    EntryOfOne(d);
  }

  lemma EntriesAfterAppend(ds: seq<Descriptor>, d: Descriptor)
    ensures |ClosedForm(ds)| <= |ClosedForm(ds + [d])|
    ensures forall i :: 0 <= i < |ClosedForm(ds)| ==>
      ClosedForm(ds + [d])[i] ==
        if ClosedForm(ds)[i].digest == d.digest then MergeInto(ClosedForm(ds)[i], d) else ClosedForm(ds)[i]
  {
    FirstDigestsOfAppend(ds, d);
    forall i | 0 <= i < |ClosedForm(ds)|
      ensures ClosedForm(ds + [d])[i] ==
        if ClosedForm(ds)[i].digest == d.digest then MergeInto(ClosedForm(ds)[i], d) else ClosedForm(ds)[i]
    {
      EntryAt(ds, i);
      EntryAfterAppend(ds, d, i);
    }
  }

  /** AddDesc on lists without duplicates, told apart by its result. */
  lemma IsAddDesc(ds: seq<Descriptor>, d: Descriptor, next: seq<Descriptor>)
    requires DistinctDigests(ds)
    requires |next| == if d.digest in Digests(ds) then |ds| else |ds| + 1
    requires forall i :: 0 <= i < |ds| ==> next[i] == if ds[i].digest == d.digest then MergeInto(ds[i], d) else ds[i]
    requires |next| > |ds| ==> next[|ds|] == d
    ensures next == AddDesc(ds, d)
  {
    var p := PositionOf(ds, d.digest);
    if p < |ds| {
      assert Digests(ds)[p] == d.digest;
    }
  }

  /** One loop step keeps the closed form of everything seen so far. */
  lemma AddDescStep(ds: seq<Descriptor>, d: Descriptor)
    ensures AddDesc(ClosedForm(ds), d) == ClosedForm(ds + [d])
  {
    EntriesAfterAppend(ds, d);
    FirstDigestsOfAppend(ds, d);
    FirstsAreTheElements(Digests(ds));
    ClosedFormDigests(ds);
    if d.digest !in Digests(ds) {
      NewEntryAfterAppend(ds, d);
    }
    IsAddDesc(ClosedForm(ds), d, ClosedForm(ds + [d]));
  }

  lemma {:induction false} MergeFromClosedForm(done: seq<Descriptor>, ds: seq<Descriptor>)
    ensures MergeFrom(ClosedForm(done), ds) == ClosedForm(done + ds)
    decreases ds
  {
    if ds == [] {
      assert done + ds == done;
    } else {
      AddDescStep(done, ds[0]);
      assert done + [ds[0]] + ds[1..] == done + ds;
      MergeFromClosedForm(done + [ds[0]], ds[1..]);
    }
  }

  /** The merge loop computes the closed form. */
  lemma MergeIsClosedForm(ds: seq<Descriptor>)
    ensures Merge(ds) == ClosedForm(ds)
    ensures Digests(Merge(ds)) == FirstDigests(ds)
    ensures DistinctDigests(Merge(ds))
  {
    assert ClosedForm([]) == [];
    MergeFromClosedForm([], ds);
    assert [] + ds == ds;
    ClosedFormDigests(ds);
  }

  // ----- what JSON keeps: an empty annotation map is written like a nil one

  function Canonical(d: Descriptor): Descriptor {
    if d.annotations == Some(map[]) then d.(annotations := None) else d
  }

  function CanonicalAll(ds: seq<Descriptor>): (r: seq<Descriptor>)
    ensures |r| == |ds|
    ensures forall i :: 0 <= i < |ds| ==> r[i] == Canonical(ds[i])
  {
    seq(|ds|, i requires 0 <= i < |ds| => Canonical(ds[i]))
  }

  /** Two entry lists with the same JSON. */
  predicate SameJson(a: seq<Descriptor>, b: seq<Descriptor>) {
    CanonicalAll(a) == CanonicalAll(b)
  }

  // ----- idempotence: a duplicate-free list is its own merge, and nothing else is

  lemma {:induction false} MergeFromDistinct(acc: seq<Descriptor>, ds: seq<Descriptor>)
    requires DistinctDigests(acc + ds)
    ensures MergeFrom(acc, ds) == acc + ds
    decreases ds
  {
    if ds != [] {
      var p := PositionOf(acc, ds[0].digest);
      assert forall i :: 0 <= i < |acc| ==> (acc + ds)[i] == acc[i];
      assert (acc + ds)[|acc|] == ds[0];
      assert p == |acc|;
      assert acc + [ds[0]] + ds[1..] == acc + ds;
      MergeFromDistinct(acc + [ds[0]], ds[1..]);
    }
  }

  lemma MergeFixesExactlyDistinct(ds: seq<Descriptor>)
    ensures Merge(ds) == ds <==> DistinctDigests(ds)
    ensures Merge(Merge(ds)) == Merge(ds)
  {
    MergeIsClosedForm(ds);
    MergeFromDistinct([], Merge(ds));
    assert [] + Merge(ds) == Merge(ds);
    if DistinctDigests(ds) {
      assert [] + ds == ds;
      MergeFromDistinct([], ds);
    }
  }

  // ----- nesting: merging part of the list first changes nothing

  lemma {:induction false} FirstMediaTypeOfConcat(a: seq<Descriptor>, b: seq<Descriptor>)
    ensures FirstMediaType(a + b) == if FirstMediaType(a) == "" then FirstMediaType(b) else FirstMediaType(a)
  {
    if a == [] {
      assert a + b == b;
    } else {
      assert (a + b)[1..] == a[1..] + b;
      FirstMediaTypeOfConcat(a[1..], b);
    }
  }

  lemma {:induction false} LastPlatformOfConcat(a: seq<Descriptor>, b: seq<Descriptor>)
    ensures LastPlatform(a + b) == if LastPlatform(b) == None then LastPlatform(a) else LastPlatform(b)
  {
    if b == [] {
      assert a + b == a;
    } else {
      assert (a + b)[..|a + b| - 1] == a + b[..|b| - 1];
      LastPlatformOfConcat(a, b[..|b| - 1]);
    }
  }

  lemma UnionIsAssociative(a: map<string, string>, b: map<string, string>, c: map<string, string>)
    ensures a + b + c == a + (b + c)
  {
  }

  lemma AllAnnotationsOfAppend(ds: seq<Descriptor>, d: Descriptor)
    ensures AllAnnotations(ds + [d]) == AllAnnotations(ds) + Entries(d.annotations)
  {
    assert (ds + [d])[..|ds|] == ds;
  }

  lemma {:induction false} AllAnnotationsOfConcat(a: seq<Descriptor>, b: seq<Descriptor>)
    ensures AllAnnotations(a + b) == AllAnnotations(a) + AllAnnotations(b)
  {
    if b == [] {
      assert a + b == a;
    } else {
      var front, last := b[..|b| - 1], b[|b| - 1];
      AllAnnotationsOfConcat(a, front);
      AllAnnotationsOfAppend(a + front, last);
      AllAnnotationsOfAppend(front, last);
      assert a + b == a + front + [last] && b == front + [last];
      UnionIsAssociative(AllAnnotations(a), AllAnnotations(front), Entries(last.annotations));
    }
  }

  lemma {:induction false} GroupOfConcat(a: seq<Descriptor>, b: seq<Descriptor>, digest: string)
    ensures Group(a + b, digest) == Group(a, digest) + Group(b, digest)
  {
    if b == [] {
      assert a + b == a;
    } else {
      var front, last := b[..|b| - 1], b[|b| - 1];
      assert a + b == a + front + [last] && b == front + [last];
      calc {
        Group(a + b, digest);
        { GroupOfAppend(a + front, last, digest); }
        Group(a + front, digest) + if last.digest == digest then [last] else [];
        { GroupOfConcat(a, front, digest); }
        Group(a, digest) + Group(front, digest) + if last.digest == digest then [last] else [];
        Group(a, digest) + (Group(front, digest) + if last.digest == digest then [last] else []);
        { GroupOfAppend(front, last, digest); }
        Group(a, digest) + Group(b, digest);
      }
    }
  }

  /** A list without duplicates has groups of one. */
  lemma {:induction false} GroupOfDistinct(ds: seq<Descriptor>, i: nat)
    requires DistinctDigests(ds) && i < |ds|
    ensures Group(ds, ds[i].digest) == [ds[i]]
  {
    var last := |ds| - 1;
    if i < last {
      GroupOfDistinct(ds[..last], i);
    } else {
      assert ds[last].digest !in Digests(ds[..last]);
    }
  }

  lemma GroupOfMerge(ds: seq<Descriptor>, digest: string)
    ensures Group(Merge(ds), digest) == if Group(ds, digest) == [] then [] else [EntryOf(Group(ds, digest))]
  {
    MergeIsClosedForm(ds);
    FirstsAreTheElements(Digests(ds));
    var keys := FirstDigests(ds);
    if Group(ds, digest) != [] {
      var i :| 0 <= i < |keys| && keys[i] == digest;
      GroupOfDistinct(Merge(ds), i);
    }
  }

  /** One entry carries all that its group contributes to a larger group. */
  lemma EntryContributes(group: seq<Descriptor>)
    requires group != []
    ensures FirstMediaType([EntryOf(group)]) == FirstMediaType(group)
    ensures LastPlatform([EntryOf(group)]) == LastPlatform(group)
    ensures AllAnnotations([EntryOf(group)]) == AllAnnotations(group)
  {
    var e := EntryOf(group);
    assert [e][..0] == [] && [e][1..] == [];
    AllAnnotationsOfOne(e);
    if |group| == 1 {
      assert group == [group[0]];
      AllAnnotationsOfOne(group[0]);
    }
  }

  lemma EntryOfNested(a: seq<Descriptor>, b: seq<Descriptor>, c: seq<Descriptor>)
    requires b != []
    ensures Canonical(EntryOf(a + [EntryOf(b)] + c)) == Canonical(EntryOf(a + b + c))
  {
    var e := EntryOf(b);
    EntryContributes(b);
    FirstMediaTypeOfConcat(a, [e]);
    FirstMediaTypeOfConcat(a + [e], c);
    FirstMediaTypeOfConcat(a, b);
    FirstMediaTypeOfConcat(a + b, c);
    LastPlatformOfConcat(a, [e]);
    LastPlatformOfConcat(a + [e], c);
    LastPlatformOfConcat(a, b);
    LastPlatformOfConcat(a + b, c);
    AllAnnotationsOfConcat(a, [e]);
    AllAnnotationsOfConcat(a + [e], c);
    AllAnnotationsOfConcat(a, b);
    AllAnnotationsOfConcat(a + b, c);
    if a == [] && c == [] {
      assert a + [e] + c == [e] && a + b + c == b;
      EntryOfOne(e);
    }
  }

  /** Merging a stretch beforehand leaves the order of first occurrences. */
  lemma FirstDigestsOfNested(a: seq<Descriptor>, b: seq<Descriptor>, c: seq<Descriptor>)
    ensures FirstDigests(a + Merge(b) + c) == FirstDigests(a + b + c)
  {
    MergeIsClosedForm(b);
    FirstsOfFirsts(Digests(a), Digests(b));
    FirstsOfConcat(Digests(a) + Firsts(Digests(b)), Digests(a) + Digests(b), Digests(c));
    DigestsOfThree(a, Merge(b), c);
    DigestsOfThree(a, b, c);
  }

  lemma DigestsOfThree(a: seq<Descriptor>, b: seq<Descriptor>, c: seq<Descriptor>)
    ensures Digests(a + b + c) == Digests(a) + Digests(b) + Digests(c)
  {
  }

  /** Merging any stretch of the list beforehand gives the same entries, up to nil against empty annotations. */
  lemma MergeNested(a: seq<Descriptor>, b: seq<Descriptor>, c: seq<Descriptor>)
    ensures SameJson(Merge(a + Merge(b) + c), Merge(a + b + c))
  {
    var nested, flat := a + Merge(b) + c, a + b + c;
    MergeIsClosedForm(nested);
    MergeIsClosedForm(flat);
    FirstDigestsOfNested(a, b, c);
    var keys := FirstDigests(flat);
    forall i | 0 <= i < |keys|
      ensures Canonical(Merge(nested)[i]) == Canonical(Merge(flat)[i])
    {
      var g := keys[i];
      GroupOfConcat(a, Merge(b), g);
      GroupOfConcat(a + Merge(b), c, g);
      GroupOfConcat(a, b, g);
      GroupOfConcat(a + b, c, g);
      GroupOfMerge(b, g);
      if Group(b, g) != [] {
        EntryOfNested(Group(a, g), Group(b, g), Group(c, g));
      }
    }
  }

  lemma SameJsonPointwise(a: seq<Descriptor>, b: seq<Descriptor>)
    requires SameJson(a, b)
    ensures |a| == |b|
    ensures forall i :: 0 <= i < |a| ==> Canonical(a[i]) == Canonical(b[i])
    ensures Digests(a) == Digests(b)
  {
    assert |a| == |CanonicalAll(a)| == |CanonicalAll(b)| == |b|;
    forall i | 0 <= i < |a|
      ensures Canonical(a[i]) == Canonical(b[i]) && a[i].digest == b[i].digest
    {
      assert CanonicalAll(a)[i] == CanonicalAll(b)[i];
    }
  }

  /** What JSON loses on the way in makes no difference to the JSON of the merge. */
  lemma MergeOfSameJson(a: seq<Descriptor>, b: seq<Descriptor>)
    requires SameJson(a, b)
    ensures SameJson(Merge(a), Merge(b))
  {
    MergeIsClosedForm(a);
    MergeIsClosedForm(b);
    SameJsonPointwise(a, b);
    forall i | 0 <= i < |FirstDigests(a)|
      ensures Canonical(ClosedForm(a)[i]) == Canonical(ClosedForm(b)[i])
    {
      EntryAt(a, i);
      EntryAt(b, i);
      var key := FirstDigests(a)[i];
      GroupOfSameJson(a, b, key);
      EntryOfSameJson(Group(a, key), Group(b, key));
    }
  }

  lemma {:induction false} GroupOfSameJson(a: seq<Descriptor>, b: seq<Descriptor>, digest: string)
    requires |a| == |b|
    requires forall i :: 0 <= i < |a| ==> Canonical(a[i]) == Canonical(b[i])
    ensures |Group(a, digest)| == |Group(b, digest)|
    ensures forall i :: 0 <= i < |Group(a, digest)| ==> Canonical(Group(a, digest)[i]) == Canonical(Group(b, digest)[i])
  {
    if a != [] {
      var last := |a| - 1;
      GroupOfSameJson(a[..last], b[..last], digest);
      assert Canonical(a[last]) == Canonical(b[last]);
    }
  }

  lemma {:induction false} EntryOfSameJson(a: seq<Descriptor>, b: seq<Descriptor>)
    requires a != [] && |a| == |b|
    requires forall i :: 0 <= i < |a| ==> Canonical(a[i]) == Canonical(b[i])
    ensures Canonical(EntryOf(a)) == Canonical(EntryOf(b))
    decreases |a|
  {
    var last := |a| - 1;
    assert Canonical(a[last]) == Canonical(b[last]);
    assert a == a[..last] + [a[last]] && b == b[..last] + [b[last]];
    if last == 0 {
      EntryOfOne(a[0]);
      EntryOfOne(b[0]);
    } else {
      EntryOfSameJson(a[..last], b[..last]);
      EntryOfAppend(a[..last], a[last]);
      EntryOfAppend(b[..last], b[last]);
    }
  }
}
