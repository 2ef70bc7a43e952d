/** Choosing a builder pod (driver/kubernetes/podchooser/podchooser.go). */
module PodChooser {
  import opened Text

  datatype Pod = Pod(name: string, phase: string, uid: string)

  // ----- listing

  function RunningPods(items: seq<Pod>): seq<Pod> {
    if items == [] then []
    else RunningPods(items[..|items| - 1]) + if items[|items| - 1].phase == "Running" then [items[|items| - 1]] else []
  }

  predicate NotAfter(a: Pod, b: Pod) {
    !Less(b.name, a.name)
  }

  predicate SortedByName(pods: seq<Pod>) {
    forall i, j :: 0 <= i < j < |pods| ==> NotAfter(pods[i], pods[j])
  }

  predicate DistinctNames(pods: seq<Pod>) {
    forall i, j :: 0 <= i < j < |pods| ==> pods[i].name != pods[j].name
  }

  lemma NotAfterIsTotal(a: Pod, b: Pod)
    ensures NotAfter(a, b) || NotAfter(b, a)
    ensures NotAfter(a, b) && NotAfter(b, a) ==> a.name == b.name
  {
    LessTrichotomy(a.name, b.name);
  }

  lemma NotAfterIsTransitive(a: Pod, b: Pod, c: Pod)
    requires NotAfter(a, b) && NotAfter(b, c)
    ensures NotAfter(a, c)
  {
    LessTrichotomy(a.name, b.name);
    LessTrichotomy(b.name, c.name);
    LessTrichotomy(a.name, c.name);
    if Less(c.name, a.name) {
      if a.name != b.name {
        LessTransitive(c.name, a.name, b.name);
      }
    }
  }

  /** All pairs among the first n are in order, but for those with position j on the right. */
  predicate SortedBut(pods: seq<Pod>, n: nat, j: int)
    requires n <= |pods|
  {
    forall p, q :: 0 <= p < q < n && q != j ==> NotAfter(pods[p], pods[q])
  }

  /** sort.Slice by name, in place. */
  method SortByName(a: array<Pod>)
    modifies a
    ensures SortedByName(a[..]) && multiset(a[..]) == multiset(old(a[..]))
  {
    for i := 0 to a.Length
      invariant SortedBut(a[..], i, i)
      invariant multiset(a[..]) == multiset(old(a[..]))
    {
      SinkInto(a, i);
    }
  }

  /** Moves the element at i down to its place among the sorted elements before it. */
  method SinkInto(a: array<Pod>, i: nat)
    requires i < a.Length && SortedBut(a[..], i, i)
    modifies a
    ensures SortedBut(a[..], i + 1, i + 1) && multiset(a[..]) == multiset(old(a[..]))
  {
    var j := i;
    while j > 0 && Less(a[j].name, a[j - 1].name)
      invariant 0 <= j <= i && SortedBut(a[..], i + 1, j)
      invariant multiset(a[..]) == multiset(old(a[..]))
    {
      NotAfterIsTotal(a[j], a[j - 1]);
      a[j], a[j - 1] := a[j - 1], a[j];
      j := j - 1;
    }
    forall p | 0 <= p < j
      ensures NotAfter(a[p], a[j])
    {
      if p < j - 1 {
        NotAfterIsTransitive(a[p], a[j - 1], a[j]);
      }
    }
  }

  /** `listing` is the API's answer, None for an error. */
  method ListRunningPods(listing: Option<seq<Pod>>) returns (pods: Option<array<Pod>>)
    ensures pods.None? <==> listing.None?
    ensures pods.Some? ==> fresh(pods.value)
    ensures pods.Some? ==> IsListingOf(pods.value[..], listing.value)
  {
    if listing.None? {
      return None;
    }
    var running := [];
    for i := 0 to |listing.value|
      invariant running == RunningPods(listing.value[..i])
    {
      assert listing.value[..i + 1][..i] == listing.value[..i];
      if listing.value[i].phase == "Running" {
        running := running + [listing.value[i]];
      }
    }
    assert listing.value[..|listing.value|] == listing.value;
    var a := new Pod[|running|](i requires 0 <= i < |running| => running[i]);
    assert a[..] == running;
    SortByName(a);
    return Some(a);
  }

  /** The running pods of a listing, in name order. */
  predicate IsListingOf(pods: seq<Pod>, items: seq<Pod>) {
    SortedByName(pods) && multiset(pods) == multiset(RunningPods(items))
  }

  // ----- two listings of the same pods

  lemma {:induction false} RunningPodsCount(items: seq<Pod>, p: Pod)
    ensures multiset(RunningPods(items))[p] == if p.phase == "Running" then multiset(items)[p] else 0
  {
    if items != [] {
      var last := |items| - 1;
      RunningPodsCount(items[..last], p);
      assert items == items[..last] + [items[last]];
    }
  }

  lemma SameHead(a: seq<Pod>, b: seq<Pod>)
    requires SortedByName(a) && SortedByName(b) && DistinctNames(a) && a != [] && b != []
    requires b[0] in a && a[0] in b
    ensures a[0] == b[0]
  {
    var i :| 0 <= i < |a| && a[i] == b[0];
    var j :| 0 <= j < |b| && b[j] == a[0];
    assert i > 0 ==> NotAfter(a[0], a[i]);
    assert j > 0 ==> NotAfter(b[0], b[j]);
    NotAfterIsTotal(a[0], b[0]);
  }

  lemma TailCounts(a: seq<Pod>)
    requires a != []
    ensures multiset(a[1..]) == multiset(a) - multiset{a[0]}
  {
    assert a == [a[0]] + a[1..];
  }

  lemma {:induction false} SortedIsUnique(a: seq<Pod>, b: seq<Pod>)
    requires SortedByName(a) && SortedByName(b) && DistinctNames(a)
    requires multiset(a) == multiset(b)
    ensures a == b
  {
    assert |multiset(a)| == |a| && |multiset(b)| == |b|;
    if a != [] {
      assert b[0] in multiset(a) && a[0] in multiset(b);
      SameHead(a, b);
      TailCounts(a);
      TailCounts(b);
      SortedIsUnique(a[1..], b[1..]);
      SameTail(a, b);
    }
  }

  lemma SameTail(a: seq<Pod>, b: seq<Pod>)
    requires a != [] && b != [] && a[0] == b[0] && a[1..] == b[1..]
    ensures a == b
  {
    assert a == [a[0]] + a[1..] && b == [b[0]] + b[1..];
  }

  /** The order in which the API lists the pods makes no difference. */
  lemma ListingIsCanonical(items: seq<Pod>, items2: seq<Pod>, pods: seq<Pod>, pods2: seq<Pod>)
    requires multiset(items) == multiset(items2)
    requires IsListingOf(pods, items) && IsListingOf(pods2, items2) && DistinctNames(pods)
    ensures pods == pods2
  {
    forall p: Pod
      ensures multiset(pods)[p] == multiset(pods2)[p]
    {
      RunningPodsCount(items, p);
      RunningPodsCount(items2, p);
    }
    SortedIsUnique(pods, pods2);
  }

  // ----- random choice

  function Without(pods: seq<Pod>, n: nat): seq<Pod>
    requires n < |pods|
  {
    pods[..n] + pods[n + 1..]
  }

  lemma ChoiceIsPartition(pods: seq<Pod>, n: nat)
    requires n < |pods|
    ensures multiset{pods[n]} + multiset(Without(pods, n)) == multiset(pods)
    ensures SortedByName(pods) ==> SortedByName(Without(pods, n))
  {
    assert pods == pods[..n] + [pods[n]] + pods[n + 1..];
  }

  /** append(pods[0:n], pods[n+1:]...): the tail moves down by one, in place. */
  method RemoveAt(pods: array<Pod>, n: nat)
    requires n < pods.Length
    modifies pods
    ensures pods[..pods.Length - 1] == Without(old(pods[..]), n)
    ensures pods[pods.Length - 1] == old(pods[pods.Length - 1])
  {
    for k := n to pods.Length - 1
      invariant pods[..n] == old(pods[..n])
      invariant pods[n..k] == old(pods[n + 1..k + 1])
      invariant pods[k..] == old(pods[k..])
    {
      pods[k] := pods[k + 1];
    }
    var last := pods.Length - 1;
    assert pods[..last] == pods[..n] + pods[n..last];
    assert old(pods[..])[n + 1..] == old(pods[n + 1..last + 1]);
  }

  /** `random` is the random number; the chosen pod is read before the others are moved. */
  method ChooseRandom(listing: Option<seq<Pod>>, random: nat)
    returns (choice: Option<(Pod, seq<Pod>)>, ghost pods: seq<Pod>)
    ensures listing.Some? ==> IsListingOf(pods, listing.value)
    ensures choice.None? <==> listing.None? || pods == []
    ensures choice.Some? ==>
      choice.value.0 == pods[random % |pods|] && choice.value.1 == Without(pods, random % |pods|)
    ensures choice.Some? ==> multiset{choice.value.0} + multiset(choice.value.1) == multiset(RunningPods(listing.value))
  {
    var list := ListRunningPods(listing);
    if list.None? {
      return None, [];
    }
    pods := list.value[..];
    var size := list.value.Length;
    if size == 0 {
      return None, pods;
    }
    var n := random % size;
    var chosen := list.value[n];
    ChoiceIsPartition(pods, n);
    RemoveAt(list.value, n);
    return Some((chosen, list.value[..size - 1])), pods;
  }

  /** Had the others been moved first, pods[n] would be the pod after n, unless n is the last. */
  function ChosenAfterShift(pods: seq<Pod>, n: nat): Pod
    requires n < |pods|
  {
    (Without(pods, n) + [pods[|pods| - 1]])[n]
  }

  /** Read in the other order the choice is a partition only when the last pod is drawn. */
  lemma OrderOfReadingMatters(pods: seq<Pod>, n: nat)
    requires n < |pods| && DistinctNames(pods)
    ensures multiset{ChosenAfterShift(pods, n)} + multiset(Without(pods, n)) == multiset(pods) <==> n == |pods| - 1
  {
    ChoiceIsPartition(pods, n);
    var chosen := ChosenAfterShift(pods, n);
    if n < |pods| - 1 {
      assert chosen == pods[n + 1] && chosen != pods[n];
      assert (multiset{pods[n]} + multiset(Without(pods, n)))[chosen] == multiset(Without(pods, n))[chosen];
    }
  }

  // ----- sticky choice

  /** The consistent-hash ring: a fixed function of the node list and the key that gives a node of a non-empty list. */
  ghost predicate IsRing(ring: (seq<string>, string) -> Option<string>) {
    forall names, key :: names != [] ==> ring(names, key).Some? && ring(names, key).value in names
  }

  function Names(pods: seq<Pod>): (names: seq<string>)
    ensures |names| == |pods| && forall i :: 0 <= i < |pods| ==> names[i] == pods[i].name
  {
    seq(|pods|, i requires 0 <= i < |pods| => pods[i].name)
  }

  function OthersOf(pods: seq<Pod>, name: string): (others: seq<Pod>)
    ensures |others| <= |pods|
    ensures name in Names(pods) ==> |others| < |pods|
  {
    if pods == [] then []
    else
      var last := |pods| - 1;
      assert Names(pods) == Names(pods[..last]) + [pods[last].name];
      OthersOf(pods[..last], name) + if pods[last].name == name then [] else [pods[last]]
  }

  /** The names in order, and the last pod of each name. */
  method IndexPods(a: array<Pod>) returns (podNames: seq<string>, podMap: map<string, Pod>)
    ensures podNames == Names(a[..])
    ensures forall name :: name in podNames ==> name in podMap && podMap[name] in a[..] && podMap[name].name == name
  {
    podNames, podMap := [], map[];
    for i := 0 to a.Length
      invariant podNames == Names(a[..])[..i]
      invariant forall name :: name in podNames ==> name in podMap
      invariant forall name :: name in podMap ==> podMap[name] in a[..] && podMap[name].name == name
    {
      podNames := podNames + [a[i].name];
      podMap := podMap[a[i].name := a[i]];
    }
  }

  /** The slots of a list in an array that is larger: the rest of them stays nil. */
  predicate Fills(slots: seq<Option<Pod>>, list: seq<Pod>) {
    |list| <= |slots| && forall i :: 0 <= i < |slots| ==> slots[i] == if i < |list| then Some(list[i]) else None
  }

  method FillOthers(a: array<Pod>, name: string) returns (others: array<Option<Pod>>)
    requires name in Names(a[..])
    ensures fresh(others) && others.Length == a.Length - 1
    ensures Fills(others[..], OthersOf(a[..], name))
  {
    ghost var pods := a[..];
    others := new Option<Pod>[a.Length - 1](_ => None);
    var next := 0;
    for i := 0 to a.Length
      invariant a[..] == pods && fresh(others) && others.Length == a.Length - 1
      invariant next == |OthersOf(pods[..i], name)|
      invariant Fills(others[..], OthersOf(pods[..i], name))
    {
      assert pods[..i + 1][..i] == pods[..i];
      if a[i].name != name {
        RoomForOthers(pods, i, name);
        others[next] := Some(a[i]);
        next := next + 1;
      }
    }
    assert pods[..a.Length] == pods;
  }

  /**
   * A choice from the running pods in name order: the pod that the ring names for the key, and the slots for the
   * others.
   */
  predicate ChosenFrom(
    pods: seq<Pod>, chosen: Pod, slots: seq<Option<Pod>>, ring: (seq<string>, string) -> Option<string>, key: string)
  {
    && chosen in pods && Some(chosen.name) == ring(Names(pods), key)
    && |slots| == |pods| - 1 && Fills(slots, OthersOf(pods, chosen.name))
  }

  ghost predicate IsStickyChoice(
    items: seq<Pod>, chosen: Pod, slots: seq<Option<Pod>>, ring: (seq<string>, string) -> Option<string>, key: string)
  {
    exists pods :: IsListingOf(pods, items) && ChosenFrom(pods, chosen, slots, ring, key)
  }

  /** The others get one slot less than there are pods; a slot that is not filled stays nil. */
  method ChooseSticky(listing: Option<seq<Pod>>, key: string, ring: (seq<string>, string) -> Option<string>)
    returns (choice: Option<(Pod, seq<Option<Pod>>)>)
    requires IsRing(ring)
    ensures choice.None? <==> listing.None? || RunningPods(listing.value) == []
    ensures choice.Some? ==> IsStickyChoice(listing.value, choice.value.0, choice.value.1, ring, key)
  {
    var list := ListRunningPods(listing);
    if list.None? {
      return None;
    }
    ghost var pods := list.value[..];
    assert |pods| == |multiset(pods)| == |RunningPods(listing.value)|;
    if list.value.Length == 0 {
      return None;
    }
    var podNames, podMap := IndexPods(list.value);
    var chosen := podMap[ring(podNames, key).value];
    var others := FillOthers(list.value, chosen.name);
    assert ChosenFrom(pods, chosen, others[..], ring, key);
    return Some((chosen, others[..]));
  }

  lemma {:induction false} OthersGrow(pods: seq<Pod>, i: nat, name: string)
    requires i <= |pods|
    ensures OthersOf(pods[..i], name) <= OthersOf(pods, name)
    decreases |pods| - i
  {
    if i == |pods| {
      assert pods[..i] == pods;
    } else {
      assert pods[..i + 1][..i] == pods[..i];
      OthersGrow(pods, i + 1, name);
    }
  }

  lemma RoomForOthers(pods: seq<Pod>, i: nat, name: string)
    requires i < |pods| && pods[i].name != name && name in Names(pods)
    ensures |OthersOf(pods[..i], name)| < |pods| - 1
  {
    assert pods[..i + 1][..i] == pods[..i];
    OthersGrow(pods, i + 1, name);
  }

  lemma WithoutOfFront(pods: seq<Pod>, n: nat)
    requires n < |pods| - 1
    ensures Without(pods, n) == Without(pods[..|pods| - 1], n) + [pods[|pods| - 1]]
  {
    var last := |pods| - 1;
    assert pods[..last][n + 1..] + [pods[last]] == pods[n + 1..];
  }

  lemma {:induction false} OthersOfDistinct(pods: seq<Pod>, n: nat)
    requires n < |pods| && DistinctNames(pods)
    ensures OthersOf(pods, pods[n].name) == Without(pods, n)
  {
    var last := |pods| - 1;
    if n == last {
      OthersOfAbsent(pods[..last], pods[n].name);
      assert pods[n + 1..] == [];
    } else {
      OthersOfDistinct(pods[..last], n);
      WithoutOfFront(pods, n);
    }
  }

  lemma {:induction false} OthersOfAbsent(pods: seq<Pod>, name: string)
    requires forall i :: 0 <= i < |pods| ==> pods[i].name != name
    ensures OthersOf(pods, name) == pods
  {
    hide Names;
    if pods != [] {
      OthersOfAbsent(pods[..|pods| - 1], name);
    }
  }

  lemma {:induction false} NoRepeats(pods: seq<Pod>, p: Pod)
    requires DistinctNames(pods)
    ensures multiset(pods)[p] <= 1
  {
    if pods != [] {
      var last := |pods| - 1;
      NoRepeats(pods[..last], p);
      assert pods == pods[..last] + [pods[last]];
      assert pods[last] !in pods[..last];
    }
  }

  /** Putting pods into another order keeps their names unique. */
  lemma PermutationKeepsDistinctNames(a: seq<Pod>, b: seq<Pod>)
    requires DistinctNames(a) && multiset(a) == multiset(b)
    ensures DistinctNames(b)
  {
    forall i, j | 0 <= i < j < |b|
      ensures b[i].name != b[j].name
    {
      if b[i] == b[j] {
        assert b == b[..j] + [b[j]] + b[j + 1..] && b[i] in b[..j];
        NoRepeats(a, b[i]);
        assert false;
      } else {
        assert b[i] in multiset(a) && b[j] in multiset(a);
        var p :| 0 <= p < |a| && a[p] == b[i];
        var q :| 0 <= q < |a| && a[q] == b[j];
      }
    }
  }

  lemma ChosenFromIsPartition(pods: seq<Pod>, chosen: Pod)
    requires SortedByName(pods) && DistinctNames(pods) && chosen in pods
    ensures
      var others := OthersOf(pods, chosen.name);
      |others| == |pods| - 1 && multiset{chosen} + multiset(others) == multiset(pods) && SortedByName(others)
  {
    var n :| 0 <= n < |pods| && pods[n] == chosen;
    OthersOfDistinct(pods, n);
    ChoiceIsPartition(pods, n);
  }

  /**
   * With unique names the sticky choice is a partition of the running pods, in name order and with no slot left
   * nil.
   */
  lemma StickyIsPartition(
      items: seq<Pod>, chosen: Pod, slots: seq<Option<Pod>>, ring: (seq<string>, string) -> Option<string>, key: string)
    returns (others: seq<Pod>)
    requires IsStickyChoice(items, chosen, slots, ring, key) && DistinctNames(RunningPods(items))
    ensures |slots| == |others| && forall i :: 0 <= i < |slots| ==> slots[i] == Some(others[i])
    ensures multiset{chosen} + multiset(others) == multiset(RunningPods(items)) && SortedByName(others)
  {
    var pods :| IsListingOf(pods, items) && ChosenFrom(pods, chosen, slots, ring, key);
    PermutationKeepsDistinctNames(RunningPods(items), pods);
    ChosenFromIsPartition(pods, chosen);
    others := OthersOf(pods, chosen.name);
  }

  /** Whatever the order in which the API lists the same pods, one key gets the same pod and the same others. */
  lemma StickyIsCanonical(
      items: seq<Pod>, items2: seq<Pod>, chosen: Pod, slots: seq<Option<Pod>>, chosen2: Pod, slots2: seq<Option<Pod>>,
      ring: (seq<string>, string) -> Option<string>, key: string)
    requires multiset(items) == multiset(items2) && DistinctNames(RunningPods(items))
    requires IsStickyChoice(items, chosen, slots, ring, key) && IsStickyChoice(items2, chosen2, slots2, ring, key)
    ensures chosen == chosen2 && slots == slots2
  {
    var pods :| IsListingOf(pods, items) && ChosenFrom(pods, chosen, slots, ring, key);
    var pods2 :| IsListingOf(pods2, items2) && ChosenFrom(pods2, chosen2, slots2, ring, key);
    PermutationKeepsDistinctNames(RunningPods(items), pods);
    ListingIsCanonical(items, items2, pods, pods2);
    SameNameSamePod(pods, chosen, chosen2);
  }

  lemma SameNameSamePod(pods: seq<Pod>, a: Pod, b: Pod)
    requires DistinctNames(pods) && a in pods && b in pods && a.name == b.name
    ensures a == b
  {
    var i :| 0 <= i < |pods| && pods[i] == a;
    var j :| 0 <= j < |pods| && pods[j] == b;
    assert i == j;
  }
}
