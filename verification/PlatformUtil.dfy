/**
 * Lists of platforms (platformutil/parse.go). The platform library is a parameter: parsing one name, normalising,
 * formatting, and the local default.
 */
module PlatformUtil {
  import opened Text

  datatype Library<!P> = Library(
    parse: string -> Option<P>,
    normalize: P -> P,
    format: P -> string,
    local: P)

  ghost predicate NormalizeIsIdempotent<P(!new)>(lib: Library<P>) {
    forall p :: lib.normalize(lib.normalize(p)) == lib.normalize(p)
  }

  // ----- Parse

  function ToLower(c: char): char {
    if 'A' <= c <= 'Z' then (c as int + 32) as char else c
  }

  /** strings.EqualFold(s, "local"); none of its letters folds to anything beyond ASCII. */
  predicate IsLocal(s: string) {
    && |s| == 5 && ToLower(s[0]) == 'l' && ToLower(s[1]) == 'o'
    && ToLower(s[2]) == 'c' && ToLower(s[3]) == 'a' && ToLower(s[4]) == 'l'
  }

  function ParseOne<P>(lib: Library<P>, s: string): Option<P> {
    var p := if IsLocal(s) then Some(lib.local) else lib.parse(s);
    if p.None? then None else Some(lib.normalize(p.value))
  }

  /** Parsing and normalising a list that has been flattened already. */
  function ParseFlat<P>(lib: Library<P>, pieces: seq<string>): Option<seq<P>> {
    if pieces == [] then Some([])
    else
      var front, last := ParseFlat(lib, pieces[..|pieces| - 1]), ParseOne(lib, pieces[|pieces| - 1]);
      if front.None? || last.None? then None else Some(front.value + [last.value])
  }

  function Commas(s: string): nat {
    if s == "" then 0 else (if s[0] == ',' then 1 else 0) + Commas(s[1..])
  }

  function TotalCommas(args: seq<string>): nat {
    if args == [] then 0 else TotalCommas(args[..|args| - 1]) + Commas(args[|args| - 1])
  }

  lemma {:induction false} CommasOfPlain(s: string)
    ensures Commas(s) == 0 <==> ',' !in s
  {
    if s != "" {
      CommasOfPlain(s[1..]);
      assert s == [s[0]] + s[1..];
    }
  }

  lemma {:induction false} PlainHaveNoCommas(args: seq<string>)
    requires forall i :: 0 <= i < |args| ==> ',' !in args[i]
    ensures TotalCommas(args) == 0
  {
    if args != [] {
      PlainHaveNoCommas(args[..|args| - 1]);
      CommasOfPlain(args[|args| - 1]);
    }
  }

  lemma {:induction false} TotalCommasAtLeast(args: seq<string>, i: nat)
    requires i < |args|
    ensures Commas(args[i]) <= TotalCommas(args)
  {
    if i < |args| - 1 {
      TotalCommasAtLeast(args[..|args| - 1], i);
    }
  }

  lemma {:induction false} ParseFlatOfConcat<P>(lib: Library<P>, a: seq<string>, b: seq<string>)
    ensures
      var pa, pb := ParseFlat(lib, a), ParseFlat(lib, b);
      ParseFlat(lib, a + b) == if pa.None? || pb.None? then None else Some(pa.value + pb.value)
    decreases |b|
  {
    if b == [] {
      assert a + b == a;
      assert ParseFlat(lib, a).Some? ==> ParseFlat(lib, a).value + [] == ParseFlat(lib, a).value;
    } else {
      var front, last := b[..|b| - 1], b[|b| - 1];
      assert (a + b)[..|a + b| - 1] == a + front;
      ParseFlatOfConcat(lib, a, front);
      var pa, pf, pl := ParseFlat(lib, a), ParseFlat(lib, front), ParseOne(lib, last);
      if pa.Some? && pf.Some? && pl.Some? {
        assert pa.value + pf.value + [pl.value] == pa.value + (pf.value + [pl.value]);
      }
    }
  }

  lemma OneMoreArgument<P>(lib: Library<P>, args: seq<string>, i: nat)
    requires i < |args|
    ensures
      var before, more := ParseFlat(lib, Pieces(args[..i], ',')), ParseFlat(lib, Split(args[i], ','));
      ParseFlat(lib, Pieces(args[..i + 1], ',')) ==
        if before.None? || more.None? then None else Some(before.value + more.value)
  {
    hide ParseFlat, Split;
    assert args[..i + 1][..i] == args[..i];
    ParseFlatOfConcat(lib, Pieces(args[..i], ','), Split(args[i], ','));
  }

  /** The pieces of an argument have no commas left; if there are several the argument had some. */
  lemma PiecesHaveFewerCommas(args: seq<string>, i: nat)
    requires i < |args|
    ensures Pieces(Split(args[i], ','), ',') == Split(args[i], ',')
    ensures |Split(args[i], ',')| > 1 ==> TotalCommas(Split(args[i], ',')) < TotalCommas(args)
  {
    hide Split, Commas, TotalCommas;
    PiecesOfPlain(Split(args[i], ','), ',');
    PlainHaveNoCommas(Split(args[i], ','));
    CommasOfPlain(args[i]);
    TotalCommasAtLeast(args, i);
    if ',' !in args[i] {
      SplitOnePiece(args[i], ',');
    }
  }

  lemma OnePiece<P>(lib: Library<P>, s: string)
    requires |Split(s, ',')| == 1
    ensures Split(s, ',') == [s]
    ensures ParseFlat(lib, [s]) == if ParseOne(lib, s).None? then None else Some([ParseOne(lib, s).value])
  {
    hide ParseOne, Split;
    assert Join(Split(s, ','), ',') == s;
    assert ParseFlat(lib, [s][..0]) == Some([]);
    var one := ParseOne(lib, s);
    assert one.Some? ==> [] + [one.value] == [one.value];
  }

  /**
   * Parse of the source: an argument with commas is split and parsed recursively; there are fewer commas every time.
   */
  method Parse<P>(lib: Library<P>, args: seq<string>) returns (r: Option<seq<P>>)
    ensures r == ParseFlat(lib, Pieces(args, ','))
    decreases TotalCommas(args)
  {
    hide Split, ParseOne, Pieces, TotalCommas;
    var out: seq<P> := [];
    NoArguments(lib);
    for i := 0 to |args|
      invariant ParseFlat(lib, Pieces(args[..i], ',')) == Some(out)
    {
      var parts := Split(args[i], ',');
      OneMoreArgument(lib, args, i);
      PiecesHaveFewerCommas(args, i);
      if |parts| > 1 {
        var p := Parse(lib, parts);
        if p.None? {
          RejectionIsFinal(lib, args, i + 1);
          return None;
        }
        out := out + p.value;
      } else {
        OnePiece(lib, args[i]);
        var p := ParseOne(lib, args[i]);
        if p.None? {
          RejectionIsFinal(lib, args, i + 1);
          return None;
        }
        out := out + [p.value];
      }
    }
    assert args[..|args|] == args;
    return Some(out);
  }

  lemma NoArguments<P>(lib: Library<P>)
    ensures Pieces([], ',') == [] && ParseFlat(lib, []) == Some([])
  {
  }

  lemma RejectionIsFinal<P>(lib: Library<P>, args: seq<string>, i: nat)
    requires i <= |args| && ParseFlat(lib, Pieces(args[..i], ',')).None?
    ensures ParseFlat(lib, Pieces(args, ',')).None?
  {
    var front, rest := args[..i], args[i..];
    assert args == front + rest;
    ParseDistributes(lib, front, rest);
  }

  /** Parsing distributes over concatenation, and fails exactly when some piece does not parse. */
  lemma ParseDistributes<P>(lib: Library<P>, a: seq<string>, b: seq<string>)
    ensures
      var pa, pb := ParseFlat(lib, Pieces(a, ',')), ParseFlat(lib, Pieces(b, ','));
      ParseFlat(lib, Pieces(a + b, ',')) == if pa.None? || pb.None? then None else Some(pa.value + pb.value)
  {
    PiecesOfConcat(a, b, ',');
    ParseFlatOfConcat(lib, Pieces(a, ','), Pieces(b, ','));
  }

  lemma {:induction false} ParseFailsExactly<P>(lib: Library<P>, pieces: seq<string>)
    ensures ParseFlat(lib, pieces).None? <==> exists i :: 0 <= i < |pieces| && ParseOne(lib, pieces[i]).None?
  {
    if pieces != [] {
      var last := |pieces| - 1;
      ParseFailsExactly(lib, pieces[..last]);
      if i :| 0 <= i < |pieces| && ParseOne(lib, pieces[i]).None? {
        assert i < last ==> pieces[..last][i] == pieces[i];
      }
    }
  }

  /** "local" in any mixture of cases. */
  lemma LocalInAnyCase(s: string)
    ensures IsLocal(s) <==>
      && |s| == 5 && s[0] in ['l', 'L'] && s[1] in ['o', 'O'] && s[2] in ['c', 'C'] && s[3] in ['a', 'A']
      && s[4] in ['l', 'L']
  {
  }

  /** What each piece becomes: the local platform or the parsed one, normalised, in order. */
  lemma {:induction false} ParsedPieces<P>(lib: Library<P>, pieces: seq<string>)
    requires ParseFlat(lib, pieces).Some?
    ensures |ParseFlat(lib, pieces).value| == |pieces|
    ensures forall i :: 0 <= i < |pieces| ==>
      if IsLocal(pieces[i]) then ParseFlat(lib, pieces).value[i] == lib.normalize(lib.local)
      else lib.parse(pieces[i]).Some? && ParseFlat(lib, pieces).value[i] == lib.normalize(lib.parse(pieces[i]).value)
  {
    if pieces != [] {
      var last := |pieces| - 1;
      ParsedPieces(lib, pieces[..last]);
      assert forall i :: 0 <= i < last ==> pieces[..last][i] == pieces[i];
    }
  }

  /** Nothing but a piece that is not "local" and that the library does not parse makes it fail. */
  lemma ParseFailsOnUnknownPieces<P>(lib: Library<P>, pieces: seq<string>)
    ensures ParseFlat(lib, pieces).None? <==>
      exists i :: 0 <= i < |pieces| && !IsLocal(pieces[i]) && lib.parse(pieces[i]).None?
  {
    ParseFailsExactly(lib, pieces);
    forall i | 0 <= i < |pieces|
      ensures ParseOne(lib, pieces[i]).None? <==> !IsLocal(pieces[i]) && lib.parse(pieces[i]).None?
    {
    }
  }

  // ----- Dedupe and formatting

  function Key<P>(lib: Library<P>, p: P): string {
    lib.format(lib.normalize(p))
  }

  function Keys<P>(lib: Library<P>, ps: seq<P>): set<string> {
    set i | 0 <= i < |ps| :: Key(lib, ps[i])
  }

  /** The first platform of every key, normalised. */
  function Deduped<P>(lib: Library<P>, ps: seq<P>): (r: seq<P>)
    ensures |r| <= |ps|
  {
    if ps == [] then []
    else
      var front, last := ps[..|ps| - 1], ps[|ps| - 1];
      Deduped(lib, front) + if Key(lib, last) in Keys(lib, front) then [] else [lib.normalize(last)]
  }

  method Dedupe<P>(lib: Library<P>, ps: seq<P>) returns (out: seq<P>)
    ensures out == Deduped(lib, ps)
    ensures IsListOf(Format(lib, out), Keys(lib, ps))
  {
    var m: set<string> := {};
    out := [];
    for i := 0 to |ps|
      invariant m == Keys(lib, ps[..i]) && out == Deduped(lib, ps[..i])
    {
      KeysOfAppend(lib, ps, i);
      var p := lib.normalize(ps[i]);
      var key := lib.format(p);
      if key in m {
        continue;
      }
      m := m + {key};
      out := out + [p];
    }
    assert ps[..|ps|] == ps;
    DedupedHasEachKeyOnce(lib, ps);
  }

  /** Every element of the set, once. */
  ghost predicate IsListOf(list: seq<string>, elements: set<string>) {
    && (forall i, j :: 0 <= i < j < |list| ==> list[i] != list[j])
    && (forall e :: e in list <==> e in elements)
  }

  lemma IsListOfOneMore(list: seq<string>, elements: set<string>, e: string)
    requires IsListOf(list, elements) && e !in elements
    ensures IsListOf(list + [e], elements + {e})
  {
  }

  /** The result formats to every key of the list, and to each of them once. */
  lemma {:induction false} DedupedHasEachKeyOnce<P>(lib: Library<P>, ps: seq<P>)
    ensures IsListOf(Format(lib, Deduped(lib, ps)), Keys(lib, ps))
  {
    if ps != [] {
      var last := |ps| - 1;
      var front, p := ps[..last], ps[last];
      DedupedHasEachKeyOnce(lib, front);
      KeysOfAppend(lib, ps, last);
      DedupedOfAppend(lib, front, p);
      assert ps[..last + 1] == ps && ps == front + [p];
      if Key(lib, p) in Keys(lib, front) {
        assert Keys(lib, ps) == Keys(lib, front) && Deduped(lib, ps) == Deduped(lib, front);
      } else {
        FormatOfAppend(lib, Deduped(lib, front), lib.normalize(p));
        IsListOfOneMore(Format(lib, Deduped(lib, front)), Keys(lib, front), Key(lib, p));
      }
    }
  }

  /** The result holds the first platform of each key, normalised, and nothing else. */
  lemma {:induction false} DedupedTakesTheFirst<P>(lib: Library<P>, ps: seq<P>)
    ensures forall j :: 0 <= j < |ps| && IsFirstOfKey(lib, ps, j) ==> lib.normalize(ps[j]) in Deduped(lib, ps)
    ensures forall p :: p in Deduped(lib, ps) ==>
      exists j :: 0 <= j < |ps| && IsFirstOfKey(lib, ps, j) && p == lib.normalize(ps[j])
  {
    if ps != [] {
      var last := |ps| - 1;
      var front := ps[..last];
      DedupedTakesTheFirst(lib, front);
      FirstOfKeyInFront(lib, ps);
      assert ps == front + [ps[last]];
      DedupedOfAppend(lib, front, ps[last]);
      forall p | p in Deduped(lib, ps)
        ensures exists j :: 0 <= j < |ps| && IsFirstOfKey(lib, ps, j) && p == lib.normalize(ps[j])
      {
        if p in Deduped(lib, front) {
          var j :| 0 <= j < last && IsFirstOfKey(lib, front, j) && p == lib.normalize(front[j]);
          assert IsFirstOfKey(lib, ps, j);
        } else {
          assert IsFirstOfKey(lib, ps, last);
        }
      }
      forall j | 0 <= j < |ps| && IsFirstOfKey(lib, ps, j)
        ensures lib.normalize(ps[j]) in Deduped(lib, ps)
      {
        assert j < last ==> IsFirstOfKey(lib, front, j) && front[j] == ps[j];
      }
    }
  }

  predicate IsFirstOfKey<P>(lib: Library<P>, ps: seq<P>, j: nat)
    requires j < |ps|
  {
    forall h :: 0 <= h < j ==> lib.format(lib.normalize(ps[h])) != lib.format(lib.normalize(ps[j]))
  }

  lemma FirstOfKeyInFront<P>(lib: Library<P>, ps: seq<P>)
    requires ps != []
    ensures forall j :: 0 <= j < |ps| - 1 ==> (IsFirstOfKey(lib, ps, j) <==> IsFirstOfKey(lib, ps[..|ps| - 1], j))
    ensures IsFirstOfKey(lib, ps, |ps| - 1) <==> Key(lib, ps[|ps| - 1]) !in Keys(lib, ps[..|ps| - 1])
  {
    var front, last := ps[..|ps| - 1], |ps| - 1;
    assert forall h :: 0 <= h < last ==> front[h] == ps[h];
    if Key(lib, ps[last]) in Keys(lib, front) {
      var h :| 0 <= h < last && Key(lib, front[h]) == Key(lib, ps[last]);
      assert ps[h] == front[h];
    } else {
      forall h | 0 <= h < last
        ensures lib.format(lib.normalize(ps[h])) != lib.format(lib.normalize(ps[last]))
      {
        assert Key(lib, front[h]) in Keys(lib, front);
      }
    }
  }

  lemma KeysOfAppend<P>(lib: Library<P>, ps: seq<P>, i: nat)
    requires i < |ps|
    ensures Keys(lib, ps[..i + 1]) == Keys(lib, ps[..i]) + {Key(lib, ps[i])}
    ensures ps[..i + 1][..i] == ps[..i]
  {
    var before, after := ps[..i], ps[..i + 1];
    forall key | key in Keys(lib, after)
      ensures key in Keys(lib, before) + {Key(lib, ps[i])}
    {
      var j :| 0 <= j < |after| && key == Key(lib, after[j]);
      assert j < i ==> before[j] == after[j];
    }
    forall key | key in Keys(lib, before) + {Key(lib, ps[i])}
      ensures key in Keys(lib, after)
    {
      if key in Keys(lib, before) {
        var j :| 0 <= j < |before| && key == Key(lib, before[j]);
        assert after[j] == before[j];
      } else {
        assert after[i] == ps[i];
      }
    }
  }

  lemma {:induction false} KeysOfDeduped<P(!new)>(lib: Library<P>, ps: seq<P>)
    requires NormalizeIsIdempotent(lib)
    ensures Keys(lib, Deduped(lib, ps)) == Keys(lib, ps)
  {
    if ps != [] {
      var last := |ps| - 1;
      KeysOfDeduped(lib, ps[..last]);
      KeysOfAppend(lib, ps, last);
      assert ps[..last + 1] == ps;
      var d := Deduped(lib, ps);
      if Key(lib, ps[last]) !in Keys(lib, ps[..last]) {
        KeysOfAppend(lib, d, |d| - 1);
        assert d[..|d| - 1] == Deduped(lib, ps[..last]) && d[..|d|] == d;
      }
    }
  }

  lemma DedupedOfAppend<P>(lib: Library<P>, ps: seq<P>, p: P)
    ensures Deduped(lib, ps + [p]) == Deduped(lib, ps) + if Key(lib, p) in Keys(lib, ps) then [] else [lib.normalize(p)]
  {
    assert (ps + [p])[..|ps|] == ps;
  }

  /** Deduplicating twice is deduplicating once. */
  lemma {:induction false} DedupeIsIdempotent<P(!new)>(lib: Library<P>, ps: seq<P>)
    requires NormalizeIsIdempotent(lib)
    ensures Deduped(lib, Deduped(lib, ps)) == Deduped(lib, ps)
  {
    if ps != [] {
      var front, p := ps[..|ps| - 1], ps[|ps| - 1];
      assert ps == front + [p];
      DedupeIsIdempotent(lib, front);
      DedupedOfAppend(lib, front, p);
      if Key(lib, p) in Keys(lib, front) {
        assert Deduped(lib, ps) == Deduped(lib, front);
      } else {
        KeysOfDeduped(lib, front);
        DedupedOfAppend(lib, Deduped(lib, front), lib.normalize(p));
      }
    }
  }

  function Format<P>(lib: Library<P>, ps: seq<P>): (r: seq<string>)
    ensures |r| == |ps|
  {
    seq(|ps|, i requires 0 <= i < |ps| => lib.format(ps[i]))
  }

  function Concat<P>(groups: seq<seq<P>>): seq<P> {
    if groups == [] then [] else Concat(groups[..|groups| - 1]) + groups[|groups| - 1]
  }

  /** How many entries the first group contributes. */
  function FirstGroupSize<P>(lib: Library<P>, groups: seq<seq<P>>): nat {
    if groups == [] then 0 else |Deduped(lib, groups[0])|
  }

  /** The formatted platforms, with a star on the first n of them. */
  function Starred(names: seq<string>, n: nat): seq<string> {
    seq(|names|, i requires 0 <= i < |names| => if i < n then names[i] + "*" else names[i])
  }

  /** What FormatInGroups makes of everything deduplicated together, with the first group's own entries starred. */
  function GroupsFormatted<P>(lib: Library<P>, groups: seq<seq<P>>): seq<string> {
    Starred(Format(lib, Deduped(lib, Concat(groups))), FirstGroupSize(lib, groups))
  }

  lemma StarredOfAppend(names: seq<string>, name: string, n: nat)
    ensures Starred(names + [name], n) == Starred(names, n) + [if |names| < n then name + "*" else name]
  {
  }

  lemma FormatOfAppend<P>(lib: Library<P>, ps: seq<P>, p: P)
    ensures Format(lib, ps + [p]) == Format(lib, ps) + [lib.format(p)]
  {
  }

  lemma DedupedOfPrefix<P>(lib: Library<P>, a: seq<P>, b: seq<P>)
    requires a <= b
    ensures Deduped(lib, a) <= Deduped(lib, b)
    decreases |b|
  {
    if a != b {
      assert a == b[..|b| - 1][..|a|];
      DedupedOfPrefix(lib, a, b[..|b| - 1]);
    }
  }

  /** One iteration of FormatInGroups: `all` is everything before platform p of group number i. */
  lemma FormatStep<P>(lib: Library<P>, all: seq<P>, p: P, isFirst: bool, size: nat)
    requires if isFirst then |Deduped(lib, all + [p])| <= size else size <= |Deduped(lib, all)|
    ensures
      var v := lib.format(lib.normalize(p));
      Starred(Format(lib, Deduped(lib, all + [p])), size) ==
        Starred(Format(lib, Deduped(lib, all)), size)
        + if Key(lib, p) in Keys(lib, all) then [] else [if isFirst then v + "*" else v]
  {
    assert (all + [p])[..|all|] == all;
    if Key(lib, p) !in Keys(lib, all) {
      FormatOfAppend(lib, Deduped(lib, all), lib.normalize(p));
      StarredOfAppend(Format(lib, Deduped(lib, all)), lib.format(lib.normalize(p)), size);
    }
  }

  /** The stars stand exactly on the entries that the first group contributes. */
  method FormatInGroups<P>(lib: Library<P>, groups: seq<seq<P>>) returns (out: seq<string>)
    ensures out == GroupsFormatted(lib, groups)
    ensures |out| == |Deduped(lib, Concat(groups))|
    ensures forall i :: 0 <= i < |out| ==>
      out[i] == lib.format(Deduped(lib, Concat(groups))[i])
        + if groups != [] && i < |Deduped(lib, groups[0])| then "*" else ""
  {
    var m: set<string> := {};
    out := [];
    ghost var size := FirstGroupSize(lib, groups);
    assert groups[..0] == [];
    for i := 0 to |groups|
      invariant m == Keys(lib, Concat(groups[..i]))
      invariant out == Starred(Format(lib, Deduped(lib, Concat(groups[..i]))), size)
      invariant i > 0 ==> groups[0] <= Concat(groups[..i])
    {
      assert groups[..i + 1][..i] == groups[..i];
      ghost var before := Concat(groups[..i]);
      var g := groups[i];
      assert Concat(groups[..i + 1]) == before + g;
      if i > 0 {
        DedupedOfPrefix(lib, groups[0], before);
      }
      m, out := FormatGroup(lib, before, g, i == 0, size, m, out);
    }
    assert groups[..|groups|] == groups;
  }

  lemma GrownByOne<P>(before: seq<P>, g: seq<P>, j: nat)
    requires j < |g|
    ensures before + g[..j + 1] == before + g[..j] + [g[j]]
    ensures (before + g[..j] + [g[j]])[..|before + g[..j]|] == before + g[..j]
    ensures (before + g[..j] + [g[j]])[..|before + g[..j]| + 1] == before + g[..j] + [g[j]]
    ensures before == [] ==> before + g[..j] + [g[j]] <= g
  {
    assert g[..j + 1] == g[..j] + [g[j]];
  }

  method FormatGroup<P>(
      lib: Library<P>, ghost before: seq<P>, g: seq<P>, isFirst: bool, ghost size: nat,
      m0: set<string>, out0: seq<string>)
    returns (m: set<string>, out: seq<string>)
    requires m0 == Keys(lib, before) && out0 == Starred(Format(lib, Deduped(lib, before)), size)
    requires if isFirst then before == [] && size == |Deduped(lib, g)| else size <= |Deduped(lib, before)|
    ensures m == Keys(lib, before + g) && out == Starred(Format(lib, Deduped(lib, before + g)), size)
  {
    hide Deduped, Keys, Starred;
    m, out := m0, out0;
    assert before + g[..0] == before;
    for j := 0 to |g|
      invariant m == Keys(lib, before + g[..j]) && out == Starred(Format(lib, Deduped(lib, before + g[..j])), size)
    {
      ghost var done := before + g[..j];
      GrownByOne(before, g, j);
      KeysOfAppend(lib, done + [g[j]], |done|);
      if isFirst {
        DedupedOfPrefix(lib, done + [g[j]], g);
      } else {
        DedupedOfPrefix(lib, before, done);
      }
      FormatStep(lib, done, g[j], isFirst, size);
      var p := lib.normalize(g[j]);
      var key := lib.format(p);
      if key in m {
        continue;
      }
      m := m + {key};
      out := out + [if isFirst then lib.format(p) + "*" else lib.format(p)];
    }
    assert g[..|g|] == g;
  }
}
