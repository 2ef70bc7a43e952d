/**
 * Decoding of the `auth` entry of a registry secret (authprovider.go): base64 of "user:password".
 * Base64 follows section 4 of RFC 4648; line breaks in the input are ignored, as Go's decoder does.
 */
module CredentialDecoding {
  import opened Text

  type Byte = b: int | 0 <= b < 256

  const NUL: Byte := 0
  const LF: Byte := 10
  const CR: Byte := 13
  const COLON: Byte := 58
  const PAD: Byte := 61

  datatype Credentials = Credentials(user: seq<Byte>, password: seq<Byte>)
  datatype DecodeError = CorruptInput | InvalidAuthFile
  datatype Result<+T> = Ok(value: T) | Err(error: DecodeError)

  // ----- the alphabet

  function Symbol(v: int): Byte
    requires 0 <= v < 64
  {
    if v < 26 then 65 + v
    else if v < 52 then 71 + v
    else if v < 62 then v - 4
    else if v == 62 then 43
    else 47
  }

  /** The value of an alphabet symbol; 64 for any other byte. */
  function ValueOf(b: Byte): (v: int)
    ensures 0 <= v <= 64
    ensures v < 64 ==> Symbol(v) == b
  {
    var v :=
      if 65 <= b <= 90 then b - 65
      else if 97 <= b <= 122 then b - 71
      else if 48 <= b <= 57 then b + 4
      else if b == 43 then 62
      else if b == 47 then 63
      else 64;
    assert v < 64 ==> Symbol(v) == b;
    v
  }

  predicate IsLineBreak(b: Byte) {
    b == LF || b == CR
  }

  function WithoutLineBreaks(s: seq<Byte>): (t: seq<Byte>)
    ensures |t| <= |s|
    ensures forall i :: 0 <= i < |t| ==> !IsLineBreak(t[i])
  {
    if s == [] then []
    else if IsLineBreak(s[0]) then WithoutLineBreaks(s[1..])
    else [s[0]] + WithoutLineBreaks(s[1..])
  }

  // ----- the encoder of RFC 4648 and the decoder's specification

  function Encode(d: seq<Byte>): (s: seq<Byte>) {
    if |d| == 0 then []
    else if |d| == 1 then EncodeOne(d[0])
    else if |d| == 2 then EncodeTwo(d[0], d[1])
    else EncodeThree(d[0], d[1], d[2]) + Encode(d[3..])
  }

  function EncodeOne(x: Byte): seq<Byte> {
    [Symbol(x / 4), Symbol(x % 4 * 16), PAD, PAD]
  }

  function EncodeTwo(x: Byte, y: Byte): seq<Byte> {
    [Symbol(x / 4), Symbol(x % 4 * 16 + y / 16), Symbol(y % 16 * 4), PAD]
  }

  function EncodeThree(x: Byte, y: Byte, z: Byte): seq<Byte> {
    [Symbol(x / 4), Symbol(x % 4 * 16 + y / 16), Symbol(y % 16 * 4 + z / 64), Symbol(z % 64)]
  }

  function Byte0(a: Byte, b: Byte): Byte
    requires ValueOf(a) < 64 && ValueOf(b) < 64
  {
    ValueOf(a) * 4 + ValueOf(b) / 16
  }

  function Byte1(b: Byte, c: Byte): Byte
    requires ValueOf(b) < 64 && ValueOf(c) < 64
  {
    ValueOf(b) % 16 * 16 + ValueOf(c) / 4
  }

  function Byte2(c: Byte, d: Byte): Byte
    requires ValueOf(c) < 64 && ValueOf(d) < 64
  {
    ValueOf(c) % 4 * 64 + ValueOf(d)
  }

  /** What a non-strict decoder makes of input without line breaks; None when the input is corrupt. */
  function Decoded(s: seq<Byte>): (r: Option<seq<Byte>>)
    ensures r.Some? ==> |s| % 4 == 0 && |r.value| <= |s| / 4 * 3
  {
    if |s| == 0 then Some([])
    else if |s| < 4 || ValueOf(s[0]) == 64 || ValueOf(s[1]) == 64 then None
    else if s[2] == PAD then
      if s[3] == PAD && |s| == 4 then Some([Byte0(s[0], s[1])]) else None
    else if ValueOf(s[2]) == 64 then None
    else if s[3] == PAD then
      if |s| == 4 then Some([Byte0(s[0], s[1]), Byte1(s[1], s[2])]) else None
    else if ValueOf(s[3]) == 64 then None
    else
      match Decoded(s[4..])
      case None => None
      case Some(rest) => Some([Byte0(s[0], s[1]), Byte1(s[1], s[2]), Byte2(s[2], s[3])] + rest)
  }

  lemma SymbolValues(v: int)
    requires 0 <= v < 64
    ensures ValueOf(Symbol(v)) == v && Symbol(v) != PAD
  {
  }

  /** Three bytes as four six-bit values and back. */
  lemma SixBitValues(x: Byte, y: Byte, z: Byte)
    ensures 0 <= x / 4 < 64 && 0 <= x % 4 * 16 + y / 16 < 64 && 0 <= y % 16 * 4 + z / 64 < 64 && 0 <= z % 64 < 64
    ensures x / 4 * 4 + (x % 4 * 16 + y / 16) / 16 == x
    ensures (x % 4 * 16 + y / 16) % 16 * 16 + (y % 16 * 4 + z / 64) / 4 == y
    ensures (y % 16 * 4 + z / 64) % 4 * 64 + z % 64 == z
  {
    assert (x % 4 * 16 + y / 16) / 16 == x % 4 && (x % 4 * 16 + y / 16) % 16 == y / 16;
    assert (y % 16 * 4 + z / 64) / 4 == y % 16 && (y % 16 * 4 + z / 64) % 4 == z / 64;
  }

  function Prepend(bytes: seq<Byte>, r: Option<seq<Byte>>): Option<seq<Byte>> {
    if r.None? then None else Some(bytes + r.value)
  }

  lemma PrependTwice(first: seq<Byte>, second: seq<Byte>, r: Option<seq<Byte>>)
    ensures Prepend(first, Prepend(second, r)) == Prepend(first + second, r)
    ensures Prepend([], r) == r
  {
    if r.Some? {
      assert first + (second + r.value) == first + second + r.value;
      assert [] + r.value == r.value;
    }
  }

  lemma GroupDecodes(a: Byte, b: Byte, c: Byte, d: Byte, rest: seq<Byte>)
    requires ValueOf(a) < 64 && ValueOf(b) < 64
    ensures
      Decoded([a, b, c, d] + rest) ==
        if c == PAD then if d == PAD && rest == [] then Some([Byte0(a, b)]) else None
        else if ValueOf(c) == 64 then None
        else if d == PAD then if rest == [] then Some([Byte0(a, b), Byte1(b, c)]) else None
        else if ValueOf(d) == 64 then None
        else Prepend([Byte0(a, b), Byte1(b, c), Byte2(c, d)], Decoded(rest))
  {
    assert ([a, b, c, d] + rest)[4..] == rest;
  }

  /** Four symbols that stand for three bytes. */
  predicate Encodes3(s: seq<Byte>, x: Byte, y: Byte, z: Byte) {
    && |s| == 4 && s[2] != PAD && s[3] != PAD
    && ValueOf(s[0]) < 64 && ValueOf(s[1]) < 64 && ValueOf(s[2]) < 64 && ValueOf(s[3]) < 64
    && Byte0(s[0], s[1]) == x && Byte1(s[1], s[2]) == y && Byte2(s[2], s[3]) == z
  }

  lemma ValuesEncode(s: seq<Byte>, a: int, b: int, c: int, d: int, x: Byte, y: Byte, z: Byte)
    requires |s| == 4 && s[2] != PAD && s[3] != PAD
    requires ValueOf(s[0]) == a < 64 && ValueOf(s[1]) == b < 64 && ValueOf(s[2]) == c < 64 && ValueOf(s[3]) == d < 64
    requires a * 4 + b / 16 == x && b % 16 * 16 + c / 4 == y && c % 4 * 64 + d == z
    ensures Encodes3(s, x, y, z)
  {
  }

  lemma EncodeThreeEncodes(x: Byte, y: Byte, z: Byte)
    ensures Encodes3(EncodeThree(x, y, z), x, y, z)
  {
    var a, b, c, d := x / 4, x % 4 * 16 + y / 16, y % 16 * 4 + z / 64, z % 64;
    SixBitValues(x, y, z);
    SymbolValues(a);
    SymbolValues(b);
    SymbolValues(c);
    SymbolValues(d);
    ValuesEncode(EncodeThree(x, y, z), a, b, c, d, x, y, z);
  }

  /** A short group says what the full one with zero bytes says, and pads the rest. */
  lemma ShortGroupDecodes(s: seq<Byte>, t: seq<Byte>, x: Byte, y: Byte)
    requires Encodes3(t, x, y, 0) && |s| == 4 && s[3] == PAD && s[0] == t[0] && s[1] == t[1]
    requires s[2] == t[2] || s[2] == PAD
    ensures Decoded(s) == Some(if s[2] == PAD then [x] else [x, y])
  {
    GroupDecodes(s[0], s[1], s[2], s[3], []);
    assert s == [s[0], s[1], s[2], s[3]] + [];
  }

  lemma FullGroupDecodes(s: seq<Byte>, x: Byte, y: Byte, z: Byte, rest: seq<Byte>)
    requires Encodes3(s, x, y, z)
    ensures Decoded(s + rest) == Prepend([x, y, z], Decoded(rest))
  {
    GroupDecodes(s[0], s[1], s[2], s[3], rest);
    assert s == [s[0], s[1], s[2], s[3]];
  }

  lemma ShortTextDecodes(d: seq<Byte>)
    requires 1 <= |d| <= 2
    ensures Decoded(Encode(d)) == Some(d)
  {
    var y: Byte := if |d| == 2 then d[1] else 0;
    EncodeThreeEncodes(d[0], y, 0);
    ShortGroupDecodes(Encode(d), EncodeThree(d[0], y, 0), d[0], y);
    assert d == if |d| == 1 then [d[0]] else [d[0], y];
  }

  lemma {:induction false} DecodeInvertsEncode(d: seq<Byte>)
    ensures Decoded(Encode(d)) == Some(d)
  {
    if |d| > 2 {
      DecodeInvertsEncode(d[3..]);
      EncodeThreeEncodes(d[0], d[1], d[2]);
      FullGroupDecodes(EncodeThree(d[0], d[1], d[2]), d[0], d[1], d[2], Encode(d[3..]));
      assert d == [d[0], d[1], d[2]] + d[3..];
    } else if |d| > 0 {
      ShortTextDecodes(d);
    }
  }

  /** The alphabet of RFC 4648, table 1, and the pad. */
  lemma AlphabetIsStandard(v: int)
    requires 0 <= v < 64
    ensures v < 26 ==> Symbol(v) == 'A' as int + v
    ensures 26 <= v < 52 ==> Symbol(v) == 'a' as int + (v - 26)
    ensures 52 <= v < 62 ==> Symbol(v) == '0' as int + (v - 52)
    ensures v == 62 ==> Symbol(v) == '+' as int
    ensures v == 63 ==> Symbol(v) == '/' as int
    ensures PAD == '=' as int && COLON == ':' as int && LF == '\n' as int && CR == '\r' as int
  {
  }

  /** Line breaks are dropped, and nothing else. */
  lemma {:induction false} OnlyLineBreaksAreDropped(s: seq<Byte>, b: Byte)
    ensures multiset(WithoutLineBreaks(s))[b] ==
      if b == '\n' as int || b == '\r' as int then 0 else multiset(s)[b]
  {
    if s != [] {
      OnlyLineBreaksAreDropped(s[1..], b);
      assert s == [s[0]] + s[1..];
    }
  }

  /** How many of the last symbols are padding. */
  function Padding(s: seq<Byte>): nat {
    if |s| < 4 || s[|s| - 1] != PAD then 0 else if s[|s| - 2] != PAD then 1 else 2
  }

  predicate InAlphabet(b: Byte) {
    exists v :: 0 <= v < 64 && Symbol(v) == b
  }

  lemma InAlphabetHasValue(b: Byte)
    ensures InAlphabet(b) <==> ValueOf(b) < 64
    ensures !InAlphabet(PAD)
  {
    if v :| 0 <= v < 64 && Symbol(v) == b {
      SymbolValues(v);
    }
    if v :| 0 <= v < 64 && Symbol(v) == PAD {
      SymbolValues(v);
    }
    if ValueOf(b) < 64 {
      assert Symbol(ValueOf(b)) == b;
    }
  }

  /** Whether all symbols but the padding have a value. */
  predicate HasValues(s: seq<Byte>) {
    forall i :: 0 <= i < |s| - Padding(s) ==> ValueOf(s[i]) < 64
  }

  lemma PadHasNoValue()
    ensures ValueOf(PAD) == 64
  {
  }

  lemma ShortDecodesExactly(s: seq<Byte>)
    requires |s| <= 4
    ensures Decoded(s).Some? <==> |s| % 4 == 0 && HasValues(s)
  {
    hide ValueOf;
    PadHasNoValue();
    if |s| == 4 {
      assert s[4..] == [] && Decoded([]) == Some([]);
    }
  }

  lemma {:induction false} DecodesExactlyWithValues(s: seq<Byte>)
    ensures Decoded(s).Some? <==> |s| % 4 == 0 && HasValues(s)
  {
    hide ValueOf;
    if |s| <= 4 {
      ShortDecodesExactly(s);
    } else {
      PadHasNoValue();
      var rest := s[4..];
      DecodesExactlyWithValues(rest);
      if |rest| >= 4 {
        assert Padding(rest) == Padding(s);
        assert forall i :: 4 <= i < |s| ==> s[i] == rest[i - 4];
        ValuesOfGroups(s);
      }
    }
  }

  lemma ValuesOfGroups(s: seq<Byte>)
    requires |s| >= 8
    ensures HasValues(s) <==>
      ValueOf(s[0]) < 64 && ValueOf(s[1]) < 64 && ValueOf(s[2]) < 64 && ValueOf(s[3]) < 64 && HasValues(s[4..])
  {
    hide ValueOf;
    var rest := s[4..];
    assert Padding(rest) == Padding(s);
    assert forall i :: 4 <= i < |s| ==> s[i] == rest[i - 4];
    assert forall i :: 0 <= i < |rest| ==> rest[i] == s[i + 4];
  }

  /** What can be decoded: whole groups of symbols of the alphabet, but for one or two pads at the very end. */
  lemma DecodesExactlyPaddedGroups(s: seq<Byte>)
    ensures Decoded(s).Some? <==> |s| % 4 == 0 && forall i :: 0 <= i < |s| - Padding(s) ==> InAlphabet(s[i])
  {
    hide Decoded, ValueOf, InAlphabet;
    DecodesExactlyWithValues(s);
    forall i | 0 <= i < |s|
      ensures InAlphabet(s[i]) <==> ValueOf(s[i]) < 64
    {
      InAlphabetHasValue(s[i]);
    }
  }

  // ----- decoding into a buffer, one group of four symbols at a time

  method NextSymbol(src: seq<Byte>, start: nat) returns (next: nat, found: bool, symbol: Byte)
    requires start <= |src|
    ensures start <= next <= |src|
    ensures !found ==> next == |src| && WithoutLineBreaks(src[start..]) == []
    ensures found ==> start < next && WithoutLineBreaks(src[start..]) == [symbol] + WithoutLineBreaks(src[next..])
  {
    next, found, symbol := start, false, 0;
    while next < |src|
      invariant start <= next <= |src|
      invariant WithoutLineBreaks(src[start..]) == WithoutLineBreaks(src[next..])
    {
      assert src[next..][1..] == src[next + 1..];
      if !IsLineBreak(src[next]) {
        symbol := src[next];
        next, found := next + 1, true;
        return;
      }
      next := next + 1;
    }
  }

  /** What decoding the input from `start` on gives. */
  function Pending(src: seq<Byte>, start: nat): Option<seq<Byte>>
    requires start <= |src|
  {
    Decoded(WithoutLineBreaks(src[start..]))
  }

  /** Reads up to four symbols; `group` is short only at the end of the input. */
  method ReadGroup(src: seq<Byte>, start: nat) returns (next: nat, group: seq<Byte>)
    requires start <= |src|
    ensures start + |group| <= next <= |src|
    ensures |group| <= 4 && (|group| < 4 ==> next == |src|)
    ensures WithoutLineBreaks(src[start..]) == group + WithoutLineBreaks(src[next..])
  {
    next, group := start, [];
    for j := 0 to 4
      invariant |group| == j && start + j <= next <= |src|
      invariant WithoutLineBreaks(src[start..]) == group + WithoutLineBreaks(src[next..])
    {
      var found, symbol;
      next, found, symbol := NextSymbol(src, next);
      if !found {
        assert src[next..] == [];
        return;
      }
      group := group + [symbol];
    }
  }

  /** The bytes of a full group; padding is legal only in the last one. */
  function GroupBytes(group: seq<Byte>, isLast: bool): (r: Option<seq<Byte>>)
    requires |group| == 4
    ensures r.Some? ==> |r.value| <= 3
  {
    var a, b, c, d := group[0], group[1], group[2], group[3];
    if ValueOf(a) == 64 || ValueOf(b) == 64 then None
    else if d == PAD && (!isLast || (c != PAD && ValueOf(c) == 64)) then None
    else if d == PAD then Some(if c == PAD then [Byte0(a, b)] else [Byte0(a, b), Byte1(b, c)])
    else if ValueOf(c) == 64 || ValueOf(d) == 64 then None
    else Some([Byte0(a, b), Byte1(b, c), Byte2(c, d)])
  }

  lemma GroupBytesDecode(group: seq<Byte>, rest: seq<Byte>)
    requires |group| == 4
    ensures
      var r := GroupBytes(group, rest == []);
      Decoded(group + rest) == if r.None? then None else Prepend(r.value, Decoded(rest))
  {
    var a, b, c, d := group[0], group[1], group[2], group[3];
    assert group == [a, b, c, d];
    if ValueOf(a) < 64 && ValueOf(b) < 64 {
      GroupDecodes(a, b, c, d, rest);
      var r := GroupBytes(group, rest == []);
      if r.Some? {
        assert r.value + [] == r.value;
      }
    }
  }

  /** One call of the decoder's inner step: reads one group from `start` and writes its bytes at dst[n..]. */
  method DecodeQuantum(dst: array<Byte>, n: nat, src: seq<Byte>, start: nat) returns (next: nat, written: nat, ok: bool)
    requires start < |src|
    requires n + (|src| - start) / 4 * 3 <= dst.Length
    modifies dst
    ensures ok ==> start < next <= |src|
    ensures ok ==> n + written + (|src| - next) / 4 * 3 <= dst.Length
    ensures ok ==> dst[..n] == old(dst[..n])
    ensures ok ==> dst[n + written..] == old(dst[n + written..])
    ensures !ok ==> Pending(src, start) == None
    ensures ok ==> Pending(src, start) == Prepend(dst[n..n + written], Pending(src, next))
  {
    hide Decoded, WithoutLineBreaks, GroupBytes;
    var group, last, trailing, symbol;
    next, group := ReadGroup(src, start);
    written, ok := 0, group == [];
    if |group| < 4 {
      assert dst[n..n] == [];
      PrependTwice([], [], Pending(src, next));
      return;
    }
    last, trailing, symbol := NextSymbol(src, next);
    var bytes := GroupBytes(group, !trailing);
    GroupBytesDecode(group, WithoutLineBreaks(src[next..]));
    if bytes.None? {
      return;
    }
    ok := true;
    written := WriteGroup(dst, n, bytes.value);
  }

  method WriteGroup(dst: array<Byte>, n: nat, bytes: seq<Byte>) returns (written: nat)
    requires |bytes| <= 3
    requires n + |bytes| <= dst.Length
    modifies dst
    ensures written == |bytes|
    ensures dst[..n] == old(dst[..n])
    ensures dst[n..n + written] == bytes
    ensures dst[n + written..] == old(dst[n + written..])
  {
    written := 0;
    while written < |bytes|
      invariant written <= |bytes|
      invariant dst[..n] == old(dst[..n])
      invariant dst[n..n + written] == bytes[..written]
      invariant dst[n + written..] == old(dst[n + written..])
    {
      dst[n + written] := bytes[written];
      written := written + 1;
    }
  }

  /** base64.StdEncoding.Decode: fills a prefix of `dst` and leaves the rest of it alone. */
  method DecodeInto(dst: array<Byte>, src: seq<Byte>) returns (n: nat, ok: bool)
    requires dst.Length == |src| / 4 * 3
    modifies dst
    ensures ok <==> Decoded(WithoutLineBreaks(src)).Some?
    ensures ok ==> n <= dst.Length
    ensures ok ==> dst[..n] == Decoded(WithoutLineBreaks(src)).value
    ensures ok ==> dst[n..] == old(dst[n..])
  {
    hide Decoded;
    NothingPends(src);
    var next := 0;
    n, ok := 0, true;
    ghost var done, was := [], dst[..];
    assert src[0..] == src;
    PrependTwice([], [], Pending(src, 0));
    while next < |src|
      invariant next <= |src|
      invariant n + (|src| - next) / 4 * 3 <= dst.Length
      invariant dst[n..] == was[n..]
      invariant dst[..n] == done
      invariant Pending(src, 0) == Prepend(done, Pending(src, next))
      decreases |src| - next
    {
      var written;
      next, written, ok := DecodeQuantum(dst, n, src, next);
      if !ok {
        return;
      }
      PrependTwice(done, dst[n..n + written], Pending(src, next));
      done := done + dst[n..n + written];
      SlicesAfter(dst[..], n, written);
      SlicesAfter(was, n, written);
      n := n + written;
    }
    assert src[next..] == [];
    assert done + [] == done;
  }

  lemma NothingPends(src: seq<Byte>)
    ensures Pending(src, |src|) == Some([])
  {
    assert src[|src|..] == [];
  }

  lemma SlicesAfter(s: seq<Byte>, n: nat, written: nat)
    requires n + written <= |s|
    ensures s[..n + written] == s[..n] + s[n..n + written]
    ensures s[n + written..] == s[n..][written..]
  {
  }

  // ----- decodeAuth

  function Zeros(n: nat): (z: seq<Byte>)
    ensures |z| == n
    ensures forall i :: 0 <= i < n ==> z[i] == NUL
  {
    seq(n, _ => NUL)
  }

  /** strings.Trim with the cutset "\x00". */
  function TrimNul(s: seq<Byte>): seq<Byte>
    decreases |s|
  {
    if s == [] then []
    else if s[0] == NUL then TrimNul(s[1..])
    else if s[|s| - 1] == NUL then TrimNul(s[..|s| - 1])
    else s
  }

  /** Cuts at the first colon. */
  function SplitCredentials(buffer: seq<Byte>): Result<Credentials> {
    var colon := IndexOf(buffer, COLON);
    if colon == |buffer| then Err(InvalidAuthFile)
    else Ok(Credentials(buffer[..colon], TrimNul(buffer[colon + 1..])))
  }

  /** What decodeAuth returns; the decoded text sits in a zeroed buffer of three bytes for every four input bytes. */
  function DecodeAuthSpec(auth: seq<Byte>): Result<Credentials> {
    if auth == [] then Ok(Credentials([], []))
    else
      match Decoded(WithoutLineBreaks(auth))
      case None => Err(CorruptInput)
      case Some(text) =>
        var size := |auth| / 4 * 3;
        var buffer := text + Zeros(if size < |text| then 0 else size - |text|);
        SplitCredentials(buffer)
  }

  method DecodeAuth(auth: seq<Byte>) returns (r: Result<Credentials>)
    ensures r == DecodeAuthSpec(auth)
  {
    hide Decoded, TrimNul;
    if auth == [] {
      return Ok(Credentials([], []));
    }
    var size := |auth| / 4 * 3;
    var buffer := new Byte[size](_ => NUL);
    assert buffer[..] == Zeros(size);
    var n, ok := DecodeInto(buffer, auth);
    if !ok {
      return Err(CorruptInput);
    }
    assert buffer[n..] == Zeros(size - n);
    assert buffer[..] == buffer[..n] + buffer[n..];
    var colon := IndexOf(buffer[..], COLON);
    if colon == size {
      return Err(InvalidAuthFile);
    }
    return Ok(Credentials(buffer[..colon], TrimNul(buffer[colon + 1..])));
  }

  // ----- the round trip

  /** `auth` is the base64 text of user ":" password, with any line breaks added. */
  predicate Encodes(auth: seq<Byte>, user: seq<Byte>, password: seq<Byte>) {
    WithoutLineBreaks(auth) == Encode(user + [COLON] + password)
  }

  predicate HasNulEnd(password: seq<Byte>) {
    password != [] && (password[0] == NUL || password[|password| - 1] == NUL)
  }

  lemma {:induction false} TrimNulDropsOnlyZeros(s: seq<Byte>)
    ensures !HasNulEnd(TrimNul(s))
    ensures TrimNul(s) == s <==> !HasNulEnd(s)
    ensures |TrimNul(s)| <= |s|
    decreases |s|
  {
    if s != [] {
      if s[0] == NUL {
        TrimNulDropsOnlyZeros(s[1..]);
      } else if s[|s| - 1] == NUL {
        TrimNulDropsOnlyZeros(s[..|s| - 1]);
      }
    }
  }

  lemma {:induction false} TrimNulOfZeros(n: nat)
    ensures TrimNul(Zeros(n)) == []
  {
    if n > 0 {
      assert Zeros(n)[1..] == Zeros(n - 1);
      TrimNulOfZeros(n - 1);
    }
  }

  lemma {:induction false} TrimNulIgnoresPaddingZeros(s: seq<Byte>, n: nat)
    ensures TrimNul(s + Zeros(n)) == TrimNul(s)
    decreases |s| + n
  {
    var t := s + Zeros(n);
    if s == [] {
      assert t == Zeros(n);
      TrimNulOfZeros(n);
    } else if s[0] == NUL {
      assert t[1..] == s[1..] + Zeros(n);
      TrimNulIgnoresPaddingZeros(s[1..], n);
    } else if n > 0 {
      assert t[..|t| - 1] == s + Zeros(n - 1);
      TrimNulIgnoresPaddingZeros(s, n - 1);
    } else {
      assert t == s;
    }
  }

  lemma ColonSplits(buffer: seq<Byte>, user: seq<Byte>, tail: seq<Byte>)
    requires buffer == user + [COLON] + tail
    requires COLON !in user
    ensures SplitCredentials(buffer) == Ok(Credentials(user, TrimNul(tail)))
  {
    var i := IndexOf(buffer, COLON);
    assert forall k :: 0 <= k < |user| ==> buffer[k] == user[k];
    assert forall k :: 0 <= k < i ==> buffer[k] == buffer[..i][k] && buffer[k] != COLON;
    assert buffer[|user|] == COLON;
    assert buffer[..|user|] == user && buffer[|user| + 1..] == tail;
  }

  lemma PaddingNeverShows(user: seq<Byte>, password: seq<Byte>, zeros: nat)
    requires COLON !in user
    ensures SplitCredentials(user + [COLON] + password + Zeros(zeros)) == Ok(Credentials(user, TrimNul(password)))
  {
    var tail := password + Zeros(zeros);
    assert user + [COLON] + password + Zeros(zeros) == user + [COLON] + tail;
    ColonSplits(user + [COLON] + tail, user, tail);
    TrimNulIgnoresPaddingZeros(password, zeros);
  }

  /**
   * Whatever the pair, the zeros that over-allocation leaves behind never show: only NULs of the password itself
   * are lost.
   */
  lemma DecodeAuthOfEncoding(auth: seq<Byte>, user: seq<Byte>, password: seq<Byte>)
    requires Encodes(auth, user, password)
    requires COLON !in user
    ensures DecodeAuthSpec(auth) == Ok(Credentials(user, TrimNul(password)))
  {
    hide Decoded, SplitCredentials;
    var text := user + [COLON] + password;
    DecodeInvertsEncode(text);
    assert auth != [] by {
      assert |text| > 0;
    }
    PaddingNeverShows(user, password, |auth| / 4 * 3 - |text|);
  }

  /** What decodeAuth refuses: text that is not base64, and credentials without a colon. */
  lemma DecodeAuthFailsExactly(auth: seq<Byte>)
    ensures DecodeAuthSpec(auth) == Err(CorruptInput) <==> Decoded(WithoutLineBreaks(auth)).None?
    ensures DecodeAuthSpec(auth) == Err(InvalidAuthFile) <==>
      && auth != [] && Decoded(WithoutLineBreaks(auth)).Some?
      && ':' as int !in Decoded(WithoutLineBreaks(auth)).value
    ensures auth == [] ==> DecodeAuthSpec(auth) == Ok(Credentials([], []))
  {
    hide Decoded;
    if auth == [] {
      EmptyDecodes();
    } else if Decoded(WithoutLineBreaks(auth)).Some? {
      var text := Decoded(WithoutLineBreaks(auth)).value;
      var size := |auth| / 4 * 3;
      var buffer := text + Zeros(if size < |text| then 0 else size - |text|);
      assert COLON in buffer <==> COLON in text;
    }
  }

  lemma EmptyDecodes()
    ensures WithoutLineBreaks([]) == [] && Decoded([]) == Some([])
  {
  }

  /** The round trip holds exactly for a user-id without ':' and a password that neither starts nor ends with NUL. */
  lemma CredentialRoundTrip(auth: seq<Byte>, user: seq<Byte>, password: seq<Byte>)
    requires Encodes(auth, user, password)
    ensures DecodeAuthSpec(auth) == Ok(Credentials(user, password)) <==> COLON !in user && !HasNulEnd(password)
  {
    if COLON !in user {
      DecodeAuthOfEncoding(auth, user, password);
      TrimNulDropsOnlyZeros(password);
    } else {
      if DecodeAuthSpec(auth).Ok? {
        var text := Decoded(WithoutLineBreaks(auth)).value;
        var size := |auth| / 4 * 3;
        assert COLON !in DecodeAuthSpec(auth).value.user by {
          assert auth != [] || WithoutLineBreaks(auth) == [];
        }
      }
    }
  }
}
