/**
 The two encodings that must not confuse their parts: idempotency keys (sdk/context.go,
 internal/idem/idem.go) and the bytes a derived random source is seeded from
 (internal/engine/rng.go).
 */
module Encoding {
  import opened Common
  import opened Validation

  newtype byte = x: int | 0 <= x < 256

  type Bytes = seq<byte>

  // ---------------------------------------------------------------- UUID text

  function HexDigit(n: int): char
    requires 0 <= n < 16
  {
    if n < 10 then '0' + n as char else 'a' + (n - 10) as char
  }

  function HexByte(b: byte): string {
    [HexDigit(b as int / 16), HexDigit(b as int % 16)]
  }

  function HexText(bytes: Bytes): string {
    if bytes == [] then "" else HexByte(bytes[0]) + HexText(bytes[1..])
  }

  /** The text form of section 4 of RFC 9562: 8-4-4-4-12 lower-case digits. */
  function UuidText(u: Bytes): string
    requires |u| == 16
  {
    HexText(u[..4]) + "-" + HexText(u[4..6]) + "-" + HexText(u[6..8]) + "-" + HexText(u[8..10]) + "-" + HexText(u[10..])
  }

  lemma HexByteInjective(a: byte, b: byte)
    requires HexByte(a) == HexByte(b)
    ensures a == b
  {
    assert HexByte(a)[0] == HexByte(b)[0] && HexByte(a)[1] == HexByte(b)[1];
    assert a as int == a as int / 16 * 16 + a as int % 16;
    assert b as int == b as int / 16 * 16 + b as int % 16;
  }

  lemma {:induction false} HexLength(bytes: Bytes)
    ensures |HexText(bytes)| == 2 * |bytes|
  {
    if bytes != [] { HexLength(bytes[1..]); }
  }

  lemma {:induction false} HexInjective(a: Bytes, b: Bytes)
    requires |a| == |b| && HexText(a) == HexText(b)
    ensures a == b
  {
    if a != [] {
      assert HexText(a)[..2] == HexByte(a[0]) && HexText(b)[..2] == HexByte(b[0]);
      assert HexText(a)[2..] == HexText(a[1..]) && HexText(b)[2..] == HexText(b[1..]);
      HexByteInjective(a[0], b[0]);
      HexInjective(a[1..], b[1..]);
      assert a == [a[0]] + a[1..] && b == [b[0]] + b[1..];
    }
  }

  lemma UuidTextInjective(a: Bytes, b: Bytes)
    requires |a| == |b| == 16
    ensures |UuidText(a)| == 36
    ensures UuidText(a) == UuidText(b) ==> a == b
  {
    hide HexText;
    HexLength(a[..4]); HexLength(a[4..6]); HexLength(a[6..8]); HexLength(a[8..10]); HexLength(a[10..]);
    HexLength(b[..4]); HexLength(b[4..6]); HexLength(b[6..8]); HexLength(b[8..10]); HexLength(b[10..]);
    if UuidText(a) == UuidText(b) {
      var s, t := UuidText(a), UuidText(b);
      assert HexText(a[..4]) == s[..8] == t[..8] == HexText(b[..4]);
      assert HexText(a[4..6]) == s[9..13] == t[9..13] == HexText(b[4..6]);
      assert HexText(a[6..8]) == s[14..18] == t[14..18] == HexText(b[6..8]);
      assert HexText(a[8..10]) == s[19..23] == t[19..23] == HexText(b[8..10]);
      assert HexText(a[10..]) == s[24..] == t[24..] == HexText(b[10..]);
      HexInjective(a[..4], b[..4]);
      HexInjective(a[4..6], b[4..6]);
      HexInjective(a[6..8], b[6..8]);
      HexInjective(a[8..10], b[8..10]);
      HexInjective(a[10..], b[10..]);
      assert a == a[..4] + a[4..6] + a[6..8] + a[8..10] + a[10..];
      assert b == b[..4] + b[4..6] + b[6..8] + b[8..10] + b[10..];
    }
  }

  // ---------------------------------------------------------------- idempotency keys

  function IdempotencyKey(run: Bytes, task: Name, op: string): string
    requires |run| == 16
  {
    UuidText(run) + ":" + task + ":" + op
  }

  /** Where a string without ':' is followed by ':', that is the first one. */
  lemma {:induction false} FirstColon(a: string, b: string, x: string, y: string)
    requires ':' !in a && ':' !in b && a + ":" + x == b + ":" + y
    ensures a == b && x == y
  {
    var s, t := a + ":" + x, b + ":" + y;
    assert s[|a|] == ':' && forall i :: 0 <= i < |a| ==> s[i] == a[i] != ':';
    assert t[|b|] == ':' && forall i :: 0 <= i < |b| ==> t[i] == b[i] != ':';
    assert |a| == |b|;
    assert s[..|a|] == a && t[..|b|] == b && s[|a| + 1..] == x && t[|b| + 1..] == y;
  }

  lemma ValidNameHasNoColon(name: Name)
    requires ValidName(name)
    ensures ':' !in name
  {
    assert forall i :: 0 <= i < |name| ==> NameChar(name[i]);
  }

  /** Distinct operations of distinct tasks of distinct runs never share a key, whatever `op` holds. */
  lemma KeyInjective(run: Bytes, task: Name, op: string, run': Bytes, task': Name, op': string)
    requires |run| == |run'| == 16 && ValidName(task) && ValidName(task')
    requires IdempotencyKey(run, task, op) == IdempotencyKey(run', task', op')
    ensures run == run' && task == task' && op == op'
  {
    hide UuidText, ValidName;
    UuidTextInjective(run, run');
    UuidTextInjective(run', run);
    var k, k' := IdempotencyKey(run, task, op), IdempotencyKey(run', task', op');
    assert k[..36] == UuidText(run) && k'[..36] == UuidText(run');
    assert k[37..] == task + ":" + op && k'[37..] == task' + ":" + op';
    ValidNameHasNoColon(task);
    ValidNameHasNoColon(task');
    FirstColon(task, task', op, op');
  }

  /** The validator's name rule is what this rests on: with a colon in a name, keys collide. */
  lemma ColonCollides(run: Bytes)
    requires |run| == 16
    ensures IdempotencyKey(run, "a:b", "c") == IdempotencyKey(run, "a", "b:c") && !ValidName("a:b")
  {
    hide UuidText;
    assert "a:b" + ":" + "c" == "a" + ":" + "b:c";
    assert UuidText(run) + ":" + "a:b" + ":" + "c" == UuidText(run) + ":" + ("a:b" + ":" + "c");
    assert UuidText(run) + ":" + "a" + ":" + "b:c" == UuidText(run) + ":" + ("a" + ":" + "b:c");
    assert !NameChar("a:b"[1]);
  }

  // ---------------------------------------------------------------- derived draws

  const TWO_32 := 0x1_0000_0000
  const TWO_63 := 0x8000_0000_0000_0000
  const TWO_64 := 0x1_0000_0000_0000_0000

  /** The low `width` bytes of `n`, most significant first. */
  function BigEndian(n: nat, width: nat): (out: Bytes)
    ensures |out| == width
    decreases width
  {
    if width == 0 then [] else BigEndian(n / 256, width - 1) + [(n % 256) as byte]
  }

  function FromBigEndian(bytes: Bytes): nat {
    if bytes == [] then 0
    else FromBigEndian(bytes[..|bytes| - 1]) * 256 + bytes[|bytes| - 1] as int
  }

  function Pow256(width: nat): nat {
    if width == 0 then 1 else 256 * Pow256(width - 1)
  }

  lemma {:induction false} BigEndianRoundTrip(n: nat, width: nat)
    requires n < Pow256(width)
    ensures FromBigEndian(BigEndian(n, width)) == n
  {
    if width > 0 {
      BigEndianRoundTrip(n / 256, width - 1);
      assert BigEndian(n, width)[..width - 1] == BigEndian(n / 256, width - 1);
    }
  }

  lemma {:induction false} FromBigEndianBound(bytes: Bytes)
    ensures FromBigEndian(bytes) < Pow256(|bytes|)
  {
    if bytes != [] { FromBigEndianBound(bytes[..|bytes| - 1]); }
  }

  lemma Powers()
    ensures Pow256(4) == TWO_32 && Pow256(8) == TWO_64
  {
    assert Pow256(1) == 256 * Pow256(0) && Pow256(2) == 256 * Pow256(1);
    assert Pow256(3) == 256 * Pow256(2) && Pow256(4) == 256 * Pow256(3);
    assert Pow256(5) == 256 * Pow256(4) && Pow256(6) == 256 * Pow256(5);
    assert Pow256(7) == 256 * Pow256(6) && Pow256(8) == 256 * Pow256(7);
  }

  predicate IsInt64(seed: int) {
    -TWO_63 <= seed < TWO_63
  }

  /** Two's complement, as the conversion to uint64 gives it. */
  function Unsigned(seed: int): nat
    requires IsInt64(seed)
  {
    if seed < 0 then seed + TWO_64 else seed
  }

  /** Each part after its length; the length wraps at 32 bits. */
  function EncodeParts(parts: seq<Bytes>): Bytes {
    if parts == [] then []
    else BigEndian(|parts[0]| % TWO_32, 4) + parts[0] + EncodeParts(parts[1..])
  }

  function Encode(seed: int, parts: seq<Bytes>): Bytes
    requires IsInt64(seed)
  {
    BigEndian(Unsigned(seed), 8) + EncodeParts(parts)
  }

  /** What the loop writes into the hash. */
  method WriteDraw(seed: int, parts: seq<Bytes>) returns (written: Bytes)
    requires IsInt64(seed)
    ensures written == Encode(seed, parts)
  {
    hide BigEndian;
    written := BigEndian(Unsigned(seed), 8);
    for i := 0 to |parts|
      invariant written + EncodeParts(parts[i..]) == Encode(seed, parts)
    {
      assert parts[i..][0] == parts[i] && parts[i..][1..] == parts[i + 1..];
      var more := BigEndian(|parts[i]| % TWO_32, 4) + parts[i];
      assert written + (more + EncodeParts(parts[i + 1..])) == written + more + EncodeParts(parts[i + 1..]);
      written := written + more;
    }
    assert written + EncodeParts([]) == written;
  }

  function DecodeParts(bytes: Bytes): Option<seq<Bytes>>
    decreases |bytes|
  {
    if bytes == [] then Some([])
    else if |bytes| < 4 then None
    else
      var n := FromBigEndian(bytes[..4]);
      if |bytes| < 4 + n then None
      else
        match DecodeParts(bytes[4 + n..])
        case None => None
        case Some(rest) => Some([bytes[4..4 + n]] + rest)
  }

  function Decode(bytes: Bytes): Option<(int, seq<Bytes>)> {
    if |bytes| < 8 then None
    else
      var u := FromBigEndian(bytes[..8]);
      match DecodeParts(bytes[8..])
      case None => None
      case Some(parts) => Some((if u >= TWO_63 then u - TWO_64 else u, parts))
  }

  predicate Short(parts: seq<Bytes>) {
    forall i :: 0 <= i < |parts| ==> |parts[i]| < TWO_32
  }

  lemma DecodeOne(prefix: Bytes, part: Bytes, rest: Bytes)
    requires |prefix| == 4 && FromBigEndian(prefix) == |part|
    ensures DecodeParts(prefix + part + rest) ==
            match DecodeParts(rest) case None => None case Some(parts) => Some([part] + parts)
  {
    hide FromBigEndian;
    var bytes := prefix + part + rest;
    assert bytes[..4] == prefix;
    assert bytes[4..4 + |part|] == part && bytes[4 + |part|..] == rest;
  }

  lemma {:induction false} PartsRoundTrip(parts: seq<Bytes>)
    requires Short(parts)
    ensures DecodeParts(EncodeParts(parts)) == Some(parts)
  {
    hide BigEndian, FromBigEndian;
    if parts != [] {
      var part, rest := parts[0], parts[1..];
      Powers();
      BigEndianRoundTrip(|part|, 4);
      DecodeOne(BigEndian(|part|, 4), part, EncodeParts(rest));
      PartsRoundTrip(rest);
      assert parts == [part] + rest;
    }
  }

  /** Nothing the decoder returns is longer than a length prefix can say. */
  lemma {:induction false} DecodedPartsAreShort(bytes: Bytes)
    ensures DecodeParts(bytes).Some? ==> Short(DecodeParts(bytes).value)
    decreases |bytes|
  {
    if |bytes| >= 4 {
      var n := FromBigEndian(bytes[..4]);
      Powers();
      FromBigEndianBound(bytes[..4]);
      if |bytes| >= 4 + n { DecodedPartsAreShort(bytes[4 + n..]); }
    }
  }

  /** The bytes hashed determine seed and parts exactly when every part is shorter than 2^32. */
  lemma {:induction false} DrawRoundTrip(seed: int, parts: seq<Bytes>)
    requires IsInt64(seed)
    ensures Decode(Encode(seed, parts)) == Some((seed, parts)) <==> Short(parts)
  {
    hide BigEndian, FromBigEndian, EncodeParts, DecodeParts;
    var bytes := Encode(seed, parts);
    assert bytes[..8] == BigEndian(Unsigned(seed), 8) && bytes[8..] == EncodeParts(parts);
    Powers();
    BigEndianRoundTrip(Unsigned(seed), 8);
    if Short(parts) { PartsRoundTrip(parts); }
    DecodedPartsAreShort(bytes[8..]);
  }

  /** So two draws with short parts are seeded alike only if they are the same draw. */
  lemma DrawsDistinct(seed: int, parts: seq<Bytes>, seed': int, parts': seq<Bytes>)
    requires IsInt64(seed) && IsInt64(seed') && Short(parts) && Short(parts')
    requires Encode(seed, parts) == Encode(seed', parts')
    ensures seed == seed' && parts == parts'
  {
    hide Encode, Decode;
    DrawRoundTrip(seed, parts);
    DrawRoundTrip(seed', parts');
  }

  function Zeros(n: nat): Bytes {
    seq(n, _ => 0)
  }

  lemma {:induction false} EmptyPartsAreZeros(k: nat)
    ensures EncodeParts(seq(k, _ => [])) == Zeros(4 * k)
  {
    hide BigEndian;
    var parts: seq<Bytes> := seq(k, _ => []);
    if k > 0 {
      var rest: seq<Bytes> := seq(k - 1, _ => []);
      assert parts[1..] == rest;
      EmptyPartsAreZeros(k - 1);
      ZeroPrefix();
      assert EncodeParts(parts) == Zeros(4) + [] + EncodeParts(rest);
      assert Zeros(4) + Zeros(4 * (k - 1)) == Zeros(4 * k);
    }
  }

  lemma ZeroPrefix()
    ensures BigEndian(0, 4) == Zeros(4)
  {
    assert BigEndian(0, 1) == BigEndian(0, 0) + [0];
    assert BigEndian(0, 2) == BigEndian(0, 1) + [0];
    assert BigEndian(0, 3) == BigEndian(0, 2) + [0];
    assert BigEndian(0, 4) == BigEndian(0, 3) + [0];
  }

  /** At 2^32 the length wraps: one part of that many zero bytes reads as a run of empty parts. */
  lemma LongPartsCollide(seed: int)
    requires IsInt64(seed)
    ensures Encode(seed, [Zeros(TWO_32)]) == Encode(seed, seq(TWO_32 / 4 + 1, _ => []))
  {
    hide BigEndian;
    EmptyPartsAreZeros(TWO_32 / 4 + 1);
    ZeroPrefix();
    var one := [Zeros(TWO_32)];
    assert one[1..] == [] && EncodeParts([]) == [];
    assert EncodeParts(one) == BigEndian(0, 4) + Zeros(TWO_32) + [];
    assert Zeros(4) + Zeros(TWO_32) == Zeros(TWO_32 + 4);
  }
}
