/** Item heads of CBOR (section 3 of RFC 8949), definite lengths only: lib/cbor/teecbor.c. */
module CborHead {
  import opened Bytes

  datatype Error = OK | MALFORMED | NEED_DATA | NOT_SUPPORTED | NOT_MATCH | END_OF_CONTEXT | OVERFLOW

  function Major(header: byte): byte { header / 32 }

  function Info(header: byte): byte { header % 32 }

  predicate IsString(header: byte) { Major(header) == 2 || Major(header) == 3 }

  /** How many octets of argument follow an initial octet with additional information `ai`. */
  function ArgumentSize(ai: byte): nat
  {
    if ai == 24 then 1 else if ai == 25 then 2 else if ai == 26 then 4 else if ai == 27 then 8 else 0
  }

  /** What the reader makes of the unread octets: a head with its argument and the number of octets
      it takes, a string's payload included, or an error. */
  datatype HeadResult = Head(header: byte, value: u64, size: nat) | Failed(error: Error)

  function ReadHead(s: seq<byte>): (r: HeadResult)
    ensures r.Head? ==> 1 + ArgumentSize(Info(r.header)) <= r.size <= |s|
    ensures r.Head? ==> r.size == 1 + ArgumentSize(Info(r.header)) + if IsString(r.header) then r.value else 0
  {
    if s == [] then Failed(NEED_DATA) else
    var header := s[0];
    var ai := Info(header);
    if 28 <= ai <= 30 then Failed(MALFORMED)
    else if ai == 31 then Failed(NOT_SUPPORTED)
    else
      var n := ArgumentSize(ai);
      if |s| < 1 + n then Failed(NEED_DATA) else
      var value: u64 := if n == 0 then ai else (Powers(); BigEndian(s[1..1 + n]));
      if Major(header) == 7 && ai == 24 && value < 32 then Failed(MALFORMED)
      else if !IsString(header) then Head(header, value, 1 + n)
      else if |s| - (1 + n) < value then Failed(NEED_DATA)
      else Head(header, value, 1 + n + value)
  }

  /** A head depends only on the octets it takes: whatever follows them may be replaced. */
  lemma HeadLocality(s: seq<byte>, t: seq<byte>)
    requires ReadHead(s).Head?
    ensures ReadHead(s[..ReadHead(s).size] + t) == ReadHead(s)
  {
    var k := ReadHead(s).size;
    var n := ArgumentSize(Info(s[0]));
    assert (s[..k] + t)[1..1 + n] == s[1..1 + n];
  }

  /** Cut anywhere inside a head or its payload, the reader asks for more data. */
  lemma HeadPrefix(s: seq<byte>, j: nat)
    requires ReadHead(s).Head? && j < ReadHead(s).size
    ensures ReadHead(s[..j]) == Failed(NEED_DATA)
  {
    var n := ArgumentSize(Info(s[0]));
    if j >= 1 + n {
      assert s[..j][1..1 + n] == s[1..1 + n];
    }
  }

  /** The additional information of the preferred (shortest) head, section 4.1 of RFC 8949. */
  function PreferredInfo(v: u64): (ai: byte)
    ensures ai < 28
  {
    if v < 24 then v else if v < 0x100 then 24 else if v < 0x1_0000 then 25
    else if v < 0x1_0000_0000 then 26 else 27
  }

  /** The preferred head for major type `mt` and argument `v`. */
  function EncodeHead(mt: byte, v: u64): (s: seq<byte>)
    requires mt < 8
    ensures 1 <= |s| <= 9
  {
    var ai := PreferredInfo(v);
    [mt * 32 + ai] + ToBigEndian(v, ArgumentSize(ai))
  }

  lemma HeaderBits(mt: byte, ai: byte)
    requires mt < 8 && ai < 32
    ensures mt * 32 + ai < 256 && Major(mt * 32 + ai) == mt && Info(mt * 32 + ai) == ai
  {
  }

  lemma HeadOfArgument(header: byte, v: u64, n: nat, rest: seq<byte>)
    requires Info(header) < 28 && Major(header) != 7 && n == ArgumentSize(Info(header))
    requires if n == 0 then v == Info(header) else v < Pow256(n)
    requires IsString(header) ==> v <= |rest|
    ensures ReadHead([header] + ToBigEndian(v, n) + rest)
         == Head(header, v, 1 + n + if IsString(header) then v else 0)
  {
    var s := [header] + ToBigEndian(v, n) + rest;
    assert s[1..1 + n] == ToBigEndian(v, n);
    if n > 0 {
      BigEndianInverse(v, n);
    }
  }

  /** Round trip: a preferred head followed by anything (for a string, by at least its payload)
      reads back as its major type and argument. */
  lemma HeadRoundTrip(mt: byte, v: u64, rest: seq<byte>)
    requires mt < 7
    requires mt == 2 || mt == 3 ==> v <= |rest|
    ensures var r := ReadHead(EncodeHead(mt, v) + rest);
            r.Head? && Major(r.header) == mt && r.value == v
            && r.size == |EncodeHead(mt, v)| + if mt == 2 || mt == 3 then v else 0
  {
    hide ReadHead;
    Powers();
    var ai := PreferredInfo(v);
    HeaderBits(mt, ai);
    HeadOfArgument(mt * 32 + ai, v, ArgumentSize(ai), rest);
  }

  /** No head that reads back as the same argument is shorter than the preferred one. */
  lemma HeadShortest(mt: byte, v: u64, s: seq<byte>)
    requires mt < 8
    requires ReadHead(s).Head? && Major(ReadHead(s).header) == mt && ReadHead(s).value == v
    ensures |EncodeHead(mt, v)| <= 1 + ArgumentSize(Info(ReadHead(s).header))
  {
    Powers();
    var n := ArgumentSize(Info(s[0]));
    if n > 0 {
      assert BigEndian(s[1..1 + n]) < Pow256(n);
    }
  }

  /** `tcbor_primitive_read_any`: octet by octet over the unread data `s`. */
  method PrimitiveReadHead(s: seq<byte>) returns (r: HeadResult)
    ensures r == ReadHead(s)
  {
    if s == [] {
      return Failed(NEED_DATA);
    }
    var header := s[0];
    var mt := Major(header);
    var ai := Info(header);
    var p := 1;
    var value: u64 := ai;
    if 24 <= ai <= 27 {
      Powers();
      value := 0;
      var i, n := 0, ArgumentSize(ai);
      assert Pow256(8) == 256 * Pow256(7);
      while i < n
        invariant 0 <= i <= n <= 8 && p == 1 + i <= |s|
        invariant value == BigEndian(s[1..1 + i]) < Pow256(i)
      {
        if p == |s| {
          return Failed(NEED_DATA);
        }
        ShiftFits(value, i);
        assert s[1..1 + i + 1][..i] == s[1..1 + i];
        value := (value * 256) % TWO64 + s[p];
        p := p + 1;
        i := i + 1;
      }
    } else if 28 <= ai <= 30 {
      return Failed(MALFORMED);
    } else if ai == 31 {
      return Failed(NOT_SUPPORTED);
    }
    if mt == 7 {
      if ai == 24 && value < 32 {
        return Failed(MALFORMED);
      }
    }
    if mt == 2 || mt == 3 {
      if |s| - p < value {
        return Failed(NEED_DATA);
      }
      p := p + value;
    }
    return Head(header, value, p);
  }

  /** Fewer than eight octets leave room for one more without losing a bit. */
  lemma ShiftFits(value: nat, i: nat)
    requires i < 8 && value < Pow256(i)
    ensures value * 256 + 255 < TWO64 && (value * 256) % TWO64 == value * 256
  {
    Powers();
    assert value * 256 + 255 < Pow256(i + 1);
    Pow256Mono(i + 1, 8);
  }

  lemma Pow256Mono(a: nat, b: nat)
    requires a <= b
    ensures Pow256(a) <= Pow256(b)
  {
  }
}
