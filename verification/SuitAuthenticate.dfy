/** Signature and digest checks of an envelope: lib/suit/lib/suit-parser.c. The signature check and SHA-256
    are whatever functions the crypto library provides. */
module SuitAuthenticate {
  import opened Bytes
  import opened CborHead
  import opened CborReader
  import opened CborStructure
  import opened SuitEnvelope

  datatype Crypto = Crypto(
    /** key, signed block, detached payload */
    verifySign1: (seq<byte>, seq<byte>, seq<byte>) -> bool,
    sha256: seq<byte> -> seq<byte>)

  datatype Digest = Digest(algorithm: int, bytes: Range)

  /** `read_digest`: an array of an algorithm, the digest octets and anything more. */
  function GetDigest(c: Cursor): (g: Got<Digest>)
    ensures g.Got? ==> Within(g.value.bytes, c.r)
  {
    match GetArray(c)
    case Missing(e) => Missing(e)
    case Got(items, parent) =>
      match GetInt(items)
      case Missing(e) => Missing(e)
      case Got(algorithm, afterId) =>
        match GetBstr(afterId)
        case Missing(e) => Missing(e)
        case Got(bytes, afterBytes) =>
          match GetSkip(afterBytes, afterBytes.count - afterBytes.index)
          case Missing(e) => Missing(e)
          case Got(_, last) => Got(Digest(algorithm, bytes), parent.(r := last.r))
  }

  /** Reading a digest consumes one whole item. */
  lemma DigestIsItem(c: Cursor)
    ensures GetDigest(c).Got? ==> GetItem(c).Got? && GetItem(c).next == GetDigest(c).next
  {
    hide GetDigest, GetItem, Exec;
    if GetDigest(c).Got? {
      var ops := DigestOps(c);
      NestIsSkip(false, ops, c);
      SkipIsItem(c);
    }
  }

  /** The positions at which the parts of a digest are read. */
  lemma DigestParts(c: Cursor) returns (items: Cursor, afterId: Cursor, afterBytes: Cursor, last: Cursor)
    requires GetDigest(c).Got?
    ensures GetArray(c).Got? && items == GetArray(c).value
    ensures GetInt(items).Got? && afterId == GetInt(items).next
    ensures GetBstr(afterId).Got? && afterBytes == GetBstr(afterId).next
    ensures var n := afterBytes.count - afterBytes.index;
            GetSkip(afterBytes, n).Got? && last == GetSkip(afterBytes, n).next
    ensures AtEnd(last) && GetDigest(c).next == GetArray(c).next.(r := last.r)
  {
    hide GetAny, GetInt, GetBstr, GetArray, Data;
    items := GetArray(c).value;
    afterId := GetInt(items).next;
    afterBytes := GetBstr(afterId).next;
    last := GetSkip(afterBytes, afterBytes.count - afterBytes.index).next;
  }

  /** The reads that make up reading a digest. */
  lemma DigestOps(c: Cursor) returns (ops: seq<Op>)
    requires GetDigest(c).Got?
    ensures Exec(Nest(false, ops), c).Got? && Exec(Nest(false, ops), c).next == GetDigest(c).next
  {
    hide *;
    var items, afterId, afterBytes, last := DigestParts(c);
    var n := afterBytes.count - afterBytes.index;
    ops := [Scalar(INT), Scalar(BSTR), Skip(n)];
    ExecSimple(c);
    ExecSimple(items);
    ExecSimple(afterId);
    ExecSkip(n, afterBytes);
    ExecThree(Scalar(INT), Scalar(BSTR), Skip(n), items);
    CloseAll(false, ops, c);
  }

  lemma ExecThree(a: Op, b: Op, d: Op, c: Cursor)
    requires Exec(a, c).Got? && Exec(b, Exec(a, c).next).Got?
    requires Exec(d, Exec(b, Exec(a, c).next).next).Got?
    ensures ExecAll([a, b, d], c).Got?
    ensures ExecAll([a, b, d], c).next == Exec(d, Exec(b, Exec(a, c).next).next).next
  {
    hide Exec;
    assert [a, b, d][1..] == [b, d] && [b, d][1..] == [d] && [d][1..] == [];
    var x := Exec(a, c).next;
    var y := Exec(b, x).next;
    assert ExecAll([d], y) == ExecAll([], Exec(d, y).next);
    assert ExecAll([b, d], x) == ExecAll([d], y);
  }

  method ReadDigest(ctx: Context) returns (ok: bool, d: Digest)
    requires ctx.Valid()
    modifies ctx
    ensures ctx.Valid()
    ensures var g := GetDigest(old(ctx.View()));
            ok == g.Got? && (ok ==> d == g.value && ctx.View() == g.next)
  {
    hide GetAny, GetInt, GetBstr, GetArray, GetSkip, Data;
    d := Digest(0, Null);
    var child;
    ok, child := ctx.ReadArray();
    if !ok {
      return;
    }
    var items := new Context(child);
    var algorithm, bytes;
    ok, algorithm := items.ReadInt();
    if !ok {
      return;
    }
    ok, bytes := items.ReadBstr();
    if !ok {
      return;
    }
    ok := items.SkipAll();
    if !ok {
      return;
    }
    ok := ctx.Close(items.View());
    d := Digest(algorithm, bytes);
  }

  /** `v >> 8 * i` */
  function ShiftRight(v: nat, i: nat): nat
  {
    if i == 0 then v else ShiftRight(v, i - 1) / 256
  }

  lemma ShiftBound(v: nat, i: nat, k: nat)
    requires v < Pow256(i + k)
    ensures ShiftRight(v, i) < Pow256(k)
    decreases i
  {
    if i > 0 {
      ShiftBound(v, i - 1, k + 1);
    }
  }

  /** The octets of the length, most significant first: the loop of `verify_digest`. */
  method WriteLength(len: nat, size: nat, buf: array<byte>) returns (n: nat)
    requires 1 + size <= buf.Length && len < Pow256(size)
    modifies buf
    ensures n == 1 + size && buf[1..n] == ToBigEndian(len, size) && buf[0] == old(buf[0])
  {
    n := 1;
    var i: int := size - 1;
    ShiftBound(len, size, 0);
    while i >= 0
      invariant -1 <= i < size && n == size - i
      invariant buf[0] == old(buf[0])
      invariant buf[1..n] == ToBigEndian(ShiftRight(len, i + 1), n - 1)
    {
      ghost var written := buf[1..n];
      buf[n] := ShiftRight(len, i) % 256;
      n := n + 1;
      i := i - 1;
      assert buf[1..n] == written + [buf[n - 1]];
    }
  }

  /** The byte-string head that `verify_digest` puts before the manifest when hashing it. */
  method WriteBstrHead(len: u64, buf: array<byte>) returns (n: nat)
    requires buf.Length == 9
    modifies buf
    ensures n <= 9 && buf[..n] == EncodeHead(2, len)
  {
    hide ToBigEndian;
    Powers();
    buf[0] := 0x40;
    if len < 24 {
      buf[0] := buf[0] + len;
      n := 1;
      NoDigits(len);
      assert buf[..n] == [0x40 + len];
    } else {
      var k: byte := if len < 0x100 then 0 else if len < 0x1_0000 then 1 else if len < 0x1_0000_0000 then 2 else 3;
      buf[0] := buf[0] + 24 + k;
      n := WriteLength(len, ArgumentSize(24 + k), buf);
      assert buf[..n] == [buf[0]] + buf[1..n];
    }
  }

  lemma NoDigits(v: nat)
    ensures ToBigEndian(v, 0) == []
  {
  }

  /** What is hashed: the manifest as a byte string with the preferred head. */
  function SignedManifest(manifest: seq<byte>): seq<byte>
    requires |manifest| < TWO64
  {
    EncodeHead(2, |manifest|) + manifest
  }

  /** The hashed octets are one byte string whose payload is precisely the manifest. */
  lemma SignedManifestIsBstr(manifest: seq<byte>)
    requires |manifest| + 9 < TWO64
    ensures var g := GetBstr(Toplevel(Whole(SignedManifest(manifest))));
            g.Got? && Data(g.value) == manifest && Data(g.next.r) == []
  {
    hide ReadHead;
    var s := SignedManifest(manifest);
    HeadRoundTrip(2, |manifest|, manifest);
    hide EncodeHead;
    assert s[|s| - |manifest|..] == manifest;
  }

  predicate DigestMatches(crypto: Crypto, digest: Range, manifest: Range)
  {
    var g := GetDigest(Toplevel(digest));
    g.Got? && g.value.algorithm == SUIT_DIGEST_ALG_SHA256
    && Data(g.value.bytes) == crypto.sha256(SignedManifest(Data(manifest)))
  }

  /** `verify_digest` */
  method VerifyDigest(crypto: Crypto, digestBstr: Range, manifest: Range) returns (ok: bool)
    ensures ok == DigestMatches(crypto, digestBstr, manifest)
  {
    hide GetAny, ReadHead, EncodeHead, Data;
    var ctx := new Context(Toplevel(digestBstr));
    var digest;
    ok, digest := ReadDigest(ctx);
    if !ok || digest.algorithm != SUIT_DIGEST_ALG_SHA256 {
      return false;
    }
    var buf := new byte[9];
    var n := WriteBstrHead(|Data(manifest)|, buf);
    var computed := crypto.sha256(buf[..n] + Data(manifest));
    ok := Data(digest.bytes) == computed;
  }

  /** One auth block verifies: it is tagged as COSE_Sign1 and its signature covers the digest. */
  predicate BlockVerifies(crypto: Crypto, key: seq<byte>, block: Range, digest: Range)
  {
    var g := GetTag(Toplevel(block));
    g.Got? && g.value == CBOR_TAG_COSE_SIGN1 && crypto.verifySign1(key, Data(block), Data(digest))
  }

  /** `verify_auth_block` */
  method VerifyAuthBlock(crypto: Crypto, key: seq<byte>, block: Range, digest: Range) returns (ok: bool)
    ensures ok == BlockVerifies(crypto, key, block, digest)
  {
    var ctx := new Context(Toplevel(block));
    var tag;
    ok, tag := ctx.ReadTag();
    if ok {
      if tag == CBOR_TAG_COSE_SIGN1 {
        ok := crypto.verifySign1(key, Data(block), Data(digest));
      } else {
        ok := false;
      }
    }
  }

  /** The byte strings left in an array context. */
  function Bstrs(c: Cursor): Listing<Range>
    decreases |Data(c.r)|
  {
    if AtEnd(c) then Listing([], true)
    else match GetBstr(c)
      case Missing(_) => Listing([], false)
      case Got(b, d) => Cons(b, Bstrs(d))
  }

  /** An envelope is authentic when its wrapper holds a digest and at least one auth block, every block
      verifies over that digest, and the digest is that of the envelope's manifest. */
  predicate Authentic(crypto: Crypto, key: seq<byte>, envelope: Range)
  {
    var wrapper := FieldOf(envelope, Label(SUIT_AUTHENTICATION_WRAPPER));
    var manifest := FieldOf(envelope, Label(SUIT_MANIFEST));
    wrapper.Some? && manifest.Some?
    && var items := GetArray(Toplevel(wrapper.value));
    items.Got?
    && var digest := GetBstr(items.value);
    digest.Got?
    && var blocks := Bstrs(digest.next);
    blocks.complete && blocks.all != []
    && (forall b <- blocks.all :: BlockVerifies(crypto, key, b, digest.value))
    && DigestMatches(crypto, digest.value, manifest.value)
  }

  /** The loop over the auth blocks of `suit_authenticate_envelope`. */
  method VerifyBlocks(crypto: Crypto, key: seq<byte>, items: Context, digest: Range) returns (ok: bool)
    requires items.Valid()
    modifies items
    ensures items.Valid()
    ensures var blocks := Bstrs(old(items.View()));
            ok <==> blocks.complete && blocks.all != []
                    && forall b <- blocks.all :: BlockVerifies(crypto, key, b, digest)
    ensures ok ==> items.index == items.count
  {
    hide GetAny, GetBstr, BlockVerifies, Bstrs, Data;
    var authenticated := false;
    ghost var total := Bstrs(items.View());
    ghost var done: seq<Range> := [];
    assert [] + total.all == total.all;
    while !(items.index == items.count)
      invariant items.Valid()
      invariant total == Listing(done + Bstrs(items.View()).all, Bstrs(items.View()).complete)
      invariant forall b <- done :: BlockVerifies(crypto, key, b, digest)
      invariant authenticated == (done != [])
      decreases |Data(items.r)|
    {
      BstrsNext(items.View());
      var block;
      ok, block := items.ReadBstr();
      if !ok {
        return false;
      }
      assert done + ([block] + Bstrs(items.View()).all) == (done + [block]) + Bstrs(items.View()).all;
      assert block == total.all[|done|];
      ok := VerifyAuthBlock(crypto, key, block, digest);
      if !ok {
        return false;
      }
      authenticated := true;
      done := done + [block];
    }
    BstrsNext(items.View());
    assert done + [] == done;
    ok := authenticated;
  }

  lemma BstrsNext(c: Cursor)
    ensures Bstrs(c) == if AtEnd(c) then Listing([], true)
                        else match GetBstr(c) case Missing(_) => Listing([], false) case Got(b, d) => Cons(b, Bstrs(d))
  {
  }

  /** `suit_authenticate_envelope` */
  method AuthenticateEnvelope(crypto: Crypto, key: seq<byte>, envelope: Range) returns (ok: bool)
    ensures ok == Authentic(crypto, key, envelope)
  {
    hide GetAny, GetBstr, GetArray, BlockVerifies, DigestMatches, FieldOf, Bstrs, Data;
    var wrapper := GetField(envelope, Label(SUIT_AUTHENTICATION_WRAPPER));
    if wrapper.None? {
      return false;
    }
    var ctx := new Context(Toplevel(wrapper.value));
    var child;
    ok, child := ctx.ReadArray();
    if !ok {
      return;
    }
    var items := new Context(child);
    var digest;
    ok, digest := items.ReadBstr();
    if !ok {
      return;
    }
    ok := VerifyBlocks(crypto, key, items, digest);
    if !ok {
      return;
    }
    ok := ctx.Close(items.View());
    var manifest := GetField(envelope, Label(SUIT_MANIFEST));
    if manifest.None? {
      return false;
    }
    ok := VerifyDigest(crypto, digest, manifest.value);
  }
}
