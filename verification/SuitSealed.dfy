/** Which written envelopes are accepted: for every digest, every list of auth blocks, every manifest and whatever else
    is in the envelope, exactly those whose signatures and whose digest are right. */
module SuitSealed {
  import opened Bytes
  import opened CborHead
  import opened CborReader
  import opened SuitEnvelope
  import opened SuitAuthenticate
  import opened SuitWritten

  /** The blocks with the tag of COSE_Sign1 put on them. */
  function Tagged(bodies: seq<Octets>): (blocks: seq<Octets>)
    requires forall b <- bodies :: 1 + |b| < TWO64
    ensures |blocks| == |bodies|
  {
    seq(|bodies|, i requires 0 <= i < |bodies| => [0xD2] + bodies[i])
  }

  lemma TagReads(block: Range, body: seq<byte>)
    requires Data(block) == [0xD2] + body
    ensures var g := GetTag(Toplevel(block)); g.Got? && g.value == 18
  {
    assert EncodeHead(6, 18) == [0xD2];
    hide EncodeHead, GetAny, Data;
    HeadNext(Toplevel(block), 6, 18, body);
  }

  lemma DigestAgrees(crypto: Crypto, digest: Range, manifest: Range, hash: seq<byte>)
    requires var g := GetDigest(Toplevel(digest)); g.Got? && g.value.algorithm == -16 && Data(g.value.bytes) == hash
    ensures DigestMatches(crypto, digest, manifest) <==>
            hash == crypto.sha256(EncodeHead(2, |Data(manifest)|) + Data(manifest))
  {
    hide GetDigest, EncodeHead, Data;
  }

  lemma BlocksAgree(crypto: Crypto, key: seq<byte>, blocks: seq<Range>, bodies: seq<Octets>, digest: Range)
    requires |blocks| == |bodies| && forall i | 0 <= i < |blocks| :: Data(blocks[i]) == [0xD2] + bodies[i]
    ensures (forall b <- blocks :: BlockVerifies(crypto, key, b, digest)) <==>
            (forall b <- bodies :: crypto.verifySign1(key, [0xD2] + b, Data(digest)))
  {
    hide BlockVerifies, Data;
    forall i | 0 <= i < |blocks|
      ensures BlockVerifies(crypto, key, blocks[i], digest) <==>
              crypto.verifySign1(key, [0xD2] + bodies[i], Data(digest))
    {
      BlockAgrees(crypto, key, blocks[i], bodies[i], digest);
    }
  }

  lemma BlockAgrees(crypto: Crypto, key: seq<byte>, block: Range, body: seq<byte>, digest: Range)
    requires Data(block) == [0xD2] + body
    ensures BlockVerifies(crypto, key, block, digest) <==> crypto.verifySign1(key, [0xD2] + body, Data(digest))
  {
    hide Data, GetTag;
    TagReads(block, body);
  }

  /** An envelope written with any digest, any auth blocks tagged as COSE_Sign1 and any manifest is authentic exactly if
      there is an auth block, every signature verifies over the digest as it is written, and the digest is that of the
      manifest written as a byte string. */
  lemma SealedIsAuthentic(crypto: Crypto, key: seq<byte>, envelope: Range, hash: Octets, bodies: seq<Octets>,
                          manifest: Octets, xs: seq<Extra>)
    requires 1 + |bodies| < TWO64 && (forall b <- bodies :: 1 + |b| < TWO64) && 2 * |xs| + 4 < TWO64
    requires |DigestOctets(hash)| < TWO64 && |WrapperOctets(DigestOctets(hash), Tagged(bodies))| < TWO64
    requires Data(envelope) == EnvelopeOctets(WrapperOctets(DigestOctets(hash), Tagged(bodies)), manifest, xs)
    ensures Authentic(crypto, key, envelope) <==>
            && bodies != []
            && (forall b <- bodies :: crypto.verifySign1(key, [0xD2] + b, DigestOctets(hash)))
            && hash == crypto.sha256(EncodeHead(2, |manifest|) + manifest)
  {
    hide DigestOctets, WrapperOctets, EnvelopeOctets, Data, GetArray, GetBstr, Bstrs, FieldOf, BlockVerifies,
         DigestMatches, GetDigest, Toplevel, EncodeHead;
    var wrapper := WrapperOctets(DigestOctets(hash), Tagged(bodies));
    FieldsRead(envelope, wrapper, manifest, xs);
    var w, m := FieldOf(envelope, Label(2)).value, FieldOf(envelope, Label(3)).value;
    WrapperReads(w, DigestOctets(hash), Tagged(bodies));
    var digest := GetBstr(GetArray(Toplevel(w)).value);
    DigestReads(digest.value, hash);
    BlocksAgree(crypto, key, Bstrs(digest.next).all, bodies, digest.value);
    DigestAgrees(crypto, digest.value, m, hash);
  }
}
