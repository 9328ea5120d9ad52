/** A manifest whose install sequence is no array, octet by octet: an envelope that parses, and that a runner ends
    finished on without having done anything. */
module SuitUnreadable {
  import opened Bytes
  import opened CborHead
  import opened CborReader
  import opened SuitEnvelope
  import opened SuitManifest
  import opened SuitPlan
  import opened SuitOctets
  import SuitRunner

  /** 107({3: h'A4 0101 0200 0341A0 0941F5'}): version 1, sequence number 0, an empty common block, and an install
      sequence that is the boolean true. */
  const ENVELOPE: seq<byte> :=
    [0xD8, 0x6B, 0xA1, 0x03, 0x4B, 0xA4, 0x01, 0x01, 0x02, 0x00, 0x03, 0x41, 0xA0, 0x09, 0x41, 0xF5]

  /** Memory that holds the envelope, told octet by octet. */
  predicate Holds(mem: seq<byte>)
  {
    && |mem| == 16 && mem[..2] == [0xD8, 0x6B] && mem[2] == 0xA1 && mem[3] == 0x03 && mem[4] == 0x4B
    && mem[5] == 0xA4 && mem[6] == 0x01 && mem[7] == 0x01 && mem[8] == 0x02 && mem[9] == 0x00
    && mem[10] == 0x03 && mem[11] == 0x41 && mem[12] == 0xA0 && mem[13] == 0x09 && mem[14] == 0x41 && mem[15] == 0xF5
  }

  lemma CommonIsEmpty(mem: seq<byte>)
    requires Holds(mem)
    ensures CommonParses(Span(mem, 12, 13))
  {
    hide GetMap, Entries, CommonValueFits;
    MapReads(mem, 12, 13, 0, 0, 1);
    NoEntries(At(mem, 13, 13, 0, 0));
  }

  lemma TrueIsNoArray(mem: seq<byte>)
    requires Holds(mem)
    ensures GetArray(Toplevel(Span(mem, 15, 16))).Missing?
  {
    HeaderBits(7, 21);
    ShortHead(mem, 15, 16, 0, 1);
    hide GetAny, Info;
  }

  lemma ManifestIsThere(mem: seq<byte>)
    requires Holds(mem)
    ensures var o := ManifestOf(Whole(mem)); o.Some? && o.value.install == Body(Span(mem, 15, 16))
  {
    assert mem[2] == 0xA1 && mem[3] == 0x03 && mem[4] == 0x4B && Four(mem, 5, 1, 1);
    hide *;
    StringReads(mem, 4, 16, 11, 1, 2);
    EnvelopeHolds(mem, 5);
    CommonIsEmpty(mem);
    ManifestHolds(mem, 5, 1, 1);
  }

  /** The envelope parses, its install sequence is there, and it is no array. */
  lemma UnreadableInstall()
    ensures var o := ManifestOf(Whole(ENVELOPE));
            o.Some? && o.value.install.Body? && Data(o.value.install.body) == [0xF5] && !Enters(o.value)
  {
    hide ManifestOf, GetArray;
    assert Holds(ENVELOPE);
    ManifestIsThere(ENVELOPE);
    TrueIsNoArray(ENVELOPE);
  }

  /** Installing it succeeds, whatever the platform, and calls no handler. */
  method UnreadableInstallFinishes(platform: Platform) returns (ok: bool, runner: SuitRunner.Runner)
    ensures ok && fresh(runner) && runner.Valid() && runner.SoFar() == START
  {
    hide ManifestOf, Enters, ManifestInside;
    UnreadableInstall();
    ManifestIsInside(Whole(ENVELOPE));
    BinaryIsField(Whole(ENVELOPE));
    var context := new SuitContext();
    ok := context.AddEnvelope(Whole(ENVELOPE));
    assert ok;
    ok, runner := SuitRunner.RunInstall(context, platform);
  }
}
