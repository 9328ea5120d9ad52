/** Reading short items octet by octet, and what makes a block of memory an envelope with a manifest of four entries:
    for manifests that are given as octets. */
module SuitOctets {
  import opened Wrappers
  import opened Bytes
  import opened CborHead
  import opened CborItems
  import opened CborReader
  import opened CborStructure
  import opened SuitEnvelope
  import opened SuitManifest

  /** A position in the part of a block of memory that ends at `m`. */
  function At(mem: seq<byte>, n: nat, m: nat, index: u64, count: u64): Cursor
    requires n <= m <= |mem| < TWO64 && index <= count
  {
    Position(Span(mem, n, m), index, count)
  }

  // Heads.

  /** Reading a head that is one octet. */
  lemma ShortHead(mem: seq<byte>, n: nat, m: nat, index: u64, count: u64)
    requires n < m <= |mem| < TWO64 && index < count && Info(mem[n]) < 24 && Major(mem[n]) !in {2, 3, 6}
    ensures GetAny(At(mem, n, m, index, count))
         == Got(Argument(mem[n], Info(mem[n])), At(mem, n + 1, m, index + 1, count))
  {
    var s := Data(Span(mem, n, m));
    assert s[0] == mem[n] && |s| == m - n;
    assert ReadHead(s) == Head(mem[n], Info(mem[n]), 1);
    hide ReadHead;
  }

  /** Reading a string whose head is one octet. */
  lemma ShortString(mem: seq<byte>, n: nat, m: nat, size: nat, index: u64, count: u64)
    requires size < 24 && n + 1 + size <= m <= |mem| < TWO64 && index < count
    requires Info(mem[n]) == size && IsString(mem[n])
    ensures GetAny(At(mem, n, m, index, count))
         == Got(Payload(mem[n], Span(mem, n + 1, n + 1 + size)), At(mem, n + 1 + size, m, index + 1, count))
  {
    var s := Data(Span(mem, n, m));
    assert s[0] == mem[n] && |s| == m - n;
    hide ReadHead, Info, IsString;
    ShortPayload(s, size);
  }

  lemma ShortPayload(s: seq<byte>, size: nat)
    requires size < 24 && 1 + size <= |s| && Info(s[0]) == size && IsString(s[0])
    ensures ReadHead(s) == Head(s[0], size, 1 + size)
  {
  }

  lemma IntegerBits(b: byte)
    requires b < 24
    ensures Info(b) == b && Major(b) == 0
  {
  }

  /** The head of a small integer. */
  function Small(k: byte): Any
    requires k < 24
  {
    Argument(k, k)
  }

  lemma SmallIsUint(k: byte)
    requires k < 24
    ensures IsUint(Small(k)) && Small(k).value == k && !IsTag(Small(k))
  {
    IntegerBits(k);
  }

  lemma IntegerReads(mem: seq<byte>, n: nat, m: nat, index: u64, count: u64)
    requires n < m <= |mem| < TWO64 && index < count && mem[n] < 24
    ensures var at, next := At(mem, n, m, index, count), At(mem, n + 1, m, index + 1, count);
            && GetAny(at) == Got(Small(mem[n]), next) && GetUint(at) == Got(mem[n], next) && GetBool(at).Missing?
            && GetItem(at) == Got(Span(mem, n, n + 1), next)
  {
    IntegerBits(mem[n]);
    ShortHead(mem, n, m, index, count);
    hide GetAny, Info, GetItem, GetUint, GetBool;
    ScalarReads(At(mem, n, m, index, count));
  }

  /** What a scalar is when it is read. */
  lemma ScalarReads(at: Cursor)
    requires GetAny(at).Got?
    requires var a := GetAny(at).value; !IsArray(a) && !IsMap(a) && !IsTag(a)
    ensures at.r.Span? && GetAny(at).next.r.Span?
    ensures at.r.begin <= GetAny(at).next.r.begin <= at.r.end
    ensures GetItem(at) == Got(at.r.(end := GetAny(at).next.r.begin), GetAny(at).next)
    ensures IsUint(GetAny(at).value) ==>
              GetUint(at) == Got(GetAny(at).value.value, GetAny(at).next) && GetBool(at).Missing?
    ensures IsBstr(GetAny(at).value) ==> GetBstr(at) == Got(GetAny(at).value.bytes, GetAny(at).next)
    ensures IsTstr(GetAny(at).value) ==> GetTstr(at) == Got(GetAny(at).value.bytes, GetAny(at).next)
  {
    ScalarIsSubobject(at);
    hide GetAny, GetSkip;
  }

  lemma AtIs(mem: seq<byte>, n: nat, m: nat, index: u64, count: u64)
    requires n <= m <= |mem| < TWO64 && index <= count
    ensures At(mem, n, m, index, count) == Position(Span(mem, n, m), index, count)
  {
  }

  lemma StringBits(b: byte, mt: byte, size: byte, r: Range)
    requires 2 <= mt <= 3 && size < 24 && b == mt * 32 + size
    ensures Info(b) == size && IsString(b)
    ensures var a: Any := Payload(b, r);
            (if mt == 2 then IsBstr(a) else IsTstr(a)) && !IsArray(a) && !IsMap(a) && !IsTag(a)
  {
    HeaderBits(mt, size);
  }

  lemma StringReads(mem: seq<byte>, n: nat, m: nat, size: nat, index: u64, count: u64)
    requires size < 24 && n + 1 + size <= m <= |mem| < TWO64 && index < count && mem[n] == 0x40 + size
    ensures var at, next := At(mem, n, m, index, count), At(mem, n + 1 + size, m, index + 1, count);
            && GetBstr(at) == Got(Span(mem, n + 1, n + 1 + size), next)
            && GetItem(at) == Got(Span(mem, n, n + 1 + size), next)
  {
    hide *;
    AtIs(mem, n, m, index, count);
    AtIs(mem, n + 1 + size, m, index + 1, count);
    StringBits(mem[n], 2, size, Span(mem, n + 1, n + 1 + size));
    ShortString(mem, n, m, size, index, count);
    ScalarReads(At(mem, n, m, index, count));
  }

  lemma TextReads(mem: seq<byte>, n: nat, m: nat, size: nat, index: u64, count: u64)
    requires size < 24 && n + 1 + size <= m <= |mem| < TWO64 && index < count && mem[n] == 0x60 + size
    ensures var at, next := At(mem, n, m, index, count), At(mem, n + 1 + size, m, index + 1, count);
            && GetTstr(at) == Got(Span(mem, n + 1, n + 1 + size), next)
            && GetItem(at) == Got(Span(mem, n, n + 1 + size), next)
  {
    hide *;
    AtIs(mem, n, m, index, count);
    AtIs(mem, n + 1 + size, m, index + 1, count);
    StringBits(mem[n], 3, size, Span(mem, n + 1, n + 1 + size));
    ShortString(mem, n, m, size, index, count);
    ScalarReads(At(mem, n, m, index, count));
  }

  lemma MapReads(mem: seq<byte>, n: nat, m: nat, pairs: nat, index: u64, count: u64)
    requires n < m <= |mem| < TWO64 && index < count && mem[n] == 0xA0 + pairs && pairs < 24
    ensures GetMap(At(mem, n, m, index, count))
         == Got(At(mem, n + 1, m, 0, 2 * pairs), At(mem, n + 1, m, index + 1, count))
  {
    HeaderBits(5, pairs);
    ShortHead(mem, n, m, index, count);
    hide GetAny, Info;
  }

  lemma ArrayReads(mem: seq<byte>, n: nat, m: nat, size: nat, index: u64, count: u64)
    requires n < m <= |mem| < TWO64 && index < count && mem[n] == 0x80 + size && size < 24
    ensures GetArray(At(mem, n, m, index, count))
         == Got(At(mem, n + 1, m, 0, size), At(mem, n + 1, m, index + 1, count))
  {
    HeaderBits(4, size);
    ShortHead(mem, n, m, index, count);
    hide GetAny, Info;
  }

  lemma TagReads(mem: seq<byte>)
    requires 2 <= |mem| < TWO64 && mem[..2] == [0xD8, 0x6B]
    ensures GetTag(Toplevel(Whole(mem))) == Got(107, At(mem, 2, |mem|, 0, 1))
  {
    HeadRoundTrip(6, 107, mem[2..]);
    TagHead();
    assert mem == EncodeHead(6, 107) + mem[2..] == Data(Whole(mem));
    hide ReadHead, EncodeHead;
    HeaderBits(6, 24);
  }

  lemma TagHead()
    ensures EncodeHead(6, 107) == [0xD8, 0x6B]
  {
    assert ToBigEndian(107, 1) == [107];
  }

  /** Reading a byte string whose length is in a second octet. */
  lemma LongStringReads(mem: seq<byte>, n: nat, m: nat, size: byte, index: u64, count: u64)
    requires n + 2 + size <= m <= |mem| < TWO64 && index < count && mem[n] == 0x58 && mem[n + 1] == size
    ensures GetBstr(At(mem, n, m, index, count))
         == Got(Span(mem, n + 2, n + 2 + size), At(mem, n + 2 + size, m, index + 1, count))
  {
    var s := Data(Span(mem, n, m));
    assert s[0] == mem[n] && |s| == m - n;
    HeaderBits(2, 24);
    assert s[1..2] == [size];
    OneOctet(s[1..2]);
    LongHead(s, size);
    hide ReadHead;
  }

  lemma LongHead(s: seq<byte>, size: byte)
    requires 2 + size <= |s| && s[0] == 0x58 && BigEndian(s[1..2]) == size
    ensures ReadHead(s) == Head(0x58, size, 2 + size)
  {
    HeaderBits(2, 24);
  }

  lemma OneOctet(s: seq<byte>)
    requires |s| == 1
    ensures BigEndian(s) == s[0]
  {
    assert s[..0] == [];
  }

  // Items with others inside.

  lemma ItemReads(c: Cursor)
    requires GetItem(c).Got?
    ensures c.r.Span? && GetItem(c).next.r.Span? && c.r.begin <= GetItem(c).next.r.begin <= c.r.end
    ensures GetItem(c).value == c.r.(end := GetItem(c).next.r.begin)
  {
    hide GetSkip;
  }

  lemma OneSkipped(c: Cursor)
    requires GetItem(c).Got?
    ensures var d := GetItem(c).next;
            && Items(Data(c.r), 1) == Done(Data(d.r)) && Resumes(d.r, c.r)
            && d.count == c.count && d.index == c.index + 1
  {
    hide Items, Data;
  }

  lemma ResumesMore(r: Range, q: Range, p: Range)
    requires Resumes(p, q) && Resumes(q, r)
    ensures Resumes(p, r)
  {
  }

  lemma SkipTwo(c: Cursor)
    requires GetItem(c).Got? && GetItem(GetItem(c).next).Got?
    ensures GetSkip(c, 2) == Got((), GetItem(GetItem(c).next).next)
  {
    hide *;
    var d := GetItem(c).next;
    OneSkipped(c);
    OneSkipped(d);
    ItemsAppend(Data(c.r), 1, 1);
    ResumesMore(c.r, d.r, GetItem(d).next.r);
    SkipsTo(c, 2, GetItem(d).next.r);
  }

  lemma SkipsTo(c: Cursor, n: u64, q: Range)
    requires n <= c.count - c.index && Resumes(q, c.r) && Items(Data(c.r), n) == Done(Data(q))
    ensures GetSkip(c, n) == Got((), Position(q, c.index + n, c.count))
  {
    hide Items;
    SamePlace(q, c.r);
  }

  /** A map from a small integer to a text of one character. */
  lemma PairReads(mem: seq<byte>, n: nat, m: nat, index: u64, count: u64)
    requires n + 4 <= m <= |mem| && 2 < |mem| < TWO64 && index < count
    requires mem[n] == 0xA1 && mem[n + 1] < 24 && mem[n + 2] == 0x61
    ensures GetItem(At(mem, n, m, index, count)) == Got(Span(mem, n, n + 4), At(mem, n + 4, m, index + 1, count))
  {
    hide *;
    var at := At(mem, n, m, index, count);
    MapReads(mem, n, m, 1, index, count);
    AtIs(mem, n, m, index, count);
    AtIs(mem, n + 1, m, 0, 2);
    AtIs(mem, n + 1, m, index + 1, count);
    AtIs(mem, n + 4, m, 2, 2);
    AtIs(mem, n + 4, m, index + 1, count);
    MapIsItem(at);
    IntegerReads(mem, n + 1, m, 0, 2);
    TextReads(mem, n + 2, m, 1, 1, 2);
    SkipTwo(At(mem, n + 1, m, 0, 2));
    ItemReads(at);
  }

  /** An array of one byte string of one octet. */
  lemma SingleReads(mem: seq<byte>, n: nat, m: nat, index: u64, count: u64)
    requires n + 3 <= m <= |mem| && 2 < |mem| < TWO64 && index < count && mem[n] == 0x81 && mem[n + 1] == 0x41
    ensures GetItem(At(mem, n, m, index, count)) == Got(Span(mem, n, n + 3), At(mem, n + 3, m, index + 1, count))
  {
    hide *;
    var at, child := At(mem, n, m, index, count), At(mem, n + 1, m, 0, 1);
    ArrayReads(mem, n, m, 1, index, count);
    AtIs(mem, n, m, index, count);
    AtIs(mem, n + 1, m, 0, 1);
    AtIs(mem, n + 1, m, index + 1, count);
    AtIs(mem, n + 3, m, 1, 1);
    AtIs(mem, n + 3, m, index + 1, count);
    StringReads(mem, n + 1, m, 1, 0, 1);
    NoElementRead(child);
    Counted(child);
    Counted(At(mem, n + 3, m, 1, 1));
    OneMoreElement(child, [], child);
    ArrayConsumed(at, [] + [child], At(mem, n + 3, m, 1, 1));
    ItemReads(at);
  }

  lemma Counted(c: Cursor)
    ensures AtEnd(c) == (c.index == c.count)
  {
  }

  /** An array of two such arrays. */
  lemma DoubleReads(mem: seq<byte>, n: nat, m: nat, index: u64, count: u64)
    requires n + 7 <= m <= |mem| && 2 < |mem| < TWO64 && index < count && mem[n] == 0x82
    requires mem[n + 1] == 0x81 && mem[n + 2] == 0x41 && mem[n + 4] == 0x81 && mem[n + 5] == 0x41
    ensures var at := At(mem, n, m, index, count);
            && GetItem(at) == Got(Span(mem, n, n + 7), At(mem, n + 7, m, index + 1, count))
            && GetArray(at).Got? && Elements(GetArray(at).value).complete && |Elements(GetArray(at).value).all| == 2
  {
    hide *;
    var at, child, second := At(mem, n, m, index, count), At(mem, n + 1, m, 0, 2), At(mem, n + 4, m, 1, 2);
    ArrayReads(mem, n, m, 2, index, count);
    AtIs(mem, n, m, index, count);
    AtIs(mem, n + 1, m, 0, 2);
    AtIs(mem, n + 1, m, index + 1, count);
    AtIs(mem, n + 4, m, 1, 2);
    AtIs(mem, n + 7, m, 2, 2);
    AtIs(mem, n + 7, m, index + 1, count);
    SingleReads(mem, n + 1, m, 0, 2);
    SingleReads(mem, n + 4, m, 1, 2);
    NoElementRead(child);
    Counted(child);
    Counted(second);
    Counted(At(mem, n + 7, m, 2, 2));
    OneMoreElement(child, [], child);
    OneMoreElement(child, [] + [child], second);
    ArrayConsumed(at, [] + [child] + [second], At(mem, n + 7, m, 2, 2));
    ItemReads(at);
  }

  // Entries.

  lemma EntryThere(c: Cursor, key: Any, at: Cursor)
    requires !AtEnd(c) && GetAny(c) == Got(key, at) && !IsTag(key) && GetItem(at).Got?
    ensures Entries(c) == Cons(Entry(key, at), Entries(GetItem(at).next))
  {
    hide *;
    EntryRead(c, key, at);
    EntriesNext(c);
  }

  /** An entry whose key is a small integer. */
  lemma EntryReads(mem: seq<byte>, n: nat, m: nat, index: u64, count: u64)
    requires n < m <= |mem| < TWO64 && index + 1 < count && mem[n] < 24
    requires GetItem(At(mem, n + 1, m, index + 1, count)).Got?
    ensures var at := At(mem, n + 1, m, index + 1, count);
            Entries(At(mem, n, m, index, count)) == Cons(Entry(Small(mem[n]), at), Entries(GetItem(at).next))
  {
    IntegerReads(mem, n, m, index, count);
    SmallIsUint(mem[n]);
    hide GetAny, GetUint, GetItem, Entries, Small;
    EntryThere(At(mem, n, m, index, count), Small(mem[n]), At(mem, n + 1, m, index + 1, count));
  }

  lemma IntegerEntry(mem: seq<byte>, n: nat, m: nat, index: u64, count: u64)
    requires n + 2 <= m <= |mem| < TWO64 && index + 1 < count && mem[n] < 24 && mem[n + 1] < 24
    ensures Entries(At(mem, n, m, index, count))
         == Cons(Entry(Small(mem[n]), At(mem, n + 1, m, index + 1, count)),
                 Entries(At(mem, n + 2, m, index + 2, count)))
  {
    hide *;
    IntegerReads(mem, n + 1, m, index + 1, count);
    EntryReads(mem, n, m, index, count);
  }

  lemma StringEntry(mem: seq<byte>, n: nat, m: nat, size: nat, index: u64, count: u64)
    requires size < 24 && n + 2 + size <= m <= |mem| < TWO64 && index + 1 < count
    requires mem[n] < 24 && mem[n + 1] == 0x40 + size
    ensures Entries(At(mem, n, m, index, count))
         == Cons(Entry(Small(mem[n]), At(mem, n + 1, m, index + 1, count)),
                 Entries(At(mem, n + 2 + size, m, index + 2, count)))
  {
    hide *;
    StringReads(mem, n + 1, m, size, index + 1, count);
    EntryReads(mem, n, m, index, count);
  }

  lemma NoEntries(c: Cursor)
    requires AtEnd(c)
    ensures Entries(c) == Listing([], true)
  {
  }

  lemma EnvelopeOpens(mem: seq<byte>)
    requires 3 <= |mem| < TWO64 && mem[..2] == [0xD8, 0x6B] && mem[2] == 0xA1
    ensures EnvelopeMap(Whole(mem)) == Some(At(mem, 3, |mem|, 0, 2))
  {
    TagReads(mem);
    MapReads(mem, 2, |mem|, 1, 0, 1);
    hide GetTag, GetMap;
  }

  /** An envelope whose one entry is a byte string that ends with it. */
  lemma EnvelopeHolds(mem: seq<byte>, begin: nat)
    requires 5 <= begin <= |mem| < TWO64 && mem[..2] == [0xD8, 0x6B] && mem[2] == 0xA1 && mem[3] == 0x03
    requires GetBstr(At(mem, 4, |mem|, 1, 2)) == Got(Span(mem, begin, |mem|), At(mem, |mem|, |mem|, 2, 2))
    ensures FieldOf(Whole(mem), Label(SUIT_MANIFEST)) == Some(Span(mem, begin, |mem|))
  {
    hide *;
    EnvelopeOpens(mem);
    var at := At(mem, 4, |mem|, 1, 2);
    BstrIsItem(at);
    EntryReads(mem, 3, |mem|, 0, 2);
    EndOfMap(mem, |mem|, 2);
    OneField(Whole(mem), At(mem, 3, |mem|, 0, 2), at);
  }

  lemma EndOfMap(mem: seq<byte>, m: nat, count: u64)
    requires m <= |mem| < TWO64
    ensures Entries(At(mem, m, m, count, count)) == Listing([], true)
  {
  }

  lemma OneField(envelope: Range, c: Cursor, at: Cursor)
    requires EnvelopeMap(envelope) == Some(c) && Entries(c) == Cons(Entry(Small(3), at), Listing([], true))
    requires GetBstr(at).Got?
    ensures FieldOf(envelope, Label(SUIT_MANIFEST)) == Some(GetBstr(at).value)
  {
    hide EnvelopeMap, Entries, GetBstr, AllBstr, LastBstr, Small;
    OneEntry(Small(3), at);
    assert Entries(c).all == [Entry(Small(3), at)];
  }

  lemma BstrIsItem(at: Cursor)
    requires GetBstr(at).Got?
    ensures GetItem(at).Got? && GetItem(at).next == GetBstr(at).next
  {
    hide GetAny, GetItem;
    ScalarIsSubobject(at);
  }

  lemma OneEntry(key: Any, at: Cursor)
    requires key == Small(3) && GetBstr(at).Got?
    ensures AllBstr([Entry(key, at)], Label(SUIT_MANIFEST))
    ensures LastBstr([Entry(key, at)], Label(SUIT_MANIFEST)) == GetBstr(at).value
  {
    SmallIsUint(3);
    hide GetBstr;
  }

  // Manifests of four entries: version, sequence number, common block, install.

  predicate Under(e: Entry, k: u64) { IsUint(e.key) && e.key.value == k }

  lemma CommonEntry(e: Entry)
    requires Under(e, 3) && GetBstr(e.at).Got? && CommonParses(GetBstr(e.at).value)
    ensures ManifestValueFits(e)
  {
    hide GetBstr, CommonParses;
  }

  lemma InstallEntry(e: Entry)
    requires Under(e, 9) && GetBstr(e.at).Got?
    ensures ManifestValueFits(e) && SeverableAt(e.at) == Body(GetBstr(e.at).value)
  {
    hide GetBstr, CommonParses;
  }

  lemma HeaderEntries(es: seq<Entry>)
    requires |es| >= 2 && Under(es[0], 1) && GetUint(es[0].at).Got? && GetUint(es[0].at).value == 1
    requires Under(es[1], 2) && GetUint(es[1].at).Got?
    ensures HeaderFits(es)
  {
    hide GetUint;
  }

  lemma ValuesFit(es: seq<Entry>)
    requires |es| == 4 && HeaderFits(es) && ManifestValueFits(es[2]) && ManifestValueFits(es[3])
    ensures ManifestEntriesFit(es)
  {
    hide HeaderFits, ManifestValueFits;
    forall i | 2 <= i < |es| ensures ManifestValueFits(es[i]) {
      assert i == 2 || i == 3;
    }
  }

  lemma LastOfFour(a: Entry, b: Entry, c: Entry, d: Entry)
    requires Under(c, 3) && Under(d, 9)
    ensures Last([a, b, c, d], Label(SUIT_COMMON)) == Some(c) && Last([a, b, c, d], Label(SUIT_INSTALL)) == Some(d)
  {
    assert [a, b, c, d] == [a, b, c] + [d] && [a, b, c] == [a, b] + [c];
    hide Last;
    LastOfMore([a, b, c], d, Label(SUIT_COMMON));
    LastOfMore([a, b], c, Label(SUIT_COMMON));
    LastOfMore([a, b, c], d, Label(SUIT_INSTALL));
  }

  lemma FoundThere(es: seq<Entry>, c: Entry, d: Entry)
    requires ManifestEntriesFit(es) && GetBstr(c.at).Got? && SeverableAt(d.at).Body?
    requires Last(es, Label(SUIT_COMMON)) == Some(c) && Last(es, Label(SUIT_INSTALL)) == Some(d)
    ensures ManifestListing(Listing(es, true)) && LastSeverable(es, Label(SUIT_INSTALL)) == SeverableAt(d.at)
    ensures LastBstr(es, Label(SUIT_COMMON)) == GetBstr(c.at).value
  {
    hide GetBstr, Last, ManifestEntriesFit, SeverableAt;
  }

  function FourList(a: Entry, b: Entry, c: Entry, d: Entry): Listing<Entry>
  {
    Cons(a, Cons(b, Cons(c, Cons(d, Listing([], true)))))
  }

  lemma FourCons(a: Entry, b: Entry, c: Entry, d: Entry)
    ensures FourList(a, b, c, d) == Listing([a, b, c, d], true)
  {
  }

  /** What makes four such entries a manifest. */
  lemma FourEntries(a: Entry, b: Entry, c: Entry, d: Entry)
    requires Under(a, 1) && GetUint(a.at).Got? && GetUint(a.at).value == 1
    requires Under(b, 2) && GetUint(b.at).Got?
    requires Under(c, 3) && GetBstr(c.at).Got? && CommonParses(GetBstr(c.at).value)
    requires Under(d, 9) && GetBstr(d.at).Got?
    ensures ManifestListing(FourList(a, b, c, d))
    ensures LastBstr(FourList(a, b, c, d).all, Label(SUIT_COMMON)) == GetBstr(c.at).value
    ensures LastSeverable(FourList(a, b, c, d).all, Label(SUIT_INSTALL)) == Body(GetBstr(d.at).value)
  {
    hide *;
    CommonEntry(c);
    InstallEntry(d);
    var es := [a, b, c, d];
    FourCons(a, b, c, d);
    HeaderEntries(es);
    ValuesFit(es);
    LastOfFour(a, b, c, d);
    FoundThere(es, c, d);
  }

  /** The entry of a map of four whose key is at `n`. */
  function EntryOf(mem: seq<byte>, n: nat, index: u64): Entry
    requires n < |mem| < TWO64 && mem[n] < 24 && index < 7
  {
    Entry(Small(mem[n]), At(mem, n + 1, |mem|, index + 1, 8))
  }

  lemma EntryOfIs(mem: seq<byte>, n: nat, index: u64)
    requires n < |mem| < TWO64 && mem[n] < 24 && index < 7
    ensures var e := EntryOf(mem, n, index);
            e == Entry(Small(mem[n]), At(mem, n + 1, |mem|, index + 1, 8)) && Under(e, mem[n])
  {
    SmallIsUint(mem[n]);
  }

  lemma IntegerEntryOf(mem: seq<byte>, n: nat, index: u64)
    requires n + 2 <= |mem| && 8 < |mem| < TWO64 && index < 7 && mem[n] < 24 && mem[n + 1] < 24
    ensures var e := EntryOf(mem, n, index);
            && Entries(At(mem, n, |mem|, index, 8)) == Cons(e, Entries(At(mem, n + 2, |mem|, index + 2, 8)))
            && Under(e, mem[n]) && GetUint(e.at).Got? && GetUint(e.at).value == mem[n + 1]
  {
    hide *;
    EntryOfIs(mem, n, index);
    IntegerReads(mem, n + 1, |mem|, index + 1, 8);
    IntegerEntry(mem, n, |mem|, index, 8);
  }

  lemma StringEntryOf(mem: seq<byte>, n: nat, size: nat, index: u64)
    requires size < 24 && n + 2 + size <= |mem| && 8 < |mem| < TWO64 && index < 7
    requires mem[n] < 24 && mem[n + 1] == 0x40 + size
    ensures var e := EntryOf(mem, n, index);
            && Entries(At(mem, n, |mem|, index, 8)) == Cons(e, Entries(At(mem, n + 2 + size, |mem|, index + 2, 8)))
            && Under(e, mem[n]) && GetBstr(e.at).Got? && GetBstr(e.at).value == Span(mem, n + 2, n + 2 + size)
  {
    hide *;
    EntryOfIs(mem, n, index);
    StringReads(mem, n + 1, |mem|, size, index + 1, 8);
    StringEntry(mem, n, |mem|, size, index, 8);
  }

  lemma FourOpens(mem: seq<byte>, begin: nat)
    requires begin < |mem| < TWO64 && mem[begin] == 0xA4
    ensures GetMap(Toplevel(Span(mem, begin, |mem|))).Got?
    ensures GetMap(Toplevel(Span(mem, begin, |mem|))).value == At(mem, begin + 1, |mem|, 0, 8)
  {
    MapReads(mem, begin, |mem|, 4, 0, 1);
    hide GetMap;
  }

  /** A map of four entries from `begin` to the end, with small integers and two strings as its values. */
  predicate Four(mem: seq<byte>, begin: nat, m: nat, n: nat)
  {
    && |mem| < TWO64 && m < 24 && n < 24 && begin + 9 + m + n == |mem|
    && mem[begin] == 0xA4 && mem[begin + 1] == 1 && mem[begin + 2] == 1 && mem[begin + 3] == 2 && mem[begin + 4] < 24
    && mem[begin + 5] == 3 && mem[begin + 6] == 0x40 + m
    && mem[begin + 7 + m] == 9 && mem[begin + 8 + m] == 0x40 + n
  }

  function FourOf(mem: seq<byte>, begin: nat, m: nat, n: nat): Listing<Entry>
    requires Four(mem, begin, m, n)
  {
    FourList(EntryOf(mem, begin + 1, 0), EntryOf(mem, begin + 3, 2), EntryOf(mem, begin + 5, 4),
             EntryOf(mem, begin + 7 + m, 6))
  }

  lemma TwoStrings(mem: seq<byte>, i: nat, j: nat)
    requires i + 2 <= j && j + 2 <= |mem| && 8 < |mem| < TWO64 && j < i + 26 && |mem| < j + 26
    requires mem[i] == 3 && mem[i + 1] == 0x40 + (j - i - 2) && mem[j] == 9 && mem[j + 1] == 0x40 + (|mem| - j - 2)
    ensures var c, d := EntryOf(mem, i, 4), EntryOf(mem, j, 6);
            && Entries(At(mem, i, |mem|, 4, 8)) == Cons(c, Entries(At(mem, j, |mem|, 6, 8)))
            && Entries(At(mem, j, |mem|, 6, 8)) == Cons(d, Listing([], true))
            && Under(c, 3) && GetBstr(c.at).Got? && GetBstr(c.at).value == Span(mem, i + 2, j)
            && Under(d, 9) && GetBstr(d.at).Got? && GetBstr(d.at).value == Span(mem, j + 2, |mem|)
  {
    hide *;
    StringEntryOf(mem, i, j - i - 2, 4);
    StringEntryOf(mem, j, |mem| - j - 2, 6);
    EndOfMap(mem, |mem|, 8);
  }

  lemma FourParts(mem: seq<byte>, begin: nat, m: nat, n: nat)
    requires Four(mem, begin, m, n)
    ensures var i, k, l := begin + 1, begin + 5, begin + 7 + m;
            && i + 4 == k && k + 2 <= l && l + 2 <= |mem| && 8 < |mem| < TWO64 && l < k + 26 && |mem| < l + 26
            && mem[i] == 1 && mem[i + 1] == 1 && mem[i + 2] == 2 && mem[i + 3] < 24
            && mem[k] == 3 && mem[k + 1] == 0x40 + (l - k - 2) && mem[l] == 9 && mem[l + 1] == 0x40 + (|mem| - l - 2)
            && FourOf(mem, begin, m, n)
            == FourList(EntryOf(mem, i, 0), EntryOf(mem, i + 2, 2), EntryOf(mem, k, 4), EntryOf(mem, l, 6))
  {
    hide EntryOf, FourList;
  }

  lemma FourRead(mem: seq<byte>, begin: nat, m: nat, n: nat)
    requires Four(mem, begin, m, n)
    ensures Entries(At(mem, begin + 1, |mem|, 0, 8)) == FourOf(mem, begin, m, n)
  {
    hide *;
    FourParts(mem, begin, m, n);
    var i, k, l := begin + 1, begin + 5, begin + 7 + m;
    IntegerEntryOf(mem, i, 0);
    IntegerEntryOf(mem, i + 2, 2);
    TwoStrings(mem, k, l);
    FourListed(mem, i, i + 2, k, l);
  }

  lemma FourFit(mem: seq<byte>, begin: nat, m: nat, n: nat)
    requires Four(mem, begin, m, n) && CommonParses(Span(mem, begin + 7, begin + 7 + m))
    ensures var l := FourOf(mem, begin, m, n);
            && ManifestListing(l) && LastBstr(l.all, Label(SUIT_COMMON)) == Span(mem, begin + 7, begin + 7 + m)
            && LastSeverable(l.all, Label(SUIT_INSTALL)) == Body(Span(mem, begin + 9 + m, |mem|))
  {
    hide *;
    FourParts(mem, begin, m, n);
    var i, k, l := begin + 1, begin + 5, begin + 7 + m;
    IntegerEntryOf(mem, i, 0);
    IntegerEntryOf(mem, i + 2, 2);
    TwoStrings(mem, k, l);
    FourEntries(EntryOf(mem, i, 0), EntryOf(mem, i + 2, 2), EntryOf(mem, k, 4), EntryOf(mem, l, 6));
  }

  lemma FourListed(mem: seq<byte>, i: nat, j: nat, k: nat, l: nat)
    requires i < j < k < l < |mem| < TWO64 && mem[i] < 24 && mem[j] < 24 && mem[k] < 24 && mem[l] < 24
    requires Entries(At(mem, i, |mem|, 0, 8)) == Cons(EntryOf(mem, i, 0), Entries(At(mem, j, |mem|, 2, 8)))
    requires Entries(At(mem, j, |mem|, 2, 8)) == Cons(EntryOf(mem, j, 2), Entries(At(mem, k, |mem|, 4, 8)))
    requires Entries(At(mem, k, |mem|, 4, 8)) == Cons(EntryOf(mem, k, 4), Entries(At(mem, l, |mem|, 6, 8)))
    requires Entries(At(mem, l, |mem|, 6, 8)) == Cons(EntryOf(mem, l, 6), Listing([], true))
    ensures Entries(At(mem, i, |mem|, 0, 8))
         == FourList(EntryOf(mem, i, 0), EntryOf(mem, j, 2), EntryOf(mem, k, 4), EntryOf(mem, l, 6))
  {
    hide Entries, EntryOf, Cons, At;
  }

  /** An envelope with such a manifest parses, and these are its common block and its install sequence. */
  lemma ManifestHolds(mem: seq<byte>, begin: nat, m: nat, n: nat)
    requires Four(mem, begin, m, n) && CommonParses(Span(mem, begin + 7, begin + 7 + m))
    requires FieldOf(Whole(mem), Label(SUIT_MANIFEST)) == Some(Span(mem, begin, |mem|))
    ensures var o := ManifestOf(Whole(mem));
            && o.Some? && o.value.common == CommonOf(Span(mem, begin + 7, begin + 7 + m))
            && o.value.install == Body(Span(mem, begin + 9 + m, |mem|))
  {
    FourOpens(mem, begin);
    hide *;
    FourRead(mem, begin, m, n);
    FourFit(mem, begin, m, n);
    ManifestThere(Whole(mem), Span(mem, begin, |mem|));
  }

  lemma ManifestThere(envelope: Range, binary: Range)
    requires FieldOf(envelope, Label(SUIT_MANIFEST)) == Some(binary) && GetMap(Toplevel(binary)).Got?
    requires ManifestListing(Entries(GetMap(Toplevel(binary)).value))
    ensures var o, es := ManifestOf(envelope), Entries(GetMap(Toplevel(binary)).value).all;
            && o.Some? && o.value.common == CommonOf(LastBstr(es, Label(SUIT_COMMON)))
            && o.value.install == LastSeverable(es, Label(SUIT_INSTALL))
  {
    hide FieldOf, Entries, GetMap, LastSeverable, LastBstr, CommonOf, GetUint;
  }
}
