/** Envelopes as they are written with preferred heads, and what they hold when they are read. */
module SuitWritten {
  import opened Wrappers
  import opened Bytes
  import opened CborHead
  import opened CborItems
  import opened CborReader
  import opened CborTrees
  import opened SuitEnvelope
  import opened SuitAuthenticate
  import opened SuitManifest
  import opened SuitOctets

  // Items.

  /** A byte string as it is written. */
  function Bstr(p: Octets): seq<byte>
  {
    EncodeHead(2, |p|) + p
  }

  /** A text. */
  function Tstr(p: Octets): seq<byte>
  {
    EncodeHead(3, |p|) + p
  }

  /** An array of these items. */
  function ArrayOf(items: seq<seq<byte>>): seq<byte>
    requires |items| < TWO64
  {
    EncodeHead(4, |items|) + Concat(items)
  }

  function Concat(items: seq<seq<byte>>): seq<byte>
  {
    if items == [] then [] else items[0] + Concat(items[1..])
  }

  /** The octets are one item. */
  predicate IsItem(p: seq<byte>) { Item(p) == Done([]) }

  lemma HeadNext(c: Cursor, mt: byte, v: u64, rest: seq<byte>)
    requires !AtEnd(c) && mt in {0, 1, 4, 5, 6} && Data(c.r) == EncodeHead(mt, v) + rest
    ensures var g := GetAny(c);
            && g.Got? && Major(g.value.header) == mt && g.value == Argument(g.value.header, v)
            && Data(g.next.r) == rest && g.next.count == c.count
            && g.next.index == c.index + if mt == 6 then 0 else 1
  {
    HeadRoundTrip(mt, v, rest);
    hide ReadHead, EncodeHead, GetAny;
    HeadTaken(c);
  }

  lemma StringNext(c: Cursor, mt: byte, p: seq<byte>, rest: seq<byte>)
    requires !AtEnd(c) && mt in {2, 3} && |p| < TWO64 && Data(c.r) == EncodeHead(mt, |p|) + p + rest
    ensures var g := GetAny(c);
            && g.Got? && Major(g.value.header) == mt && g.value.Payload? && Data(g.value.bytes) == p
            && Data(g.next.r) == rest && g.next.count == c.count && g.next.index == c.index + 1
  {
    Sliced(EncodeHead(mt, |p|), p, rest);
    HeadRoundTrip(mt, |p|, p + rest);
    hide ReadHead, EncodeHead, GetAny, Data;
    HeadTaken(c);
  }

  lemma Sliced(h: seq<byte>, p: seq<byte>, rest: seq<byte>)
    ensures var s := h + p + rest;
            s == h + (p + rest) && s[|h|..|h| + |p|] == p && s[|h| + |p|..] == rest
  {
  }

  lemma BstrNext(c: Cursor, p: seq<byte>, rest: seq<byte>)
    requires !AtEnd(c) && |p| < TWO64 && Data(c.r) == Bstr(p) + rest
    ensures var g := GetBstr(c);
            && g.Got? && Data(g.value) == p && Data(g.next.r) == rest
            && g.next.count == c.count && g.next.index == c.index + 1
  {
    hide EncodeHead, GetAny, Data;
    StringNext(c, 2, p, rest);
  }

  lemma {:induction false} BstrIsItem(p: seq<byte>)
    requires |p| < TWO64
    ensures IsItem(Bstr(p))
  {
    HeadRoundTrip(2, |p|, p);
    hide ReadHead, EncodeHead, Item, Items;
    ScalarItem(Bstr(p));
  }

  lemma UintIsItem(v: u64)
    ensures IsItem(EncodeHead(0, v))
  {
    assert EncodeHead(0, v) + [] == EncodeHead(0, v);
    HeadRoundTrip(0, v, []);
    hide ReadHead, EncodeHead, Item, Items;
    ScalarItem(EncodeHead(0, v));
  }

  lemma {:induction false} ConcatParses(items: seq<seq<byte>>)
    requires forall p <- items :: IsItem(p)
    ensures Items(Concat(items), |items|) == Done([])
  {
    hide Item;
    if items != [] {
      assert IsItem(items[0]);
      ItemLocality(items[0], Concat(items[1..]));
      assert Taken(items[0], []) == items[0];
      ItemsNext(Concat(items), |items|);
      ConcatParses(items[1..]);
    }
  }

  lemma ArrayIsItem(items: seq<seq<byte>>)
    requires |items| < TWO64 && forall p <- items :: IsItem(p)
    ensures IsItem(ArrayOf(items))
  {
    HeadRoundTrip(4, |items|, Concat(items));
    ConcatParses(items);
    hide ReadHead, EncodeHead, Item, Items, Concat;
    ItemHead(ArrayOf(items));
  }

  /** An item is taken whole. */
  lemma ItemNext(c: Cursor, p: seq<byte>, rest: seq<byte>)
    requires !AtEnd(c) && IsItem(p) && Data(c.r) == p + rest
    ensures var g := GetItem(c);
            && g.Got? && g.value.Span? && Data(g.value) == p && Data(g.next.r) == rest
            && g.next.count == c.count && g.next.index == c.index + 1
  {
    ItemLocality(p, rest);
    assert Taken(p, []) == p;
    hide Item;
    OneItem(c, rest);
  }

  lemma OneItem(c: Cursor, rest: seq<byte>)
    requires !AtEnd(c) && Item(Data(c.r)) == Done(rest)
    ensures var g := GetItem(c);
            && g.Got? && g.value.Span? && Data(c.r) == Data(g.value) + rest && Data(g.next.r) == rest
            && g.next.count == c.count && g.next.index == c.index + 1
  {
    hide Item;
    assert Items(Data(c.r), 1) == Done(rest);
  }

  // Entries.

  /** The entry of a small integer and an item. */
  lemma EntryNext(c: Cursor, key: byte, p: seq<byte>, rest: seq<byte>) returns (e: Entry, next: Cursor)
    requires c.index + 2 <= c.count && key < 24 && IsItem(p) && Data(c.r) == [key] + (p + rest)
    ensures Entries(c) == Cons(e, Entries(next)) && IsUint(e.key) && e.key.value == key
    ensures !AtEnd(e.at) && Data(e.at.r) == p + rest
    ensures Data(next.r) == rest && next.count == c.count && next.index == c.index + 2
  {
    SmallHead(key);
    hide GetAny, GetItem, Entries, EncodeHead, IsItem, Data;
    HeadNext(c, 0, key, p + rest);
    e := Entry(GetAny(c).value, GetAny(c).next);
    ItemNext(e.at, p, rest);
    next := GetItem(e.at).next;
    EntryRead(c, e.key, e.at);
    EntriesNext(c);
  }

  lemma SmallHead(v: byte)
    requires v < 24
    ensures EncodeHead(0, v) == [v]
  {
  }

  /** The entry of a name and a byte string. */
  lemma NamedEntryNext(c: Cursor, name: seq<byte>, p: seq<byte>, rest: seq<byte>) returns (e: Entry, next: Cursor)
    requires c.index + 2 <= c.count && |name| < TWO64 && |p| < TWO64 && Data(c.r) == Tstr(name) + (Bstr(p) + rest)
    ensures Entries(c) == Cons(e, Entries(next)) && IsTstr(e.key) && Data(e.key.bytes) == name
    ensures GetBstr(e.at).Got? && Data(GetBstr(e.at).value) == p && GetBstr(e.at).value.Span?
    ensures Data(next.r) == rest && next.count == c.count && next.index == c.index + 2
  {
    hide GetAny, GetItem, GetBstr, Entries, EncodeHead, Bstr, Data;
    StringNext(c, 3, name, Bstr(p) + rest);
    e := Entry(GetAny(c).value, GetAny(c).next);
    BstrNext(e.at, p, rest);
    BstrIsItem(p);
    hide IsItem;
    ItemNext(e.at, Bstr(p), rest);
    next := GetItem(e.at).next;
    EntryRead(c, e.key, e.at);
    EntriesNext(c);
  }

  // Envelopes.

  /** A further entry of an envelope, under a name. */
  datatype Extra = Extra(name: Octets, body: Octets)

  function AllExtras(xs: seq<Extra>): seq<byte>
  {
    if xs == [] then [] else Tstr(xs[0].name) + (Bstr(xs[0].body) + AllExtras(xs[1..]))
  }

  /** 107({2: wrapper, 3: manifest, name: body, ...}) */
  function EnvelopeOctets(wrapper: Octets, manifest: Octets, xs: seq<Extra>): seq<byte>
    requires 2 * |xs| + 4 < TWO64
  {
    EncodeHead(6, 107)
    + (EncodeHead(5, 2 + |xs|) + ([2] + (Bstr(wrapper) + ([3] + (Bstr(manifest) + AllExtras(xs))))))
  }

  /** The entries from the names on. */
  predicate AreExtras(es: seq<Entry>, xs: seq<Extra>)
  {
    |es| == |xs| && forall i | 0 <= i < |es| :: IsExtra(es[i], xs[i])
  }

  predicate IsExtra(e: Entry, x: Extra)
  {
    && IsTstr(e.key) && Data(e.key.bytes) == x.name
    && GetBstr(e.at).Got? && Data(GetBstr(e.at).value) == x.body && GetBstr(e.at).value.Span?
  }

  lemma {:induction false} ExtrasRead(c: Cursor, xs: seq<Extra>) returns (es: seq<Entry>)
    requires c.count == c.index + 2 * |xs| && Data(c.r) == AllExtras(xs)
    ensures Entries(c) == Listing(es, true) && |es| == |xs| && AreExtras(es, xs)
    decreases |xs|
  {
    hide GetAny, GetBstr, Entries, EncodeHead, Bstr, Tstr, Data, AreExtras;
    if xs == [] {
      es := [];
      NoEntries(c);
      NoExtras();
    } else {
      var e, next := NamedEntryNext(c, xs[0].name, xs[0].body, AllExtras(xs[1..]));
      var others := ExtrasRead(next, xs[1..]);
      es := [e] + others;
      MoreExtras(e, others, xs);
    }
  }

  lemma NoExtras()
    ensures AreExtras([], [])
  {
  }

  lemma MoreExtras(e: Entry, es: seq<Entry>, xs: seq<Extra>)
    requires xs != [] && AreExtras(es, xs[1..]) && IsExtra(e, xs[0])
    ensures AreExtras([e] + es, xs)
  {
    hide IsExtra;
    forall i | 0 <= i < |xs| ensures IsExtra(([e] + es)[i], xs[i]) {
      assert i > 0 ==> ([e] + es)[i] == es[i - 1] && xs[1..][i - 1] == xs[i];
    }
  }

  /** What an envelope holds when it is read: its wrapper, its manifest, and what is under the names. */
  lemma EnvelopeReads(envelope: Range, wrapper: Octets, manifest: Octets, xs: seq<Extra>)
      returns (es: seq<Entry>)
    requires 2 * |xs| + 4 < TWO64
    requires Data(envelope) == EnvelopeOctets(wrapper, manifest, xs)
    ensures EnvelopeMap(envelope).Some? && Entries(EnvelopeMap(envelope).value) == Listing(es, true)
    ensures |es| == 2 + |xs| && AreExtras(es[2..], xs)
    ensures IsUint(es[0].key) && es[0].key.value == 2 && IsUint(es[1].key) && es[1].key.value == 3
    ensures GetBstr(es[0].at).Got? && Data(GetBstr(es[0].at).value) == wrapper
    ensures GetBstr(es[1].at).Got? && Data(GetBstr(es[1].at).value) == manifest
  {
    hide EncodeHead, Bstr, GetAny, GetBstr, Entries, EnvelopeMap, AllExtras, Data, AreExtras, IsItem;
    var top := Toplevel(envelope);
    var third := [3] + (Bstr(manifest) + AllExtras(xs));
    var second := [2] + (Bstr(wrapper) + third);
    HeadNext(top, 6, 107, EncodeHead(5, 2 + |xs|) + second);
    HeadNext(GetAny(top).next, 5, 2 + |xs|, second);
    var c := Opened(envelope, 2 + |xs|);
    BstrIsItem(wrapper);
    BstrIsItem(manifest);
    var e, next := EntryNext(c, 2, Bstr(wrapper), third);
    BstrNext(e.at, wrapper, third);
    var f, last := EntryNext(next, 3, Bstr(manifest), AllExtras(xs));
    BstrNext(f.at, manifest, AllExtras(xs));
    var others := ExtrasRead(last, xs);
    es := [e, f] + others;
    assert es[2..] == others;
  }

  lemma Opened(envelope: Range, pairs: u64) returns (c: Cursor)
    requires 2 * pairs < TWO64
    requires var g := GetAny(Toplevel(envelope));
             g.Got? && Major(g.value.header) == 6 && g.value.Argument? && g.value.value == 107
    requires var g := GetAny(GetAny(Toplevel(envelope)).next);
             g.Got? && Major(g.value.header) == 5 && g.value.Argument? && g.value.value == pairs
    ensures EnvelopeMap(envelope) == Some(c)
    ensures c == Position(GetAny(GetAny(Toplevel(envelope)).next).next.r, 0, 2 * pairs)
  {
    hide GetAny;
    c := Position(GetAny(GetAny(Toplevel(envelope)).next).next.r, 0, 2 * pairs);
  }

  /** So its fields are these. */
  lemma FieldsRead(envelope: Range, wrapper: Octets, manifest: Octets, xs: seq<Extra>)
    requires 2 * |xs| + 4 < TWO64
    requires Data(envelope) == EnvelopeOctets(wrapper, manifest, xs)
    ensures var w, m := FieldOf(envelope, Label(2)), FieldOf(envelope, Label(3));
            w.Some? && Data(w.value) == wrapper && m.Some? && Data(m.value) == manifest
  {
    hide EnvelopeOctets, GetBstr, Entries, EnvelopeMap, Data, AllBstr, LastBstr;
    var es := EnvelopeReads(envelope, wrapper, manifest, xs);
    FieldsAmong(es, xs);
  }

  lemma FieldsAmong(es: seq<Entry>, xs: seq<Extra>)
    requires |es| == 2 + |xs| && AreExtras(es[2..], xs)
    requires IsUint(es[0].key) && es[0].key.value == 2 && IsUint(es[1].key) && es[1].key.value == 3
    requires GetBstr(es[0].at).Got? && GetBstr(es[1].at).Got?
    ensures AllBstr(es, Label(2)) && LastBstr(es, Label(2)) == GetBstr(es[0].at).value
    ensures AllBstr(es, Label(3)) && LastBstr(es, Label(3)) == GetBstr(es[1].at).value
  {
    hide GetBstr, Last, Data;
    forall i | 2 <= i < |es| ensures !Matches(Label(2), es[i].key) && !Matches(Label(3), es[i].key) {
      assert es[i] == es[2..][i - 2];
    }
    hide AreExtras, Matches;
    LastBefore(es, 1, Label(2));
    LastBefore(es, 2, Label(3));
  }

  /** Entries with other keys after an entry do not hide it. */
  lemma {:induction false} LastBefore(es: seq<Entry>, n: nat, key: Key)
    requires 0 < n <= |es| && Matches(key, es[n - 1].key)
    requires forall i | n <= i < |es| :: !Matches(key, es[i].key)
    ensures Last(es, key) == Some(es[n - 1])
  {
    hide Matches;
    if n < |es| {
      LastBefore(es[..|es| - 1], n, key);
    }
  }

  // Authentication wrappers.

  function AllBstrs(ps: seq<Octets>): seq<byte>
  {
    if ps == [] then [] else Bstr(ps[0]) + AllBstrs(ps[1..])
  }

  /** A digest, and the auth blocks. */
  function WrapperOctets(digest: Octets, blocks: seq<Octets>): seq<byte>
    requires 1 + |blocks| < TWO64
  {
    EncodeHead(4, 1 + |blocks|) + (Bstr(digest) + AllBstrs(blocks))
  }

  /** An algorithm and a digest: SHA-256 is -16, which is written as 15 with major type 1. */
  function DigestOctets(hash: Octets): seq<byte>
  {
    EncodeHead(4, 2) + (EncodeHead(1, 15) + Bstr(hash))
  }

  lemma {:induction false} BlocksRead(c: Cursor, blocks: seq<Octets>)
    requires c.count == c.index + |blocks| && Data(c.r) == AllBstrs(blocks)
    ensures var l := Bstrs(c);
            l.complete && |l.all| == |blocks| && forall i | 0 <= i < |blocks| :: Data(l.all[i]) == blocks[i]
    decreases |blocks|
  {
    hide GetBstr, Bstr, Data;
    BstrsNext(c);
    if blocks != [] {
      BstrNext(c, blocks[0], AllBstrs(blocks[1..]));
      hide Bstrs;
      BlocksRead(GetBstr(c).next, blocks[1..]);
    }
  }

  /** What a wrapper holds when it is read. */
  lemma WrapperReads(wrapper: Range, digest: Octets, blocks: seq<Octets>)
    requires 1 + |blocks| < TWO64 && Data(wrapper) == WrapperOctets(digest, blocks)
    ensures var items := GetArray(Toplevel(wrapper));
            && items.Got? && GetBstr(items.value).Got? && Data(GetBstr(items.value).value) == digest
            && var l := Bstrs(GetBstr(items.value).next);
               l.complete && |l.all| == |blocks| && forall i | 0 <= i < |blocks| :: Data(l.all[i]) == blocks[i]
  {
    hide EncodeHead, Bstr, GetAny, GetBstr, Bstrs, AllBstrs, Data;
    HeadNext(Toplevel(wrapper), 4, 1 + |blocks|, Bstr(digest) + AllBstrs(blocks));
    var c := Position(GetAny(Toplevel(wrapper)).next.r, 0, 1 + |blocks|);
    BstrNext(c, digest, AllBstrs(blocks));
    BlocksRead(GetBstr(c).next, blocks);
  }

  /** What a digest holds when it is read. */
  lemma DigestReads(digest: Range, hash: Octets)
    requires Data(digest) == DigestOctets(hash)
    ensures var g := GetDigest(Toplevel(digest));
            g.Got? && g.value.algorithm == -16 && Data(g.value.bytes) == hash
  {
    assert Data(digest) == EncodeHead(4, 2) + (EncodeHead(1, 15) + Bstr(hash));
    hide *;
    ArrayOpens(digest, 2, EncodeHead(1, 15) + Bstr(hash));
    var c := GetArray(Toplevel(digest)).value;
    AtEndIs(c);
    MinusSixteen(c, Bstr(hash));
    assert Bstr(hash) == Bstr(hash) + [];
    var d := GetInt(c).next;
    AtEndIs(d);
    BstrNext(d, hash, []);
    NothingSkipped(GetBstr(d).next);
    DigestThere(Toplevel(digest), c, -16, d, GetBstr(d).value, GetBstr(d).next);
  }

  lemma AtEndIs(c: Cursor)
    ensures AtEnd(c) == (c.index == c.count)
  {
  }

  lemma ArrayOpens(r: Range, n: u64, rest: seq<byte>)
    requires Data(r) == EncodeHead(4, n) + rest
    ensures var g := GetArray(Toplevel(r));
            g.Got? && g.value.index == 0 && g.value.count == n && Data(g.value.r) == rest
  {
    hide EncodeHead, GetAny, Data;
    HeadNext(Toplevel(r), 4, n, rest);
  }

  lemma DigestThere(at: Cursor, items: Cursor, algorithm: int, afterId: Cursor, bytes: Range, afterBytes: Cursor)
    requires GetArray(at).Got? && GetArray(at).value == items
    requires GetInt(items) == Got(algorithm, afterId) && GetBstr(afterId) == Got(bytes, afterBytes)
    requires GetSkip(afterBytes, afterBytes.count - afterBytes.index).Got?
    ensures GetDigest(at).Got? && GetDigest(at).value == Digest(algorithm, bytes)
  {
    hide GetArray, GetInt, GetBstr, GetSkip, GetAny, Items, Data, Within, Follows, Resumes;
  }

  lemma MinusSixteen(c: Cursor, rest: seq<byte>)
    requires !AtEnd(c) && Data(c.r) == EncodeHead(1, 15) + rest
    ensures GetInt(c).Got? && GetInt(c).value == -16
    ensures var d := GetInt(c).next; Data(d.r) == rest && d.count == c.count && d.index == c.index + 1
  {
    hide EncodeHead, GetAny, Data, ToInt32, ToU64, Complement;
    HeadNext(c, 1, 15, rest);
    TruncationKeeps(15);
  }

  lemma NothingSkipped(c: Cursor)
    ensures GetSkip(c, 0).Got?
  {
  }

  // Manifests.

  /** {2: components, 4: sequence} */
  function CommonOctets(components: seq<seq<byte>>, sequence: Octets): seq<byte>
    requires |components| < TWO64
  {
    EncodeHead(5, 2) + ([2] + (ArrayOf(components) + ([4] + (Bstr(sequence) + []))))
  }

  /** What goes into a manifest. */
  datatype Contents = Contents(sequenceNumber: u64, components: seq<seq<byte>>, sequence: Octets, install: Octets)

  predicate Writable(c: Contents)
  {
    && |c.components| <= SUIT_COMPONENT_MAX && (forall p <- c.components :: IsItem(p))
    && |CommonOctets(c.components, c.sequence)| < TWO64
    && |ManifestOctets(c.sequenceNumber, CommonOctets(c.components, c.sequence), c.install)| < TWO64
  }

  /** {1: 1, 2: sequence number, 3: common, 9: install} */
  function ManifestOctets(sequenceNumber: u64, common: Octets, install: Octets): seq<byte>
  {
    EncodeHead(5, 4)
    + ([1] + (EncodeHead(0, 1)
    + ([2] + (EncodeHead(0, sequenceNumber)
    + ([3] + (Bstr(common)
    + ([9] + (Bstr(install) + []))))))))
  }

  function Binary(c: Contents): Octets
    requires Writable(c)
  {
    ManifestOctets(c.sequenceNumber, CommonOctets(c.components, c.sequence), c.install)
  }

  /** A parsed manifest has these contents. */
  predicate HasContents(m: Manifest, c: Contents)
  {
    && m.version == 1 && m.sequenceNumber == c.sequenceNumber && HasCommon(m.common, c)
    && m.install.Body? && m.install.body.Span? && Data(m.install.body) == c.install
  }

  predicate HasCommon(common: Common, c: Contents)
  {
    && common.nDependencies == 0 && |common.components| == |c.components|
    && (forall i | 0 <= i < |c.components| :: Data(common.components[i]) == c.components[i])
    && common.commandSequence.Span? && Data(common.commandSequence) == c.sequence
  }

  /** The items of an array, when they are read. */
  lemma {:induction false} ElementsRead(c: Cursor, items: seq<seq<byte>>, rest: seq<byte>)
    requires (forall p <- items :: IsItem(p)) && c.count == c.index + |items| && Data(c.r) == Concat(items) + rest
    ensures var l := Elements(c);
            l.complete && |l.all| == |items| && forall i | 0 <= i < |items| :: Data(ItemAt(l.all[i])) == items[i]
    decreases |items|
  {
    hide GetItem, Data, IsItem;
    ElementsNext(c);
    if items != [] {
      assert IsItem(items[0]);
      assert Concat(items) + rest == items[0] + (Concat(items[1..]) + rest);
      ItemNext(c, items[0], Concat(items[1..]) + rest);
      hide Elements;
      ElementsRead(GetItem(c).next, items[1..], rest);
    }
  }

  lemma ArrayReads(c: Cursor, items: seq<seq<byte>>, rest: seq<byte>)
    requires !AtEnd(c) && |items| < TWO64 && (forall p <- items :: IsItem(p)) && Data(c.r) == ArrayOf(items) + rest
    ensures GetArray(c).Got?
    ensures var l := Elements(GetArray(c).value);
            l.complete && |l.all| == |items| && forall i | 0 <= i < |items| :: Data(ItemAt(l.all[i])) == items[i]
  {
    hide EncodeHead, GetAny, Data, IsItem, Concat, Elements;
    assert ArrayOf(items) + rest == EncodeHead(4, |items|) + (Concat(items) + rest);
    HeadNext(c, 4, |items|, Concat(items) + rest);
    ElementsRead(Position(GetAny(c).next.r, 0, |items|), items, rest);
  }

  lemma MapOpens(r: Range, pairs: u64, rest: seq<byte>)
    requires 2 * pairs < TWO64 && Data(r) == EncodeHead(5, pairs) + rest
    ensures var g := GetMap(Toplevel(r));
            g.Got? && g.value.index == 0 && g.value.count == 2 * pairs && Data(g.value.r) == rest
  {
    hide EncodeHead, GetAny, Data;
    HeadNext(Toplevel(r), 5, pairs, rest);
  }

  lemma UintNext(c: Cursor, v: u64, rest: seq<byte>)
    requires !AtEnd(c) && Data(c.r) == EncodeHead(0, v) + rest
    ensures GetUint(c).Got? && GetUint(c).value == v
  {
    hide EncodeHead, GetAny, Data;
    HeadNext(c, 0, v, rest);
  }

  /** What a common block holds when it is read. */
  lemma CommonReads(r: Range, components: seq<seq<byte>>, sequence: Octets)
    requires |components| <= SUIT_COMPONENT_MAX && forall p <- components :: IsItem(p)
    requires Data(r) == CommonOctets(components, sequence)
    ensures CommonParses(r)
    ensures var common := CommonOf(r);
            && common.nDependencies == 0 && |common.components| == |components|
            && (forall i | 0 <= i < |components| :: Data(common.components[i]) == components[i])
            && Data(common.commandSequence) == sequence && common.commandSequence.Span?
  {
    hide EncodeHead, Bstr, ArrayOf, GetAny, GetMap, GetArray, GetBstr, Entries, Elements, Data, IsItem, CommonFrom,
         CommonListing;
    var second := [4] + (Bstr(sequence) + []);
    MapOpens(r, 2, [2] + (ArrayOf(components) + second));
    ArrayIsItem(components);
    var c := GetMap(Toplevel(r)).value;
    var e, next := EntryNext(c, 2, ArrayOf(components), second);
    ArrayReads(e.at, components, second);
    BstrIsItem(sequence);
    var f, last := EntryNext(next, 4, Bstr(sequence), []);
    BstrNext(f.at, sequence, []);
    NoEntries(last);
    assert Entries(c) == Listing([e, f], true);
    CommonOfTwo(e, f);
  }

  lemma CommonOfTwo(e: Entry, f: Entry)
    requires IsUint(e.key) && e.key.value == 2 && GetArray(e.at).Got? && Elements(GetArray(e.at).value).complete
    requires |Elements(GetArray(e.at).value).all| <= SUIT_COMPONENT_MAX
    requires IsUint(f.key) && f.key.value == 4 && GetBstr(f.at).Got?
    ensures CommonListing(Listing([e, f], true))
    ensures CommonFrom([e, f]) == Common(0, ItemsAt(Elements(GetArray(e.at).value).all), GetBstr(f.at).value)
  {
    hide GetArray, GetBstr, Elements, Last, GetAny, Items, Data, Within, Follows, Resumes;
    LastBefore([e, f], 1, Label(2));
    LastBefore([e, f], 2, Label(4));
    NotAmong([e, f], Label(1));
  }

  lemma NotAmong(es: seq<Entry>, key: Key)
    requires forall e <- es :: !Matches(key, e.key)
    ensures Last(es, key).None?
  {
  }

  /** The entries of a manifest: version 1, a sequence number, a common block and an install sequence. */
  predicate FourAre(a: Entry, b: Entry, c: Entry, d: Entry, sequenceNumber: u64, common: Range, install: Range)
  {
    && common.Span? && install.Span?
    && Under(a, 1) && GetUint(a.at).Got? && GetUint(a.at).value == 1
    && Under(b, 2) && GetUint(b.at).Got? && GetUint(b.at).value == sequenceNumber
    && Under(c, 3) && GetBstr(c.at).Got? && GetBstr(c.at).value == common
    && Under(d, 9) && GetBstr(d.at).Got? && GetBstr(d.at).value == install
  }

  /** What a manifest holds when it is read. */
  lemma ManifestReads(r: Range, sequenceNumber: u64, common: Octets, install: Octets)
      returns (a: Entry, b: Entry, c: Entry, d: Entry, commonAt: Range, installAt: Range)
    requires Data(r) == ManifestOctets(sequenceNumber, common, install)
    ensures GetMap(Toplevel(r)).Got? && Entries(GetMap(Toplevel(r)).value) == FourList(a, b, c, d)
    ensures FourAre(a, b, c, d, sequenceNumber, commonAt, installAt)
    ensures Data(commonAt) == common && Data(installAt) == install
  {
    hide EncodeHead, Bstr, GetAny, GetMap, GetUint, GetBstr, Entries, Data, IsItem;
    var fourth := [9] + (Bstr(install) + []);
    var third := [3] + (Bstr(common) + fourth);
    var second := [2] + (EncodeHead(0, sequenceNumber) + third);
    MapOpens(r, 4, [1] + (EncodeHead(0, 1) + second));
    UintIsItem(1);
    var afterA, afterB, afterC, last;
    a, afterA := EntryNext(GetMap(Toplevel(r)).value, 1, EncodeHead(0, 1), second);
    UintNext(a.at, 1, second);
    UintIsItem(sequenceNumber);
    b, afterB := EntryNext(afterA, 2, EncodeHead(0, sequenceNumber), third);
    UintNext(b.at, sequenceNumber, third);
    BstrIsItem(common);
    c, afterC := EntryNext(afterB, 3, Bstr(common), fourth);
    BstrNext(c.at, common, fourth);
    BstrIsItem(install);
    d, last := EntryNext(afterC, 9, Bstr(install), []);
    BstrNext(d.at, install, []);
    NoEntries(last);
    commonAt, installAt := GetBstr(c.at).value, GetBstr(d.at).value;
  }

  /** What a whole envelope holds when its manifest is parsed. */
  lemma EnvelopeParses(envelope: Range, wrapper: Octets, c: Contents, xs: seq<Extra>)
    requires 2 * |xs| + 4 < TWO64 && Writable(c) && Data(envelope) == EnvelopeOctets(wrapper, Binary(c), xs)
    ensures ManifestOf(envelope).Some?
    ensures var m := ManifestOf(envelope).value; m.envelope == envelope && HasContents(m, c)
  {
    hide *;
    FieldsRead(envelope, wrapper, Binary(c), xs);
    BinaryParses(envelope, FieldOf(envelope, Label(3)).value, c);
  }

  lemma BinaryParses(envelope: Range, r: Range, c: Contents)
    requires FieldOf(envelope, Label(3)) == Some(r) && Writable(c) && Data(r) == Binary(c)
    ensures ManifestOf(envelope).Some?
    ensures var m := ManifestOf(envelope).value; m.envelope == envelope && HasContents(m, c)
  {
    BinaryIs(c);
    hide *;
    LabelsAre();
    var version, number, third, fourth, common, install :=
      ManifestReads(r, c.sequenceNumber, CommonOctets(c.components, c.sequence), c.install);
    CommonReadsAs(common, c);
    ListingIs(version, number, third, fourth, c.sequenceNumber, common, install);
    ManifestThere(envelope, r);
    ManifestHeader(envelope, r, version, number, third, fourth, c.sequenceNumber, common, install);
    ContentsHeld(ManifestOf(envelope).value, c, common, install);
  }

  lemma BinaryIs(c: Contents)
    requires Writable(c)
    ensures |c.components| < TWO64 && |CommonOctets(c.components, c.sequence)| < TWO64
    ensures Binary(c) == ManifestOctets(c.sequenceNumber, CommonOctets(c.components, c.sequence), c.install)
  {
    hide CommonOctets, ManifestOctets, IsItem;
  }

  lemma CommonReadsAs(r: Range, c: Contents)
    requires Writable(c) && Data(r) == CommonOctets(c.components, c.sequence)
    ensures CommonParses(r) && HasCommon(CommonOf(r), c)
  {
    hide CommonOctets, ManifestOctets, IsItem, CommonParses, CommonOf, Data;
    CommonReads(r, c.components, c.sequence);
  }

  lemma ContentsHeld(m: Manifest, c: Contents, common: Range, install: Range)
    requires m.version == 1 && m.sequenceNumber == c.sequenceNumber && m.common == CommonOf(common)
    requires HasCommon(CommonOf(common), c) && m.install == Body(install) && install.Span? && Data(install) == c.install
    ensures HasContents(m, c)
  {
    hide HasCommon, CommonOf, Data;
  }

  lemma ListingIs(a: Entry, b: Entry, c: Entry, d: Entry, sequenceNumber: u64, common: Range, install: Range)
    requires FourAre(a, b, c, d, sequenceNumber, common, install) && CommonParses(common)
    ensures ManifestListing(FourList(a, b, c, d))
    ensures LastBstr(FourList(a, b, c, d).all, Label(SUIT_COMMON)) == common
    ensures LastSeverable(FourList(a, b, c, d).all, Label(SUIT_INSTALL)) == Body(install)
  {
    hide CommonParses, ManifestListing, LastBstr, LastSeverable, GetUint, GetBstr, Under, FourList;
    FourEntries(a, b, c, d);
  }

  lemma LabelsAre()
    ensures SUIT_MANIFEST == 3 && SUIT_COMMON == 3 && SUIT_INSTALL == 9
  {
  }

  lemma ManifestHeader(envelope: Range, r: Range, a: Entry, b: Entry, c: Entry, d: Entry,
                       sequenceNumber: u64, common: Range, install: Range)
    requires FieldOf(envelope, Label(SUIT_MANIFEST)) == Some(r) && GetMap(Toplevel(r)).Got?
    requires Entries(GetMap(Toplevel(r)).value) == FourList(a, b, c, d) && ManifestListing(FourList(a, b, c, d))
    requires FourAre(a, b, c, d, sequenceNumber, common, install)
    ensures ManifestOf(envelope).Some? && install.Span?
    ensures var m := ManifestOf(envelope).value;
            m.envelope == envelope && m.version == 1 && m.sequenceNumber == sequenceNumber
  {
    FourCons(a, b, c, d);
    hide *;
    HeaderOf(envelope, r, [a, b, c, d]);
    FourUints(a, b, c, d, sequenceNumber, common, install);
  }

  lemma FourUints(a: Entry, b: Entry, c: Entry, d: Entry, sequenceNumber: u64, common: Range, install: Range)
    requires FourAre(a, b, c, d, sequenceNumber, common, install)
    ensures GetUint(a.at).Got? && GetUint(a.at).value == 1 && install.Span?
    ensures GetUint(b.at).Got? && GetUint(b.at).value == sequenceNumber
  {
    hide GetUint, GetBstr, Under;
  }

  lemma HeaderOf(envelope: Range, r: Range, es: seq<Entry>)
    requires FieldOf(envelope, Label(SUIT_MANIFEST)) == Some(r) && GetMap(Toplevel(r)).Got?
    requires Entries(GetMap(Toplevel(r)).value) == Listing(es, true) && ManifestListing(Listing(es, true))
    ensures ManifestOf(envelope).Some?
    ensures |es| >= 2 && GetUint(es[0].at).Got? && GetUint(es[1].at).Got?
    ensures var m := ManifestOf(envelope).value;
            && m.envelope == envelope && m.version == GetUint(es[0].at).value
            && m.sequenceNumber == GetUint(es[1].at).value
  {
    hide FieldOf, Entries, GetMap, LastSeverable, LastBstr, CommonOf, GetUint;
  }
}
