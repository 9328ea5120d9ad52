/** Finding fields in a SUIT envelope: lib/suit/lib/suit-parser.c. */
module SuitEnvelope {
  import opened Wrappers
  import opened Bytes
  import opened CborHead
  import opened CborItems
  import opened CborReader
  import opened CborStructure

  const SUIT_DELEGATION: u64 := 1
  const SUIT_AUTHENTICATION_WRAPPER: u64 := 2
  const SUIT_MANIFEST: u64 := 3
  const SUIT_ENVELOPE_TAG: u64 := 107
  const CBOR_TAG_COSE_SIGN1: u64 := 18
  const SUIT_DIGEST_ALG_SHA256: int := -16

  /** A map's entry: its key, and the position of its value. */
  datatype Entry = Entry(key: Any, at: Cursor)

  /** What is in a context, as far as it can be read. */
  datatype Listing<T> = Listing(all: seq<T>, complete: bool)

  function Cons<T>(x: T, rest: Listing<T>): Listing<T> { Listing([x] + rest.all, rest.complete) }

  /** The entry at a position of a map: its key is a head that is not a tag, its value one whole item. */
  function EntryAt(c: Cursor): (o: Option<Entry>)
    ensures o.Some? ==> GetItem(o.value.at).Got? && |Data(GetItem(o.value.at).next.r)| < |Data(c.r)|
    ensures o.Some? ==> Follows(o.value.at, c) && Follows(GetItem(o.value.at).next, c)
  {
    match GetAny(c)
    case Missing(_) => None
    case Got(key, at) => if IsTag(key) || GetItem(at).Missing? then None else Some(Entry(key, at))
  }

  /** The entries of a map context. */
  function Entries(c: Cursor): Listing<Entry>
    decreases |Data(c.r)|
  {
    if AtEnd(c) then Listing([], true)
    else match EntryAt(c)
      case None => Listing([], false)
      case Some(e) => Cons(e, Entries(GetItem(e.at).next))
  }

  lemma EntriesNext(c: Cursor)
    ensures Entries(c) == if AtEnd(c) then Listing([], true)
                          else if EntryAt(c).None? then Listing([], false)
                          else Cons(EntryAt(c).value, Entries(GetItem(EntryAt(c).value.at).next))
  {
    hide EntryAt, GetItem;
  }

  /** The entries read so far, and those from the current position on, are the entries of the map. */
  ghost predicate ReadSoFar(start: Cursor, done: seq<Entry>, now: Cursor)
  {
    Follows(now, start) && Entries(start) == Listing(done + Entries(now).all, Entries(now).complete)
  }

  /** Reading an entry moves on by that entry; failing to read one means the map is malformed. */
  lemma ReadOneMore(start: Cursor, done: seq<Entry>, now: Cursor)
    requires ReadSoFar(start, done, now) && !AtEnd(now)
    ensures EntryAt(now).None? ==> !Entries(start).complete
    ensures EntryAt(now).Some? ==>
              var e := EntryAt(now).value;
              ReadSoFar(start, done + [e], GetItem(e.at).next) && e in Entries(start).all
  {
    hide EntryAt, GetItem, Data;
    if EntryAt(now).Some? {
      var e := EntryAt(now).value;
      var rest := Entries(GetItem(e.at).next);
      assert done + ([e] + rest.all) == (done + [e]) + rest.all;
    }
  }

  lemma ReadToTheEnd(start: Cursor, done: seq<Entry>, now: Cursor)
    requires ReadSoFar(start, done, now) && AtEnd(now)
    ensures Entries(start) == Listing(done, true)
  {
    assert done + [] == done;
  }

  /** Which key is looked for: an integer label, or a text name. */
  datatype Key = Label(n: u64) | Name(text: Range)

  predicate Matches(key: Key, k: Any)
  {
    match key
    case Label(n) => IsUint(k) && k.value == n
    case Name(text) => IsTstr(k) && RangeEqual(k.bytes, text)
  }

  /** The last entry with a key: a repeated key overrides. */
  function Last(es: seq<Entry>, key: Key): (o: Option<Entry>)
    ensures o.Some? ==> o.value in es && Matches(key, o.value.key)
    ensures o.None? ==> forall e <- es :: !Matches(key, e.key)
  {
    if es == [] then None
    else if Matches(key, es[|es| - 1].key) then Some(es[|es| - 1])
    else Last(es[..|es| - 1], key)
  }

  lemma LastOfMore(es: seq<Entry>, e: Entry, key: Key)
    ensures Last(es + [e], key) == if Matches(key, e.key) then Some(e) else Last(es, key)
  {
    assert (es + [e])[..|es|] == es;
  }

  /** The byte string at a position, or the null range. */
  function BstrAt(at: Cursor): (r: Range)
    ensures Within(r, at.r)
  {
    match GetBstr(at) case Missing(_) => Null case Got(b, _) => b
  }

  function LastBstr(es: seq<Entry>, key: Key): Range
  {
    match Last(es, key) case None => Null case Some(e) => BstrAt(e.at)
  }

  /** The map of an envelope: tag 107, then a map. */
  function EnvelopeMap(envelope: Range): (o: Option<Cursor>)
    ensures o.Some? ==> Within(o.value.r, envelope)
  {
    match GetTag(Toplevel(envelope))
    case Missing(_) => None
    case Got(tag, d) =>
      if tag != SUIT_ENVELOPE_TAG then None
      else match GetMap(d) case Missing(_) => None case Got(child, _) => Some(child)
  }

  predicate AllBstr(es: seq<Entry>, key: Key)
  {
    forall e <- es :: Matches(key, e.key) ==> GetBstr(e.at).Got?
  }

  predicate FieldKey(key: Key) { key.Label? ==> key.n in {1, 2, 3, 7, 8, 9, 13, 14} }

  /** What a field lookup finds: nothing when the envelope is malformed; otherwise the byte string under the
      last entry with that key, or the null range when there is none. */
  function FieldOf(envelope: Range, key: Key): (o: Option<Range>)
  {
    if !FieldKey(key) || EnvelopeMap(envelope).None? then None else
    var l := Entries(EnvelopeMap(envelope).value);
    if l.complete && AllBstr(l.all, key) then Some(LastBstr(l.all, key)) else None
  }

  /** A field lies inside its envelope. */
  lemma FieldWithin(envelope: Range, key: Key)
    requires FieldOf(envelope, key).Some?
    ensures Within(FieldOf(envelope, key).value, envelope)
  {
    hide GetAny, GetBstr, GetTag, GetMap;
    var c := EnvelopeMap(envelope).value;
    EntriesFollow(c);
    var o := Last(Entries(c).all, key);
    hide Entries;
    if o.Some? {
      assert Follows(o.value.at, c);
    }
  }

  lemma {:induction false} EntriesFollow(c: Cursor)
    ensures forall e <- Entries(c).all :: Follows(e.at, c)
    ensures Entries(c).complete ==> forall e <- Entries(c).all :: GetItem(e.at).Got?
    decreases |Data(c.r)|
  {
    hide EntryAt, GetItem, Data;
    if !AtEnd(c) && EntryAt(c).Some? {
      var d := GetItem(EntryAt(c).value.at).next;
      EntriesFollow(d);
      forall e <- Entries(c).all
        ensures Follows(e.at, c) && (Entries(c).complete ==> GetItem(e.at).Got?)
      {
        if e != EntryAt(c).value {
          assert e in Entries(d).all;
        }
      }
    }
  }

  /** `suit_envelope_get_field` */
  method GetField(envelope: Range, key: Key) returns (o: Option<Range>)
    ensures o == FieldOf(envelope, key)
  {
    if key.Label? && key.n !in {1, 2, 3, 7, 8, 9, 13, 14} {
      return None;
    }
    var ctx := new Context(Toplevel(envelope));
    var ok, tag := ctx.ReadTag();
    if !ok || tag != SUIT_ENVELOPE_TAG {
      return None;
    }
    var child;
    ok, child := ctx.ReadMap();
    if !ok {
      return None;
    }
    assert EnvelopeMap(envelope) == Some(child);
    o := FindField(child, key);
  }

  /** The loop of `suit_envelope_get_field`. */
  method FindField(child: Cursor, key: Key) returns (o: Option<Range>)
    ensures var l := Entries(child);
            o == if l.complete && AllBstr(l.all, key) then Some(LastBstr(l.all, key)) else None
  {
    hide GetAny, GetItem, GetBstr, GetSkip, Data, Within, Entries, EntryAt, Matches, Last;
    var fields := new Context(child);
    var field: Range := Null;
    ghost var done: seq<Entry> := [];
    NothingRead(child);
    while !(fields.index == fields.count)
      invariant fields.Valid() && fresh(fields)
      invariant ReadSoFar(child, done, fields.View())
      invariant AllBstr(done, key) && field == LastBstr(done, key)
      decreases |Data(fields.r)|
    {
      ghost var now := fields.View();
      ReadOneMore(child, done, now);
      var ok, k := fields.ReadAny();
      EntryRead(now, k, fields.View());
      if !ok || IsTag(k) {
        return None;
      }
      ghost var e := Entry(k, fields.View());
      LastOfMore(done, e, key);
      BstrInPlace(e.at);
      SkipIsItem(e.at);
      if Matches(key, k) {
        ok, field := fields.ReadBstr();
      } else {
        ok := fields.Skip(1);
      }
      if !ok {
        return None;
      }
      done := done + [e];
    }
    ReadToTheEnd(child, done, fields.View());
    return Some(field);
  }

  /** Where walking a map entry by entry ends. */
  function WalkEnd(c: Cursor): Option<Cursor>
    decreases |Data(c.r)|
  {
    if AtEnd(c) then Some(c)
    else if EntryAt(c).None? then None
    else WalkEnd(GetItem(EntryAt(c).value.at).next)
  }

  /** The items that reading only the head of a key leaves behind. */
  function LeftBehind(key: Any): nat
  {
    if IsArray(key) || IsMap(key) then Children(key.header, key.value) else 0
  }

  function AllLeftBehind(es: seq<Entry>): nat
  {
    if es == [] then 0 else LeftBehind(es[0].key) + AllLeftBehind(es[1..])
  }

  predicate NothingLeftBehind(es: seq<Entry>)
  {
    forall e <- es :: IsArray(e.key) || IsMap(e.key) ==> e.key.value == 0
  }

  lemma {:induction false} LeftBehindAdds(es: seq<Entry>)
    ensures AllLeftBehind(es) == 0 <==> NothingLeftBehind(es)
  {
    if es != [] {
      LeftBehindAdds(es[1..]);
      assert forall e <- es :: e == es[0] || e in es[1..];
    }
  }

  lemma NoneLeftBehind()
    ensures AllLeftBehind([]) == 0
  {
  }

  lemma LeftBehindFirst(e: Entry, es: seq<Entry>)
    ensures AllLeftBehind([e] + es) == LeftBehind(e.key) + AllLeftBehind(es)
  {
    assert ([e] + es)[1..] == es;
  }

  /** An entry takes two items off those to be read, and puts what its key leaves behind before the rest. */
  lemma EntryLands(c: Cursor, k: nat)
    requires !AtEnd(c) && EntryAt(c).Some?
    ensures var d := GetItem(EntryAt(c).value.at).next;
            && d.count - d.index == c.count - c.index - 2
            && Items(Data(c.r), k + (c.count - c.index))
               == Items(Data(d.r), k + LeftBehind(EntryAt(c).value.key) + (d.count - d.index))
  {
    hide *;
    KeyHead(c);
    var e := EntryAt(c).value;
    var m := k + LeftBehind(e.key) + (c.count - c.index - 2);
    ItemTakesOne(e.at, m);
    KeyTakesOne(c, k + (c.count - c.index));
    assert LeftBehind(e.key) + (k + (c.count - c.index) - 1) == m + 1;
  }

  lemma ItemThere(c: Cursor)
    ensures GetItem(c).Got? ==> c.index < c.count
  {
    hide Data, Items, Item;
  }

  lemma KeyHead(c: Cursor)
    requires !AtEnd(c) && EntryAt(c).Some?
    ensures var e := EntryAt(c).value;
            && GetAny(c) == Got(e.key, e.at) && !IsTag(e.key) && GetItem(e.at).Got?
            && e.at.index == c.index + 1 < e.at.count == c.count
  {
    hide ReadHead, Data, GetItem;
    ItemThere(EntryAt(c).value.at);
  }

  lemma ItemTakesOne(c: Cursor, m: nat)
    requires GetItem(c).Got?
    ensures Items(Data(c.r), m + 1) == Items(Data(GetItem(c).next.r), m)
    ensures GetItem(c).next.index == c.index + 1 && GetItem(c).next.count == c.count && c.index < c.count
  {
    hide Data, Item;
  }

  lemma KeyTakesOne(c: Cursor, m: nat)
    requires GetAny(c).Got? && !IsTag(GetAny(c).value) && m > 0
    ensures Items(Data(c.r), m) == Items(Data(GetAny(c).next.r), LeftBehind(GetAny(c).value) + (m - 1))
  {
    hide ReadHead, Items;
    SkipHead(Data(c.r), m);
  }

  lemma WalkNext(c: Cursor)
    ensures WalkEnd(c) == if AtEnd(c) then Some(c) else if EntryAt(c).None? then None
                          else WalkEnd(GetItem(EntryAt(c).value.at).next)
  {
    hide EntryAt, GetItem;
  }

  /** A walk over a map reads its items, except that what the keys left behind is still to be read where it ends. */
  lemma {:induction false} WalkReads(c: Cursor, k: nat)
    ensures Entries(c).complete == WalkEnd(c).Some?
    ensures WalkEnd(c).Some? ==>
              var end := WalkEnd(c).value;
              && AtEnd(end)
              && Items(Data(c.r), k + (c.count - c.index)) == Items(Data(end.r), k + AllLeftBehind(Entries(c).all))
    decreases |Data(c.r)|
  {
    hide EntryAt, GetItem, Items, LeftBehind, AllLeftBehind, Data, Entries, WalkEnd;
    EntriesNext(c);
    WalkNext(c);
    if AtEnd(c) {
      NoneLeftBehind();
    } else if EntryAt(c).Some? {
      var e := EntryAt(c).value;
      var d := GetItem(e.at).next;
      EntryLands(c, k);
      WalkReads(d, k + LeftBehind(e.key));
      LeftBehindFirst(e, Entries(d).all);
    }
  }

  lemma NoItems(s: seq<byte>, n: nat)
    ensures Items(s, n) == Done(s) <==> n == 0
  {
    hide Item;
  }

  /** Walking a map entry by entry ends where skipping its items ends exactly if every key that is an array or a map
      is empty. */
  lemma WalkLands(c: Cursor)
    ensures Entries(c).complete == WalkEnd(c).Some?
    ensures WalkEnd(c).Some? ==>
              (Landing(c) == Done(Data(WalkEnd(c).value.r)) <==> NothingLeftBehind(Entries(c).all))
  {
    hide EntryAt, Entries, WalkEnd, Items, NothingLeftBehind, AllLeftBehind;
    WalkReads(c, 0);
    LeftBehindAdds(Entries(c).all);
    if WalkEnd(c).Some? {
      NoItems(Data(WalkEnd(c).value.r), AllLeftBehind(Entries(c).all));
    }
  }

  /** The octets of a map of one entry, { [0]: 23 }, and what is left of them head by head. */
  const NESTED_KEY: seq<byte> := [0xA1, 0x81, 0x00, 0x17]

  lemma NestedKeyHeads()
    ensures ReadHead(NESTED_KEY) == Head(0xA1, 1, 1) && ReadHead(NESTED_KEY[1..]) == Head(0x81, 1, 1)
    ensures ReadHead(NESTED_KEY[2..]) == Head(0x00, 0, 1) && ReadHead(NESTED_KEY[3..]) == Head(0x17, 0x17, 1)
    ensures NESTED_KEY[1..][1..] == NESTED_KEY[2..] && NESTED_KEY[2..][1..] == NESTED_KEY[3..]
    ensures NESTED_KEY[3..][1..] == []
  {
  }

  lemma NestedKeyItems()
    ensures Items(NESTED_KEY[2..], 1) == Done(NESTED_KEY[3..]) && Items(NESTED_KEY[1..], 2) == Done([])
  {
    NestedKeyHeads();
    hide ReadHead, Item, Items;
    ScalarItem(NESTED_KEY[2..]);
    ScalarItem(NESTED_KEY[3..]);
    SkipHead(NESTED_KEY[1..], 2);
    assert ItemsAfterHead(0x81, 1, 2) == 2;
    ItemsAppend(NESTED_KEY[2..], 1, 1);
  }

  /** Its context with `n` octets and `i` items read. */
  function NestedKeyAt(n: nat, i: nat): Cursor
    requires n <= 4 && i <= 2
  {
    Position(Span(NESTED_KEY, n, 4), i, 2)
  }

  lemma NestedKeyMap()
    ensures var g := GetMap(Toplevel(Whole(NESTED_KEY))); g.Got? && g.value == NestedKeyAt(1, 0)
  {
    NestedKeyHeads();
    hide ReadHead;
    assert Data(Whole(NESTED_KEY)) == NESTED_KEY;
  }

  lemma NestedKeyKey()
    ensures GetAny(NestedKeyAt(1, 0)) == Got(Argument(0x81, 1), NestedKeyAt(2, 1))
  {
    NestedKeyHeads();
    hide ReadHead;
    assert Data(NestedKeyAt(1, 0).r) == NESTED_KEY[1..];
  }

  lemma NestedKeyValue()
    ensures GetItem(NestedKeyAt(2, 1)).Got? && GetItem(NestedKeyAt(2, 1)).next == NestedKeyAt(3, 2)
  {
    NestedKeyItems();
    hide ReadHead, Items, Item;
    assert Data(NestedKeyAt(2, 1).r) == NESTED_KEY[2..];
  }

  lemma NestedKeyLands()
    ensures Landing(NestedKeyAt(1, 0)) == Done([]) && Data(NestedKeyAt(3, 2).r) == [0x17]
  {
    NestedKeyItems();
    hide ReadHead, Items, Item;
    assert Data(NestedKeyAt(1, 0).r) == NESTED_KEY[1..];
  }

  /** A map whose key is an array: the walk takes the array's element for the value, and leaves the value unread. */
  lemma ContainerKeyMisread()
    ensures var c := GetMap(Toplevel(Whole(NESTED_KEY)));
            c.Got? && Entries(c.value).complete
            && WalkEnd(c.value).Some? && Data(WalkEnd(c.value).value.r) == [0x17] && Landing(c.value) == Done([])
  {
    NestedKeyMap();
    NestedKeyKey();
    NestedKeyValue();
    NestedKeyLands();
    var c, at, end := NestedKeyAt(1, 0), NestedKeyAt(2, 1), NestedKeyAt(3, 2);
    assert !AtEnd(c) && AtEnd(end) && !IsTag(Argument(0x81, 1));
    hide *;
    EntryRead(c, Argument(0x81, 1), at);
    EntriesNext(c);
    EntriesNext(end);
    WalkNext(c);
    WalkNext(end);
  }

  lemma NothingRead(c: Cursor)
    ensures ReadSoFar(c, [], c)
  {
    assert [] + Entries(c).all == Entries(c).all;
  }

  lemma BstrInPlace(c: Cursor)
    ensures GetBstr(c).Got? ==> GetItem(c).Got? && GetItem(c).next == GetBstr(c).next
  {
    hide GetItem;
    if GetBstr(c).Got? {
      ScalarIsSubobject(c);
    }
  }

  lemma EntryRead(now: Cursor, key: Any, at: Cursor)
    ensures GetAny(now) == Got(key, at) && !IsTag(key) ==>
              EntryAt(now) == if GetItem(at).Missing? then None else Some(Entry(key, at))
    ensures GetAny(now).Missing? || IsTag(GetAny(now).value) ==> EntryAt(now).None?
  {
  }

  lemma SkipIsItem(c: Cursor)
    ensures GetSkip(c, 1).Got? == GetItem(c).Got?
    ensures GetItem(c).Got? ==> GetSkip(c, 1).next == GetItem(c).next
  {
  }
}
