/** Parsing a SUIT manifest: lib/suit/lib/suit-parser.c and lib/suit/lib/suit-context.c. A parsed manifest is
    stated field by field, as the last value under the field's key. */
module SuitManifest {
  import opened Wrappers
  import opened Bytes
  import opened CborHead
  import opened CborItems
  import opened CborReader
  import opened CborStructure
  import opened SuitEnvelope
  import opened SuitAuthenticate

  const SUIT_MANIFEST_VERSION: u64 := 1
  const SUIT_MANIFEST_SEQUENCE_NUMBER: u64 := 2
  const SUIT_COMMON: u64 := 3
  const SUIT_REFERENCE_URI: u64 := 4
  const SUIT_DEPENDENCY_RESOLUTION: u64 := 7
  const SUIT_PAYLOAD_FETCH: u64 := 8
  const SUIT_INSTALL: u64 := 9
  const SUIT_VALIDATE: u64 := 10
  const SUIT_LOAD: u64 := 11
  const SUIT_RUN: u64 := 12
  const SUIT_TEXT: u64 := 13
  const SUIT_COSWID: u64 := 14

  const SUIT_DEPENDENCIES: u64 := 1
  const SUIT_COMPONENTS: u64 := 2
  const SUIT_COMMON_SEQUENCE: u64 := 4

  const SUIT_COMPONENT_MAX: nat := 8
  const SUIT_DEPENDENCY_MAX: nat := 8
  const SUIT_MANIFEST_MAX: nat := 8

  datatype Severable = Absent | Body(body: Range) | Severed(digest: Digest)

  datatype Common = Common(nDependencies: nat, components: seq<Range>, commandSequence: Range)

  datatype Manifest = Manifest(
    envelope: Range,
    binary: Range,
    version: u64,
    sequenceNumber: u64,
    commonBstr: Range,
    common: Common,
    referenceUri: Range,
    dependencyResolution: Severable,
    payloadFetch: Severable,
    install: Severable,
    text: Severable,
    coswid: Severable,
    validate: Range,
    load: Range,
    run: Range)

  /** The positions of the items of an array context. */
  function Elements(c: Cursor): Listing<Cursor>
    decreases |Data(c.r)|
  {
    if AtEnd(c) then Listing([], true)
    else if GetItem(c).Missing? then Listing([], false)
    else Cons(c, Elements(GetItem(c).next))
  }

  lemma ElementsNext(c: Cursor)
    ensures Elements(c) == if AtEnd(c) then Listing([], true)
                           else if GetItem(c).Missing? then Listing([], false)
                           else Cons(c, Elements(GetItem(c).next))
  {
    hide GetItem, Data;
  }

  /** Reading a map through is consuming one item. */
  lemma MapIsItem(c: Cursor)
    requires GetMap(c).Got?
    ensures var child := GetMap(c).value;
            var g := GetSkip(child, child.count - child.index);
            g.Got? == GetItem(c).Got?
            && (g.Got? ==> AtEnd(g.next) && GetItem(c).next == GetMap(c).next.(r := g.next.r))
  {
    hide *;
    var child := GetMap(c).value;
    var n := child.count;
    SkipFills(child);
    ExecSimple(c);
    SkipIsItem(c);
    if GetSkip(child, n).Got? {
      ExecSkip(n, child);
      ExecOne(Skip(n), child);
      CloseAll(true, [Skip(n)], c);
      NestIsSkip(true, [Skip(n)], c);
    } else if GetItem(c).Got? {
      ChildrenParse(true, c);
      SkipAllParses(child);
    }
  }

  lemma SkipFills(child: Cursor)
    requires child.index == 0
    ensures GetSkip(child, child.count).Got? ==> AtEnd(GetSkip(child, child.count).next)
  {
    hide Items, Data;
  }

  lemma SkipAllParses(child: Cursor)
    requires child.index == 0 && Items(Data(child.r), child.count).Done?
    ensures GetSkip(child, child.count).Got?
  {
    hide Items, Data;
  }

  lemma ExecOne(op: Op, c: Cursor)
    ensures ExecAll([op], c).Got? == Exec(op, c).Got?
    ensures Exec(op, c).Got? ==> ExecAll([op], c).next == Exec(op, c).next
  {
    hide Exec;
    assert [op][1..] == [];
    if Exec(op, c).Got? {
      assert ExecAll([op], c) == ExecAll([], Exec(op, c).next);
    }
  }

  /** The elements read so far, and those from the current position on, are the elements of the array. */
  ghost predicate ElementsSoFar(start: Cursor, done: seq<Cursor>, now: Cursor)
  {
    Follows(now, start) && Landing(now) == Landing(start)
    && Elements(start) == Listing(done + Elements(now).all, Elements(now).complete)
  }

  lemma NoElementRead(start: Cursor)
    ensures ElementsSoFar(start, [], start)
  {
    assert [] + Elements(start).all == Elements(start).all;
  }

  lemma OneMoreElement(start: Cursor, done: seq<Cursor>, now: Cursor)
    requires ElementsSoFar(start, done, now) && !AtEnd(now)
    ensures GetItem(now).Missing? ==> !Elements(start).complete
    ensures GetItem(now).Got? ==> ElementsSoFar(start, done + [now], GetItem(now).next)
    ensures Elements(start).complete ==> |Elements(start).all| > |done| && Elements(start).all[|done|] == now
  {
    hide GetItem, GetSkip, Landing, Data;
    ElementsNext(now);
    SkipIsItem(now);
    if GetItem(now).Got? {
      SkipLands(now, 1);
      assert done + ([now] + Elements(GetItem(now).next).all) == (done + [now]) + Elements(GetItem(now).next).all;
    }
  }

  /** An array read to its end has been consumed as one item of its parent. */
  lemma ArrayConsumed(at: Cursor, done: seq<Cursor>, now: Cursor)
    requires GetArray(at).Got? && ElementsSoFar(GetArray(at).value, done, now) && AtEnd(now)
    ensures Elements(GetArray(at).value) == Listing(done, true)
    ensures GetItem(at).Got? && GetItem(at).next == GetArray(at).next.(r := now.r)
  {
    hide GetArray, GetAny, GetItem, GetSkip, Item, Items, ReadHead, Data;
    assert done + [] == done;
    ElementsNext(now);
    SkipIsItem(at);
    ExecSimple(at);
    OpenLands(false, at);
    NoneLeft(Data(now.r));
    SkipLandsAt(at, now.r);
  }

  predicate DependenciesFit(at: Cursor)
  {
    GetArray(at).Got?
    && var l := Elements(GetArray(at).value);
    l.complete && |l.all| <= SUIT_DEPENDENCY_MAX && forall p <- l.all :: GetMap(p).Got?
  }

  predicate ComponentsFit(at: Cursor)
  {
    GetArray(at).Got?
    && var l := Elements(GetArray(at).value);
    l.complete && |l.all| <= SUIT_COMPONENT_MAX
  }

  /** The item at a position, or the null range. */
  function ItemAt(at: Cursor): (r: Range)
    ensures Within(r, at.r)
  {
    if GetItem(at).Got? then GetItem(at).value else Null
  }

  function ItemsAt(ps: seq<Cursor>): (rs: seq<Range>)
    ensures |rs| == |ps| && forall i | 0 <= i < |ps| :: rs[i] == ItemAt(ps[i])
  {
    seq(|ps|, i requires 0 <= i < |ps| => ItemAt(ps[i]))
  }

  /** `read_dependency` */
  method ReadDependency(ctx: Context) returns (ok: bool)
    requires ctx.Valid()
    modifies ctx
    ensures ctx.Valid()
    ensures var at := old(ctx.View());
            ok == (GetMap(at).Got? && GetItem(at).Got?) && (ok ==> ctx.View() == GetItem(at).next)
  {
    hide GetMap, GetItem, GetSkip, GetAny, Items, Data;
    ghost var at: Cursor := ctx.View();
    var child;
    ok, child := ctx.ReadMap();
    if !ok {
      return;
    }
    MapIsItem(at);
    var entries := new Context(child);
    ok := entries.SkipAll();
    if !ok {
      return;
    }
    ok := ctx.Close(entries.View());
  }

  /** The dependency array of the common map. */
  method ReadDependencies(ctx: Context) returns (ok: bool, n: nat)
    requires ctx.Valid()
    modifies ctx
    ensures ctx.Valid()
    ensures var at := old(ctx.View());
            ok == DependenciesFit(at)
            && (ok ==> n == |Elements(GetArray(at).value).all| && GetItem(at).Got? && ctx.View() == GetItem(at).next)
  {
    hide GetArray, GetMap, GetItem, GetSkip, GetAny, Elements, Landing, Data;
    ghost var at: Cursor := ctx.View();
    n := 0;
    var child;
    ok, child := ctx.ReadArray();
    if !ok {
      return;
    }
    var items := new Context(child);
    ghost var done: seq<Cursor> := [];
    NoElementRead(child);
    while !(items.index == items.count)
      invariant items.Valid() && fresh(items)
      invariant ctx.Valid() && ctx.View() == GetArray(at).next
      invariant ElementsSoFar(child, done, items.View())
      invariant n == |done| <= SUIT_DEPENDENCY_MAX && forall p <- done :: GetMap(p).Got?
      decreases |Data(items.r)|
    {
      ghost var now: Cursor := items.View();
      OneMoreElement(child, done, now);
      if n == SUIT_DEPENDENCY_MAX {
        return false, n;
      }
      ok := ReadDependency(items);
      if !ok {
        return;
      }
      n := n + 1;
      done := done + [now];
    }
    ArrayConsumed(at, done, items.View());
    ok := ctx.Close(items.View());
  }

  /** The component array of the common map; each component's identifier is kept as a range. */
  method ReadComponents(ctx: Context) returns (ok: bool, components: seq<Range>)
    requires ctx.Valid()
    modifies ctx
    ensures ctx.Valid()
    ensures var at := old(ctx.View());
            ok == ComponentsFit(at)
            && (ok ==> components == ItemsAt(Elements(GetArray(at).value).all)
                       && GetItem(at).Got? && ctx.View() == GetItem(at).next)
  {
    hide GetArray, GetItem, GetSkip, GetAny, Elements, Landing, Data;
    ghost var at: Cursor := ctx.View();
    components := [];
    var child;
    ok, child := ctx.ReadArray();
    if !ok {
      return;
    }
    var items := new Context(child);
    ghost var done: seq<Cursor> := [];
    NoElementRead(child);
    while !(items.index == items.count)
      invariant items.Valid() && fresh(items)
      invariant ctx.Valid() && ctx.View() == GetArray(at).next
      invariant ElementsSoFar(child, done, items.View())
      invariant |done| <= SUIT_COMPONENT_MAX && components == ItemsAt(done)
      decreases |Data(items.r)|
    {
      ghost var now: Cursor := items.View();
      OneMoreElement(child, done, now);
      if |components| == SUIT_COMPONENT_MAX {
        return false, components;
      }
      var id;
      ok, id := items.ReadItem();
      if !ok {
        return;
      }
      components := components + [id];
      done := done + [now];
    }
    ArrayConsumed(at, done, items.View());
    ok := ctx.Close(items.View());
  }

  predicate SameKey(a: Any, b: Any) { IsUint(a) && IsUint(b) && a.value == b.value }

  predicate NoRepeats(es: seq<Entry>)
  {
    forall i, j | 0 <= i < j < |es| :: !SameKey(es[i].key, es[j].key)
  }

  lemma NoRepeatsOfMore(es: seq<Entry>, e: Entry)
    requires IsUint(e.key)
    ensures NoRepeats(es + [e]) <==> NoRepeats(es) && Last(es, Label(e.key.value)).None?
  {
    hide Last;
    var more := es + [e];
    var found := Last(es, Label(e.key.value));
    if found.Some? {
      var i :| 0 <= i < |es| && es[i] == found.value;
      assert SameKey(more[i].key, more[|es|].key);
    }
    if NoRepeats(more) {
      forall i, j | 0 <= i < j < |es| ensures !SameKey(es[i].key, es[j].key) {
        assert more[i] == es[i] && more[j] == es[j];
      }
    }
  }

  predicate CommonValueFits(e: Entry)
  {
    IsUint(e.key)
    && ((e.key.value == SUIT_DEPENDENCIES && DependenciesFit(e.at))
        || (e.key.value == SUIT_COMPONENTS && ComponentsFit(e.at))
        || (e.key.value == SUIT_COMMON_SEQUENCE && GetBstr(e.at).Got?))
  }

  /** The common block: a map of three known keys, each at most once, with fitting values. */
  predicate CommonParses(r: Range)
  {
    GetMap(Toplevel(r)).Got?
    && CommonListing(Entries(GetMap(Toplevel(r)).value))
  }

  predicate CommonListing(l: Listing<Entry>)
  {
    l.complete && NoRepeats(l.all) && forall e <- l.all :: CommonValueFits(e)
  }

  function ElementsAt(at: Cursor): seq<Cursor>
  {
    if GetArray(at).Got? then Elements(GetArray(at).value).all else []
  }

  function CommonFrom(es: seq<Entry>): Common
  {
    Common(
      match Last(es, Label(SUIT_DEPENDENCIES)) case None => 0 case Some(e) => |ElementsAt(e.at)|,
      match Last(es, Label(SUIT_COMPONENTS)) case None => [] case Some(e) => ItemsAt(ElementsAt(e.at)),
      LastBstr(es, Label(SUIT_COMMON_SEQUENCE)))
  }

  function CommonOf(r: Range): Common
  {
    match GetMap(Toplevel(r)) case Missing(_) => Common(0, [], Null) case Got(c, _) => CommonFrom(Entries(c).all)
  }

  lemma NothingFound()
    ensures CommonFrom([]) == Common(0, [], Null) && NoRepeats([])
    ensures forall k: u64 :: !Seen([], k)
  {
  }

  /** What the values of the common map are when read in place. */
  lemma CommonValue(e: Entry)
    requires IsUint(e.key)
    ensures e.key.value == SUIT_DEPENDENCIES ==> CommonValueFits(e) == DependenciesFit(e.at)
    ensures e.key.value == SUIT_COMPONENTS ==> CommonValueFits(e) == ComponentsFit(e.at)
    ensures e.key.value == SUIT_COMMON_SEQUENCE ==> CommonValueFits(e) == GetBstr(e.at).Got?
    ensures e.key.value !in {1, 2, 4} ==> !CommonValueFits(e)
    ensures DependenciesFit(e.at) || ComponentsFit(e.at) ==>
              GetArray(e.at).Got? && ElementsAt(e.at) == Elements(GetArray(e.at).value).all
    ensures GetBstr(e.at).Got? ==> BstrAt(e.at) == GetBstr(e.at).value
  {
    hide GetArray, GetBstr, Elements;
  }

  predicate Seen(es: seq<Entry>, k: u64) { Last(es, Label(k)).Some? }

  /** An entry that does not fit, or repeats a key, spoils the whole map. */
  lemma CommonFails(start: Cursor, done: seq<Entry>, now: Cursor, e: Entry)
    requires ReadSoFar(start, done, now) && !AtEnd(now)
    requires EntryAt(now) == (if GetItem(e.at).Missing? then None else Some(e))
    ensures !CommonValueFits(e) ==> !CommonListing(Entries(start))
    ensures IsUint(e.key) && Seen(done, e.key.value) ==> !CommonListing(Entries(start))
  {
    hide GetItem, EntryAt, Last, CommonValueFits, Data, NoRepeats;
    ReadOneMore(start, done, now);
    if IsUint(e.key) && GetItem(e.at).Got? {
      NoRepeatsOfMore(done, e);
      PrefixRepeats(done + [e], Entries(start).all);
    }
  }

  /** What one more entry adds to what has been read of the common map. */
  lemma CommonGrows(done: seq<Entry>, e: Entry)
    requires IsUint(e.key)
    ensures NoRepeats(done) && !Seen(done, e.key.value) ==> NoRepeats(done + [e])
    ensures CommonFrom(done + [e]) == CommonUpdate(CommonFrom(done), e)
    ensures Seen(done + [e], SUIT_DEPENDENCIES) == (Seen(done, SUIT_DEPENDENCIES) || e.key.value == SUIT_DEPENDENCIES)
    ensures Seen(done + [e], SUIT_COMPONENTS) == (Seen(done, SUIT_COMPONENTS) || e.key.value == SUIT_COMPONENTS)
    ensures Seen(done + [e], SUIT_COMMON_SEQUENCE)
         == (Seen(done, SUIT_COMMON_SEQUENCE) || e.key.value == SUIT_COMMON_SEQUENCE)
  {
    hide Last, NoRepeats, ElementsAt, BstrAt, ItemsAt;
    NoRepeatsOfMore(done, e);
    LastOfMore(done, e, Label(SUIT_DEPENDENCIES));
    LastOfMore(done, e, Label(SUIT_COMPONENTS));
    LastOfMore(done, e, Label(SUIT_COMMON_SEQUENCE));
  }

  lemma PrefixRepeats(p: seq<Entry>, es: seq<Entry>)
    ensures p <= es && NoRepeats(es) ==> NoRepeats(p)
  {
    if p <= es && NoRepeats(es) {
      forall i, j | 0 <= i < j < |p| ensures !SameKey(p[i].key, p[j].key) {
        assert es[i] == p[i] && es[j] == p[j];
      }
    }
  }

  /** `suit_parse_common` */
  method ParseCommon(r: Range) returns (ok: bool, common: Common)
    ensures ok == CommonParses(r)
    ensures ok ==> common == CommonOf(r)
  {
    hide GetAny, GetMap, GetItem, GetBstr, GetArray, Entries, Elements, Data;
    common := Common(0, [], Null);
    var ctx := new Context(Toplevel(r));
    var child;
    ok, child := ctx.ReadMap();
    if !ok {
      return;
    }
    var entries := new Context(child);
    ok, common := ParseCommonEntries(entries);
    if ok {
      ok := ctx.Close(entries.View());
    }
  }

  function CommonUpdate(common: Common, e: Entry): Common
    requires IsUint(e.key)
  {
    if e.key.value == SUIT_DEPENDENCIES then common.(nDependencies := |ElementsAt(e.at)|)
    else if e.key.value == SUIT_COMPONENTS then common.(components := ItemsAt(ElementsAt(e.at)))
    else if e.key.value == SUIT_COMMON_SEQUENCE then common.(commandSequence := BstrAt(e.at))
    else common
  }

  /** One value of the common map: the switch of `suit_parse_common`. */
  method ParseCommonValue(entries: Context, key: u64, common0: Common, dependenciesSeen: bool, componentsSeen: bool)
    returns (ok: bool, common: Common)
    requires entries.Valid()
    modifies entries
    ensures entries.Valid()
    ensures var e := Entry(Argument(0, key), old(entries.View()));
            ok == (CommonValueFits(e)
                   && !(key == SUIT_DEPENDENCIES && dependenciesSeen)
                   && !(key == SUIT_COMPONENTS && componentsSeen)
                   && !(key == SUIT_COMMON_SEQUENCE && common0.commandSequence.Span?))
            && (ok ==> common == CommonUpdate(common0, e) && GetItem(e.at).Got? && entries.View() == GetItem(e.at).next)
    ensures ok ==> common.commandSequence.Span? == (common0.commandSequence.Span? || key == SUIT_COMMON_SEQUENCE)
  {
    hide GetAny, GetItem, GetBstr, GetArray, DependenciesFit, ComponentsFit, CommonValueFits, Elements, ElementsAt,
         ItemsAt, BstrAt;
    ghost var e := Entry(Argument(0, key), entries.View());
    CommonValue(e);
    BstrInPlace(e.at);
    common := common0;
    if key == SUIT_DEPENDENCIES {
      if dependenciesSeen {
        return false, common;
      }
      var n;
      ok, n := ReadDependencies(entries);
      common := common.(nDependencies := n);
    } else if key == SUIT_COMPONENTS {
      if componentsSeen {
        return false, common;
      }
      var components;
      ok, components := ReadComponents(entries);
      common := common.(components := components);
    } else if key == SUIT_COMMON_SEQUENCE {
      if common.commandSequence.Span? {
        return false, common;
      }
      var sequence;
      ok, sequence := entries.ReadBstr();
      common := common.(commandSequence := sequence);
    } else {
      ok := false;
    }
  }

  /** The key's initial octet does not matter, only that it is an unsigned integer. */
  lemma KeyByValue(e: Entry)
    requires IsUint(e.key)
    ensures CommonValueFits(e) == CommonValueFits(Entry(Argument(0, e.key.value), e.at))
    ensures forall c: Common :: CommonUpdate(c, e) == CommonUpdate(c, Entry(Argument(0, e.key.value), e.at))
  {
    hide DependenciesFit, ComponentsFit, GetBstr, ElementsAt, ItemsAt, BstrAt;
  }

  /** The loop of `suit_parse_common`. */
  method ParseCommonEntries(entries: Context) returns (ok: bool, common: Common)
    requires entries.Valid()
    modifies entries
    ensures entries.Valid()
    ensures var l := Entries(old(entries.View()));
            ok == CommonListing(l)
            && (ok ==> common == CommonFrom(l.all) && entries.index == entries.count)
  {
    hide GetAny, GetItem, GetBstr, Entries, EntryAt, Last, Seen, CommonFrom, CommonUpdate, NoRepeats, ReadSoFar, Data;
    hide DependenciesFit, ComponentsFit;
    ghost var start: Cursor := entries.View();
    common := Common(0, [], Null);
    var dependenciesSeen, componentsSeen := false, false;
    ghost var done: seq<Entry> := [];
    NothingRead(start);
    NothingFound();
    while !(entries.index == entries.count)
      invariant entries.Valid()
      invariant ReadSoFar(start, done, entries.View())
      invariant NoRepeats(done) && forall e <- done :: CommonValueFits(e)
      invariant common == CommonFrom(done)
      invariant dependenciesSeen == Seen(done, SUIT_DEPENDENCIES)
      invariant componentsSeen == Seen(done, SUIT_COMPONENTS)
      invariant common.commandSequence.Span? == Seen(done, SUIT_COMMON_SEQUENCE)
      decreases |Data(entries.r)|
    {
      ghost var now: Cursor := entries.View();
      ReadOneMore(start, done, now);
      var key;
      ok, key := entries.ReadAny();
      ghost var e := Entry(key, entries.View());
      EntryRead(now, key, e.at);
      if !ok || IsTag(key) {
        return false, common;
      }
      CommonFails(start, done, now, e);
      if !IsUint(key) {
        return false, common;
      }
      CommonGrows(done, e);
      KeyByValue(e);
      ok, common := ParseCommonValue(entries, key.value, common, dependenciesSeen, componentsSeen);
      if !ok {
        return;
      }
      dependenciesSeen := dependenciesSeen || key.value == SUIT_DEPENDENCIES;
      componentsSeen := componentsSeen || key.value == SUIT_COMPONENTS;
      done := done + [e];
    }
    ReadToTheEnd(start, done, entries.View());
    ok := true;
  }

  predicate SeverableFits(at: Cursor) { GetBstr(at).Got? || GetDigest(at).Got? }

  function SeverableAt(at: Cursor): Severable
  {
    match GetBstr(at)
    case Got(body, _) => Body(body)
    case Missing(_) => match GetDigest(at) case Got(d, _) => Severed(d) case Missing(_) => Absent
  }

  function LastSeverable(es: seq<Entry>, key: Key): Severable
  {
    match Last(es, key) case None => Absent case Some(e) => SeverableAt(e.at)
  }

  /** `read_severed` */
  method ReadSevered(ctx: Context) returns (ok: bool, severable: Severable)
    requires ctx.Valid()
    modifies ctx
    ensures ctx.Valid()
    ensures var at := old(ctx.View());
            ok == SeverableFits(at)
            && (ok ==> severable == SeverableAt(at) && GetItem(at).Got? && ctx.View() == GetItem(at).next)
  {
    hide GetAny, GetItem, GetBstr, GetDigest;
    ghost var at: Cursor := ctx.View();
    BstrInPlace(at);
    DigestIsItem(at);
    var body;
    ok, body := ctx.ReadBstr();
    severable := Body(body);
    if !ok {
      var digest;
      ok, digest := ReadDigest(ctx);
      severable := Severed(digest);
    }
  }

  /** A value of the manifest map, after its first two entries: a known key's value has the key's type. */
  predicate ManifestValueFits(e: Entry)
  {
    IsUint(e.key) ==>
      var k := e.key.value;
      if k == SUIT_MANIFEST_VERSION || k == SUIT_MANIFEST_SEQUENCE_NUMBER then false
      else if k == SUIT_COMMON then GetBstr(e.at).Got? && CommonParses(GetBstr(e.at).value)
      else if k in {SUIT_REFERENCE_URI, SUIT_VALIDATE, SUIT_LOAD, SUIT_RUN} then GetBstr(e.at).Got?
      else if k in {SUIT_DEPENDENCY_RESOLUTION, SUIT_PAYLOAD_FETCH, SUIT_INSTALL, SUIT_TEXT, SUIT_COSWID} then
        SeverableFits(e.at)
      else true
  }

  predicate UintEntry(e: Entry, key: u64) { IsUint(e.key) && e.key.value == key && GetUint(e.at).Got? }

  /** The first two entries are version 1 and a sequence number. */
  predicate HeaderFits(es: seq<Entry>)
  {
    |es| >= 2
    && UintEntry(es[0], SUIT_MANIFEST_VERSION) && GetUint(es[0].at).value == 1
    && UintEntry(es[1], SUIT_MANIFEST_SEQUENCE_NUMBER)
  }

  predicate ManifestEntriesFit(es: seq<Entry>)
  {
    HeaderFits(es) && forall i | 2 <= i < |es| :: ManifestValueFits(es[i])
  }

  predicate ManifestListing(l: Listing<Entry>)
  {
    l.complete && ManifestEntriesFit(l.all) && LastBstr(l.all, Label(SUIT_COMMON)).Span?
  }

  predicate ManifestParses(r: Range)
  {
    GetMap(Toplevel(r)).Got? && ManifestListing(Entries(GetMap(Toplevel(r)).value))
  }

  /** The manifest whose map has these entries: each field is the last value under its key. */
  function ManifestFrom(binary: Range, es: seq<Entry>): Manifest
    requires HeaderFits(es)
  {
    Manifest(Null, binary, GetUint(es[0].at).value, GetUint(es[1].at).value,
      LastBstr(es, Label(SUIT_COMMON)),
      CommonOf(LastBstr(es, Label(SUIT_COMMON))),
      LastBstr(es, Label(SUIT_REFERENCE_URI)),
      LastSeverable(es, Label(SUIT_DEPENDENCY_RESOLUTION)),
      LastSeverable(es, Label(SUIT_PAYLOAD_FETCH)),
      LastSeverable(es, Label(SUIT_INSTALL)),
      LastSeverable(es, Label(SUIT_TEXT)),
      LastSeverable(es, Label(SUIT_COSWID)),
      LastBstr(es, Label(SUIT_VALIDATE)),
      LastBstr(es, Label(SUIT_LOAD)),
      LastBstr(es, Label(SUIT_RUN)))
  }

  function ManifestUpdate(m: Manifest, e: Entry): Manifest
  {
    if !IsUint(e.key) then m
    else if e.key.value == SUIT_COMMON then m.(commonBstr := BstrAt(e.at), common := CommonOf(BstrAt(e.at)))
    else if e.key.value == SUIT_REFERENCE_URI then m.(referenceUri := BstrAt(e.at))
    else if e.key.value == SUIT_DEPENDENCY_RESOLUTION then m.(dependencyResolution := SeverableAt(e.at))
    else if e.key.value == SUIT_PAYLOAD_FETCH then m.(payloadFetch := SeverableAt(e.at))
    else if e.key.value == SUIT_INSTALL then m.(install := SeverableAt(e.at))
    else if e.key.value == SUIT_TEXT then m.(text := SeverableAt(e.at))
    else if e.key.value == SUIT_COSWID then m.(coswid := SeverableAt(e.at))
    else if e.key.value == SUIT_VALIDATE then m.(validate := BstrAt(e.at))
    else if e.key.value == SUIT_LOAD then m.(load := BstrAt(e.at))
    else if e.key.value == SUIT_RUN then m.(run := BstrAt(e.at))
    else m
  }

  lemma LastBstrOfMore(es: seq<Entry>, e: Entry, k: u64)
    ensures LastBstr(es + [e], Label(k))
         == if IsUint(e.key) && e.key.value == k then BstrAt(e.at) else LastBstr(es, Label(k))
  {
    LastOfMore(es, e, Label(k));
  }

  lemma LastSeverableOfMore(es: seq<Entry>, e: Entry, k: u64)
    ensures LastSeverable(es + [e], Label(k))
         == if IsUint(e.key) && e.key.value == k then SeverableAt(e.at) else LastSeverable(es, Label(k))
  {
    LastOfMore(es, e, Label(k));
  }

  lemma ManifestGrows(binary: Range, done: seq<Entry>, e: Entry)
    requires HeaderFits(done)
    ensures HeaderFits(done + [e])
    ensures ManifestFrom(binary, done + [e]) == ManifestUpdate(ManifestFrom(binary, done), e)
    ensures ManifestEntriesFit(done) && ManifestValueFits(e) ==> ManifestEntriesFit(done + [e])
  {
    hide Last, LastBstr, LastSeverable, SeverableAt, BstrAt, CommonOf, GetUint, ManifestValueFits;
    assert (done + [e])[0] == done[0] && (done + [e])[1] == done[1];
    LastBstrOfMore(done, e, SUIT_COMMON);
    LastBstrOfMore(done, e, SUIT_REFERENCE_URI);
    LastSeverableOfMore(done, e, SUIT_DEPENDENCY_RESOLUTION);
    LastSeverableOfMore(done, e, SUIT_PAYLOAD_FETCH);
    LastSeverableOfMore(done, e, SUIT_INSTALL);
    LastSeverableOfMore(done, e, SUIT_TEXT);
    LastSeverableOfMore(done, e, SUIT_COSWID);
    LastBstrOfMore(done, e, SUIT_VALIDATE);
    LastBstrOfMore(done, e, SUIT_LOAD);
    LastBstrOfMore(done, e, SUIT_RUN);
  }

  lemma BstrThere(at: Cursor)
    ensures GetBstr(at).Got? ==> BstrAt(at) == GetBstr(at).value
  {
    hide GetBstr;
  }

  /** The values of the manifest map that are byte strings. */
  method ParseBstrValue(entries: Context, key: u64, m0: Manifest) returns (ok: bool, m: Manifest)
    requires entries.Valid() && key in {SUIT_REFERENCE_URI, SUIT_VALIDATE, SUIT_LOAD, SUIT_RUN}
    modifies entries
    ensures entries.Valid()
    ensures var e := Entry(Argument(0, key), old(entries.View()));
            ok == GetBstr(e.at).Got?
            && (ok ==> m == ManifestUpdate(m0, e) && GetItem(e.at).Got? && entries.View() == GetItem(e.at).next)
  {
    hide GetAny, GetItem, GetBstr, BstrAt, SeverableAt, CommonOf, Data;
    BstrInPlace(entries.View());
    BstrThere(entries.View());
    m := m0;
    var bstr;
    ok, bstr := entries.ReadBstr();
    if !ok {
      return;
    }
    if key == SUIT_REFERENCE_URI {
      m := m.(referenceUri := bstr);
    } else if key == SUIT_VALIDATE {
      m := m.(validate := bstr);
    } else if key == SUIT_LOAD {
      m := m.(load := bstr);
    } else if key == SUIT_RUN {
      m := m.(run := bstr);
    }
  }

  /** The values of the manifest map that may be severed. */
  method ParseSeverableValue(entries: Context, key: u64, m0: Manifest) returns (ok: bool, m: Manifest)
    requires entries.Valid()
    requires key in {SUIT_DEPENDENCY_RESOLUTION, SUIT_PAYLOAD_FETCH, SUIT_INSTALL, SUIT_TEXT, SUIT_COSWID}
    modifies entries
    ensures entries.Valid()
    ensures var e := Entry(Argument(0, key), old(entries.View()));
            ok == SeverableFits(e.at)
            && (ok ==> m == ManifestUpdate(m0, e) && GetItem(e.at).Got? && entries.View() == GetItem(e.at).next)
  {
    hide GetAny, GetItem, SeverableAt, SeverableFits, BstrAt, CommonOf, Data;
    m := m0;
    var severable;
    ok, severable := ReadSevered(entries);
    if !ok {
      return;
    }
    if key == SUIT_DEPENDENCY_RESOLUTION {
      m := m.(dependencyResolution := severable);
    } else if key == SUIT_PAYLOAD_FETCH {
      m := m.(payloadFetch := severable);
    } else if key == SUIT_INSTALL {
      m := m.(install := severable);
    } else if key == SUIT_TEXT {
      m := m.(text := severable);
    } else if key == SUIT_COSWID {
      m := m.(coswid := severable);
    }
  }

  /** The common block of the manifest map. */
  method ParseCommonBlock(entries: Context, m0: Manifest) returns (ok: bool, m: Manifest)
    requires entries.Valid()
    modifies entries
    ensures entries.Valid()
    ensures var e := Entry(Argument(0, SUIT_COMMON), old(entries.View()));
            ok == (GetBstr(e.at).Got? && CommonParses(GetBstr(e.at).value))
            && (ok ==> m == ManifestUpdate(m0, e)
                       && GetItem(e.at).Got? && entries.View() == GetItem(e.at).next)
  {
    hide GetAny, GetItem, GetBstr, SeverableAt, CommonOf, CommonParses;
    BstrInPlace(entries.View());
    m := m0;
    var bstr, common;
    ok, bstr := entries.ReadBstr();
    if ok {
      ok, common := ParseCommon(bstr);
      m := m.(commonBstr := bstr, common := common);
    }
  }

  lemma ManifestKeyByValue(e: Entry)
    requires IsUint(e.key)
    ensures forall m: Manifest :: ManifestUpdate(m, e) == ManifestUpdate(m, Entry(Argument(0, e.key.value), e.at))
  {
    hide SeverableAt, CommonOf, BstrAt;
  }

  lemma ManifestSkips(m: Manifest, e: Entry)
    requires !IsUint(e.key) || e.key.value !in {3, 4, 7, 8, 9, 10, 11, 12, 13, 14}
    ensures ManifestUpdate(m, e) == m
  {
  }

  /** One value of the manifest map: the switch of `suit_manifest_parse`. */
  method ParseManifestValue(entries: Context, key: Any, m0: Manifest) returns (ok: bool, m: Manifest)
    requires entries.Valid()
    modifies entries
    ensures entries.Valid()
    ensures var e := Entry(key, old(entries.View()));
            ok == (ManifestValueFits(e) && GetItem(e.at).Got?)
            && (ok ==> m == ManifestUpdate(m0, e) && entries.View() == GetItem(e.at).next)
  {
    hide GetAny, GetItem, GetBstr, GetSkip, SeverableFits, CommonParses, ManifestUpdate;
    ghost var e := Entry(key, entries.View());
    BstrInPlace(e.at);
    SkipIsItem(e.at);
    SeverableIsItem(e.at);
    if IsUint(key) {
      ManifestKeyByValue(e);
      if key.value == SUIT_MANIFEST_VERSION || key.value == SUIT_MANIFEST_SEQUENCE_NUMBER {
        return false, m0;
      } else if key.value == SUIT_COMMON {
        ok, m := ParseCommonBlock(entries, m0);
        return;
      } else if key.value in {SUIT_REFERENCE_URI, SUIT_VALIDATE, SUIT_LOAD, SUIT_RUN} {
        ok, m := ParseBstrValue(entries, key.value, m0);
        return;
      } else if key.value in {SUIT_DEPENDENCY_RESOLUTION, SUIT_PAYLOAD_FETCH, SUIT_INSTALL, SUIT_TEXT, SUIT_COSWID} {
        ok, m := ParseSeverableValue(entries, key.value, m0);
        return;
      }
    }
    ManifestSkips(m0, e);
    ok := entries.Skip(1);
    m := m0;
  }

  lemma SeverableIsItem(at: Cursor)
    ensures SeverableFits(at) ==> GetItem(at).Got?
  {
    hide GetItem, GetDigest, GetBstr;
    BstrInPlace(at);
    DigestIsItem(at);
  }

  /** `read_key_and_uint` */
  method ReadKeyAndUint(ctx: Context, key: u64) returns (ok: bool, v: u64)
    requires ctx.Valid()
    modifies ctx
    ensures ctx.Valid()
    ensures var k := GetUint(old(ctx.View()));
            ok == (k.Got? && k.value == key && GetUint(k.next).Got?)
            && (ok ==> v == GetUint(k.next).value && ctx.View() == GetUint(k.next).next)
            && (!ok ==> ctx.View() == old(ctx.View()))
  {
    hide GetAny, GetUint;
    var saved := ctx.View();
    v := 0;
    var k;
    ok, k := ctx.ReadUint();
    if ok {
      ok := k == key;
    }
    if ok {
      ok, v := ctx.ReadUint();
    }
    if !ok {
      ctx.Restore(saved);
    }
  }

  /** A key with an integer value, read as such, is the entry at that position. */
  lemma UintEntryAt(now: Cursor, key: u64)
    ensures (GetUint(now).Got? && GetUint(now).value == key && GetUint(GetUint(now).next).Got?)
         == (!AtEnd(now) && EntryAt(now).Some? && UintEntry(EntryAt(now).value, key))
    ensures GetUint(now).Got? && GetUint(GetUint(now).next).Got? ==>
              EntryAt(now).Some? && EntryAt(now).value.at == GetUint(now).next
              && GetItem(EntryAt(now).value.at).next == GetUint(GetUint(now).next).next
  {
    UintIsAny(now);
    if GetAny(now).Got? {
      UintIsAny(GetAny(now).next);
    }
    hide GetAny, GetItem, GetUint;
  }

  lemma UintIsAny(c: Cursor)
    ensures GetUint(c).Got? <==> GetAny(c).Got? && IsUint(GetAny(c).value)
    ensures GetUint(c).Got? ==> GetUint(c).value == GetAny(c).value.value && !AtEnd(c)
    ensures GetUint(c).Got? ==> GetItem(c).Got? && GetItem(c).next == GetUint(c).next
  {
    hide GetItem, ReadHead, Data;
    if GetUint(c).Got? {
      ScalarIsSubobject(c);
    }
  }

  /** `suit_manifest_parse` */
  method ParseManifest(r: Range) returns (ok: bool, m: Manifest)
    ensures ok == ManifestParses(r)
    ensures ok ==> m == ManifestFrom(r, Entries(GetMap(Toplevel(r)).value).all)
  {
    hide GetAny, GetMap, GetItem, GetUint, Entries, HeaderFits, ManifestFrom, ManifestEntriesFit;
    m := EmptyManifest(r);
    var ctx := new Context(Toplevel(r));
    var child;
    ok, child := ctx.ReadMap();
    if !ok {
      return;
    }
    var entries := new Context(child);
    var version, sequenceNumber;
    ok, version := ReadKeyAndUint(entries, SUIT_MANIFEST_VERSION);
    VersionFirst(child);
    if !ok || version != 1 {
      return false, m;
    }
    SequenceNumberSecond(child);
    ok, sequenceNumber := ReadKeyAndUint(entries, SUIT_MANIFEST_SEQUENCE_NUMBER);
    if !ok {
      return;
    }
    ghost var done := HeaderIsRead(child, r);
    m := m.(version := version, sequenceNumber := sequenceNumber);
    ok, m := ParseManifestEntries(child, done, entries, m);
    if ok {
      ok := ctx.Close(entries.View());
    }
  }

  function EmptyManifest(binary: Range): Manifest
  {
    Manifest(Null, binary, 0, 0, Null, CommonOf(Null), Null, Absent, Absent, Absent, Absent, Absent, Null, Null, Null)
  }

  /** The first two entries have been read, and are as they must be. */
  ghost predicate HeaderRead(start: Cursor, done: seq<Entry>, now: Cursor, m: Manifest)
  {
    ReadSoFar(start, done, now) && |done| == 2 && HeaderFits(done) && m == ManifestFrom(m.binary, done)
  }

  /** A manifest that parses starts with its version. */
  lemma VersionFirst(start: Cursor)
    ensures ManifestListing(Entries(start)) ==>
              var k := GetUint(start);
              k.Got? && k.value == SUIT_MANIFEST_VERSION && GetUint(k.next).Got? && GetUint(k.next).value == 1
  {
    EntriesNext(start);
    UintEntryAt(start, SUIT_MANIFEST_VERSION);
    hide GetUint, GetItem, EntryAt, Entries, LastBstr, ManifestValueFits;
  }

  /** And goes on with its sequence number. */
  lemma SequenceNumberSecond(start: Cursor)
    requires var k := GetUint(start); k.Got? && k.value == SUIT_MANIFEST_VERSION && GetUint(k.next).Got?
    ensures ManifestListing(Entries(start)) ==>
              var k2 := GetUint(GetUint(GetUint(start).next).next);
              k2.Got? && k2.value == SUIT_MANIFEST_SEQUENCE_NUMBER && GetUint(k2.next).Got?
  {
    EntriesNext(start);
    UintEntryAt(start, SUIT_MANIFEST_VERSION);
    var now := GetUint(GetUint(start).next).next;
    EntriesNext(now);
    UintEntryAt(now, SUIT_MANIFEST_SEQUENCE_NUMBER);
    hide GetUint, GetItem, EntryAt, Entries, LastBstr, ManifestValueFits;
  }

  /** Both have been read. */
  lemma HeaderIsRead(start: Cursor, binary: Range) returns (done: seq<Entry>)
    requires var k := GetUint(start);
             k.Got? && k.value == SUIT_MANIFEST_VERSION && GetUint(k.next).Got? && GetUint(k.next).value == 1
    requires var k2 := GetUint(GetUint(GetUint(start).next).next);
             k2.Got? && k2.value == SUIT_MANIFEST_SEQUENCE_NUMBER && GetUint(k2.next).Got?
    ensures var v := GetUint(GetUint(start).next);
            var n := GetUint(GetUint(v.next).next);
            HeaderRead(start, done, n.next, EmptyManifest(binary).(version := 1, sequenceNumber := n.value))
  {
    hide GetUint, GetItem, EntryAt, Entries, ReadSoFar, ManifestFrom, EmptyManifest, ReadHead, GetAny, Data;
    var now := GetUint(GetUint(start).next).next;
    UintEntryAt(start, SUIT_MANIFEST_VERSION);
    UintEntryAt(now, SUIT_MANIFEST_SEQUENCE_NUMBER);
    NothingRead(start);
    ReadOneMore(start, [], start);
    var e0 := EntryAt(start).value;
    assert [] + [e0] == [e0];
    ReadOneMore(start, [e0], now);
    var e1 := EntryAt(now).value;
    done := [e0] + [e1];
    HeaderAlone(binary, done);
    EmptyBinary(binary);
  }

  lemma EmptyBinary(binary: Range)
    ensures forall v: u64, n: u64 :: EmptyManifest(binary).(version := v, sequenceNumber := n).binary == binary
  {
  }

  /** The first two keys are no field's. */
  lemma HeaderAlone(binary: Range, done: seq<Entry>)
    requires |done| == 2 && HeaderFits(done)
    ensures ManifestFrom(binary, done)
         == EmptyManifest(binary).(version := GetUint(done[0].at).value, sequenceNumber := GetUint(done[1].at).value)
  {
    hide Last, LastBstr, LastSeverable, GetUint, CommonOf;
    forall k: u64 | k > 2
      ensures LastBstr(done, Label(k)) == Null && LastSeverable(done, Label(k)) == Absent
    {
      NoOtherKey(done, k);
    }
  }

  lemma NoOtherKey(done: seq<Entry>, k: u64)
    requires |done| == 2 && k > 2
    requires IsUint(done[0].key) && done[0].key.value == 1 && IsUint(done[1].key) && done[1].key.value == 2
    ensures LastBstr(done, Label(k)) == Null && LastSeverable(done, Label(k)) == Absent
  {
    hide Last, BstrAt, SeverableAt, Data, ReadHead;
    forall e <- done ensures !Matches(Label(k), e.key) {
      assert e == done[0] || e == done[1];
    }
    assert Last(done, Label(k)).None?;
  }

  /** A value that does not fit spoils the whole manifest. */
  lemma ManifestFails(start: Cursor, done: seq<Entry>, now: Cursor, e: Entry)
    requires ReadSoFar(start, done, now) && !AtEnd(now) && |done| >= 2
    requires EntryAt(now) == (if GetItem(e.at).Missing? then None else Some(e))
    ensures !ManifestValueFits(e) || GetItem(e.at).Missing? ==> !ManifestListing(Entries(start))
  {
    hide GetItem, EntryAt, Entries, ManifestValueFits, HeaderFits, LastBstr;
    ReadOneMore(start, done, now);
    if GetItem(e.at).Got? {
      assert Entries(start).all[|done|] == e;
    }
  }

  /** The loop of `suit_manifest_parse`. */
  method ParseManifestEntries(ghost start: Cursor, ghost header: seq<Entry>, entries: Context, m0: Manifest)
    returns (ok: bool, m: Manifest)
    requires entries.Valid() && HeaderRead(start, header, entries.View(), m0)
    modifies entries
    ensures entries.Valid()
    ensures ok == ManifestListing(Entries(start))
    ensures ok ==> m == ManifestFrom(m0.binary, Entries(start).all) && entries.index == entries.count
  {
    hide GetAny, GetItem, Entries, EntryAt, HeaderFits, ManifestUpdate, ManifestValueFits, LastBstr, LastSeverable,
         Data;
    m := m0;
    ghost var done := header;
    while !(entries.index == entries.count)
      invariant entries.Valid()
      invariant ReadSoFar(start, done, entries.View())
      invariant |done| >= 2 && HeaderFits(done) && ManifestEntriesFit(done) && m == ManifestFrom(m0.binary, done)
      decreases |Data(entries.r)|
    {
      ghost var now: Cursor := entries.View();
      ReadOneMore(start, done, now);
      var key;
      ok, key := entries.ReadAny();
      ghost var e := Entry(key, entries.View());
      EntryRead(now, key, e.at);
      if !ok || IsTag(key) {
        return false, m;
      }
      ManifestGrows(m0.binary, done, e);
      ManifestFails(start, done, now, e);
      ok, m := ParseManifestValue(entries, key, m);
      if !ok {
        return;
      }
      done := done + [e];
    }
    ReadToTheEnd(start, done, entries.View());
    ok := m.commonBstr.Span?;
  }

  /** The manifest of an envelope. */
  function ManifestOf(envelope: Range): Option<Manifest>
  {
    match FieldOf(envelope, Label(SUIT_MANIFEST))
    case None => None
    case Some(r) =>
      if ManifestParses(r) then Some(ManifestFrom(r, Entries(GetMap(Toplevel(r)).value).all).(envelope := envelope))
      else None
  }

  /** `suit_envelope_get_manifest` */
  method GetManifest(envelope: Range) returns (o: Option<Manifest>)
    ensures o == ManifestOf(envelope)
  {
    hide FieldOf, ManifestParses, ManifestFrom, GetMap;
    var r := GetField(envelope, Label(SUIT_MANIFEST));
    if r.None? {
      return None;
    }
    var ok, m := ParseManifest(r.value);
    if !ok {
      return None;
    }
    return Some(m.(envelope := envelope));
  }

  predicate SeverableInside(s: Severable, r: Range)
  {
    match s case Absent => true case Body(body) => Within(body, r) case Severed(d) => Within(d.bytes, r)
  }

  predicate CommonInside(c: Common, r: Range)
  {
    c.nDependencies <= SUIT_DEPENDENCY_MAX && |c.components| <= SUIT_COMPONENT_MAX
    && (forall id <- c.components :: Within(id, r)) && Within(c.commandSequence, r)
  }

  /** Every range of a manifest is null or inside the envelope, and its tables fit their arrays. */
  predicate ManifestInside(m: Manifest, r: Range)
  {
    Within(m.binary, r) && Within(m.commonBstr, r) && CommonInside(m.common, r) && Within(m.referenceUri, r)
    && SeverableInside(m.dependencyResolution, r) && SeverableInside(m.payloadFetch, r)
    && SeverableInside(m.install, r) && SeverableInside(m.text, r) && SeverableInside(m.coswid, r)
    && Within(m.validate, r) && Within(m.load, r) && Within(m.run, r)
  }

  lemma {:induction false} ElementsFollow(c: Cursor)
    ensures forall p <- Elements(c).all :: Follows(p, c)
    decreases |Data(c.r)|
  {
    hide GetItem, Data;
    if !AtEnd(c) && GetItem(c).Got? {
      ElementsFollow(GetItem(c).next);
      forall p <- Elements(c).all ensures Follows(p, c) {
        if p != c {
          assert p in Elements(GetItem(c).next).all;
        }
      }
    }
  }

  lemma ComponentsInside(at: Cursor)
    ensures forall id <- ItemsAt(ElementsAt(at)) :: Within(id, at.r)
  {
    hide GetItem, GetArray, Elements, ItemAt;
    if GetArray(at).Got? {
      ElementsFollow(GetArray(at).value);
      var ps := ElementsAt(at);
      forall i | 0 <= i < |ps| ensures Within(ItemsAt(ps)[i], at.r) {
        assert Follows(ps[i], GetArray(at).value);
      }
    }
  }

  lemma SeverableWithin(at: Cursor)
    ensures SeverableInside(SeverableAt(at), at.r)
  {
    hide GetBstr, GetDigest;
  }

  /** The values of a map's entries lie inside the map. */
  lemma FieldsInside(c: Cursor, key: Key)
    ensures Within(LastBstr(Entries(c).all, key), c.r)
    ensures SeverableInside(LastSeverable(Entries(c).all, key), c.r)
  {
    hide Entries, BstrAt, SeverableAt, Last, Data;
    EntriesFollow(c);
    var o := Last(Entries(c).all, key);
    if o.Some? {
      assert Follows(o.value.at, c);
      SeverableWithin(o.value.at);
    }
  }

  lemma CommonIsInside(r: Range)
    requires CommonParses(r)
    ensures CommonInside(CommonOf(r), r)
  {
    hide Entries, Last, Data, NoRepeats, ItemsAt, ElementsAt, GetAny, LastBstr, CommonValueFits, Within;
    var c := GetMap(Toplevel(r)).value;
    var es := Entries(c).all;
    EntriesFollow(c);
    FieldsInside(c, Label(SUIT_COMMON_SEQUENCE));
    MapInside(r);
    var d := Last(es, Label(SUIT_DEPENDENCIES));
    if d.Some? {
      FittingElements(d.value);
    }
    var o := Last(es, Label(SUIT_COMPONENTS));
    if o.Some? {
      FittingElements(o.value);
      ComponentsInside(o.value.at);
      InsideFollowing(o.value.at, c, r);
    }
    InsideTrans(LastBstr(es, Label(SUIT_COMMON_SEQUENCE)), c.r, r);
  }

  lemma FittingElements(e: Entry)
    requires CommonValueFits(e)
    ensures e.key.value == SUIT_DEPENDENCIES ==> |ElementsAt(e.at)| <= SUIT_DEPENDENCY_MAX
    ensures e.key.value == SUIT_COMPONENTS ==> |ElementsAt(e.at)| <= SUIT_COMPONENT_MAX
  {
    hide GetArray, Elements, GetBstr, GetMap;
  }

  lemma MapInside(r: Range)
    requires GetMap(Toplevel(r)).Got?
    ensures Within(GetMap(Toplevel(r)).value.r, r)
  {
    hide GetAny;
  }

  lemma InsideTrans(x: Range, y: Range, z: Range)
    requires Within(x, y) && Within(y, z)
    ensures Within(x, z)
  {
  }

  lemma InsideFollowing(at: Cursor, c: Cursor, r: Range)
    requires Follows(at, c) && Within(c.r, r)
    ensures Within(at.r, r) && forall x: Range :: Within(x, at.r) ==> Within(x, r)
  {
  }

  lemma InsideOfInside(s: Severable, c: Common, inner: Range, outer: Range)
    requires Within(inner, outer)
    ensures SeverableInside(s, inner) ==> SeverableInside(s, outer)
    ensures CommonInside(c, inner) ==> CommonInside(c, outer)
  {
  }

  /** Containment: whatever a parsed manifest points to is inside the envelope it came from. */
  lemma ManifestIsInside(envelope: Range)
    requires ManifestOf(envelope).Some?
    ensures ManifestInside(ManifestOf(envelope).value, envelope)
  {
    hide FieldOf, Entries, LastBstr, LastSeverable, CommonOf, CommonParses, CommonInside, Last, GetAny, GetUint,
         GetBstr, Data, SeverableInside, Within;
    var r := FieldOf(envelope, Label(SUIT_MANIFEST)).value;
    FieldWithin(envelope, Label(SUIT_MANIFEST));
    MapFieldsInside(r, envelope);
  }

  lemma MapFieldsInside(r: Range, envelope: Range)
    requires ManifestParses(r) && Within(r, envelope)
    ensures var es := Entries(GetMap(Toplevel(r)).value).all;
            && (forall k: u64 ::
                  Within(LastBstr(es, Label(k)), envelope) && SeverableInside(LastSeverable(es, Label(k)), envelope))
            && CommonInside(CommonOf(LastBstr(es, Label(SUIT_COMMON))), envelope)
  {
    hide Entries, CommonOf, CommonParses, CommonInside, Last, GetAny, GetBstr, GetUint, Data, BstrAt, SeverableAt;
    var c := GetMap(Toplevel(r)).value;
    var es := Entries(c).all;
    forall k: u64
      ensures Within(LastBstr(es, Label(k)), envelope) && SeverableInside(LastSeverable(es, Label(k)), envelope)
    {
      FieldsInside(c, Label(k));
    }
    var o := Last(es, Label(SUIT_COMMON));
    var common := LastBstr(es, Label(SUIT_COMMON));
    assert o.Some?;
    var i :| 0 <= i < |es| && es[i] == o.value;
    assert i >= 2;
    assert ManifestValueFits(es[i]);
    BstrThere(es[i].at);
    CommonIsInside(common);
    InsideOfInside(Absent, CommonOf(common), common, envelope);
  }

  /** There is a block at least, every block is tagged as COSE_Sign1 and its signature covers the digest, and that is
      SHA-256 of these octets as a byte string. */
  predicate Vouches(crypto: Crypto, key: seq<byte>, blocks: seq<Range>, digest: Range, manifest: seq<byte>)
    requires |manifest| < TWO64
  {
    && blocks != []
    && (forall b <- blocks ::
          && GetTag(Toplevel(b)).Got? && GetTag(Toplevel(b)).value == 18
          && crypto.verifySign1(key, Data(b), Data(digest)))
    && GetDigest(Toplevel(digest)).Got?
    && var d := GetDigest(Toplevel(digest)).value;
       d.algorithm == -16 && Data(d.bytes) == crypto.sha256(EncodeHead(2, |manifest|) + manifest)
  }

  lemma VouchesFor(crypto: Crypto, key: seq<byte>, blocks: seq<Range>, digest: Range, manifest: Range)
    requires blocks != [] && forall b <- blocks :: BlockVerifies(crypto, key, b, digest)
    requires DigestMatches(crypto, digest, manifest)
    ensures Vouches(crypto, key, blocks, digest, Data(manifest))
  {
    hide GetTag, GetDigest, EncodeHead, Data;
  }

  lemma {:induction false} BstrsInside(c: Cursor, outer: Range)
    requires Within(c.r, outer)
    ensures forall b <- Bstrs(c).all :: Within(b, outer)
    decreases |Data(c.r)|
  {
    hide GetAny, GetBstr, Within, Data;
    if !AtEnd(c) && GetBstr(c).Got? {
      InsideTrans(GetBstr(c).value, c.r, outer);
      InsideFollowing(GetBstr(c).next, c, outer);
      BstrsInside(GetBstr(c).next, outer);
    }
  }

  /** Authenticity: the octets of a manifest taken from an authentic envelope are the payload that the checked
      digest covers, and every auth block, of which there is one at least, is signed over that digest; digest and
      blocks are the envelope's own. */
  lemma AuthenticManifest(crypto: Crypto, key: seq<byte>, envelope: Range)
    requires Authentic(crypto, key, envelope) && ManifestOf(envelope).Some?
    ensures var m := ManifestOf(envelope).value;
            Within(m.binary, envelope)
            && exists digest: Range, blocks: seq<Range> ::
                 && Vouches(crypto, key, blocks, digest, Data(m.binary))
                 && Within(digest, envelope) && forall b <- blocks :: Within(b, envelope)
  {
    hide FieldOf, Entries, ManifestParses, ManifestFrom, BlockVerifies, DigestMatches, GetAny, GetMap, GetArray,
         GetBstr, Bstrs, Within, Vouches, Data;
    FieldWithin(envelope, Label(SUIT_MANIFEST));
    FieldWithin(envelope, Label(SUIT_AUTHENTICATION_WRAPPER));
    var wrapper := FieldOf(envelope, Label(SUIT_AUTHENTICATION_WRAPPER)).value;
    var items := GetArray(Toplevel(wrapper));
    var digest := GetBstr(items.value);
    var blocks := Bstrs(digest.next).all;
    BinaryIsField(envelope);
    VouchesFor(crypto, key, blocks, digest.value, ManifestOf(envelope).value.binary);
    InsideFollowing(items.next, Toplevel(wrapper), envelope);
    InsideTrans(digest.value, items.value.r, envelope);
    InsideFollowing(digest.next, items.value, envelope);
    BstrsInside(digest.next, envelope);
  }

  lemma BinaryIsField(envelope: Range)
    requires ManifestOf(envelope).Some?
    ensures FieldOf(envelope, Label(SUIT_MANIFEST)) == Some(ManifestOf(envelope).value.binary)
    ensures ManifestOf(envelope).value.envelope == envelope
  {
    hide FieldOf, ManifestParses, GetMap, Entries, CommonOf, GetUint, LastBstr, LastSeverable, HeaderFits;
  }

  /** `suit_context_t`: the manifests added so far, the first of which is the root. */
  class SuitContext {
    var manifests: seq<Manifest>

    /** `suit_context_init` */
    constructor ()
      ensures manifests == []
    {
      manifests := [];
    }

    /** `suit_context_add_envelope` */
    method AddEnvelope(envelope: Range) returns (ok: bool)
      modifies this
      ensures ok == (|old(manifests)| != SUIT_MANIFEST_MAX && ManifestOf(envelope).Some?)
      ensures manifests == if ok then old(manifests) + [ManifestOf(envelope).value] else old(manifests)
    {
      if |manifests| == SUIT_MANIFEST_MAX {
        return false;
      }
      var m := GetManifest(envelope);
      if m.None? {
        return false;
      }
      manifests := manifests + [m.value];
      return true;
    }

    /** `suit_context_get_root_manifest` */
    function Root(): Option<Manifest>
      reads this
    {
      if manifests == [] then None else Some(manifests[0])
    }
  }
}
