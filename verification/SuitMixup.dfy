/** A manifest whose second component is installed from the first one's address, octet by octet: two targets that lie
    in the same local variable share their parameters. */
module SuitMixup {
  import opened Wrappers
  import opened Bytes
  import opened CborHead
  import opened CborReader
  import opened SuitEnvelope
  import opened SuitManifest
  import opened SuitBindings
  import opened SuitPlan
  import opened SuitTargets
  import opened SuitOctets
  import SuitRunner

  /** 107({3: h'A4 0101 0200 0349A10282814161814162 0951...'}): version 1, sequence number 0, the components [h'61']
      and [h'62'], and the install sequence [12, 0, 19, {21: "a"}, 12, 1, 19, {21: "b"}, 21, null]: set the first
      component's URI to "a" and the second one's to "b", and fetch the second. */
  const ENVELOPE: seq<byte> := OPENING + COMMON + INSTALL

  const OPENING: seq<byte> := [0xD8, 0x6B, 0xA1, 0x03, 0x58, 0x23, 0xA4, 0x01, 0x01, 0x02, 0x00]

  const COMMON: seq<byte> := [0x03, 0x49, 0xA1, 0x02, 0x82, 0x81, 0x41, 0x61, 0x81, 0x41, 0x62]

  const INSTALL: seq<byte> :=
    [0x09, 0x51, 0x8A, 0x0C, 0x00, 0x13, 0xA1, 0x15, 0x61, 0x61, 0x0C, 0x01, 0x13, 0xA1, 0x15, 0x61, 0x62, 0x15, 0xF6]

  /** Memory that holds the three parts, told octet by octet. */
  predicate Holds(mem: seq<byte>) { HoldsOpening(mem) && HoldsCommon(mem) && HoldsInstall(mem) }

  predicate HoldsOpening(mem: seq<byte>)
  {
    && |mem| == 41 && mem[..2] == [0xD8, 0x6B] && mem[2] == 0xA1 && mem[3] == 0x03 && mem[4] == 0x58 && mem[5] == 0x23
    && mem[6] == 0xA4 && mem[7] == 0x01 && mem[8] == 0x01 && mem[9] == 0x02 && mem[10] == 0x00
  }

  predicate HoldsCommon(mem: seq<byte>)
  {
    && |mem| == 41 && mem[11] == 0x03 && mem[12] == 0x49 && mem[13] == 0xA1 && mem[14] == 0x02 && mem[15] == 0x82
    && mem[16] == 0x81 && mem[17] == 0x41 && mem[19] == 0x81 && mem[20] == 0x41
  }

  predicate HoldsInstall(mem: seq<byte>)
  {
    && |mem| == 41 && mem[22] == 0x09 && mem[23] == 0x51 && mem[24] == 0x8A
    && mem[25] == 12 && mem[26] == 0 && mem[27] == 19 && mem[28] == 0xA1 && mem[29] == 21 && mem[30] == 0x61
    && mem[32] == 12 && mem[33] == 1 && mem[34] == 19 && mem[35] == 0xA1 && mem[36] == 21 && mem[37] == 0x61
    && mem[31] == 0x61 && mem[38] == 0x62 && mem[39] == 21 && mem[40] == 0xF6
  }

  lemma OpeningHeld(mem: seq<byte>)
    requires |mem| == 41 && mem[..11] == OPENING
    ensures HoldsOpening(mem)
  {
    assert mem[..2] == mem[..11][..2];
    assert forall i | 0 <= i < 11 :: mem[i] == mem[..11][i];
  }

  lemma CommonHeld(mem: seq<byte>)
    requires |mem| == 41 && mem[11..22] == COMMON
    ensures HoldsCommon(mem)
  {
    assert forall i | 11 <= i < 22 :: mem[i] == mem[11..22][i - 11];
  }

  lemma InstallHeld(mem: seq<byte>)
    requires |mem| == 41 && mem[22..] == INSTALL
    ensures HoldsInstall(mem)
  {
    assert forall i | 22 <= i < 41 :: mem[i] == mem[22..][i - 22];
  }

  lemma EnvelopeHeld()
    ensures Holds(ENVELOPE)
  {
    PartSizes();
    assert ENVELOPE == OPENING + COMMON + INSTALL;
    hide OPENING, COMMON, INSTALL, HoldsOpening, HoldsCommon, HoldsInstall;
    OpeningHeld(ENVELOPE);
    CommonHeld(ENVELOPE);
    InstallHeld(ENVELOPE);
  }

  lemma PartSizes()
    ensures |OPENING| == 11 && |COMMON| == 11 && |INSTALL| == 19
  {
  }

  // The manifest.

  /** A common block of two components. */
  lemma TwoComponents(mem: seq<byte>, n: nat, m: nat)
    requires n + 9 == m <= |mem| && 2 < |mem| < TWO64 && mem[n] == 0xA1 && mem[n + 1] == 2 && mem[n + 2] == 0x82
    requires mem[n + 3] == 0x81 && mem[n + 4] == 0x41 && mem[n + 6] == 0x81 && mem[n + 7] == 0x41
    ensures var r := Span(mem, n, m);
            CommonParses(r) && |CommonOf(r).components| == 2 && CommonOf(r).commandSequence == Null
  {
    hide *;
    MapReads(mem, n, m, 1, 0, 1);
    AtIs(mem, n, m, 0, 1);
    DoubleReads(mem, n + 2, m, 1, 2);
    EntryReads(mem, n + 1, m, 0, 2);
    EndOfMap(mem, m, 2);
    OneEntryOf(Small(2), At(mem, n + 2, m, 1, 2));
    ToplevelIs(Span(mem, n, m));
    var e := Entry(Small(2), At(mem, n + 2, m, 1, 2));
    ComponentsFitting(e);
    ComponentsFound(e);
    ComponentsAlone(Span(mem, n, m), e);
  }

  lemma ToplevelIs(r: Range)
    ensures Toplevel(r) == Position(r, 0, 1)
  {
  }

  lemma OneEntryOf(key: Any, at: Cursor)
    ensures Cons(Entry(key, at), Listing([], true)) == Listing([Entry(key, at)], true)
  {
  }

  lemma ComponentsFitting(e: Entry)
    requires e.key == Small(2) && GetArray(e.at).Got?
    requires Elements(GetArray(e.at).value).complete && |Elements(GetArray(e.at).value).all| == 2
    ensures CommonListing(Listing([e], true))
  {
    SmallIsUint(2);
    hide GetArray, Elements, Small, IsUint;
  }

  lemma ComponentsFound(e: Entry)
    requires e.key == Small(2) && GetArray(e.at).Got? && |Elements(GetArray(e.at).value).all| == 2
    ensures |CommonFrom([e]).components| == 2 && CommonFrom([e]).commandSequence == Null
  {
    SmallIsUint(2);
    LastOfOne(e, Label(SUIT_DEPENDENCIES));
    LastOfOne(e, Label(SUIT_COMPONENTS));
    LastOfOne(e, Label(SUIT_COMMON_SEQUENCE));
    hide GetArray, Elements, Small, IsUint, Last;
  }

  lemma LastOfOne(e: Entry, key: Key)
    ensures Last([e], key) == if Matches(key, e.key) then Some(e) else None
  {
    assert [] + [e] == [e];
    LastOfMore([], e, key);
  }

  lemma ComponentsAlone(r: Range, e: Entry)
    requires GetMap(Toplevel(r)).Got? && Entries(GetMap(Toplevel(r)).value) == Listing([e], true)
    requires CommonListing(Listing([e], true))
    ensures CommonParses(r) && CommonOf(r) == CommonFrom([e])
  {
    hide GetMap, Entries, CommonListing, CommonFrom;
  }

  lemma ManifestIsThere(mem: seq<byte>)
    requires Holds(mem)
    ensures var o := ManifestOf(Whole(mem));
            && o.Some? && o.value.install == Body(Span(mem, 24, 41))
            && |o.value.common.components| == 2 && o.value.common.commandSequence == Null
  {
    assert mem[..2] == [0xD8, 0x6B] && mem[2] == 0xA1 && mem[3] == 0x03 && mem[4] == 0x58 && mem[5] == 35;
    assert mem[13] == 0xA1 && mem[14] == 2 && mem[15] == 0x82;
    assert mem[16] == 0x81 && mem[17] == 0x41 && mem[19] == 0x81 && mem[20] == 0x41;
    assert Four(mem, 6, 9, 17);
    hide *;
    LongStringReads(mem, 4, 41, 35, 1, 2);
    EnvelopeHolds(mem, 6);
    TwoComponents(mem, 13, 22);
    ManifestHolds(mem, 6, 9, 17);
  }

  // Its plan.

  /** An index in the manifest selects one object. */
  lemma SelectedOne(m: Manifest, mem: seq<byte>, n: nat)
    requires n < |mem| < TWO64 && mem[n] < 24 && mem[n] < |m.common.components|
    ensures Selected(m, Selection(true, Span(mem, n, n + 1)))
         == Listing([Located(Target(true, mem[n]), OneLocal)], true)
  {
    IntegerReads(mem, n, n + 1, 0, 1);
    hide GetUint, GetBool, GetArray;
  }

  /** The plan of a target sequence unfolds by one command. */
  lemma CommandFirst(m: Manifest, common: Cursor, mem: seq<byte>, n: nat, index: u64, count: u64, s: Selection,
                     param: Range, next: Cursor)
    requires AtEnd(common) && n < |mem| < TWO64 && index + 1 < count && mem[n] < 24
    requires GetItem(At(mem, n + 1, |mem|, index + 1, count)) == Got(param, next)
    ensures Program(m, common, At(mem, n, |mem|, index, count), s)
         == SuitRunner.FromCommand(m, mem[n], param, false, SuitRunner.Sequence(common, next), s)
  {
    IntegerReads(mem, n, |mem|, index, count);
    hide GetUint, GetItem, Program, SuitRunner.FromCommand;
    SuitRunner.ProgramStep(m, common, At(mem, n, |mem|, index, count), s);
  }

  /** A sequence that begins with setting the component index. */
  lemma SetIndexFirst(m: Manifest, common: Cursor, mem: seq<byte>, n: nat, index: u64, count: u64, s: Selection)
    requires AtEnd(common) && n + 2 <= |mem| < TWO64 && index + 1 < count && mem[n] == 12 && mem[n + 1] < 24
    ensures Program(m, common, At(mem, n, |mem|, index, count), s)
         == Program(m, common, At(mem, n + 2, |mem|, index + 2, count), Selection(true, Span(mem, n + 1, n + 2)))
  {
    IntegerReads(mem, n + 1, |mem|, index + 1, count);
    hide GetUint, GetItem, Program;
    CommandFirst(m, common, mem, n, index, count, s, Span(mem, n + 1, n + 2), At(mem, n + 2, |mem|, index + 2, count));
  }

  /** A sequence that begins with a command on one object. */
  lemma CallFirst(m: Manifest, common: Cursor, mem: seq<byte>, n: nat, index: u64, count: u64, s: Selection,
                  o: Located, param: Range, next: Cursor)
    requires AtEnd(common) && n < |mem| && 24 <= |mem| < TWO64 && index + 1 < count
    requires mem[n] < 24 && mem[n] in {19, 21}
    requires GetItem(At(mem, n + 1, |mem|, index + 1, count)) == Got(param, next)
    requires Selected(m, s) == Listing([o], true)
    ensures Program(m, common, At(mem, n, |mem|, index, count), s)
         == Cons(CallOn(Step(mem[n], param), o), Program(m, common, next, s))
  {
    hide *;
    CommandFirst(m, common, mem, n, index, count, s, param, next);
    FromCall(m, mem[n], param, SuitRunner.Sequence(common, next), s, o);
  }

  lemma FromCall(m: Manifest, command: u64, param: Range, pc: SuitRunner.Continuation, s: Selection, o: Located)
    requires pc.Sequence? && command in {19, 21} && Selected(m, s) == Listing([o], true)
    ensures SuitRunner.FromCommand(m, command, param, false, pc, s)
         == Cons(CallOn(Step(command, param), o), Program(m, pc.common, pc.target, s))
  {
    hide Program, Selected;
    var p := CallsOn(Step(command, param), Listing([o], true));
    assert p.all == [CallOn(Step(command, param), o)];
  }

  const FIRST: Located := Located(Target(true, 0), OneLocal)
  const SECOND: Located := Located(Target(true, 1), OneLocal)

  function PlanOf(mem: seq<byte>): Plan
    requires |mem| == 41
  {
    Cons(CallOn(Step(19, Span(mem, 28, 32)), FIRST),
         Cons(CallOn(Step(19, Span(mem, 35, 39)), SECOND), Cons(CallOn(Step(21, Span(mem, 40, 41)), SECOND), NOTHING)))
  }

  lemma InstallParts(mem: seq<byte>)
    requires Holds(mem)
    ensures |mem| == 41 < TWO64
    ensures mem[25] == 12 && mem[26] == 0 && mem[27] == 19 && mem[28] == 0xA1 && mem[29] == 21 && mem[30] == 0x61
    ensures mem[32] == 12 && mem[33] == 1 && mem[34] == 19 && mem[35] == 0xA1 && mem[36] == 21 && mem[37] == 0x61
    ensures mem[39] == 21 && mem[40] == 0xF6
    ensures FIRST == Located(Target(true, mem[26]), OneLocal) && SECOND == Located(Target(true, mem[33]), OneLocal)
  {
  }

  lemma PlanIs(mem: seq<byte>)
    requires Holds(mem)
    ensures PlanOf(mem)
         == Cons(CallOn(Step(mem[27], Span(mem, 28, 32)), FIRST),
                 Cons(CallOn(Step(mem[34], Span(mem, 35, 39)), SECOND),
                      Cons(CallOn(Step(mem[39], Span(mem, 40, 41)), SECOND), NOTHING)))
  {
    hide Cons, CallOn, FIRST, SECOND, NOTHING;
  }

  lemma EndIsEnd(mem: seq<byte>)
    requires |mem| == 41
    ensures AtEnd(At(mem, 41, 41, 10, 10))
  {
  }

  lemma ProgramEnds(m: Manifest, common: Cursor, target: Cursor, s: Selection)
    requires AtEnd(common) && AtEnd(target)
    ensures Program(m, common, target, s) == NOTHING
  {
    hide Program;
    SuitRunner.ProgramStep(m, common, target, s);
  }

  lemma NullReads(mem: seq<byte>, n: nat, m: nat, index: u64, count: u64)
    requires n < m <= |mem| < TWO64 && index < count && mem[n] == 0xF6
    ensures GetItem(At(mem, n, m, index, count)) == Got(Span(mem, n, n + 1), At(mem, n + 1, m, index + 1, count))
  {
    HeaderBits(7, 22);
    ShortHead(mem, n, m, index, count);
    hide GetAny, GetItem, Info, GetUint, GetBool, GetBstr, GetTstr;
    ScalarReads(At(mem, n, m, index, count));
  }

  /** One component is selected, its URI set, and so on: every command finds the selection made before it. */
  lemma ProgramIs(m: Manifest, common: Cursor, mem: seq<byte>, s: Selection)
    requires Holds(mem) && AtEnd(common) && |m.common.components| == 2
    ensures Program(m, common, At(mem, 25, 41, 0, 10), s) == PlanOf(mem)
  {
    hide *;
    InstallParts(mem);
    PlanIs(mem);
    EndIsEnd(mem);
    var s0, s1 := Selection(true, Span(mem, 26, 27)), Selection(true, Span(mem, 33, 34));
    SetIndexFirst(m, common, mem, 25, 0, 10, s);
    SelectedOne(m, mem, 26);
    PairReads(mem, 28, 41, 3, 10);
    CallFirst(m, common, mem, 27, 2, 10, s0, FIRST, Span(mem, 28, 32), At(mem, 32, 41, 4, 10));
    SetIndexFirst(m, common, mem, 32, 4, 10, s0);
    SelectedOne(m, mem, 33);
    PairReads(mem, 35, 41, 7, 10);
    CallFirst(m, common, mem, 34, 6, 10, s1, SECOND, Span(mem, 35, 39), At(mem, 39, 41, 8, 10));
    NullReads(mem, 40, 41, 9, 10);
    CallFirst(m, common, mem, 39, 8, 10, s1, SECOND, Span(mem, 40, 41), At(mem, 41, 41, 10, 10));
    ProgramEnds(m, common, At(mem, 41, 41, 10, 10), s1);
  }

  lemma EmptyArrayEnds()
    ensures GetArray(Toplevel(EMPTY_ARRAY)).Got? && AtEnd(GetArray(Toplevel(EMPTY_ARRAY)).value)
  {
    ArrayReads([0x80], 0, 1, 0, 0, 1);
    hide GetArray;
  }

  lemma InstallOpens(mem: seq<byte>)
    requires Holds(mem)
    ensures GetArray(Toplevel(Span(mem, 24, 41))) == Got(At(mem, 25, 41, 0, 10), At(mem, 25, 41, 1, 1))
  {
    ArrayReads(mem, 24, 41, 10, 0, 1);
    hide GetArray;
  }

  /** The install is entered, and these are all its calls. */
  lemma InstallIs(m: Manifest, mem: seq<byte>)
    requires Holds(mem) && m.install == Body(Span(mem, 24, 41))
    requires |m.common.components| == 2 && m.common.commandSequence == Null
    ensures Enters(m) && InstallPlan(m) == PlanOf(mem)
  {
    EmptyArrayEnds();
    InstallOpens(mem);
    ProgramIs(m, GetArray(Toplevel(EMPTY_ARRAY)).value, mem, Selection(true, CBOR_TRUE));
    hide GetArray, Program, EMPTY_ARRAY, Holds, PlanOf, CBOR_TRUE, AtEnd;
  }

  // What becomes of it.

  /** A map that asks for one URI. */
  lemma UriRequested(mem: seq<byte>, n: nat, target: Address)
    requires n + 4 <= |mem| && 24 <= |mem| < TWO64 && mem[n] == 0xA1 && mem[n + 1] == 21 && mem[n + 2] == 0x61
    ensures Requested(target, Span(mem, n, n + 4), false)
         == Listing([Assign(target, mem[n + 1], Span(mem, n + 2, n + 4), false)], true)
  {
    hide *;
    var m := n + 4;
    AtIs(mem, n, m, 0, 1);
    ToplevelIs(Span(mem, n, m));
    MapReads(mem, n, m, 1, 0, 1);
    IntegerReads(mem, n + 1, m, 0, 2);
    TextReads(mem, n + 2, m, 1, 1, 2);
    AtIs(mem, n + 1, m, 0, 2);
    AtIs(mem, m, m, 2, 2);
    Counted(At(mem, n + 1, m, 0, 2));
    Counted(At(mem, m, m, 2, 2));
    RequestedThere(Span(mem, n, m), target, At(mem, n + 1, m, 0, 2), At(mem, n + 1, m, 1, 1), false);
    AssignThere(At(mem, n + 1, m, 0, 2), target, mem[n + 1], At(mem, n + 2, m, 1, 2), Span(mem, n + 2, m),
                At(mem, m, m, 2, 2), false);
  }

  /** Setting a URI at an address that has none, or has one. */
  lemma UriSet(bs: seq<Binder>, param: Range, value: Range, target: Address)
    requires Requested(target, param, false) == Listing([Assign(target, 21, value, false)], true)
    requires |bs| < SUIT_BINDER_MAX
    ensures SetParameters(bs, target, param, false)
         == (true, if Lookup(bs, target, 21).Some? then bs else bs + [Binder(target, 21, value)])
  {
    hide Requested, Lookup, Replace;
    var a := Assign(target, 21, value, false);
    assert [a][1..] == [];
    assert BindAll(Bind(bs, a).value, Listing([], true)) == (true, Bind(bs, a).value);
  }

  lemma TextFetched(m: Manifest, bs: seq<Binder>, address: Address, target: Target, value: Range, uri: Range)
    requires Lookup(bs, address, PARAMETER_URI) == Some(value)
    requires GetTstr(Toplevel(value)).Got? && GetTstr(Toplevel(value)).value == uri
    requires Data(uri) != [] && Data(uri)[0] != '#' as int
    ensures FetchEffect(m, bs, address, target) == Some(Fetched(target, uri))
  {
    hide GetTstr, Lookup, Data;
  }

  /** The texts at these places name something to fetch. */
  lemma UriNames(mem: seq<byte>, n: nat)
    requires n + 2 <= |mem| && 2 <= |mem| < TWO64 && mem[n] == 0x61
    ensures var g := GetTstr(Toplevel(Span(mem, n, n + 2)));
            g.Got? && g.value == Span(mem, n + 1, n + 2) && Data(g.value) == [mem[n + 1]]
  {
    hide *;
    AtIs(mem, n, n + 2, 0, 1);
    ToplevelIs(Span(mem, n, n + 2));
    TextReads(mem, n, n + 2, 1, 0, 1);
    OneOctetData(mem, n + 1);
  }

  lemma OneOctetData(mem: seq<byte>, n: nat)
    requires n < |mem| < TWO64
    ensures Data(Span(mem, n, n + 1)) == [mem[n]]
  {
  }

  lemma TwoBound(a: Address, b: Address, v: Range, w: Range)
    ensures Lookup([], a, 21) == None && [] + [Binder(a, 21, v)] == [Binder(a, 21, v)]
    ensures Lookup([Binder(a, 21, v)], b, 21) == if a == b then Some(v) else None
    ensures Lookup([Binder(a, 21, v)] + [Binder(b, 21, w)], b, 21) == if a == b then Some(v) else Some(w)
  {
    assert ([Binder(a, 21, v)] + [Binder(b, 21, w)])[1..] == [Binder(b, 21, w)];
  }

  /** What handling these two commands does. */
  lemma SetHandled(cb: Platform, m: Manifest, p: Progress, c: Call, bs: seq<Binder>)
    requires c.command == 19 && SetParameters(p.bindings, cb.at(|p.calls|, c.local), c.param, false) == (true, bs)
    ensures Handle(cb, m, p, c) == (SUCCEED, Progress(bs, p.calls + [c], p.effects))
  {
    hide SetParameters;
  }

  lemma FetchHandled(cb: Platform, m: Manifest, p: Progress, c: Call, e: Effect)
    requires c.command == 21 && FetchEffect(m, p.bindings, cb.at(|p.calls|, c.local), c.target) == Some(e)
    ensures Handle(cb, m, p, c).1 == Progress(p.bindings, p.calls + [c], p.effects + [e])
  {
    hide FetchEffect;
  }

  lemma NothingMore(cb: Platform, m: Manifest, p: Progress)
    ensures RunOut(cb, m, p, NOTHING).progress == p
  {
  }

  lemma SetFirst(cb: Platform, m: Manifest, p: Progress, c: Call, bs: seq<Binder>, rest: Plan)
    requires c.command == 19 && SetParameters(p.bindings, cb.at(|p.calls|, c.local), c.param, false) == (true, bs)
    ensures RunOut(cb, m, p, Cons(c, rest)) == RunOut(cb, m, Progress(bs, p.calls + [c], p.effects), rest)
  {
    RunOutOneCall(cb, m, p, Cons(c, rest));
    SetHandled(cb, m, p, c, bs);
    hide Handle, RunOut, SetParameters;
    assert Cons(c, rest).all[1..] == rest.all;
  }

  lemma FetchLast(cb: Platform, m: Manifest, p: Progress, c: Call, e: Effect)
    requires c.command == 21 && FetchEffect(m, p.bindings, cb.at(|p.calls|, c.local), c.target) == Some(e)
    ensures RunOut(cb, m, p, Cons(c, NOTHING)).progress.effects == p.effects + [e]
  {
    RunOutOneCall(cb, m, p, Cons(c, NOTHING));
    FetchHandled(cb, m, p, c, e);
    NothingMore(cb, m, Progress(p.bindings, p.calls + [c], p.effects + [e]));
    hide Handle, RunOut, FetchEffect;
    assert Cons(c, NOTHING).all[1..] == [];
  }

  /** The table after setting a URI at `x` and one at `y`. */
  function TwoSet(x: Address, y: Address, v: Range, w: Range): seq<Binder>
  {
    if x == y then [Binder(x, 21, v)] else [Binder(x, 21, v)] + [Binder(y, 21, w)]
  }

  lemma TwoSets(x: Address, y: Address, v: Range, w: Range, param: Range, param': Range)
    requires Requested(x, param, false) == Listing([Assign(x, 21, v, false)], true)
    requires Requested(y, param', false) == Listing([Assign(y, 21, w, false)], true)
    ensures SetParameters([], x, param, false) == (true, [Binder(x, 21, v)])
    ensures SetParameters([Binder(x, 21, v)], y, param', false) == (true, TwoSet(x, y, v, w))
    ensures Lookup(TwoSet(x, y, v, w), y, 21) == Some(if x == y then v else w)
  {
    UriSet([], param, v, x);
    UriSet([Binder(x, 21, v)], param', w, y);
    TwoBound(x, y, v, w);
    hide SetParameters, Requested, Lookup;
  }

  /** Two calls that set a URI, and one that fetches where the second has set it. */
  lemma SetSetFetch(cb: Platform, m: Manifest, a: Call, b: Call, c: Call, v: Range, w: Range, uri: Range)
    requires a.command == 19 && b.command == 19 && c.command == 21
    requires Requested(cb.at(0, a.local), a.param, false) == Listing([Assign(cb.at(0, a.local), 21, v, false)], true)
    requires Requested(cb.at(1, b.local), b.param, false) == Listing([Assign(cb.at(1, b.local), 21, w, false)], true)
    requires cb.at(1, b.local) == cb.at(2, c.local)
    requires var found := if cb.at(0, a.local) == cb.at(1, b.local) then v else w;
             GetTstr(Toplevel(found)).Got? && GetTstr(Toplevel(found)).value == uri
    requires Data(uri) != [] && Data(uri)[0] != '#' as int
    ensures RunOut(cb, m, START, Cons(a, Cons(b, Cons(c, NOTHING)))).progress.effects == [Fetched(c.target, uri)]
  {
    var x, y := cb.at(0, a.local), cb.at(1, b.local);
    var found := if x == y then v else w;
    hide RunOut, SetParameters, FetchEffect, Requested, GetTstr, Data, Lookup, TwoSet, Cons, Toplevel, NOTHING;
    TwoSets(x, y, v, w, a.param, b.param);
    TextFetched(m, TwoSet(x, y, v, w), y, c.target, found, uri);
    SetFirst(cb, m, START, a, [Binder(x, 21, v)], Cons(b, Cons(c, NOTHING)));
    var p := Progress([Binder(x, 21, v)], [a], []);
    assert [] + [a] == [a];
    SetFirst(cb, m, p, b, TwoSet(x, y, v, w), Cons(c, NOTHING));
    FetchLast(cb, m, Progress(TwoSet(x, y, v, w), [a] + [b], []), c, Fetched(c.target, uri));
  }

  /** The fetched URI is the second one if the two sets have addresses of their own, and else the first. */
  lemma PlanFetches(cb: Platform, m: Manifest, mem: seq<byte>)
    requires Holds(mem) && cb.at(1, OneLocal) == cb.at(2, OneLocal)
    ensures RunOut(cb, m, START, PlanOf(mem)).progress.effects
         == [Fetched(Target(true, 1),
                     if cb.at(0, OneLocal) == cb.at(1, OneLocal) then Span(mem, 31, 32) else Span(mem, 38, 39))]
  {
    var a, b := CallOn(Step(19, Span(mem, 28, 32)), FIRST), CallOn(Step(19, Span(mem, 35, 39)), SECOND);
    var c := CallOn(Step(21, Span(mem, 40, 41)), SECOND);
    hide RunOut, Requested, GetTstr, Data, Cons, Toplevel, NOTHING;
    UriRequested(mem, 28, cb.at(0, OneLocal));
    UriRequested(mem, 35, cb.at(1, OneLocal));
    UriNames(mem, 30);
    UriNames(mem, 37);
    var first := cb.at(0, OneLocal) == cb.at(1, OneLocal);
    SetSetFetch(cb, m, a, b, c, Span(mem, 30, 32), Span(mem, 37, 39),
                if first then Span(mem, 31, 32) else Span(mem, 38, 39));
  }

  lemma IntendedPlaces(cb: Platform, mem: seq<byte>)
    requires |mem| == 41
    ensures var at := Intended(cb, PlanOf(mem)).at;
            at(0, OneLocal) != at(1, OneLocal) == at(2, OneLocal)
  {
    assert |PlanOf(mem).all| == 3;
    assert PlanOf(mem).all[0].target == Target(true, 0);
    assert PlanOf(mem).all[1].target == PlanOf(mem).all[2].target == Target(true, 1);
    hide PlanOf;
  }

  /** In the memory it is held in: the envelope parses, its install is entered, and what it fetches depends on where the
      local variable of a sequence step lies. */
  lemma HeldEnvelope(cb: Platform, mem: seq<byte>)
    requires Holds(mem)
    requires cb.at(0, OneLocal) == cb.at(1, OneLocal) == cb.at(2, OneLocal)
    ensures var o := ManifestOf(Whole(mem)); o.Some? && o.value.install.Body? && Enters(o.value)
    ensures var m := ManifestOf(Whole(mem)).value;
            var plan := InstallPlan(m);
            && RunOut(cb, m, START, plan).progress.effects == [Fetched(Target(true, 1), Span(mem, 31, 32))]
            && RunOut(Intended(cb, plan), m, START, plan).progress.effects
            == [Fetched(Target(true, 1), Span(mem, 38, 39))]
  {
    assert |mem| == 41;
    hide *;
    ManifestIsThere(mem);
    var m := ManifestOf(Whole(mem)).value;
    InstallIs(m, mem);
    PlanFetches(cb, m, mem);
    IntendedPlaces(cb, mem);
    PlanFetches(Intended(cb, PlanOf(mem)), m, mem);
  }

  /** The envelope parses. On a platform where a sequence step's local variable stays where it is, installing it fetches
      the second component from the first one's URI; it is meant to be fetched from its own. */
  lemma SecondFromFirst(cb: Platform)
    requires cb.at(0, OneLocal) == cb.at(1, OneLocal) == cb.at(2, OneLocal)
    ensures var o := ManifestOf(Whole(ENVELOPE)); o.Some? && o.value.install.Body? && Enters(o.value)
    ensures var m := ManifestOf(Whole(ENVELOPE)).value;
            var plan := InstallPlan(m);
            var a, b := Span(ENVELOPE, 31, 32), Span(ENVELOPE, 38, 39);
            && Data(a) == ['a' as int] && Data(b) == ['b' as int]
            && RunOut(cb, m, START, plan).progress.effects == [Fetched(Target(true, 1), a)]
            && RunOut(Intended(cb, plan), m, START, plan).progress.effects == [Fetched(Target(true, 1), b)]
  {
    hide *;
    EnvelopeHeld();
    UriOctets(ENVELOPE);
    HeldEnvelope(cb, ENVELOPE);
  }

  lemma UriOctets(mem: seq<byte>)
    requires Holds(mem)
    ensures |mem| == 41 && Data(Span(mem, 31, 32)) == ['a' as int] && Data(Span(mem, 38, 39)) == ['b' as int]
  {
    OneOctetData(mem, 31);
    OneOctetData(mem, 38);
    hide Data;
  }

  /** Installed in place, it asks for the same. */
  method InstallMixedUp(platform: Platform) returns (ok: bool, runner: SuitRunner.Runner)
    requires platform.at(0, OneLocal) == platform.at(1, OneLocal) == platform.at(2, OneLocal)
    ensures fresh(runner) && runner.Valid()
    ensures runner.effects == [Fetched(Target(true, 1), Span(ENVELOPE, 31, 32))]
  {
    hide ManifestOf, Enters, ManifestInside, InstallPlan, RunOut, ENVELOPE, Holds;
    SecondFromFirst(platform);
    EnvelopeHeld();
    UriOctets(ENVELOPE);
    ManifestIsInside(Whole(ENVELOPE));
    BinaryIsField(Whole(ENVELOPE));
    var context := new SuitContext();
    ok := context.AddEnvelope(Whole(ENVELOPE));
    assert ok;
    ok, runner := SuitRunner.RunInstall(context, platform);
  }
}
