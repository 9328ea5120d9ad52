/** An install that sets a URI in its common sequence and fetches in its install sequence, for every URI: a name that
    begins with `#` has what the envelope holds under it stored, any other has it fetched from there. */
module SuitEmbedded {
  import opened Wrappers
  import opened Bytes
  import opened CborHead
  import opened CborItems
  import opened CborReader
  import opened SuitEnvelope
  import opened SuitManifest
  import opened SuitBindings
  import opened SuitPlan
  import opened SuitEffects
  import opened SuitWritten
  import opened SuitScripts

  /** {21: uri} */
  function UriOctets(uri: Octets): seq<byte>
  {
    EncodeHead(5, 1) + ([21] + (Tstr(uri) + []))
  }

  /** Component 0 is selected and its URI overridden, then it is fetched. */
  function CommonScript(uri: Octets): seq<Order>
  {
    [SelectComponents(Object(0)), Apply(20, UriOctets(uri))]
  }

  const INSTALL_SCRIPT: seq<Order> := [Apply(21, [0xF6])]

  lemma TstrIsItem(p: Octets)
    ensures IsItem(Tstr(p))
  {
    HeadRoundTrip(3, |p|, p);
    hide ReadHead, EncodeHead, Item, Items;
    ScalarItem(Tstr(p));
  }

  lemma TwoItems(p: seq<byte>, q: seq<byte>)
    requires IsItem(p) && IsItem(q)
    ensures Items(p + (q + []), 2) == Done([])
  {
    hide IsItem, Item, Items;
    assert [p, q][1..] == [q] && [q][1..] == [];
    assert Concat([q]) == q + Concat([]) && Concat([p, q]) == p + Concat([q]);
    ConcatParses([p, q]);
  }

  lemma UriOctetsAre(uri: Octets)
    ensures UriOctets(uri) == EncodeHead(5, 1) + ([21] + (Tstr(uri) + []))
  {
  }

  lemma UriIsItem(uri: Octets)
    ensures IsItem(UriOctets(uri))
  {
    assert EncodeHead(0, 21) == [21];
    hide *;
    UintIsItem(21);
    TstrIsItem(uri);
    TwoItems([21], Tstr(uri));
    UriOctetsAre(uri);
    PairIsItem([21] + (Tstr(uri) + []));
  }

  lemma PairIsItem(pair: seq<byte>)
    requires Items(pair, 2) == Done([])
    ensures IsItem(EncodeHead(5, 1) + pair)
  {
    HeadRoundTrip(5, 1, pair);
    var s := EncodeHead(5, 1) + pair;
    assert s[|EncodeHead(5, 1)|..] == pair;
    hide ReadHead, EncodeHead, Item, Items;
    ItemHead(s);
  }

  lemma NullIsItem()
    ensures IsItem([0xF6])
  {
    HeaderBits(7, 22);
    assert ReadHead([0xF6]) == Head(0xF6, 22, 1);
    hide ReadHead, Item, Items;
    ScalarItem([0xF6]);
  }

  lemma ScriptsAreWritten(uri: Octets)
    ensures forall o <- CommonScript(uri) :: Writes(o)
    ensures forall o <- INSTALL_SCRIPT :: Writes(o)
  {
    hide UriOctets, IsItem;
    UriIsItem(uri);
    NullIsItem();
  }

  /** The two calls that the scripts mean. */
  lemma ScriptsMean(m: Manifest, uri: Octets)
    requires |m.common.components| >= 1
    ensures InstallMeaning(m, CommonScript(uri), INSTALL_SCRIPT)
         == Listing([Deed(20, UriOctets(uri), Target(true, 0), OneLocal), Deed(21, [0xF6], Target(true, 0), OneLocal)],
                    true)
  {
    hide UriOctets, DeedsOn, Reached;
    var os := CommonScript(uri);
    assert os[1..] == [Apply(20, UriOctets(uri))];
    OneApplied(m, 20, UriOctets(uri), true);
    OneApplied(m, 21, [0xF6], false);
    hide Meaning;
    assert InstallMeaning(m, os, INSTALL_SCRIPT)
        == Listing([Deed(20, UriOctets(uri), Target(true, 0), OneLocal)]
                   + [Deed(21, [0xF6], Target(true, 0), OneLocal)], true);
  }

  lemma OneApplied(m: Manifest, command: u64, param: seq<byte>, isCommon: bool)
    requires |m.common.components| >= 1 && Allowed(command, isCommon)
    ensures Meaning(m, [Apply(command, param)], isCommon, true, Object(0))
         == (Listing([Deed(command, param, Target(true, 0), OneLocal)], true), true, Object(0))
  {
    assert DeedsOn(command, param, [Located(Target(true, 0), OneLocal)])
        == [Deed(command, param, Target(true, 0), OneLocal)];
    assert Reached(m, true, Object(0)) == Listing([Located(Target(true, 0), OneLocal)], true);
    hide DeedsOn, Allowed, Reached;
    assert [Apply(command, param)][1..] == [];
    var d := Deed(command, param, Target(true, 0), OneLocal);
    assert [d] + [] == [d];
    assert Meaning(m, [], isCommon, true, Object(0)) == (Listing([], true), true, Object(0));
  }

  /** What the first call asks to bind. */
  lemma UriRequested(param: Range, uri: Octets, address: Address) returns (value: Range)
    requires Data(param) == UriOctets(uri)
    ensures Requested(address, param, true) == Listing([Assign(address, 21, value, true)], true)
    ensures GetTstr(Toplevel(value)).Got? && Data(GetTstr(Toplevel(value)).value) == uri
  {
    SmallHead(21);
    hide *;
    UriOctetsAre(uri);
    TstrIsItem(uri);
    MapOpens(param, 1, [21] + (Tstr(uri) + []));
    var c := GetMap(Toplevel(param)).value;
    Ends(c);
    UintReads(c, 21, Tstr(uri) + []);
    var d := GetUint(c).next;
    Ends(d);
    ItemNext(d, Tstr(uri), []);
    value := GetItem(d).value;
    Ends(GetItem(d).next);
    TextReads(value, uri);
    RequestedThere(param, address, c, GetMap(Toplevel(param)).next, true);
    AssignThere(c, address, 21, d, value, GetItem(d).next, true);
  }

  lemma Ends(c: Cursor)
    ensures AtEnd(c) == (c.index == c.count)
  {
  }

  lemma UintReads(c: Cursor, v: u64, rest: seq<byte>)
    requires !AtEnd(c) && Data(c.r) == EncodeHead(0, v) + rest
    ensures GetUint(c).Got? && GetUint(c).value == v
    ensures var d := GetUint(c).next; Data(d.r) == rest && d.count == c.count && d.index == c.index + 1
  {
    hide EncodeHead, GetAny, Data;
    HeadNext(c, 0, v, rest);
  }

  lemma TextReads(r: Range, text: Octets)
    requires Data(r) == Tstr(text)
    ensures GetTstr(Toplevel(r)).Got? && Data(GetTstr(Toplevel(r)).value) == text
  {
    hide EncodeHead, GetAny, Data;
    assert EncodeHead(3, |text|) + text + [] == EncodeHead(3, |text|) + text;
    StringNext(Toplevel(r), 3, text, []);
  }

  // The run.

  lemma TwoCalls(plan: Plan, x: Deed, y: Deed) returns (a: Call, b: Call)
    requires Does(plan, Listing([x, y], true))
    ensures plan == Cons(a, Cons(b, NOTHING)) && DeedOf(a) == x && DeedOf(b) == y
  {
    hide DeedOf;
    a, b := plan.all[0], plan.all[1];
    assert plan.all == [a, b];
  }

  lemma FirstBound(address: Address, param: Range, value: Range)
    requires Requested(address, param, true) == Listing([Assign(address, 21, value, true)], true)
    ensures SetParameters([], address, param, true) == (true, [Binder(address, 21, value)])
    ensures Lookup([Binder(address, 21, value)], address, 21) == Some(value)
  {
    hide Requested;
    var a := Assign(address, 21, value, true);
    assert [a][1..] == [] && [] + [Binder(address, 21, value)] == [Binder(address, 21, value)];
    assert BindAll(Bind([], a).value, Listing([], true)) == (true, Bind([], a).value);
  }

  lemma OverrideHandled(cb: Platform, m: Manifest, p: Progress, c: Call, bs: seq<Binder>, rest: Plan)
    requires c.command == 20 && SetParameters(p.bindings, cb.at(|p.calls|, c.local), c.param, true) == (true, bs)
    ensures RunOut(cb, m, p, Cons(c, rest)) == RunOut(cb, m, Progress(bs, p.calls + [c], p.effects), rest)
  {
    RunOutOneCall(cb, m, p, Cons(c, rest));
    hide RunOut, SetParameters;
    assert Cons(c, rest).all[1..] == rest.all;
  }

  lemma FetchHandled(cb: Platform, m: Manifest, p: Progress, c: Call, e: Effect)
    requires c.command == 21 && FetchEffect(m, p.bindings, cb.at(|p.calls|, c.local), c.target) == Some(e)
    ensures RunOut(cb, m, p, Cons(c, NOTHING)).progress.effects == p.effects + [e]
  {
    RunOutOneCall(cb, m, p, Cons(c, NOTHING));
    var q := Progress(p.bindings, p.calls + [c], p.effects + [e]);
    assert RunOut(cb, m, q, NOTHING).progress == q;
    hide RunOut, FetchEffect;
    assert Cons(c, NOTHING).all[1..] == [];
  }

  /** The run asks for what its one fetch asks for. */
  lemma RunAsks(cb: Platform, m: Manifest, a: Call, b: Call, value: Range, e: Effect)
    requires a.command == 20 && b.command == 21 && cb.at(0, a.local) == cb.at(1, b.local)
    requires var x := cb.at(0, a.local); Requested(x, a.param, true) == Listing([Assign(x, 21, value, true)], true)
    requires Asks(m, value, b.target, e)
    ensures RunOut(cb, m, START, Cons(a, Cons(b, NOTHING))).progress.effects == [e]
  {
    hide RunOut, SetParameters, FetchEffect, Requested, Asks, Lookup, Cons, NOTHING;
    var x := cb.at(0, a.local);
    var bs := [Binder(x, 21, value)];
    FirstBound(x, a.param, value);
    OverrideHandled(cb, m, START, a, bs, Cons(b, NOTHING));
    assert [] + [a] == [a];
    FetchAsks(m, bs, x, b.target, e);
    FetchHandled(cb, m, Progress(bs, [a], []), b, e);
  }

  /** An envelope with these scripts: its manifest is there, and its install is entered and makes two calls. */
  lemma ScriptsRun(m: Manifest, c: Contents, uri: Octets) returns (a: Call, b: Call)
    requires HasContents(m, c) && |c.components| >= 1
    requires Written(c, uri)
    ensures Enters(m) && InstallPlan(m) == Cons(a, Cons(b, NOTHING))
    ensures a.command == 20 && Data(a.param) == UriOctets(uri) && a.local == OneLocal
    ensures b.command == 21 && b.target == Target(true, 0) && b.local == OneLocal
  {
    hide UriOctets, SequenceOctets, Enters, InstallPlan, InstallMeaning, Does, Data;
    ScriptsAreWritten(uri);
    SequencesAre(m, c, uri);
    InstallMeans(m, CommonScript(uri), INSTALL_SCRIPT);
    ScriptsMean(m, uri);
    a, b := TwoCalls(InstallPlan(m), Deed(20, UriOctets(uri), Target(true, 0), OneLocal),
                     Deed(21, [0xF6], Target(true, 0), OneLocal));
  }

  /** The contents of a manifest are the two scripts. */
  predicate Written(c: Contents, uri: Octets)
  {
    && (forall o <- CommonScript(uri) :: Writes(o)) && (forall o <- INSTALL_SCRIPT :: Writes(o))
    && c.sequence == SequenceOctets(CommonScript(uri)) && c.install == SequenceOctets(INSTALL_SCRIPT)
  }

  lemma SequencesAre(m: Manifest, c: Contents, uri: Octets)
    requires HasContents(m, c) && Written(c, uri)
    ensures !m.install.Severed? && |m.common.components| == |c.components|
    ensures SequenceIs(m.common.commandSequence, CommonScript(uri)) && SequenceIs(InstallBody(m), INSTALL_SCRIPT)
  {
    assert 2 * |CommonScript(uri)| < TWO64 && 2 * |INSTALL_SCRIPT| < TWO64;
    hide CommonScript, INSTALL_SCRIPT, SequenceOctets, Writes, Data;
  }

  lemma LastExtra(es: seq<Entry>, xs: seq<Extra>, i: nat)
    requires |es| == 2 + |xs| && AreExtras(es[2..], xs) && i < |xs| && IsUint(es[0].key) && IsUint(es[1].key)
    requires forall j | i < j < |xs| :: xs[j].name != xs[i].name
    ensures IsExtra(es[2 + i], xs[i])
    ensures LastNamed(es, xs[i].name, GetBstr(es[2 + i].at).value)
  {
    hide GetBstr, Data;
    forall j | 0 <= j < |xs| ensures IsExtra(es[2 + j], xs[j]) {
      assert es[2..][j] == es[2 + j];
    }
    assert Named(es[2 + i], xs[i].name);
    forall j | 0 <= j < |es| && Named(es[j], xs[i].name) ensures j >= 2 && xs[j - 2].name == xs[i].name {
      assert j >= 2;
      assert IsExtra(es[2 + (j - 2)], xs[j - 2]);
    }
  }

  /** What a written envelope has under the last of its entries with a name. */
  lemma ExtraIsEmbedded(envelope: Range, wrapper: Octets, manifest: Octets, xs: seq<Extra>, i: nat)
      returns (body: Range)
    requires 2 * |xs| + 4 < TWO64 && Data(envelope) == EnvelopeOctets(wrapper, manifest, xs)
    requires i < |xs| && forall j | i < j < |xs| :: xs[j].name != xs[i].name
    ensures Embedded(envelope, xs[i].name, body) && Data(body) == xs[i].body
  {
    hide EnvelopeOctets, EnvelopeMap, Entries, GetBstr, Data, AreExtras, LastNamed;
    var es := EnvelopeReads(envelope, wrapper, manifest, xs);
    LastExtra(es, xs, i);
    body := GetBstr(es[2 + i].at).value;
  }

  /** Whatever else it holds, installing such an envelope with a URI that begins with `#` stores what it has under that
      name, and does nothing else. */
  lemma EmbeddedIsStored(cb: Platform, envelope: Range, wrapper: Octets, c: Contents, xs: seq<Extra>, i: nat)
    requires 2 * |xs| + 4 < TWO64 && Writable(c) && Data(envelope) == EnvelopeOctets(wrapper, Binary(c), xs)
    requires i < |xs| && (forall j | i < j < |xs| :: xs[j].name != xs[i].name)
    requires |c.components| >= 1 && Written(c, xs[i].name) && xs[i].name != [] && xs[i].name[0] == '#' as int
    requires cb.at(0, OneLocal) == cb.at(1, OneLocal)
    ensures ManifestOf(envelope).Some? && !ManifestOf(envelope).value.install.Severed?
    ensures Enters(ManifestOf(envelope).value)
    ensures var m := ManifestOf(envelope).value;
            var es := RunOut(cb, m, START, InstallPlan(m)).progress.effects;
            |es| == 1 && es[0].Stored? && es[0].target == Target(true, 0) && Data(es[0].body) == xs[i].body
  {
    hide *;
    EnvelopeParses(envelope, wrapper, c, xs);
    var m := ManifestOf(envelope).value;
    InstallIsThere(m, c);
    var a, b := ScriptsRun(m, c, xs[i].name);
    var value := UriRequested(a.param, xs[i].name, cb.at(0, OneLocal));
    var body := ExtraIsEmbedded(envelope, wrapper, Binary(c), xs, i);
    AsksToStore(m, value, b.target, xs[i].name, body);
    RunAsks(cb, m, a, b, value, Stored(b.target, body));
  }

  lemma InstallIsThere(m: Manifest, c: Contents)
    requires HasContents(m, c)
    ensures !m.install.Severed?
  {
  }

  lemma AsksToStore(m: Manifest, value: Range, target: Target, name: seq<byte>, body: Range)
    requires GetTstr(Toplevel(value)).Got? && Data(GetTstr(Toplevel(value)).value) == name
    requires name != [] && name[0] == '#' as int && Embedded(m.envelope, name, body)
    ensures Asks(m, value, target, Stored(target, body))
  {
    hide GetTstr, Data, Embedded;
  }

  /** With any other URI it asks to fetch from there. */
  lemma AddressIsFetched(cb: Platform, envelope: Range, wrapper: Octets, c: Contents, xs: seq<Extra>, uri: Octets)
    requires 2 * |xs| + 4 < TWO64 && Writable(c) && Data(envelope) == EnvelopeOctets(wrapper, Binary(c), xs)
    requires |c.components| >= 1 && Written(c, uri) && uri != [] && uri[0] != '#' as int
    requires cb.at(0, OneLocal) == cb.at(1, OneLocal)
    ensures ManifestOf(envelope).Some? && !ManifestOf(envelope).value.install.Severed?
    ensures Enters(ManifestOf(envelope).value)
    ensures var m := ManifestOf(envelope).value;
            var es := RunOut(cb, m, START, InstallPlan(m)).progress.effects;
            |es| == 1 && es[0].Fetched? && es[0].target == Target(true, 0) && Data(es[0].uri) == uri
  {
    hide *;
    EnvelopeParses(envelope, wrapper, c, xs);
    var m := ManifestOf(envelope).value;
    InstallIsThere(m, c);
    var a, b := ScriptsRun(m, c, uri);
    var value := UriRequested(a.param, uri, cb.at(0, OneLocal));
    AsksToFetch(m, value, b.target, uri);
    RunAsks(cb, m, a, b, value, Fetched(b.target, GetTstr(Toplevel(value)).value));
  }

  lemma AsksToFetch(m: Manifest, value: Range, target: Target, uri: seq<byte>)
    requires GetTstr(Toplevel(value)).Got? && Data(GetTstr(Toplevel(value)).value) == uri
    requires uri != [] && uri[0] != '#' as int
    ensures Asks(m, value, target, Fetched(target, GetTstr(Toplevel(value)).value))
  {
    hide GetTstr, Data;
  }

  // Such an envelope there is: hello-tc/manifest embeds its application as "#tc".

  const TC_NAME: Octets := ['#' as int, 't' as int, 'c' as int]

  lemma ScriptSizes(uri: Octets)
    requires |uri| < TWO32
    ensures (forall o <- CommonScript(uri) :: Writes(o)) && (forall o <- INSTALL_SCRIPT :: Writes(o))
    ensures |SequenceOctets(CommonScript(uri))| < TWO32 + 100 && |SequenceOctets(INSTALL_SCRIPT)| < 100
  {
    ScriptsAreWritten(uri);
    hide EncodeHead, IsItem;
    var os := CommonScript(uri);
    assert os[1..] == [Apply(20, UriOctets(uri))] && os[1..][1..] == [];
    assert INSTALL_SCRIPT[1..] == [];
    assert Script([]) == [];
    assert |Script(os[1..])| <= 9 + |UriOctets(uri)|;
    assert |Script(INSTALL_SCRIPT)| <= 9 + 1;
  }

  /** One component, the scripts for "#tc", and an application embedded under that name. */
  lemma ApplicationIsStored(cb: Platform, body: Octets, wrapper: Octets) returns (envelope: Range)
    requires |body| < TWO32 && |wrapper| < TWO32 && cb.at(0, OneLocal) == cb.at(1, OneLocal)
    ensures ManifestOf(envelope).Some? && !ManifestOf(envelope).value.install.Severed?
    ensures Enters(ManifestOf(envelope).value)
    ensures var m := ManifestOf(envelope).value;
            var es := RunOut(cb, m, START, InstallPlan(m)).progress.effects;
            |es| == 1 && es[0].Stored? && es[0].target == Target(true, 0) && Data(es[0].body) == body
  {
    hide *;
    var c, xs, s := Application(body, wrapper);
    envelope := Whole(s);
    EmbeddedIsStored(cb, envelope, wrapper, c, xs, 0);
  }

  lemma Application(body: Octets, wrapper: Octets) returns (c: Contents, xs: seq<Extra>, s: Octets)
    requires |body| < TWO32 && |wrapper| < TWO32
    ensures Writable(c) && |c.components| == 1 && xs == [Extra(TC_NAME, body)] && Written(c, TC_NAME)
    ensures s == EnvelopeOctets(wrapper, Binary(c), xs) && TC_NAME != [] && TC_NAME[0] == '#' as int
    ensures 2 * |xs| + 4 < TWO64 && Data(Whole(s)) == s
  {
    c := ApplicationContents();
    xs := [Extra(TC_NAME, body)];
    hide Writable, Written, Binary;
    EnvelopeFits(wrapper, Binary(c), TC_NAME, body);
    hide EnvelopeOctets;
    s := EnvelopeOctets(wrapper, Binary(c), xs);
  }

  lemma ApplicationContents() returns (c: Contents)
    ensures Writable(c) && |Binary(c)| < 2 * TWO32 && |c.components| == 1 && Written(c, TC_NAME)
  {
    assert |TC_NAME| < TWO32;
    hide *;
    var component := SomeItem();
    c := ScriptContents(component, TC_NAME);
  }

  lemma SomeItem() returns (p: seq<byte>)
    ensures IsItem(p) && |p| <= 10
  {
    p := [0x00];
    assert EncodeHead(0, 0) == p;
    UintIsItem(0);
  }

  lemma ScriptContents(component: seq<byte>, uri: Octets) returns (c: Contents)
    requires IsItem(component) && |component| <= 10 && |uri| < TWO32
    ensures Writable(c) && |Binary(c)| < 2 * TWO32 && |c.components| == 1 && Written(c, uri)
  {
    ScriptSizes(uri);
    hide SequenceOctets, CommonScript, INSTALL_SCRIPT, Script, Writes, IsItem;
    c := Contents(0, [component], SequenceOctets(CommonScript(uri)), SequenceOctets(INSTALL_SCRIPT));
    hide Written;
    ContentsFit(c);
    ScriptsAre(c, uri);
  }

  lemma ScriptsAre(c: Contents, uri: Octets)
    requires (forall o <- CommonScript(uri) :: Writes(o)) && (forall o <- INSTALL_SCRIPT :: Writes(o))
    requires c.sequence == SequenceOctets(CommonScript(uri)) && c.install == SequenceOctets(INSTALL_SCRIPT)
    ensures Written(c, uri)
  {
    hide SequenceOctets, CommonScript, INSTALL_SCRIPT, Writes;
  }

  lemma EnvelopeFits(wrapper: Octets, manifest: Octets, name: Octets, body: Octets)
    requires |wrapper| < TWO32 && |manifest| < 2 * TWO32 && |name| < TWO32 && |body| < TWO32
    ensures |EnvelopeOctets(wrapper, manifest, [Extra(name, body)])| < TWO64
  {
    hide EncodeHead;
    var xs := [Extra(name, body)];
    assert xs[1..] == [] && AllExtras([]) == [];
    assert AllExtras(xs) == Tstr(name) + (Bstr(body) + []);
  }

  lemma ContentsFit(c: Contents)
    requires |c.components| == 1 && IsItem(c.components[0]) && |c.components[0]| <= 10
    requires |c.sequence| < TWO32 + 100 && |c.install| < 100
    ensures Writable(c) && |Binary(c)| < 2 * TWO32
  {
    hide EncodeHead, IsItem;
    assert c.components[1..] == [];
    assert Concat(c.components) == c.components[0] + Concat([]);
    assert |CommonOctets(c.components, c.sequence)| <= TWO32 + 200;
  }
}
