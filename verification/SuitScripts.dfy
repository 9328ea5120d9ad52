/** What a command sequence means as it is written: the objects every command is applied to, in order, told without
    reading contexts, and where the sequence breaks off. */
module SuitScripts {
  import opened Bytes
  import opened CborHead
  import opened CborItems
  import opened CborReader
  import opened SuitEnvelope
  import opened SuitManifest
  import opened SuitBindings
  import opened SuitPlan
  import opened SuitWritten

  /** What a selection says: true, false, an index, or an array of indices. */
  datatype Pick = EachObject | NoObject | Object(index: u64) | Objects(indices: seq<u64>)

  /** One command of a script. */
  datatype Order =
    | SelectComponents(pick: Pick)
    | SelectDependencies(pick: Pick)
    | Apply(command: u64, param: seq<byte>)

  function IndexOctets(indices: seq<u64>): (items: seq<seq<byte>>)
    ensures |items| == |indices|
  {
    seq(|indices|, i requires 0 <= i < |indices| => EncodeHead(0, indices[i]))
  }

  function PickOctets(p: Pick): seq<byte>
    requires p.Objects? ==> |p.indices| < TWO64
  {
    match p
    case EachObject => [0xF5]
    case NoObject => [0xF4]
    case Object(i) => EncodeHead(0, i)
    case Objects(indices) => ArrayOf(IndexOctets(indices))
  }

  /** A parameter is an item, an array fits the address space, and the two selecting commands are no others. */
  predicate Writes(o: Order)
  {
    match o
    case SelectComponents(p) => p.Objects? ==> |p.indices| < TWO64
    case SelectDependencies(p) => p.Objects? ==> |p.indices| < TWO64
    case Apply(command, param) => command !in {12, 13} && IsItem(param)
  }

  function NumberOf(o: Order): u64
  {
    match o case SelectComponents(_) => 12 case SelectDependencies(_) => 13 case Apply(command, _) => command
  }

  function ParamOf(o: Order): seq<byte>
    requires Writes(o)
  {
    match o
    case SelectComponents(p) => PickOctets(p)
    case SelectDependencies(p) => PickOctets(p)
    case Apply(_, param) => param
  }

  function Script(os: seq<Order>): seq<byte>
    requires forall o <- os :: Writes(o)
  {
    if os == [] then [] else EncodeHead(0, NumberOf(os[0])) + (ParamOf(os[0]) + Script(os[1..]))
  }

  function SequenceOctets(os: seq<Order>): seq<byte>
    requires 2 * |os| < TWO64 && forall o <- os :: Writes(o)
  {
    EncodeHead(4, 2 * |os|) + Script(os)
  }

  // Selections.

  /** How many indices there are before the first that is not below `n`. */
  function InRange(indices: seq<u64>, n: nat): (k: nat)
    ensures k <= |indices|
  {
    if indices == [] || indices[0] >= n then 0 else 1 + InRange(indices[1..], n)
  }

  /** The objects that a selection picks, up to the first that does not exist. */
  function Reached(m: Manifest, isComponent: bool, p: Pick): Listing<Located>
  {
    var n := if isComponent then |m.common.components| else m.common.nDependencies;
    match p
    case EachObject => Listing(seq(n, i requires 0 <= i < n => Located(Target(isComponent, i), AllLocal)), true)
    case NoObject => Listing([], true)
    case Object(i) => if i < n then Listing([Located(Target(isComponent, i), OneLocal)], true) else Listing([], false)
    case Objects(indices) =>
      var k := InRange(indices, n);
      Listing(seq(k, i requires 0 <= i < k => Located(Target(isComponent, indices[i]), ListedLocal)), k == |indices|)
  }

  /** The objects that a selection picks when it is read are those. */
  lemma SelectionReads(m: Manifest, isComponent: bool, r: Range, p: Pick)
    requires (p.Objects? ==> |p.indices| < TWO64) && Data(r) == PickOctets(p)
    ensures Selected(m, Selection(isComponent, r)) == Reached(m, isComponent, p)
  {
    match p
    case EachObject =>
      SimpleReads(r, 21);
      EachObjectFrom(m, isComponent, 0);
    case NoObject => SimpleReads(r, 20);
    case Object(i) => IndexReads(m, isComponent, r, i);
    case Objects(indices) => IndicesRead(m, isComponent, r, indices);
  }

  lemma SimpleReads(r: Range, v: byte)
    requires v in {20, 21} && Data(r) == [0xE0 + v]
    ensures GetBool(Toplevel(r)).Got? && GetBool(Toplevel(r)).value == (v == 21)
  {
    HeaderBits(7, v);
    var s := Data(r);
    assert ReadHead(s) == Head(0xE0 + v, v, 1);
    hide ReadHead, Info, Major;
  }

  lemma {:induction false} EachObjectFrom(m: Manifest, isComponent: bool, i: nat)
    requires i <= ObjectCount(m, isComponent)
    ensures ObjectsFrom(m, isComponent, i)
         == Listing(seq(ObjectCount(m, isComponent) - i,
                        j requires j >= 0 => Located(Target(isComponent, i + j), AllLocal)), true)
    decreases ObjectCount(m, isComponent) - i
  {
    AllObjects(m, isComponent, i);
  }

  lemma IndexReads(m: Manifest, isComponent: bool, r: Range, i: u64)
    requires Data(r) == EncodeHead(0, i)
    ensures Selected(m, Selection(isComponent, r)) == Reached(m, isComponent, Object(i))
  {
    hide EncodeHead, GetAny;
    assert EncodeHead(0, i) == EncodeHead(0, i) + [];
    HeadNext(Toplevel(r), 0, i, []);
  }

  lemma {:induction false} IndicesFrom(m: Manifest, isComponent: bool, c: Cursor, indices: seq<u64>)
    requires c.count == c.index + |indices| && Data(c.r) == Concat(IndexOctets(indices))
    ensures ListedObjects(m, isComponent, c) == Reached(m, isComponent, Objects(indices))
    decreases |indices|
  {
    hide EncodeHead, GetAny, Data;
    if indices != [] {
      var rest := indices[1..];
      assert IndexOctets(indices)[1..] == IndexOctets(rest);
      HeadNext(c, 0, indices[0], Concat(IndexOctets(rest)));
      hide Concat, ArgumentSize;
      IndicesFrom(m, isComponent, GetAny(c).next, rest);
      FirstReached(m, isComponent, indices);
    }
  }

  lemma FirstReached(m: Manifest, isComponent: bool, indices: seq<u64>)
    requires indices != []
    ensures Reached(m, isComponent, Objects(indices))
         == if indices[0] >= ObjectCount(m, isComponent) then Listing([], false)
            else Cons(Located(Target(isComponent, indices[0]), ListedLocal),
                      Reached(m, isComponent, Objects(indices[1..])))
  {
  }

  lemma IndicesRead(m: Manifest, isComponent: bool, r: Range, indices: seq<u64>)
    requires |indices| < TWO64 && Data(r) == ArrayOf(IndexOctets(indices))
    ensures Selected(m, Selection(isComponent, r)) == Reached(m, isComponent, Objects(indices))
  {
    hide EncodeHead, GetAny, Reached, Concat, ListedObjects;
    HeadNext(Toplevel(r), 4, |indices|, Concat(IndexOctets(indices)));
    var c := Position(GetAny(Toplevel(r)).next.r, 0, |indices|);
    IndicesFrom(m, isComponent, c, indices);
  }

  // Sequences.

  /** A call as a script means it: its parameter by its octets. */
  datatype Deed = Deed(command: u64, param: seq<byte>, target: Target, local: Local)

  function DeedOf(c: Call): Deed { Deed(c.command, Data(c.param), c.target, c.local) }

  /** Conditions 1, 2 and 3 and the setting commands 19 and 20 may be anywhere; processing a dependency, 18, and
      fetching, 21, only in the install sequence. */
  predicate Allowed(command: u64, isCommon: bool)
  {
    command in {1, 2, 3, 19, 20} || (!isCommon && command in {18, 21})
  }

  function DeedsOn(command: u64, param: seq<byte>, objects: seq<Located>): (ds: seq<Deed>)
    ensures |ds| == |objects|
  {
    seq(|objects|, i requires 0 <= i < |objects| => Deed(command, param, objects[i].target, objects[i].local))
  }

  /** What a script means, and the selection it leaves behind: every command is applied to the objects picked last. */
  function Meaning(m: Manifest, os: seq<Order>, isCommon: bool, isComponent: bool, p: Pick): (Listing<Deed>, bool, Pick)
  {
    if os == [] then (Listing([], true), isComponent, p) else
    match os[0]
    case SelectComponents(q) => Meaning(m, os[1..], isCommon, true, q)
    case SelectDependencies(q) => Meaning(m, os[1..], isCommon, false, q)
    case Apply(command, param) =>
      if !Allowed(command, isCommon) then (Listing([], false), isComponent, p) else
      var objects := Reached(m, isComponent, p);
      var deeds := DeedsOn(command, param, objects.all);
      var (rest, lastKind, last) := Meaning(m, os[1..], isCommon, isComponent, p);
      if objects.complete then (Listing(deeds + rest.all, rest.complete), lastKind, last)
      else (Listing(deeds, false), lastKind, last)
  }

  lemma {:induction false} StepsRead(c: Cursor, os: seq<Order>)
    requires (forall o <- os :: Writes(o)) && c.count == c.index + 2 * |os| && Data(c.r) == Script(os)
    ensures var l := Steps(c);
            && l.complete && |l.all| == |os|
            && forall i | 0 <= i < |os| :: l.all[i].command == NumberOf(os[i]) && Data(l.all[i].param) == ParamOf(os[i])
    decreases |os|
  {
    hide EncodeHead, GetAny, GetItem, Data, Writes, ParamOf, NumberOf;
    if os != [] {
      var rest := Script(os[1..]);
      HeadNext(c, 0, NumberOf(os[0]), ParamOf(os[0]) + rest);
      var d := GetAny(c).next;
      ParamIsItem(os[0]);
      ItemNext(d, ParamOf(os[0]), rest);
      StepsRead(GetItem(d).next, os[1..]);
    }
  }

  lemma ParamIsItem(o: Order)
    requires Writes(o)
    ensures IsItem(ParamOf(o))
  {
    match o
    case SelectComponents(p) => PickIsItem(p);
    case SelectDependencies(p) => PickIsItem(p);
    case Apply(_, _) =>
  }

  lemma PickIsItem(p: Pick)
    requires p.Objects? ==> |p.indices| < TWO64
    ensures IsItem(PickOctets(p))
  {
    match p
    case EachObject => SimpleIsItem(21);
    case NoObject => SimpleIsItem(20);
    case Object(i) => UintIsItem(i);
    case Objects(indices) =>
      forall x | x in IndexOctets(indices) ensures IsItem(x) {
        var i :| 0 <= i < |indices| && IndexOctets(indices)[i] == x;
        UintIsItem(indices[i]);
      }
      ArrayIsItem(IndexOctets(indices));
  }

  lemma SimpleIsItem(v: byte)
    requires v in {20, 21}
    ensures IsItem([0xE0 + v])
  {
    HeaderBits(7, v);
    assert ReadHead([0xE0 + v]) == Head(0xE0 + v, v, 1);
    hide ReadHead, Item, Items;
    ScalarItem([0xE0 + v]);
  }

  /** The plan calls for these deeds. */
  predicate Does(plan: Plan, ds: Listing<Deed>)
  {
    && plan.complete == ds.complete && |plan.all| == |ds.all|
    && forall i | 0 <= i < |plan.all| :: DeedOf(plan.all[i]) == ds.all[i]
  }

  predicate Selects(s: Selection, isComponent: bool, p: Pick)
  {
    (p.Objects? ==> |p.indices| < TWO64) && s.isComponent == isComponent && Data(s.param) == PickOctets(p)
  }

  /** These steps are a script's. */
  predicate StepsOf(l: Listing<Step>, os: seq<Order>)
  {
    && (forall o <- os :: Writes(o)) && l.complete && |l.all| == |os|
    && forall i | 0 <= i < |os| :: l.all[i].command == NumberOf(os[i]) && Data(l.all[i].param) == ParamOf(os[i])
  }

  lemma CallsAreDeeds(m: Manifest, step: Step, s: Selection, isComponent: bool, p: Pick, param: seq<byte>)
    requires Selects(s, isComponent, p) && Data(step.param) == param
    ensures var objects := Reached(m, isComponent, p);
            Does(CallsOn(step, Selected(m, s)), Listing(DeedsOn(step.command, param, objects.all), objects.complete))
  {
    hide Selected, Reached, Data;
    SelectionReads(m, isComponent, s.param, p);
  }

  lemma DoesThen(p: Plan, q: Plan, d: Listing<Deed>, e: Listing<Deed>)
    requires Does(p, d) && Does(q, e)
    ensures Does(Then(p, q), if d.complete then Listing(d.all + e.all, e.complete) else Listing(d.all, false))
  {
    hide DeedOf;
  }

  /** Expanding a script's steps gives the calls that it means. */
  lemma {:induction false} ExpandMeans(m: Manifest, l: Listing<Step>, os: seq<Order>, isCommon: bool, s: Selection,
                                       isComponent: bool, p: Pick)
    requires StepsOf(l, os) && Selects(s, isComponent, p)
    ensures var (plan, s') := Expand(m, l, isCommon, s);
            var (ds, isComponent', p') := Meaning(m, os, isCommon, isComponent, p);
            Does(plan, ds) && (ds.complete ==> Selects(s', isComponent', p'))
    decreases |os|
  {
    hide Does, Selects, Reached, DeedsOn, CallsOn, Selected, Then;
    NothingDone();
    if os != [] {
      var step, rest := l.all[0], Listing(l.all[1..], l.complete);
      FirstStep(l, os);
      match os[0]
      case SelectComponents(q) =>
        NowSelects(Selection(true, step.param), true, q);
        ExpandMeans(m, rest, os[1..], isCommon, Selection(true, step.param), true, q);
      case SelectDependencies(q) =>
        NowSelects(Selection(false, step.param), false, q);
        ExpandMeans(m, rest, os[1..], isCommon, Selection(false, step.param), false, q);
      case Apply(command, param) =>
        if Allowed(command, isCommon) {
          ExpandMeans(m, rest, os[1..], isCommon, s, isComponent, p);
          CallsAreDeeds(m, step, s, isComponent, p, param);
          var objects := Reached(m, isComponent, p);
          DoesThen(CallsOn(step, Selected(m, s)), Expand(m, rest, isCommon, s).0,
                   Listing(DeedsOn(command, param, objects.all), objects.complete),
                   Meaning(m, os[1..], isCommon, isComponent, p).0);
        }
    }
  }

  lemma NothingDone()
    ensures Does(Listing([], true), Listing([], true)) && Does(BROKEN, Listing([], false))
  {
  }

  lemma NowSelects(s: Selection, isComponent: bool, p: Pick)
    requires (p.Objects? ==> |p.indices| < TWO64) && s.isComponent == isComponent && Data(s.param) == PickOctets(p)
    ensures Selects(s, isComponent, p)
  {
  }

  lemma FirstStep(l: Listing<Step>, os: seq<Order>)
    requires StepsOf(l, os) && os != []
    ensures Writes(os[0]) && l.all[0].command == NumberOf(os[0]) && Data(l.all[0].param) == ParamOf(os[0])
    ensures StepsOf(Listing(l.all[1..], l.complete), os[1..])
  {
    hide Writes, NumberOf, ParamOf, Data;
  }

  // Parameters.

  /** A parameter as it is written: its key, and its value, which is an item. */
  datatype Parameter = Parameter(key: u64, value: seq<byte>)

  function AllParameters(ps: seq<Parameter>): seq<byte>
  {
    if ps == [] then [] else EncodeHead(0, ps[0].key) + (ps[0].value + AllParameters(ps[1..]))
  }

  /** These requests are for the parameters, in order. */
  predicate RequestsAll(assigns: seq<Assign>, ps: seq<Parameter>, target: Address, isOverride: bool)
  {
    && |assigns| == |ps|
    && forall i | 0 <= i < |ps| :: RequestsFor(assigns[i], ps[i], target, isOverride)
  }

  predicate RequestsFor(a: Assign, p: Parameter, target: Address, isOverride: bool)
  {
    a.target == target && a.key == p.key && Data(a.value) == p.value && a.isOverride == isOverride
  }

  lemma {:induction false} ParametersFrom(c: Cursor, ps: seq<Parameter>, target: Address, isOverride: bool)
    requires (forall p <- ps :: IsItem(p.value)) && c.count == c.index + 2 * |ps| && Data(c.r) == AllParameters(ps)
    ensures var l := Assigns(c, target, isOverride); l.complete && RequestsAll(l.all, ps, target, isOverride)
    decreases |ps|
  {
    hide EncodeHead, GetAny, GetItem, Data, IsItem, Assigns, RequestsAll, RequestsFor;
    AssignsNext(c, target, isOverride);
    if ps == [] {
      NothingRequested(target, isOverride);
    } else {
      var p, rest := ps[0], AllParameters(ps[1..]);
      assert p in ps;
      HeadNext(c, 0, p.key, p.value + rest);
      var d := GetAny(c).next;
      ItemNext(d, p.value, rest);
      var e := GetItem(d).next;
      ParametersFrom(e, ps[1..], target, isOverride);
      var a := Assign(target, p.key, GetItem(d).value, isOverride);
      RequestsIs(a, p, target, isOverride);
      MoreRequested(a, Assigns(e, target, isOverride).all, ps, target, isOverride);
    }
  }

  lemma NothingRequested(target: Address, isOverride: bool)
    ensures RequestsAll([], [], target, isOverride)
  {
  }

  lemma RequestsIs(a: Assign, p: Parameter, target: Address, isOverride: bool)
    requires a.target == target && a.key == p.key && Data(a.value) == p.value && a.isOverride == isOverride
    ensures RequestsFor(a, p, target, isOverride)
  {
  }

  lemma MoreRequested(a: Assign, assigns: seq<Assign>, ps: seq<Parameter>, target: Address, isOverride: bool)
    requires ps != [] && RequestsFor(a, ps[0], target, isOverride) && RequestsAll(assigns, ps[1..], target, isOverride)
    ensures RequestsAll([a] + assigns, ps, target, isOverride)
  {
    hide RequestsFor;
    forall i | 0 <= i < |ps| ensures RequestsFor(([a] + assigns)[i], ps[i], target, isOverride) {
      assert i > 0 ==> ([a] + assigns)[i] == assigns[i - 1] && ps[1..][i - 1] == ps[i];
    }
  }

  /** A written parameter map asks for each of its parameters, in order. */
  lemma ParametersRead(r: Range, ps: seq<Parameter>, target: Address, isOverride: bool)
    requires 2 * |ps| < TWO64 && (forall p <- ps :: IsItem(p.value))
    requires Data(r) == EncodeHead(5, |ps|) + AllParameters(ps)
    ensures var l := Requested(target, r, isOverride); l.complete && RequestsAll(l.all, ps, target, isOverride)
  {
    hide EncodeHead, GetMap, Data, IsItem, Assigns, RequestsAll;
    MapOpens(r, |ps|, AllParameters(ps));
    ParametersFrom(GetMap(Toplevel(r)).value, ps, target, isOverride);
  }

  // Installs.

  /** A command sequence is this script; one that is missing is the empty one. */
  predicate SequenceIs(r: Range, os: seq<Order>)
  {
    2 * |os| < TWO64 && (forall o <- os :: Writes(o)) && if r.Null? then os == [] else Data(r) == SequenceOctets(os)
  }

  lemma SequenceReads(r: Range, os: seq<Order>)
    requires SequenceIs(r, os)
    ensures var g := GetArray(Toplevel(OrEmpty(r))); g.Got? && StepsOf(Steps(g.value), os)
  {
    hide EncodeHead, GetAny, Script, Writes, Steps, ParamOf, NumberOf;
    if r.Null? {
      EmptySequence();
    }
    HeadNext(Toplevel(OrEmpty(r)), 4, 2 * |os|, Script(os));
    StepsRead(Position(GetAny(Toplevel(OrEmpty(r))).next.r, 0, 2 * |os|), os);
  }

  lemma EmptySequence()
    ensures Data(EMPTY_ARRAY) == SequenceOctets([])
  {
  }

  /** What the scripts of a manifest's common and install sequences mean together: first the one and then the other,
      with the selection that the first leaves behind. */
  function InstallMeaning(m: Manifest, common: seq<Order>, install: seq<Order>): Listing<Deed>
  {
    var (first, isComponent, p) := Meaning(m, common, true, true, EachObject);
    var second := Meaning(m, install, false, isComponent, p).0;
    if first.complete then Listing(first.all + second.all, second.complete) else Listing(first.all, false)
  }

  /** An install calls for what its scripts mean. */
  lemma InstallMeans(m: Manifest, common: seq<Order>, install: seq<Order>)
    requires !m.install.Severed?
    requires SequenceIs(m.common.commandSequence, common) && SequenceIs(InstallBody(m), install)
    ensures Enters(m) && Does(InstallPlan(m), InstallMeaning(m, common, install))
  {
    hide SequenceIs, GetArray, Steps, Expand, Meaning, Does, StepsOf, Selects, Then, OrEmpty;
    SequenceReads(m.common.commandSequence, common);
    SequenceReads(InstallBody(m), install);
    var first := Steps(GetArray(Toplevel(OrEmpty(m.common.commandSequence))).value);
    var second := Steps(GetArray(Toplevel(OrEmpty(InstallBody(m)))).value);
    AllSelected();
    ExpandMeans(m, first, common, true, Selection(true, CBOR_TRUE), true, EachObject);
    var (p, s) := Expand(m, first, true, Selection(true, CBOR_TRUE));
    var (ds, isComponent, pick) := Meaning(m, common, true, true, EachObject);
    if ds.complete {
      ExpandMeans(m, second, install, false, s, isComponent, pick);
      DoesThen(p, Expand(m, second, false, s).0, ds, Meaning(m, install, false, isComponent, pick).0);
    } else {
      DoesNotGoOn(p, Expand(m, second, false, s).0, ds);
    }
  }

  lemma AllSelected()
    ensures Selects(Selection(true, CBOR_TRUE), true, EachObject)
  {
  }

  lemma DoesNotGoOn(p: Plan, q: Plan, ds: Listing<Deed>)
    requires Does(p, ds) && !ds.complete
    ensures Does(Then(p, q), Listing(ds.all, false))
  {
  }
}
