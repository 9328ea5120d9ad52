/** The parameter table of the command runner: lib/suit/lib/suit.c. */
module SuitBindings {
  import opened Wrappers
  import opened Bytes
  import opened CborReader
  import opened SuitEnvelope

  const SUIT_BINDER_MAX: nat := 32

  /** Where a target lies in memory, which is in a local variable; a binder remembers no more of it. What that means for
      the targets is said in `SuitTargets`. */
  type Address = nat

  /** A key is stored as an enumeration, in 32 bits, but compared with the 64 bits of a request. */
  datatype Binder = Binder(target: Address, key: u32, value: Range)

  predicate Binds(b: Binder, target: Address, key: u64) { b.target == target && b.key == key }

  /** `suit_runner_get_parameter`: the value of the first binder for the target and key. */
  function Lookup(bs: seq<Binder>, target: Address, key: u64): Option<Range>
  {
    if bs == [] then None
    else if Binds(bs[0], target, key) then Some(bs[0].value)
    else Lookup(bs[1..], target, key)
  }

  /** Overwrite the value of the first binder for the target and key. */
  function Replace(bs: seq<Binder>, target: Address, key: u64, value: Range): (r: seq<Binder>)
    ensures |r| == |bs|
  {
    if bs == [] then []
    else if Binds(bs[0], target, key) then [bs[0].(value := value)] + bs[1..]
    else [bs[0]] + Replace(bs[1..], target, key, value)
  }

  /** A request to bind a parameter. */
  datatype Assign = Assign(target: Address, key: u64, value: Range, isOverride: bool)

  /** `set_parameter`: nothing when the table is full. */
  function Bind(bs: seq<Binder>, a: Assign): Option<seq<Binder>>
  {
    if Lookup(bs, a.target, a.key).Some? then
      Some(if a.isOverride then Replace(bs, a.target, a.key, a.value) else bs)
    else if |bs| == SUIT_BINDER_MAX then None
    else Some(bs + [Binder(a.target, a.key % TWO32, a.value)])
  }

  /** The bindings a map context asks for, as far as it can be read. */
  function Assigns(c: Cursor, target: Address, isOverride: bool): Listing<Assign>
    decreases |Data(c.r)|
  {
    if AtEnd(c) then Listing([], true)
    else if GetUint(c).Missing? || GetItem(GetUint(c).next).Missing? then Listing([], false)
    else Cons(Assign(target, GetUint(c).value, GetItem(GetUint(c).next).value, isOverride),
              Assigns(GetItem(GetUint(c).next).next, target, isOverride))
  }

  lemma AssignsNext(c: Cursor, target: Address, isOverride: bool)
    ensures Assigns(c, target, isOverride)
         == if AtEnd(c) then Listing([], true)
            else if GetUint(c).Missing? || GetItem(GetUint(c).next).Missing? then Listing([], false)
            else Cons(Assign(target, GetUint(c).value, GetItem(GetUint(c).next).value, isOverride),
                      Assigns(GetItem(GetUint(c).next).next, target, isOverride))
  {
    hide GetUint, GetItem;
  }

  /** Bind one after the other, until one fails; what was bound before stays. */
  function BindAll(bs: seq<Binder>, l: Listing<Assign>): (bool, seq<Binder>)
    decreases |l.all|
  {
    if l.all == [] then (l.complete, bs)
    else match Bind(bs, l.all[0])
      case None => (false, bs)
      case Some(bs') => BindAll(bs', Listing(l.all[1..], l.complete))
  }

  /** The bindings a set or override command asks for. */
  function Requested(target: Address, param: Range, isOverride: bool): Listing<Assign>
  {
    match GetMap(Toplevel(param)) case Missing(_) => Listing([], false) case Got(c, _) => Assigns(c, target, isOverride)
  }

  /** Reading what a map asks for. */
  lemma RequestedThere(param: Range, target: Address, child: Cursor, next: Cursor, isOverride: bool)
    requires GetMap(Toplevel(param)) == Got(child, next)
    ensures Requested(target, param, isOverride) == Assigns(child, target, isOverride)
  {
    hide GetMap, Assigns;
  }

  lemma AssignThere(c: Cursor, target: Address, key: u64, at: Cursor, value: Range, next: Cursor, isOverride: bool)
    requires !AtEnd(c) && GetUint(c) == Got(key, at) && GetItem(at) == Got(value, next) && AtEnd(next)
    ensures Assigns(c, target, isOverride) == Listing([Assign(target, key, value, isOverride)], true)
  {
    hide GetUint, GetItem, Assigns;
    AssignsNext(c, target, isOverride);
    AssignsNext(next, target, isOverride);
  }

  /** `directive_set_parameters` */
  function SetParameters(bs: seq<Binder>, target: Address, param: Range, isOverride: bool): (bool, seq<Binder>)
  {
    BindAll(bs, Requested(target, param, isOverride))
  }

  // The table as a map.

  predicate Unique(bs: seq<Binder>)
  {
    forall i, j | 0 <= i < j < |bs| :: !Binds(bs[i], bs[j].target, bs[j].key)
  }

  function AsMap(bs: seq<Binder>): map<(Address, u64), Range>
  {
    if bs == [] then map[]
    else AsMap(bs[1..])[(bs[0].target, bs[0].key) := bs[0].value]
  }

  lemma {:induction false} LookupIsMap(bs: seq<Binder>, target: Address, key: u64)
    ensures Lookup(bs, target, key)
         == if (target, key) in AsMap(bs) then Some(AsMap(bs)[(target, key)]) else None
  {
    if bs != [] {
      LookupIsMap(bs[1..], target, key);
    }
  }

  lemma {:induction false} ReplaceIsUpdate(bs: seq<Binder>, target: Address, key: u64, value: Range)
    ensures AsMap(Replace(bs, target, key, value))
         == if (target, key) in AsMap(bs) then AsMap(bs)[(target, key) := value] else AsMap(bs)
  {
    if bs != [] {
      var r := Replace(bs, target, key, value);
      if Binds(bs[0], target, key) {
        assert r[1..] == bs[1..];
      } else {
        assert r[1..] == Replace(bs[1..], target, key, value);
        ReplaceIsUpdate(bs[1..], target, key, value);
      }
    }
  }

  lemma {:induction false} ReplaceKeepsKeys(bs: seq<Binder>, target: Address, key: u64, value: Range)
    ensures forall i | 0 <= i < |bs| ::
              && Replace(bs, target, key, value)[i].target == bs[i].target
              && Replace(bs, target, key, value)[i].key == bs[i].key
  {
    if bs != [] && !Binds(bs[0], target, key) {
      ReplaceKeepsKeys(bs[1..], target, key, value);
    }
  }

  lemma {:induction false} AppendIsUpdate(bs: seq<Binder>, b: Binder)
    requires (b.target, b.key) !in AsMap(bs)
    ensures AsMap(bs + [b]) == AsMap(bs)[(b.target, b.key) := b.value]
  {
    if bs == [] {
      assert (bs + [b])[1..] == [];
    } else {
      assert (bs + [b])[1..] == bs[1..] + [b];
      AppendIsUpdate(bs[1..], b);
    }
  }

  lemma {:induction false} BoundIsInMap(bs: seq<Binder>, i: nat)
    requires i < |bs|
    ensures (bs[i].target, bs[i].key) in AsMap(bs)
  {
    if i > 0 {
      BoundIsInMap(bs[1..], i - 1);
    }
  }

  lemma {:induction false} BoundIsNarrow(bs: seq<Binder>, target: Address, key: u64)
    requires (target, key) in AsMap(bs)
    ensures key < TWO32
  {
    if (target, key) in AsMap(bs[1..]) {
      BoundIsNarrow(bs[1..], target, key);
    }
  }

  /** Binding inserts a new key, keeps an old one unless told to override, forgets nothing, and fails only for
      a new key in a full table. */
  ghost predicate RefinesMap(bs: seq<Binder>, a: Assign)
  {
    var k := (a.target, a.key);
    var m := AsMap(bs);
    match Bind(bs, a)
    case None => k !in m && |bs| == SUIT_BINDER_MAX
    case Some(bs') => Unique(bs') && AsMap(bs') == if k in m && !a.isOverride then m else m[k := a.value]
  }

  /** The table refines a map with unique keys exactly for keys that fit the 32 bits they are stored in, or
      when it is full. */
  lemma BindRefinesMap(bs: seq<Binder>, a: Assign)
    requires Unique(bs)
    ensures RefinesMap(bs, a) <==> a.key < TWO32 || |bs| == SUIT_BINDER_MAX
  {
    LookupIsMap(bs, a.target, a.key);
    if (a.target, a.key) in AsMap(bs) {
      BoundIsNarrow(bs, a.target, a.key);
      ReplaceIsUpdate(bs, a.target, a.key, a.value);
      ReplaceKeepsKeys(bs, a.target, a.key, a.value);
    } else if a.key < TWO32 {
      AppendIsUpdate(bs, Binder(a.target, a.key, a.value));
      forall i | 0 <= i < |bs| ensures !Binds(bs[i], a.target, a.key) {
        BoundIsInMap(bs, i);
      }
    } else if |bs| != SUIT_BINDER_MAX {
      var bs' := Bind(bs, a).value;
      assert (a.target, a.key) in AsMap(bs)[(a.target, a.key) := a.value];
      if (a.target, a.key) in AsMap(bs') {
        BoundIsNarrow(bs', a.target, a.key);
      }
    }
  }

  /** Setting a key just past 32 bits binds the URI parameter. */
  lemma WideKeyAliases(target: Address, uri: Range)
    ensures Lookup(Bind([], Assign(target, TWO32 + 21, uri, false)).value, target, 21) == Some(uri)
    ensures Lookup(Bind([], Assign(target, TWO32 + 21, uri, false)).value, target, TWO32 + 21).None?
  {
  }

  /** No two binders share a key, so the table is as large as the map. */
  lemma {:induction false} UniqueSize(bs: seq<Binder>)
    requires Unique(bs)
    ensures |AsMap(bs)| == |bs|
  {
    if bs != [] {
      var rest := bs[1..];
      assert Unique(rest) by {
        forall i, j | 0 <= i < j < |rest| ensures !Binds(rest[i], rest[j].target, rest[j].key) {
          assert !Binds(bs[i + 1], bs[j + 1].target, bs[j + 1].key);
        }
      }
      UniqueSize(rest);
      if (bs[0].target, bs[0].key) in AsMap(rest) {
        var i := InMapIsBound(rest, bs[0].target, bs[0].key);
        assert Binds(bs[0], bs[i + 1].target, bs[i + 1].key);
      }
    }
  }

  lemma {:induction false} InMapIsBound(bs: seq<Binder>, target: Address, key: u64) returns (i: nat)
    requires (target, key) in AsMap(bs)
    ensures i < |bs| && Binds(bs[i], target, key)
  {
    if Binds(bs[0], target, key) {
      i := 0;
    } else {
      i := InMapIsBound(bs[1..], target, key);
      i := i + 1;
    }
  }

  /** What a parameter is after these requests: the value of the last override if there was one, else that of
      the first request whose key is stored as this one. */
  function Expected(assigns: seq<Assign>, target: Address, key: u64): Option<Range>
  {
    match LastOverride(assigns, target, key)
    case Some(v) => Some(v)
    case None => FirstStored(assigns, target, key)
  }

  function LastOverride(assigns: seq<Assign>, target: Address, key: u64): Option<Range>
  {
    if assigns == [] then None else
    var a := assigns[|assigns| - 1];
    if a.isOverride && a.target == target && a.key == key then Some(a.value)
    else LastOverride(assigns[..|assigns| - 1], target, key)
  }

  function FirstStored(assigns: seq<Assign>, target: Address, key: u64): Option<Range>
  {
    if assigns == [] then None
    else if assigns[0].target == target && assigns[0].key % TWO32 == key then Some(assigns[0].value)
    else FirstStored(assigns[1..], target, key)
  }

  lemma {:induction false} FirstStoredOfMore(assigns: seq<Assign>, a: Assign, target: Address, key: u64)
    ensures FirstStored(assigns + [a], target, key)
         == if FirstStored(assigns, target, key).Some? then FirstStored(assigns, target, key)
            else if a.target == target && a.key % TWO32 == key then Some(a.value) else None
  {
    if assigns == [] {
      assert assigns + [a] == [a];
    } else {
      assert (assigns + [a])[1..] == assigns[1..] + [a];
      FirstStoredOfMore(assigns[1..], a, target, key);
    }
  }

  lemma {:induction false} BindAllOfMore(bs: seq<Binder>, assigns: seq<Assign>, a: Assign)
    ensures BindAll(bs, Listing(assigns + [a], true)).0 ==>
              var (ok, bs') := BindAll(bs, Listing(assigns, true));
              ok && Bind(bs', a).Some? && BindAll(bs, Listing(assigns + [a], true)).1 == Bind(bs', a).value
    decreases |assigns|
  {
    if assigns == [] {
      assert assigns + [a] == [a] && [a][1..] == [];
    } else {
      assert (assigns + [a])[1..] == assigns[1..] + [a];
      if Bind(bs, assigns[0]).Some? {
        BindAllOfMore(Bind(bs, assigns[0]).value, assigns[1..], a);
      }
    }
  }

  lemma {:induction false} LookupOfAppend(bs: seq<Binder>, b: Binder, target: Address, key: u64)
    ensures Lookup(bs + [b], target, key)
         == if Lookup(bs, target, key).Some? then Lookup(bs, target, key)
            else if Binds(b, target, key) then Some(b.value) else None
  {
    if bs == [] {
      assert bs + [b] == [b];
    } else {
      assert (bs + [b])[1..] == bs[1..] + [b];
      LookupOfAppend(bs[1..], b, target, key);
    }
  }

  lemma {:induction false} LookupOfReplace(bs: seq<Binder>, a: Assign, target: Address, key: u64)
    requires Lookup(bs, a.target, a.key).Some?
    ensures Lookup(Replace(bs, a.target, a.key, a.value), target, key)
         == if a.target == target && a.key == key then Some(a.value) else Lookup(bs, target, key)
  {
    if Binds(bs[0], a.target, a.key) {
      assert ([bs[0].(value := a.value)] + bs[1..])[1..] == bs[1..];
    } else {
      var r := Replace(bs[1..], a.target, a.key, a.value);
      assert ([bs[0]] + r)[1..] == r;
      LookupOfReplace(bs[1..], a, target, key);
    }
  }

  /** After any successful sequence of set and override requests on an empty table, a lookup finds the last
      override if there was one, and otherwise the first value stored under the key. */
  lemma {:induction false} LookupAfter(assigns: seq<Assign>, target: Address, key: u64)
    requires BindAll([], Listing(assigns, true)).0
    ensures Lookup(BindAll([], Listing(assigns, true)).1, target, key)
         == if key < TWO32 then Expected(assigns, target, key) else None
    decreases |assigns|
  {
    if assigns != [] {
      var before, a := assigns[..|assigns| - 1], assigns[|assigns| - 1];
      assert assigns == before + [a];
      BindAllOfMore([], before, a);
      LookupAfter(before, target, key);
      LookupAfter(before, a.target, a.key);
      FirstStoredOfMore(before, a, target, key);
      var bs := BindAll([], Listing(before, true)).1;
      if Lookup(bs, a.target, a.key).Some? {
        LookupOfReplace(bs, a, target, key);
      } else {
        LookupOfAppend(bs, Binder(a.target, a.key % TWO32, a.value), target, key);
      }
    }
  }
}
