/** Parameters are kept under the address of the local variable that their target lies in, where they are meant to be
    kept under the target: lib/suit/lib/suit.c. When the two come to the same, for the table and for whole runs. */
module SuitTargets {
  import opened Bytes
  import opened CborReader
  import opened SuitEnvelope
  import opened SuitManifest
  import opened SuitBindings
  import opened SuitPlan

  /** An address of its own for every target. */
  function Own(t: Target): Address { 2 * t.index + if t.isComponent then 1 else 0 }

  lemma OwnIsOwn(t: Target, u: Target)
    ensures Own(t) == Own(u) <==> t == u
  {
  }

  // The table.

  /** What a request asks for, wherever its target is. */
  datatype Setting = Setting(key: u64, value: Range, isOverride: bool)

  /** Requests for targets at these addresses. */
  function Asked(at: seq<Address>, settings: seq<Setting>): (assigns: seq<Assign>)
    requires |at| == |settings|
    ensures |assigns| == |at|
  {
    seq(|at|, i requires 0 <= i < |at| => Assign(at[i], settings[i].key, settings[i].value, settings[i].isOverride))
  }

  function TableAfter(at: seq<Address>, settings: seq<Setting>): seq<Binder>
    requires |at| == |settings|
  {
    BindAll([], Listing(Asked(at, settings), true)).1
  }

  /** As many requests as the table has room for succeed. */
  lemma {:induction false} BindAllFits(bs: seq<Binder>, assigns: seq<Assign>)
    requires |bs| + |assigns| <= SUIT_BINDER_MAX
    ensures BindAll(bs, Listing(assigns, true)).0
    decreases |assigns|
  {
    if assigns != [] {
      BindAllFits(Bind(bs, assigns[0]).value, assigns[1..]);
    }
  }

  /** Whatever is asked for, `a` and `b` are found to have the same parameters. */
  ghost predicate SameParameters(at: seq<Address>, a: Address, bt: seq<Address>, b: Address)
    requires |at| == |bt|
  {
    forall settings: seq<Setting>, key: u64 | |settings| == |at| ::
      Lookup(TableAfter(at, settings), a, key) == Lookup(TableAfter(bt, settings), b, key)
  }

  predicate SameWhere(at: seq<Address>, a: Address, bt: seq<Address>, b: Address)
    requires |at| == |bt|
  {
    forall i | 0 <= i < |at| :: at[i] == a <==> bt[i] == b
  }

  lemma {:induction false} SameFirstStored(x: seq<Assign>, a: Address, y: seq<Assign>, b: Address, key: u64)
    requires |x| == |y| && forall i | 0 <= i < |x| :: y[i] == x[i].(target := y[i].target)
    requires forall i | 0 <= i < |x| :: x[i].target == a <==> y[i].target == b
    ensures FirstStored(x, a, key) == FirstStored(y, b, key)
  {
    if x != [] {
      SameFirstStored(x[1..], a, y[1..], b, key);
    }
  }

  lemma {:induction false} SameLastOverride(x: seq<Assign>, a: Address, y: seq<Assign>, b: Address, key: u64)
    requires |x| == |y| && forall i | 0 <= i < |x| :: y[i] == x[i].(target := y[i].target)
    requires forall i | 0 <= i < |x| :: x[i].target == a <==> y[i].target == b
    ensures LastOverride(x, a, key) == LastOverride(y, b, key)
  {
    if x != [] {
      SameLastOverride(x[..|x| - 1], a, y[..|y| - 1], b, key);
    }
  }

  lemma SameLookup(at: seq<Address>, a: Address, bt: seq<Address>, b: Address, settings: seq<Setting>, key: u64)
    requires |at| == |bt| == |settings| <= SUIT_BINDER_MAX && SameWhere(at, a, bt, b)
    ensures Lookup(TableAfter(at, settings), a, key) == Lookup(TableAfter(bt, settings), b, key)
  {
    var x, y := Asked(at, settings), Asked(bt, settings);
    hide LastOverride, FirstStored, BindAll, Lookup;
    BindAllFits([], x);
    BindAllFits([], y);
    LookupAfter(x, a, key);
    LookupAfter(y, b, key);
    SameFirstStored(x, a, y, b, key);
    SameLastOverride(x, a, y, b, key);
  }

  /** Requests of which only number `i` is for key 1. */
  function Singled(n: nat, i: nat): (settings: seq<Setting>)
    ensures |settings| == n
  {
    seq(n, j => Setting(if j == i then 1 else 2, Null, false))
  }

  lemma {:induction false} OnlyOneStored(assigns: seq<Assign>, i: nat, a: Address)
    requires i < |assigns| && assigns[i].key == 1 && forall j | 0 <= j < |assigns| && j != i :: assigns[j].key == 2
    ensures FirstStored(assigns, a, 1).Some? <==> assigns[i].target == a
  {
    if i > 0 {
      OnlyOneStored(assigns[1..], i - 1, a);
    } else if assigns[0].target != a {
      NoneStored(assigns[1..], a);
    }
  }

  lemma {:induction false} NoneStored(assigns: seq<Assign>, a: Address)
    requires forall j | 0 <= j < |assigns| :: assigns[j].key == 2
    ensures FirstStored(assigns, a, 1).None?
  {
    if assigns != [] {
      NoneStored(assigns[1..], a);
    }
  }

  lemma {:induction false} NoOverride(assigns: seq<Assign>, a: Address, key: u64)
    requires forall j | 0 <= j < |assigns| :: !assigns[j].isOverride
    ensures LastOverride(assigns, a, key).None?
  {
    if assigns != [] {
      NoOverride(assigns[..|assigns| - 1], a, key);
    }
  }

  /** A request that is found under one of two addresses only can be told by its key. */
  lemma SingledOut(at: seq<Address>, i: nat, a: Address)
    requires i < |at| <= SUIT_BINDER_MAX
    ensures Lookup(TableAfter(at, Singled(|at|, i)), a, 1).Some? <==> at[i] == a
  {
    var x := Asked(at, Singled(|at|, i));
    hide LastOverride, FirstStored, BindAll, Lookup;
    BindAllFits([], x);
    LookupAfter(x, a, 1);
    NoOverride(x, a, 1);
    OnlyOneStored(x, i, a);
  }

  /** For as many requests as the table has room for, a target has the parameters it is meant to have, whatever they
      are, exactly if its address is that of the requests for it and of no others. */
  lemma ParametersAreOwn(targets: seq<Target>, at: seq<Address>, t: Target, a: Address)
    requires |targets| == |at| <= SUIT_BINDER_MAX
    ensures (forall i | 0 <= i < |at| :: at[i] == a <==> targets[i] == t)
       <==> SameParameters(at, a, Owns(targets), Own(t))
  {
    hide TableAfter, Lookup, Own;
    var bt := Owns(targets);
    forall i | 0 <= i < |at| ensures bt[i] == Own(t) <==> targets[i] == t {
      OwnIsOwn(targets[i], t);
    }
    if SameWhere(at, a, bt, Own(t)) {
      forall settings: seq<Setting>, key: u64 | |settings| == |at|
        ensures Lookup(TableAfter(at, settings), a, key) == Lookup(TableAfter(bt, settings), Own(t), key)
      {
        SameLookup(at, a, bt, Own(t), settings, key);
      }
    } else {
      var i :| 0 <= i < |at| && !(at[i] == a <==> bt[i] == Own(t));
      SingledOut(at, i, a);
      SingledOut(bt, i, Own(t));
    }
  }

  function Owns(targets: seq<Target>): (at: seq<Address>)
    ensures |at| == |targets|
  {
    seq(|targets|, i requires 0 <= i < |targets| => Own(targets[i]))
  }

  // Whole runs.

  /** The commands that a parameter matters to. */
  predicate UsesParameters(command: u64) { Sets(command) || command == FETCH }

  /** Two ways to place the targets of these calls. */
  datatype Places = Places(calls: seq<Call>, x: seq<Address>, y: seq<Address>)

  ghost predicate SamePlaces(n: Places)
  {
    && |n.x| == |n.y| == |n.calls|
    && forall i, j | 0 <= i < |n.calls| && 0 <= j < |n.calls|
         && UsesParameters(n.calls[i].command) && UsesParameters(n.calls[j].command) ::
         n.x[i] == n.x[j] <==> n.y[i] == n.y[j]
  }

  /** The two binders were made by the same call. */
  predicate MadeBy(n: Places, b: Binder, c: Binder, i: nat)
    requires |n.x| == |n.y| == |n.calls|
  {
    i < |n.calls| && UsesParameters(n.calls[i].command) && b.target == n.x[i] && c == b.(target := n.y[i])
  }

  ghost predicate Twins(n: Places, b: Binder, c: Binder)
    requires |n.x| == |n.y| == |n.calls|
  {
    exists i: nat :: MadeBy(n, b, c, i)
  }

  ghost predicate Alike(n: Places, bs: seq<Binder>, cs: seq<Binder>)
    requires |n.x| == |n.y| == |n.calls|
  {
    |bs| == |cs| && (bs == [] || (Twins(n, bs[0], cs[0]) && Alike(n, bs[1..], cs[1..])))
  }

  lemma TwinsBind(n: Places, b: Binder, c: Binder, j: nat, key: u64)
    requires SamePlaces(n) && Twins(n, b, c) && j < |n.calls| && UsesParameters(n.calls[j].command)
    ensures Binds(b, n.x[j], key) == Binds(c, n.y[j], key)
  {
    var i :| MadeBy(n, b, c, i);
  }

  lemma {:induction false} LookupAlike(n: Places, bs: seq<Binder>, cs: seq<Binder>, j: nat, key: u64)
    requires SamePlaces(n) && Alike(n, bs, cs) && j < |n.calls| && UsesParameters(n.calls[j].command)
    ensures Lookup(bs, n.x[j], key) == Lookup(cs, n.y[j], key)
  {
    if bs != [] {
      TwinsBind(n, bs[0], cs[0], j, key);
      LookupAlike(n, bs[1..], cs[1..], j, key);
    }
  }

  lemma {:induction false} ReplaceAlike(n: Places, bs: seq<Binder>, cs: seq<Binder>, j: nat, key: u64, value: Range)
    requires SamePlaces(n) && Alike(n, bs, cs) && j < |n.calls| && UsesParameters(n.calls[j].command)
    ensures Alike(n, Replace(bs, n.x[j], key, value), Replace(cs, n.y[j], key, value))
  {
    if bs != [] {
      TwinsBind(n, bs[0], cs[0], j, key);
      var i :| MadeBy(n, bs[0], cs[0], i);
      assert MadeBy(n, bs[0].(value := value), cs[0].(value := value), i);
      ReplaceAlike(n, bs[1..], cs[1..], j, key, value);
    }
  }

  lemma {:induction false} AppendAlike(n: Places, bs: seq<Binder>, cs: seq<Binder>, b: Binder, c: Binder)
    requires |n.x| == |n.y| == |n.calls| && Alike(n, bs, cs) && Twins(n, b, c)
    ensures Alike(n, bs + [b], cs + [c])
  {
    if bs == [] {
      assert bs + [b] == [b] && cs + [c] == [c];
    } else {
      assert (bs + [b])[1..] == bs[1..] + [b] && (cs + [c])[1..] == cs[1..] + [c];
      AppendAlike(n, bs[1..], cs[1..], b, c);
    }
  }

  lemma BindAlike(n: Places, bs: seq<Binder>, cs: seq<Binder>, j: nat, a: Assign)
    requires SamePlaces(n) && Alike(n, bs, cs) && j < |n.calls| && UsesParameters(n.calls[j].command)
    requires a.target == n.x[j]
    ensures var o, q := Bind(bs, a), Bind(cs, a.(target := n.y[j]));
            o.Some? == q.Some? && (o.Some? ==> Alike(n, o.value, q.value))
  {
    assert |n.x| == |n.y| == |n.calls|;
    assert |bs| == |cs|;
    hide SamePlaces, Alike, Lookup, Replace;
    LookupAlike(n, bs, cs, j, a.key);
    ReplaceAlike(n, bs, cs, j, a.key, a.value);
    var b := Binder(a.target, a.key % TWO32, a.value);
    assert MadeBy(n, b, b.(target := n.y[j]), j);
    AppendAlike(n, bs, cs, b, b.(target := n.y[j]));
  }

  /** The same requests for another address. */
  predicate Retargeted(l: Listing<Assign>, x: Address, k: Listing<Assign>, y: Address)
  {
    && |l.all| == |k.all| && l.complete == k.complete
    && forall i | 0 <= i < |l.all| :: l.all[i].target == x && k.all[i] == l.all[i].(target := y)
  }

  lemma {:induction false} AssignsRetargeted(c: Cursor, x: Address, y: Address, isOverride: bool)
    ensures Retargeted(Assigns(c, x, isOverride), x, Assigns(c, y, isOverride), y)
    decreases |Data(c.r)|
  {
    AssignsNext(c, x, isOverride);
    AssignsNext(c, y, isOverride);
    hide Assigns, GetUint, GetItem, Data, Retargeted;
    if !AtEnd(c) && GetUint(c).Got? && GetItem(GetUint(c).next).Got? {
      var key, item := GetUint(c).value, GetItem(GetUint(c).next);
      AssignsRetargeted(item.next, x, y, isOverride);
      RetargetedCons(Assign(x, key, item.value, isOverride), Assigns(item.next, x, isOverride), x,
                     Assigns(item.next, y, isOverride), y);
    } else {
      RetargetedNone(x, y);
    }
  }

  lemma RetargetedCons(a: Assign, l: Listing<Assign>, x: Address, k: Listing<Assign>, y: Address)
    requires a.target == x && Retargeted(l, x, k, y)
    ensures Retargeted(Cons(a, l), x, Cons(a.(target := y), k), y)
  {
  }

  lemma RetargetedNone(x: Address, y: Address)
    ensures Retargeted(Listing([], true), x, Listing([], true), y)
    ensures Retargeted(Listing([], false), x, Listing([], false), y)
  {
  }

  lemma {:induction false} BindAllAlike(n: Places, bs: seq<Binder>, cs: seq<Binder>, j: nat,
                                        l: Listing<Assign>, k: Listing<Assign>)
    requires SamePlaces(n) && Alike(n, bs, cs) && j < |n.calls| && UsesParameters(n.calls[j].command)
    requires Retargeted(l, n.x[j], k, n.y[j])
    ensures BindAll(bs, l).0 == BindAll(cs, k).0 && Alike(n, BindAll(bs, l).1, BindAll(cs, k).1)
    decreases |l.all|
  {
    hide SamePlaces, Bind, Alike;
    if l.all != [] {
      BindAlike(n, bs, cs, j, l.all[0]);
      if Bind(bs, l.all[0]).Some? {
        BindAllAlike(n, Bind(bs, l.all[0]).value, Bind(cs, k.all[0]).value, j,
                     Listing(l.all[1..], l.complete), Listing(k.all[1..], k.complete));
      }
    }
  }

  /** The same calls and effects, and the same parameters but for the addresses they are kept under. */
  ghost predicate SameProgress(n: Places, p: Progress, q: Progress)
    requires |n.x| == |n.y| == |n.calls|
  {
    p.calls == q.calls && p.effects == q.effects && Alike(n, p.bindings, q.bindings)
  }

  /** The calls are placed by `cb` in the one way and by `cb'` in the other, and the callbacks are the same. */
  ghost predicate PlacedBy(n: Places, cb: Platform, cb': Platform)
  {
    && |n.x| == |n.y| == |n.calls| && cb.answer == cb'.answer
    && forall i | 0 <= i < |n.calls| :: n.x[i] == cb.at(i, n.calls[i].local) && n.y[i] == cb'.at(i, n.calls[i].local)
  }

  lemma SetAlike(n: Places, bs: seq<Binder>, cs: seq<Binder>, j: nat, param: Range, isOverride: bool)
    requires SamePlaces(n) && Alike(n, bs, cs) && j < |n.calls| && UsesParameters(n.calls[j].command)
    ensures var (ok, r) := SetParameters(bs, n.x[j], param, isOverride);
            var (ok', r') := SetParameters(cs, n.y[j], param, isOverride);
            ok == ok' && Alike(n, r, r')
  {
    assert |n.x| == |n.y| == |n.calls|;
    hide SamePlaces, Alike, BindAll, GetMap, Assigns, Retargeted;
    if GetMap(Toplevel(param)).Got? {
      AssignsRetargeted(GetMap(Toplevel(param)).value, n.x[j], n.y[j], isOverride);
    }
    BindAllAlike(n, bs, cs, j, Requested(n.x[j], param, isOverride), Requested(n.y[j], param, isOverride));
  }

  lemma HandleAlike(n: Places, cb: Platform, cb': Platform, m: Manifest, p: Progress, q: Progress, c: Call)
    requires SamePlaces(n) && PlacedBy(n, cb, cb') && SameProgress(n, p, q)
    requires |p.calls| < |n.calls| && c == n.calls[|p.calls|]
    ensures Handle(cb, m, p, c).0 == Handle(cb', m, q, c).0
    ensures SameProgress(n, Handle(cb, m, p, c).1, Handle(cb', m, q, c).1)
  {
    hide SamePlaces, Alike, SetParameters, Lookup, GetTstr, FieldOf, Data;
    var j := |p.calls|;
    if Sets(c.command) {
      SetAlike(n, p.bindings, q.bindings, j, c.param, c.command == OVERRIDE_PARAMETERS);
    } else if c.command == FETCH {
      LookupAlike(n, p.bindings, q.bindings, j, PARAMETER_URI);
    }
  }

  lemma {:induction false} PerformAlike(n: Places, cb: Platform, cb': Platform, m: Manifest,
                                        p: Progress, q: Progress, plan: Plan)
    requires SamePlaces(n) && PlacedBy(n, cb, cb') && SameProgress(n, p, q) && p.calls + plan.all == n.calls
    ensures var s, r := Perform(cb, m, p, plan), Perform(cb', m, q, plan);
            s.status == r.status && s.left == r.left && SameProgress(n, s.progress, r.progress)
            && s.progress.calls + s.left.all == n.calls
    decreases |plan.all|
  {
    PerformFollowsPlan(cb, m, p, plan);
    hide SamePlaces, PlacedBy, Handle, Alike;
    if plan.all != [] {
      HandleAlike(n, cb, cb', m, p, q, plan.all[0]);
      HandleCalls(cb, m, p, plan.all[0]);
      var (reply, p') := Handle(cb, m, p, plan.all[0]);
      assert p.calls + [plan.all[0]] + plan.all[1..] == p.calls + plan.all;
      if reply.ok && !reply.suspend {
        PerformAlike(n, cb, cb', m, p', Handle(cb', m, q, plan.all[0]).1, Listing(plan.all[1..], plan.complete));
      }
    }
  }

  lemma HandleCalls(cb: Platform, m: Manifest, p: Progress, c: Call)
    ensures Handle(cb, m, p, c).1.calls == p.calls + [c]
  {
    hide FetchEffect, SetParameters;
  }

  lemma {:induction false} RunOutAlike(n: Places, cb: Platform, cb': Platform, m: Manifest,
                                       p: Progress, q: Progress, plan: Plan)
    requires SamePlaces(n) && PlacedBy(n, cb, cb') && SameProgress(n, p, q) && p.calls + plan.all == n.calls
    ensures var s, r := RunOut(cb, m, p, plan), RunOut(cb', m, q, plan);
            s.status == r.status && s.left == r.left && SameProgress(n, s.progress, r.progress)
    decreases |plan.all|
  {
    hide SamePlaces, PlacedBy, Perform, Alike;
    PerformAlike(n, cb, cb', m, p, q, plan);
    var s := Perform(cb, m, p, plan);
    if s.status == SUSPENDED {
      RunOutAlike(n, cb, cb', m, s.progress, Perform(cb', m, q, plan).progress, s.left);
    }
  }

  /** The platform on which every call's parameters are kept under its target. */
  function Intended(cb: Platform, plan: Plan): Platform
  {
    cb.(at := (k: nat, l: Local) => if k < |plan.all| then Own(plan.all[k].target) else 0)
  }

  /** Any two calls that parameters matter to have their targets at the same address just if these are the same. */
  ghost predicate KeepsApart(cb: Platform, plan: Plan)
  {
    forall i, j | 0 <= i < |plan.all| && 0 <= j < |plan.all|
      && UsesParameters(plan.all[i].command) && UsesParameters(plan.all[j].command) ::
      cb.at(i, plan.all[i].local) == cb.at(j, plan.all[j].local) <==> plan.all[i].target == plan.all[j].target
  }

  /** On such a platform a run is what it is meant to be: it makes the same calls, has the same effects and comes to the
      same end as with parameters kept under their targets, interrupted or not. */
  lemma RunsAsIntended(cb: Platform, m: Manifest, plan: Plan)
    requires KeepsApart(cb, plan)
    ensures var s, r := Perform(cb, m, START, plan), Perform(Intended(cb, plan), m, START, plan);
            && s.progress.calls == r.progress.calls && s.progress.effects == r.progress.effects
            && s.status == r.status && s.left == r.left
    ensures var s, r := RunOut(cb, m, START, plan), RunOut(Intended(cb, plan), m, START, plan);
            && s.progress.calls == r.progress.calls && s.progress.effects == r.progress.effects
            && s.status == r.status && s.left == r.left
  {
    var cs := plan.all;
    var n := Places(cs,
                    seq(|cs|, i requires 0 <= i < |cs| => cb.at(i, cs[i].local)),
                    seq(|cs|, i requires 0 <= i < |cs| => Own(cs[i].target)));
    hide Own;
    forall i, j | 0 <= i < |cs| && 0 <= j < |cs| ensures n.y[i] == n.y[j] <==> cs[i].target == cs[j].target {
      OwnIsOwn(cs[i].target, cs[j].target);
    }
    assert SamePlaces(n) && PlacedBy(n, cb, Intended(cb, plan));
    assert START.calls + plan.all == n.calls;
    hide SamePlaces, PlacedBy, Perform, RunOut;
    PerformAlike(n, cb, Intended(cb, plan), m, START, START, plan);
    RunOutAlike(n, cb, Intended(cb, plan), m, START, START, plan);
  }

  /** The three local variables stay where they are, each at an address of its own. */
  ghost predicate FixedLocals(cb: Platform)
  {
    forall i: nat, j: nat, k: Local, l: Local :: cb.at(i, k) == cb.at(j, l) <==> k == l
  }

  /** Then whether a run is as intended can be read off its plan: no local variable may take two targets, and no target
      two local variables. */
  lemma FixedLocalsKeepApart(cb: Platform, plan: Plan)
    requires FixedLocals(cb)
    ensures KeepsApart(cb, plan) <==>
            forall i, j | 0 <= i < |plan.all| && 0 <= j < |plan.all|
              && UsesParameters(plan.all[i].command) && UsesParameters(plan.all[j].command) ::
              plan.all[i].local == plan.all[j].local <==> plan.all[i].target == plan.all[j].target
  {
  }
}
