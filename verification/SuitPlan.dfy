/** What running a manifest means, without a program counter or a stack. A manifest's command sequences are a
    list of handler calls, fixed before any of them is made; performing them is one pass over that list. */
module SuitPlan {
  import opened Wrappers
  import opened Bytes
  import opened CborReader
  import opened SuitEnvelope
  import opened SuitManifest
  import opened SuitBindings

  const CONDITION_VENDOR_IDENTIFIER: u64 := 1
  const CONDITION_CLASS_IDENTIFIER: u64 := 2
  const CONDITION_IMAGE_MATCH: u64 := 3
  const SET_COMPONENT_INDEX: u64 := 12
  const SET_DEPENDENCY_INDEX: u64 := 13
  const PROCESS_DEPENDENCY: u64 := 18
  const SET_PARAMETERS: u64 := 19
  const OVERRIDE_PARAMETERS: u64 := 20
  const FETCH: u64 := 21
  const PARAMETER_URI: u64 := 21

  /** Which objects the next command applies to. */
  datatype Selection = Selection(isComponent: bool, param: Range)

  /** A component or dependency, by its index in the manifest. */
  datatype Target = Target(isComponent: bool, index: nat)

  /** The local variables that a target lies in while its handler runs: that of a sequence step, for one object, and
      those of a command step, for all objects and for listed ones. */
  datatype Local = OneLocal | AllLocal | ListedLocal

  datatype Located = Located(target: Target, local: Local)

  /** One call of a command handler. */
  datatype Call = Call(command: u64, target: Target, param: Range, local: Local)

  /** One command of a sequence. */
  datatype Step = Step(command: u64, param: Range)

  /** The calls still to be made, and whether the commands after them can all be decoded. */
  type Plan = Listing<Call>

  const NOTHING: Plan := Listing([], true)
  const BROKEN: Plan := Listing([], false)

  function Then(p: Plan, q: Plan): Plan
  {
    if p.complete then Listing(p.all + q.all, q.complete) else p
  }

  lemma ThenAssociates(p: Plan, q: Plan, r: Plan)
    ensures Then(Then(p, q), r) == Then(p, Then(q, r))
  {
    assert p.all + q.all + r.all == p.all + (q.all + r.all);
  }

  lemma NothingThen(p: Plan)
    ensures Then(NOTHING, p) == p && Then(p, NOTHING) == p && Then(BROKEN, p) == BROKEN
  {
    assert [] + p.all == p.all && p.all + [] == p.all;
  }

  /** The commands with a handler, and those among them that a common sequence may contain. */
  predicate Handled(command: u64, isCommon: bool)
  {
    command in {CONDITION_VENDOR_IDENTIFIER, CONDITION_CLASS_IDENTIFIER, CONDITION_IMAGE_MATCH,
                SET_PARAMETERS, OVERRIDE_PARAMETERS}
    || (!isCommon && command in {PROCESS_DEPENDENCY, FETCH})
  }

  function ObjectCount(m: Manifest, isComponent: bool): nat
  {
    if isComponent then |m.common.components| else m.common.nDependencies
  }

  /** The objects from number `i` on. */
  function ObjectsFrom(m: Manifest, isComponent: bool, i: nat): Listing<Located>
    decreases ObjectCount(m, isComponent) - i
  {
    if i < ObjectCount(m, isComponent) then
      Cons(Located(Target(isComponent, i), AllLocal), ObjectsFrom(m, isComponent, i + 1))
    else Listing([], true)
  }

  function OneObject(m: Manifest, isComponent: bool, i: nat): Listing<Located>
  {
    if i < ObjectCount(m, isComponent) then Listing([Located(Target(isComponent, i), OneLocal)], true)
    else Listing([], false)
  }

  /** The objects an array of indices lists. */
  function ListedObjects(m: Manifest, isComponent: bool, c: Cursor): Listing<Located>
    decreases |Data(c.r)|
  {
    if AtEnd(c) then Listing([], true)
    else if GetUint(c).Missing? || GetUint(c).value >= ObjectCount(m, isComponent) then Listing([], false)
    else
      Cons(Located(Target(isComponent, GetUint(c).value), ListedLocal), ListedObjects(m, isComponent, GetUint(c).next))
  }

  /** The selected objects, in order: all of them for true, none for false, one for an index, those listed for
      an array (sections 6.4 and 6.5 of draft-ietf-suit-manifest). */
  function Selected(m: Manifest, s: Selection): Listing<Located>
  {
    var c := Toplevel(s.param);
    if GetBool(c).Got? then
      if GetBool(c).value then ObjectsFrom(m, s.isComponent, 0) else Listing([], true)
    else if GetUint(c).Got? then OneObject(m, s.isComponent, GetUint(c).value)
    else if GetArray(c).Got? then ListedObjects(m, s.isComponent, GetArray(c).value)
    else Listing([], false)
  }

  function CallOn(step: Step, o: Located): Call { Call(step.command, o.target, step.param, o.local) }

  /** The calls of one command on these objects. */
  function CallsOn(step: Step, objects: Listing<Located>): (p: Plan)
    ensures |p.all| == |objects.all| && p.complete == objects.complete
    ensures forall i | 0 <= i < |p.all| :: p.all[i] == CallOn(step, objects.all[i])
  {
    Listing(seq(|objects.all|, i requires 0 <= i < |objects.all| => CallOn(step, objects.all[i])), objects.complete)
  }

  lemma CallsOnFirst(step: Step, o: Located, rest: Listing<Located>)
    ensures CallsOn(step, Cons(o, rest)) == Cons(CallOn(step, o), CallsOn(step, rest))
  {
  }

  /** The commands of a sequence, as far as they can be decoded. */
  function Steps(c: Cursor): Listing<Step>
    decreases |Data(c.r)|
  {
    if AtEnd(c) then Listing([], true)
    else if GetUint(c).Missing? || GetItem(GetUint(c).next).Missing? then Listing([], false)
    else Cons(Step(GetUint(c).value, GetItem(GetUint(c).next).value), Steps(GetItem(GetUint(c).next).next))
  }

  /** The calls a list of commands amounts to, and the selection they leave behind. */
  function Expand(m: Manifest, steps: Listing<Step>, isCommon: bool, s: Selection): (Plan, Selection)
    decreases |steps.all|
  {
    if steps.all == [] then (Listing([], steps.complete), s) else
    var step := steps.all[0];
    var rest := Listing(steps.all[1..], steps.complete);
    if step.command == SET_COMPONENT_INDEX then Expand(m, rest, isCommon, Selection(true, step.param))
    else if step.command == SET_DEPENDENCY_INDEX then Expand(m, rest, isCommon, Selection(false, step.param))
    else if !Handled(step.command, isCommon) then (BROKEN, s)
    else
      var (p, s') := Expand(m, rest, isCommon, s);
      (Then(CallsOn(step, Selected(m, s)), p), s')
  }

  /** The calls of a common sequence, then those of the target sequence. */
  function Program(m: Manifest, common: Cursor, target: Cursor, s: Selection): Plan
  {
    var (p, s') := Expand(m, Steps(common), true, s);
    Then(p, Expand(m, Steps(target), false, s').0)
  }

  const EMPTY_ARRAY: Range := Whole([0x80])
  const CBOR_TRUE: Range := Whole([0xF5])

  function OrEmpty(r: Range): Range { if r.Null? then EMPTY_ARRAY else r }

  function InstallBody(m: Manifest): Range
    requires !m.install.Severed?
  {
    if m.install.Body? then m.install.body else Null
  }

  /** Both sequences of an install are arrays. */
  predicate Enters(m: Manifest)
    requires !m.install.Severed?
  {
    GetArray(Toplevel(OrEmpty(InstallBody(m)))).Got? && GetArray(Toplevel(OrEmpty(m.common.commandSequence))).Got?
  }

  /** Everything an install of the manifest calls for. */
  function InstallPlan(m: Manifest): Plan
    requires !m.install.Severed? && Enters(m)
  {
    Program(m, GetArray(Toplevel(OrEmpty(m.common.commandSequence))).value,
            GetArray(Toplevel(OrEmpty(InstallBody(m)))).value, Selection(true, CBOR_TRUE))
  }

  // Performing the calls.

  /** What the agent is asked to do: store what the envelope holds, or fetch and store. */
  datatype Effect = Stored(target: Target, body: Range) | Fetched(target: Target, uri: Range)

  /** What a callback answers: whether it succeeded, and whether it suspended the runner. */
  datatype Reply = Reply(ok: bool, suspend: bool)

  /** What a run depends on besides its manifest: the callbacks' answer to the last of these effects, which may depend
      on all of them, and the address of a local variable while a handler is called for the n-th time. */
  datatype Platform = Platform(answer: seq<Effect> -> Reply, at: (nat, Local) -> Address)

  const SUCCEED: Reply := Reply(true, false)
  const FAIL: Reply := Reply(false, false)

  /** What a run has done so far. */
  datatype Progress = Progress(bindings: seq<Binder>, calls: seq<Call>, effects: seq<Effect>)

  const START: Progress := Progress([], [], [])

  /** The effect a fetch for a target asks for, if the URI parameter bound to the target's address is a text that names
      something. */
  function FetchEffect(m: Manifest, bindings: seq<Binder>, address: Address, target: Target): Option<Effect>
  {
    match Lookup(bindings, address, PARAMETER_URI)
    case None => None
    case Some(value) =>
      var g := GetTstr(Toplevel(value));
      if g.Missing? || Data(g.value) == [] then None
      else if Data(g.value)[0] == '#' as int then
        match FieldOf(m.envelope, Name(g.value)) case None => None case Some(body) => Some(Stored(target, body))
      else Some(Fetched(target, g.value))
  }

  predicate Sets(command: u64) { command == SET_PARAMETERS || command == OVERRIDE_PARAMETERS }

  /** The outcome of one handler call. */
  function Handle(cb: Platform, m: Manifest, p: Progress, call: Call): (Reply, Progress)
  {
    var q := p.(calls := p.calls + [call]);
    var address := cb.at(|p.calls|, call.local);
    if Sets(call.command) then
      var (ok, bindings) := SetParameters(p.bindings, address, call.param, call.command == OVERRIDE_PARAMETERS);
      (Reply(ok, false), q.(bindings := bindings))
    else if call.command == FETCH then
      match FetchEffect(m, p.bindings, address, call.target)
      case None => (FAIL, q)
      case Some(e) => (cb.answer(p.effects + [e]), q.(effects := p.effects + [e]))
    else (SUCCEED, q)
  }

  datatype Status = FINISHED | FAILED | SUSPENDED

  datatype Halt = Halt(progress: Progress, status: Status, left: Plan)

  /** Make the calls in order, until one fails or suspends or none is left. */
  function Perform(cb: Platform, m: Manifest, p: Progress, plan: Plan): (s: Halt)
    ensures s.status == SUSPENDED ==> |s.left.all| < |plan.all|
    decreases |plan.all|
  {
    if plan.all == [] then Halt(p, if plan.complete then FINISHED else FAILED, plan) else
    var (reply, q) := Handle(cb, m, p, plan.all[0]);
    var left := Listing(plan.all[1..], plan.complete);
    if !reply.ok then Halt(q, FAILED, left)
    else if reply.suspend then Halt(q, SUSPENDED, left)
    else Perform(cb, m, q, left)
  }

  // What the plan says about every run.

  /** Only the target sequence fetches: a call that stores or fetches comes after all of the common sequence. */
  lemma {:induction false} CommonNeverFetches(m: Manifest, steps: Listing<Step>, s: Selection)
    ensures forall c <- Expand(m, steps, true, s).0.all :: c.command != FETCH && c.command != PROCESS_DEPENDENCY
    decreases |steps.all|
  {
    hide Selected, Handle;
    if steps.all != [] {
      var step := steps.all[0];
      var rest := Listing(steps.all[1..], steps.complete);
      if step.command == SET_COMPONENT_INDEX {
        CommonNeverFetches(m, rest, Selection(true, step.param));
      } else if step.command == SET_DEPENDENCY_INDEX {
        CommonNeverFetches(m, rest, Selection(false, step.param));
      } else {
        CommonNeverFetches(m, rest, s);
      }
    }
  }

  /** A run makes the planned calls from the first on, and leaves the others: it neither skips, repeats nor
      reorders any. It finishes only when every call has been made and every command could be decoded; it fails
      only at a call that it made, or where the plan breaks off. */
  lemma {:induction false} PerformFollowsPlan(cb: Platform, m: Manifest, p: Progress, plan: Plan)
    ensures var s := Perform(cb, m, p, plan);
            s.progress.calls + s.left.all == p.calls + plan.all && s.left.complete == plan.complete
            && (s.status == FINISHED ==> s.left == NOTHING)
            && (s.status == FAILED ==> s.left == BROKEN || |s.left.all| < |plan.all|)
            && (s.status == SUSPENDED ==> |s.left.all| < |plan.all|)
    decreases |plan.all|
  {
    hide FetchEffect, SetParameters;
    if plan.all != [] {
      var (reply, q) := Handle(cb, m, p, plan.all[0]);
      assert q.calls == p.calls + [plan.all[0]];
      assert p.calls + [plan.all[0]] + plan.all[1..] == p.calls + plan.all;
      if reply.ok && !reply.suspend {
        PerformFollowsPlan(cb, m, q, Listing(plan.all[1..], plan.complete));
      }
    } else {
      assert p.calls + plan.all == p.calls;
    }
  }

  /** Run, and resume after every suspension, until the run finishes or fails. */
  function RunOut(cb: Platform, m: Manifest, p: Progress, plan: Plan): Halt
    decreases |plan.all|
  {
    var s := Perform(cb, m, p, plan);
    if s.status == SUSPENDED then RunOut(cb, m, s.progress, s.left) else s
  }

  /** Two platforms that differ at most in when their callbacks suspend. */
  ghost predicate SameButSuspending(cb: Platform, cb': Platform)
  {
    cb.at == cb'.at && forall h: seq<Effect> :: cb.answer(h).ok == cb'.answer(h).ok
  }

  /** One call on, a resumed run is where an uninterrupted one would be. */
  lemma RunOutOneCall(cb: Platform, m: Manifest, p: Progress, plan: Plan)
    requires plan.all != []
    ensures var (reply, q) := Handle(cb, m, p, plan.all[0]);
            var left := Listing(plan.all[1..], plan.complete);
            RunOut(cb, m, p, plan) == if reply.ok then RunOut(cb, m, q, left) else Halt(q, FAILED, left)
  {
    hide Handle;
  }

  lemma HandleButSuspending(cb: Platform, cb': Platform, m: Manifest, p: Progress, c: Call)
    requires SameButSuspending(cb, cb')
    ensures Handle(cb, m, p, c).0.ok == Handle(cb', m, p, c).0.ok && Handle(cb, m, p, c).1 == Handle(cb', m, p, c).1
  {
    hide FetchEffect, SetParameters;
  }

  /** Suspension is invisible: whatever pattern of suspensions the callbacks choose, as long as each is resumed,
      the calls, the bindings, the effects and the outcome are the same. */
  lemma {:induction false} SuspensionIsInvisible(cb: Platform, cb': Platform, m: Manifest, p: Progress, plan: Plan)
    requires SameButSuspending(cb, cb')
    ensures RunOut(cb, m, p, plan) == RunOut(cb', m, p, plan)
    decreases |plan.all|
  {
    hide Handle, SameButSuspending;
    if plan.all != [] {
      RunOutOneCall(cb, m, p, plan);
      RunOutOneCall(cb', m, p, plan);
      HandleButSuspending(cb, cb', m, p, plan.all[0]);
      var (reply, q) := Handle(cb, m, p, plan.all[0]);
      SuspensionIsInvisible(cb, cb', m, q, Listing(plan.all[1..], plan.complete));
    }
  }

  ghost predicate NeverSuspends(cb: Platform)
  {
    forall h: seq<Effect> :: !cb.answer(h).suspend
  }

  /** In particular, an interrupted and resumed run is one pass by callbacks that never suspend. */
  lemma InterruptedIsUninterrupted(cb: Platform, cb': Platform, m: Manifest, p: Progress, plan: Plan)
    requires SameButSuspending(cb, cb') && NeverSuspends(cb')
    ensures RunOut(cb, m, p, plan) == Perform(cb', m, p, plan)
  {
    hide NeverSuspends, SameButSuspending, Perform;
    SuspensionIsInvisible(cb, cb', m, p, plan);
    NeverSuspended(cb', m, p, plan);
  }

  lemma {:induction false} NeverSuspended(cb: Platform, m: Manifest, p: Progress, plan: Plan)
    requires NeverSuspends(cb)
    ensures Perform(cb, m, p, plan).status != SUSPENDED
    decreases |plan.all|
  {
    hide FetchEffect, SetParameters;
    if plan.all != [] {
      var (reply, q) := Handle(cb, m, p, plan.all[0]);
      NeverSuspended(cb, m, q, Listing(plan.all[1..], plan.complete));
    }
  }

  /** The selection true is every object, once and in order. */
  lemma {:induction false} AllObjects(m: Manifest, isComponent: bool, i: nat)
    requires i <= ObjectCount(m, isComponent)
    ensures var l := ObjectsFrom(m, isComponent, i);
            l.complete && |l.all| == ObjectCount(m, isComponent) - i
            && forall j | 0 <= j < |l.all| :: l.all[j] == Located(Target(isComponent, i + j), AllLocal)
    decreases ObjectCount(m, isComponent) - i
  {
    if i < ObjectCount(m, isComponent) {
      AllObjects(m, isComponent, i + 1);
    }
  }

  /** All the parameter requests of these calls, in order, when `n` calls have been made before: set is command 19 and
      override command 20. */
  function Requests(cb: Platform, n: nat, calls: seq<Call>): Listing<Assign>
    decreases |calls|
  {
    if calls == [] then Listing([], true) else
    var c := calls[0];
    var rest := Requests(cb, n + 1, calls[1..]);
    if c.command == 19 || c.command == 20 then
      var l := Requested(cb.at(n, c.local), c.param, c.command == 20);
      if l.complete then Listing(l.all + rest.all, rest.complete) else l
    else rest
  }

  lemma {:induction false} BindAllThen(bs: seq<Binder>, a: Listing<Assign>, b: Listing<Assign>)
    requires BindAll(bs, a).0
    ensures a.complete && BindAll(bs, Listing(a.all + b.all, b.complete)) == BindAll(BindAll(bs, a).1, b)
    decreases |a.all|
  {
    if a.all == [] {
      assert a.all + b.all == b.all;
    } else {
      assert (a.all + b.all)[1..] == a.all[1..] + b.all;
      BindAllThen(Bind(bs, a.all[0]).value, Listing(a.all[1..], a.complete), b);
    }
  }

  /** The parameters in force are those the calls made so far asked for, in order. */
  lemma {:induction false} BindingsAreRequested(cb: Platform, m: Manifest, p: Progress, plan: Plan)
    requires Perform(cb, m, p, plan).status != FAILED
    ensures var s := Perform(cb, m, p, plan);
            var made := |plan.all| - |s.left.all|;
            0 <= made <= |plan.all|
            && BindAll(p.bindings, Requests(cb, |p.calls|, plan.all[..made])) == (true, s.progress.bindings)
    decreases |plan.all|
  {
    hide FetchEffect, Requested;
    var s := Perform(cb, m, p, plan);
    var made := |plan.all| - |s.left.all|;
    if plan.all != [] {
      var c := plan.all[0];
      var (reply, q) := Handle(cb, m, p, c);
      if !reply.suspend {
        BindingsAreRequested(cb, m, q, Listing(plan.all[1..], plan.complete));
        assert plan.all[..made][1..] == plan.all[1..][..made - 1];
      } else {
        assert plan.all[..made][1..] == [];
      }
      if Sets(c.command) {
        BindAllThen(p.bindings, Requested(cb.at(|p.calls|, c.local), c.param, c.command == OVERRIDE_PARAMETERS),
                    Requests(cb, |p.calls| + 1, plan.all[..made][1..]));
      }
    }
  }
}
