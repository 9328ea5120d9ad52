/** The SUIT command runner: lib/suit/lib/suit.c. A machine with a program counter, a stack of continuations, a
    current selection and a parameter table, stepped in place; what it does is the plan of `SuitPlan`. */
module SuitRunner {
  import opened Wrappers
  import opened Bytes
  import opened CborReader
  import opened SuitEnvelope
  import opened SuitManifest
  import opened SuitBindings
  import opened SuitPlan

  const SUIT_STACK_MAX: nat := 8

  datatype CommandSequence = DEPENDENCY_RESOLUTION | PAYLOAD_FETCH | INSTALL | VALIDATE | LOAD | RUN

  /** The objects a command has still to be applied to: all from an index on, or those listed. */
  datatype Remaining = AllFrom(index: nat) | Listed(items: Cursor)

  /** What a selection turns out to be when it is read. */
  datatype Choice = Nobody | One(index: nat) | Several(remaining: Remaining) | Unreadable

  function RemainingObjects(m: Manifest, isComponent: bool, r: Remaining): Listing<Located>
  {
    match r case AllFrom(i) => ObjectsFrom(m, isComponent, i) case Listed(c) => ListedObjects(m, isComponent, c)
  }

  function Chosen(m: Manifest, isComponent: bool, choice: Choice): Listing<Located>
  {
    match choice
    case Nobody => Listing([], true)
    case One(i) => OneObject(m, isComponent, i)
    case Several(r) => RemainingObjects(m, isComponent, r)
    case Unreadable => Listing([], false)
  }

  datatype Continuation =
    | Exit
    | Sequence(common: Cursor, target: Cursor)
    | TryEntry(entries: Cursor)
    | Command(command: u64, param: Range, isComponent: bool, remaining: Remaining)

  /** The calls a command continuation has still to make. */
  function CommandPlan(m: Manifest, pc: Continuation): Plan
    requires pc.Command?
  {
    CallsOn(Step(pc.command, pc.param), RemainingObjects(m, pc.isComponent, pc.remaining))
  }

  /** The continuations that a run goes through: nothing left to do, inside a sequence, inside a command. */
  predicate Shape(pc: Continuation, stack: seq<Continuation>, s: Selection)
  {
    match pc
    case Exit => stack == []
    case Sequence(_, _) => stack == [Exit]
    case TryEntry(_) => false
    case Command(command, _, isComponent, _) =>
      && |stack| == 2 && stack[0] == Exit && stack[1].Sequence?
      && Handled(command, !AtEnd(stack[1].common)) && isComponent == s.isComponent
  }

  /** The calls still to be made from here. */
  function RestOf(m: Manifest, pc: Continuation, stack: seq<Continuation>, s: Selection): Plan
    requires Shape(pc, stack, s)
  {
    match pc
    case Exit => NOTHING
    case Sequence(common, target) => Program(m, common, target, s)
    case Command(_, _, _, _) => Then(CommandPlan(m, pc), Program(m, stack[1].common, stack[1].target, s))
  }

  /** The calls to be made from a command on, when `pc` is what comes after it. */
  function FromCommand(m: Manifest, command: u64, param: Range, isCommon: bool, pc: Continuation, s: Selection): Plan
    requires pc.Sequence?
  {
    if command == SET_COMPONENT_INDEX then Program(m, pc.common, pc.target, Selection(true, param))
    else if command == SET_DEPENDENCY_INDEX then Program(m, pc.common, pc.target, Selection(false, param))
    else if !Handled(command, isCommon) then BROKEN
    else Then(CallsOn(Step(command, param), Selected(m, s)), Program(m, pc.common, pc.target, s))
  }

  /** Reading one command of the sequences takes its share off the plan. */
  lemma ProgramStep(m: Manifest, common: Cursor, target: Cursor, s: Selection)
    ensures AtEnd(common) && AtEnd(target) ==> Program(m, common, target, s) == NOTHING
    ensures !(AtEnd(common) && AtEnd(target)) ==>
              var isCommon := !AtEnd(common);
              var k := GetUint(if isCommon then common else target);
              if k.Missing? || GetItem(k.next).Missing? then Program(m, common, target, s) == BROKEN
              else
                var v := GetItem(k.next);
                var pc := if isCommon then Sequence(v.next, target) else Sequence(common, v.next);
                Program(m, common, target, s) == FromCommand(m, k.value, v.value, isCommon, pc, s)
  {
    hide GetUint, GetItem, Selected, CallsOn, Handled, Then, Data;
    StepsNext(common);
    StepsNext(target);
    if !AtEnd(common) {
      var k := GetUint(common);
      if k.Got? && GetItem(k.next).Got? {
        ExpandNext(m, Step(k.value, GetItem(k.next).value), Steps(GetItem(k.next).next), true, s);
        var (p, s') := Expand(m, Steps(GetItem(k.next).next), true, s);
        var q := Expand(m, Steps(target), false, s').0;
        hide Steps, Expand;
        ThenAssociates(CallsOn(Step(k.value, GetItem(k.next).value), Selected(m, s)), p, q);
        NothingThen(q);
        NothingThen(Expand(m, Steps(target), false, s).0);
      } else {
        NothingThen(Expand(m, Steps(target), false, s).0);
      }
    } else if !AtEnd(target) {
      NothingThen(Expand(m, Steps(target), false, s).0);
      var k := GetUint(target);
      if k.Got? && GetItem(k.next).Got? {
        var step := Step(k.value, GetItem(k.next).value);
        var rest := Steps(GetItem(k.next).next);
        ExpandNext(m, step, rest, false, s);
        NothingThen(Expand(m, rest, false, s).0);
        NothingThen(Expand(m, rest, false, Selection(true, step.param)).0);
        NothingThen(Expand(m, rest, false, Selection(false, step.param)).0);
      }
    } else {
      NothingThen(NOTHING);
    }
  }

  lemma StepsNext(c: Cursor)
    ensures Steps(c) == if AtEnd(c) then Listing([], true)
                        else if GetUint(c).Missing? || GetItem(GetUint(c).next).Missing? then Listing([], false)
                        else Cons(Step(GetUint(c).value, GetItem(GetUint(c).next).value),
                                  Steps(GetItem(GetUint(c).next).next))
  {
    hide GetUint, GetItem;
  }

  lemma ExpandNext(m: Manifest, step: Step, rest: Listing<Step>, isCommon: bool, s: Selection)
    ensures Expand(m, Cons(step, rest), isCommon, s)
         == if step.command == SET_COMPONENT_INDEX then Expand(m, rest, isCommon, Selection(true, step.param))
            else if step.command == SET_DEPENDENCY_INDEX then Expand(m, rest, isCommon, Selection(false, step.param))
            else if !Handled(step.command, isCommon) then (BROKEN, s)
            else (Then(CallsOn(step, Selected(m, s)), Expand(m, rest, isCommon, s).0), Expand(m, rest, isCommon, s).1)
  {
    hide Selected, CallsOn, Handled, Then;
    assert Cons(step, rest).all[1..] == rest.all;
  }

  /** What one step of the machine does to the plan: nothing, one call, or an error where the plan breaks off. */
  ghost predicate Advances(cb: Platform, m: Manifest, p: Progress, plan: Plan,
                           q: Progress, left: Plan, failed: bool, suspended: bool)
  {
    || (q == p && !suspended && (if failed then plan == BROKEN else left == plan))
    || (plan.all != []
        && var (reply, r) := Handle(cb, m, p, plan.all[0]);
        q == r && failed == !reply.ok
        && (reply.ok ==> suspended == reply.suspend && left == Listing(plan.all[1..], plan.complete)))
  }

  /** A step that advances the plan leaves its outcome as it was. */
  lemma AdvancesPerforms(cb: Platform, m: Manifest, p: Progress, plan: Plan,
                         q: Progress, left: Plan, failed: bool, suspended: bool)
    requires Advances(cb, m, p, plan, q, left, failed, suspended)
    ensures failed ==> Perform(cb, m, p, plan).status == FAILED && Perform(cb, m, p, plan).progress == q
    ensures !failed && suspended ==> Perform(cb, m, p, plan) == Halt(q, SUSPENDED, left)
    ensures !failed && !suspended ==> Perform(cb, m, p, plan) == Perform(cb, m, q, left)
  {
    hide Handle;
  }

  /** A range the runner may hold: null, or inside the envelope or one of the two constant arrays. */
  predicate Held(m: Manifest, r: Range)
  {
    Within(r, m.envelope) || Within(r, EMPTY_ARRAY) || Within(r, CBOR_TRUE)
  }

  lemma HeldInside(m: Manifest, x: Range, y: Range)
    requires Held(m, y) && Within(x, y)
    ensures Held(m, x)
  {
  }

  predicate HeldContinuation(m: Manifest, pc: Continuation)
  {
    match pc
    case Exit => true
    case Sequence(common, target) => Held(m, common.r) && Held(m, target.r)
    case TryEntry(entries) => Held(m, entries.r)
    case Command(_, param, _, remaining) => Held(m, param) && (remaining.Listed? ==> Held(m, remaining.items.r))
  }

  predicate HeldControl(m: Manifest, pc: Continuation, stack: seq<Continuation>)
  {
    HeldContinuation(m, pc) && forall c <- stack :: HeldContinuation(m, c)
  }

  predicate HeldBindings(m: Manifest, bs: seq<Binder>) { forall b <- bs :: Held(m, b.value) }

  predicate HeldEffects(m: Manifest, es: seq<Effect>) { forall e <- es :: HeldEffect(m, e) }

  predicate HeldEffect(m: Manifest, e: Effect)
  {
    match e case Stored(_, body) => Held(m, body) case Fetched(_, uri) => Held(m, uri)
  }

  /** A lookup is the first binder that matches. */
  lemma {:induction false} FirstBinder(bs: seq<Binder>, i: nat, target: Address, key: u64, value: Range)
    requires i < |bs| && Binds(bs[i], target, key) && forall j | 0 <= j < i :: !Binds(bs[j], target, key)
    ensures Lookup(bs, target, key) == Some(bs[i].value)
    ensures Replace(bs, target, key, value) == bs[i := bs[i].(value := value)]
  {
    if i > 0 {
      FirstBinder(bs[1..], i - 1, target, key, value);
    }
  }

  lemma {:induction false} NoBinder(bs: seq<Binder>, target: Address, key: u64)
    requires forall j | 0 <= j < |bs| :: !Binds(bs[j], target, key)
    ensures Lookup(bs, target, key).None?
  {
    if bs != [] {
      NoBinder(bs[1..], target, key);
    }
  }

  class Runner {
    var manifest: Manifest
    var platform: Platform
    var selectedComponents: Range
    var selectedDependencies: Range
    var bindings: seq<Binder>
    var programCounter: Continuation
    var stack: seq<Continuation>
    var hasError: bool
    var suspended: bool
    var onResume: bool
    /** the handler calls made, and the effects asked for: what an observer sees of the run */
    var calls: seq<Call>
    var effects: seq<Effect>

    function CurrentSelection(): Selection
      reads this
    {
      if selectedComponents.Span? then Selection(true, selectedComponents) else Selection(false, selectedDependencies)
    }

    function SoFar(): Progress
      reads this
    {
      Progress(bindings, calls, effects)
    }

    ghost predicate Valid()
      reads this
    {
      && Shape(programCounter, stack, CurrentSelection())
      && selectedComponents.Span? != selectedDependencies.Span?
      && |bindings| <= SUIT_BINDER_MAX
      && Contained()
    }

    /** Every range the runner holds points into the envelope or a constant array. */
    ghost predicate Contained()
      reads this
    {
      && ManifestInside(manifest, manifest.envelope)
      && Held(manifest, selectedComponents) && Held(manifest, selectedDependencies)
      && HeldControl(manifest, programCounter, stack)
      && HeldBindings(manifest, bindings) && HeldEffects(manifest, effects)
    }

    /** The calls still to be made. */
    ghost function Rest(): Plan
      requires Shape(programCounter, stack, CurrentSelection())
      reads this
    {
      RestOf(manifest, programCounter, stack, CurrentSelection())
    }

    /** `suit_runner_init`, given a context that has a root manifest. Only the install sequence is known; when it
        or the common sequence is no array, nothing is left to do and no error is marked. */
    constructor (context: SuitContext, sequence: CommandSequence, platform: Platform)
      requires context.Root().Some? && ManifestInside(context.Root().value, context.Root().value.envelope)
      requires !context.Root().value.install.Severed?
      ensures Valid() && !hasError && !suspended && !onResume && SoFar() == START
      ensures manifest == context.Root().value && this.platform == platform
      ensures Rest() == if sequence == INSTALL && Enters(manifest) then InstallPlan(manifest) else NOTHING
    {
      hide ManifestInside, GetArray, Program;
      manifest := context.Root().value;
      this.platform := platform;
      selectedComponents, selectedDependencies := CBOR_TRUE, Null;
      bindings, calls, effects := [], [], [];
      programCounter, stack := Exit, [];
      hasError, suspended, onResume := false, false, false;
      new;
      if sequence == INSTALL {
        CallCommandSequence();
      }
    }

    /** A command sequence, if there is one, as an array to be read. */
    static method ReadSequence(ghost m: Manifest, sequence: Range) returns (ok: bool, c: Cursor)
      requires Held(m, OrEmpty(sequence))
      ensures ok == GetArray(Toplevel(OrEmpty(sequence))).Got?
      ensures ok ==> c == GetArray(Toplevel(OrEmpty(sequence))).value && Held(m, c.r)
    {
      hide GetAny, GetArray, Held;
      var r := if sequence.Null? then EMPTY_ARRAY else sequence;
      var ctx := new Context(Toplevel(r));
      ok, c := ctx.ReadArray();
      if ok {
        ArrayHeld(m, r);
      }
    }

    /** `call_command_sequence` */
    method CallCommandSequence()
      requires Valid() && programCounter == Exit && !manifest.install.Severed?
      modifies this`programCounter, this`stack
      ensures Valid()
      ensures Rest() == if Enters(manifest)
                        then Program(manifest, GetArray(Toplevel(OrEmpty(manifest.common.commandSequence))).value,
                                     GetArray(Toplevel(OrEmpty(InstallBody(manifest)))).value, CurrentSelection())
                        else NOTHING
    {
      hide GetAny, GetArray, Program, ManifestInside, Held, HeldControl, Shape, RestOf, HeldBindings, HeldEffects,
           OrEmpty;
      InstallHeld(manifest);
      ExitShape(manifest, stack, CurrentSelection());
      var ok, targetArray := ReadSequence(manifest, InstallBody(manifest));
      if !ok {
        return;
      }
      var commonArray;
      ok, commonArray := ReadSequence(manifest, manifest.common.commandSequence);
      if !ok {
        return;
      }
      SequencePushed(manifest, commonArray, targetArray, CurrentSelection());
      ok := PushProgramCounter();
      assert ok && stack == [Exit];
      programCounter := Sequence(commonArray, targetArray);
    }

    /** `push_program_counter` */
    method PushProgramCounter() returns (ok: bool)
      modifies this`stack
      ensures ok == (|old(stack)| != SUIT_STACK_MAX)
      ensures stack == if ok then old(stack) + [programCounter] else old(stack)
    {
      if |stack| == SUIT_STACK_MAX {
        return false;
      }
      stack := stack + [programCounter];
      return true;
    }

    /** `pop_program_counter` */
    method PopProgramCounter() returns (ok: bool)
      modifies this`stack, this`programCounter
      ensures ok == (|old(stack)| != 0)
      ensures ok ==> old(stack) == stack + [programCounter]
      ensures !ok ==> stack == old(stack) && programCounter == old(programCounter)
    {
      if |stack| == 0 {
        return false;
      }
      programCounter := stack[|stack| - 1];
      stack := stack[..|stack| - 1];
      return true;
    }

    /** `suit_runner_suspend` */
    method Suspend()
      modifies this`suspended, this`onResume
      ensures suspended && onResume
    {
      suspended := true;
      onResume := true;
    }

    /** `suit_runner_resume`; the on-resume callback may suspend the runner again. */
    method Resume(suspendAgain: bool)
      modifies this`suspended, this`onResume
      ensures old(hasError) || !old(suspended) ==> suspended == old(suspended) && onResume == old(onResume)
      ensures !old(hasError) && old(suspended) ==> suspended == (old(onResume) && suspendAgain)
      ensures old(Valid()) ==> Valid() && Rest() == old(Rest())
    {
      hide Shape, RestOf, ManifestInside, Held, HeldControl, HeldBindings, HeldEffects;
      if hasError {
        return;
      }
      if suspended {
        suspended := false;
        var f := onResume;
        onResume := false;
        if f && suspendAgain {
          Suspend();
        }
      }
    }

    /** `lookup_binder`: the position of the first binder that matches, or none. */
    method LookupBinder(target: Address, key: u64) returns (i: nat)
      ensures i <= |bindings|
      ensures i < |bindings| ==> Binds(bindings[i], target, key)
      ensures forall j | 0 <= j < i :: !Binds(bindings[j], target, key)
    {
      i := 0;
      while i < |bindings|
        invariant i <= |bindings| && forall j | 0 <= j < i :: !Binds(bindings[j], target, key)
      {
        if bindings[i].target == target && bindings[i].key == key {
          return;
        }
        i := i + 1;
      }
    }

    /** `set_parameter` and `alloc_binder` */
    method SetParameter(target: Address, key: u64, value: Range, isOverride: bool) returns (ok: bool)
      modifies this`bindings
      ensures var o := Bind(old(bindings), Assign(target, key, value, isOverride));
              ok == o.Some? && bindings == (if ok then o.value else old(bindings))
      ensures forall b <- bindings :: b.value == value || b in old(bindings)
      ensures |old(bindings)| <= SUIT_BINDER_MAX ==> |bindings| <= SUIT_BINDER_MAX
    {
      var i := LookupBinder(target, key);
      if i < |bindings| {
        FirstBinder(bindings, i, target, key, value);
        if isOverride {
          bindings := bindings[i := bindings[i].(value := value)];
        }
        return true;
      }
      NoBinder(bindings, target, key);
      if |bindings| == SUIT_BINDER_MAX {
        return false;
      }
      bindings := bindings + [Binder(target, key % TWO32, value)];
      return true;
    }

    /** `suit_runner_get_parameter` */
    method GetParameter(target: Address, key: u64) returns (o: Option<Range>)
      ensures o == Lookup(bindings, target, key)
      ensures o.Some? ==> exists b <- bindings :: b.value == o.value
    {
      var i := LookupBinder(target, key);
      if i == |bindings| {
        NoBinder(bindings, target, key);
        return None;
      }
      FirstBinder(bindings, i, target, key, Null);
      return Some(bindings[i].value);
    }

    ghost predicate BindingsSound()
      reads this
    {
      |bindings| <= SUIT_BINDER_MAX && HeldBindings(manifest, bindings)
    }

    /** `directive_set_parameters` */
    method DirectiveSetParameters(target: Address, command: u64, param: Range) returns (ok: bool)
      requires Held(manifest, param) && BindingsSound()
      modifies this`bindings
      ensures BindingsSound()
      ensures (ok, bindings) == SetParameters(old(bindings), target, param, command == OVERRIDE_PARAMETERS)
    {
      hide GetAny, GetMap, BindAll, Assigns, BindingsSound, Held;
      var isOverride := command == OVERRIDE_PARAMETERS;
      BindNone(bindings);
      var ctx := new Context(Toplevel(param));
      var child;
      ok, child := ctx.ReadMap();
      if !ok {
        return;
      }
      MapInside(param);
      var entries := new Context(child);
      ok := BindEntries(entries, target, isOverride, param);
      if ok {
        ok := ctx.Close(entries.View());
      }
    }

    /** The loop of `directive_set_parameters`. */
    method BindEntries(entries: Context, target: Address, isOverride: bool, ghost param: Range) returns (ok: bool)
      requires entries.Valid() && Within(entries.r, param) && Held(manifest, param) && BindingsSound()
      modifies this`bindings, entries
      ensures entries.Valid() && BindingsSound()
      ensures (ok, bindings) == BindAll(old(bindings), Assigns(old(entries.View()), target, isOverride))
      ensures ok ==> entries.index == entries.count
    {
      hide GetAny, GetItem, GetUint, Data, Assigns, BindAll, Bind, Within, Held;
      ghost var wanted := BindAll(bindings, Assigns(entries.View(), target, isOverride));
      while !(entries.index == entries.count)
        invariant entries.Valid() && Within(entries.r, param) && BindingsSound()
        invariant BindAll(bindings, Assigns(entries.View(), target, isOverride)) == wanted
        decreases |Data(entries.r)|
      {
        ghost var now: Cursor := entries.View();
        AssignsNext(now, target, isOverride);
        BindNone(bindings);
        var key, value;
        ok, key := entries.ReadUint();
        if !ok {
          return;
        }
        ok, value := entries.ReadItem();
        if !ok {
          return;
        }
        AssignHeld(now, param);
        HeldInside(manifest, value, param);
        BindNext(bindings, Assign(target, key, value, isOverride), Assigns(entries.View(), target, isOverride));
        ok := SetParameter(target, key, value, isOverride);
        if !ok {
          return;
        }
      }
      AssignsNext(entries.View(), target, isOverride);
      BindNone(bindings);
      ok := true;
    }

    /** The common sequence has been read to its end. */
    predicate CommonDone()
      reads this
    {
      match programCounter
      case Sequence(common, _) => AtEnd(common)
      case Command(_, _, _, _) => |stack| == 2 && stack[1].Sequence? && AtEnd(stack[1].common)
      case _ => false
    }

    /** `directive_fetch`. It is called only when the common sequence is done. */
    method DirectiveFetch(address: Address, target: Target) returns (ok: bool)
      requires Valid() && CommonDone() && !suspended
      modifies this`effects, this`suspended, this`onResume
      ensures Valid()
      ensures match FetchEffect(manifest, bindings, address, target)
              case None => !ok && !suspended && effects == old(effects)
              case Some(e) => effects == old(effects) + [e] && Reply(ok, suspended) == platform.answer(effects)
    {
      hide GetAny, GetTstr, FieldOf, Data, Within, Shape, Lookup, ManifestInside, HeldControl, HeldEffects;
      var value := GetParameter(address, PARAMETER_URI);
      if value.None? {
        return false;
      }
      HeldIsHeld(value.value);
      var ctx := new Context(Toplevel(value.value));
      var uri;
      ok, uri := ctx.ReadTstr();
      if !ok {
        return;
      }
      HeldInside(manifest, uri, value.value);
      if Data(uri) == [] {
        return false;
      }
      if Data(uri)[0] == '#' as int {
        var body := GetField(manifest.envelope, Name(uri));
        if body.None? {
          return false;
        }
        FieldWithin(manifest.envelope, Name(uri));
        ok := CallBack(Stored(target, body.value));
      } else {
        ok := CallBack(Fetched(target, uri));
      }
    }

    /** What a binder holds is held. */
    lemma HeldIsHeld(value: Range)
      requires Valid() && exists b <- bindings :: b.value == value
      ensures Held(manifest, value)
    {
    }

    /** The `store` and `fetch_and_store` callbacks, which may suspend the runner. */
    method CallBack(e: Effect) returns (ok: bool)
      requires Valid() && CommonDone() && !suspended && HeldEffect(manifest, e)
      modifies this`effects, this`suspended, this`onResume
      ensures Valid() && effects == old(effects) + [e] && Reply(ok, suspended) == platform.answer(effects)
    {
      hide ManifestInside, HeldControl, HeldBindings, Shape;
      effects := effects + [e];
      var reply := platform.answer(effects);
      if reply.suspend {
        Suspend();
      }
      ok := reply.ok;
    }

    /** The handler of a command, called on one object; parameters are kept under the address of the local variable
        that holds the object. */
    method CallHandler(command: u64, o: Located, param: Range) returns (ok: bool)
      requires Valid() && !suspended && Held(manifest, param)
      requires Handled(command, false) && (command == FETCH ==> CommonDone())
      modifies this`bindings, this`calls, this`effects, this`suspended, this`onResume
      ensures Valid()
      ensures (Reply(ok, suspended), SoFar())
           == Handle(platform, manifest, old(SoFar()), CallOn(Step(command, param), o))
    {
      hide GetAny, SetParameters, Within, Shape, ManifestInside, HeldControl, HeldEffects, HeldBindings;
      var address := platform.at(|calls|, o.local);
      calls := calls + [CallOn(Step(command, param), o)];
      if command == SET_PARAMETERS || command == OVERRIDE_PARAMETERS {
        ok := DirectiveSetParameters(address, command, param);
      } else if command == FETCH {
        ok := DirectiveFetch(address, o.target);
      } else {
        ok := true;
      }
    }

    /** `find_handler` */
    static method FindHandler(command: u64, isCommon: bool) returns (found: bool)
      ensures found == Handled(command, isCommon)
    {
      var i := 0;
      while i < |HANDLERS|
        invariant 0 <= i <= |HANDLERS| && forall j | 0 <= j < i :: HANDLERS[j].0 != command
      {
        if HANDLERS[i].0 == command {
          return !(isCommon && !HANDLERS[i].1);
        }
        i := i + 1;
      }
      assert HANDLERS[0].0 != command && HANDLERS[1].0 != command;
      assert HANDLERS[2].0 != command && HANDLERS[3].0 != command;
      assert HANDLERS[4].0 != command && HANDLERS[5].0 != command && HANDLERS[6].0 != command;
      found := false;
    }

    /** `get_object` */
    method GetObject(index: nat, isComponent: bool) returns (o: Option<Target>)
      ensures o == if index < ObjectCount(manifest, isComponent) then Some(Target(isComponent, index)) else None
    {
      if isComponent {
        if index < |manifest.common.components| {
          return Some(Target(true, index));
        }
      } else {
        if index < manifest.common.nDependencies {
          return Some(Target(false, index));
        }
      }
      return None;
    }

    /** `suit_runner_finished` */
    predicate Finished()
      reads this
    {
      !hasError && !suspended
    }

    /** `suit_runner_suspended` */
    predicate Suspended()
      reads this
    {
      !hasError && suspended
    }

    /** `suit_runner_mark_error` */
    method MarkError()
      modifies this`hasError
      ensures hasError
    {
      hasError := true;
    }

    /** The unread octets of both sequences. */
    ghost function Unread(): nat
      requires Shape(programCounter, stack, CurrentSelection())
      reads this
    {
      match programCounter
      case Exit => 0
      case Sequence(common, target) => |Data(common.r)| + |Data(target.r)|
      case Command(_, _, _, _) => |Data(stack[1].common.r)| + |Data(stack[1].target.r)|
    }

    /** The objects, or the octets listing them, that the current command has not come to. */
    ghost function Unvisited(): nat
      reads this
    {
      if !programCounter.Command? then 0
      else match programCounter.remaining
        case AllFrom(i) =>
          var n := ObjectCount(manifest, programCounter.isComponent);
          if i < n then n - i else 0
        case Listed(c) => |Data(c.r)|
    }

    /** The first half of `run_sequence_step`: take a command off the common sequence, or off the target sequence
        once the common one is done. */
    method ReadCommand() returns (ok: bool, isCommon: bool, command: u64, param: Range)
      requires Valid() && programCounter.Sequence?
      requires !(AtEnd(programCounter.common) && AtEnd(programCounter.target))
      modifies this`programCounter
      ensures Valid() && programCounter.Sequence? && (!isCommon ==> AtEnd(programCounter.common))
      ensures if ok then
                old(Rest()) == FromCommand(manifest, command, param, isCommon, programCounter, CurrentSelection())
                && Held(manifest, param) && param.Span? && Unread() < old(Unread())
              else old(Rest()) == BROKEN
    {
      hide GetAny, GetUint, GetItem, Program, Data, Within, ManifestInside, HeldBindings, HeldEffects, Held,
           FromCommand;
      var common, target := programCounter.common, programCounter.target;
      isCommon := !AtEnd(common);
      ProgramStep(manifest, common, target, CurrentSelection());
      StepHeld(manifest, if isCommon then common else target);
      var ctx := new Context(if isCommon then common else target);
      param := Null;
      ok, command := ctx.ReadUint();
      if ok {
        ok, param := ctx.ReadItem();
        programCounter := if isCommon then Sequence(ctx.View(), target) else Sequence(common, ctx.View());
      }
    }

    /** `run_sequence_step`. Reading a command takes its share off the plan: a selection takes nothing, a command
        on one object is called at once, and one on several is left to the command step. */
    method RunSequenceStep() returns (popPc: bool)
      requires Valid() && programCounter.Sequence? && !hasError && !suspended
      modifies this
      ensures Valid() && manifest == old(manifest) && platform == old(platform) && !programCounter.Exit?
      ensures popPc ==> unchanged(this) && Rest() == NOTHING
      ensures !popPc ==>
                Advances(platform, manifest, old(SoFar()), old(Rest()), SoFar(), Rest(), hasError, suspended)
      ensures !popPc && !hasError ==> Unread() < old(Unread())
    {
      hide GetAny, GetUint, GetItem, Program, Selected, Handle, Handled, Data, Within, ManifestInside, HeldBindings,
           HeldEffects, HeldControl, Held, CallsOn, Then;
      ProgramStep(manifest, programCounter.common, programCounter.target, CurrentSelection());
      popPc := false;
      if AtEnd(programCounter.common) && AtEnd(programCounter.target) {
        return true;
      }
      var ok, isCommon, command, param := ReadCommand();
      if !ok {
        MarkError();
        return;
      }
      if command == SET_COMPONENT_INDEX {
        selectedComponents, selectedDependencies := param, Null;
        NullHeld(manifest);
        return;
      } else if command == SET_DEPENDENCY_INDEX {
        selectedComponents, selectedDependencies := Null, param;
        NullHeld(manifest);
        return;
      }
      var found := FindHandler(command, isCommon);
      if !found {
        MarkError();
        return;
      }
      StartCommand(command, isCommon, param);
    }

    /** The second half of `run_sequence_step`: apply a command to the current selection. */
    method StartCommand(command: u64, isCommon: bool, param: Range)
      requires Valid() && programCounter.Sequence? && !hasError && !suspended && Held(manifest, param)
      requires Handled(command, isCommon) && (!isCommon ==> AtEnd(programCounter.common))
      modifies this
      ensures Valid() && manifest == old(manifest) && platform == old(platform) && !programCounter.Exit?
      ensures Advances(platform, manifest, old(SoFar()),
                       Then(CallsOn(Step(command, param), Selected(manifest, old(CurrentSelection()))), old(Rest())),
                       SoFar(), Rest(), hasError, suspended)
      ensures Unread() == old(Unread())
    {
      hide GetAny, Handle, Data, Within, ManifestInside, ObjectsFrom, ListedObjects, HeldBindings, HeldEffects,
           HeldControl, HeldContinuation, Held, Selected, CallsOn, Then, Shape, RestOf, Handled;
      NothingCalled(Step(command, param), Rest());
      // exactly one of the two selections is set, so the source's check for this never fails
      assert selectedComponents.Span? != selectedDependencies.Span?;
      var choice := ReadSelection();
      match choice
      case Nobody =>
      case One(index) => CallOne(command, isCommon, param, index, Rest());
      case Several(remaining) => PushCommand(command, isCommon, param, remaining);
      case Unreadable => MarkError();
    }

    /** What the current selection is: a boolean, an index, or an array of indices. */
    method ReadSelection() returns (choice: Choice)
      requires Valid()
      ensures Selected(manifest, CurrentSelection()) == Chosen(manifest, CurrentSelection().isComponent, choice)
      ensures choice.Several? && choice.remaining.Listed? ==> Held(manifest, choice.remaining.items.r)
    {
      hide GetAny, GetBool, GetUint, GetArray, Data, Within, ManifestInside, ObjectsFrom, ListedObjects, HeldBindings,
           HeldEffects, HeldControl, Held, Selected, Shape;
      SelectedCases(manifest, CurrentSelection());
      var selected := if selectedComponents.Span? then selectedComponents else selectedDependencies;
      var ctx := new Context(Toplevel(selected));
      var ok, flag := ctx.ReadBool();
      if ok {
        return if flag then Several(AllFrom(0)) else Nobody;
      }
      var index;
      ok, index := ctx.ReadUint();
      if ok {
        return One(index);
      }
      var items;
      ok, items := ctx.ReadArray();
      if !ok {
        return Unreadable;
      }
      ArrayHeld(manifest, selected);
      return Several(Listed(items));
    }

    /** Leave a command on several objects to the command step. The stack never overflows. */
    method PushCommand(command: u64, isCommon: bool, param: Range, remaining: Remaining)
      requires Valid() && programCounter.Sequence? && Held(manifest, param)
      requires remaining.Listed? ==> Held(manifest, remaining.items.r)
      requires Handled(command, isCommon) && (!isCommon ==> AtEnd(programCounter.common))
      modifies this`programCounter, this`stack
      ensures Valid() && programCounter == Command(command, param, CurrentSelection().isComponent, remaining)
      ensures Rest() == Then(CommandPlan(manifest, programCounter), old(Rest())) && Unread() == old(Unread())
    {
      hide GetAny, Data, Within, ManifestInside, HeldBindings, HeldEffects, HeldControl, Held, CommandPlan, Then,
           Shape, RestOf, Handled;
      var newPc := Command(command, param, selectedComponents.Span?, remaining);
      CommandPushed(manifest, programCounter, stack, CurrentSelection(), newPc, isCommon);
      var ok := PushProgramCounter();
      assert ok;
      programCounter := newPc;
    }

    /** A command whose selection is one object. */
    method CallOne(command: u64, isCommon: bool, param: Range, index: nat, ghost rest: Plan)
      requires Valid() && programCounter.Sequence? && !hasError && !suspended && Held(manifest, param)
      requires Handled(command, isCommon) && (!isCommon ==> AtEnd(programCounter.common)) && rest == Rest()
      modifies this`bindings, this`calls, this`effects, this`suspended, this`onResume, this`hasError
      ensures Valid()
      ensures Advances(platform, manifest, old(SoFar()),
                       Then(CallsOn(Step(command, param), OneObject(manifest, CurrentSelection().isComponent, index)),
                            rest),
                       SoFar(), Rest(), hasError, suspended)
    {
      hide Program, Handle, Data, Within, ManifestInside, HeldBindings, HeldEffects, HeldControl, Held, CallsOn, Then;
      var target := GetObject(index, selectedComponents.Span?);
      OneCalled(Step(command, param), Located(Target(selectedComponents.Span?, index), OneLocal), rest);
      if target.None? {
        MarkError();
        return;
      }
      var ok := CallHandler(command, Located(target.value, OneLocal), param);
      if !ok {
        MarkError();
      }
    }

    /** `run_command_step`: call the handler on the next of the command's objects. */
    method RunCommandStep() returns (popPc: bool)
      requires Valid() && programCounter.Command? && !hasError && !suspended
      modifies this`bindings, this`calls, this`effects, this`suspended, this`onResume, this`hasError
      modifies this`programCounter
      ensures Valid() && programCounter.Command?
      ensures popPc ==>
                unchanged(this)
                && RemainingObjects(manifest, programCounter.isComponent, programCounter.remaining)
                == Listing([], true)
      ensures !popPc ==>
                Advances(platform, manifest, old(SoFar()), old(Rest()), SoFar(), Rest(), hasError, suspended)
      ensures !popPc && !hasError ==> Unread() == old(Unread()) && Unvisited() < old(Unvisited())
    {
      hide *;
      if programCounter.remaining.AllFrom? {
        popPc := VisitNext();
      } else {
        popPc := VisitListed();
      }
    }

    /** The half of `run_command_step` for a command on all objects. */
    method VisitNext() returns (popPc: bool)
      requires Valid() && programCounter.Command? && programCounter.remaining.AllFrom? && !hasError && !suspended
      modifies this`bindings, this`calls, this`effects, this`suspended, this`onResume, this`hasError
      modifies this`programCounter
      ensures Valid() && programCounter.Command?
      ensures popPc ==>
                unchanged(this)
                && RemainingObjects(manifest, programCounter.isComponent, programCounter.remaining)
                == Listing([], true)
      ensures !popPc ==>
                Advances(platform, manifest, old(SoFar()), old(Rest()), SoFar(), Rest(), hasError, suspended)
      ensures !popPc && !hasError ==> Unread() == old(Unread()) && Unvisited() < old(Unvisited())
    {
      hide Handle, Data, Within, ManifestInside, ObjectsFrom, ListedObjects, HeldBindings, HeldEffects, HeldControl,
           Held, Shape, RestOf, Handled;
      ghost var pc := programCounter;
      ObjectsNext(manifest, pc.isComponent, pc.remaining.index);
      MayCall(manifest, pc, stack, CurrentSelection());
      var target := GetObject(programCounter.remaining.index, programCounter.isComponent);
      if target.None? {
        return true;
      }
      RemainingMoves(manifest, pc, stack, CurrentSelection(), AllFrom(pc.remaining.index + 1),
                     Located(target.value, AllLocal));
      popPc := false;
      var ok := CallHandler(programCounter.command, Located(target.value, AllLocal), programCounter.param);
      if !ok {
        MarkError();
        return;
      }
      programCounter := programCounter.(remaining := AllFrom(programCounter.remaining.index + 1));
    }

    /** The half of `run_command_step` for a command on listed objects. */
    method VisitListed() returns (popPc: bool)
      requires Valid() && programCounter.Command? && programCounter.remaining.Listed? && !hasError && !suspended
      modifies this`bindings, this`calls, this`effects, this`suspended, this`onResume, this`hasError
      modifies this`programCounter
      ensures Valid() && programCounter.Command?
      ensures popPc ==>
                unchanged(this)
                && RemainingObjects(manifest, programCounter.isComponent, programCounter.remaining)
                == Listing([], true)
      ensures !popPc ==>
                Advances(platform, manifest, old(SoFar()), old(Rest()), SoFar(), Rest(), hasError, suspended)
      ensures !popPc && !hasError ==> Unread() == old(Unread()) && Unvisited() < old(Unvisited())
    {
      hide GetAny, GetUint, Handle, Data, Within, ManifestInside, ObjectsFrom, ListedObjects, HeldBindings,
           HeldEffects, HeldControl, Held, Shape, RestOf, Handled;
      MayCall(manifest, programCounter, stack, CurrentSelection());
      if AtEnd(programCounter.remaining.items) {
        EmptyList(manifest, programCounter.isComponent, programCounter.remaining.items);
        return true;
      }
      popPc := false;
      var target := ReadTarget();
      if target.None? {
        MarkError();
        return;
      }
      var ok := CallHandler(programCounter.command, Located(target.value, ListedLocal), programCounter.param);
      if !ok {
        MarkError();
      }
    }

    /** Take the next object off the list. */
    method ReadTarget() returns (target: Option<Target>)
      requires Valid() && programCounter.Command? && programCounter.remaining.Listed?
      requires !AtEnd(programCounter.remaining.items)
      modifies this`programCounter
      ensures Valid() && programCounter.Command? && Unread() == old(Unread())
      ensures match target
              case None => old(Rest()) == BROKEN
              case Some(t) =>
                && programCounter.command == old(programCounter.command)
                && programCounter.param == old(programCounter.param)
                && old(Rest()) == Cons(Call(programCounter.command, t, programCounter.param, ListedLocal), Rest())
                && old(Rest()).all[1..] == Rest().all && Unvisited() < old(Unvisited())
    {
      hide GetAny, GetUint, Data, Within, ManifestInside, ObjectsFrom, HeldBindings, HeldEffects, HeldControl, Held,
           Shape, RestOf, Handled;
      ghost var pc := programCounter;
      ListedNext(manifest, pc.isComponent, pc.remaining.items);
      MayCall(manifest, pc, stack, CurrentSelection());
      var ctx := new Context(programCounter.remaining.items);
      var ok, index := ctx.ReadUint();
      if !ok {
        NothingRemains(manifest, pc, stack, CurrentSelection());
        return None;
      }
      RemainingKept(manifest, pc, stack, CurrentSelection(), Listed(ctx.View()));
      programCounter := programCounter.(remaining := Listed(ctx.View()));
      target := GetObject(index, programCounter.isComponent);
      if target.None? {
        NothingRemains(manifest, pc, stack, CurrentSelection());
      } else {
        RemainingMoves(manifest, pc, stack, CurrentSelection(), Listed(ctx.View()),
                       Located(target.value, ListedLocal));
      }
    }

    /** Going back to what the finished command or sequence was called from. The stack is never empty. */
    method Return()
      requires Valid() && !programCounter.Exit? && !suspended
      requires programCounter.Sequence? ==> Rest() == NOTHING
      requires programCounter.Command? ==>
                 RemainingObjects(manifest, programCounter.isComponent, programCounter.remaining) == Listing([], true)
      modifies this`programCounter, this`stack
      ensures Valid() && Rest() == old(Rest())
      ensures Unread() <= old(Unread()) && Unvisited() <= old(Unvisited()) && |stack| < |old(stack)|
    {
      hide GetAny, Data, Within, ManifestInside, HeldBindings, HeldEffects, HeldControl, Held, Shape, RestOf,
           RemainingObjects;
      Popped(manifest, programCounter, stack, CurrentSelection());
      var ok := PopProgramCounter();
      assert ok;
    }

    /** One round of the loop of `suit_runner_run`: it advances the plan, and takes the measure down. */
    method RunStep()
      requires Valid() && !programCounter.Exit? && !hasError && !suspended
      modifies this
      ensures Valid() && manifest == old(manifest) && platform == old(platform)
      ensures Advances(platform, manifest, old(SoFar()), old(Rest()), SoFar(), Rest(), hasError, suspended)
      ensures !hasError ==>
                || Unread() < old(Unread())
                || (Unread() == old(Unread()) && Unvisited() < old(Unvisited()))
                || (Unread() == old(Unread()) && Unvisited() == old(Unvisited()) && |stack| < |old(stack)|)
    {
      hide GetAny, Data, Within, ManifestInside, HeldBindings, HeldEffects, HeldControl, Held, RestOf,
           RemainingObjects, Handle;
      var popPc;
      if programCounter.Sequence? {
        popPc := RunSequenceStep();
      } else {
        popPc := RunCommandStep();
      }
      if !hasError && popPc {
        Return();
      }
    }

    /** `suit_runner_run`. The stepped machine does what performing the plan does, and leaves what that leaves.
        Parameters are kept under the addresses that the platform gives the local variables that targets lie in; the
        bindings and effects are those meant where `SuitTargets.KeepsApart` holds. */
    method Run()
      requires Valid()
      modifies this
      ensures Valid() && manifest == old(manifest) && platform == old(platform)
      ensures old(hasError || suspended) ==> unchanged(this)
      ensures !old(hasError || suspended) ==>
                var s := Perform(platform, manifest, old(SoFar()), old(Rest()));
                && SoFar() == s.progress && hasError == (s.status == FAILED)
                && (!hasError ==> suspended == (s.status == SUSPENDED) && Rest() == s.left)
      ensures !hasError && !suspended ==> programCounter == Exit && stack == []
    {
      hide Unread, Unvisited, Contained, RestOf, Perform, Advances;
      if hasError {
        return;
      }
      ghost var s := Perform(platform, manifest, SoFar(), Rest());
      while !suspended && programCounter != Exit
        invariant Valid() && manifest == old(manifest) && platform == old(platform) && !hasError
        invariant old(suspended) ==> unchanged(this)
        invariant if suspended then old(suspended) || s == Halt(SoFar(), SUSPENDED, Rest())
                  else s == Perform(platform, manifest, SoFar(), Rest())
        decreases Unread(), Unvisited(), |stack|
      {
        ghost var p, plan := SoFar(), Rest();
        RunStep();
        AdvancesPerforms(platform, manifest, p, plan, SoFar(), Rest(), hasError, suspended);
        if hasError {
          return;
        }
      }
      NothingLeft(platform, manifest, SoFar(), CurrentSelection());
    }
  }

  /** Run and resume until nothing is suspended, as `main` of `run-install.cpp` does. Which targets share their
      parameters depends on the platform, as for `Run`. */
  method RunInstall(context: SuitContext, platform: Platform) returns (ok: bool, runner: Runner)
    requires context.Root().Some? && ManifestInside(context.Root().value, context.Root().value.envelope)
    requires !context.Root().value.install.Severed?
    ensures fresh(runner) && runner.Valid()
    ensures var m := context.Root().value;
            if Enters(m) then
              var s := RunOut(platform, m, START, InstallPlan(m));
              ok == (s.status == FINISHED) && runner.SoFar() == s.progress
            else ok && runner.SoFar() == START
  {
    hide Enters, InstallPlan, Perform, RunOut, ManifestInside;
    runner := new Runner(context, INSTALL, platform);
    ghost var m, plan := context.Root().value, runner.Rest();
    hide RestOf, Shape, Held, HeldControl, HeldBindings, HeldEffects;
    while true
      invariant fresh(runner) && runner.Valid() && runner.manifest == m && runner.platform == platform
      invariant !runner.hasError && !runner.suspended
      invariant RunOut(platform, m, START, plan) == RunOut(platform, m, runner.SoFar(), runner.Rest())
      decreases |runner.Rest().all|
    {
      RunOutNext(platform, m, runner.SoFar(), runner.Rest());
      runner.Run();
      if runner.Finished() {
        break;
      } else if runner.Suspended() {
        runner.Resume(false);
      } else {
        NothingRunsOut(platform, m);
        return false, runner;
      }
    }
    NothingRunsOut(platform, m);
    ok := true;
  }

  lemma NothingRunsOut(cb: Platform, m: Manifest)
    ensures RunOut(cb, m, START, NOTHING) == Halt(START, FINISHED, NOTHING)
  {
  }

  lemma RunOutNext(cb: Platform, m: Manifest, p: Progress, plan: Plan)
    ensures var s := Perform(cb, m, p, plan);
            RunOut(cb, m, p, plan) == if s.status == SUSPENDED then RunOut(cb, m, s.progress, s.left) else s
  {
    hide Perform;
  }

  lemma ExitShape(m: Manifest, stack: seq<Continuation>, s: Selection)
    requires Shape(Exit, stack, s)
    ensures stack == [] && RestOf(m, Exit, stack, s) == NOTHING
  {
  }

  /** Entering an install puts a sequence on top of the exit. */
  lemma SequencePushed(m: Manifest, common: Cursor, target: Cursor, s: Selection)
    requires Held(m, common.r) && Held(m, target.r)
    ensures Shape(Sequence(common, target), [Exit], s)
    ensures HeldControl(m, Sequence(common, target), [Exit])
    ensures RestOf(m, Sequence(common, target), [Exit], s) == Program(m, common, target, s)
  {
    hide Program, Held;
  }

  lemma InstallHeld(m: Manifest)
    requires ManifestInside(m, m.envelope) && !m.install.Severed?
    ensures Held(m, OrEmpty(m.common.commandSequence)) && Held(m, OrEmpty(InstallBody(m)))
  {
  }

  /** Nothing to do is done. */
  lemma NothingLeft(cb: Platform, m: Manifest, p: Progress, s: Selection)
    ensures Perform(cb, m, p, RestOf(m, Exit, [], s)) == Halt(p, FINISHED, RestOf(m, Exit, [], s))
  {
  }

  /** A finished command or sequence leaves what lies under it on the stack. */
  lemma Popped(m: Manifest, pc: Continuation, stack: seq<Continuation>, s: Selection)
    requires !pc.Exit? && Shape(pc, stack, s) && HeldControl(m, pc, stack)
    requires pc.Sequence? ==> RestOf(m, pc, stack, s) == NOTHING
    requires pc.Command? ==> RemainingObjects(m, pc.isComponent, pc.remaining) == Listing([], true)
    ensures |stack| == (if pc.Sequence? then 1 else 2)
    ensures var pc', stack' := stack[|stack| - 1], stack[..|stack| - 1];
            (if pc.Sequence? then pc' == Exit else pc'.Sequence?)
            && Shape(pc', stack', s) && HeldControl(m, pc', stack')
            && RestOf(m, pc', stack', s) == RestOf(m, pc, stack, s)
  {
    hide Program, Held, RemainingObjects;
    if pc.Command? {
      NothingCalled(Step(pc.command, pc.param), Program(m, stack[1].common, stack[1].target, s));
    }
  }

  /** What a selection selects, by how it is encoded. */
  lemma SelectedCases(m: Manifest, s: Selection)
    ensures var c := Toplevel(s.param);
            Selected(m, s)
            == if GetBool(c).Got? then
                 if GetBool(c).value then ObjectsFrom(m, s.isComponent, 0) else Listing([], true)
               else if GetUint(c).Got? then OneObject(m, s.isComponent, GetUint(c).value)
               else if GetArray(c).Got? then ListedObjects(m, s.isComponent, GetArray(c).value)
               else Listing([], false)
  {
  }

  /** A command on no object calls nothing; one whose objects cannot be decoded breaks the plan off. */
  lemma NothingCalled(step: Step, rest: Plan)
    ensures Then(CallsOn(step, Listing([], true)), rest) == rest
    ensures Then(CallsOn(step, Listing([], false)), rest) == BROKEN
  {
    NothingThen(rest);
  }

  /** A command on one object is one call. */
  lemma OneCalled(step: Step, o: Located, rest: Plan)
    ensures Then(CallsOn(step, Listing([o], true)), rest) == Listing([CallOn(step, o)] + rest.all, rest.complete)
    ensures Then(CallsOn(step, Listing([o], true)), rest).all[1..] == rest.all
    ensures Then(CallsOn(step, Listing([], false)), rest) == BROKEN
  {
    NothingCalled(step, rest);
    CallsOnFirst(step, o, Listing([], true));
  }

  lemma ArrayHeld(m: Manifest, r: Range)
    requires Held(m, r) && GetArray(Toplevel(r)).Got?
    ensures Held(m, GetArray(Toplevel(r)).value.r)
  {
    hide GetAny;
  }

  lemma NullHeld(m: Manifest)
    ensures Held(m, Null)
  {
  }

  /** What a command read from a held sequence points to is held, and the sequence shrinks. */
  lemma StepHeld(m: Manifest, c: Cursor)
    requires Held(m, c.r)
    ensures GetUint(c).Got? ==> Held(m, GetUint(c).next.r)
    ensures GetUint(c).Got? && GetItem(GetUint(c).next).Got? ==>
              var g := GetItem(GetUint(c).next);
              Held(m, g.value) && Held(m, g.next.r) && g.value.Span? && |Data(g.next.r)| < |Data(c.r)|
  {
    hide GetAny, GetItem, Data;
  }

  /** A command put on top of a sequence has its own calls to make first. */
  lemma CommandPushed(m: Manifest, pc: Continuation, stack: seq<Continuation>, s: Selection, new': Continuation,
                      isCommon: bool)
    requires pc.Sequence? && Shape(pc, stack, s) && HeldControl(m, pc, stack)
    requires new'.Command? && HeldContinuation(m, new') && new'.isComponent == s.isComponent
    requires Handled(new'.command, isCommon) && (!isCommon ==> AtEnd(pc.common))
    ensures |stack| == 1 && Shape(new', stack + [pc], s) && HeldControl(m, new', stack + [pc])
    ensures RestOf(m, new', stack + [pc], s) == Then(CommandPlan(m, new'), RestOf(m, pc, stack, s))
  {
    hide HeldContinuation, Program, Then, CommandPlan;
  }

  lemma ObjectsNext(m: Manifest, isComponent: bool, i: nat)
    ensures ObjectsFrom(m, isComponent, i)
         == if i < ObjectCount(m, isComponent) then
              Cons(Located(Target(isComponent, i), AllLocal), ObjectsFrom(m, isComponent, i + 1))
            else Listing([], true)
  {
  }

  lemma EmptyList(m: Manifest, isComponent: bool, c: Cursor)
    requires AtEnd(c)
    ensures ListedObjects(m, isComponent, c) == Listing([], true)
  {
  }

  lemma ListedNext(m: Manifest, isComponent: bool, c: Cursor)
    ensures ListedObjects(m, isComponent, c)
         == if AtEnd(c) then Listing([], true)
            else if GetUint(c).Missing? || GetUint(c).value >= ObjectCount(m, isComponent) then Listing([], false)
            else
              Cons(Located(Target(isComponent, GetUint(c).value), ListedLocal),
                   ListedObjects(m, isComponent, GetUint(c).next))
    ensures GetUint(c).Got? ==> |Data(GetUint(c).next.r)| < |Data(c.r)|
  {
    hide GetAny, GetUint, Data;
  }

  /** A command under way may be called on its objects, and what it holds is held. */
  lemma MayCall(m: Manifest, pc: Continuation, stack: seq<Continuation>, s: Selection)
    requires pc.Command? && Shape(pc, stack, s) && HeldControl(m, pc, stack)
    ensures |stack| == 2 && stack[1].Sequence? && Handled(pc.command, false)
    ensures pc.command == FETCH ==> AtEnd(stack[1].common)
    ensures Held(m, pc.param)
    ensures pc.remaining.Listed? && GetUint(pc.remaining.items).Got? ==> Held(m, GetUint(pc.remaining.items).next.r)
  {
    hide GetAny;
  }

  /** When the remaining objects cannot be decoded the plan breaks off. */
  lemma NothingRemains(m: Manifest, pc: Continuation, stack: seq<Continuation>, s: Selection)
    requires pc.Command? && Shape(pc, stack, s)
    requires RemainingObjects(m, pc.isComponent, pc.remaining) == Listing([], false)
    ensures RestOf(m, pc, stack, s) == BROKEN
  {
    hide Program;
    NothingCalled(Step(pc.command, pc.param), Program(m, stack[1].common, stack[1].target, s));
  }

  lemma RemainingKept(m: Manifest, pc: Continuation, stack: seq<Continuation>, s: Selection, r: Remaining)
    requires pc.Command? && Shape(pc, stack, s) && HeldControl(m, pc, stack) && (r.Listed? ==> Held(m, r.items.r))
    ensures var pc' := pc.(remaining := r); Shape(pc', stack, s) && HeldControl(m, pc', stack)
  {
    hide Held;
  }

  /** Coming to the next object takes one call off the plan. */
  lemma RemainingMoves(m: Manifest, pc: Continuation, stack: seq<Continuation>, s: Selection, r: Remaining, o: Located)
    requires pc.Command? && Shape(pc, stack, s) && HeldControl(m, pc, stack) && (r.Listed? ==> Held(m, r.items.r))
    requires RemainingObjects(m, pc.isComponent, pc.remaining) == Cons(o, RemainingObjects(m, pc.isComponent, r))
    ensures var pc' := pc.(remaining := r);
            Shape(pc', stack, s) && HeldControl(m, pc', stack)
            && RestOf(m, pc, stack, s) == Cons(CallOn(Step(pc.command, pc.param), o), RestOf(m, pc', stack, s))
            && RestOf(m, pc, stack, s).all[1..] == RestOf(m, pc', stack, s).all
  {
    hide Program, RemainingObjects, Held;
    RemainingKept(m, pc, stack, s, r);
    var step := Step(pc.command, pc.param);
    CallsOnFirst(step, o, RemainingObjects(m, pc.isComponent, r));
    ConsThen(CallOn(step, o), CallsOn(step, RemainingObjects(m, pc.isComponent, r)),
             Program(m, stack[1].common, stack[1].target, s));
  }

  lemma ConsThen(c: Call, p: Plan, q: Plan)
    ensures Then(Cons(c, p), q) == Cons(c, Then(p, q)) && Cons(c, Then(p, q)).all[1..] == Then(p, q).all
  {
    assert [c] + p.all + q.all == [c] + (p.all + q.all);
  }

  /** The handler table: each command, and whether a common sequence may contain it. */
  const HANDLERS: seq<(u64, bool)> := [
    (CONDITION_VENDOR_IDENTIFIER, true),
    (CONDITION_CLASS_IDENTIFIER, true),
    (CONDITION_IMAGE_MATCH, true),
    (SET_PARAMETERS, true),
    (OVERRIDE_PARAMETERS, true),
    (PROCESS_DEPENDENCY, false),
    (FETCH, false)]

  lemma BindNone(bs: seq<Binder>)
    ensures BindAll(bs, Listing([], true)) == (true, bs) && BindAll(bs, Listing([], false)) == (false, bs)
  {
  }

  lemma BindNext(bs: seq<Binder>, a: Assign, rest: Listing<Assign>)
    ensures BindAll(bs, Cons(a, rest)) == if Bind(bs, a).None? then (false, bs) else BindAll(Bind(bs, a).value, rest)
  {
    hide Bind;
    assert Cons(a, rest).all[1..] == rest.all;
  }

  lemma AssignHeld(c: Cursor, param: Range)
    requires Within(c.r, param) && GetUint(c).Got? && GetItem(GetUint(c).next).Got?
    ensures Within(GetItem(GetUint(c).next).value, param) && Within(GetItem(GetUint(c).next).next.r, param)
  {
    hide GetAny, GetItem;
  }
}
