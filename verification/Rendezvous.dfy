/** The hand-off of commands between the host thread and the enclave thread: class `CommandQueue` in
    teep-broker-app/teec-keystone.cpp, and the loop of `eapp_entry` on the other side. One mutex, one condition
    variable and one flag; the parameters are read and written outside the lock. The two threads interleave in any
    way, and a waiting thread may wake up for no reason. */
module Rendezvous {
  import opened Wrappers
  import opened Bytes

  /** What a parameter holds besides the memory it refers to: two values, and how much of that memory counts. */
  datatype Values = Values(a: nat, b: nat, size: nat)

  const NO_VALUES: Values := Values(0, 0, 0)

  /** A command, and what the client's operation holds when it is invoked. */
  datatype Command = Command(id: nat, values: Values, memory: seq<byte>)

  datatype Answer = Answer(result: nat, values: Values, memory: seq<byte>)

  /** The trusted application: its answer to the last of these commands, which may depend on those before. */
  type Application = seq<Command> -> Answer

  /** What the client wants done before it closes the session, and who does it. */
  datatype Setup = Setup(commands: seq<Command>, application: Application)

  /** An operation's size is that of memory it has, and the application reports no more than it was given. */
  ghost predicate KeepsSizes(p: Setup)
  {
    && (forall c <- p.commands :: c.values.size <= |c.memory|)
    && (forall h: seq<Command> | h != [] ::
          p.application(h).values.size <= |p.application(h).memory| == |h[|h| - 1].memory|)
  }

  /** `TEEP_AGENT_TA_EXIT` is the last command. */
  function Total(p: Setup): nat { |p.commands| + 1 }

  function AtMost(n: nat, m: nat): nat { if n < m then n else m }

  /** A command as the application sees it: with the memory that counts. */
  function Seen(c: Command): Command
  {
    c.(memory := c.memory[..AtMost(c.values.size, |c.memory|)])
  }

  function AllSeen(p: Setup): (cs: seq<Command>)
    ensures |cs| == |p.commands|
  {
    seq(|p.commands|, i requires 0 <= i < |p.commands| => Seen(p.commands[i]))
  }

  /** What the application answers to each command; closing the session is answered with 0. */
  function AnswerTo(p: Setup, k: nat): Answer
    requires k < Total(p)
  {
    if k < |p.commands| then p.application(AllSeen(p)[..k + 1]) else Answer(0, NO_VALUES, [])
  }

  /** What each command comes back with: the result, the output values, and the memory with the output written over it,
      whether the command succeeded or not. */
  function Exchanged(p: Setup, k: nat): Answer
    requires k < Total(p)
  {
    var r := AnswerTo(p, k);
    r.(memory := Overwrite(MemoryOf(p, k), r.memory, r.values.size))
  }

  /** What a direct call would come back with, which writes nothing back after a failure: teec-pc.c. */
  function Direct(p: Setup, k: nat): Answer
    requires k < Total(p)
  {
    if AnswerTo(p, k).result == 0 then Exchanged(p, k)
    else Answer(AnswerTo(p, k).result, ValuesOf(p, k), MemoryOf(p, k))
  }

  /** What the client's operation holds when a command is invoked. */
  function MemoryOf(p: Setup, k: nat): seq<byte>
  {
    if k < |p.commands| then p.commands[k].memory else []
  }

  function ValuesOf(p: Setup, k: nat): Values
  {
    if k < |p.commands| then p.commands[k].values else NO_VALUES
  }

  /** `memory` with its first `n` octets taken from `answer`, as far as they go. */
  function Overwrite(memory: seq<byte>, answer: seq<byte>, n: nat): (m: seq<byte>)
    ensures |m| == |memory|
  {
    seq(|memory|, i requires 0 <= i < |memory| => if i < n && i < |answer| then answer[i] else memory[i])
  }

  datatype Thread = Host | Enclave

  datatype HostPc =
    /** outside any call, free to use its memory */
    | HIdle
    /** `put_invoke_command`: before, in and leaving the critical section, then between unlock and notify */
    | HWantPut | HInPut | HPutDone | HNotify
    /** `pull_invoke_command_result`: before and in the critical section, and asleep */
    | HWantPull | HInPull | HWaiting
    /** `enclave_thread.join()`, and past it */
    | HJoining | HDone

  datatype EnclavePc =
    /** `pull_invoke_command` */
    | EWantPull | EInPull | EWaiting
    /** the command at hand: looking at it, reading the parameters, writing them */
    | EPulled | EReading | EWriting
    /** `put_invoke_command_result` */
    | EWantPut | EInPut | EPutDone | ENotify
    | EExited

  datatype Handoff = Handoff(
    host: HostPc,
    enclave: EnclavePc,
    owner: Option<Thread>,
    // what the queue holds
    invoking: bool,
    current: nat,
    wire: Values,
    operation: bool,
    result: nat,
    // the client's operation, and how many calls have returned what
    values: Values,
    memory: seq<byte>,
    next: nat,
    returned: seq<Answer>,
    // the enclave's own: commands taken, the values that came with this one, octets read, the answer, octets
    // written, commands executed
    taken: nat,
    given: Values,
    pulled: seq<byte>,
    answer: Answer,
    written: nat,
    executed: seq<Command>)

  /** A step of one of the threads, a wake-up for no reason, or the client using its operation between calls. A step
      of the enclave carries the size of the next chunk. */
  datatype Move =
    | HostStep
    | EnclaveStep(n: nat)
    | SpuriousHost
    | SpuriousEnclave
    | Scribble(values: Values, memory: seq<byte>)

  function Initial(): Handoff
  {
    Handoff(HIdle, EWantPull, None, false, 0, NO_VALUES, false, 0, NO_VALUES, [], 0, [],
            0, NO_VALUES, [], Answer(0, NO_VALUES, []), 0, [])
  }

  function StepHost(p: Setup, s: Handoff): Option<Handoff>
  {
    match s.host
    case HIdle =>
      Some(if s.next < Total(p) then s.(host := HWantPut, values := ValuesOf(p, s.next), memory := MemoryOf(p, s.next))
           else s.(host := HJoining))
    case HWantPut => if s.owner.None? then Some(s.(host := HInPut, owner := Some(Host))) else None
    case HInPut =>
      Some(s.(host := HPutDone, current := s.next, wire := s.values, operation := s.next < |p.commands|,
              invoking := true))
    case HPutDone => Some(s.(host := HNotify, owner := None))
    case HNotify => Some(s.(host := HWantPull, enclave := if s.enclave.EWaiting? then EWantPull else s.enclave))
    case HWantPull => if s.owner.None? then Some(s.(host := HInPull, owner := Some(Host))) else None
    case HInPull =>
      Some(if s.invoking then s.(host := HWaiting, owner := None)
           else s.(host := HIdle, owner := None, next := s.next + 1,
                   returned := s.returned + [Answer(s.result, s.values, s.memory)]))
    case HWaiting => None
    case HJoining => if s.enclave.EExited? then Some(s.(host := HDone)) else None
    case HDone => None
  }

  function StepEnclave(p: Setup, s: Handoff, n: nat): Option<Handoff>
  {
    match s.enclave
    case EWantPull => if s.owner.None? then Some(s.(enclave := EInPull, owner := Some(Enclave))) else None
    case EInPull =>
      Some(if s.invoking then
             s.(enclave := EPulled, owner := None, taken := AtMost(s.current + 1, Total(p)), given := s.wire,
                pulled := [])
           else s.(enclave := EWaiting, owner := None))
    case EWaiting => None
    case EPulled =>
      Some(if s.taken == Total(p) then s.(enclave := EWantPut, answer := Answer(0, NO_VALUES, []))
           else s.(enclave := EReading))
    case EReading => StepReading(p, s, n)
    case EWriting =>
      if s.written < s.answer.values.size then
        var m := AtMost(n, s.answer.values.size - s.written);
        if m == 0 then None
        else Some(s.(written := s.written + m, memory := Overwrite(s.memory, s.answer.memory, s.written + m)))
      else Some(s.(enclave := EWantPut))
    case EWantPut => if s.owner.None? then Some(s.(enclave := EInPut, owner := Some(Enclave))) else None
    case EInPut =>
      Some(s.(enclave := EPutDone, values := s.answer.values, result := s.answer.result, operation := false,
              invoking := false))
    case EPutDone => Some(s.(enclave := ENotify, owner := None))
    case ENotify =>
      Some(s.(enclave := if s.taken == Total(p) then EExited else EWantPull,
              host := if s.host.HWaiting? then HWantPull else s.host))
    case EExited => None
  }

  /** The enclave reads another chunk of the client's memory or, when it has what it was told of, executes. */
  function StepReading(p: Setup, s: Handoff, n: nat): Option<Handoff>
  {
    var size := AtMost(s.given.size, |s.memory|);
    if |s.pulled| < size then
      var m := AtMost(n, size - |s.pulled|);
      if m == 0 then None else Some(s.(pulled := s.pulled + s.memory[|s.pulled|..|s.pulled| + m]))
    else
      var id := if 0 < s.taken <= |p.commands| then p.commands[s.taken - 1].id else 0;
      var done := s.executed + [Command(id, s.given, s.pulled)];
      Some(s.(enclave := EWriting, executed := done, answer := p.application(done), written := 0))
  }

  /** The state after a move, if the move is possible. */
  function Next(p: Setup, s: Handoff, move: Move): Option<Handoff>
  {
    match move
    case HostStep => StepHost(p, s)
    case EnclaveStep(n) => StepEnclave(p, s, n)
    case SpuriousHost => if s.host.HWaiting? then Some(s.(host := HWantPull)) else None
    case SpuriousEnclave => if s.enclave.EWaiting? then Some(s.(enclave := EWantPull)) else None
    case Scribble(values, memory) => if s.host.HIdle? then Some(s.(values := values, memory := memory)) else None
  }

  // The invariant.

  predicate HostLocked(pc: HostPc) { pc.HInPut? || pc.HPutDone? || pc.HInPull? }

  predicate EnclaveLocked(pc: EnclavePc) { pc.EInPull? || pc.EInPut? || pc.EPutDone? }

  predicate LockHeld(s: Handoff)
  {
    && (s.owner == Some(Host) <==> HostLocked(s.host))
    && (s.owner == Some(Enclave) <==> EnclaveLocked(s.enclave))
  }

  /** The host has handed over a command and not yet returned from the call. */
  predicate Blocked(pc: HostPc) { pc.HPutDone? || pc.HNotify? || pc.HWantPull? || pc.HInPull? || pc.HWaiting? }

  /** The enclave has a command at hand. */
  predicate Working(pc: EnclavePc) { pc.EPulled? || pc.EReading? || pc.EWriting? || pc.EWantPut? || pc.EInPut? }

  /** The client's operation is what the command says. */
  predicate Untouched(p: Setup, k: nat, values: Values, memory: seq<byte>)
  {
    values == ValuesOf(p, k) && memory == MemoryOf(p, k)
  }

  /** How far the enclave is with the command at hand. */
  predicate Progressing(p: Setup, s: Handoff)
    requires s.next < Total(p)
  {
    var k := s.next;
    var exiting := k == |p.commands|;
    match s.enclave
    case EPulled =>
      Untouched(p, k, s.values, s.memory) && s.given == s.values && s.pulled == [] && s.executed == AllSeen(p)[..k]
    case EReading =>
      && !exiting && Untouched(p, k, s.values, s.memory) && s.given == s.values
      && |s.pulled| <= s.given.size && s.pulled <= s.memory && s.executed == AllSeen(p)[..k]
    case EWriting =>
      && !exiting && s.executed == AllSeen(p)[..k + 1] && s.answer == AnswerTo(p, k)
      && s.written <= s.answer.values.size <= |MemoryOf(p, k)| == |s.memory|
      && s.memory == Overwrite(MemoryOf(p, k), s.answer.memory, s.written)
    case EWantPut => Answered(p, k, s.answer, s.memory, s.executed)
    case EInPut => Answered(p, k, s.answer, s.memory, s.executed)
    case _ => false
  }

  predicate Answered(p: Setup, k: nat, answer: Answer, memory: seq<byte>, executed: seq<Command>)
    requires k < Total(p)
  {
    && answer == AnswerTo(p, k) && answer.(memory := memory) == Exchanged(p, k)
    && executed == AllSeen(p)[..AtMost(k + 1, |p.commands|)]
  }

  /** Where the two threads stand with respect to each other. */
  predicate Handed(p: Setup, s: Handoff)
  {
    && s.next <= Total(p) && (s.host in {HJoining, HDone} ==> s.next == Total(p))
    && (s.host in {HWantPut, HInPut} ==> s.next < Total(p))
    && if s.invoking then
         // a command is with the enclave
         && Blocked(s.host) && s.next < Total(p) && s.current == s.next && s.operation == (s.next < |p.commands|)
         && if Working(s.enclave) then s.taken == s.next + 1 && Progressing(p, s)
            else
              && s.enclave in {EWantPull, EInPull, EWaiting, ENotify}
              && s.taken == s.next && Untouched(p, s.next, s.values, s.memory) && s.wire == s.values
              && s.executed == AllSeen(p)[..s.next]
       else if Blocked(s.host) then
         // its result is there
         && s.next < Total(p) && s.taken == s.next + 1
         && Answer(s.result, s.values, s.memory) == Exchanged(p, s.next)
         && s.executed == AllSeen(p)[..AtMost(s.next + 1, |p.commands|)] && Resting(p, s)
       else
         && s.taken == s.next && s.executed == AllSeen(p)[..AtMost(s.next, |p.commands|)]
         && (s.host in {HWantPut, HInPut} ==> Untouched(p, s.next, s.values, s.memory))
         && Resting(p, s)
  }

  /** The enclave has no command: it has exited or is on its way there after the last one, else waits for the next. */
  predicate Resting(p: Setup, s: Handoff)
  {
    s.enclave in {EPutDone, ENotify}
    || (if s.taken == Total(p) then s.enclave.EExited? else s.enclave in {EWantPull, EInPull, EWaiting})
  }

  /** A thread sleeps only while it has nothing to do, or the other is about to wake it; and the host is not done
      before the enclave is. */
  predicate Wakes(s: Handoff)
  {
    && (s.host.HDone? ==> s.enclave.EExited?)
    && (s.host.HWaiting? && !s.invoking ==> s.enclave in {EPutDone, ENotify})
    && (s.enclave.EWaiting? && s.invoking ==> s.host in {HPutDone, HNotify})
  }

  predicate Inv(p: Setup, s: Handoff)
  {
    && LockHeld(s) && Handed(p, s) && Wakes(s) && s.taken <= Total(p)
    && |s.returned| == s.next && forall k | 0 <= k < s.next :: s.returned[k] == Exchanged(p, k)
  }

  lemma InitialInv(p: Setup)
    ensures Inv(p, Initial())
  {
  }

  lemma PutKeepsInv(p: Setup, s: Handoff)
    requires Inv(p, s) && s.host in {HIdle, HWantPut, HInPut, HPutDone} && StepHost(p, s).Some?
    ensures Inv(p, StepHost(p, s).value)
  {
    hide Exchanged, AnswerTo, AllSeen, ValuesOf, MemoryOf, Overwrite;
  }

  lemma PullKeepsInv(p: Setup, s: Handoff)
    requires Inv(p, s) && s.host in {HNotify, HWantPull} && StepHost(p, s).Some?
    ensures Inv(p, StepHost(p, s).value)
  {
    hide Exchanged, AnswerTo, AllSeen, ValuesOf, MemoryOf, Overwrite, Answered;
  }

  lemma ReturnKeepsInv(p: Setup, s: Handoff)
    requires Inv(p, s) && s.host !in {HIdle, HWantPut, HInPut, HPutDone, HNotify, HWantPull} && StepHost(p, s).Some?
    ensures Inv(p, StepHost(p, s).value)
  {
    hide Exchanged, AnswerTo, AllSeen, ValuesOf, MemoryOf, Overwrite, Answered;
  }

  lemma HostKeepsInv(p: Setup, s: Handoff)
    requires Inv(p, s) && StepHost(p, s).Some?
    ensures Inv(p, StepHost(p, s).value)
  {
    hide *;
    if s.host in {HIdle, HWantPut, HInPut, HPutDone} {
      PutKeepsInv(p, s);
    } else if s.host in {HNotify, HWantPull} {
      PullKeepsInv(p, s);
    } else {
      ReturnKeepsInv(p, s);
    }
  }

  /** While the enclave reads, it has the first octets of the memory that the command says. */
  lemma WhileReading(p: Setup, s: Handoff)
    requires KeepsSizes(p) && Inv(p, s) && s.enclave.EReading?
    ensures s.next < |p.commands| && s.taken == s.next + 1 && s.executed == AllSeen(p)[..s.next]
    ensures s.given == s.values && Untouched(p, s.next, s.values, s.memory)
    ensures |s.pulled| <= s.given.size <= |s.memory| && s.pulled <= s.memory
  {
    assert Progressing(p, s);
    SizeFits(p, s.next);
  }

  /** When all of it is there, the command executed is the one issued. */
  lemma Executes(p: Setup, s: Handoff, n: nat)
    requires KeepsSizes(p) && Inv(p, s) && s.enclave.EReading? && |s.pulled| >= s.given.size
    ensures s.next < |p.commands|
    ensures StepEnclave(p, s, n)
         == Some(s.(enclave := EWriting, executed := AllSeen(p)[..s.next + 1], answer := AnswerTo(p, s.next),
                    written := 0))
    ensures AnswerTo(p, s.next).values.size <= |s.pulled| <= |s.memory|
  {
    hide *;
    WhileReading(p, s);
    IssuedIs(p, s.next, s.given, s.values, s.memory);
    Executed(p, s.next, s.given, s.pulled);
    StepExecutes(p, s, n);
  }

  lemma IssuedIs(p: Setup, k: nat, given: Values, values: Values, memory: seq<byte>)
    requires k < |p.commands| && Untouched(p, k, values, memory) && given == values
    ensures given == p.commands[k].values && memory == p.commands[k].memory
  {
  }

  lemma StepExecutes(p: Setup, s: Handoff, n: nat)
    requires s.enclave.EReading? && |s.pulled| >= s.given.size && 0 < s.taken <= |p.commands|
    ensures var done := s.executed + [Command(p.commands[s.taken - 1].id, s.given, s.pulled)];
            StepEnclave(p, s, n)
            == Some(s.(enclave := EWriting, executed := done, answer := p.application(done), written := 0))
  {
  }

  lemma ReadsChunk(p: Setup, s: Handoff, n: nat)
    requires KeepsSizes(p) && Inv(p, s) && s.enclave.EReading? && |s.pulled| < s.given.size
    ensures s.given.size <= |s.memory|
    ensures var m := AtMost(n, s.given.size - |s.pulled|);
            StepEnclave(p, s, n) == if m == 0 then None else Some(s.(pulled := s.memory[..|s.pulled| + m]))
  {
    WhileReading(p, s);
    assert s.pulled == s.memory[..|s.pulled|];
    ChunkRead(s.memory, |s.pulled|, AtMost(n, s.given.size - |s.pulled|));
    hide Inv, KeepsSizes, AllSeen, AnswerTo;
  }

  /** A chunk of the parameters is read, or all are there and the command is executed. */
  lemma ReadKeepsInv(p: Setup, s: Handoff, n: nat)
    requires KeepsSizes(p) && Inv(p, s) && s.enclave.EReading? && StepEnclave(p, s, n).Some?
    ensures Inv(p, StepEnclave(p, s, n).value)
  {
    hide KeepsSizes, Overwrite, Exchanged, AllSeen, AnswerTo, StepReading, MemoryOf, ValuesOf;
    WhileReading(p, s);
    if |s.pulled| < s.given.size {
      ReadsChunk(p, s, n);
    } else {
      Executes(p, s, n);
      NothingOverwritten(s.memory, AnswerTo(p, s.next).memory);
    }
  }

  lemma SizeFits(p: Setup, k: nat)
    requires KeepsSizes(p) && k < |p.commands|
    ensures ValuesOf(p, k).size <= |MemoryOf(p, k)|
  {
  }

  /** A chunk of the answer is written. */
  lemma WriteKeepsInv(p: Setup, s: Handoff, n: nat)
    requires Inv(p, s) && s.enclave.EWriting? && StepEnclave(p, s, n).Some?
    ensures Inv(p, StepEnclave(p, s, n).value)
  {
    assert Progressing(p, s);
    hide Overwrite, AllSeen, AnswerTo, MemoryOf;
    if s.written < s.answer.values.size {
      OverwriteMore(MemoryOf(p, s.next), s.answer.memory, s.written,
                    s.written + AtMost(n, s.answer.values.size - s.written));
    }
  }

  lemma ChunkRead(memory: seq<byte>, i: nat, m: nat)
    requires i + m <= |memory|
    ensures memory[..i] + memory[i..i + m] == memory[..i + m]
  {
  }

  /** The application is given the command that was issued. */
  lemma Executed(p: Setup, k: nat, given: Values, pulled: seq<byte>)
    requires KeepsSizes(p) && k < |p.commands| && given == p.commands[k].values
    requires given.size == |pulled| && pulled <= p.commands[k].memory
    ensures AllSeen(p)[..k] + [Command(p.commands[k].id, given, pulled)] == AllSeen(p)[..k + 1]
    ensures AnswerTo(p, k) == p.application(AllSeen(p)[..k + 1])
    ensures AnswerTo(p, k).values.size <= |pulled|
  {
    var h := AllSeen(p)[..k + 1];
    assert h != [] && h[|h| - 1] == Seen(p.commands[k]);
    assert Seen(p.commands[k]) == Command(p.commands[k].id, given, pulled);
  }

  lemma NothingOverwritten(memory: seq<byte>, answer: seq<byte>)
    ensures Overwrite(memory, answer, 0) == memory
  {
  }

  lemma OverwriteMore(memory: seq<byte>, answer: seq<byte>, i: nat, j: nat)
    requires i <= j
    ensures Overwrite(Overwrite(memory, answer, i), answer, j) == Overwrite(memory, answer, j)
  {
  }

  lemma TakeKeepsInv(p: Setup, s: Handoff, n: nat)
    requires Inv(p, s) && s.enclave in {EWantPull, EInPull, EWaiting} && StepEnclave(p, s, n).Some?
    ensures Inv(p, StepEnclave(p, s, n).value)
  {
    hide Exchanged, Overwrite, MemoryOf;
  }

  lemma LookKeepsInv(p: Setup, s: Handoff, n: nat)
    requires Inv(p, s) && s.enclave.EPulled? && StepEnclave(p, s, n).Some?
    ensures Inv(p, StepEnclave(p, s, n).value)
  {
    ClosingAnswer(p);
    assert Progressing(p, s);
    hide AllSeen, Overwrite;
  }

  lemma AnswerKeepsInv(p: Setup, s: Handoff, n: nat)
    requires Inv(p, s) && s.enclave in {EWantPut, EInPut, EPutDone, ENotify, EExited} && StepEnclave(p, s, n).Some?
    ensures Inv(p, StepEnclave(p, s, n).value)
  {
    hide Exchanged, Overwrite, MemoryOf;
  }

  lemma ClosingAnswer(p: Setup)
    ensures Exchanged(p, |p.commands|) == AnswerTo(p, |p.commands|) == Answer(0, NO_VALUES, [])
    ensures MemoryOf(p, |p.commands|) == []
  {
  }

  lemma EnclaveKeepsInv(p: Setup, s: Handoff, n: nat)
    requires KeepsSizes(p) && Inv(p, s) && StepEnclave(p, s, n).Some?
    ensures Inv(p, StepEnclave(p, s, n).value)
  {
    hide *;
    if s.enclave.EReading? {
      ReadKeepsInv(p, s, n);
    } else if s.enclave.EWriting? {
      WriteKeepsInv(p, s, n);
    } else if s.enclave.EPulled? {
      LookKeepsInv(p, s, n);
    } else if s.enclave in {EWantPull, EInPull, EWaiting} {
      TakeKeepsInv(p, s, n);
    } else {
      AnswerKeepsInv(p, s, n);
    }
  }

  /** Every move keeps the invariant. */
  lemma NextKeepsInv(p: Setup, s: Handoff, move: Move)
    requires KeepsSizes(p) && Inv(p, s) && Next(p, s, move).Some?
    ensures Inv(p, Next(p, s, move).value)
  {
    hide KeepsSizes, Exchanged, StepHost, StepEnclave;
    match move
    case HostStep => HostKeepsInv(p, s);
    case EnclaveStep(n) => EnclaveKeepsInv(p, s, n);
    case _ => NoiseKeepsInv(p, s, move);
  }

  lemma NoiseKeepsInv(p: Setup, s: Handoff, move: Move)
    requires Inv(p, s) && Next(p, s, move).Some? && !move.HostStep? && !move.EnclaveStep?
    ensures Inv(p, Next(p, s, move).value)
  {
    hide Exchanged, AnswerTo, AllSeen, ValuesOf, MemoryOf, StepHost, StepEnclave;
  }

  /** The state after an interleaving, if it is one. */
  function Run(p: Setup, s: Handoff, moves: seq<Move>): Option<Handoff>
    decreases |moves|
  {
    if moves == [] then Some(s)
    else match Next(p, s, moves[0])
      case None => None
      case Some(t) => Run(p, t, moves[1..])
  }

  lemma {:induction false} AlwaysInv(p: Setup, s: Handoff, moves: seq<Move>)
    requires KeepsSizes(p) && Inv(p, s) && Run(p, s, moves).Some?
    ensures Inv(p, Run(p, s, moves).value)
    decreases |moves|
  {
    hide KeepsSizes, Inv, Next;
    if moves != [] {
      NextKeepsInv(p, s, moves[0]);
      AlwaysInv(p, Next(p, s, moves[0]).value, moves[1..]);
    }
  }

  // What the invariant gives, over all interleavings.

  /** Exactly once, and to its caller: whatever the interleaving, the commands executed so far are those issued, each
      once and in order, and every call has returned its own answer, which is that of a direct call if it succeeded. */
  lemma ExactlyOnce(p: Setup, moves: seq<Move>)
    requires KeepsSizes(p) && Run(p, Initial(), moves).Some?
    ensures var s := Run(p, Initial(), moves).value;
            && (forall k | 0 <= k < |s.returned| :: k < Total(p) && s.returned[k] == Exchanged(p, k))
            && (forall k | 0 <= k < |s.returned| :: s.returned[k].result == 0 ==> s.returned[k] == Direct(p, k))
            && s.executed <= AllSeen(p) && |s.returned| - 1 <= |s.executed| <= |s.returned| + 1
            && (s.host.HDone? ==> s.enclave.EExited? && s.executed == AllSeen(p) && |s.returned| == Total(p))
  {
    hide Run, Exchanged, AnswerTo, AllSeen, MemoryOf, KeepsSizes, Direct;
    InitialInv(p);
    AlwaysInv(p, Initial(), moves);
    var s := Run(p, Initial(), moves).value;
    forall k | 0 <= k < |s.returned| ensures s.returned[k].result == 0 ==> s.returned[k] == Direct(p, k) {
      SuccessIsDirect(p, k);
    }
  }

  lemma SuccessIsDirect(p: Setup, k: nat)
    requires k < Total(p)
    ensures Exchanged(p, k).result == 0 ==> Exchanged(p, k) == Direct(p, k)
  {
    hide AnswerTo, Overwrite;
  }

  /** The octets with which a command was issued, as far as they count, are those it was executed on. */
  predicate ExecutedAs(c: Command, d: Command)
  {
    c.values.size <= |c.memory| && d.id == c.id && d.values == c.values && d.memory == c.memory[..c.values.size]
  }

  /** A call comes back with the application's result and values, and with its output over the beginning of the
      memory that the command was issued with. */
  predicate ComesBack(c: Command, r: Answer, a: Answer)
  {
    && a.result == r.result && a.values == r.values && |a.memory| == |c.memory| && r.values.size <= |r.memory|
    && forall i | 0 <= i < |a.memory| :: a.memory[i] == if i < r.values.size then r.memory[i] else c.memory[i]
  }

  /** The same without naming what is exchanged: the commands executed are those issued, on what they were issued with;
      the application's answer to the k-th, after the ones before it, is what the k-th caller gets. */
  lemma EachItsOwn(p: Setup, moves: seq<Move>)
    requires KeepsSizes(p) && Run(p, Initial(), moves).Some?
    ensures var s := Run(p, Initial(), moves).value;
            && |s.executed| <= |p.commands|
            && (forall k | 0 <= k < |s.executed| :: ExecutedAs(p.commands[k], s.executed[k]))
            && (forall k | 0 <= k < |s.returned| ::
                  if k < |p.commands| then
                    k < |s.executed| && ComesBack(p.commands[k], p.application(s.executed[..k + 1]), s.returned[k])
                  else s.returned[k] == Answer(0, NO_VALUES, []))
  {
    hide Run, Exchanged, AllSeen, KeepsSizes, ExecutedAs, ComesBack;
    InitialInv(p);
    AlwaysInv(p, Initial(), moves);
    var s := Run(p, Initial(), moves).value;
    forall k | 0 <= k < |s.executed| ensures ExecutedAs(p.commands[k], s.executed[k]) {
      SeenAs(p, k);
    }
    forall k | 0 <= k < |s.returned|
      ensures if k < |p.commands| then
                k < |s.executed| && ComesBack(p.commands[k], p.application(s.executed[..k + 1]), s.returned[k])
              else s.returned[k] == Answer(0, NO_VALUES, [])
    {
      ExchangedIs(p, k);
      if k < |p.commands| {
        ExecutedBefore(p, s, k);
      }
    }
  }

  /** What has been returned has been executed. */
  lemma ExecutedBefore(p: Setup, s: Handoff, k: nat)
    requires Inv(p, s) && k < |s.returned| && k < |p.commands|
    ensures k < |s.executed| && s.executed[..k + 1] == AllSeen(p)[..k + 1]
  {
    hide Exchanged, AnswerTo, AllSeen, MemoryOf, ValuesOf, Overwrite;
  }

  lemma SeenAs(p: Setup, k: nat)
    requires KeepsSizes(p) && k < |p.commands|
    ensures ExecutedAs(p.commands[k], AllSeen(p)[k])
  {
  }

  lemma ExchangedIs(p: Setup, k: nat)
    requires KeepsSizes(p) && k < Total(p)
    ensures k < |p.commands| ==> ComesBack(p.commands[k], p.application(AllSeen(p)[..k + 1]), Exchanged(p, k))
    ensures k == |p.commands| ==> Exchanged(p, k) == Answer(0, NO_VALUES, [])
  {
    if k < |p.commands| {
      var h := AllSeen(p)[..k + 1];
      assert h[|h| - 1] == Seen(p.commands[k]);
    }
  }

  /** Outside the lock the enclave touches the parameters only while the flag is up, the operation is that of the call
      under way, and its caller is blocked in that call. */
  lemma AccessIsExclusive(p: Setup, moves: seq<Move>)
    requires KeepsSizes(p) && Run(p, Initial(), moves).Some?
    ensures var s := Run(p, Initial(), moves).value;
            s.enclave in {EReading, EWriting} ==>
              s.invoking && s.operation && s.current == |s.returned| && Blocked(s.host) && s.owner != Some(Enclave)
  {
    hide Run, Exchanged, AnswerTo, AllSeen, MemoryOf, KeepsSizes;
    InitialInv(p);
    AlwaysInv(p, Initial(), moves);
  }

  /** No reachable state is a deadlock, even if no thread ever wakes up for no reason: until both threads are done,
      one of them can go on. */
  lemma NoDeadlock(p: Setup, moves: seq<Move>)
    requires KeepsSizes(p) && Run(p, Initial(), moves).Some?
    ensures var s := Run(p, Initial(), moves).value;
            || (s.host.HDone? && s.enclave.EExited?)
            || StepHost(p, s).Some?
            || forall n: nat | n > 0 :: StepEnclave(p, s, n).Some?
  {
    hide Run, StepHost, StepEnclave, Inv, KeepsSizes;
    InitialInv(p);
    AlwaysInv(p, Initial(), moves);
    var s := Run(p, Initial(), moves).value;
    forall n: nat | n > 0
      ensures (s.host.HDone? && s.enclave.EExited?) || StepHost(p, s).Some? || StepEnclave(p, s, n).Some?
    {
      CanGoOn(p, s, n);
    }
  }

  lemma CanGoOn(p: Setup, s: Handoff, n: nat)
    requires Inv(p, s) && n > 0
    ensures (s.host.HDone? && s.enclave.EExited?) || StepHost(p, s).Some? || StepEnclave(p, s, n).Some?
  {
    hide Exchanged, AnswerTo, AllSeen, ValuesOf, MemoryOf;
    assert s.owner.None? || s.owner.value.Host? || s.owner.value.Enclave?;
  }

  // Why every session ends.

  predicate Quiet(move: Move) { move.HostStep? || move.EnclaveStep? }

  /** What the commands from number `k` on cost the enclave. */
  function Cost(p: Setup, k: nat): nat
    decreases Total(p) - k
  {
    if k >= Total(p) then 0 else 2 * |MemoryOf(p, k)| + 20 + Cost(p, k + 1)
  }

  function HostRank(pc: HostPc): nat
  {
    match pc
    case HIdle => 12 case HWantPut => 11 case HInPut => 10 case HPutDone => 9 case HNotify => 8
    case HWantPull => 3 case HInPull => 2 case HWaiting => 1 case HJoining => 1 case HDone => 0
  }

  function EnclaveRank(pc: EnclavePc, memory: nat, pulled: nat, size: nat, written: nat): int
  {
    match pc
    case EPulled => 2 * memory + 13
    case EReading => 2 * memory - pulled + 12
    case EWriting => size - written + 11
    case EWantPut => 10 case EInPut => 9 case EPutDone => 8 case ENotify => 7
    case EWantPull => 2 case EInPull => 1 case EWaiting => 0 case EExited => 0
  }

  /** A measure that every step of a thread takes down, notifications that wake the other included. */
  function Measure(p: Setup, s: Handoff): int
  {
    20 * (Total(p) - s.next) + HostRank(s.host) + Cost(p, s.taken)
    + EnclaveRank(s.enclave, |s.memory|, |s.pulled|, s.answer.values.size, s.written)
  }

  lemma MeasureIsNat(p: Setup, s: Handoff)
    requires Inv(p, s)
    ensures Measure(p, s) >= 0
  {
    hide Exchanged, AnswerTo, AllSeen, ValuesOf, MemoryOf, Cost;
  }

  lemma IdleHost(p: Setup, s: Handoff)
    requires Inv(p, s)
    ensures s.host.HIdle? ==> !Working(s.enclave)
    ensures s.host.HInPull? ==> s.next < Total(p)
  {
    hide Exchanged, AnswerTo, AllSeen, Overwrite;
  }

  lemma HostDescends(p: Setup, s: Handoff)
    requires Inv(p, s) && StepHost(p, s).Some?
    ensures Measure(p, StepHost(p, s).value) < Measure(p, s)
  {
    IdleHost(p, s);
    hide AnswerTo, AllSeen, ValuesOf, MemoryOf, Cost, Inv, StepEnclave;
    if !s.host.HIdle? && !s.host.HNotify? {
      hide EnclaveRank;
    }
  }

  lemma CostNext(p: Setup, k: nat)
    requires k < Total(p)
    ensures Cost(p, k) == 2 * |MemoryOf(p, k)| + 20 + Cost(p, k + 1)
  {
  }

  lemma TakingDescends(p: Setup, s: Handoff, n: nat)
    requires Inv(p, s) && s.enclave in {EWantPull, EInPull} && StepEnclave(p, s, n).Some?
    ensures Measure(p, StepEnclave(p, s, n).value) < Measure(p, s)
  {
    hide Exchanged, AnswerTo, AllSeen, ValuesOf, MemoryOf, Overwrite, Cost;
    if s.invoking {
      CostNext(p, s.next);
    }
  }

  lemma ReadingDescends(p: Setup, s: Handoff, n: nat)
    requires KeepsSizes(p) && Inv(p, s) && s.enclave.EReading? && StepEnclave(p, s, n).Some?
    ensures Measure(p, StepEnclave(p, s, n).value) < Measure(p, s)
  {
    hide KeepsSizes, Inv, StepReading, Cost, AllSeen, AnswerTo;
    WhileReading(p, s);
    if |s.pulled| < s.given.size {
      ReadsChunk(p, s, n);
    } else {
      Executes(p, s, n);
    }
  }

  lemma WorkingDescends(p: Setup, s: Handoff, n: nat)
    requires Inv(p, s) && s.enclave in {EPulled, EWriting} && StepEnclave(p, s, n).Some?
    ensures Measure(p, StepEnclave(p, s, n).value) < Measure(p, s)
  {
    assert Progressing(p, s);
    assert s.enclave.EPulled? ==> s.pulled == [];
    hide KeepsSizes, Exchanged, AnswerTo, AllSeen, ValuesOf, MemoryOf, Overwrite, Cost, Inv, Handed, Progressing,
         Answered;
  }

  lemma EnclaveDescends(p: Setup, s: Handoff, n: nat)
    requires KeepsSizes(p) && Inv(p, s) && StepEnclave(p, s, n).Some?
    ensures Measure(p, StepEnclave(p, s, n).value) < Measure(p, s)
  {
    if s.enclave in {EWantPull, EInPull} {
      hide *;
      TakingDescends(p, s, n);
    } else if s.enclave.EReading? {
      hide *;
      ReadingDescends(p, s, n);
    } else if s.enclave in {EPulled, EWriting} {
      hide *;
      WorkingDescends(p, s, n);
    } else {
      hide Inv, KeepsSizes, Cost;
    }
  }

  /** However the two threads interleave, between them they take no more steps than the measure says, so with
      `NoDeadlock` every session comes to its end. */
  lemma {:induction false} RunsAreFinite(p: Setup, s: Handoff, moves: seq<Move>)
    requires KeepsSizes(p) && Inv(p, s) && Run(p, s, moves).Some? && forall m <- moves :: Quiet(m)
    ensures |moves| <= Measure(p, s)
    decreases |moves|
  {
    hide KeepsSizes, Inv, Measure, StepHost, StepEnclave;
    MeasureIsNat(p, s);
    if moves != [] {
      NextKeepsInv(p, s, moves[0]);
      assert Quiet(moves[0]);
      if moves[0].HostStep? {
        HostDescends(p, s);
      } else {
        EnclaveDescends(p, s, moves[0].n);
      }
      RunsAreFinite(p, Next(p, s, moves[0]).value, moves[1..]);
    }
  }
}
