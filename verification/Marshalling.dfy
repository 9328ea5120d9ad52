/** How the parameters of a command cross into the trusted application and back. teep-broker-app/teec-keystone.cpp and
    `eapp_entry` carry them in chunks through shared memory; teep-broker-app/teec-pc.c copies them directly. */
module Marshalling {
  import opened Bytes

  const N_PARAMS: nat := 4
  const WRITE_CHUNK: nat := 256
  const TEE_SUCCESS: u32 := 0

  datatype ParamType =
    | NONE
    | VALUE_INPUT
    | VALUE_OUTPUT
    | VALUE_INOUT
    | MEMREF_INPUT
    | MEMREF_OUTPUT
    | MEMREF_INOUT
    | UNKNOWN_TYPE

  predicate ValueIn(t: ParamType) { t.VALUE_INPUT? || t.VALUE_INOUT? }

  predicate ValueOut(t: ParamType) { t.VALUE_OUTPUT? || t.VALUE_INOUT? }

  predicate MemoryIn(t: ParamType) { t.MEMREF_INPUT? || t.MEMREF_INOUT? }

  predicate MemoryOut(t: ParamType) { t.MEMREF_OUTPUT? || t.MEMREF_INOUT? }

  predicate IsMemory(t: ParamType) { MemoryIn(t) || MemoryOut(t) }

  /** A parameter as its client sees it. */
  datatype HostParam = HostParam(a: u32, b: u32, buffer: seq<byte>, size: nat)

  /** A parameter as the trusted application sees it, with memory of its own. */
  datatype TeeParam = TeeParam(a: u32, b: u32, data: seq<byte>, size: nat)

  const ZERO_PARAM: TeeParam := TeeParam(0, 0, [], 0)

  /** A parameter in the command that the enclave pulls. */
  datatype WireParam = WireParam(a: u32, b: u32, size: nat)

  /** What a trusted application makes of its parameters. */
  type Ta = seq<TeeParam> -> (u32, seq<TeeParam>)

  function Zeros(n: nat): (s: seq<byte>)
    ensures |s| == n
  {
    seq(n, _ => 0)
  }

  /** What the trusted application is given. */
  function Prepared(t: ParamType, p: HostParam): TeeParam
    requires p.size <= |p.buffer|
  {
    if ValueIn(t) then ZERO_PARAM.(a := p.a, b := p.b)
    else if MemoryIn(t) then ZERO_PARAM.(data := p.buffer[..p.size], size := p.size)
    else if t.MEMREF_OUTPUT? then ZERO_PARAM.(data := Zeros(p.size), size := p.size)
    else ZERO_PARAM
  }

  /** What the client gets back. */
  function WrittenBack(t: ParamType, p: HostParam, q: TeeParam): HostParam
    requires MemoryOut(t) ==> q.size <= |q.data| <= |p.buffer|
  {
    if ValueOut(t) then p.(a := q.a, b := q.b)
    else if MemoryOut(t) then p.(buffer := q.data[..q.size] + p.buffer[q.size..], size := q.size)
    else p
  }

  // What the two functions mean, parameter type by parameter type.

  /** Input memory and values arrive as the client has them, output memory arrives zeroed, and nothing else does. */
  predicate Carried(t: ParamType, p: HostParam, q: TeeParam)
    requires p.size <= |p.buffer|
  {
    match t
    case VALUE_INPUT => q.a == p.a && q.b == p.b && q.data == [] && q.size == 0
    case VALUE_INOUT => q.a == p.a && q.b == p.b && q.data == [] && q.size == 0
    case MEMREF_INPUT => q.data == p.buffer[..p.size] && q.size == p.size && q.a == q.b == 0
    case MEMREF_INOUT => q.data == p.buffer[..p.size] && q.size == p.size && q.a == q.b == 0
    case MEMREF_OUTPUT =>
      && |q.data| == q.size == p.size && q.a == q.b == 0
      && forall i | 0 <= i < |q.data| :: q.data[i] == 0
    case _ => q.a == q.b == q.size == 0 && q.data == []
  }

  /** Output values replace the client's, output memory goes over the beginning of the client's with its size, and
      nothing else changes. */
  predicate Returned(t: ParamType, p: HostParam, q: TeeParam, r: HostParam)
  {
    match t
    case VALUE_OUTPUT => r.a == q.a && r.b == q.b && r.buffer == p.buffer && r.size == p.size
    case VALUE_INOUT => r.a == q.a && r.b == q.b && r.buffer == p.buffer && r.size == p.size
    case MEMREF_OUTPUT => MemoryReturned(p, q, r)
    case MEMREF_INOUT => MemoryReturned(p, q, r)
    case _ => r == p
  }

  predicate MemoryReturned(p: HostParam, q: TeeParam, r: HostParam)
  {
    && q.size <= |q.data| <= |p.buffer|
    && r.a == p.a && r.b == p.b && r.size == q.size && |r.buffer| == |p.buffer|
    && forall i | 0 <= i < |r.buffer| :: r.buffer[i] == if i < q.size then q.data[i] else p.buffer[i]
  }

  /** What the trusted application is given is exactly that. */
  lemma PreparedIsCarried(t: ParamType, p: HostParam, q: TeeParam)
    requires p.size <= |p.buffer|
    ensures q == Prepared(t, p) <==> Carried(t, p, q)
  {
    if t.MEMREF_OUTPUT? && Carried(t, p, q) {
      assert q.data == Zeros(p.size);
    }
  }

  /** And what the client gets back. */
  lemma WrittenBackIsReturned(t: ParamType, p: HostParam, q: TeeParam, r: HostParam)
    requires MemoryOut(t) ==> q.size <= |q.data| <= |p.buffer|
    ensures r == WrittenBack(t, p, q) <==> Returned(t, p, q, r)
  {
    if MemoryOut(t) && Returned(t, p, q, r) {
      assert r.buffer == q.data[..q.size] + p.buffer[q.size..];
    }
  }

  /** The trusted application leaves its memory where it is, and reports no more than it had. */
  predicate KeepsMemory(t: ParamType, p: TeeParam, q: TeeParam)
  {
    MemoryOut(t) ==> |q.data| == |p.data| && q.size <= |q.data|
  }

  function PreparedAll(ts: seq<ParamType>, ps: seq<HostParam>): seq<TeeParam>
    requires |ts| == |ps| && forall i | 0 <= i < |ps| :: ps[i].size <= |ps[i].buffer|
  {
    seq(|ps|, i requires 0 <= i < |ps| => Prepared(ts[i], ps[i]))
  }

  predicate WellBehaved(ts: seq<ParamType>, given: seq<TeeParam>, returned: seq<TeeParam>)
  {
    |ts| == |given| == |returned| && forall i | 0 <= i < |ts| :: KeepsMemory(ts[i], given[i], returned[i])
  }

  function WrittenBackAll(ts: seq<ParamType>, ps: seq<HostParam>, qs: seq<TeeParam>): seq<HostParam>
    requires |ts| == |ps| && forall i | 0 <= i < |ps| :: ps[i].size <= |ps[i].buffer|
    requires WellBehaved(ts, PreparedAll(ts, ps), qs)
  {
    seq(|ps|, i requires 0 <= i < |ps| =>
      assert KeepsMemory(ts[i], PreparedAll(ts, ps)[i], qs[i]);
      WrittenBack(ts[i], ps[i], qs[i]))
  }

  /** Values and sizes are put in place with the result of a command. */
  function Put(t: ParamType, p: HostParam, wire: WireParam): HostParam
  {
    if ValueOut(t) then p.(a := wire.a, b := wire.b) else if MemoryOut(t) then p.(size := wire.size) else p
  }

  /** One parameter of an operation: a pair of values, and a reference to the client's memory. */
  class Slot {
    var a: u32
    var b: u32
    var size: nat
    const buffer: array<byte>

    ghost predicate Valid()
      reads this
    {
      size <= buffer.Length < TWO32
    }

    ghost function View(): HostParam
      reads this, buffer
    {
      HostParam(a, b, buffer[..], size)
    }

    constructor (a: u32, b: u32, buffer: array<byte>, size: nat)
      requires size <= buffer.Length < TWO32
      ensures Valid() && this.buffer == buffer && this.a == a && this.b == b && this.size == size
    {
      this.a, this.b, this.buffer, this.size := a, b, buffer, size;
    }

    /** `read_invoke_param`: a chunk of the client's memory, as much as a chunk holds. */
    method ReadInvokeParam(offset: nat, capacity: nat) returns (chunk: seq<byte>)
      requires Valid()
      ensures offset > size ==> chunk == []
      ensures offset <= size ==>
                chunk == buffer[offset..offset + if size - offset < capacity then size - offset else capacity]
    {
      if offset > size {
        return [];
      }
      var n := if size - offset < capacity then size - offset else capacity;
      chunk := buffer[offset..offset + n];
    }

    /** `write_invoke_param`: what does not fit the client's memory is dropped. */
    method WriteInvokeParam(offset: nat, chunk: seq<byte>)
      requires Valid()
      modifies buffer
      ensures var n := if offset > size then 0 else if size - offset < |chunk| then size - offset else |chunk|;
              forall j | 0 <= j < buffer.Length ::
                buffer[j] == if offset <= j < offset + n then chunk[j - offset] else old(buffer[j])
    {
      if offset <= size {
        var n := if size - offset < |chunk| then size - offset else |chunk|;
        forall j | 0 <= j < n {
          buffer[offset + j] := chunk[j];
        }
      }
    }

    /** The loop of `eapp_entry` that pulls a parameter's memory. It ends as long as a chunk holds anything. */
    method PullMemory(wireSize: nat, capacity: nat) returns (data: seq<byte>)
      requires Valid() && wireSize == size && capacity > 0
      ensures data == buffer[..size]
    {
      data := [];
      var offset := 0;
      while offset < wireSize
        invariant offset <= size && data == buffer[..offset]
      {
        var chunk := ReadInvokeParam(offset, capacity);
        data := data + chunk;
        offset := offset + |chunk|;
      }
    }

    /** The loop of `eapp_entry` that pushes a parameter's memory back. */
    method PushMemory(data: seq<byte>, wireSize: nat)
      requires Valid() && wireSize <= |data| && wireSize <= size
      modifies buffer
      ensures buffer[..] == data[..wireSize] + old(buffer[wireSize..])
    {
      var offset := 0;
      while offset < wireSize
        invariant offset <= wireSize
        invariant forall j | 0 <= j < buffer.Length :: buffer[j] == if j < offset then data[j] else old(buffer[j])
      {
        var n := wireSize - offset;
        if n >= WRITE_CHUNK {
          n := WRITE_CHUNK;
        }
        WriteInvokeParam(offset, data[offset..offset + n]);
        offset := offset + n;
      }
    }

    /** What `put_invoke_command` says of a parameter. */
    method Describe(t: ParamType) returns (wire: WireParam)
      ensures wire == if ValueIn(t) then WireParam(a, b, 0)
                      else if IsMemory(t) then WireParam(0, 0, size) else WireParam(0, 0, 0)
    {
      wire := WireParam(0, 0, 0);
      if ValueIn(t) {
        wire := wire.(a := a, b := b);
      } else if IsMemory(t) {
        wire := wire.(size := size);
      }
    }

    /** The first loop of `eapp_entry`, for one parameter. */
    method Pull(t: ParamType, wire: WireParam, capacity: nat) returns (q: TeeParam)
      requires Valid() && capacity > 0
      requires wire == if ValueIn(t) then WireParam(a, b, 0)
                       else if IsMemory(t) then WireParam(0, 0, size) else WireParam(0, 0, 0)
      ensures q == Prepared(t, View())
    {
      q := ZERO_PARAM;
      if ValueIn(t) {
        q := q.(a := wire.a, b := wire.b);
      } else if MemoryIn(t) {
        var data := PullMemory(wire.size, capacity);
        q := q.(data := data, size := wire.size);
      } else if t.MEMREF_OUTPUT? {
        q := q.(data := Zeros(wire.size), size := wire.size);
      }
    }

    /** The second loop of `eapp_entry`, for one parameter: memory goes back at once, the rest with the result. */
    method Push(t: ParamType, q: TeeParam) returns (wire: WireParam)
      requires Valid() && (MemoryOut(t) ==> q.size <= |q.data| == size)
      modifies buffer
      ensures buffer[..] == if MemoryOut(t) then q.data[..q.size] + old(buffer[q.size..]) else old(buffer[..])
      ensures wire == if ValueOut(t) then WireParam(q.a, q.b, 0)
                      else if MemoryOut(t) then WireParam(0, 0, q.size) else WireParam(0, 0, 0)
    {
      wire := WireParam(0, 0, 0);
      if ValueOut(t) {
        wire := wire.(a := q.a, b := q.b);
      } else if MemoryOut(t) {
        wire := wire.(size := q.size);
        PushMemory(q.data, wire.size);
      }
    }

    /** What `put_invoke_command_result` does to a parameter. */
    method PutResult(t: ParamType, wire: WireParam)
      requires Valid() && (MemoryOut(t) ==> wire.size <= buffer.Length)
      modifies this
      ensures Valid() && View() == Put(t, old(View()), wire)
    {
      if ValueOut(t) {
        a, b := wire.a, wire.b;
      } else if MemoryOut(t) {
        size := wire.size;
      }
    }

    /** `prepare_params`, for one parameter */
    method Prepare(t: ParamType) returns (q: TeeParam)
      requires Valid()
      ensures q == Prepared(t, View())
    {
      q := ZERO_PARAM;
      if ValueIn(t) {
        q := q.(a := a, b := b);
      } else if MemoryIn(t) {
        q := q.(data := buffer[..size], size := size);
      } else if t.MEMREF_OUTPUT? {
        q := q.(data := Zeros(size), size := size);
      }
    }

    /** `writeback_params`, for one parameter */
    method WriteBack(t: ParamType, q: TeeParam)
      requires Valid() && (MemoryOut(t) ==> q.size <= |q.data| <= buffer.Length)
      modifies this, buffer
      ensures Valid() && View() == WrittenBack(t, old(View()), q)
    {
      if ValueOut(t) {
        a, b := q.a, q.b;
      } else if MemoryOut(t) {
        size := q.size;
        forall j | 0 <= j < q.size {
          buffer[j] := q.data[j];
        }
        assert buffer[..] == q.data[..q.size] + old(buffer[..])[q.size..];
      }
    }
  }

  /** A client's operation: its parameters do not share memory. */
  class Operation {
    const types: seq<ParamType>
    const slots: seq<Slot>

    ghost function Repr(): set<object>
    {
      (set i | 0 <= i < |slots| :: slots[i]) + (set i | 0 <= i < |slots| :: slots[i].buffer)
    }

    ghost predicate Valid()
      reads slots
    {
      && |types| == |slots| == N_PARAMS
      && (forall i, j | 0 <= i < j < |slots| :: slots[i] != slots[j] && slots[i].buffer != slots[j].buffer)
      && (forall i | 0 <= i < |slots| :: slots[i].Valid())
    }

    ghost function View(): (ps: seq<HostParam>)
      requires Valid()
      reads slots, Repr()
      ensures |ps| == |types| && forall i | 0 <= i < |ps| :: ps[i].size <= |ps[i].buffer|
    {
      seq(|slots|, i requires 0 <= i < |slots| reads Repr() => slots[i].View())
    }

    constructor (types: seq<ParamType>, slots: seq<Slot>)
      requires |types| == |slots| == N_PARAMS && forall i | 0 <= i < |slots| :: slots[i].Valid()
      requires forall i, j | 0 <= i < j < |slots| :: slots[i] != slots[j] && slots[i].buffer != slots[j].buffer
      ensures Valid() && this.types == types && this.slots == slots
    {
      this.types, this.slots := types, slots;
    }

    lemma AllCarried(params: seq<TeeParam>)
      requires Valid() && |params| == |slots|
      requires forall i | 0 <= i < |slots| :: params[i] == Prepared(types[i], slots[i].View())
      ensures forall i | 0 <= i < |slots| :: Carried(types[i], slots[i].View(), params[i])
    {
      hide Prepared, Carried;
      forall i | 0 <= i < |slots| ensures Carried(types[i], slots[i].View(), params[i]) {
        PreparedIsCarried(types[i], slots[i].View(), params[i]);
      }
    }

    /** `prepare_params` */
    method PrepareParams() returns (params: seq<TeeParam>)
      requires Valid()
      ensures params == PreparedAll(types, View())
      ensures forall i | 0 <= i < |slots| :: Carried(types[i], slots[i].View(), params[i])
    {
      hide Prepared, Carried;
      params := [];
      for i := 0 to |slots|
        invariant |params| == i && forall j | 0 <= j < i :: params[j] == Prepared(types[j], slots[j].View())
      {
        var q := slots[i].Prepare(types[i]);
        params := params + [q];
      }
      AllCarried(params);
    }

    /** `writeback_params` */
    method WritebackParams(params: seq<TeeParam>)
      requires Valid() && WellBehaved(types, PreparedAll(types, View()), params)
      modifies Repr()
      ensures Valid() && View() == WrittenBackAll(types, old(View()), params)
    {
      hide WrittenBack;
      ghost var ps := View();
      Fits(types, ps, params);
      for i := 0 to |slots|
        invariant Valid()
        invariant forall j | 0 <= j < i :: slots[j].View() == WrittenBack(types[j], ps[j], params[j])
        invariant forall j | i <= j < |slots| :: slots[j].View() == ps[j]
      {
        slots[i].WriteBack(types[i], params[i]);
      }
    }

    /** `put_invoke_command` and the first loop of `eapp_entry`: what the enclave is given, chunk by chunk. */
    method PullParams(capacity: nat) returns (params: seq<TeeParam>)
      requires Valid() && capacity > 0
      ensures params == PreparedAll(types, View())
      ensures forall i | 0 <= i < |slots| :: Carried(types[i], slots[i].View(), params[i])
    {
      hide Prepared, Carried;
      params := [];
      for i := 0 to |slots|
        invariant |params| == i && forall j | 0 <= j < i :: params[j] == Prepared(types[j], slots[j].View())
      {
        var wire := slots[i].Describe(types[i]);
        var q := slots[i].Pull(types[i], wire, capacity);
        params := params + [q];
      }
      AllCarried(params);
    }

    /** The second loop of `eapp_entry`, and `put_invoke_command_result`. */
    method PushParams(params: seq<TeeParam>)
      requires Valid() && WellBehaved(types, PreparedAll(types, View()), params)
      modifies Repr()
      ensures Valid() && View() == WrittenBackAll(types, old(View()), params)
    {
      hide WrittenBack, Pushed, KeepsMemory, Prepared;
      ghost var ps := View();
      Fits(types, ps, params);
      var wires := PushAll(params);
      PutAll(ps, params, wires);
    }

    method PutAll(ghost ps: seq<HostParam>, ghost params: seq<TeeParam>, wires: seq<WireParam>)
      requires Valid() && |ps| == |params| == |wires| == |slots|
      requires forall j | 0 <= j < |slots| ::
                 MemoryOut(types[j]) ==> params[j].size <= |params[j].data| <= |ps[j].buffer|
      requires forall j | 0 <= j < |slots| :: Pushed(types[j], ps[j], params[j], slots[j].View(), wires[j])
      modifies Repr()
      ensures Valid()
      ensures forall j | 0 <= j < |slots| :: slots[j].View() == WrittenBack(types[j], ps[j], params[j])
    {
      hide WrittenBack, Pushed, Put;
      for i := 0 to |slots|
        invariant Valid()
        invariant forall j | 0 <= j < i :: slots[j].View() == WrittenBack(types[j], ps[j], params[j])
        invariant forall j | i <= j < |slots| :: Pushed(types[j], ps[j], params[j], slots[j].View(), wires[j])
      {
        PushedThenPut(types[i], ps[i], params[i], slots[i].View(), wires[i]);
        slots[i].PutResult(types[i], wires[i]);
      }
    }

    method PushAll(params: seq<TeeParam>) returns (wires: seq<WireParam>)
      requires Valid() && |params| == |slots|
      requires forall i | 0 <= i < |slots| ::
                 MemoryOut(types[i]) ==> params[i].size <= |params[i].data| == slots[i].size
      modifies Repr()
      ensures Valid() && |wires| == |slots|
      ensures forall j | 0 <= j < |slots| ::
                Pushed(types[j], old(slots[j].View()), params[j], slots[j].View(), wires[j])
    {
      wires := [];
      for i := 0 to |slots|
        invariant Valid() && |wires| == i
        invariant forall j | 0 <= j < i :: Pushed(types[j], old(slots[j].View()), params[j], slots[j].View(), wires[j])
        invariant forall j | i <= j < |slots| :: slots[j].View() == old(slots[j].View())
      {
        var wire := slots[i].Push(types[i], params[i]);
        wires := wires + [wire];
      }
    }
  }

  /** A parameter whose memory is back, while its values and its size are on the wire. */
  ghost predicate Pushed(t: ParamType, p: HostParam, q: TeeParam, now: HostParam, wire: WireParam)
  {
    && now.a == p.a && now.b == p.b && now.size == p.size
    && (MemoryOut(t) ==> q.size <= |q.data| <= |p.buffer|)
    && now.buffer == (if MemoryOut(t) then q.data[..q.size] + p.buffer[q.size..] else p.buffer)
    && wire == if ValueOut(t) then WireParam(q.a, q.b, 0)
               else if MemoryOut(t) then WireParam(0, 0, q.size) else WireParam(0, 0, 0)
  }

  lemma PushedThenPut(t: ParamType, p: HostParam, q: TeeParam, now: HostParam, wire: WireParam)
    requires Pushed(t, p, q, now, wire)
    ensures MemoryOut(t) ==> q.size <= |q.data| <= |p.buffer| && wire.size <= |now.buffer|
    ensures Put(t, now, wire) == WrittenBack(t, p, q)
  {
  }

  lemma Fits(ts: seq<ParamType>, ps: seq<HostParam>, qs: seq<TeeParam>)
    requires |ts| == |ps| && forall i | 0 <= i < |ps| :: ps[i].size <= |ps[i].buffer|
    requires WellBehaved(ts, PreparedAll(ts, ps), qs)
    ensures forall i | 0 <= i < |ps| :: MemoryOut(ts[i]) ==> qs[i].size <= |qs[i].data| == ps[i].size
  {
    forall i | 0 <= i < |ps| ensures MemoryOut(ts[i]) ==> qs[i].size <= |qs[i].data| == ps[i].size {
      assert KeepsMemory(ts[i], PreparedAll(ts, ps)[i], qs[i]);
    }
  }

  /** What the trusted application left in a parameter is what the client had there. */
  predicate SameAsBefore(t: ParamType, p: HostParam, q: TeeParam)
    requires MemoryOut(t) ==> q.size <= |q.data| <= |p.buffer|
  {
    (ValueOut(t) ==> q.a == p.a && q.b == p.b)
    && (MemoryOut(t) ==> q.size == p.size && q.data[..q.size] == p.buffer[..q.size])
  }

  /** On failure the direct call leaves the operation alone while the enclave's results are still written: the two
      agree on one failed call if what came back is what was there. */
  lemma FailuresAgree(ts: seq<ParamType>, ps: seq<HostParam>, qs: seq<TeeParam>)
    requires |ts| == |ps| && forall i | 0 <= i < |ps| :: ps[i].size <= |ps[i].buffer|
    requires WellBehaved(ts, PreparedAll(ts, ps), qs)
    requires forall i | 0 <= i < |ps| :: MemoryOut(ts[i]) ==> qs[i].size <= |qs[i].data| <= |ps[i].buffer|
    ensures WrittenBackAll(ts, ps, qs) == ps <==> forall i | 0 <= i < |ps| :: SameAsBefore(ts[i], ps[i], qs[i])
  {
    hide KeepsMemory, Prepared;
    forall i | 0 <= i < |ps| ensures WrittenBack(ts[i], ps[i], qs[i]) == ps[i] <==> SameAsBefore(ts[i], ps[i], qs[i]) {
      OneSame(ts[i], ps[i], qs[i]);
    }
    hide WrittenBack, SameAsBefore;
    var w := WrittenBackAll(ts, ps, qs);
    assert forall i | 0 <= i < |ps| :: w[i] == WrittenBack(ts[i], ps[i], qs[i]);
    if forall i | 0 <= i < |ps| :: SameAsBefore(ts[i], ps[i], qs[i]) {
      assert w == ps;
    } else {
      var i :| 0 <= i < |ps| && !SameAsBefore(ts[i], ps[i], qs[i]);
      assert w[i] != ps[i];
    }
  }

  lemma OneSame(t: ParamType, p: HostParam, q: TeeParam)
    requires MemoryOut(t) ==> q.size <= |q.data| <= |p.buffer|
    ensures WrittenBack(t, p, q) == p <==> SameAsBefore(t, p, q)
  {
    if MemoryOut(t) {
      var b := q.data[..q.size] + p.buffer[q.size..];
      assert b[..q.size] == q.data[..q.size];
      if q.data[..q.size] == p.buffer[..q.size] {
        assert b == p.buffer;
      }
    }
  }

  /** An operation that takes nothing back: no output value, and no room in any output memory. */
  predicate NoOutputs(ts: seq<ParamType>, ps: seq<HostParam>)
    requires |ts| == |ps|
  {
    forall i | 0 <= i < |ts| :: !ValueOut(ts[i]) && (MemoryOut(ts[i]) ==> ps[i].size == 0)
  }

  /** Whatever the trusted application leaves in its parameters, nothing changes for the client. */
  ghost predicate NeverChanged(ts: seq<ParamType>, ps: seq<HostParam>)
    requires |ts| == |ps| && forall i | 0 <= i < |ps| :: ps[i].size <= |ps[i].buffer|
  {
    forall qs | WellBehaved(ts, PreparedAll(ts, ps), qs) :: WrittenBackAll(ts, ps, qs) == ps
  }

  /** So the two transports agree on every failing call exactly for operations that take nothing back. */
  lemma TransportsAgreeOnFailure(ts: seq<ParamType>, ps: seq<HostParam>)
    requires |ts| == |ps| && forall i | 0 <= i < |ps| :: ps[i].size <= |ps[i].buffer|
    ensures NoOutputs(ts, ps) <==> NeverChanged(ts, ps)
  {
    hide WrittenBackAll, KeepsMemory, Prepared;
    if NoOutputs(ts, ps) {
      forall qs | WellBehaved(ts, PreparedAll(ts, ps), qs) ensures WrittenBackAll(ts, ps, qs) == ps {
        Fits(ts, ps, qs);
        FailuresAgree(ts, ps, qs);
      }
    } else {
      var i :| 0 <= i < |ts| && (ValueOut(ts[i]) || (MemoryOut(ts[i]) && ps[i].size != 0));
      var qs := Spoiled(ts, ps, i);
      SpoiledBehaves(ts, ps, i);
      Fits(ts, ps, qs);
      FailuresAgree(ts, ps, qs);
      assert !SameAsBefore(ts[i], ps[i], qs[i]);
    }
  }

  /** The parameters as they were given, but for the outputs of parameter `i`. */
  function Spoiled(ts: seq<ParamType>, ps: seq<HostParam>, i: nat): (qs: seq<TeeParam>)
    requires |ts| == |ps| && forall j | 0 <= j < |ps| :: ps[j].size <= |ps[j].buffer|
    requires i < |ps|
    ensures |qs| == |ps| && qs[i].a != ps[i].a && qs[i].size == 0
    ensures qs[i].data == Prepared(ts[i], ps[i]).data
    ensures forall j | 0 <= j < |ps| && j != i :: qs[j] == Prepared(ts[j], ps[j])
  {
    PreparedAll(ts, ps)[i := Prepared(ts[i], ps[i]).(a := if ps[i].a == 0 then 1 else 0, size := 0)]
  }

  lemma SpoiledBehaves(ts: seq<ParamType>, ps: seq<HostParam>, i: nat)
    requires |ts| == |ps| && forall j | 0 <= j < |ps| :: ps[j].size <= |ps[j].buffer|
    requires i < |ps|
    ensures WellBehaved(ts, PreparedAll(ts, ps), Spoiled(ts, ps, i))
  {
  }

  /** One failing call on which they differ: asked for its next task with no room for the address, the agent fails but
      has already set the command. */
  lemma FailedQueryDiffers()
    ensures var ts := [VALUE_OUTPUT, MEMREF_OUTPUT, MEMREF_OUTPUT, NONE];
            var p := HostParam(0, 0, [], 0);
            var given := PreparedAll(ts, [p, p, p, p]);
            var returned := given[0 := given[0].(a := 2)];
            WellBehaved(ts, given, returned) && WrittenBackAll(ts, [p, p, p, p], returned)[0].a == 2
  {
  }

  /** A command was invoked on these parameters: the application was given what they carry and answered `r`; what it
      returned is in the client's operation, unless nothing was written back. */
  ghost predicate Invoked(ts: seq<ParamType>, ps: seq<HostParam>, ta: Ta, r: u32, writes: bool, now: seq<HostParam>)
    requires |ts| == |ps| == |now| && forall i | 0 <= i < |ps| :: ps[i].size <= |ps[i].buffer|
  {
    exists given: seq<TeeParam> | |given| == |ts| && (forall i | 0 <= i < |ts| :: Carried(ts[i], ps[i], given[i])) ::
      && r == ta(given).0
      && if writes then
           |ta(given).1| == |ts| && forall i | 0 <= i < |ts| :: Returned(ts[i], ps[i], ta(given).1[i], now[i])
         else now == ps
  }

  lemma InvocationMeans(ts: seq<ParamType>, ps: seq<HostParam>, ta: Ta, writes: bool, now: seq<HostParam>)
    requires |ts| == |ps| == |now| && forall i | 0 <= i < |ps| :: ps[i].size <= |ps[i].buffer|
    requires WellBehaved(ts, PreparedAll(ts, ps), ta(PreparedAll(ts, ps)).1)
    requires now == if writes then WrittenBackAll(ts, ps, ta(PreparedAll(ts, ps)).1) else ps
    ensures Invoked(ts, ps, ta, ta(PreparedAll(ts, ps)).0, writes, now)
  {
    hide Prepared, WrittenBack, KeepsMemory, Carried, Returned;
    var given := PreparedAll(ts, ps);
    var qs := ta(given).1;
    Fits(ts, ps, qs);
    forall i | 0 <= i < |ts| ensures Carried(ts[i], ps[i], given[i]) {
      PreparedIsCarried(ts[i], ps[i], given[i]);
    }
    forall i | 0 <= i < |ts| ensures writes ==> Returned(ts[i], ps[i], qs[i], now[i]) {
      WrittenBackIsReturned(ts[i], ps[i], qs[i], WrittenBack(ts[i], ps[i], qs[i]));
    }
  }

  /** `TEEC_InvokeCommand` of teec-pc.c: nothing is written back on failure. */
  method DirectInvoke(op: Operation, ta: Ta) returns (r: u32)
    requires op.Valid()
    requires WellBehaved(op.types, PreparedAll(op.types, op.View()), ta(PreparedAll(op.types, op.View())).1)
    modifies op.Repr()
    ensures op.Valid() && r == ta(PreparedAll(op.types, old(op.View()))).0
    ensures op.View() == if r == TEE_SUCCESS
                         then WrittenBackAll(op.types, old(op.View()), ta(PreparedAll(op.types, old(op.View()))).1)
                         else old(op.View())
    ensures Invoked(op.types, old(op.View()), ta, r, r == TEE_SUCCESS, op.View())
  {
    hide Prepared, WrittenBack, KeepsMemory, Carried, Invoked;
    var params := op.PrepareParams();
    var answer := ta(params);
    r := answer.0;
    if r == TEE_SUCCESS {
      op.WritebackParams(answer.1);
    }
    InvocationMeans(op.types, old(op.View()), ta, r == TEE_SUCCESS, op.View());
  }

  /** The same command handed to the enclave: whatever a chunk holds, the outcome is that of the direct call when it
      succeeds. */
  method KeystoneInvoke(op: Operation, ta: Ta, capacity: nat) returns (r: u32)
    requires op.Valid()
    requires WellBehaved(op.types, PreparedAll(op.types, op.View()), ta(PreparedAll(op.types, op.View())).1)
    requires capacity > 0
    modifies op.Repr()
    ensures op.Valid() && r == ta(PreparedAll(op.types, old(op.View()))).0
    ensures op.View() == WrittenBackAll(op.types, old(op.View()), ta(PreparedAll(op.types, old(op.View()))).1)
    ensures Invoked(op.types, old(op.View()), ta, r, true, op.View())
  {
    hide Prepared, WrittenBack, KeepsMemory, Carried, Invoked;
    var params := op.PullParams(capacity);
    var answer := ta(params);
    r := answer.0;
    op.PushParams(answer.1);
    InvocationMeans(op.types, old(op.View()), ta, true, op.View());
  }
}
