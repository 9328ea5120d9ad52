/** Ranges and reading contexts: lib/include/teecbor.h. The functions on `Cursor` say what a reader does;
    class `Context` does it in place. */
module CborReader {
  import opened Bytes
  import opened CborHead
  import opened CborItems

  /** A pair of pointers, either null or into a block of memory. The block travels with the pointers, so
      that two ranges can be compared by where they point. */
  datatype Pointers = Null | Span(mem: seq<byte>, begin: nat, end: nat)

  /** The pointers are ordered and inside their block, and the block fits the address space. */
  type Range = r: Pointers | r.Span? ==> r.begin <= r.end <= |r.mem| < TWO64 witness Null

  /** The octets between the pointers; none for the null range. */
  function Data(r: Range): (s: seq<byte>)
    ensures |s| < TWO64
  {
    if r.Null? then [] else r.mem[r.begin..r.end]
  }

  function Whole(s: seq<byte>): (r: Range)
    requires |s| < TWO64
    ensures Data(r) == s
  {
    Span(s, 0, |s|)
  }

  /** `inner` points nowhere, or inside `outer`. */
  predicate Within(inner: Range, outer: Range)
  {
    inner.Null?
    || (outer.Span? && inner.mem == outer.mem && outer.begin <= inner.begin <= inner.end <= outer.end)
  }

  /** `q` is what is left of `r` after reading part of it. */
  predicate Resumes(q: Range, r: Range)
  {
    Within(q, r) && q.Span? == r.Span? && (r.Span? ==> q.end == r.end)
  }

  /** `r` with its first `k` octets read. */
  function Advance(r: Range, k: nat): (q: Range)
    requires k <= |Data(r)|
    ensures Resumes(q, r) && Data(q) == Data(r)[k..]
  {
    if r.Null? then r else r.(begin := r.begin + k)
  }

  /** The part of `r` read so far when `after` is unread. */
  function Between(r: Range, after: Range): (q: Range)
    requires Resumes(after, r) && r.Span?
    ensures Within(q, r) && Data(r) == Data(q) + Data(after)
  {
    r.(end := after.begin)
  }

  /** `tcbor_range_equal` */
  function RangeEqual(x: Range, y: Range): (b: bool)
    ensures b ==> Data(x) == Data(y)
    ensures b == (x.Null? == y.Null? && Data(x) == Data(y))
  {
    if x.Null? || y.Null? then x.Null? == y.Null?
    else x.end - x.begin == y.end - y.begin && Data(x) == Data(y)
  }

  /** `tcbor_any_t`: the initial octet, and either an argument or a string's payload. */
  datatype AnyHead = Argument(header: byte, value: u64) | Payload(header: byte, bytes: Range)

  type Any = a: AnyHead | a.Payload? <==> IsString(a.header) witness Argument(0, 0)

  predicate IsUint(a: Any) { Major(a.header) == 0 }

  predicate IsNint(a: Any) { Major(a.header) == 1 }

  predicate IsBstr(a: Any) { Major(a.header) == 2 }

  predicate IsTstr(a: Any) { Major(a.header) == 3 }

  predicate IsArray(a: Any) { Major(a.header) == 4 }

  predicate IsMap(a: Any) { Major(a.header) == 5 }

  predicate IsTag(a: Any) { Major(a.header) == 6 }

  predicate IsSimple(a: Any) { Major(a.header) == 7 && Info(a.header) <= 24 }

  predicate IsFalse(a: Any) { IsSimple(a) && a.value == 20 }

  predicate IsTrue(a: Any) { IsSimple(a) && a.value == 21 }

  predicate IsBool(a: Any) { IsFalse(a) || IsTrue(a) }

  predicate IsNull(a: Any) { IsSimple(a) && a.value == 22 }

  /** What a context reads from: its unread range, and how many of its items it has counted. */
  datatype Reading = Position(r: Range, index: u64, count: u64)

  type Cursor = c: Reading | c.index <= c.count witness Position(Null, 0, 0)

  /** `d` is a later position of the same context. */
  predicate Follows(d: Cursor, c: Cursor)
  {
    Resumes(d.r, c.r) && d.count == c.count && c.index <= d.index
  }

  predicate AtEnd(c: Cursor) { c.index == c.count }

  function Toplevel(r: Range): Cursor { Position(r, 0, 1) }

  /** The result of a read: a value and the position after it, or nothing. */
  datatype Got<+T> = Got(value: T, next: Cursor) | Missing(error: Error)

  /** `tcbor_read_any` */
  function GetAny(c: Cursor): (g: Got<Any>)
    ensures g.Got? ==> Follows(g.next, c) && |Data(g.next.r)| < |Data(c.r)|
    ensures g.Got? ==> g.next.r.Span?
    ensures g.Got? && g.value.Payload? ==> Within(g.value.bytes, c.r) && g.value.bytes.Span?
    ensures g.Missing? ==> g.error != OK
  {
    if AtEnd(c) then Missing(END_OF_CONTEXT) else
    match ReadHead(Data(c.r))
    case Failed(e) => Missing(e)
    case Head(header, value, size) =>
      var any := if IsString(header)
                 then Payload(header, Span(c.r.mem, c.r.begin + size - value, c.r.begin + size))
                 else Argument(header, value);
      Got(any, Position(Advance(c.r, size), if IsTag(any) then c.index else c.index + 1, c.count))
  }

  /** A read that accepts only one type. */
  function Expect(c: Cursor, accepts: Any -> bool): (g: Got<Any>)
    ensures g.Got? ==> g == GetAny(c) && accepts(g.value)
    ensures g.Missing? ==> g.error != OK
  {
    var g := GetAny(c);
    if g.Missing? || accepts(g.value) then g else Missing(NOT_MATCH)
  }

  function GetUint(c: Cursor): (g: Got<u64>)
    ensures g.Got? ==> GetAny(c).Got? && g.next == GetAny(c).next
  {
    match Expect(c, IsUint) case Missing(e) => Missing(e) case Got(a, d) => Got(a.value, d)
  }

  function GetNint(c: Cursor): (g: Got<u64>)
    ensures g.Got? ==> GetAny(c).Got? && g.next == GetAny(c).next
  {
    match Expect(c, IsNint) case Missing(e) => Missing(e) case Got(a, d) => Got(a.value, d)
  }

  function GetTag(c: Cursor): (g: Got<u64>)
    ensures g.Got? ==> GetAny(c).Got? && g.next == GetAny(c).next
  {
    match Expect(c, IsTag) case Missing(e) => Missing(e) case Got(a, d) => Got(a.value, d)
  }

  function GetBstr(c: Cursor): (g: Got<Range>)
    ensures g.Got? ==> GetAny(c).Got? && g.next == GetAny(c).next
    ensures g.Got? ==> Within(g.value, c.r) && g.value.Span?
  {
    match Expect(c, IsBstr) case Missing(e) => Missing(e) case Got(a, d) => Got(a.bytes, d)
  }

  function GetTstr(c: Cursor): (g: Got<Range>)
    ensures g.Got? ==> GetAny(c).Got? && g.next == GetAny(c).next
    ensures g.Got? ==> Within(g.value, c.r) && g.value.Span?
  {
    match Expect(c, IsTstr) case Missing(e) => Missing(e) case Got(a, d) => Got(a.bytes, d)
  }

  function GetBool(c: Cursor): (g: Got<bool>)
    ensures g.Got? ==> GetAny(c).Got? && g.next == GetAny(c).next
  {
    match Expect(c, IsBool) case Missing(e) => Missing(e) case Got(a, d) => Got(IsTrue(a), d)
  }

  function GetNull(c: Cursor): (g: Got<()>)
    ensures g.Got? ==> GetAny(c).Got? && g.next == GetAny(c).next
  {
    match Expect(c, IsNull) case Missing(e) => Missing(e) case Got(_, d) => Got((), d)
  }

  /** `tcbor_read_array`: the value is the context opened on the elements. */
  function GetArray(c: Cursor): (g: Got<Cursor>)
    ensures g.Got? ==> GetAny(c).Got? && g.next == GetAny(c).next
    ensures g.Got? ==> g.value.r == g.next.r && g.value.index == 0
  {
    match Expect(c, IsArray) case Missing(e) => Missing(e) case Got(a, d) => Got(Position(d.r, 0, a.value), d)
  }

  /** `tcbor_read_map`: keys and values count separately, and their number must fit 64 bits. */
  function GetMap(c: Cursor): (g: Got<Cursor>)
    ensures g.Got? ==> GetAny(c).Got? && g.next == GetAny(c).next
    ensures g.Got? ==> g.value.r == g.next.r && g.value.index == 0
  {
    match Expect(c, IsMap)
    case Missing(e) => Missing(e)
    case Got(a, d) =>
      if 2 * a.value >= TWO64 then Missing(OVERFLOW) else Got(Position(d.r, 0, 2 * a.value), d)
  }

  /** `tcbor_skip`; an overflow of its counter is not told apart here, see `SkipError`. */
  function GetSkip(c: Cursor, n: u64): (g: Got<()>)
    ensures g.Got? ==> Follows(g.next, c)
    ensures g.Got? && n > 0 ==> |Data(g.next.r)| < |Data(c.r)| && g.next.r.Span?
    ensures g.Got? ==> Items(Data(c.r), n) == Done(Data(g.next.r)) && g.next.index == c.index + n
  {
    if c.count - c.index < n then Missing(END_OF_CONTEXT) else
    match Items(Data(c.r), n)
    case Stop(e) => Missing(e)
    case Done(rest) =>
      var k := |Data(c.r)| - |rest|;
      assert k >= n && rest == Data(c.r)[k..];
      SomethingRead(c.r, k);
      Got((), Position(Advance(c.r, k), c.index + n, c.count))
  }

  lemma SomethingRead(r: Range, k: nat)
    requires k <= |Data(r)|
    ensures k > 0 ==> Advance(r, k).Span? && |Data(Advance(r, k))| < |Data(r)|
  {
  }

  /** The error that skipping `n` items leaves in a context whose error was `before`. */
  function SkipError(c: Cursor, n: u64, before: Error): Error
  {
    if GetSkip(c, n).Got? then if n > 0 then OK else before
    else if n <= c.count - c.index && Overflows(Data(c.r), n) then OVERFLOW
    else GetSkip(c, n).error
  }

  /** `tcbor_read_subobject`: one item, as a range of its own. */
  function GetItem(c: Cursor): (g: Got<Range>)
    ensures g.Got? ==> Follows(g.next, c) && |Data(g.next.r)| < |Data(c.r)|
    ensures g.Got? ==> Within(g.value, c.r) && g.value.Span?
    ensures g.Got? ==> Data(c.r) == Data(g.value) + Data(g.next.r) && Item(Data(c.r)) == Done(Data(g.next.r))
  {
    match GetSkip(c, 1)
    case Missing(e) => Missing(e)
    case Got(_, d) =>
      assert Items(Data(c.r), 1) == Item(Data(c.r)) || Item(Data(c.r)).Stop?;
      Got(Between(c.r, d.r), d)
  }

  /** A sub-object read from anywhere re-parses on its own as exactly one item, with nothing left over. */
  lemma SubobjectIsOneItem(c: Cursor)
    requires GetItem(c).Got?
    ensures var v := GetItem(c).value;
            Item(Data(v)) == Done([])
            && GetItem(Toplevel(v)).Got?
            && GetItem(Toplevel(v)).value == v
            && Data(GetItem(Toplevel(v)).next.r) == []
  {
    hide ReadHead, Item;
    var v := GetItem(c).value;
    ItemLocality(Data(c.r), []);
    assert Taken(Data(c.r), Item(Data(c.r)).rest) + [] == Data(v);
    assert Items(Data(v), 1) == Done([]);
  }

  /** Two contexts that start at the same place read the same value when their heads agree. */
  lemma SameHead(c: Cursor, d: Cursor)
    requires !AtEnd(c) && !AtEnd(d)
    requires c.r.Span? && d.r.Span? && c.r.mem == d.r.mem && c.r.begin == d.r.begin
    requires ReadHead(Data(c.r)) == ReadHead(Data(d.r)) && ReadHead(Data(c.r)).Head?
    ensures GetAny(c).Got? && GetAny(d).Got? && GetAny(c).value == GetAny(d).value
  {
    hide ReadHead;
  }

  lemma TailReplaced(v: seq<byte>, rest: seq<byte>, k: nat)
    requires k <= |v|
    ensures (v + rest)[..k] + v[k..] == v
  {
    assert (v + rest)[..k] == v[..k];
  }

  /** A sub-object starts with the head that is there, and holds all of it. */
  lemma ItemHolds(c: Cursor)
    requires GetItem(c).Got?
    ensures !AtEnd(c) && c.r.Span?
    ensures var v := GetItem(c).value;
            v.Span? && v.mem == c.r.mem && v.begin == c.r.begin && Data(c.r) == Data(v) + Data(GetItem(c).next.r)
            && ReadHead(Data(c.r)).Head? && ReadHead(Data(c.r)).size <= |Data(v)|
  {
    hide ReadHead, Items;
    ItemHead(Data(c.r));
  }

  /** Every head of a sub-object reads on its own as it does in place, whatever its type. */
  lemma HeadIsSubobjectHead(c: Cursor)
    requires GetItem(c).Got?
    ensures GetAny(c).Got? && GetAny(Toplevel(GetItem(c).value)).Got?
    ensures GetAny(Toplevel(GetItem(c).value)).value == GetAny(c).value
  {
    hide ReadHead, GetItem, GetAny, Data;
    ItemHolds(c);
    var s := Data(c.r);
    var v := GetItem(c).value;
    var k := ReadHead(s).size;
    HeadLocality(s, Data(v)[k..]);
    TailReplaced(Data(v), Data(GetItem(c).next.r), k);
    SameHead(c, Toplevel(v));
  }

  /** A string, integer or simple value is a whole item: reading it and reading the sub-object there
      land in the same place. */
  lemma ScalarIsSubobject(c: Cursor)
    requires GetAny(c).Got?
    requires var a := GetAny(c).value; !IsArray(a) && !IsMap(a) && !IsTag(a)
    ensures GetItem(c).Got? && GetItem(c).next == GetAny(c).next
  {
    hide ReadHead;
    ScalarItem(Data(c.r));
  }

  /** What `tcbor_read_int` makes of a 64-bit argument: the low 32 bits as a signed number. */
  function ToInt32(v: u64): (i: int)
    ensures -0x8000_0000 <= i < 0x8000_0000
  {
    var low := v % 0x1_0000_0000;
    if low < 0x8000_0000 then low else low - 0x1_0000_0000
  }

  function ToU64(i: int): (v: u64)
    requires -TWO64 < i < TWO64
  {
    if i < 0 then i + TWO64 else i
  }

  function Complement(v: u64): u64 { TWO64 - 1 - v }

  /** `tcbor_read_int`: an unsigned or negative integer whose 32-bit truncation converts back to its
      argument. */
  function GetInt(c: Cursor): (g: Got<int>)
    ensures g.Got? ==> GetAny(c).Got? && g.next == GetAny(c).next
  {
    match GetUint(c)
    case Got(v, d) => if ToU64(ToInt32(v)) == v then Got(ToInt32(v), d) else Missing(OK)
    case Missing(_) =>
      match GetNint(c)
      case Got(v, d) =>
        var r := ToInt32(Complement(v));
        if ToU64(-1 - r) == v then Got(r, d) else Missing(OK)
      case Missing(_) => Missing(NOT_MATCH)
  }

  /** The integer an unsigned or negative head denotes (section 3.1 of RFC 8949). */
  function IntegerOf(a: Any): int
    requires IsUint(a) || IsNint(a)
  {
    if IsUint(a) then a.value else -1 - a.value
  }

  /** `tcbor_read_int` returns the integer in the data exactly when the argument is below 2^64 - 2^31;
      from there on it accepts too, but returns a number of the other sign. */
  lemma ReadIntExact(c: Cursor)
    requires GetInt(c).Got?
    ensures var a := GetAny(c).value;
            (IsUint(a) || IsNint(a))
            && (GetInt(c).value == IntegerOf(a) <==> a.value < TWO64 - 0x8000_0000)
  {
  }

  /** The largest unsigned integer is read as -1. */
  lemma ReadIntWraps()
    ensures var g := GetInt(Toplevel(Whole(EncodeHead(0, TWO64 - 1))));
            g.Got? && g.value == -1
    ensures var a := GetAny(Toplevel(Whole(EncodeHead(0, TWO64 - 1))));
            a.Got? && IsUint(a.value) && IntegerOf(a.value) == TWO64 - 1
  {
    var s := EncodeHead(0, TWO64 - 1);
    HeadRoundTrip(0, TWO64 - 1, []);
    assert s + [] == s == Data(Whole(s));
    hide EncodeHead, ReadHead;
    assert GetAny(Toplevel(Whole(s))).Got?;
  }

  /** A reading context that its owner advances in place. Every read either moves it to the next position
      or, failing, leaves range, index and count as they were. */
  class Context {
    var r: Range
    var index: u64
    var count: u64
    var error: Error

    function View(): Reading
      reads this
    {
      Position(r, index, count)
    }

    ghost predicate Valid()
      reads this
    {
      index <= count
    }

    /** What every read does to the context: `g` is its specification at the position `before`. */
    ghost predicate Reads<T(!new)>(g: Got<T>, before: Cursor, ok: bool)
      reads this
    {
      && ok == g.Got?
      && View() == (if g.Got? then g.next else before)
      && error == (if g.Got? then OK else g.error)
    }

    constructor (c: Cursor)
      ensures View() == c && error == OK
    {
      r, index, count, error := c.r, c.index, c.count, OK;
    }

    /** `tcbor_fail` */
    method Restore(saved: Cursor)
      modifies this
      ensures View() == saved && error == old(error)
    {
      r, index, count := saved.r, saved.index, saved.count;
    }

    /** `tcbor_read_any` */
    method ReadAny() returns (ok: bool, any: Any)
      requires Valid()
      modifies this
      ensures Valid()
      ensures var g := GetAny(old(View())); Reads(g, old(View()), ok) && (ok ==> any == g.value)
    {
      any := Argument(0, 0);
      if index == count {
        error := END_OF_CONTEXT;
        return false, any;
      }
      var head := PrimitiveReadHead(Data(r));
      if head.Failed? {
        error := head.error;
        return false, any;
      }
      any := if IsString(head.header)
             then Payload(head.header, Span(r.mem, r.begin + head.size - head.value, r.begin + head.size))
             else Argument(head.header, head.value);
      r := Advance(r, head.size);
      error := OK;
      if !IsTag(any) {
        index := index + 1;
      }
      return true, any;
    }

    /** `tcbor_read_uint` */
    method ReadUint() returns (ok: bool, v: u64)
      requires Valid()
      modifies this
      ensures Valid()
      ensures var g := GetUint(old(View())); Reads(g, old(View()), ok) && (ok ==> v == g.value)
    {
      var saved := View();
      v := 0;
      var any;
      ok, any := ReadAny();
      if ok {
        if IsUint(any) {
          v := any.value;
          return;
        }
        error := NOT_MATCH;
      }
      Restore(saved);
      ok := false;
    }

    /** `tcbor_read_nint` */
    method ReadNint() returns (ok: bool, v: u64)
      requires Valid()
      modifies this
      ensures Valid()
      ensures var g := GetNint(old(View())); Reads(g, old(View()), ok) && (ok ==> v == g.value)
    {
      var saved := View();
      v := 0;
      var any;
      ok, any := ReadAny();
      if ok {
        if IsNint(any) {
          v := any.value;
          return;
        }
        error := NOT_MATCH;
      }
      Restore(saved);
      ok := false;
    }

    /** `tcbor_read_bstr` */
    method ReadBstr() returns (ok: bool, v: Range)
      requires Valid()
      modifies this
      ensures Valid()
      ensures var g := GetBstr(old(View())); Reads(g, old(View()), ok) && (ok ==> v == g.value)
    {
      var saved := View();
      v := Null;
      var any;
      ok, any := ReadAny();
      if ok {
        if IsBstr(any) {
          v := any.bytes;
          return;
        }
        error := NOT_MATCH;
      }
      Restore(saved);
      ok := false;
    }

    /** `tcbor_read_tstr` */
    method ReadTstr() returns (ok: bool, v: Range)
      requires Valid()
      modifies this
      ensures Valid()
      ensures var g := GetTstr(old(View())); Reads(g, old(View()), ok) && (ok ==> v == g.value)
    {
      var saved := View();
      v := Null;
      var any;
      ok, any := ReadAny();
      if ok {
        if IsTstr(any) {
          v := any.bytes;
          return;
        }
        error := NOT_MATCH;
      }
      Restore(saved);
      ok := false;
    }

    /** `tcbor_read_array`; the child context is returned as a value, as the source copies it out */
    method ReadArray() returns (ok: bool, v: Cursor)
      requires Valid()
      modifies this
      ensures Valid()
      ensures var g := GetArray(old(View())); Reads(g, old(View()), ok) && (ok ==> v == g.value)
    {
      var saved := View();
      v := View();
      var any;
      ok, any := ReadAny();
      if ok {
        if IsArray(any) {
          v := Position(r, 0, any.value);
          return;
        }
        error := NOT_MATCH;
      }
      Restore(saved);
      ok := false;
    }

    /** `tcbor_read_bool` */
    method ReadBool() returns (ok: bool, v: bool)
      requires Valid()
      modifies this
      ensures Valid()
      ensures var g := GetBool(old(View())); Reads(g, old(View()), ok) && (ok ==> v == g.value)
    {
      var saved := View();
      v := false;
      var any;
      ok, any := ReadAny();
      if ok {
        if IsBool(any) {
          v := IsTrue(any);
          return;
        }
        error := NOT_MATCH;
      }
      Restore(saved);
      ok := false;
    }

    /** `tcbor_read_tag` */
    method ReadTag() returns (ok: bool, v: u64)
      requires Valid()
      modifies this
      ensures Valid()
      ensures var g := GetTag(old(View())); Reads(g, old(View()), ok) && (ok ==> v == g.value)
    {
      var saved := View();
      v := 0;
      var any;
      ok, any := ReadAny();
      if ok {
        if IsTag(any) {
          v := any.value;
          return;
        }
        error := NOT_MATCH;
      }
      Restore(saved);
      ok := false;
    }

    /** `tcbor_read_map` */
    method ReadMap() returns (ok: bool, v: Cursor)
      requires Valid()
      modifies this
      ensures Valid()
      ensures var g := GetMap(old(View())); Reads(g, old(View()), ok) && (ok ==> v == g.value)
    {
      var saved := View();
      v := saved;
      var any;
      ok, any := ReadAny();
      if ok {
        if !IsMap(any) {
          error := NOT_MATCH;
        } else if any.value + any.value >= TWO64 {
          error := OVERFLOW;
        } else {
          v := Position(r, 0, any.value + any.value);
          return;
        }
      }
      Restore(saved);
      ok := false;
    }

    /** `tcbor_read_int` */
    method ReadInt() returns (ok: bool, v: int)
      requires Valid()
      modifies this
      ensures Valid()
      ensures var g := GetInt(old(View())); Reads(g, old(View()), ok) && (ok ==> v == g.value)
    {
      var saved := View();
      v := 0;
      var w;
      ok, w := ReadUint();
      if ok {
        if ToU64(ToInt32(w)) == w {
          v := ToInt32(w);
          return;
        }
      } else {
        ok, w := ReadNint();
        if ok {
          var q := ToInt32(Complement(w));
          if ToU64(-1 - q) == w {
            v := q;
            return;
          }
        } else {
          error := NOT_MATCH;
        }
      }
      Restore(saved);
      ok := false;
    }

    /** `tcbor_skip`. It succeeds exactly when the recursive parser takes `n` more items here; when it does
        not, it reports that parser's error, or an overflow if the counter overflows. Skipping nothing leaves
        the error as it was. */
    method Skip(n: u64) returns (ok: bool)
      requires Valid()
      modifies this
      ensures Valid()
      ensures var g := GetSkip(old(View()), n);
              ok == g.Got? && View() == if ok then g.next else old(View())
      ensures error == SkipError(old(View()), n, old(error))
    {
      hide ReadHead, Item, Items, Data, Overflows;
      if count - index < n {
        error := END_OF_CONTEXT;
        return false;
      }
      var o := PrimitiveSkip(Data(r), n);
      if o.Stop? {
        error := o.error;
        return false;
      }
      r := Advance(r, |Data(r)| - |o.rest|);
      if n > 0 {
        error := OK;
      }
      index := index + n;
      return true;
    }

    /** `tcbor_skip_all` */
    method SkipAll() returns (ok: bool)
      requires Valid()
      modifies this
      ensures Valid()
      ensures var g := GetSkip(old(View()), old(count - index));
              ok == g.Got? && View() == if ok then g.next else old(View())
    {
      hide GetSkip, SkipError;
      ok := Skip(count - index);
    }

    /** `tcbor_read_subobject` */
    method ReadItem() returns (ok: bool, v: Range)
      requires Valid()
      modifies this
      ensures Valid()
      ensures var g := GetItem(old(View()));
              ok == g.Got? && (ok ==> v == g.value) && View() == if ok then g.next else old(View())
      ensures error == SkipError(old(View()), 1, old(error))
    {
      hide SkipError;
      var saved := View();
      v := Null;
      ok := Skip(1);
      if ok {
        v := Between(saved.r, r);
      }
    }

    /** `tcbor_close` */
    method Close(child: Cursor) returns (ok: bool)
      requires Valid()
      modifies this
      ensures Valid()
      ensures ok == AtEnd(child)
      ensures View() == if ok then old(View()).(r := child.r) else old(View())
      ensures error == if ok then old(error) else END_OF_CONTEXT
    {
      if child.index != child.count {
        error := END_OF_CONTEXT;
        return false;
      }
      r := child.r;
      return true;
    }
  }
}
