/** Whole items. `Item` and `Items` are the recursive well-formedness check of Appendix C of RFC 8949
    over unbounded integers; `PrimitiveSkip` is the counter loop of lib/include/teecbor.h. */
module CborItems {
  import opened Bytes
  import opened CborHead

  /** Where a parse ends: with these octets left unread, or with an error. */
  datatype Outcome = Done(rest: seq<byte>) | Stop(error: Error)

  ghost predicate Consumes(s: seq<byte>, o: Outcome, least: nat)
  {
    o.Done? ==> |o.rest| + least <= |s| && o.rest == s[|s| - |o.rest|..]
  }

  lemma ConsumesMore(s: seq<byte>, k: nat, o: Outcome)
    requires 1 <= k <= |s| && Consumes(s[k..], o, 0)
    ensures Consumes(s, o, 1)
  {
  }

  lemma ConsumesBoth(s: seq<byte>, rest: seq<byte>, o: Outcome, n: nat)
    requires Consumes(s, Done(rest), 1) && Consumes(rest, o, n)
    ensures Consumes(s, o, n + 1)
  {
  }

  /** The number of items nested directly below a head: an array's elements, a map's keys and values. */
  function Children(header: byte, value: u64): nat
  {
    if Major(header) == 4 then value else if Major(header) == 5 then 2 * value else 0
  }

  /** Parse one item with everything nested inside it; a tag belongs to the item it precedes. */
  function Item(s: seq<byte>): (o: Outcome)
    ensures Consumes(s, o, 1)
    decreases |s|, 1
  {
    match ReadHead(s)
    case Failed(e) => Stop(e)
    case Head(header, value, size) =>
      var o := if Major(header) == 6 then Item(s[size..]) else Items(s[size..], Children(header, value));
      ConsumesMore(s, size, o);
      o
  }

  /** Parse `n` items in a row. */
  function Items(s: seq<byte>, n: nat): (o: Outcome)
    ensures Consumes(s, o, n)
    decreases |s|, 2
  {
    if n == 0 then Done(s) else
    match Item(s)
    case Stop(e) => Stop(e)
    case Done(rest) =>
      ConsumesBoth(s, rest, Items(rest, n - 1), n - 1);
      Items(rest, n - 1)
  }

  /** Items parse one after the other. */
  lemma {:induction false} ItemsAppend(s: seq<byte>, a: nat, b: nat)
    ensures Items(s, a + b) == match Items(s, a) case Stop(e) => Stop(e) case Done(rest) => Items(rest, b)
    decreases |s|
  {
    hide ReadHead, Item;
    if a > 0 {
      match Item(s)
      case Stop(_) =>
      case Done(rest) => ItemsAppend(rest, a - 1, b);
    }
  }

  /** The octets a parse that left `rest` unread has consumed. */
  function Taken(s: seq<byte>, rest: seq<byte>): (p: seq<byte>)
    requires |rest| <= |s|
  {
    s[..|s| - |rest|]
  }

  lemma TakenTwice(s: seq<byte>, r: seq<byte>, q: seq<byte>)
    requires |q| <= |r| <= |s| && r == s[|s| - |r|..] && q == r[|r| - |q|..]
    ensures q == s[|s| - |q|..]
    ensures Taken(s, q) == Taken(s, r) + Taken(r, q)
  {
  }

  /** A parse starts with a head. */
  lemma ItemHead(s: seq<byte>)
    requires ReadHead(s).Head? || Item(s).Done?
    ensures ReadHead(s).Head? && 1 <= ReadHead(s).size <= |s|
    ensures var r := ReadHead(s);
            Item(s) == if Major(r.header) == 6 then Item(s[r.size..])
                       else Items(s[r.size..], Children(r.header, r.value))
  {
    hide ReadHead, Items;
  }

  /** Locality: an item is decided by its own octets. Whatever follows them, be it nothing, more data or
      other data, is left unread. */
  lemma {:induction false} ItemLocality(s: seq<byte>, t: seq<byte>)
    requires Item(s).Done?
    ensures Item(Taken(s, Item(s).rest) + t) == Done(t)
    decreases |s|, 1
  {
    hide ReadHead, Item, Items;
    ItemHead(s);
    var p := Taken(s, Item(s).rest);
    var k := ReadHead(s).size;
    var rest := s[k..];
    assert p + t == s[..k] + (p[k..] + t);
    assert (p + t)[k..] == p[k..] + t;
    assert Taken(rest, Item(s).rest) == p[k..];
    HeadLocality(s, p[k..] + t);
    ItemHead(p + t);
    if Major(ReadHead(s).header) == 6 {
      ItemLocality(rest, t);
    } else {
      ItemsLocality(rest, Children(ReadHead(s).header, ReadHead(s).value), t);
    }
  }

  lemma {:induction false} ItemsLocality(s: seq<byte>, n: nat, t: seq<byte>)
    requires Items(s, n).Done?
    ensures Items(Taken(s, Items(s, n).rest) + t, n) == Done(t)
    decreases |s|, 2
  {
    hide ReadHead, Item;
    var p := Taken(s, Items(s, n).rest);
    if n == 0 {
      assert p + t == t;
    } else {
      var rest := Item(s).rest;
      var q := Taken(rest, Items(rest, n - 1).rest);
      TakenTwice(s, rest, Items(s, n).rest);
      assert p + t == Taken(s, rest) + (q + t);
      ItemLocality(s, q + t);
      ItemsLocality(rest, n - 1, t);
    }
  }

  /** Cut anywhere strictly inside an item, the parser asks for more data: no item is a proper prefix
      of another. */
  lemma {:induction false} ItemPrefix(s: seq<byte>, j: nat)
    requires Item(s).Done? && j < |s| - |Item(s).rest|
    ensures Item(s[..j]) == Stop(NEED_DATA)
    decreases |s|, 1
  {
    hide ReadHead, Items;
    ItemHead(s);
    var k := ReadHead(s).size;
    if j < k {
      HeadPrefix(s, j);
    } else {
      hide Item;
      var rest := s[k..];
      HeadLocality(s, s[k..j]);
      assert s[..j] == s[..k] + s[k..j];
      assert s[..j][k..] == rest[..j - k];
      ItemHead(s[..j]);
      if Major(ReadHead(s).header) == 6 {
        ItemPrefix(rest, j - k);
      } else {
        ItemsPrefix(rest, Children(ReadHead(s).header, ReadHead(s).value), j - k);
      }
    }
  }

  lemma {:induction false} ItemsPrefix(s: seq<byte>, n: nat, j: nat)
    requires Items(s, n).Done? && j < |s| - |Items(s, n).rest|
    ensures Items(s[..j], n) == Stop(NEED_DATA)
    decreases |s|, 2
  {
    hide ReadHead, Item;
    var rest := Item(s).rest;
    var k := |s| - |rest|;
    if j < k {
      ItemPrefix(s, j);
    } else {
      assert s[..j] == Taken(s, rest) + rest[..j - k];
      ItemLocality(s, rest[..j - k]);
      ItemsPrefix(rest, n - 1, j - k);
    }
  }

  /** A head with nothing nested below it is a whole item. */
  lemma ScalarItem(s: seq<byte>)
    requires ReadHead(s).Head?
    requires var mt := Major(ReadHead(s).header); mt != 4 && mt != 5 && mt != 6
    ensures Item(s) == Items(s, 1) == Done(s[ReadHead(s).size..])
  {
    hide ReadHead;
    assert Items(s[ReadHead(s).size..], 0) == Done(s[ReadHead(s).size..]);
  }

  /** What a head leaves to skip when `n` items, its own among them, were: its children join the others;
      a tag is not an item. */
  function ItemsAfterHead(header: byte, value: u64, n: nat): nat
    requires n > 0
  {
    if Major(header) == 6 then n else Children(header, value) + (n - 1)
  }

  lemma ItemsNext(s: seq<byte>, n: nat)
    requires n > 0
    ensures Items(s, n) == match Item(s) case Stop(e) => Stop(e) case Done(rest) => Items(rest, n - 1)
  {
    hide Item;
  }

  lemma SkipHead(s: seq<byte>, n: nat)
    requires n > 0 && ReadHead(s).Head?
    ensures ReadHead(s).size <= |s|
    ensures var r := ReadHead(s); Items(s, n) == Items(s[r.size..], ItemsAfterHead(r.header, r.value, n))
  {
    hide ReadHead, Item, Items;
    ItemHead(s);
    var r := ReadHead(s);
    ItemsNext(s, n);
    if Major(r.header) == 6 {
      ItemsNext(s[r.size..], n);
    } else {
      ItemsAppend(s[r.size..], Children(r.header, r.value), n - 1);
    }
  }

  /** Every item takes an octet, so a count beyond the address space never parses. */
  lemma OverflowRejects(s: seq<byte>, n: nat)
    requires |s| < n
    ensures Items(s, n).Stop?
  {
  }

  /** The counter's share of one turn of the skip loop, with its two overflow exits. */
  method CountHead(header: byte, value: u64, count0: u64) returns (ok: bool, count: u64)
    requires count0 > 0
    ensures ok <==> ItemsAfterHead(header, value, count0) < TWO64
    ensures ok ==> count == ItemsAfterHead(header, value, count0)
  {
    count := count0;
    if Major(header) == 6 {
      return true, count;
    }
    count := count - 1;
    if Major(header) == 4 {
      if count + value >= TWO64 {
        return false, count;
      }
      count := count + value;
    } else if Major(header) == 5 {
      if count + value >= TWO64 {
        return false, count;
      }
      count := count + value;
      if count + value >= TWO64 {
        return false, count;
      }
      count := count + value;
    }
    return true, count;
  }

  /** At some head the items still to skip no longer fit 64 bits. */
  predicate Overflows(s: seq<byte>, n: nat)
    decreases |s|
  {
    n > 0 && ReadHead(s).Head?
    && var r := ReadHead(s);
       var m := ItemsAfterHead(r.header, r.value, n);
       m >= TWO64 || Overflows(s[r.size..], m)
  }

  /** `tcbor_primitive_skip`. One 64-bit counter drives the loop; the recursive parser is its
      specification, down to the error it stops with. The overflow exit has no counterpart there: it is
      taken exactly when the counter overflows, and then that parser rejects the data too. */
  method PrimitiveSkip(s: seq<byte>, count0: u64) returns (o: Outcome)
    requires |s| < TWO64
    ensures Overflows(s, count0) ==> o == Stop(OVERFLOW) && Items(s, count0).Stop?
    ensures !Overflows(s, count0) ==> o == Items(s, count0)
  {
    hide ReadHead, Overflows;
    var rest := s;
    var count := count0;
    ghost var total := Items(s, count0);
    while count > 0
      invariant |rest| <= |s| && 0 <= count < TWO64
      invariant Items(rest, count) == total && Overflows(rest, count) == Overflows(s, count0)
      decreases |rest|
    {
      var head := PrimitiveReadHead(rest);
      OverflowsNext(rest, count);
      if head.Failed? {
        return Stop(head.error);
      }
      SkipHead(rest, count);
      rest := rest[head.size..];
      ghost var wanted := ItemsAfterHead(head.header, head.value, count);
      var ok;
      ok, count := CountHead(head.header, head.value, count);
      if !ok {
        OverflowRejects(rest, wanted);
        return Stop(OVERFLOW);
      }
    }
    OverflowsNext(rest, count);
    return Done(rest);
  }

  lemma OverflowsNext(s: seq<byte>, n: nat)
    ensures Overflows(s, n) ==
            (n > 0 && ReadHead(s).Head?
             && (ItemsAfterHead(ReadHead(s).header, ReadHead(s).value, n) >= TWO64
                 || Overflows(s[ReadHead(s).size..], ItemsAfterHead(ReadHead(s).header, ReadHead(s).value, n))))
  {
    hide ReadHead;
  }
}
