/** What a well-formed item is, told by its octets alone (section 3 of RFC 8949): the parser accepts exactly these. */
module CborTrees {
  import opened Bytes
  import opened CborHead
  import opened CborItems
  import opened CborReader

  /** An item as octets grouped by what they are for. */
  datatype Tree = Tree(header: byte, argument: seq<byte>, payload: seq<byte>, children: seq<Tree>)

  /** How many octets of argument come after an initial octet. */
  predicate ArgumentFits(header: byte, argument: seq<byte>)
  {
    match header % 32
    case 24 => |argument| == 1 && (header / 32 == 7 ==> argument[0] >= 32)
    case 25 => |argument| == 2
    case 26 => |argument| == 4
    case 27 => |argument| == 8
    case ai => ai < 24 && argument == []
  }

  /** The number an initial octet and its argument denote, in network byte order. */
  function Value(header: nat, a: seq<nat>): nat
  {
    if |a| == 0 then header % 32
    else if |a| == 1 then a[0]
    else if |a| == 2 then a[0] * 0x100 + a[1]
    else if |a| == 4 then a[0] * 0x100_0000 + a[1] * 0x1_0000 + a[2] * 0x100 + a[3]
    else if |a| == 8 then
      a[0] * 0x100_0000_0000_0000 + a[1] * 0x1_0000_0000_0000 + a[2] * 0x100_0000_0000 + a[3] * 0x1_0000_0000
      + a[4] * 0x100_0000 + a[5] * 0x1_0000 + a[6] * 0x100 + a[7]
    else 0
  }

  /** Strings have a payload. */
  predicate PayloadFits(header: byte, argument: seq<byte>, payload: seq<byte>)
  {
    |payload| == if header / 32 in {2, 3} then Value(header, argument) else 0
  }

  /** Arrays have elements, maps have keys and values, a tag has the item it is put on. */
  predicate WellFormed(t: Tree)
  {
    && ArgumentFits(t.header, t.argument) && PayloadFits(t.header, t.argument, t.payload)
    && |t.children| == (match t.header / 32
                        case 4 => Value(t.header, t.argument)
                        case 5 => 2 * Value(t.header, t.argument)
                        case 6 => 1
                        case _ => 0)
    && forall c <- t.children :: WellFormed(c)
  }

  function Flatten(t: Tree): (s: seq<byte>)
    ensures s != []
  {
    [t.header] + t.argument + t.payload + FlattenAll(t.children)
  }

  function FlattenAll(ts: seq<Tree>): seq<byte>
  {
    if ts == [] then [] else Flatten(ts[0]) + FlattenAll(ts[1..])
  }

  // Heads.

  lemma {:induction false} BigEndianNext(s: seq<byte>, b: byte)
    ensures BigEndian(s + [b]) == BigEndian(s) * 256 + b
  {
    assert (s + [b])[..|s|] == s;
  }

  lemma BigEndianOfFour(a: byte, b: byte, c: byte, d: byte)
    ensures BigEndian([a, b, c, d]) == a * 0x100_0000 + b * 0x1_0000 + c * 0x100 + d
    ensures BigEndian([a, b]) == a * 0x100 + b && BigEndian([a]) == a
  {
    hide BigEndian;
    assert BigEndian([]) == 0 by { EmptyBigEndian(); }
    assert [a] == [] + [a] && [a, b] == [a] + [b] && [a, b, c] == [a, b] + [c] && [a, b, c, d] == [a, b, c] + [d];
    BigEndianNext([], a);
    BigEndianNext([a], b);
    BigEndianNext([a, b], c);
    BigEndianNext([a, b, c], d);
  }

  lemma EmptyBigEndian()
    ensures BigEndian([]) == 0
  {
  }

  lemma BigEndianOfEight(s: seq<byte>)
    requires |s| == 8
    ensures BigEndian(s) == BigEndian(s[..4]) * 0x1_0000_0000 + BigEndian(s[4..])
  {
    hide BigEndian;
    var a, b, c, d := s[4], s[5], s[6], s[7];
    var t := s[..4];
    assert s == t + [a] + [b] + [c] + [d];
    BigEndianNext(t, a);
    BigEndianNext(t + [a], b);
    BigEndianNext(t + [a] + [b], c);
    BigEndianNext(t + [a] + [b] + [c], d);
    assert s[4..] == [a, b, c, d];
    BigEndianOfFour(a, b, c, d);
  }

  /** The argument is read in network byte order. */
  lemma ArgumentIsNumber(header: byte, argument: seq<byte>)
    requires ArgumentFits(header, argument)
    ensures |argument| == ArgumentSize(Info(header)) && Value(header, argument) < TWO64
    ensures argument != [] ==> Value(header, argument) == BigEndian(argument)
  {
    hide BigEndian;
    if |argument| == 8 {
      EightOctets(argument);
    } else if argument != [] {
      FewOctets(argument);
    }
  }

  lemma FewOctets(a: seq<byte>)
    requires |a| in {1, 2, 4}
    ensures BigEndian(a) == Value(0, a)
  {
    hide BigEndian;
    if |a| == 1 {
      assert a == [a[0]];
      BigEndianOfFour(a[0], 0, 0, 0);
    } else if |a| == 2 {
      assert a == [a[0], a[1]];
      BigEndianOfFour(a[0], a[1], 0, 0);
    } else {
      assert a == [a[0], a[1], a[2], a[3]];
      BigEndianOfFour(a[0], a[1], a[2], a[3]);
    }
  }

  lemma EightOctets(a: seq<byte>)
    requires |a| == 8
    ensures BigEndian(a) == Value(0, a)
  {
    hide BigEndian;
    BigEndianOfEight(a);
    FewOctets(a[..4]);
    FewOctets(a[4..]);
  }

  /** What a head with its argument and payload reads as. */
  lemma PartsRead(header: byte, argument: seq<byte>, payload: seq<byte>, rest: seq<byte>)
    requires ArgumentFits(header, argument) && PayloadFits(header, argument, payload)
    ensures Value(header, argument) < TWO64
    ensures ReadHead([header] + argument + payload + rest)
         == Head(header, Value(header, argument), 1 + |argument| + |payload|)
  {
    ArgumentIsNumber(header, argument);
    var s := [header] + argument + payload + rest;
    assert s[1..1 + |argument|] == argument;
    hide Value, BigEndian;
  }

  /** And what reads as a head is one. */
  lemma HeadHasParts(s: seq<byte>) returns (argument: seq<byte>, payload: seq<byte>)
    requires ReadHead(s).Head?
    ensures var r := ReadHead(s);
            && ArgumentFits(r.header, argument) && PayloadFits(r.header, argument, payload)
            && r.value == Value(r.header, argument) && r.size == 1 + |argument| + |payload|
            && s == [r.header] + argument + payload + s[r.size..]
  {
    var r := ReadHead(s);
    var n := ArgumentSize(Info(s[0]));
    argument := s[1..1 + n];
    payload := s[1 + n..r.size];
    assert s[..1] == [s[0]];
    ArgumentIsNumber(s[0], argument);
    hide Value, BigEndian;
  }

  /** Why there is no head. */
  lemma HeadErrors(s: seq<byte>)
    ensures ReadHead(s) == Failed(NOT_SUPPORTED) <==> s != [] && s[0] % 32 == 31
    ensures ReadHead(s) == Failed(MALFORMED) <==>
            s != [] && (28 <= s[0] % 32 <= 30 || (s[0] == 0xF8 && |s| >= 2 && s[1] < 32))
    ensures ReadHead(s).Failed? ==> ReadHead(s).error in {NOT_SUPPORTED, MALFORMED, NEED_DATA}
  {
    if |s| >= 2 {
      assert s[1..2] == [s[1]];
      BigEndianOfFour(s[1], 0, 0, 0);
    }
    hide BigEndian;
  }

  // Items.

  /** A head, and after it the items nested below it. */
  lemma ParentParses(header: byte, argument: seq<byte>, payload: seq<byte>, n: nat, after: seq<byte>, rest: seq<byte>)
    requires ArgumentFits(header, argument) && PayloadFits(header, argument, payload)
    requires n == (match header / 32 case 4 => Value(header, argument) case 5 => 2 * Value(header, argument)
                   case 6 => 1 case _ => 0)
    requires Items(after, n) == Done(rest)
    ensures Item([header] + argument + payload + after) == Done(rest)
  {
    var s := [header] + argument + payload + after;
    PartsRead(header, argument, payload, after);
    assert s[1 + |argument| + |payload|..] == after;
    hide ReadHead, Item, Items, ArgumentFits, PayloadFits, Value;
    ItemHead(s);
    if header / 32 == 6 {
      ItemsNext(after, 1);
      NoMoreItems(after);
    }
  }

  lemma NoMoreItems(s: seq<byte>)
    ensures Item(s).Done? ==> Items(Item(s).rest, 0) == Done(Item(s).rest)
  {
    hide Item;
  }

  lemma FlattenedThen(t: Tree, rest: seq<byte>)
    ensures Flatten(t) + rest == [t.header] + t.argument + t.payload + (FlattenAll(t.children) + rest)
  {
    hide FlattenAll;
  }

  /** A well-formed item parses, whatever follows it. */
  lemma {:induction false} TreeParses(t: Tree, rest: seq<byte>)
    requires WellFormed(t)
    ensures Item(Flatten(t) + rest) == Done(rest)
    decreases t
  {
    TreesParse(t.children, rest);
    hide Item, Items, ArgumentFits, PayloadFits, Value, Flatten, FlattenAll;
    FlattenedThen(t, rest);
    ParentParses(t.header, t.argument, t.payload, |t.children|, FlattenAll(t.children) + rest, rest);
  }

  lemma {:induction false} TreesParse(ts: seq<Tree>, rest: seq<byte>)
    requires forall c <- ts :: WellFormed(c)
    ensures Items(FlattenAll(ts) + rest, |ts|) == Done(rest)
    decreases ts
  {
    if ts == [] {
      assert [] + rest == rest;
    } else {
      var after := FlattenAll(ts[1..]) + rest;
      assert FlattenAll(ts) + rest == Flatten(ts[0]) + after;
      TreeParses(ts[0], after);
      TreesParse(ts[1..], rest);
      hide Item, WellFormed;
    }
  }

  /** What is after the head of an item that parses. */
  lemma ParsedParent(s: seq<byte>) returns (argument: seq<byte>, payload: seq<byte>, after: seq<byte>, n: nat)
    requires Item(s).Done?
    ensures s != [] && |after| < |s|
    ensures var header := s[0];
            && ArgumentFits(header, argument) && PayloadFits(header, argument, payload)
            && s == [header] + argument + payload + after
            && n == (match header / 32 case 4 => Value(header, argument) case 5 => 2 * Value(header, argument)
                     case 6 => 1 case _ => 0)
    ensures Items(after, n) == Item(s)
  {
    hide ReadHead, Item, Items;
    ItemHead(s);
    argument, payload := HeadHasParts(s);
    var r := ReadHead(s);
    after := s[r.size..];
    assert s[0] == r.header;
    n := if Major(r.header) == 6 then 1 else Children(r.header, r.value);
    if Major(r.header) == 6 {
      ItemsNext(after, 1);
      NoMoreItems(after);
    }
  }

  /** What parses is a well-formed item with what is left after it. */
  lemma {:induction false} ParsedTree(s: seq<byte>) returns (t: Tree)
    requires Item(s).Done?
    ensures WellFormed(t) && s == Flatten(t) + Item(s).rest
    decreases |s|, 0
  {
    var argument, payload, after, n := ParsedParent(s);
    hide Item, Items, ArgumentFits, PayloadFits, Value;
    var children := ParsedTrees(after, n);
    t := Tree(s[0], argument, payload, children);
    FlattenedThen(t, Item(s).rest);
  }

  lemma NoTrees(s: seq<byte>)
    ensures Items(s, 0) == Done(s) && s == FlattenAll([]) + s
  {
  }

  lemma MoreTrees(t: Tree, ts: seq<Tree>, rest: seq<byte>)
    ensures FlattenAll([t] + ts) + rest == Flatten(t) + (FlattenAll(ts) + rest)
  {
    hide Flatten;
    assert ([t] + ts)[1..] == ts;
  }

  lemma {:induction false} ParsedTrees(s: seq<byte>, n: nat) returns (ts: seq<Tree>)
    requires Items(s, n).Done?
    ensures |ts| == n && (forall c <- ts :: WellFormed(c)) && s == FlattenAll(ts) + Items(s, n).rest
    decreases |s|, 1
  {
    hide Item, Items, WellFormed, Flatten, FlattenAll;
    ts := [];
    if n == 0 {
      NoTrees(s);
    } else {
      ItemsNext(s, n);
      var first := ParsedTree(s);
      var others := ParsedTrees(Item(s).rest, n - 1);
      ts := [first] + others;
      MoreTrees(first, others, Items(s, n).rest);
    }
  }

  /** An item is accepted exactly if it is well formed; what follows it is left. */
  lemma ItemIsTree(s: seq<byte>, rest: seq<byte>)
    ensures Item(s) == Done(rest) <==> exists t :: WellFormed(t) && s == Flatten(t) + rest
  {
    hide Item, WellFormed, Flatten;
    if Item(s) == Done(rest) {
      var t := ParsedTree(s);
      assert WellFormed(t) && s == Flatten(t) + rest;
    }
    forall t | WellFormed(t) && s == Flatten(t) + rest ensures Item(s) == Done(rest) {
      TreeParses(t, rest);
    }
  }

  // What a context reads.

  /** The octets of a head are next in a context. */
  predicate IsNext(c: Cursor, header: byte, argument: seq<byte>, payload: seq<byte>, rest: seq<byte>)
  {
    && c.index < c.count && ArgumentFits(header, argument) && PayloadFits(header, argument, payload)
    && Data(c.r) == [header] + argument + payload + rest
  }

  /** Any read takes that head, and leaves what is after it; only a tag is not counted. */
  lemma AnyRead(c: Cursor, header: byte, argument: seq<byte>, payload: seq<byte>, rest: seq<byte>)
    requires IsNext(c, header, argument, payload, rest)
    ensures Value(header, argument) < TWO64
    ensures var g := GetAny(c);
            && g.Got? && g.value.header == header && Data(g.next.r) == rest && g.next.count == c.count
            && g.next.index == c.index + (if header / 32 == 6 then 0 else 1)
            && if header / 32 in {2, 3} then g.value.Payload? && Data(g.value.bytes) == payload
               else g.value == Argument(header, Value(header, argument))
  {
    PartsRead(header, argument, payload, rest);
    hide ReadHead, ArgumentFits, Value, GetAny;
    HeadTaken(c);
    var s := Data(c.r);
    assert s[1 + |argument| + |payload|..] == rest;
    assert s[1 + |argument|..1 + |argument| + |payload|] == payload;
  }

  lemma HeadTaken(c: Cursor)
    requires c.index < c.count && ReadHead(Data(c.r)).Head?
    ensures var g, r := GetAny(c), ReadHead(Data(c.r));
            && g.Got? && g.value.header == r.header && Data(g.next.r) == Data(c.r)[r.size..] && g.next.count == c.count
            && g.next.index == c.index + (if r.header / 32 == 6 then 0 else 1)
            && if r.header / 32 in {2, 3} then
                 g.value.Payload? && Data(g.value.bytes) == Data(c.r)[r.size - r.value..r.size]
               else g.value == Argument(r.header, r.value)
  {
    var r := ReadHead(Data(c.r));
    hide ReadHead;
    if IsString(r.header) {
      PayloadThere(c.r, r.size - r.value, r.size);
    }
  }

  lemma PayloadThere(r: Range, i: nat, j: nat)
    requires i <= j <= |Data(r)|
    ensures r.Span? ==> Data(Span(r.mem, r.begin + i, r.begin + j)) == Data(r)[i..j]
  {
  }

  /** A read of one type accepts exactly the heads of its major type, and returns what they denote. */
  lemma TypedReads(c: Cursor, header: byte, argument: seq<byte>, payload: seq<byte>, rest: seq<byte>)
    requires IsNext(c, header, argument, payload, rest)
    ensures var v := Value(header, argument);
            && (GetUint(c).Got? <==> header / 32 == 0) && (GetUint(c).Got? ==> GetUint(c).value == v)
            && (GetNint(c).Got? <==> header / 32 == 1) && (GetNint(c).Got? ==> GetNint(c).value == v)
            && (GetBstr(c).Got? <==> header / 32 == 2) && (GetBstr(c).Got? ==> Data(GetBstr(c).value) == payload)
            && (GetTstr(c).Got? <==> header / 32 == 3) && (GetTstr(c).Got? ==> Data(GetTstr(c).value) == payload)
            && (GetTag(c).Got? <==> header / 32 == 6) && (GetTag(c).Got? ==> GetTag(c).value == v)
            && (GetBool(c).Got? <==> header / 32 == 7 && header % 32 <= 24 && v in {20, 21})
            && (GetBool(c).Got? ==> GetBool(c).value == (v == 21))
  {
    AnyRead(c, header, argument, payload, rest);
    hide GetAny, ArgumentFits, PayloadFits, Value;
  }

  /** Opening a container gives a context on the items nested in it, at the first one. */
  lemma ContainersOpen(c: Cursor, header: byte, argument: seq<byte>, payload: seq<byte>, rest: seq<byte>)
    requires IsNext(c, header, argument, payload, rest)
    ensures var v := Value(header, argument);
            && (GetArray(c).Got? <==> header / 32 == 4)
            && (GetArray(c).Got? ==> var a := GetArray(c).value; a.index == 0 && a.count == v && Data(a.r) == rest)
            && (GetMap(c).Got? <==> header / 32 == 5 && 2 * v < TWO64)
            && (GetMap(c).Got? ==> var m := GetMap(c).value; m.index == 0 && m.count == 2 * v && Data(m.r) == rest)
  {
    AnyRead(c, header, argument, payload, rest);
    hide GetAny, ArgumentFits, PayloadFits, Value;
  }

  /** Which integers `tcbor_read_int` takes: those whose argument is below 2^31, or among the last 2^31. */
  lemma IntegersTaken(c: Cursor, header: byte, argument: seq<byte>, payload: seq<byte>, rest: seq<byte>)
    requires IsNext(c, header, argument, payload, rest)
    ensures var v := Value(header, argument);
            && (GetInt(c).Got? <==> header / 32 in {0, 1} && (v < 0x8000_0000 || 0xFFFF_FFFF_8000_0000 <= v))
            && (GetInt(c).Got? && v < 0x8000_0000 ==> GetInt(c).value == if header / 32 == 0 then v else -1 - v)
  {
    AnyRead(c, header, argument, payload, rest);
    TruncationKeeps(Value(header, argument));
    hide GetAny, ArgumentFits, PayloadFits, Value, ToInt32, ToU64, Complement;
  }

  /** Which 64-bit arguments survive being cut to a signed 32-bit number and back. */
  lemma TruncationKeeps(v: u64)
    ensures ToU64(ToInt32(v)) == v <==> v < 0x8000_0000 || 0xFFFF_FFFF_8000_0000 <= v
    ensures ToU64(-1 - ToInt32(Complement(v))) == v <==> v < 0x8000_0000 || 0xFFFF_FFFF_8000_0000 <= v
    ensures v < 0x8000_0000 ==> ToInt32(v) == v && ToInt32(Complement(v)) == -1 - v
  {
  }
}
