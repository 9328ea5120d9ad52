/** Nested reading against skipping: any well-nested mix of reads, tags, skips, opens and closes that
    consumes a container leaves its parent where skipping the container would. */
module CborStructure {
  import opened Bytes
  import opened CborHead
  import opened CborItems
  import opened CborReader

  datatype Kind = UINT | NINT | INT | BSTR | TSTR | BOOL | NULL

  /** What a client may do with a context: read a scalar, skip items, take a sub-object, read a tag, or
      open an array or map, do things inside and close it. */
  datatype Op =
    | Scalar(kind: Kind)
    | Skip(n: u64)
    | SubObject
    | Tag
    | Nest(isMap: bool, body: seq<Op>)

  function ScalarNext(kind: Kind, c: Cursor): (g: Got<()>)
    ensures g.Got? ==> GetAny(c).Got? && g.next == GetAny(c).next
  {
    match kind
    case UINT => Moved(GetUint(c))
    case NINT => Moved(GetNint(c))
    case INT => Moved(GetInt(c))
    case BSTR => Moved(GetBstr(c))
    case TSTR => Moved(GetTstr(c))
    case BOOL => Moved(GetBool(c))
    case NULL => Moved(GetNull(c))
  }

  function Moved<T>(g: Got<T>): (r: Got<()>)
    ensures r.Got? == g.Got? && (g.Got? ==> r.next == g.next)
  {
    match g case Missing(e) => Missing(e) case Got(_, d) => Got((), d)
  }

  function Open(isMap: bool, c: Cursor): (g: Got<Cursor>)
  {
    if isMap then GetMap(c) else GetArray(c)
  }

  /** Where an operation leaves the context, if it succeeds. */
  function Exec(op: Op, c: Cursor): (g: Got<()>)
    ensures g.Got? ==> Follows(g.next, c)
    decreases op, 0
  {
    match op
    case Scalar(kind) => ScalarNext(kind, c)
    case Skip(n) => GetSkip(c, n)
    case SubObject => Moved(GetItem(c))
    case Tag => Moved(GetTag(c))
    case Nest(isMap, body) =>
      match Open(isMap, c)
      case Missing(e) => Missing(e)
      case Got(child, parent) =>
        match ExecAll(body, child)
        case Missing(e) => Missing(e)
        case Got(_, last) =>
          if AtEnd(last) then Got((), parent.(r := last.r)) else Missing(END_OF_CONTEXT)
  }

  function ExecAll(ops: seq<Op>, c: Cursor): (g: Got<()>)
    ensures g.Got? ==> Follows(g.next, c)
    decreases ops, 1
  {
    if ops == [] then Got((), c) else
    match Exec(ops[0], c)
    case Missing(e) => Missing(e)
    case Got(_, d) => ExecAll(ops[1..], d)
  }

  /** What the operations on one item are, by name. */
  lemma ExecSimple(c: Cursor)
    ensures Open(true, c) == GetMap(c) && Open(false, c) == GetArray(c)
    ensures Exec(Scalar(INT), c) == Moved(GetInt(c)) && Exec(Scalar(BSTR), c) == Moved(GetBstr(c))
  {
    hide GetMap, GetArray, GetInt, GetBstr;
  }

  lemma ExecSkip(n: u64, c: Cursor)
    ensures Exec(Skip(n), c) == GetSkip(c, n)
  {
    hide GetSkip;
  }

  /** Where a context will have ended when all its items are consumed. */
  ghost function Landing(c: Cursor): Outcome
  {
    Items(Data(c.r), c.count - c.index)
  }

  /** Reading a head inside a context moves towards the same end: a scalar is an item, a tag is part of the
      next one, and a container's items are still to come. */
  lemma HeadLands(c: Cursor)
    requires GetAny(c).Got?
    ensures var a := GetAny(c).value;
            var d := GetAny(c).next;
            IsArray(a) || IsMap(a) || Landing(c) == Landing(d)
  {
    hide ReadHead, Items, Item;
    var r := ReadHead(Data(c.r));
    assert r.Head? && Data(GetAny(c).next.r) == Data(c.r)[r.size..];
    SkipHead(Data(c.r), c.count - c.index);
  }

  lemma ScalarKind(kind: Kind, c: Cursor)
    requires ScalarNext(kind, c).Got?
    ensures var a := GetAny(c).value; !IsArray(a) && !IsMap(a) && !IsTag(a)
  {
    hide GetAny;
  }

  /** Every operation moves towards the same end. */
  lemma {:induction false} ExecLands(op: Op, c: Cursor)
    requires Exec(op, c).Got?
    ensures Landing(c) == Landing(Exec(op, c).next)
    decreases op, 0
  {
    hide ReadHead, GetAny, Items, Item;
    match op
    case Scalar(kind) =>
      ScalarKind(kind, c);
      HeadLands(c);
    case Skip(n) => SkipLands(c, n);
    case SubObject => SkipLands(c, 1);
    case Tag => HeadLands(c);
    case Nest(isMap, body) =>
      NestIsSkip(isMap, body, c);
      SkipLands(c, 1);
  }

  lemma SkipLands(c: Cursor, n: u64)
    requires GetSkip(c, n).Got?
    ensures Landing(c) == Landing(GetSkip(c, n).next)
  {
    hide Items, GetSkip, Data;
    var d := GetSkip(c, n).next;
    ItemsAppend(Data(c.r), n, d.count - d.index);
    assert c.count - c.index == n + (d.count - d.index);
  }

  lemma {:induction false} ExecAllLands(ops: seq<Op>, c: Cursor)
    requires ExecAll(ops, c).Got?
    ensures Landing(c) == Landing(ExecAll(ops, c).next)
    decreases ops, 1
  {
    hide Exec;
    if ops != [] {
      ExecLands(ops[0], c);
      ExecAllLands(ops[1..], Exec(ops[0], c).next);
    }
  }

  /** Opening a container puts its children next: the item's end is the end of the child context. */
  lemma OpenLands(isMap: bool, c: Cursor)
    requires Open(isMap, c).Got?
    ensures c.index < c.count && GetAny(c).Got?
    ensures var a := GetAny(c).value;
            var d := Open(isMap, c).next;
            !IsString(a.header) && d == Position(d.r, c.index + 1, c.count) && Follows(d, c) && d.r.Span?
            && Open(isMap, c).value == Position(d.r, 0, Children(a.header, a.value))
    ensures Landing(Open(isMap, c).value) == Items(Data(c.r), 1)
  {
    hide ReadHead, Items, Item;
    var r := ReadHead(Data(c.r));
    SkipHead(Data(c.r), 1);
    assert r.Head? && Data(Open(isMap, c).value.r) == Data(c.r)[r.size..];
  }

  /** A position is determined by how much is left to read. */
  lemma SamePlace(q: Range, r: Range)
    requires Resumes(q, r)
    ensures |Data(q)| <= |Data(r)| && Advance(r, |Data(r)| - |Data(q)|) == q
  {
  }

  lemma SkipLandsAt(c: Cursor, q: Range)
    requires c.index < c.count
    requires Resumes(q, c.r)
    requires Items(Data(c.r), 1) == Done(Data(q))
    ensures GetSkip(c, 1) == Got((), Position(q, c.index + 1, c.count))
  {
    hide Items;
    SamePlace(q, c.r);
  }

  /** Structured reading equals skipping: when a container is opened, its children consumed in any way at
      all, and it is closed, the parent is exactly where skipping one item leaves it. */
  lemma {:induction false} NestIsSkip(isMap: bool, body: seq<Op>, c: Cursor)
    requires Exec(Nest(isMap, body), c).Got?
    ensures GetSkip(c, 1).Got? && GetSkip(c, 1).next == Exec(Nest(isMap, body), c).next
    decreases body, 2
  {
    hide *;
    NestParts(isMap, body, c);
    NestResumes(isMap, body, c);
    OpenLands(isMap, c);
    var child := Open(isMap, c).value;
    ExecAllLands(body, child);
    var last := ExecAll(body, child).next;
    LandsAtEnd(child, last);
    SkipLandsAt(c, last.r);
  }

  /** What a container that is opened, consumed and closed amounts to. */
  lemma NestParts(isMap: bool, body: seq<Op>, c: Cursor)
    requires Exec(Nest(isMap, body), c).Got?
    ensures Open(isMap, c).Got? && ExecAll(body, Open(isMap, c).value).Got?
    ensures var last := ExecAll(body, Open(isMap, c).value).next;
            && AtEnd(last)
            && Exec(Nest(isMap, body), c).next == Open(isMap, c).next.(r := last.r)
  {
    hide Open, ExecAll;
  }

  /** What happens inside a container happens further on in its parent's data. */
  lemma NestResumes(isMap: bool, body: seq<Op>, c: Cursor)
    requires Open(isMap, c).Got? && ExecAll(body, Open(isMap, c).value).Got?
    ensures Resumes(ExecAll(body, Open(isMap, c).value).next.r, c.r)
  {
    hide Open, ExecAll, GetAny, Data, Landing, Items;
    OpenLands(isMap, c);
    ResumesThrough(ExecAll(body, Open(isMap, c).value).next.r, Open(isMap, c).value.r, c.r);
  }

  /** A context that has come to its end has landed. */
  lemma LandsAtEnd(child: Cursor, last: Cursor)
    requires AtEnd(last) && Landing(child) == Landing(last)
    ensures Landing(child) == Done(Data(last.r))
  {
    hide Data;
    NoneLeft(Data(last.r));
  }

  lemma ResumesThrough(x: Range, y: Range, z: Range)
    requires Resumes(x, y) && Resumes(y, z)
    ensures Resumes(x, z)
  {
  }

  lemma NoneLeft(s: seq<byte>)
    ensures Items(s, 0) == Done(s)
  {
  }

  /** And the other way round: a container that can be skipped can be opened, skipped through and closed. */
  lemma SkipIsNest(isMap: bool, c: Cursor)
    requires GetSkip(c, 1).Got? && GetAny(c).Got?
    requires if isMap then IsMap(GetAny(c).value) else IsArray(GetAny(c).value)
    ensures exists n: u64 :: Exec(Nest(isMap, [Skip(n)]), c).Got?
                             && Exec(Nest(isMap, [Skip(n)]), c).next == GetSkip(c, 1).next
  {
    hide *;
    OpenFits(isMap, c);
    OpenLands(isMap, c);
    var child := Open(isMap, c).value;
    ChildrenParse(isMap, c);
    SkipThrough(child);
    CloseAll(isMap, [Skip(child.count)], c);
    NestIsSkip(isMap, [Skip(child.count)], c);
  }

  lemma ChildrenParse(isMap: bool, c: Cursor)
    requires GetSkip(c, 1).Got? && Open(isMap, c).Got?
    ensures Open(isMap, c).value.index == 0
    ensures Items(Data(Open(isMap, c).value.r), Open(isMap, c).value.count).Done?
  {
    OpenLands(isMap, c);
    hide Open, Items, Data;
  }

  lemma CloseAll(isMap: bool, body: seq<Op>, c: Cursor)
    requires Open(isMap, c).Got?
    requires ExecAll(body, Open(isMap, c).value).Got?
    requires AtEnd(ExecAll(body, Open(isMap, c).value).next)
    ensures Exec(Nest(isMap, body), c)
         == Got((), Open(isMap, c).next.(r := ExecAll(body, Open(isMap, c).value).next.r))
  {
    hide Open, ExecAll;
  }

  lemma SkipThrough(child: Cursor)
    requires child.index == 0 && Items(Data(child.r), child.count).Done?
    ensures ExecAll([Skip(child.count)], child).Got? && AtEnd(ExecAll([Skip(child.count)], child).next)
  {
    hide Items;
    assert [Skip(child.count)][1..] == [];
    assert ExecAll([Skip(child.count)], child) == ExecAll([], GetSkip(child, child.count).next);
  }

  /** A container that can be skipped has no more children than there are octets, so it can be opened. */
  lemma OpenFits(isMap: bool, c: Cursor)
    requires GetSkip(c, 1).Got? && GetAny(c).Got?
    requires if isMap then IsMap(GetAny(c).value) else IsArray(GetAny(c).value)
    ensures Open(isMap, c).Got?
  {
    hide ReadHead, Item, Items;
    var r := ReadHead(Data(c.r));
    SkipHead(Data(c.r), 1);
    if Children(r.header, r.value) > |Data(c.r)| {
      OverflowRejects(Data(c.r)[r.size..], Children(r.header, r.value));
    }
  }
}
