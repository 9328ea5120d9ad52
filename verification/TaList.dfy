/** The list of trusted applications that the broker hands over, and what the agent tells the TAM about it:
    `set_dev_option` and `build_query_response` in teep-agent-ta/teep-agent-ta.c. */
module TaList {
  import opened Bytes

  const COMMA: byte := ',' as int
  const PLUS: byte := '+' as int
  const MINUS: byte := '-' as int
  const REQUEST_MAX: nat := 16
  const ID_SIZE: nat := 128

  /** `struct teep_manifest_request` */
  datatype Request = Request(requested: bool, unneeded: bool, id: seq<byte>)

  /** The length of the first field. */
  function FieldEnd(s: seq<byte>): (e: nat)
    ensures e <= |s| && COMMA !in s[..e] && (e < |s| ==> s[e] == COMMA)
  {
    if s == [] || s[0] == COMMA then 0 else
    var e := 1 + FieldEnd(s[1..]);
    assert s[..e] == [s[0]] + s[1..][..e - 1];
    e
  }

  /** The fields between the commas. */
  function Split(s: seq<byte>): (fields: seq<seq<byte>>)
    ensures |fields| >= 1
    decreases |s|
  {
    var e := FieldEnd(s);
    if e == |s| then [s] else [s[..e]] + Split(s[e + 1..])
  }

  function Join(fields: seq<seq<byte>>): seq<byte>
    requires |fields| >= 1
  {
    if |fields| == 1 then fields[0] else fields[0] + [COMMA] + Join(fields[1..])
  }

  /** Splitting is what undoes joining: the fields have no comma, and joined they are the string again. */
  lemma {:induction false} SplitThenJoin(s: seq<byte>)
    ensures Join(Split(s)) == s && forall f <- Split(s) :: COMMA !in f
    decreases |s|
  {
    var e := FieldEnd(s);
    if e < |s| {
      SplitThenJoin(s[e + 1..]);
      assert Split(s)[1..] == Split(s[e + 1..]);
      assert s == s[..e] + [COMMA] + s[e + 1..];
    } else {
      assert s[..e] == s;
    }
  }

  lemma {:induction false} FieldEndIs(s: seq<byte>, e: nat)
    requires e <= |s| && (forall j | 0 <= j < e :: s[j] != COMMA) && (e < |s| ==> s[e] == COMMA)
    ensures FieldEnd(s) == e
  {
    if e > 0 {
      FieldEndIs(s[1..], e - 1);
    }
  }

  /** And nothing else undoes it. */
  lemma {:induction false} JoinThenSplit(fields: seq<seq<byte>>)
    requires |fields| >= 1 && forall f <- fields :: COMMA !in f
    ensures Split(Join(fields)) == fields
  {
    var s, f := Join(fields), fields[0];
    assert s[..|f|] == f;
    forall j | 0 <= j < |f| ensures s[j] != COMMA {
      assert s[j] == f[j] && f[j] in f;
    }
    FieldEndIs(s, |f|);
    SplitNextField(s);
    hide FieldEnd, Split;
    if |fields| > 1 {
      assert s[|f| + 1..] == Join(fields[1..]);
      JoinThenSplit(fields[1..]);
    }
  }

  lemma {:induction false} SplitCounts(s: seq<byte>)
    ensures |Split(s)| == 1 + multiset(s)[COMMA]
    decreases |s|
  {
    hide FieldEnd;
    var e := FieldEnd(s);
    if e < |s| {
      var front, back := s[..e], s[e + 1..];
      hide Split;
      SplitFirst(s);
      SplitCounts(back);
      OneComma(s, front, back);
    } else {
      assert s[..e] == s;
    }
  }

  lemma OneComma(s: seq<byte>, front: seq<byte>, back: seq<byte>)
    requires s == front + [COMMA] + back && COMMA !in front
    ensures multiset(s)[COMMA] == 1 + multiset(back)[COMMA]
  {
  }

  lemma SplitFirst(s: seq<byte>)
    ensures var e := FieldEnd(s);
            if e == |s| then Split(s) == [s]
            else Split(s) == [s[..e]] + Split(s[e + 1..]) && s == s[..e] + [COMMA] + s[e + 1..]
  {
    hide FieldEnd, Split;
    SplitNextField(s);
    CommaAt(s, FieldEnd(s));
  }

  lemma SplitNextField(s: seq<byte>)
    ensures Split(s) == if FieldEnd(s) == |s| then [s] else [s[..FieldEnd(s)]] + Split(s[FieldEnd(s) + 1..])
  {
    hide FieldEnd;
  }

  lemma CommaAt(s: seq<byte>, e: nat)
    ensures e < |s| && s[e] == COMMA ==> s == s[..e] + [COMMA] + s[e + 1..]
  {
  }

  function Cut(id: seq<byte>): (r: seq<byte>)
    ensures |r| < ID_SIZE && r <= id
  {
    if |id| < ID_SIZE then id else id[..ID_SIZE - 1]
  }

  /** What a field asks for: one leading sign says whether the application is wanted or not needed any more. */
  function FieldRequest(field: seq<byte>): (r: Request)
    ensures !(r.requested && r.unneeded)
  {
    if field != [] && field[0] == PLUS then Request(true, false, Cut(field[1..]))
    else if field != [] && field[0] == MINUS then Request(false, true, Cut(field[1..]))
    else Request(false, false, Cut(field))
  }

  /** What a list asks for. */
  function FieldRequests(fields: seq<seq<byte>>): (rs: seq<Request>)
    ensures |rs| == |fields|
  {
    seq(|fields|, i requires 0 <= i < |fields| => FieldRequest(fields[i]))
  }

  /** The first pass: count the fields. */
  method CountFields(value: seq<byte>) returns (n: nat)
    ensures n == |Split(value)|
  {
    n := 1;
    var i := 0;
    while i < |value|
      invariant i <= |value| && n == 1 + multiset(value[..i])[COMMA]
    {
      assert value[..i + 1] == value[..i] + [value[i]];
      if value[i] == COMMA {
        n := n + 1;
      }
      i := i + 1;
    }
    assert value[..i] == value;
    SplitCounts(value);
  }

  /** The second pass, for one field: its request, and where the next field starts. */
  method ReadField(value: seq<byte>, start: nat) returns (r: Request, next: nat)
    requires start <= |value|
    ensures start <= next <= |value|
    ensures var e := FieldEnd(value[start..]);
            && r == FieldRequest(value[start..start + e])
            && next == if start + e == |value| then |value| else start + e + 1
  {
    hide FieldEnd, Cut;
    var first := start;
    var requested, unneeded := false, false;
    if first < |value| && value[first] == PLUS {
      first := first + 1;
      requested := true;
    } else if first < |value| && value[first] == MINUS {
      first := first + 1;
      unneeded := true;
    }
    var id;
    id, next := ReadName(value, first);
    FieldEndIs(value[start..], next - start);
    ghost var field := value[start..next];
    assert field[first - start..] == value[first..next] && (first == start ==> field == value[first..next]);
    r := Request(requested, unneeded, id);
    if next < |value| {
      next := next + 1;
    }
  }

  /** The rest of a field, cut to what fits. */
  method ReadName(value: seq<byte>, first: nat) returns (id: seq<byte>, next: nat)
    requires first <= |value|
    ensures first <= next <= |value| && (forall j | first <= j < next :: value[j] != COMMA)
    ensures next < |value| ==> value[next] == COMMA
    ensures id == Cut(value[first..next])
  {
    id, next := [], first;
    while next < |value| && value[next] != COMMA
      invariant first <= next <= |value| && (forall j | first <= j < next :: value[j] != COMMA)
      invariant id == Cut(value[first..next])
    {
      assert value[first..next + 1] == value[first..next] + [value[next]];
      if next - first < ID_SIZE - 1 {
        id := id + [value[next]];
      }
      next := next + 1;
    }
  }

  /** `AGENT_OPTION_SET_CURRENT_TA_LIST`: up to sixteen fields are taken over, one request each, in order. */
  method ParseTaList(value: seq<byte>) returns (ok: bool, requests: seq<Request>)
    ensures ok == (|Split(value)| <= REQUEST_MAX)
    ensures ok ==> requests == FieldRequests(Split(value))
  {
    var n := CountFields(value);
    if n > REQUEST_MAX {
      return false, [];
    }
    hide FieldEnd, Split, FieldRequests;
    requests := [];
    NoRequests();
    var index, s := 0, 0;
    while index < n
      invariant index == |requests| <= n && s <= |value|
      invariant index < n ==> Split(value)[index..] == Split(value[s..])
      invariant requests == FieldRequests(Split(value)[..index])
    {
      SplitNext(value, index, s);
      MoreRequests(Split(value), index);
      var r;
      r, s := ReadField(value, s);
      requests := requests + [r];
      index := index + 1;
    }
    assert Split(value)[..index] == Split(value);
    ok := true;
  }

  lemma NoRequests()
    ensures FieldRequests([]) == []
  {
  }

  lemma MoreRequests(fields: seq<seq<byte>>, i: nat)
    requires i < |fields|
    ensures FieldRequests(fields[..i + 1]) == FieldRequests(fields[..i]) + [FieldRequest(fields[i])]
  {
  }

  /** The field that starts at a position, and the fields after it. */
  lemma SplitNext(value: seq<byte>, index: nat, s: nat)
    requires s <= |value| && index < |Split(value)| && Split(value)[index..] == Split(value[s..])
    ensures var e := FieldEnd(value[s..]);
            && Split(value)[index] == value[s..s + e]
            && if s + e == |value| then index + 1 == |Split(value)|
               else index + 1 < |Split(value)| && Split(value)[index + 1..] == Split(value[s + e + 1..])
  {
    hide FieldEnd, Split;
    var rest := value[s..];
    var e := FieldEnd(rest);
    SplitFirst(rest);
    assert rest[..e] == value[s..s + e];
    if e < |rest| {
      assert rest[e + 1..] == value[s + e + 1..];
      TailOf(Split(value), index, rest[..e], Split(rest[e + 1..]));
    } else {
      assert rest[..e] == rest;
      TailOf(Split(value), index, rest, []);
    }
  }

  lemma TailOf(fields: seq<seq<byte>>, index: nat, first: seq<byte>, others: seq<seq<byte>>)
    requires index < |fields| && fields[index..] == [first] + others
    ensures fields[index] == first && fields[index + 1..] == others && |fields| == index + 1 + |others|
  {
    assert fields[index..][0] == first && fields[index..][1..] == others;
  }

  // What the TAM is told.

  /** The three lists of a query response. */
  datatype Lists = Lists(installed: seq<seq<byte>>, requested: seq<seq<byte>>, unneeded: seq<seq<byte>>)

  predicate IsInstalled(r: Request) { !r.requested && !r.unneeded }

  predicate IsRequested(r: Request) { r.requested }

  predicate IsUnneeded(r: Request) { r.unneeded }

  /** The names of the requests that one of the loops picks. */
  function Names(rs: seq<Request>, picks: Request -> bool): seq<seq<byte>>
  {
    if rs == [] then [] else
    var r := rs[|rs| - 1];
    Names(rs[..|rs| - 1], picks) + if picks(r) then [r.id] else []
  }

  function ListsOf(rs: seq<Request>): Lists
  {
    Lists(Names(rs, IsInstalled), Names(rs, IsRequested), Names(rs, IsUnneeded))
  }

  /** The loops of `build_query_response`. */
  method BuildLists(rs: seq<Request>) returns (lists: Lists)
    ensures lists == ListsOf(rs)
  {
    var installed, requested, unneeded: seq<seq<byte>> := [], [], [];
    for i := 0 to |rs|
      invariant installed == Names(rs[..i], IsInstalled)
    {
      assert rs[..i + 1][..i] == rs[..i];
      if !rs[i].requested && !rs[i].unneeded {
        installed := installed + [rs[i].id];
      }
    }
    for i := 0 to |rs|
      invariant requested == Names(rs[..i], IsRequested)
    {
      assert rs[..i + 1][..i] == rs[..i];
      if rs[i].requested {
        requested := requested + [rs[i].id];
      }
    }
    for i := 0 to |rs|
      invariant unneeded == Names(rs[..i], IsUnneeded)
    {
      assert rs[..i + 1][..i] == rs[..i];
      if rs[i].unneeded {
        unneeded := unneeded + [rs[i].id];
      }
    }
    assert rs[..|rs|] == rs;
    lists := Lists(installed, requested, unneeded);
  }

  /** `names` are those of the picked requests, which are at these positions, in order. */
  ghost predicate Picked(rs: seq<Request>, picks: Request -> bool, positions: seq<nat>, names: seq<seq<byte>>)
  {
    && |names| == |positions|
    && (forall k | 0 <= k < |positions| ::
          positions[k] < |rs| && picks(rs[positions[k]]) && names[k] == rs[positions[k]].id)
    && (forall j, k | 0 <= j < k < |positions| :: positions[j] < positions[k])
    && (forall i: nat | i < |rs| && picks(rs[i]) :: i in positions)
  }

  lemma PickedOfMore(rs: seq<Request>, picks: Request -> bool, positions: seq<nat>, names: seq<seq<byte>>)
    requires rs != [] && Picked(rs[..|rs| - 1], picks, positions, names)
    ensures !picks(rs[|rs| - 1]) ==> Picked(rs, picks, positions, names + [])
    ensures picks(rs[|rs| - 1]) ==> Picked(rs, picks, positions + [|rs| - 1], names + [rs[|rs| - 1].id])
  {
    var n := |rs| - 1;
    forall i: nat | i < n && picks(rs[i]) ensures i in positions && i in positions + [n] {
      assert rs[..n][i] == rs[i];
    }
    assert n in positions + [n] && names + [] == names;
  }

  lemma {:induction false} NamesArePicked(rs: seq<Request>, picks: Request -> bool) returns (positions: seq<nat>)
    ensures Picked(rs, picks, positions, Names(rs, picks))
  {
    positions := [];
    if rs != [] {
      hide Picked;
      var n := |rs| - 1;
      positions := NamesArePicked(rs[..n], picks);
      PickedOfMore(rs, picks, positions, Names(rs[..n], picks));
      if picks(rs[n]) {
        positions := positions + [n];
      }
    }
  }

  /** Each field of the list lands in exactly one of the three lists, and none changes its order. */
  lemma EachInOneList(value: seq<byte>) returns (a: seq<nat>, b: seq<nat>, c: seq<nat>)
    ensures var rs := FieldRequests(Split(value));
            var lists := ListsOf(rs);
            && Picked(rs, IsInstalled, a, lists.installed) && Picked(rs, IsRequested, b, lists.requested)
            && Picked(rs, IsUnneeded, c, lists.unneeded)
            && (forall i: nat | i < |rs| :: i in a || i in b || i in c)
            && (forall i: nat :: !(i in a && i in b) && !(i in b && i in c) && !(i in a && i in c))
  {
    hide Names, Split, FieldRequest;
    var rs := FieldRequests(Split(value));
    a := NamesArePicked(rs, IsInstalled);
    b := NamesArePicked(rs, IsRequested);
    c := NamesArePicked(rs, IsUnneeded);
  }

  // The list and the three lists, without the requests between them.

  datatype Mark = Plain | Wanted | Unwanted

  datatype Marked = Marked(mark: Mark, name: seq<byte>)

  /** A list marks an application with a leading sign, or none. */
  function Written(f: Marked): seq<byte>
  {
    match f.mark case Plain => f.name case Wanted => ['+' as int] + f.name case Unwanted => ['-' as int] + f.name
  }

  function AllWritten(fs: seq<Marked>): (fields: seq<seq<byte>>)
    ensures |fields| == |fs|
  {
    seq(|fs|, i requires 0 <= i < |fs| => Written(fs[i]))
  }

  /** What a list can say: names have no comma, and a name without a mark does not begin with a sign. */
  predicate Sayable(f: Marked)
  {
    (',' as int) !in f.name && (f.mark.Plain? && f.name != [] ==> f.name[0] !in {'+' as int, '-' as int})
  }

  /** The names with one mark, in order, at most 127 characters of each. */
  function NamesWith(fs: seq<Marked>, mark: Mark): seq<seq<byte>>
  {
    if fs == [] then [] else
    var f := fs[|fs| - 1];
    NamesWith(fs[..|fs| - 1], mark)
    + if f.mark == mark then [if |f.name| > 127 then f.name[..127] else f.name] else []
  }

  lemma FieldRead(f: Marked)
    requires Sayable(f)
    ensures var r := FieldRequest(Written(f));
            && r.requested == f.mark.Wanted? && r.unneeded == f.mark.Unwanted?
            && r.id == if |f.name| > 127 then f.name[..127] else f.name
    ensures COMMA !in Written(f)
  {
    if !f.mark.Plain? {
      assert Written(f)[1..] == f.name;
    }
  }

  /** Unmarked applications are reported as installed, those with a plus as requested, those with a minus as
      unneeded. */
  lemma ListSaysWhatIsWritten(fs: seq<Marked>)
    requires fs != [] && forall f <- fs :: Sayable(f)
    ensures ListsOf(FieldRequests(Split(Join(AllWritten(fs)))))
         == Lists(NamesWith(fs, Plain), NamesWith(fs, Wanted), NamesWith(fs, Unwanted))
  {
    hide Split, Join, FieldRequest, Sayable, Written;
    var fields := AllWritten(fs);
    forall f | f in fields ensures COMMA !in f {
      var i :| 0 <= i < |fields| && fields[i] == f;
      assert fs[i] in fs;
      FieldRead(fs[i]);
    }
    JoinThenSplit(fields);
    forall f | Sayable(f)
      ensures IsInstalled(FieldRequest(Written(f))) <==> f.mark == Plain
      ensures IsRequested(FieldRequest(Written(f))) <==> f.mark == Wanted
      ensures IsUnneeded(FieldRequest(Written(f))) <==> f.mark == Unwanted
    {
      FieldRead(f);
    }
    NamesAsWritten(fs, IsInstalled, Plain);
    NamesAsWritten(fs, IsRequested, Wanted);
    NamesAsWritten(fs, IsUnneeded, Unwanted);
  }

  lemma {:induction false} NamesAsWritten(fs: seq<Marked>, picks: Request -> bool, mark: Mark)
    requires forall f <- fs :: Sayable(f)
    requires forall f | Sayable(f) :: picks(FieldRequest(Written(f))) <==> f.mark == mark
    ensures Names(FieldRequests(AllWritten(fs)), picks) == NamesWith(fs, mark)
  {
    hide FieldRequest, Sayable, Written;
    if fs != [] {
      var n := |fs| - 1;
      NamesAsWritten(fs[..n], picks, mark);
      assert fs[n] in fs;
      FieldRead(fs[n]);
      assert FieldRequests(AllWritten(fs))[..n] == FieldRequests(AllWritten(fs[..n]));
    }
  }
}
