/** What a run does, told without the functions that a run is made of: which URI every fetch finds, what is stored and
    what is fetched, and why a run fails. */
module SuitEffects {
  import opened Wrappers
  import opened Bytes
  import opened CborReader
  import opened SuitEnvelope
  import opened SuitManifest
  import opened SuitBindings
  import opened SuitPlan

  // One fetch.

  predicate Named(e: Entry, name: seq<byte>) { IsTstr(e.key) && Data(e.key.bytes) == name }

  /** The byte string of the last entry with a name, or the null range when there is none; every entry with that name
      has a byte string. */
  ghost predicate LastNamed(es: seq<Entry>, name: seq<byte>, body: Range)
  {
    && (forall i | 0 <= i < |es| :: Named(es[i], name) ==> GetBstr(es[i].at).Got?)
    && if body.Span? then
         exists i | 0 <= i < |es| && Named(es[i], name) ::
           GetBstr(es[i].at).value == body && forall j | i < j < |es| :: !Named(es[j], name)
       else forall i | 0 <= i < |es| :: !Named(es[i], name)
  }

  /** What an envelope has under a name. */
  ghost predicate Embedded(envelope: Range, name: seq<byte>, body: Range)
  {
    && EnvelopeMap(envelope).Some? && Entries(EnvelopeMap(envelope).value).complete
    && LastNamed(Entries(EnvelopeMap(envelope).value).all, name, body)
  }

  /** What a fetch asks for when its URI is this value: a text that begins with `#` names an entry of the envelope to
      store, any other is an address to fetch from. */
  ghost predicate Asks(m: Manifest, value: Range, target: Target, e: Effect)
  {
    var g := GetTstr(Toplevel(value));
    && g.Got? && Data(g.value) != []
    && if Data(g.value)[0] == '#' as int then
         e.Stored? && e.target == target && Embedded(m.envelope, Data(g.value), e.body)
       else e == Fetched(target, g.value)
  }

  lemma MatchesIsNamed(e: Entry, text: Range)
    requires text.Span? && Data(text) != []
    ensures Matches(Name(text), e.key) <==> Named(e, Data(text))
  {
  }

  lemma {:induction false} LastIsLast(es: seq<Entry>, key: Key)
    ensures var o := Last(es, key);
            && (o.None? ==> forall i | 0 <= i < |es| :: !Matches(key, es[i].key))
            && (o.Some? ==> exists i | 0 <= i < |es| && Matches(key, es[i].key) ::
                              es[i] == o.value && forall j | i < j < |es| :: !Matches(key, es[j].key))
  {
    hide Matches;
    if es != [] {
      var n := |es| - 1;
      if Matches(key, es[n].key) {
        assert es[n] == Last(es, key).value;
      } else {
        LastIsLast(es[..n], key);
        if Last(es[..n], key).Some? {
          var i :| 0 <= i < n && Matches(key, es[..n][i].key) && es[..n][i] == Last(es[..n], key).value
                   && forall j | i < j < n :: !Matches(key, es[..n][j].key);
          assert es[i] == es[..n][i];
          forall j | i < j < |es| ensures !Matches(key, es[j].key) {
            assert j < n ==> es[j] == es[..n][j];
          }
        } else {
          forall j | 0 <= j < |es| ensures !Matches(key, es[j].key) {
            assert j < n ==> es[j] == es[..n][j];
          }
        }
      }
    }
  }

  lemma LastBstrIsNamed(es: seq<Entry>, text: Range, body: Range)
    requires text.Span? && Data(text) != []
    ensures LastNamed(es, Data(text), body) <==> AllBstr(es, Name(text)) && LastBstr(es, Name(text)) == body
  {
    hide GetBstr, Named, Matches, Last, Data;
    var key, name := Name(text), Data(text);
    forall i | 0 <= i < |es| ensures Matches(key, es[i].key) <==> Named(es[i], name) {
      MatchesIsNamed(es[i], text);
    }
    LastIsLast(es, key);
    if AllBstr(es, key) && Last(es, key).Some? {
      var i :| 0 <= i < |es| && Matches(key, es[i].key) && es[i] == Last(es, key).value
               && forall j | i < j < |es| :: !Matches(key, es[j].key);
      assert LastBstr(es, key) == GetBstr(es[i].at).value;
    }
  }

  lemma FieldIsEmbedded(envelope: Range, text: Range, body: Range)
    requires text.Span? && Data(text) != []
    ensures Embedded(envelope, Data(text), body) <==> FieldOf(envelope, Name(text)) == Some(body)
  {
    hide Named, Entries, EnvelopeMap, GetBstr, AllBstr, LastBstr, Data;
    if EnvelopeMap(envelope).Some? {
      LastBstrIsNamed(Entries(EnvelopeMap(envelope).value).all, text, body);
    }
  }

  /** A fetch asks for exactly what its URI's value says, and for nothing if that says nothing. */
  lemma FetchAsks(m: Manifest, bindings: seq<Binder>, address: Address, target: Target, e: Effect)
    ensures FetchEffect(m, bindings, address, target) == Some(e) <==>
            Lookup(bindings, address, 21).Some? && Asks(m, Lookup(bindings, address, 21).value, target, e)
  {
    hide Lookup, FieldOf, Embedded, GetTstr, Data;
    var o := Lookup(bindings, address, 21);
    if o.Some? {
      var g := GetTstr(Toplevel(o.value));
      if g.Got? && Data(g.value) != [] && e.Stored? {
        FieldIsEmbedded(m.envelope, g.value, e.body);
      }
      if g.Got? && Data(g.value) != [] && FetchEffect(m, bindings, address, target).Some? {
        var f := FetchEffect(m, bindings, address, target).value;
        if f.Stored? {
          FieldIsEmbedded(m.envelope, g.value, f.body);
        }
      }
    }
  }

  // Whole runs.

  /** The positions of the fetches among these calls: command 21. */
  function Fetches(calls: seq<Call>): (ps: seq<nat>)
    ensures forall k | 0 <= k < |ps| :: ps[k] < |calls|
  {
    if calls == [] then [] else
    var n := |calls| - 1;
    if calls[n].command == 21 then Fetches(calls[..n]) + [n] else Fetches(calls[..n])
  }

  /** They are all of them, in order. */
  lemma {:induction false} FetchesAreAll(calls: seq<Call>)
    ensures var ps := Fetches(calls);
            && (forall j | 0 <= j < |calls| :: calls[j].command == 21 <==> j in ps)
            && forall k, l | 0 <= k < l < |ps| :: ps[k] < ps[l]
  {
    if calls != [] {
      FetchesAreAll(calls[..|calls| - 1]);
    }
  }

  /** What the j-th of these calls asks for if it is a fetch: the URI is what the set and override commands before it
      leave at the address of its target, the last override or else what was set first. */
  ghost predicate EffectAt(cb: Platform, m: Manifest, calls: seq<Call>, j: nat, e: Effect)
    requires j < |calls|
  {
    var requests := Requests(cb, 0, calls[..j]).all;
    var value := Expected(requests, cb.at(j, calls[j].local), 21);
    value.Some? && Asks(m, value.value, calls[j].target, e)
  }

  /** Every fetch among the calls has had the effect it asks for, in order, and was answered with success; there were no
      other effects. */
  ghost predicate Explained(cb: Platform, m: Manifest, p: Progress)
  {
    var ps := Fetches(p.calls);
    && |p.effects| == |ps|
    && forall k | 0 <= k < |ps| :: EffectAt(cb, m, p.calls, ps[k], p.effects[k]) && cb.answer(p.effects[..k + 1]).ok
  }

  /** The same up to the last call, which failed: it set a parameter that could not be set, or was a fetch that asks for
      nothing, or for what was answered with failure. */
  ghost predicate Refused(cb: Platform, m: Manifest, p: Progress)
  {
    && p.calls != []
    && var n := |p.calls| - 1;
       var ps := Fetches(p.calls[..n]);
       && |ps| <= |p.effects| && Explained(cb, m, Progress(p.bindings, p.calls[..n], p.effects[..|ps|]))
       && if p.calls[n].command in {19, 20} then
            |p.effects| == |ps| && !BindAll([], Requests(cb, 0, p.calls)).0
          else
            && p.calls[n].command == 21
            && if |p.effects| == |ps| then forall e :: !EffectAt(cb, m, p.calls, n, e)
               else |p.effects| == |ps| + 1 && EffectAt(cb, m, p.calls, n, p.effects[|ps|]) && !cb.answer(p.effects).ok
  }

  /** The parameters in force are those that the calls asked for. */
  ghost predicate InForce(cb: Platform, p: Progress)
  {
    BindAll([], Requests(cb, 0, p.calls)) == (true, p.bindings)
  }

  lemma {:induction false} BindAllComplete(bs: seq<Binder>, l: Listing<Assign>)
    ensures BindAll(bs, l).0 ==> l.complete
    decreases |l.all|
  {
    hide Bind;
    if l.all != [] && Bind(bs, l.all[0]).Some? {
      BindAllComplete(Bind(bs, l.all[0]).value, Listing(l.all[1..], l.complete));
    }
  }

  /** The requests of one call. */
  function RequestsOf(cb: Platform, n: nat, c: Call): Listing<Assign>
  {
    if c.command == 19 || c.command == 20 then Requested(cb.at(n, c.local), c.param, c.command == 20)
    else Listing([], true)
  }

  lemma {:induction false} RequestsOfMore(cb: Platform, n: nat, calls: seq<Call>, c: Call)
    requires Requests(cb, n, calls).complete
    ensures var l, k := Requests(cb, n, calls), RequestsOf(cb, n + |calls|, c);
            Requests(cb, n, calls + [c]) == Listing(l.all + k.all, k.complete)
    decreases |calls|
  {
    hide Requested;
    var all := calls + [c];
    if calls == [] {
      assert all[1..] == [];
    } else {
      assert all[1..] == calls[1..] + [c];
      RequestsOfMore(cb, n + 1, calls[1..], c);
    }
  }

  /** A call that sets nothing leaves the parameters as they are. */
  lemma InForceStays(cb: Platform, p: Progress, c: Call, es: seq<Effect>)
    requires InForce(cb, p) && c.command !in {19, 20}
    ensures InForce(cb, Progress(p.bindings, p.calls + [c], es))
  {
    hide BindAll, Requests;
    BindAllComplete([], Requests(cb, 0, p.calls));
    RequestsOfMore(cb, 0, p.calls, c);
    assert Requests(cb, 0, p.calls).all + [] == Requests(cb, 0, p.calls).all;
  }

  /** One that sets or overrides binds what it asks for after what was asked for before. */
  lemma InForceBinds(cb: Platform, p: Progress, c: Call)
    requires InForce(cb, p) && c.command in {19, 20}
    ensures BindAll([], Requests(cb, 0, p.calls + [c]))
         == BindAll(p.bindings, Requested(cb.at(|p.calls|, c.local), c.param, c.command == 20))
  {
    hide BindAll, Requests, Requested;
    BindAllComplete([], Requests(cb, 0, p.calls));
    RequestsOfMore(cb, 0, p.calls, c);
    BindAllThen([], Requests(cb, 0, p.calls), RequestsOf(cb, |p.calls|, c));
  }

  /** The URI that a fetch finds is the one in force. */
  lemma FetchAsksAt(cb: Platform, m: Manifest, p: Progress, c: Call, e: Effect)
    requires InForce(cb, p)
    ensures FetchEffect(m, p.bindings, cb.at(|p.calls|, c.local), c.target) == Some(e) <==>
            EffectAt(cb, m, p.calls + [c], |p.calls|, e)
  {
    hide BindAll, Requests, Lookup, Expected, Asks, FetchEffect;
    var l := Requests(cb, 0, p.calls);
    BindAllComplete([], l);
    LookupAfter(l.all, cb.at(|p.calls|, c.local), 21);
    assert (p.calls + [c])[..|p.calls|] == p.calls;
    FetchAsks(m, p.bindings, cb.at(|p.calls|, c.local), c.target, e);
  }

  lemma FetchesOfMore(calls: seq<Call>, c: Call)
    ensures Fetches(calls + [c]) == if c.command == 21 then Fetches(calls) + [|calls|] else Fetches(calls)
  {
    assert (calls + [c])[..|calls|] == calls;
  }

  /** What has been explained stays explained when calls are added. */
  lemma StaysExplained(cb: Platform, m: Manifest, p: Progress, c: Call, es: seq<Effect>)
    requires Explained(cb, m, p) && p.effects <= es
    ensures forall k | 0 <= k < |p.effects| ::
              && EffectAt(cb, m, p.calls + [c], Fetches(p.calls)[k], es[k]) && cb.answer(es[..k + 1]).ok
  {
    hide Requests, Expected, Asks;
    var ps := Fetches(p.calls);
    hide Fetches;
    forall k | 0 <= k < |p.effects|
      ensures EffectAt(cb, m, p.calls + [c], ps[k], es[k]) && cb.answer(es[..k + 1]).ok
    {
      assert (p.calls + [c])[..ps[k]] == p.calls[..ps[k]];
      assert es[..k + 1] == p.effects[..k + 1];
    }
  }

  /** A call that makes no effect and does not fetch. */
  lemma QuietCall(cb: Platform, m: Manifest, p: Progress, c: Call, bs: seq<Binder>)
    requires Explained(cb, m, p) && c.command != 21
    ensures Explained(cb, m, Progress(bs, p.calls + [c], p.effects))
  {
    FetchesOfMore(p.calls, c);
    hide Fetches, EffectAt;
    StaysExplained(cb, m, p, c, p.effects);
  }

  /** A fetch that was answered with success. */
  lemma FetchedCall(cb: Platform, m: Manifest, p: Progress, c: Call, e: Effect)
    requires Explained(cb, m, p) && c.command == 21 && EffectAt(cb, m, p.calls + [c], |p.calls|, e)
    requires cb.answer(p.effects + [e]).ok
    ensures Explained(cb, m, Progress(p.bindings, p.calls + [c], p.effects + [e]))
  {
    FetchesOfMore(p.calls, c);
    hide Fetches, EffectAt;
    var es := p.effects + [e];
    StaysExplained(cb, m, p, c, es);
    assert es[..|es|] == es;
  }

  lemma BeforeLast(cb: Platform, m: Manifest, p: Progress, c: Call, bs: seq<Binder>, es: seq<Effect>)
    requires Explained(cb, m, p) && p.effects <= es
    ensures (p.calls + [c])[..|p.calls|] == p.calls && es[..|Fetches(p.calls)|] == p.effects
    ensures Explained(cb, m, Progress(bs, p.calls, p.effects))
  {
    hide Fetches, EffectAt;
  }

  lemma HandleExplains(cb: Platform, m: Manifest, p: Progress, c: Call)
    requires InForce(cb, p) && Explained(cb, m, p)
    ensures var (reply, q) := Handle(cb, m, p, c);
            && q.calls == p.calls + [c]
            && (reply.ok ==> InForce(cb, q) && Explained(cb, m, q)) && (!reply.ok ==> Refused(cb, m, q))
  {
    hide BindAll, Requests, FetchEffect, EffectAt, Explained, Fetches, Requested;
    var (reply, q) := Handle(cb, m, p, c);
    BeforeLast(cb, m, p, c, q.bindings, q.effects);
    ExplainedSize(cb, m, p);
    if c.command in {19, 20} {
      InForceBinds(cb, p, c);
      QuietCall(cb, m, p, c, q.bindings);
    } else {
      InForceStays(cb, p, c, q.effects);
      if c.command != 21 {
        QuietCall(cb, m, p, c, q.bindings);
      } else {
        FetchExplains(cb, m, p, c);
      }
    }
  }

  lemma ExplainedSize(cb: Platform, m: Manifest, p: Progress)
    requires Explained(cb, m, p)
    ensures |p.effects| == |Fetches(p.calls)|
  {
    hide Fetches;
  }

  lemma FetchExplains(cb: Platform, m: Manifest, p: Progress, c: Call)
    requires InForce(cb, p) && Explained(cb, m, p) && c.command == 21
    ensures var (reply, q) := Handle(cb, m, p, c);
            if reply.ok then Explained(cb, m, q) else Refused(cb, m, q)
  {
    hide InForce, FetchEffect, EffectAt, Explained, Fetches;
    var (reply, q) := Handle(cb, m, p, c);
    BeforeLast(cb, m, p, c, q.bindings, q.effects);
    ExplainedSize(cb, m, p);
    forall e ensures FetchEffect(m, p.bindings, cb.at(|p.calls|, c.local), c.target) == Some(e) <==>
                     EffectAt(cb, m, p.calls + [c], |p.calls|, e) {
      FetchAsksAt(cb, m, p, c, e);
    }
    var o := FetchEffect(m, p.bindings, cb.at(|p.calls|, c.local), c.target);
    if o.Some? && reply.ok {
      FetchedCall(cb, m, p, c, o.value);
    }
  }

  /** What a run comes to, from its calls, its effects and the answers to them. */
  ghost predicate Accounted(cb: Platform, m: Manifest, s: Halt)
  {
    match s.status
    case FINISHED => InForce(cb, s.progress) && Explained(cb, m, s.progress) && s.left == NOTHING
    case SUSPENDED => InForce(cb, s.progress) && Explained(cb, m, s.progress) && s.progress.effects != []
                      && cb.answer(s.progress.effects).suspend
    case FAILED => Refused(cb, m, s.progress) || (Explained(cb, m, s.progress) && s.left == BROKEN)
  }

  lemma HandleSuspends(cb: Platform, m: Manifest, p: Progress, c: Call)
    ensures var (reply, q) := Handle(cb, m, p, c);
            reply.suspend ==> q.effects != [] && cb.answer(q.effects).suspend
  {
    hide FetchEffect, SetParameters;
  }

  lemma {:induction false} PerformAccounted(cb: Platform, m: Manifest, p: Progress, plan: Plan)
    requires InForce(cb, p) && Explained(cb, m, p)
    ensures Accounted(cb, m, Perform(cb, m, p, plan))
    decreases |plan.all|
  {
    hide Handle, InForce, Explained, Refused;
    if plan.all != [] {
      HandleExplains(cb, m, p, plan.all[0]);
      HandleSuspends(cb, m, p, plan.all[0]);
      var (reply, q) := Handle(cb, m, p, plan.all[0]);
      if reply.ok && !reply.suspend {
        PerformAccounted(cb, m, q, Listing(plan.all[1..], plan.complete));
      }
    }
  }

  lemma {:induction false} RunOutAccounted(cb: Platform, m: Manifest, p: Progress, plan: Plan)
    requires InForce(cb, p) && Explained(cb, m, p)
    ensures Accounted(cb, m, RunOut(cb, m, p, plan)) && RunOut(cb, m, p, plan).status != SUSPENDED
    decreases |plan.all|
  {
    hide Perform, InForce, Explained, Refused;
    PerformAccounted(cb, m, p, plan);
    var s := Perform(cb, m, p, plan);
    if s.status == SUSPENDED {
      RunOutAccounted(cb, m, s.progress, s.left);
    }
  }

  /** A run makes the planned calls from the first on, however often it is resumed. */
  lemma {:induction false} RunOutFollowsPlan(cb: Platform, m: Manifest, p: Progress, plan: Plan)
    ensures var s := RunOut(cb, m, p, plan);
            s.progress.calls + s.left.all == p.calls + plan.all && s.left.complete == plan.complete
    decreases |plan.all|
  {
    hide Perform;
    PerformFollowsPlan(cb, m, p, plan);
    var s := Perform(cb, m, p, plan);
    if s.status == SUSPENDED {
      RunOutFollowsPlan(cb, m, s.progress, s.left);
    }
  }

  /** Every run of a plan, interrupted anywhere or resumed to its end, is accounted for. */
  lemma RunsAreAccounted(cb: Platform, m: Manifest, plan: Plan)
    ensures Accounted(cb, m, Perform(cb, m, START, plan)) && Accounted(cb, m, RunOut(cb, m, START, plan))
  {
    hide Perform, RunOut, Accounted;
    NothingYet(cb, m);
    PerformAccounted(cb, m, START, plan);
    RunOutAccounted(cb, m, START, plan);
  }

  lemma NothingYet(cb: Platform, m: Manifest)
    ensures InForce(cb, START) && Explained(cb, m, START)
  {
  }

  /** The k-th of these effects is what the k-th fetch, at the k-th of these positions, asks for. */
  ghost predicate Asked(cb: Platform, m: Manifest, calls: seq<Call>, ps: seq<nat>, es: seq<Effect>)
  {
    |es| <= |ps| && forall k | 0 <= k < |es| :: ps[k] < |calls| && EffectAt(cb, m, calls, ps[k], es[k])
  }

  /** In particular, however a run ends, its k-th effect is what its k-th fetch asks for. */
  lemma EffectsAreAsked(cb: Platform, m: Manifest, plan: Plan, s: Halt)
    requires s == Perform(cb, m, START, plan) || s == RunOut(cb, m, START, plan)
    ensures Asked(cb, m, s.progress.calls, Fetches(s.progress.calls), s.progress.effects)
  {
    hide Perform, RunOut, EffectAt, Fetches, InForce, Explained, Refused, Asked;
    RunsAreAccounted(cb, m, plan);
    if Refused(cb, m, s.progress) {
      RefusedIsAsked(cb, m, s.progress);
    } else {
      ExplainedIsAsked(cb, m, s.progress);
    }
  }

  lemma ExplainedIsAsked(cb: Platform, m: Manifest, p: Progress)
    requires Explained(cb, m, p)
    ensures Asked(cb, m, p.calls, Fetches(p.calls), p.effects)
  {
    hide EffectAt, Fetches;
  }

  lemma RefusedIsAsked(cb: Platform, m: Manifest, p: Progress)
    requires Refused(cb, m, p)
    ensures Asked(cb, m, p.calls, Fetches(p.calls), p.effects)
  {
    hide *;
    var es := RefusedParts(cb, m, p);
    var n := |p.calls| - 1;
    var before, last := p.calls[..n], p.calls[n];
    FetchesOfMore(before, last);
    assert before + [last] == p.calls;
    AskedStays(cb, m, Progress(p.bindings, before, es), last);
    AskedMore(cb, m, p.calls, Fetches(before), es, n, p.effects);
  }

  lemma AskedStays(cb: Platform, m: Manifest, p: Progress, c: Call)
    requires Explained(cb, m, p)
    ensures Asked(cb, m, p.calls + [c], Fetches(p.calls), p.effects) && |p.effects| == |Fetches(p.calls)|
  {
    hide EffectAt, Fetches;
    StaysExplained(cb, m, p, c, p.effects);
  }

  lemma AskedMore(cb: Platform, m: Manifest, calls: seq<Call>, ps: seq<nat>, es: seq<Effect>, n: nat, all: seq<Effect>)
    requires Asked(cb, m, calls, ps, es) && |es| == |ps| && es <= all && n < |calls|
    ensures all == es ==> Asked(cb, m, calls, ps, all) && Asked(cb, m, calls, ps + [n], all)
    ensures |all| == |es| + 1 && EffectAt(cb, m, calls, n, all[|es|]) ==> Asked(cb, m, calls, ps + [n], all)
  {
    hide EffectAt;
  }

  lemma RefusedParts(cb: Platform, m: Manifest, p: Progress) returns (es: seq<Effect>)
    requires Refused(cb, m, p)
    ensures p.calls != [] && es <= p.effects
    ensures var n := |p.calls| - 1;
            && Explained(cb, m, Progress(p.bindings, p.calls[..n], es))
            && if |p.effects| == |es| then p.effects == es
               else |p.effects| == |es| + 1 && p.calls[n].command == 21 && EffectAt(cb, m, p.calls, n, p.effects[|es|])
  {
    hide Explained, EffectAt, Fetches, BindAll, Requests;
    var ps := Fetches(p.calls[..|p.calls| - 1]);
    es := p.effects[..|ps|];
  }
}
