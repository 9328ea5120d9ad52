/** What every call keeps of an agent session, and so what holds in every state that any calls in any order lead to. */
module AgentSafety {
  import opened Wrappers
  import opened Bytes
  import opened CborReader
  import opened SuitEnvelope
  import opened SuitAuthenticate
  import opened SuitManifest
  import opened SuitBindings
  import opened SuitPlan
  import opened SuitEffects
  import opened TaList
  import opened AgentProtocol

  // What a run of the command runner does to the effects.

  function FetchCount(calls: seq<Call>): nat
  {
    if calls == [] then 0
    else FetchCount(calls[..|calls| - 1]) + if calls[|calls| - 1].command == FETCH then 1 else 0
  }

  lemma FetchCountOfMore(calls: seq<Call>, c: Call)
    ensures FetchCount(calls + [c]) == FetchCount(calls) + if c.command == FETCH then 1 else 0
  {
    assert (calls + [c])[..|calls|] == calls;
  }

  lemma {:induction false} FetchCountOfPrefix(a: seq<Call>, b: seq<Call>)
    requires a <= b
    ensures FetchCount(a) <= FetchCount(b)
  {
    if a == b {
    } else {
      assert a <= b[..|b| - 1];
      FetchCountOfPrefix(a, b[..|b| - 1]);
    }
  }

  /** The targets of the effects that suspended the runner. */
  function Suspensions(cb: Platform, es: seq<Effect>): seq<Target>
  {
    if es == [] then []
    else Suspensions(cb, es[..|es| - 1]) + if cb.answer(es).suspend then [es[|es| - 1].target] else []
  }

  lemma SuspensionsOfMore(cb: Platform, es: seq<Effect>, e: Effect)
    ensures Suspensions(cb, es + [e]) == Suspensions(cb, es) + if cb.answer(es + [e]).suspend then [e.target] else []
  {
    assert (es + [e])[..|es|] == es;
  }

  ghost predicate SuspendsOnlyWhenOk(cb: Platform)
  {
    forall h: seq<Effect> :: cb.answer(h).suspend ==> cb.answer(h).ok
  }

  lemma AgentSuspendsOnlyWhenOk(w: World, m: Manifest)
    ensures SuspendsOnlyWhenOk(AgentPlatform(w, m))
  {
  }

  /** One call makes at most one effect, and only a fetch makes one; only an effect suspends. */
  lemma HandleCounts(cb: Platform, m: Manifest, p: Progress, c: Call)
    ensures var (reply, q) := Handle(cb, m, p, c);
            && q.calls == p.calls + [c]
            && FetchCount(q.calls) == FetchCount(p.calls) + (if c.command == FETCH then 1 else 0)
            && if q.effects == p.effects then !reply.suspend
               else c.command == FETCH && |q.effects| == |p.effects| + 1 && reply == cb.answer(q.effects)
                    && Suspensions(cb, q.effects)
                       == Suspensions(cb, p.effects) + if reply.suspend then [q.effects[|p.effects|].target] else []
  {
    hide FetchEffect, SetParameters, FetchCount, Suspensions;
    FetchCountOfMore(p.calls, c);
    var (reply, q) := Handle(cb, m, p, c);
    if q.effects != p.effects {
      SuspensionsOfMore(cb, p.effects, FetchEffect(m, p.bindings, cb.at(|p.calls|, c.local), c.target).value);
    }
  }

  /** What the runner waits for, if it does. */
  function Waiting(suspended: bool, es: seq<Effect>): seq<Target>
  {
    if suspended && es != [] then [es[|es| - 1].target] else []
  }

  /** A run ends at its first suspension, with the effect that suspended it last. */
  lemma {:induction false} PerformCounts(cb: Platform, m: Manifest, p: Progress, plan: Plan)
    requires SuspendsOnlyWhenOk(cb) && |p.effects| <= FetchCount(p.calls)
    ensures var s := Perform(cb, m, p, plan);
            && |s.progress.effects| <= FetchCount(s.progress.calls)
            && Suspensions(cb, s.progress.effects)
               == Suspensions(cb, p.effects) + Waiting(s.status == SUSPENDED, s.progress.effects)
            && (s.status == SUSPENDED ==> s.progress.effects != [] && cb.answer(s.progress.effects).suspend)
    decreases |plan.all|
  {
    hide Handle, FetchCount, Suspensions;
    if plan.all != [] {
      HandleCounts(cb, m, p, plan.all[0]);
      var (reply, q) := Handle(cb, m, p, plan.all[0]);
      if reply.ok && !reply.suspend {
        PerformCounts(cb, m, q, Listing(plan.all[1..], plan.complete));
      }
    }
  }

  // The state of an install between two calls of the runner.

  /** Where an install stands: it has made the planned calls up to some point, its effects are what they asked for, and
      resuming it leads where an uninterrupted run of the whole plan leads. */
  ghost predicate Installs(w: World, i: Installing)
  {
    var m := i.manifest;
    var cb := AgentPlatform(w, m);
    && !m.install.Severed?
    && |i.progress.effects| <= FetchCount(i.progress.calls)
    && i.progress.calls <= PlanOf(m).all
    && (var whole := RunOut(cb, m, START, PlanOf(m));
        if i.failed then whole.status == FAILED && whole.progress == i.progress
        else whole == RunOut(cb, m, i.progress, i.left)
             && i.progress.calls + i.left.all == PlanOf(m).all && i.left.complete == PlanOf(m).complete)
    && (if i.failed then Explained(cb, m, i.progress) || Refused(cb, m, i.progress)
        else InForce(cb, i.progress) && Explained(cb, m, i.progress))
    && (i.suspended ==> !i.failed && i.progress.effects != [] && cb.answer(i.progress.effects).suspend)
  }

  lemma InstallStarts(w: World, m: Manifest)
    requires !m.install.Severed?
    ensures Installs(w, Installing(m, START, PlanOf(m), false, false))
  {
    hide PlanOf, InForce, Explained;
    assert [] + PlanOf(m).all == PlanOf(m).all;
    NothingYet(AgentPlatform(w, m), m);
  }

  lemma NothingRunsOn(cb: Platform, m: Manifest, p: Progress)
    ensures RunOut(cb, m, p, NOTHING) == Halt(p, FINISHED, NOTHING)
  {
  }

  lemma InstallRuns(w: World, i: Installing)
    requires Installs(w, i)
    ensures Installs(w, RunOn(w, i)) && RunOn(w, i).manifest == i.manifest
    ensures var cb := AgentPlatform(w, i.manifest);
            var j := RunOn(w, i);
            !i.failed && !i.suspended ==>
              Suspensions(cb, j.progress.effects)
              == Suspensions(cb, i.progress.effects) + Waiting(j.suspended, j.progress.effects)
    ensures !RunOn(w, i).failed && !RunOn(w, i).suspended ==> RunOn(w, i).left == NOTHING
  {
    hide PlanOf, AgentPlatform, Perform, FetchCount, Suspensions, SuspendsOnlyWhenOk, InForce, Explained, Refused;
    var m := i.manifest;
    var cb := AgentPlatform(w, m);
    if !i.failed && !i.suspended {
      AgentSuspendsOnlyWhenOk(w, m);
      PerformCounts(cb, m, i.progress, i.left);
      PerformFollowsPlan(cb, m, i.progress, i.left);
      PerformAccounted(cb, m, i.progress, i.left);
      var s := Perform(cb, m, i.progress, i.left);
      assert s.progress.calls <= s.progress.calls + s.left.all;
      NothingRunsOn(cb, m, s.progress);
    }
  }

  /** Resuming changes nothing but that the runner may go on. */
  lemma InstallResumes(w: World, i: Installing)
    requires Installs(w, i) && i.suspended
    ensures Installs(w, i.(suspended := false))
    ensures i.progress.effects != [] && i.progress.effects[|i.progress.effects| - 1].Fetched?
    ensures !i.failed && Awaited(i).isComponent && Waiting(true, i.progress.effects) == [Awaited(i)]
  {
    hide InForce, Explained, Refused;
  }

  // The invariant of a session.

  predicate FromAuthentic(w: World, m: Manifest)
  {
    Authentic(w.crypto, w.key, m.envelope) && ManifestOf(m.envelope) == Some(m)
  }

  /** How far a session has come. */
  function Rank(s: State): nat
  {
    match s
    case AGENT_INIT => 0
    case AGENT_POSTING_INITIAL_REQUEST => 1
    case AGENT_POSTING_QUERY_RESPONSE => 2
    case AGENT_INIT_RUNNER => 3
    case AGENT_RUN_SUIT_RUNNER => 4
    case AGENT_FETCH_COMPONENT => 4
    case AGENT_POSTING_SUCCESS => 5
    case AGENT_POSTING_ERROR => 6
    case AGENT_FINISH => 7
  }

  function Targets(ds: seq<Download>): (ts: seq<Target>)
    ensures |ts| == |ds|
  {
    seq(|ds|, k requires 0 <= k < |ds| => ds[k].target)
  }

  /** What the agent executes is the root manifest, the downloads are those the runner waited for, and the state
      says how the install stands. */
  ghost predicate SoundInstall(w: World, a: Agent)
    requires a.run.Some?
  {
    var i := a.run.value;
    && Installs(w, i)
    && a.manifests != [] && i.manifest == a.manifests[0]
    && Targets(a.downloads) + Waiting(i.suspended, i.progress.effects)
       == Suspensions(AgentPlatform(w, i.manifest), i.progress.effects)
    && (match a.state
        case AGENT_RUN_SUIT_RUNNER => !i.failed && !i.suspended
        case AGENT_FETCH_COMPONENT => i.suspended
        case AGENT_POSTING_SUCCESS => !i.failed && !i.suspended && i.left == NOTHING
        case _ => Rank(a.state) >= 6)
  }

  ghost predicate Sound(w: World, a: Agent)
  {
    && (a.task.Some? ==> HasTask(a.state) && a.task == Some(TaskFor(a)))
    && (forall m <- a.manifests :: FromAuthentic(w, m))
    && (Rank(a.state) <= 2 ==> a.manifests == [])
    && (if a.run.Some? then SoundInstall(w, a) else a.downloads == [] && Rank(a.state) !in {4, 5})
  }

  lemma OpenedIsSound(w: World)
    ensures Sound(w, OPENED)
  {
  }

  lemma {:induction false} LoadedAuthentic(w: World, envelopes: seq<Octets>)
    requires forall e <- envelopes :: Authentic(w.crypto, w.key, Whole(e))
    ensures forall m <- Loaded(envelopes).all :: FromAuthentic(w, m)
  {
    hide ManifestOf, Authentic;
    if envelopes != [] {
      var last := envelopes[|envelopes| - 1];
      if ManifestOf(Whole(last)).Some? {
        OwnEnvelope(Whole(last));
        LoadedAuthentic(w, envelopes[..|envelopes| - 1]);
      }
    }
  }

  lemma OwnEnvelope(r: Range)
    requires ManifestOf(r).Some?
    ensures ManifestOf(r).value.envelope == r
  {
    BinaryIsField(r);
  }

  /** The manifests are in the reverse order of the update, so the root is its last entry. */
  lemma {:induction false} LoadedReversed(envelopes: seq<Octets>)
    ensures var l := Loaded(envelopes);
            forall k | 0 <= k < |l.all| :: ManifestOf(Whole(envelopes[|envelopes| - 1 - k])) == Some(l.all[k])
  {
    hide ManifestOf;
    if envelopes != [] {
      var before, l := envelopes[..|envelopes| - 1], Loaded(envelopes);
      LoadedReversed(before);
      forall k | 0 < k < |l.all| ensures ManifestOf(Whole(envelopes[|envelopes| - 1 - k])) == Some(l.all[k]) {
        assert l.all[k] == Loaded(before).all[k - 1];
        assert before[|before| - 1 - (k - 1)] == envelopes[|envelopes| - 1 - k];
      }
    }
  }

  lemma ReceivedSound(w: World, a: Agent, buffer: Octets)
    requires Sound(w, a) && a.task.Some? && a.task.value.HttpPost?
    ensures Sound(w, TaskDone(w, a, buffer).0)
    ensures Rank(a.state) <= Rank(TaskDone(w, a, buffer).0.state)
  {
    hide Authentic, Loaded, Installs, Suspensions, Targets, TaskFor, FromAuthentic;
    assert !a.state.AGENT_FETCH_COMPONENT? && !a.state.AGENT_FINISH? by { TaskKind(a); }
    match w.parse(buffer)
    case Some(Update(envelopes)) =>
      if Storable(w, envelopes) {
        LoadedAuthentic(w, envelopes);
      }
    case _ =>
  }

  lemma TaskKind(a: Agent)
    ensures TaskFor(a).HttpGet? == a.state.AGENT_FETCH_COMPONENT?
    ensures HasTask(a.state) ==> TaskFor(a).BrokerFinish? == a.state.AGENT_FINISH?
  {
  }

  lemma DownloadedSound(w: World, a: Agent, buffer: Octets)
    requires Sound(w, a) && a.task.Some? && a.task.value.HttpGet?
    ensures Sound(w, TaskDone(w, a, buffer).0)
    ensures TaskDone(w, a, buffer).1 == TEE_SUCCESS && TaskDone(w, a, buffer).0.state == AGENT_RUN_SUIT_RUNNER
    ensures Rank(a.state) == 4 && |TaskDone(w, a, buffer).0.downloads| == |a.downloads| + 1
  {
    hide Authentic, Installs, Suspensions, FromAuthentic, AgentPlatform;
    TaskKind(a);
    var i := a.run.value;
    InstallResumes(w, i);
    var ds := a.downloads + [Download(Awaited(i), buffer)];
    assert Targets(ds) == Targets(a.downloads) + [Awaited(i)] && Targets(ds) + [] == Targets(ds);
  }

  lemma RoundSound(w: World, a: Agent)
    requires Sound(w, a) && Ready(a) && a.task.None?
    ensures Sound(w, Round(w, a)) && Rank(a.state) <= Rank(Round(w, a).state)
    ensures Round(w, a).token == a.token && Round(w, a).items == a.items
    ensures Round(w, a).manifests == a.manifests && Round(w, a).downloads == a.downloads
  {
    hide FromAuthentic, PlanOf, RunOn, Installs, Suspensions, AgentPlatform, TaskFor;
    assert Targets(a.downloads) + [] == Targets(a.downloads);
    if a.state.AGENT_INIT_RUNNER? {
      InstallStarts(w, a.manifests[0]);
      NothingSuspended(AgentPlatform(w, a.manifests[0]));
    } else if a.state.AGENT_RUN_SUIT_RUNNER? {
      InstallRuns(w, a.run.value);
      SuspendedOrFailed(w, RunOn(w, a.run.value));
    } else if HasTask(a.state) {
      SameTask(a);
    }
  }

  /** What a state has the broker do does not depend on whether it has been handed out. */
  lemma SameTask(a: Agent)
    ensures TaskFor(a.(task := Some(TaskFor(a)))) == TaskFor(a)
  {
  }

  lemma NothingSuspended(cb: Platform)
    ensures Suspensions(cb, []) == []
  {
  }

  lemma SuspendedOrFailed(w: World, i: Installing)
    requires Installs(w, i)
    ensures i.suspended ==> !i.failed
  {
    hide InForce, Explained, Refused;
  }

  lemma {:induction false} QueriedSound(w: World, a: Agent)
    requires Sound(w, a) && Ready(a)
    ensures Sound(w, Queried(w, a)) && Rank(a.state) <= Rank(Queried(w, a).state)
    ensures Queried(w, a).token == a.token && Queried(w, a).items == a.items
    ensures Queried(w, a).manifests == a.manifests && Queried(w, a).downloads == a.downloads
    decreases if a.task.None? then Rounds(a.state) else 0
  {
    hide Sound, Round;
    if a.task.None? {
      RoundSound(w, a);
      QueriedSound(w, Round(w, a));
    }
  }

  lemma OptionSetSound(w: World, a: Agent, option: DevOption, value: seq<byte>)
    requires Sound(w, a)
    ensures Sound(w, OptionSet(a, option, value).0)
    ensures OptionSet(a, option, value).0.state == a.state && OptionSet(a, option, value).0.downloads == a.downloads
  {
    hide FromAuthentic, Installs, FieldRequests;
  }
}
