/** What is downloaded in a session: for every fetch of the install the broker is asked for its URI, in order, and the
    reply is what is stored for its component. */
module AgentFetches {
  import opened Bytes
  import opened CborReader
  import opened SuitEnvelope
  import opened SuitManifest
  import opened SuitBindings
  import opened SuitPlan
  import opened SuitEffects
  import opened AgentProtocol
  import opened AgentSafety
  import opened AgentRuns
  import opened AgentBroker

  /** The effects that are to be fetched, in order. */
  function FetchedOf(es: seq<Effect>): (fs: seq<Effect>)
    ensures forall f <- fs :: f.Fetched?
  {
    if es == [] then [] else
    FetchedOf(es[..|es| - 1]) + if es[|es| - 1].Fetched? then [es[|es| - 1]] else []
  }

  lemma FetchedOfMore(es: seq<Effect>, e: Effect)
    ensures FetchedOf(es + [e]) == FetchedOf(es) + if e.Fetched? then [e] else []
  {
    assert (es + [e])[..|es|] == es;
  }

  lemma {:induction false} FetchedOfPrefix(es: seq<Effect>, ds: seq<Effect>)
    requires es <= ds
    ensures FetchedOf(es) <= FetchedOf(ds)
  {
    if es != ds {
      assert es <= ds[..|ds| - 1];
      FetchedOfPrefix(es, ds[..|ds| - 1]);
    }
  }

  function TargetsOf(fs: seq<Effect>): (ts: seq<Target>)
    ensures |ts| == |fs|
  {
    seq(|fs|, k requires 0 <= k < |fs| => fs[k].target)
  }

  /** When all was answered with success, what suspended the runner is what was to be fetched. */
  lemma {:induction false} FetchesSuspend(w: World, m: Manifest, es: seq<Effect>)
    requires forall k | 0 <= k < |es| :: Answer(w, m, es[k]).ok
    ensures Suspensions(AgentPlatform(w, m), es) == TargetsOf(FetchedOf(es))
  {
    hide AgentPlatform, Answer, FetchedOf, Suspensions;
    if es == [] {
      NothingSuspended(AgentPlatform(w, m));
      NothingFetched();
    } else {
      var before, last := es[..|es| - 1], es[|es| - 1];
      FetchesSuspend(w, m, before);
      assert es == before + [last];
      FetchedOfMore(before, last);
      SuspensionsOfMore(AgentPlatform(w, m), before, last);
      LastAnswer(w, m, es);
      assert TargetsOf(FetchedOf(es))
          == TargetsOf(FetchedOf(before)) + if last.Fetched? then [last.target] else [];
    }
  }

  lemma NothingFetched()
    ensures TargetsOf(FetchedOf([])) == []
  {
  }

  lemma LastAnswer(w: World, m: Manifest, es: seq<Effect>)
    requires es != [] && Answer(w, m, es[|es| - 1]).ok
    ensures AgentPlatform(w, m).answer(es).suspend == es[|es| - 1].Fetched?
  {
  }

  lemma ExplainedFetches(w: World, m: Manifest, p: Progress)
    requires Explained(AgentPlatform(w, m), m, p)
    ensures Suspensions(AgentPlatform(w, m), p.effects) == TargetsOf(FetchedOf(p.effects))
  {
    hide EffectAt, Suspensions, FetchedOf, Fetches, Answer;
    forall k | 0 <= k < |p.effects| ensures Answer(w, m, p.effects[k]).ok {
      assert EffectAt(AgentPlatform(w, m), m, p.calls, Fetches(p.calls)[k], p.effects[k]);
      assert p.effects[..k + 1][k] == p.effects[k];
    }
    FetchesSuspend(w, m, p.effects);
  }

  lemma RefusedFetches(w: World, m: Manifest, p: Progress)
    requires Refused(AgentPlatform(w, m), m, p)
    ensures Suspensions(AgentPlatform(w, m), p.effects) <= TargetsOf(FetchedOf(p.effects))
  {
    hide EffectAt, Suspensions, FetchedOf, Explained, InForce, Fetches, BindAll, Requests, Answer;
    var cb := AgentPlatform(w, m);
    var n := |p.calls| - 1;
    var k := |Fetches(p.calls[..n])|;
    var before := Progress(p.bindings, p.calls[..n], p.effects[..k]);
    ExplainedFetches(w, m, before);
    AgentSuspendsOnlyWhenOk(w, m);
    if |p.effects| > k {
      assert p.effects == p.effects[..k] + [p.effects[k]];
      SuspensionsOfMore(cb, p.effects[..k], p.effects[k]);
      FetchedOfPrefix(p.effects[..k], p.effects);
    } else {
      assert p.effects[..k] == p.effects;
    }
  }

  /** The downloads of a session are for the first of the effects to be fetched, in order; if the runner waits, it is
      for the next one, which is also the last effect so far. If it has not failed, there are no others. */
  lemma DownloadsAreFetched(w: World, a: Agent)
    requires Sound(w, a) && a.run.Some?
    ensures var i := a.run.value;
            var es, fs, n := i.progress.effects, FetchedOf(i.progress.effects), |a.downloads|;
            && n + (if i.suspended then 1 else 0) <= |fs|
            && (!i.failed ==> n + (if i.suspended then 1 else 0) == |fs|)
            && (forall k | 0 <= k < n :: a.downloads[k].target == fs[k].target)
            && (i.suspended ==> es != [] && es[|es| - 1].Fetched? && fs[n] == es[|es| - 1])
  {
    var i := a.run.value;
    var es := i.progress.effects;
    hide Suspensions, FetchedOf, Explained, Refused, InForce, AgentPlatform, PlanOf, FromAuthentic, RunOut;
    InstallParts(w, a);
    if !i.failed || Explained(AgentPlatform(w, i.manifest), i.manifest, i.progress) {
      ExplainedFetches(w, i.manifest, i.progress);
    } else {
      RefusedFetches(w, i.manifest, i.progress);
    }
    if i.suspended {
      LastFetched(es);
    }
    hide Sound, Installs;
    forall k | 0 <= k < |a.downloads| ensures a.downloads[k].target == FetchedOf(es)[k].target {
      assert Targets(a.downloads)[k] == TargetsOf(FetchedOf(es))[k];
    }
  }

  lemma InstallParts(w: World, a: Agent)
    requires Sound(w, a) && a.run.Some?
    ensures var i := a.run.value;
            var cb := AgentPlatform(w, i.manifest);
            && Targets(a.downloads) + Waiting(i.suspended, i.progress.effects) == Suspensions(cb, i.progress.effects)
            && (!i.failed ==> Explained(cb, i.manifest, i.progress))
            && (i.failed ==> Explained(cb, i.manifest, i.progress) || Refused(cb, i.manifest, i.progress))
            && (i.suspended ==> !i.failed && i.progress.effects != [])
            && (i.suspended ==> i.progress.effects[|i.progress.effects| - 1].Fetched?)
  {
    hide Suspensions, Explained, Refused, InForce, PlanOf, FromAuthentic, RunOut;
  }

  lemma LastFetched(es: seq<Effect>)
    requires es != [] && es[|es| - 1].Fetched?
    ensures FetchedOf(es) != [] && FetchedOf(es)[|FetchedOf(es)| - 1] == es[|es| - 1]
  {
  }

  /** When the broker is to get something, it is what the last effect is to be fetched from, and the reply is stored for
      the target of that effect. */
  lemma GetOutstanding(w: World, a: Agent, buffer: Octets)
    requires Sound(w, a) && a.task.Some? && a.task.value.HttpGet?
    ensures a.run.Some? && a.run.value.suspended
    ensures var es := a.run.value.progress.effects;
            && es != [] && es[|es| - 1].Fetched? && a.task.value == HttpGet(Data(es[|es| - 1].uri))
            && TaskDone(w, a, buffer).1 == TEE_SUCCESS
            && TaskDone(w, a, buffer).0.downloads == a.downloads + [Download(es[|es| - 1].target, buffer)]
  {
    TaskKind(a);
    hide Data, Installs, FromAuthentic, Suspensions, AgentPlatform;
    InstallResumes(w, a.run.value);
  }

  // What has been asked for is not forgotten.

  function EffectsOf(a: Agent): seq<Effect>
  {
    if a.run.None? then [] else a.run.value.progress.effects
  }

  lemma {:induction false} PerformGrows(cb: Platform, m: Manifest, p: Progress, plan: Plan)
    ensures p.effects <= Perform(cb, m, p, plan).progress.effects
    decreases |plan.all|
  {
    hide FetchEffect, SetParameters;
    if plan.all != [] {
      var (reply, q) := Handle(cb, m, p, plan.all[0]);
      if reply.ok && !reply.suspend {
        PerformGrows(cb, m, q, Listing(plan.all[1..], plan.complete));
      }
    }
  }

  lemma RoundGrows(w: World, a: Agent)
    requires Sound(w, a) && Ready(a) && a.task.None?
    ensures EffectsOf(a) <= EffectsOf(Round(w, a))
  {
    hide FromAuthentic, Installs, Suspensions, AgentPlatform, TaskFor, Perform, PlanOf;
    if a.state == AGENT_RUN_SUIT_RUNNER {
      var i := a.run.value;
      PerformGrows(AgentPlatform(w, i.manifest), i.manifest, i.progress, i.left);
    }
  }

  lemma {:induction false} QueriedGrows(w: World, a: Agent)
    requires Sound(w, a) && Ready(a)
    ensures EffectsOf(a) <= EffectsOf(Queried(w, a))
    decreases if a.task.None? then Rounds(a.state) else 0
  {
    hide Sound, Round, EffectsOf;
    if a.task.None? {
      RoundSound(w, a);
      RoundGrows(w, a);
      QueriedGrows(w, Round(w, a));
    }
  }

  lemma TaskDoneGrows(w: World, a: Agent, buffer: Octets)
    ensures EffectsOf(TaskDone(w, a, buffer).0) == EffectsOf(a)
    ensures a.task.Some? && a.task.value.HttpPost? ==> TaskDone(w, a, buffer).0.downloads == a.downloads
  {
    hide Storable, Loaded;
  }

  // Whole sessions.

  /** The addresses that the broker is to get something from. */
  function Addresses(tasks: seq<Task>): seq<seq<byte>>
  {
    if tasks == [] then [] else (if tasks[0].HttpGet? then [tasks[0].address] else []) + Addresses(tasks[1..])
  }

  /** What came back to it. */
  function Bodies(tasks: seq<Task>, replies: seq<HttpReply>): seq<Octets>
  {
    if tasks == [] || replies == [] then [] else
    (if tasks[0].HttpGet? && replies[0].Some? then [replies[0].value] else []) + Bodies(tasks[1..], replies[1..])
  }

  function DataOf(ds: seq<Download>): (bodies: seq<Octets>)
    ensures |bodies| == |ds|
  {
    seq(|ds|, k requires 0 <= k < |ds| => ds[k].data)
  }

  /** The addresses are those of the effects to be fetched, from the n-th on. */
  predicate FetchedFrom(addresses: seq<seq<byte>>, fs: seq<Effect>, n: nat)
    requires forall f <- fs :: f.Fetched?
  {
    n + |addresses| <= |fs| && forall k | 0 <= k < |addresses| :: addresses[k] == Data(fs[n + k].uri)
  }

  ghost predicate Fetching(w: World, a: Agent, replies: seq<HttpReply>)
  {
    var s := Loop(w, a, replies);
    && a.downloads <= s.agent.downloads
    && Bodies(s.tasks, replies) == DataOf(s.agent.downloads[|a.downloads|..])
    && EffectsOf(a) <= EffectsOf(s.agent)
    && FetchedFrom(Addresses(s.tasks), FetchedOf(EffectsOf(s.agent)), |a.downloads|)
  }

  lemma {:induction false} SessionFetches(w: World, a: Agent, replies: seq<HttpReply>)
    requires Sound(w, a)
    ensures Fetching(w, a, replies)
    decreases |replies|
  {
    hide Sound, Ready, Queried, TaskDone, Fetching;
    if !Ready(a) {
      UndefinedFetches(w, a, replies);
    } else {
      var b := Queried(w, a);
      if b.task.value.BrokerFinish? || replies == [] || replies[0].None? {
        LastFetches(w, a, replies);
      } else {
        QueriedSound(w, a);
        var (c, r) := TaskDone(w, b, replies[0].value);
        SessionStep(w, b, replies[0].value);
        if r == TEE_SUCCESS {
          SessionFetches(w, c, replies[1..]);
        }
        ReplyFetches(w, a, replies);
      }
    }
  }

  lemma UndefinedFetches(w: World, a: Agent, replies: seq<HttpReply>)
    requires Sound(w, a) && !Ready(a)
    ensures Fetching(w, a, replies)
  {
    assert Loop(w, a, replies) == Course(Undefined, [], a);
    hide Loop, Ready, Data, EffectsOf;
    if a.run.Some? {
      DownloadsAreFetched(w, a);
    }
    NoDownloads(w, a);
  }

  lemma NoDownloads(w: World, a: Agent)
    requires Sound(w, a)
    ensures a.run.None? ==> a.downloads == []
  {
    hide SoundInstall, FromAuthentic;
  }

  lemma AddressesOfMore(t: Task, ts: seq<Task>)
    ensures Addresses([t] + ts) == (if t.HttpGet? then [t.address] else []) + Addresses(ts)
    ensures Addresses([]) == []
  {
    assert ([t] + ts)[1..] == ts;
  }

  lemma BodiesOfMore(t: Task, ts: seq<Task>, replies: seq<HttpReply>)
    requires replies != []
    ensures Bodies([t] + ts, replies)
         == (if t.HttpGet? && replies[0].Some? then [replies[0].value] else []) + Bodies(ts, replies[1..])
    ensures Bodies([], replies) == []
  {
    assert ([t] + ts)[1..] == ts;
  }

  lemma LastFetches(w: World, a: Agent, replies: seq<HttpReply>)
    requires Sound(w, a) && Ready(a)
    requires Queried(w, a).task.value.BrokerFinish? || replies == [] || replies[0].None?
    ensures Fetching(w, a, replies)
  {
    hide Sound, Ready, Queried, TaskDone, Loop, Data, EffectsOf, FetchedOf, Addresses, Bodies;
    var b := Queried(w, a);
    QueriedSound(w, a);
    QueriedGrows(w, a);
    LoopLast(w, a, replies);
    var t := b.task.value;
    AddressesOfMore(t, []);
    assert [t] + [] == [t];
    if replies != [] {
      BodiesOfMore(t, [], replies);
    } else {
      NoBodies(Loop(w, a, replies).tasks);
    }
    NoBodies([]);
    NextFetched(w, b);
  }

  lemma NoBodies(tasks: seq<Task>)
    ensures Bodies(tasks, []) == []
    ensures forall replies :: Bodies([], replies) == []
  {
  }

  /** If the broker is to get something next, it is the effect after those downloaded. */
  lemma NextFetched(w: World, b: Agent)
    requires Sound(w, b) && b.task.Some?
    ensures var fs := FetchedOf(EffectsOf(b));
            && |b.downloads| <= |fs|
            && (b.task.value.HttpGet? ==>
                  |b.downloads| < |fs| && b.task.value.address == Data(fs[|b.downloads|].uri))
  {
    hide Sound, Data, FetchedOf;
    NoDownloads(w, b);
    if b.run.Some? {
      DownloadsAreFetched(w, b);
    }
    if b.task.value.HttpGet? {
      GetOutstanding(w, b, []);
    }
  }

  lemma ReplyFetches(w: World, a: Agent, replies: seq<HttpReply>)
    requires Sound(w, a) && Ready(a) && replies != [] && replies[0].Some? && !Queried(w, a).task.value.BrokerFinish?
    requires var (c, r) := TaskDone(w, Queried(w, a), replies[0].value);
             r == TEE_SUCCESS ==> Fetching(w, c, replies[1..])
    ensures Fetching(w, a, replies)
  {
    hide Sound, Ready, Queried, TaskDone, Loop, Data, EffectsOf, FetchedOf, Addresses, Bodies, DataOf;
    var b := Queried(w, a);
    var t, reply := b.task.value, replies[0].value;
    QueriedSound(w, a);
    QueriedGrows(w, a);
    LoopReply(w, a, replies);
    NextFetched(w, b);
    TaskDoneGrows(w, b, reply);
    var (c, r) := TaskDone(w, b, reply);
    if t.HttpGet? {
      GetOutstanding(w, b, reply);
    }
    if r != TEE_SUCCESS {
      AddressesOfMore(t, []);
      BodiesOfMore(t, [], replies);
      NoBodies([]);
      assert [t] + [] == [t];
      NoData(c.downloads);
    } else {
      var s := Loop(w, c, replies[1..]);
      AddressesOfMore(t, s.tasks);
      BodiesOfMore(t, s.tasks, replies);
      FetchedOfPrefix(EffectsOf(b), EffectsOf(s.agent));
      if t.HttpGet? {
        MoreData(s.agent.downloads, |b.downloads|);
      }
    }
  }

  lemma NoData(ds: seq<Download>)
    ensures DataOf(ds[|ds|..]) == []
  {
  }

  lemma MoreData(ds: seq<Download>, n: nat)
    requires n < |ds|
    ensures DataOf(ds[n..]) == [ds[n].data] + DataOf(ds[n + 1..])
  {
  }

  /** Every component that is downloaded in a session is asked for at the address of the effect that fetches it, in
      order, and what came back for it is what is stored. */
  lemma DownloadsAnswerGets(w: World, a: Agent, replies: seq<HttpReply>)
    requires Sound(w, a) && a.state == AGENT_INIT
    ensures var s := Loop(w, a, replies);
            var gets, bodies, fs := Addresses(s.tasks), Bodies(s.tasks, replies), FetchedOf(EffectsOf(s.agent));
            && |s.agent.downloads| == |bodies| <= |fs| && |gets| <= |fs|
            && (forall k | 0 <= k < |bodies| :: s.agent.downloads[k] == Download(fs[k].target, bodies[k]))
            && (forall k | 0 <= k < |gets| :: gets[k] == Data(fs[k].uri))
  {
    hide Sound, Loop, Data, FetchedOf, Addresses, Bodies, DataOf, Posts, Gets, Refusals;
    var s := Loop(w, a, replies);
    SessionFetches(w, a, replies);
    SessionBounded(w, a, replies);
    NoDownloads(w, a);
    NoDownloads(w, s.agent);
    NotRunning(w, a);
    if s.agent.run.Some? {
      DownloadsAreFetched(w, s.agent);
    }
    assert s.agent.downloads[0..] == s.agent.downloads;
    DataAt(s.agent.downloads);
  }

  lemma DataAt(ds: seq<Download>)
    ensures forall k | 0 <= k < |ds| :: DataOf(ds)[k] == ds[k].data
  {
  }

  lemma NotRunning(w: World, a: Agent)
    requires Sound(w, a) && a.state == AGENT_INIT
    ensures a.run.None?
  {
    hide Installs, FromAuthentic;
  }

  /** When success is reported, every fetch of the plan has stored or fetched what it asks for, only for components that
      can be installed or, what is stored, for dependencies; what was to be fetched was downloaded, in order. */
  lemma SuccessStoresAll(w: World, a: Agent)
    requires Sound(w, a) && a.state == AGENT_POSTING_SUCCESS
    ensures a.run.Some? && !a.run.value.manifest.install.Severed?
    ensures var m, p := a.run.value.manifest, a.run.value.progress;
            var fs := FetchedOf(p.effects);
            && p.calls == PlanOf(m).all && Explained(AgentPlatform(w, m), m, p)
            && (forall k | 0 <= k < |p.effects| :: CanInstall(w, m, p.effects[k]))
            && |a.downloads| == |fs| && forall k | 0 <= k < |fs| :: a.downloads[k].target == fs[k].target
  {
    hide PlanOf, Explained, AgentPlatform, CanInstall, FetchedOf;
    SuccessMeansInstalled(w, a);
    InstallParts(w, a);
    DownloadsAreFetched(w, a);
    NotFailed(w, a);
    AllInstallable(w, a.run.value.manifest, a.run.value.progress);
  }

  predicate CanInstall(w: World, m: Manifest, e: Effect)
  {
    if e.target.isComponent then
      e.target.index < |m.common.components| && w.usable(m.common.components[e.target.index])
    else e.Stored?
  }

  lemma NotFailed(w: World, a: Agent)
    requires Sound(w, a) && a.state == AGENT_POSTING_SUCCESS && a.run.Some?
    ensures !a.run.value.failed && !a.run.value.suspended
  {
    hide Installs, FromAuthentic;
  }

  lemma AllInstallable(w: World, m: Manifest, p: Progress)
    requires Explained(AgentPlatform(w, m), m, p)
    ensures forall k | 0 <= k < |p.effects| :: CanInstall(w, m, p.effects[k])
  {
    hide EffectAt, Fetches;
    forall k | 0 <= k < |p.effects| ensures CanInstall(w, m, p.effects[k]) {
      assert EffectAt(AgentPlatform(w, m), m, p.calls, Fetches(p.calls)[k], p.effects[k]);
      assert p.effects[..k + 1][k] == p.effects[k];
    }
  }

  /** The agent's callbacks take exactly what can be installed, and have the runner wait for what is to be fetched. */
  lemma CallbacksAnswer(w: World, m: Manifest, h: seq<Effect>, e: Effect)
    ensures var reply := AgentPlatform(w, m).answer(h + [e]);
            (reply.ok <==> CanInstall(w, m, e)) && (reply.suspend <==> CanInstall(w, m, e) && e.Fetched?)
  {
  }

  lemma FailedInstall(w: World, a: Agent)
    requires Sound(w, a) && a.run.Some? && a.run.value.failed
    ensures var m, p := a.run.value.manifest, a.run.value.progress;
            && !m.install.Severed?
            && (Refused(AgentPlatform(w, m), m, p) || (p.calls == PlanOf(m).all && !PlanOf(m).complete))
  {
    hide Explained, Refused, InForce, Suspensions, FromAuthentic, AgentPlatform, PlanOf, RunOut;
    var i := a.run.value;
    var cb := AgentPlatform(w, i.manifest);
    RunsAreAccounted(cb, i.manifest, PlanOf(i.manifest));
    RunOutFollowsPlan(cb, i.manifest, START, PlanOf(i.manifest));
    assert [] + PlanOf(i.manifest).all == PlanOf(i.manifest).all;
    assert i.progress.calls + [] == i.progress.calls;
  }

  /** Why an install fails: its sequences cannot be decoded to the end, or its last call set a parameter that could not
      be set, or was a fetch without a URI that names something, or of what cannot be installed. */
  lemma FailureHasReason(w: World, a: Agent)
    requires Sound(w, a) && a.run.Some? && a.run.value.failed
    ensures var m, p := a.run.value.manifest, a.run.value.progress;
            var cb, n := AgentPlatform(w, m), |p.calls| - 1;
            || (!m.install.Severed? && p.calls == PlanOf(m).all && !PlanOf(m).complete)
            || (n >= 0 && p.calls[n].command in {19, 20} && !BindAll([], Requests(cb, 0, p.calls)).0)
            || (n >= 0 && p.calls[n].command == 21 && forall e :: !EffectAt(cb, m, p.calls, n, e))
            || (n >= 0 && p.calls[n].command == 21 && p.effects != []
                && EffectAt(cb, m, p.calls, n, p.effects[|p.effects| - 1])
                && !CanInstall(w, m, p.effects[|p.effects| - 1]))
  {
    hide EffectAt, BindAll, Requests, Explained, CanInstall, AgentPlatform, PlanOf;
    var m, p := a.run.value.manifest, a.run.value.progress;
    FailedInstall(w, a);
    if Refused(AgentPlatform(w, m), m, p) && p.effects != [] {
      var n := |p.effects| - 1;
      assert p.effects == p.effects[..n] + [p.effects[n]];
      CallbacksAnswer(w, m, p.effects[..n], p.effects[n]);
    }
  }
}
