/** Whole sessions of the agent: any calls in any order, and the broker's own loop. */
module AgentRuns {
  import opened Wrappers
  import opened Bytes
  import opened CborReader
  import opened SuitAuthenticate
  import opened SuitManifest
  import opened SuitPlan
  import opened AgentProtocol
  import opened AgentSafety
  import opened AgentStart

  /** What a client may ask of the agent. */
  datatype AgentCall =
    | SetDevOption(option: DevOption, value: seq<byte>)
    | BrokerTaskDone(buffer: Octets)
    | QueryNextBrokerTask

  predicate CanDo(a: Agent, c: AgentCall) { c.QueryNextBrokerTask? ==> Ready(a) }

  function Do(w: World, a: Agent, c: AgentCall): Agent
    requires CanDo(a, c)
  {
    match c
    case SetDevOption(option, value) => OptionSet(a, option, value).0
    case BrokerTaskDone(buffer) => TaskDone(w, a, buffer).0
    case QueryNextBrokerTask => Queried(w, a)
  }

  /** The runner is never started without a manifest it can start. */
  predicate CanExecute(w: World, a: Agent, calls: seq<AgentCall>)
    decreases |calls|
  {
    calls == [] || (CanDo(a, calls[0]) && CanExecute(w, Do(w, a, calls[0]), calls[1..]))
  }

  function Execute(w: World, a: Agent, calls: seq<AgentCall>): Agent
    requires CanExecute(w, a, calls)
    decreases |calls|
  {
    if calls == [] then a else Execute(w, Do(w, a, calls[0]), calls[1..])
  }

  /** What a call may change of what was agreed with the TAM: the token until there is one, the manifests until
      there are some. */
  ghost predicate Keeps(a: Agent, b: Agent)
  {
    && Rank(a.state) <= Rank(b.state)
    && (Rank(a.state) >= 2 ==> b.token == a.token && b.items == a.items)
    && (Rank(a.state) >= 3 ==> b.manifests == a.manifests)
    && (Rank(a.state) < 2 && b.token != a.token ==> Rank(b.state) >= 2)
  }

  /** Every call keeps the invariant, and none takes the session back. */
  lemma DoSound(w: World, a: Agent, c: AgentCall)
    requires Sound(w, a) && CanDo(a, c)
    ensures Sound(w, Do(w, a, c)) && Keeps(a, Do(w, a, c))
  {
    hide Sound, Ready, Queried, Received, Downloaded;
    match c
    case SetDevOption(option, value) => OptionSetSound(w, a, option, value);
    case QueryNextBrokerTask => QueriedSound(w, a);
    case BrokerTaskDone(buffer) => TaskDoneSound(w, a, buffer);
  }

  lemma TaskDoneSound(w: World, a: Agent, buffer: Octets)
    requires Sound(w, a)
    ensures Sound(w, TaskDone(w, a, buffer).0) && Keeps(a, TaskDone(w, a, buffer).0)
  {
    hide Sound, Authentic, Loaded, Storable;
    match a.task
    case Some(HttpPost(_, _)) => ReceivedSound(w, a, buffer);
    case Some(HttpGet(_)) => DownloadedSound(w, a, buffer);
    case _ =>
  }

  /** Whatever calls come in whatever order, the invariant holds after them. */
  lemma {:induction false} AlwaysSound(w: World, a: Agent, calls: seq<AgentCall>)
    requires Sound(w, a) && CanExecute(w, a, calls)
    ensures Sound(w, Execute(w, a, calls)) && Keeps(a, Execute(w, a, calls))
    decreases |calls|
  {
    hide Sound, Do, CanDo;
    if calls != [] {
      DoSound(w, a, calls[0]);
      AlwaysSound(w, Do(w, a, calls[0]), calls[1..]);
    }
  }

  /** The only call that leaves a session where its next task is undefined is the reply to a query response with an
      update that is accepted but cannot be started. */
  lemma DoReady(w: World, a: Agent, c: AgentCall)
    requires Sound(w, a) && Ready(a)
    ensures !Ready(Do(w, a, c)) <==>
            c.BrokerTaskDone? && a.task.Some? && a.state == AGENT_POSTING_QUERY_RESPONSE && Defeats(w, c.buffer)
  {
    hide Sound, TaskDone, Queried, Defeats, Ready;
    match c
    case SetDevOption(option, value) => OptionReady(a, option, value);
    case QueryNextBrokerTask => QueriedReady(w, a);
    case BrokerTaskDone(buffer) => ReplyDefeats(w, a, buffer);
  }

  lemma OptionReady(a: Agent, option: DevOption, value: seq<byte>)
    ensures Ready(OptionSet(a, option, value).0) == Ready(a)
  {
  }

  /** Without such a message every sequence of calls has a defined outcome. */
  lemma {:induction false} AlwaysDefined(w: World, a: Agent, calls: seq<AgentCall>)
    requires Sound(w, a) && Ready(a)
    requires forall c <- calls :: c.BrokerTaskDone? ==> !Defeats(w, c.buffer)
    ensures CanExecute(w, a, calls) && Ready(Execute(w, a, calls))
    decreases |calls|
  {
    hide Sound, Do, Defeats, Ready;
    if calls != [] {
      DoSound(w, a, calls[0]);
      DoReady(w, a, calls[0]);
      AlwaysDefined(w, Do(w, a, calls[0]), calls[1..]);
    }
  }

  // What the invariant means.

  /** An outstanding POST, GET or FINISH implies a posting state, a suspended runner or the final state; so the
      bad-state branch of the download handler is never taken, and a download is that of the component awaited. */
  lemma OutstandingTask(w: World, a: Agent, buffer: Octets)
    requires Sound(w, a) && a.task.Some?
    ensures a.task.value.HttpPost? <==>
            a.state in {AGENT_POSTING_INITIAL_REQUEST, AGENT_POSTING_QUERY_RESPONSE, AGENT_POSTING_SUCCESS,
                        AGENT_POSTING_ERROR}
    ensures a.task.value.HttpGet? <==> a.state == AGENT_FETCH_COMPONENT
    ensures a.task.value.BrokerFinish? <==> a.state == AGENT_FINISH
    ensures a.task.value.HttpGet? ==>
              && a.run.Some? && a.run.value.suspended && Downloaded(a, buffer).1 == TEE_SUCCESS
              && var es := a.run.value.progress.effects;
                 es != [] && es[|es| - 1].Fetched? && a.task.value.address == Data(es[|es| - 1].uri)
    ensures a.task.value.HttpPost? && a.state == AGENT_POSTING_QUERY_RESPONSE ==>
              a.task.value.data.QueryResponse? && a.task.value.data.token == a.token
    ensures a.task.value.HttpPost? && a.state == AGENT_POSTING_SUCCESS ==> a.task.value.data == SuccessReport(a.token)
  {
    hide Installs, Suspensions, FromAuthentic, AgentPlatform, ResponseLists, Data;
    if a.state == AGENT_FETCH_COMPONENT {
      InstallResumes(w, a.run.value);
    }
  }

  /** Success is reported only when every planned handler call was made and succeeded, as an uninterrupted run
      would have made them, and each component that had to be fetched was downloaded, in order. */
  lemma SuccessMeansInstalled(w: World, a: Agent)
    requires Sound(w, a) && a.state == AGENT_POSTING_SUCCESS
    ensures a.run.Some?
    ensures var i := a.run.value;
            var cb := AgentPlatform(w, i.manifest);
            && !i.manifest.install.Severed?
            && RunOut(cb, i.manifest, START, PlanOf(i.manifest)) == Halt(i.progress, FINISHED, NOTHING)
            && i.progress.calls == PlanOf(i.manifest).all
            && Targets(a.downloads) == Suspensions(cb, i.progress.effects)
  {
    hide PlanOf, AgentPlatform, Suspensions, FromAuthentic, Targets;
    var i := a.run.value;
    NothingRunsOn(AgentPlatform(w, i.manifest), i.manifest, i.progress);
    assert i.progress.calls + [] == i.progress.calls;
    assert Targets(a.downloads) + [] == Targets(a.downloads);
  }

  /** So when success is reported the whole install was performed if both its sequences are arrays, and nothing at all
      was done otherwise. */
  lemma SuccessSaysWhatRan(w: World, a: Agent)
    requires Sound(w, a) && a.state == AGENT_POSTING_SUCCESS
    ensures a.run.Some? && !a.run.value.manifest.install.Severed?
    ensures var i := a.run.value;
            if Enters(i.manifest) then
              InstallPlan(i.manifest).complete && i.progress.calls == InstallPlan(i.manifest).all
            else i.progress.calls == [] && i.progress.effects == [] && a.downloads == []
  {
    hide Enters, InstallPlan, Perform, AgentPlatform, Suspensions, FromAuthentic, Targets;
    SuccessMeansInstalled(w, a);
    var i := a.run.value;
    if Enters(i.manifest) {
      assert RunOut(AgentPlatform(w, i.manifest), i.manifest, START, PlanOf(i.manifest)).status == FINISHED;
    } else {
      NothingRunsOn(AgentPlatform(w, i.manifest), i.manifest, START);
      NothingSuspended(AgentPlatform(w, i.manifest));
      assert |a.downloads| == |Targets(a.downloads)|;
    }
  }

  /** Authenticity of the whole session: whatever manifest the runner executes comes from an envelope with at
      least one auth block, all of which verify over a digest that covers the manifest's octets. */
  lemma ExecutedIsAuthentic(w: World, calls: seq<AgentCall>)
    requires CanExecute(w, OPENED, calls)
    ensures var a := Execute(w, OPENED, calls);
            a.run.Some? ==>
              var m := a.run.value.manifest;
              && Authentic(w.crypto, w.key, m.envelope) && ManifestOf(m.envelope) == Some(m)
              && exists digest: Range, blocks: seq<Range> ::
                   && Vouches(w.crypto, w.key, blocks, digest, Data(m.binary))
                   && Within(digest, m.envelope) && forall b <- blocks :: Within(b, m.envelope)
  {
    hide Authentic, ManifestOf, Vouches, Within, Execute, CanExecute, Installs, Suspensions, AgentPlatform;
    OpenedIsSound(w);
    AlwaysSound(w, OPENED, calls);
    var a := Execute(w, OPENED, calls);
    if a.run.Some? {
      assert FromAuthentic(w, a.run.value.manifest);
      AuthenticManifest(w.crypto, w.key, a.run.value.manifest.envelope);
    }
  }

  /** After an accepted update the manifests are its list in reverse, and whatever is executed from then on is the
      manifest of its last entry. */
  lemma RootIsLastOfUpdate(w: World, a: Agent, buffer: Octets, envelopes: seq<Octets>, calls: seq<AgentCall>)
    requires Sound(w, a) && a.task.Some? && a.state == AGENT_POSTING_QUERY_RESPONSE
    requires buffer != [] && w.parse(buffer) == Some(Update(envelopes))
    requires TaskDone(w, a, buffer).0.state == AGENT_INIT_RUNNER && CanExecute(w, TaskDone(w, a, buffer).0, calls)
    ensures var b := Execute(w, TaskDone(w, a, buffer).0, calls);
            && |b.manifests| == |envelopes|
            && (forall k | 0 <= k < |envelopes| ::
                  Some(b.manifests[k]) == ManifestOf(Whole(envelopes[|envelopes| - 1 - k])))
            && (b.run.Some? ==>
                  envelopes != [] && Some(b.run.value.manifest) == ManifestOf(Whole(envelopes[|envelopes| - 1])))
  {
    hide Authentic, ManifestOf, Execute, CanExecute, Installs, Suspensions, AgentPlatform, FromAuthentic, TaskFor,
         Loaded, Targets;
    var b := TaskDone(w, a, buffer).0;
    OutstandingTask(w, a, buffer);
    ReceivedSound(w, a, buffer);
    AlwaysSound(w, b, calls);
    LoadedReversed(envelopes);
    assert [] + Loaded(envelopes).all == Loaded(envelopes).all;
  }

  predicate AcceptsRequest(w: World, a: Agent, c: AgentCall)
    requires CanDo(a, c)
  {
    a.state == AGENT_POSTING_INITIAL_REQUEST && Do(w, a, c).state == AGENT_POSTING_QUERY_RESPONSE
  }

  predicate AcceptsUpdate(w: World, a: Agent, c: AgentCall)
    requires CanDo(a, c)
  {
    a.state == AGENT_POSTING_QUERY_RESPONSE && Do(w, a, c).state == AGENT_INIT_RUNNER
  }

  /** How many query requests and updates a session accepts. */
  function Accepted(w: World, a: Agent, calls: seq<AgentCall>): (n: (nat, nat))
    requires CanExecute(w, a, calls)
    decreases |calls|
  {
    if calls == [] then (0, 0) else
    var (r, u) := Accepted(w, Do(w, a, calls[0]), calls[1..]);
    (r + if AcceptsRequest(w, a, calls[0]) then 1 else 0, u + if AcceptsUpdate(w, a, calls[0]) then 1 else 0)
  }

  /** At most one of each. */
  lemma {:induction false} AcceptedOnce(w: World, a: Agent, calls: seq<AgentCall>)
    requires Sound(w, a) && CanExecute(w, a, calls)
    ensures Accepted(w, a, calls).0 <= (if Rank(a.state) <= 1 then 1 else 0)
    ensures Accepted(w, a, calls).1 <= (if Rank(a.state) <= 2 then 1 else 0)
    decreases |calls|
  {
    hide Sound, Do, CanDo;
    if calls != [] {
      DoSound(w, a, calls[0]);
      AcceptedOnce(w, Do(w, a, calls[0]), calls[1..]);
    }
  }

  /** The token of the query request that a session accepts. */
  function RequestToken(w: World, a: Agent, calls: seq<AgentCall>): Option<seq<byte>>
    requires CanExecute(w, a, calls)
    decreases |calls|
  {
    if calls == [] then None
    else if AcceptsRequest(w, a, calls[0]) then
      if calls[0].BrokerTaskDone? then
        match w.parse(calls[0].buffer) case Some(QueryRequest(token, _)) => Some(token) case _ => None
      else None
    else RequestToken(w, Do(w, a, calls[0]), calls[1..])
  }

  lemma RequestAccepted(w: World, a: Agent, c: AgentCall)
    requires Sound(w, a) && CanDo(a, c)
    ensures AcceptsRequest(w, a, c) ==>
              c.BrokerTaskDone? && w.parse(c.buffer) == Some(QueryRequest(Do(w, a, c).token, Do(w, a, c).items))
    ensures Rank(a.state) <= 1 && 2 <= Rank(Do(w, a, c).state) <= 5 ==> AcceptsRequest(w, a, c)
  {
    hide Sound, Queried, Authentic, Loaded, Storable;
    match c
    case SetDevOption(option, value) => OptionSetSound(w, a, option, value);
    case QueryNextBrokerTask => QueriedEarly(w, a);
    case BrokerTaskDone(buffer) =>
      if a.task.Some? && a.task.value.HttpGet? {
        DownloadedSound(w, a, buffer);
      }
      InitHasNoTask(w, a);
  }

  lemma InitHasNoTask(w: World, a: Agent)
    requires Sound(w, a)
    ensures a.state == AGENT_INIT ==> a.task.None?
  {
  }

  /** Before a query request is accepted, asking for a task leads no further than posting for one. */
  lemma QueriedEarly(w: World, a: Agent)
    requires Ready(a)
    ensures Rank(a.state) <= 1 ==> Rank(Queried(w, a).state) <= 1
  {
    hide TaskFor;
    if a.task.None? && a.state == AGENT_INIT {
      var b := Round(w, a);
      assert Queried(w, b) == Round(w, b);
    }
  }

  /** Every query response and every success report carries the token of the one query request accepted. */
  lemma TokenIsCarried(w: World, a: Agent, calls: seq<AgentCall>)
    requires Sound(w, a) && CanExecute(w, a, calls) && Rank(a.state) <= 1
    ensures var b := Execute(w, a, calls);
            b.task.Some? && b.task.value.HttpPost? ==>
              match b.task.value.data
              case QueryResponse(t, _) => RequestToken(w, a, calls) == Some(t)
              case SuccessReport(t) => RequestToken(w, a, calls) == Some(t)
              case _ => true
  {
    hide Sound, Do, CanDo, TaskFor, AcceptsRequest, Execute, CanExecute;
    TokenIsRequested(w, a, calls);
    AlwaysSound(w, a, calls);
    PostData(w, Execute(w, a, calls));
  }

  lemma PostData(w: World, a: Agent)
    requires Sound(w, a)
    ensures a.task.Some? && a.task.value.HttpPost? ==>
              match a.task.value.data
              case QueryResponse(t, _) => t == a.token && a.state == AGENT_POSTING_QUERY_RESPONSE
              case SuccessReport(t) => t == a.token && a.state == AGENT_POSTING_SUCCESS
              case _ => true
  {
    hide Installs, Suspensions, FromAuthentic, AgentPlatform, ResponseLists, Data, AwaitedUri;
  }

  lemma {:induction false} TokenIsRequested(w: World, a: Agent, calls: seq<AgentCall>)
    requires Sound(w, a) && CanExecute(w, a, calls) && Rank(a.state) <= 1
    ensures var b := Execute(w, a, calls);
            2 <= Rank(b.state) <= 5 ==> RequestToken(w, a, calls) == Some(b.token)
    decreases |calls|
  {
    hide Sound, Do, CanDo, AcceptsRequest;
    if calls != [] {
      var b := Do(w, a, calls[0]);
      DoSound(w, a, calls[0]);
      RequestAccepted(w, a, calls[0]);
      AlwaysSound(w, b, calls[1..]);
      if Rank(b.state) <= 1 {
        TokenIsRequested(w, b, calls[1..]);
        assert !AcceptsRequest(w, a, calls[0]) by { NotYetAccepted(w, a, calls[0]); }
      }
    }
  }

  lemma NotYetAccepted(w: World, a: Agent, c: AgentCall)
    requires CanDo(a, c) && Rank(Do(w, a, c).state) <= 1
    ensures !AcceptsRequest(w, a, c)
  {
    hide Do;
  }
}
