/** The agent session as the source has it, updated in place: teep-agent-ta/teep-agent-ta.c. Each handler does what
    `AgentProtocol` says. */
module AgentSession {
  import opened Wrappers
  import opened Bytes
  import opened CborReader
  import opened SuitEnvelope
  import opened SuitAuthenticate
  import opened SuitManifest
  import opened SuitPlan
  import SuitRunner
  import opened TaList
  import opened AgentProtocol
  import opened AgentSafety
  import opened AgentRuns
  import opened AgentBroker

  /** What a runner amounts to for the session. */
  ghost function RunOf(r: SuitRunner.Runner): Installing
    requires r.Valid()
    reads r
  {
    Installing(r.manifest, r.SoFar(), if r.hasError then BROKEN else r.Rest(), r.hasError, !r.hasError && r.suspended)
  }

  /** Loading one envelope more. */
  lemma LoadedNext(stored: seq<Octets>, i: nat, before: seq<Manifest>)
    requires i < |stored|
    ensures match ManifestOf(Whole(stored[i]))
            case None => Loaded(stored[..i + 1]) == Listing([], false) && before + [] == before
            case Some(m) =>
              && Loaded(stored[..i + 1]).complete == Loaded(stored[..i]).complete
              && before + Loaded(stored[..i + 1]).all == before + [m] + Loaded(stored[..i]).all
  {
    hide ManifestOf;
    assert stored[..i + 1][..i] == stored[..i];
  }

  lemma LoadedNone(stored: seq<Octets>, before: seq<Manifest>)
    ensures Loaded(stored[..0]) == Listing([], true) && before + [] == before
  {
  }

  class Session {
    const world: World
    var state: State
    var tamUri: seq<byte>
    var requests: seq<Request>
    var task: Option<Task>
    var token: seq<byte>
    var items: u64
    /** `suit_manifests`, the two places an envelope is kept in */
    var stored: seq<Octets>
    var context: SuitContext
    var runner: SuitRunner.Runner?
    var downloads: seq<Download>

    ghost predicate Linked()
      reads this, context, runner
    {
      && |stored| == STORED_MAX
      && (runner != null ==> runner.Valid() && runner.platform == AgentPlatform(world, runner.manifest))
    }

    ghost function View(): Agent
      requires Linked()
      reads this, context, runner
    {
      Agent(state, tamUri, requests, task, token, items, context.manifests,
            if runner == null then None else Some(RunOf(runner)), downloads)
    }

    ghost predicate Valid()
      reads this, context, runner
    {
      Linked() && Sound(world, View())
    }

    /** `teep_agent_session_create` */
    constructor (world: World)
      ensures Valid() && View() == OPENED && this.world == world && fresh(context)
    {
      this.world := world;
      state, tamUri, requests, task, token, items := AGENT_INIT, [], [], None, [], 0;
      stored := [[], []];
      context := new SuitContext();
      runner, downloads := null, [];
      new;
      OpenedIsSound(world);
    }

    /** `set_dev_option` */
    method SetOption(option: DevOption, value: seq<byte>) returns (r: Result)
      requires Valid()
      modifies this`tamUri, this`requests
      ensures Valid() && (View(), r) == OptionSet(old(View()), option, value)
    {
      hide Sound, Split, FieldRequests;
      OptionSetSound(world, View(), option, value);
      if state != AGENT_INIT {
        return TEE_ERROR_BAD_STATE;
      }
      match option
      case AGENT_OPTION_SET_TAM_URI =>
        if TEEP_MAX_URI_LEN < |value| + 1 {
          return TEE_ERROR_BAD_PARAMETERS;
        }
        tamUri := value;
        return TEE_SUCCESS;
      case AGENT_OPTION_SET_CURRENT_TA_LIST =>
        if |value| == 0 {
          return TEE_SUCCESS;
        }
        var ok, parsed := ParseTaList(value);
        if !ok {
          return TEE_ERROR_BAD_PARAMETERS;
        }
        requests := parsed;
        return TEE_SUCCESS;
      case UNKNOWN_OPTION =>
        return TEE_ERROR_BAD_PARAMETERS;
    }

    /** `store_envelope`: verify, then keep. */
    method StoreEnvelope(index: nat, envelope: Octets) returns (ok: bool)
      requires |stored| == STORED_MAX
      modifies this`stored
      ensures ok == (index < STORED_MAX && Authentic(world.crypto, world.key, Whole(envelope)))
      ensures |stored| == STORED_MAX && stored == if ok then old(stored)[index := envelope] else old(stored)
    {
      hide Authentic;
      if index >= STORED_MAX {
        return false;
      }
      ok := AuthenticateEnvelope(world.crypto, world.key, Whole(envelope));
      if ok {
        stored := stored[index := envelope];
      }
    }

    /** The first loop over an update: store every envelope. */
    method StoreAll(envelopes: seq<Octets>) returns (ok: bool)
      requires |stored| == STORED_MAX
      modifies this`stored
      ensures |stored| == STORED_MAX && ok == Storable(world, envelopes)
      ensures ok ==> |envelopes| <= STORED_MAX && envelopes == stored[..|envelopes|]
    {
      hide Authentic;
      var i := 0;
      while i < |envelopes|
        invariant i <= |envelopes| && i <= STORED_MAX && |stored| == STORED_MAX
        invariant envelopes[..i] == stored[..i]
        invariant forall j | 0 <= j < i :: Authentic(world.crypto, world.key, Whole(envelopes[j]))
      {
        ok := StoreEnvelope(i, envelopes[i]);
        if !ok {
          assert i < STORED_MAX ==> envelopes[i] in envelopes;
          return;
        }
        i := i + 1;
      }
      assert envelopes[..i] == envelopes;
      ok := true;
    }

    /** The second loop: put the stored envelopes into the context, the last one first. */
    method AddAll(n: nat) returns (ok: bool)
      requires |stored| == STORED_MAX && n <= STORED_MAX && context.manifests == []
      modifies context
      ensures ok == Loaded(stored[..n]).complete && context.manifests == Loaded(stored[..n]).all
    {
      hide ManifestOf, Loaded, SuitRunner.Runner.Valid, Sound, RunOf;
      var i := 0;
      assert [] + Loaded(stored[..n]).all == Loaded(stored[..n]).all;
      while i < n
        invariant i <= n && |context.manifests| == i
        invariant Loaded(stored[..n])
               == Listing(context.manifests + Loaded(stored[..n - i]).all, Loaded(stored[..n - i]).complete)
      {
        LoadedNext(stored, n - i - 1, context.manifests);
        ok := context.AddEnvelope(Whole(stored[n - i - 1]));
        if !ok {
          return;
        }
        i := i + 1;
      }
      LoadedNone(stored, context.manifests);
      ok := true;
    }

    /** `handle_tam_message` */
    method HandleTamMessage(buffer: Octets) returns (r: Result)
      requires Linked() && (state == AGENT_POSTING_QUERY_RESPONSE ==> context.manifests == [])
      modifies this`state, this`token, this`items, this`stored, context
      ensures Linked() && (View(), r) == Received(world, old(View()), buffer)
    {
      hide Authentic, Loaded, Storable, RunOf, AgentPlatform, SuitRunner.Runner.Valid;
      if buffer == [] {
        state := AGENT_FINISH;
        return TEE_SUCCESS;
      }
      if state == AGENT_POSTING_ERROR {
        state := AGENT_FINISH;
        return TEE_ERROR_BAD_FORMAT;
      }
      var m := world.parse(buffer);
      if m.None? {
        state := AGENT_POSTING_ERROR;
        return TEE_ERROR_BAD_FORMAT;
      }
      r := TEE_SUCCESS;
      match m.value
      case OtherMessage =>
        state := AGENT_POSTING_ERROR;
      case QueryRequest(newToken, newItems) =>
        if state != AGENT_POSTING_INITIAL_REQUEST {
          state := AGENT_POSTING_ERROR;
        } else {
          state := AGENT_POSTING_QUERY_RESPONSE;
          token, items := newToken, newItems;
        }
      case Update(envelopes) =>
        if state != AGENT_POSTING_QUERY_RESPONSE {
          state := AGENT_POSTING_ERROR;
        } else {
          HandleUpdate(envelopes);
        }
    }

    method HandleUpdate(envelopes: seq<Octets>)
      requires Linked() && context.manifests == []
      modifies this`state, this`stored, context
      ensures Linked() && View() == Updated(world, old(View()), envelopes)
    {
      hide Authentic, Loaded, Storable;
      var ok := StoreAll(envelopes);
      if !ok {
        return;
      }
      ok := AddAll(|envelopes|);
      assert [] + Loaded(envelopes).all == Loaded(envelopes).all;
      state := if ok then AGENT_INIT_RUNNER else AGENT_POSTING_ERROR;
    }

    /** `handle_component_download` */
    method HandleComponentDownload(buffer: Octets) returns (r: Result)
      requires Linked() && (state == AGENT_FETCH_COMPONENT ==> runner != null && runner.Suspended())
      modifies this`state, this`downloads, runner
      ensures Linked() && (View(), r) == Downloaded(old(View()), buffer)
    {
      if state != AGENT_FETCH_COMPONENT {
        state := AGENT_POSTING_ERROR;
        return TEE_ERROR_BAD_STATE;
      }
      TakeDownload(buffer);
      r := TEE_SUCCESS;
    }

    method TakeDownload(buffer: Octets)
      requires Linked() && state == AGENT_FETCH_COMPONENT && runner != null && runner.Suspended()
      modifies this`state, this`downloads, runner
      ensures Linked() && View() == Downloaded(old(View()), buffer).0
    {
      hide RunOf, SuitRunner.Runner.Valid, AgentPlatform, LastTarget;
      ResumeRunner();
      downloads := downloads + [Download(LastTarget(runner.effects), buffer)];
      state := AGENT_RUN_SUIT_RUNNER;
    }

    method ResumeRunner()
      requires Linked() && runner != null && runner.Suspended()
      modifies runner
      ensures Linked() && RunOf(runner) == old(RunOf(runner)).(suspended := false)
      ensures runner.effects == old(RunOf(runner)).progress.effects
    {
      hide SuitRunner.Runner.Valid, SuitRunner.Runner.Contained, SuitRunner.Runner.Rest, AgentPlatform;
      runner.Resume(false);
    }

    /** `broker_task_done` */
    method TaskIsDone(buffer: Octets) returns (r: Result)
      requires Valid()
      modifies this`state, this`token, this`items, this`stored, this`downloads, this`task, context, runner
      ensures Valid() && (View(), r) == TaskDone(world, old(View()), buffer)
    {
      hide Sound, Received, Downloaded;
      TaskDoneSound(world, View(), buffer);
      if task.None? || task.value.BrokerFinish? {
        return TEE_ERROR_BAD_STATE;
      }
      BeforeUpdate();
      if task.value.HttpPost? {
        r := HandleTamMessage(buffer);
      } else {
        r := HandleComponentDownload(buffer);
      }
      task := None;
    }

    /** `build_query_response`, up to encoding */
    method BuildQueryResponse() returns (data: PostData)
      requires Linked()
      ensures data == QueryResponse(token, ResponseLists(View()))
    {
      if items % 2 == TEEP_DATA_ATTESTATION {
        return QueryResponse(token, None);
      } else if items / TEEP_DATA_TRUSTED_COMPONENTS % 2 == 1 {
        var lists := BuildLists(requests);
        return QueryResponse(token, Some(lists));
      }
      return QueryResponse(token, None);
    }

    /** `suit_runner_init` on the session's context. */
    method InitRunner()
      requires Valid() && state == AGENT_INIT_RUNNER && Ready(View())
      modifies this`runner, this`state
      ensures Linked() && runner != null && fresh(runner) && state == AGENT_RUN_SUIT_RUNNER
      ensures RunOf(runner) == Installing(context.manifests[0], START, PlanOf(context.manifests[0]), false, false)
    {
      hide AgentPlatform, Installs, Enters, InstallPlan, ManifestInside, ManifestOf, SuitRunner.Runner.Valid,
           SuitRunner.Runner.Rest;
      RootIsInside();
      var root := context.manifests[0];
      runner := new SuitRunner.Runner(context, SuitRunner.INSTALL, AgentPlatform(world, root));
      state := AGENT_RUN_SUIT_RUNNER;
    }

    lemma RootIsInside()
      requires Valid() && context.manifests != []
      ensures ManifestInside(context.manifests[0], context.manifests[0].envelope)
    {
      hide Installs, ManifestInside, Authentic, ManifestOf, SoundInstall;
      assert FromAuthentic(world, context.manifests[0]);
      ManifestIsInside(context.manifests[0].envelope);
    }

    /** `suit_runner_run` on the session's runner. */
    method RunRunner()
      requires Linked() && runner != null && !runner.hasError && !runner.suspended
      modifies runner
      ensures Linked() && RunOf(runner) == RunOn(world, old(RunOf(runner)))
    {
      hide AgentPlatform, Perform, SuitRunner.Runner.Valid, SuitRunner.Runner.Rest;
      runner.Run();
    }

    /** One round of the loop of `query_next_broker_task`. */
    method QueryRound()
      requires Valid() && Ready(View()) && task.None?
      modifies this`state, this`task, this`runner, runner
      ensures Valid() && View() == Round(world, old(View())) && (runner == old(runner) || fresh(runner))
    {
      hide Sound, AgentPlatform, RunOf, RunOn, PlanOf, Data, SuitRunner.Runner.Valid, SuitRunner.Runner.Rest;
      RoundSound(world, View());
      match state
      case AGENT_INIT => state := AGENT_POSTING_INITIAL_REQUEST;
      case AGENT_POSTING_INITIAL_REQUEST => task := Some(HttpPost(tamUri, NoData));
      case AGENT_POSTING_QUERY_RESPONSE =>
        var data := BuildQueryResponse();
        task := Some(HttpPost(tamUri, data));
      case AGENT_POSTING_SUCCESS => task := Some(HttpPost(tamUri, SuccessReport(token)));
      case AGENT_POSTING_ERROR => task := Some(HttpPost(tamUri, ErrorReport(token)));
      case AGENT_INIT_RUNNER => InitRunner();
      case AGENT_RUN_SUIT_RUNNER => RunInstallSequence();
      case AGENT_FETCH_COMPONENT => AskForComponent();
      case AGENT_FINISH => task := Some(BrokerFinish);
    }

    /** Run the install until it finishes, waits for a component, or fails. */
    method RunInstallSequence()
      requires Valid() && Ready(View()) && state == AGENT_RUN_SUIT_RUNNER && task.None?
      modifies this`state, runner
      ensures Linked() && View() == Round(world, old(View()))
    {
      hide AgentPlatform, RunOn, Installs, FromAuthentic, SuitRunner.Runner.Valid, SuitRunner.Runner.Rest;
      RunRunner();
      if runner.Finished() {
        state := AGENT_POSTING_SUCCESS;
      } else if runner.Suspended() {
        state := AGENT_FETCH_COMPONENT;
      } else {
        state := AGENT_POSTING_ERROR;
      }
    }

    method AskForComponent()
      requires Valid() && state == AGENT_FETCH_COMPONENT && task.None?
      modifies this`task
      ensures Linked() && View() == Round(world, old(View()))
    {
      hide AgentPlatform, RunOn, Installs, FromAuthentic, SuitRunner.Runner.Valid, SuitRunner.Runner.Rest;
      task := Some(HttpGet(Data(LastUri(runner.effects))));
    }

    /** `query_next_broker_task` */
    method QueryNextTask() returns (t: Task)
      requires Valid() && Ready(View())
      modifies this`state, this`task, this`runner, runner
      ensures Valid() && View() == Queried(world, old(View())) && View().task == Some(t)
      ensures runner == old(runner) || fresh(runner)
    {
      hide Sound, Ready, Round;
      ghost var goal := Queried(world, View());
      while task.None?
        invariant Valid() && Ready(View()) && Queried(world, View()) == goal
        invariant runner == old(runner) || fresh(runner)
        decreases task.None?, Rounds(state)
      {
        QueryRound();
      }
      t := task.value;
    }

    lemma BeforeUpdate()
      requires Valid()
      ensures state == AGENT_POSTING_QUERY_RESPONSE ==> context.manifests == []
      ensures state == AGENT_FETCH_COMPONENT ==> runner != null && runner.Suspended()
    {
      hide Installs, FromAuthentic, Suspensions, AgentPlatform, Targets;
    }
  }

  /** `loop_teep`: hand over the options, then do what the agent asks until it is done. The network's answers are
      given beforehand, and are none of those that make the source's behaviour undefined. */
  method LoopTeep(session: Session, uri: seq<byte>, taList: seq<byte>, replies: seq<HttpReply>)
    returns (exit: Exit, tasks: seq<Task>)
    requires session.Valid()
    requires Ready(session.View()) && !MeetsUndefined(session.world, session.View().state, replies)
    modifies session, session.context, session.runner
    ensures session.Valid()
    ensures Course(exit, tasks, session.View())
         == Loop(session.world, Configured(old(session.View()), uri, taList), replies)
  {
    hide Sound, Ready, Loop, TaskDone, Queried, MeetsUndefined, Session.View, Session.Linked;
    ConfiguredStarts(session.world, session.View(), uri, taList);
    LoopUndefined(session.world, Configured(session.View(), uri, taList), replies);
    ghost var goal := Loop(session.world, Configured(session.View(), uri, taList), replies);
    var r := session.SetOption(AGENT_OPTION_SET_TAM_URI, uri);
    r := session.SetOption(AGENT_OPTION_SET_CURRENT_TA_LIST, taList);
    tasks := [];
    var i := 0;
    assert replies[0..] == replies;
    while true
      invariant i <= |replies| && session.Valid() && session.context == old(session.context)
      invariant session.runner == old(session.runner) || fresh(session.runner)
      invariant Resumed(tasks, Loop(session.world, session.View(), replies[i..])) == goal
      decreases |replies| - i
    {
      LoopNext(session.world, session.View(), replies[i..], tasks);
      assert i < |replies| ==> replies[i..][0] == replies[i] && replies[i..][1..] == replies[i + 1..];
      var task := session.QueryNextTask();
      if task == BrokerFinish {
        return Finished, tasks;
      }
      tasks := tasks + [task];
      if i == |replies| {
        return OutOfReplies, tasks;
      }
      if replies[i].None? {
        return ErrorExit, tasks;
      }
      r := session.TaskIsDone(replies[i].value);
      if r != TEE_SUCCESS {
        return ErrorExit, tasks;
      }
      i := i + 1;
    }
  }

  lemma ConfiguredStarts(w: World, a: Agent, uri: seq<byte>, taList: seq<byte>)
    requires Sound(w, a)
    ensures var b := Configured(a, uri, taList); Sound(w, b) && Ready(b) == Ready(a) && b.state == a.state
  {
    hide Sound, Ready, OptionSet;
    var c := OptionSet(a, AGENT_OPTION_SET_TAM_URI, uri).0;
    OptionSetSound(w, a, AGENT_OPTION_SET_TAM_URI, uri);
    OptionReady(a, AGENT_OPTION_SET_TAM_URI, uri);
    OptionSetSound(w, c, AGENT_OPTION_SET_CURRENT_TA_LIST, taList);
    OptionReady(c, AGENT_OPTION_SET_CURRENT_TA_LIST, taList);
  }

  /** A session that has already carried out some tasks. */
  function Resumed(tasks: seq<Task>, s: Course): Course
  {
    s.(tasks := tasks + s.tasks)
  }

  lemma LoopNext(w: World, a: Agent, replies: seq<HttpReply>, tasks: seq<Task>)
    ensures !Ready(a) ==> Loop(w, a, replies).exit == Undefined
    ensures Ready(a) ==>
              var b := Queried(w, a);
              var t := b.task.value;
              Resumed(tasks, Loop(w, a, replies))
              == if t.BrokerFinish? then Course(Finished, tasks, b)
                 else if replies == [] then Course(OutOfReplies, tasks + [t], b)
                 else if replies[0].None? then Course(ErrorExit, tasks + [t], b)
                 else
                   var (c, r) := TaskDone(w, b, replies[0].value);
                   if r != TEE_SUCCESS then Course(ErrorExit, tasks + [t], c)
                   else Resumed(tasks + [t], Loop(w, c, replies[1..]))
  {
    hide Ready, Queried, TaskDone;
    assert tasks + [] == tasks;
    if Ready(a) && replies != [] && replies[0].Some? {
      var b := Queried(w, a);
      var s := Loop(w, TaskDone(w, b, replies[0].value).0, replies[1..]);
      assert tasks + ([b.task.value] + s.tasks) == tasks + [b.task.value] + s.tasks;
    }
  }
}
