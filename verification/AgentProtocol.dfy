/** What an agent session does, as a function of the calls it gets: teep-agent-ta/teep-agent-ta.c seen from outside,
    driven by teep-broker-app/teep-broker.c. */
module AgentProtocol {
  import opened Wrappers
  import opened Bytes
  import opened CborReader
  import opened SuitEnvelope
  import opened SuitAuthenticate
  import opened SuitManifest
  import opened SuitBindings
  import opened SuitPlan
  import opened TaList

  const TEEP_MAX_URI_LEN: nat := 512
  const TEEP_DATA_ATTESTATION: u64 := 1
  const TEEP_DATA_TRUSTED_COMPONENTS: u64 := 2
  const STORED_MAX: nat := 2

  datatype State =
    | AGENT_INIT
    | AGENT_POSTING_INITIAL_REQUEST
    | AGENT_POSTING_QUERY_RESPONSE
    | AGENT_POSTING_SUCCESS
    | AGENT_POSTING_ERROR
    | AGENT_INIT_RUNNER
    | AGENT_RUN_SUIT_RUNNER
    | AGENT_FETCH_COMPONENT
    | AGENT_FINISH

  /** A message from the TAM, parsed. */
  datatype TeepMessage = QueryRequest(token: seq<byte>, items: u64) | Update(envelopes: seq<Octets>) | OtherMessage

  /** A message to the TAM, before it is encoded. */
  datatype PostData =
    | NoData
    | QueryResponse(token: seq<byte>, lists: Option<Lists>)
    | SuccessReport(token: seq<byte>)
    | ErrorReport(token: seq<byte>)

  datatype Task = HttpPost(uri: seq<byte>, data: PostData) | HttpGet(address: seq<byte>) | BrokerFinish

  datatype Result = TEE_SUCCESS | TEE_ERROR_BAD_STATE | TEE_ERROR_BAD_FORMAT | TEE_ERROR_BAD_PARAMETERS

  datatype DevOption = AGENT_OPTION_SET_TAM_URI | AGENT_OPTION_SET_CURRENT_TA_LIST | UNKNOWN_OPTION

  /** What the agent relies on: the crypto library and its key, the TEEP message parser, and which component
      identifiers name a place to install to. */
  datatype World = World(
    crypto: Crypto,
    key: seq<byte>,
    parse: Octets -> Option<TeepMessage>,
    usable: Range -> bool,
    /** where the runner's local variables lie */
    at: (nat, Local) -> Address)

  /** A run of the command runner, between two calls of `suit_runner_run`. */
  datatype Installing = Installing(manifest: Manifest, progress: Progress, left: Plan, failed: bool, suspended: bool)

  datatype Download = Download(target: Target, data: Octets)

  datatype Agent = Agent(
    state: State,
    tamUri: seq<byte>,
    requests: seq<Request>,
    task: Option<Task>,
    token: seq<byte>,
    items: u64,
    manifests: seq<Manifest>,
    run: Option<Installing>,
    downloads: seq<Download>)

  // The callbacks that the agent gives the runner.

  predicate Installable(w: World, m: Manifest, t: Target)
  {
    t.index < |m.common.components| && w.usable(m.common.components[t.index])
  }

  /** `store` and `fetch_and_store`: a component is fetched by suspending the runner, a dependency never is. */
  function Answer(w: World, m: Manifest, e: Effect): Reply
  {
    match e
    case Stored(t, _) => Reply(t.isComponent ==> Installable(w, m, t), false)
    case Fetched(t, _) => if t.isComponent && Installable(w, m, t) then Reply(true, true) else FAIL
  }

  function AgentPlatform(w: World, m: Manifest): Platform
  {
    Platform((h: seq<Effect>) => if h == [] then FAIL else Answer(w, m, h[|h| - 1]), w.at)
  }

  function PlanOf(m: Manifest): Plan
    requires !m.install.Severed?
  {
    if Enters(m) then InstallPlan(m) else NOTHING
  }

  /** `suit_runner_run` */
  function RunOn(w: World, i: Installing): Installing
  {
    if i.failed || i.suspended then i else
    var s := Perform(AgentPlatform(w, i.manifest), i.manifest, i.progress, i.left);
    Installing(i.manifest, s.progress, if s.status == FAILED then BROKEN else s.left,
               s.status == FAILED, s.status == SUSPENDED)
  }

  // One call.

  /** Every envelope fits the store and verifies. */
  predicate Storable(w: World, envelopes: seq<Octets>)
  {
    |envelopes| <= STORED_MAX && forall e <- envelopes :: Authentic(w.crypto, w.key, Whole(e))
  }

  /** The manifests of these envelopes from the last to the first, as far as they parse. */
  function Loaded(envelopes: seq<Octets>): (l: Listing<Manifest>)
    ensures |l.all| <= |envelopes| && (l.complete ==> |l.all| == |envelopes|)
  {
    if envelopes == [] then Listing([], true) else
    match ManifestOf(Whole(envelopes[|envelopes| - 1]))
    case None => Listing([], false)
    case Some(m) => Cons(m, Loaded(envelopes[..|envelopes| - 1]))
  }

  /** `handle_tam_message` */
  function Received(w: World, a: Agent, buffer: Octets): (Agent, Result)
  {
    if buffer == [] then (a.(state := AGENT_FINISH), TEE_SUCCESS)
    else if a.state.AGENT_POSTING_ERROR? then (a.(state := AGENT_FINISH), TEE_ERROR_BAD_FORMAT)
    else match w.parse(buffer)
      case None => (a.(state := AGENT_POSTING_ERROR), TEE_ERROR_BAD_FORMAT)
      case Some(OtherMessage) => (a.(state := AGENT_POSTING_ERROR), TEE_SUCCESS)
      case Some(QueryRequest(token, items)) =>
        if a.state.AGENT_POSTING_INITIAL_REQUEST? then
          (a.(state := AGENT_POSTING_QUERY_RESPONSE, token := token, items := items), TEE_SUCCESS)
        else (a.(state := AGENT_POSTING_ERROR), TEE_SUCCESS)
      case Some(Update(envelopes)) =>
        (if a.state.AGENT_POSTING_QUERY_RESPONSE? then Updated(w, a, envelopes) else a.(state := AGENT_POSTING_ERROR),
         TEE_SUCCESS)
  }

  /** An update whose envelopes are not all stored changes nothing. */
  function Updated(w: World, a: Agent, envelopes: seq<Octets>): Agent
  {
    if !Storable(w, envelopes) then a else
    var l := Loaded(envelopes);
    a.(manifests := a.manifests + l.all, state := if l.complete then AGENT_INIT_RUNNER else AGENT_POSTING_ERROR)
  }

  /** The component that a suspended runner waits for: that of its last effect. */
  function LastTarget(es: seq<Effect>): Target
  {
    if es == [] then Target(true, 0) else es[|es| - 1].target
  }

  function LastUri(es: seq<Effect>): Range
  {
    if es != [] && es[|es| - 1].Fetched? then es[|es| - 1].uri else Null
  }

  function Awaited(i: Installing): Target { LastTarget(i.progress.effects) }

  function AwaitedUri(i: Installing): Range { LastUri(i.progress.effects) }

  /** `handle_component_download` */
  function Downloaded(a: Agent, buffer: Octets): (Agent, Result)
  {
    if a.state.AGENT_FETCH_COMPONENT? && a.run.Some? then
      var i := a.run.value;
      (a.(downloads := a.downloads + [Download(Awaited(i), buffer)], run := Some(i.(suspended := false)),
          state := AGENT_RUN_SUIT_RUNNER), TEE_SUCCESS)
    else (a.(state := AGENT_POSTING_ERROR), TEE_ERROR_BAD_STATE)
  }

  /** `broker_task_done` */
  function TaskDone(w: World, a: Agent, buffer: Octets): (Agent, Result)
  {
    match a.task
    case None => (a, TEE_ERROR_BAD_STATE)
    case Some(BrokerFinish) => (a, TEE_ERROR_BAD_STATE)
    case Some(HttpPost(_, _)) => var (b, r) := Received(w, a, buffer); (b.(task := None), r)
    case Some(HttpGet(_)) => var (b, r) := Downloaded(a, buffer); (b.(task := None), r)
  }

  /** `set_dev_option` */
  function OptionSet(a: Agent, option: DevOption, value: seq<byte>): (Agent, Result)
  {
    if !a.state.AGENT_INIT? then (a, TEE_ERROR_BAD_STATE)
    else match option
      case AGENT_OPTION_SET_TAM_URI =>
        if TEEP_MAX_URI_LEN < |value| + 1 then (a, TEE_ERROR_BAD_PARAMETERS) else (a.(tamUri := value), TEE_SUCCESS)
      case AGENT_OPTION_SET_CURRENT_TA_LIST =>
        if value == [] then (a, TEE_SUCCESS)
        else if |Split(value)| > REQUEST_MAX then (a, TEE_ERROR_BAD_PARAMETERS)
        else (a.(requests := FieldRequests(Split(value))), TEE_SUCCESS)
      case UNKNOWN_OPTION => (a, TEE_ERROR_BAD_PARAMETERS)
  }

  /** A session that has been handed its two options. */
  function Configured(a: Agent, uri: seq<byte>, taList: seq<byte>): Agent
  {
    OptionSet(OptionSet(a, AGENT_OPTION_SET_TAM_URI, uri).0, AGENT_OPTION_SET_CURRENT_TA_LIST, taList).0
  }

  /** `build_query_response`: the lists go in when they are asked for and attestation is not. */
  function ResponseLists(a: Agent): Option<Lists>
  {
    if a.items % 2 == 0 && a.items / TEEP_DATA_TRUSTED_COMPONENTS % 2 == 1 then Some(ListsOf(a.requests)) else None
  }

  /** The states in which the broker has something to do. */
  predicate HasTask(s: State)
  {
    s.AGENT_POSTING_INITIAL_REQUEST? || s.AGENT_POSTING_QUERY_RESPONSE? || s.AGENT_POSTING_SUCCESS?
    || s.AGENT_POSTING_ERROR? || s.AGENT_FETCH_COMPONENT? || s.AGENT_FINISH?
  }

  function TaskFor(a: Agent): Task
  {
    match a.state
    case AGENT_POSTING_INITIAL_REQUEST => HttpPost(a.tamUri, NoData)
    case AGENT_POSTING_QUERY_RESPONSE => HttpPost(a.tamUri, QueryResponse(a.token, ResponseLists(a)))
    case AGENT_POSTING_SUCCESS => HttpPost(a.tamUri, SuccessReport(a.token))
    case AGENT_POSTING_ERROR => HttpPost(a.tamUri, ErrorReport(a.token))
    case AGENT_FETCH_COMPONENT => HttpGet(if a.run.Some? then Data(AwaitedUri(a.run.value)) else [])
    case _ => BrokerFinish
  }

  /** The runner has a manifest to start from, whose install sequence was not severed. Without, the source reads
      through a null pointer or reads a digest as a sequence. */
  predicate Ready(a: Agent)
  {
    && (a.state.AGENT_INIT_RUNNER? ==> a.manifests != [] && !a.manifests[0].install.Severed?)
    && (a.state.AGENT_RUN_SUIT_RUNNER? ==> a.run.Some?)
  }

  /** One round of the loop of `query_next_broker_task`. */
  function Round(w: World, a: Agent): (b: Agent)
    requires Ready(a) && a.task.None?
    ensures Ready(b) && (b.task.None? ==> Rounds(b.state) < Rounds(a.state))
  {
    match a.state
    case AGENT_INIT => a.(state := AGENT_POSTING_INITIAL_REQUEST)
    case AGENT_INIT_RUNNER =>
      a.(run := Some(Installing(a.manifests[0], START, PlanOf(a.manifests[0]), false, false)),
         state := AGENT_RUN_SUIT_RUNNER)
    case AGENT_RUN_SUIT_RUNNER =>
      var i := RunOn(w, a.run.value);
      a.(run := Some(i), state := if i.failed then AGENT_POSTING_ERROR
                                  else if i.suspended then AGENT_FETCH_COMPONENT else AGENT_POSTING_SUCCESS)
    case _ => a.(task := Some(TaskFor(a)))
  }

  function Rounds(s: State): nat
  {
    match s case AGENT_INIT => 3 case AGENT_INIT_RUNNER => 3 case AGENT_RUN_SUIT_RUNNER => 2 case _ => 1
  }

  /** `query_next_broker_task` */
  function Queried(w: World, a: Agent): (b: Agent)
    requires Ready(a)
    ensures b.task.Some?
    decreases if a.task.None? then Rounds(a.state) else 0
  {
    if a.task.Some? then a else Queried(w, Round(w, a))
  }

  /** `teep_agent_session_create` */
  const OPENED: Agent := Agent(AGENT_INIT, [], [], None, [], 0, [], None, [])
}
