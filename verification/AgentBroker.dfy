/** The broker's loop, `loop_teep` in teep-broker-app/teep-broker.c, and why it ends. */
module AgentBroker {
  import opened Wrappers
  import opened Bytes
  import opened SuitAuthenticate
  import opened SuitPlan
  import opened AgentProtocol
  import opened AgentSafety
  import opened AgentStart

  /** What comes back from the network: a body, or nothing when the request failed. */
  type HttpReply = Option<Octets>

  /** How the loop stands when it has used up its replies: at BROKER_FINISH, at an error exit, waiting for one more
      reply, or where the behaviour of the source is undefined. */
  datatype Exit = Finished | ErrorExit | OutOfReplies | Undefined

  datatype Course = Course(exit: Exit, tasks: seq<Task>, agent: Agent)

  /** The tasks that the broker carries out, given the replies that it gets to them. */
  function Loop(w: World, a: Agent, replies: seq<HttpReply>): Course
    decreases |replies|
  {
    if !Ready(a) then Course(Undefined, [], a) else
    var b := Queried(w, a);
    var task := b.task.value;
    if task.BrokerFinish? then Course(Finished, [], b)
    else if replies == [] then Course(OutOfReplies, [task], b)
    else if replies[0].None? then Course(ErrorExit, [task], b)
    else
      var (c, r) := TaskDone(w, b, replies[0].value);
      if r != TEE_SUCCESS then Course(ErrorExit, [task], c)
      else
        var s := Loop(w, c, replies[1..]);
        s.(tasks := [task] + s.tasks)
  }

  /** The broker leaves the loop exactly at the end of its replies, and never with more tasks than replies but one. */
  lemma {:induction false} TasksAndReplies(w: World, a: Agent, replies: seq<HttpReply>)
    ensures var s := Loop(w, a, replies);
            |s.tasks| <= |replies| + 1 && (s.exit == OutOfReplies <==> |s.tasks| == |replies| + 1)
    decreases |replies|
  {
    hide Ready, Queried, TaskDone;
    if Ready(a) && replies != [] && replies[0].Some? {
      TasksAndReplies(w, TaskDone(w, Queried(w, a), replies[0].value).0, replies[1..]);
    }
  }

  function Posts(tasks: seq<Task>): nat
  {
    if tasks == [] then 0 else (if tasks[0].HttpPost? then 1 else 0) + Posts(tasks[1..])
  }

  function Gets(tasks: seq<Task>): nat
  {
    if tasks == [] then 0 else (if tasks[0].HttpGet? then 1 else 0) + Gets(tasks[1..])
  }

  lemma {:induction false} PostsAndGets(tasks: seq<Task>)
    requires forall t <- tasks :: !t.BrokerFinish?
    ensures Posts(tasks) + Gets(tasks) == |tasks|
  {
    if tasks != [] {
      PostsAndGets(tasks[1..]);
    }
  }

  /** The reply is an update, waited for, that the store refuses. */
  predicate Refuses(w: World, a: Agent, reply: Octets)
  {
    a.state == AGENT_POSTING_QUERY_RESPONSE && RefusedUpdate(w, reply)
  }

  /** How many updates the store refuses in a session. */
  function Refusals(w: World, a: Agent, replies: seq<HttpReply>): nat
    decreases |replies|
  {
    if !Ready(a) || replies == [] || replies[0].None? then 0 else
    var b := Queried(w, a);
    (if Refuses(w, b, replies[0].value) then 1 else 0)
    + if TaskDone(w, b, replies[0].value).1 != TEE_SUCCESS then 0
      else Refusals(w, TaskDone(w, b, replies[0].value).0, replies[1..])
  }

  /** How many messages the agent may still post when no update is refused. */
  function PostsLeft(s: State): nat
  {
    match s
    case AGENT_INIT => 4
    case AGENT_POSTING_INITIAL_REQUEST => 4
    case AGENT_POSTING_QUERY_RESPONSE => 3
    case AGENT_POSTING_ERROR => 1
    case AGENT_FINISH => 0
    case _ => 2
  }

  lemma {:induction false} QueriedPosts(w: World, a: Agent)
    requires Sound(w, a) && Ready(a)
    ensures PostsLeft(Queried(w, a).state) <= PostsLeft(a.state)
    decreases if a.task.None? then Rounds(a.state) else 0
  {
    hide Sound, TaskFor, RunOn;
    if a.task.None? {
      RoundSound(w, a);
      QueriedPosts(w, Round(w, a));
    }
  }

  /** A reply to a message uses up one, unless it is a refused update. */
  lemma ReplyPosts(w: World, a: Agent, reply: Octets)
    requires Sound(w, a) && a.task.Some? && a.task.value.HttpPost?
    ensures PostsLeft(TaskDone(w, a, reply).0.state) + 1 <= PostsLeft(a.state) + if Refuses(w, a, reply) then 1 else 0
    ensures TaskDone(w, a, reply).0.downloads == a.downloads
  {
    hide Authentic, Loaded, Installs, FromAuthentic, Suspensions, Targets, Storable, SoundInstall;
    TaskKind(a);
  }

  lemma DownloadPosts(w: World, a: Agent, reply: Octets)
    requires Sound(w, a) && a.task.Some? && a.task.value.HttpGet?
    ensures PostsLeft(TaskDone(w, a, reply).0.state) <= PostsLeft(a.state)
  {
    hide Sound, TaskDone, TaskFor;
    DownloadedSound(w, a, reply);
    TaskKind(a);
  }

  /** What is true of a session whatever the replies are. */
  ghost predicate Bounded(w: World, a: Agent, replies: seq<HttpReply>)
  {
    var s := Loop(w, a, replies);
    && Sound(w, s.agent)
    && Posts(s.tasks) <= PostsLeft(a.state) + Refusals(w, a, replies)
    && Gets(s.tasks)
    <= |s.agent.downloads| - |a.downloads| + (if s.agent.task.Some? && s.agent.task.value.HttpGet? then 1 else 0)
    && (forall t <- s.tasks :: !t.BrokerFinish?)
    && (s.exit == Undefined ==> !Ready(s.agent))
    && (s.exit == Finished ==> s.agent.state == AGENT_FINISH)
  }

  lemma {:induction false} SessionBounded(w: World, a: Agent, replies: seq<HttpReply>)
    requires Sound(w, a)
    ensures Bounded(w, a, replies)
    decreases |replies|
  {
    hide Sound, Queried, TaskDone, Refuses, Ready, PostsLeft, Loop, Refusals, Posts, Gets, Bounded;
    if !Ready(a) {
      UndefinedBounded(w, a, replies);
    } else {
      var b := Queried(w, a);
      if b.task.value.BrokerFinish? || replies == [] || replies[0].None? {
        LastTaskBounded(w, a, replies);
      } else {
        QueriedSound(w, a);
        SessionStep(w, b, replies[0].value);
        var (c, r) := TaskDone(w, b, replies[0].value);
        if r == TEE_SUCCESS {
          SessionBounded(w, c, replies[1..]);
        }
        ReplyBounded(w, a, replies);
      }
    }
  }

  lemma UndefinedBounded(w: World, a: Agent, replies: seq<HttpReply>)
    requires Sound(w, a) && !Ready(a)
    ensures Bounded(w, a, replies)
  {
    hide Sound, Ready, Queried, TaskDone, PostsLeft;
    assert Loop(w, a, replies) == Course(Undefined, [], a);
  }

  /** The broker comes to its end, or has no reply to go on with. */
  lemma LoopLast(w: World, a: Agent, replies: seq<HttpReply>)
    requires Ready(a) && (Queried(w, a).task.value.BrokerFinish? || replies == [] || replies[0].None?)
    ensures var s := Loop(w, a, replies);
            var b := Queried(w, a);
            && s.agent == b && s.tasks == (if b.task.value.BrokerFinish? then [] else [b.task.value])
            && s.exit != Undefined && (s.exit == Finished <==> b.task.value.BrokerFinish?)
  {
    hide Ready, Queried, TaskDone;
  }

  /** A reply is handled, and the broker goes on if it was taken. */
  lemma LoopReply(w: World, a: Agent, replies: seq<HttpReply>)
    requires Ready(a) && replies != [] && replies[0].Some? && !Queried(w, a).task.value.BrokerFinish?
    ensures var b := Queried(w, a);
            var (c, r) := TaskDone(w, b, replies[0].value);
            Loop(w, a, replies) == if r != TEE_SUCCESS then Course(ErrorExit, [b.task.value], c)
                                   else
                                     var s := Loop(w, c, replies[1..]);
                                     s.(tasks := [b.task.value] + s.tasks)
    ensures var b := Queried(w, a);
            var (c, r) := TaskDone(w, b, replies[0].value);
            Refusals(w, a, replies) == (if Refuses(w, b, replies[0].value) then 1 else 0)
                                       + if r != TEE_SUCCESS then 0 else Refusals(w, c, replies[1..])
  {
    hide Ready, Queried, TaskDone, Refuses;
  }

  lemma TasksOfMore(t: Task, ts: seq<Task>)
    ensures Posts([t] + ts) == (if t.HttpPost? then 1 else 0) + Posts(ts)
    ensures Gets([t] + ts) == (if t.HttpGet? then 1 else 0) + Gets(ts)
    ensures Posts([]) == 0 && Gets([]) == 0
  {
    assert ([t] + ts)[1..] == ts;
  }

  lemma LastTaskBounded(w: World, a: Agent, replies: seq<HttpReply>)
    requires Sound(w, a) && Ready(a)
    requires Queried(w, a).task.value.BrokerFinish? || replies == [] || replies[0].None?
    ensures Bounded(w, a, replies)
  {
    hide Sound, Ready, Queried, TaskDone, PostsLeft, Posts, Gets, Loop, Refusals;
    var b := Queried(w, a);
    QueriedSound(w, a);
    QueriedPosts(w, a);
    OneTask(w, b);
    LoopLast(w, a, replies);
    if b.task.value.BrokerFinish? {
      FinishTask(w, b);
    }
  }

  /** A reply is handled, and the rest of the session is bounded. */
  lemma ReplyBounded(w: World, a: Agent, replies: seq<HttpReply>)
    requires Sound(w, a) && Ready(a) && replies != [] && replies[0].Some? && !Queried(w, a).task.value.BrokerFinish?
    requires var (c, r) := TaskDone(w, Queried(w, a), replies[0].value);
             r == TEE_SUCCESS ==> Bounded(w, c, replies[1..])
    ensures Bounded(w, a, replies)
  {
    hide Sound, Ready, Queried, TaskDone, PostsLeft, Refuses, Posts, Gets, Loop, Refusals;
    var b := Queried(w, a);
    QueriedSound(w, a);
    QueriedPosts(w, a);
    SessionStep(w, b, replies[0].value);
    LoopReply(w, a, replies);
    var (c, r) := TaskDone(w, b, replies[0].value);
    if r != TEE_SUCCESS {
      TasksOfMore(b.task.value, []);
      assert [b.task.value] + [] == [b.task.value];
    } else {
      TasksOfMore(b.task.value, Loop(w, c, replies[1..]).tasks);
    }
  }

  lemma FinishTask(w: World, b: Agent)
    requires Sound(w, b) && b.task.Some? && b.task.value.BrokerFinish?
    ensures b.state == AGENT_FINISH
  {
    hide Installs, FromAuthentic, SoundInstall;
  }

  lemma OneTask(w: World, b: Agent)
    requires Sound(w, b) && b.task.Some?
    ensures b.task.value.HttpPost? ==> PostsLeft(b.state) >= 1
    ensures Posts([b.task.value]) == (if b.task.value.HttpPost? then 1 else 0)
    ensures Gets([b.task.value]) == (if b.task.value.HttpGet? then 1 else 0)
    ensures Posts([]) == 0 && Gets([]) == 0
  {
    hide Installs, FromAuthentic, SoundInstall;
    TaskKind(b);
  }

  lemma SessionStep(w: World, b: Agent, reply: Octets)
    requires Sound(w, b) && b.task.Some? && !b.task.value.BrokerFinish?
    ensures var c := TaskDone(w, b, reply).0;
            && Sound(w, c) && c.task.None?
            && PostsLeft(c.state) + (if b.task.value.HttpPost? then 1 else 0)
            <= PostsLeft(b.state) + (if Refuses(w, b, reply) then 1 else 0)
            && |c.downloads| == |b.downloads| + (if b.task.value.HttpGet? then 1 else 0)
  {
    hide Sound, Received, Downloaded, Refuses, PostsLeft;
    if b.task.value.HttpPost? {
      ReceivedSound(w, b, reply);
      ReplyPosts(w, b, reply);
    } else {
      DownloadedSound(w, b, reply);
      DownloadPosts(w, b, reply);
    }
  }

  /** The fetch-handler calls that the accepted manifest plans. */
  function PlannedFetches(a: Agent): nat
  {
    if a.run.None? || a.run.value.manifest.install.Severed? then 0 else FetchCount(PlanOf(a.run.value.manifest).all)
  }

  lemma {:induction false} SuspensionsAreEffects(cb: Platform, es: seq<Effect>)
    ensures |Suspensions(cb, es)| <= |es|
  {
    if es != [] {
      SuspensionsAreEffects(cb, es[..|es| - 1]);
    }
  }

  /** Each download, and the one awaited, answers a fetch-handler call that was made. */
  lemma DownloadsAreFetches(w: World, a: Agent)
    requires Sound(w, a)
    ensures |a.downloads| + (if a.task.Some? && a.task.value.HttpGet? then 1 else 0) <= PlannedFetches(a)
  {
    hide FromAuthentic, PlanOf, FetchCount, Suspensions, AgentPlatform;
    TaskKind(a);
    if a.run.Some? {
      var i := a.run.value;
      SuspensionsAreEffects(AgentPlatform(w, i.manifest), i.progress.effects);
      FetchCountOfPrefix(i.progress.calls, PlanOf(i.manifest).all);
    }
  }

  /** Refused updates, and then one that is accepted but cannot be started. */
  predicate UpdateDefeats(w: World, replies: seq<HttpReply>)
  {
    && replies != [] && replies[0].Some?
    && (Defeats(w, replies[0].value) || (RefusedUpdate(w, replies[0].value) && UpdateDefeats(w, replies[1..])))
  }

  /** The same, after a query request. */
  predicate EndsUndefined(w: World, replies: seq<HttpReply>)
  {
    replies != [] && replies[0].Some? && AsksQuery(w, replies[0].value) && UpdateDefeats(w, replies[1..])
  }

  /** The replies that make a session undefined, by how far it has come. */
  predicate MeetsUndefined(w: World, s: State, replies: seq<HttpReply>)
  {
    if Rank(s) <= 1 then EndsUndefined(w, replies) else Rank(s) == 2 && UpdateDefeats(w, replies)
  }

  /** A session comes to undefined behaviour exactly on those replies. */
  lemma {:induction false} LoopUndefined(w: World, a: Agent, replies: seq<HttpReply>)
    requires Sound(w, a) && Ready(a)
    ensures Loop(w, a, replies).exit == Undefined <==> MeetsUndefined(w, a.state, replies)
    decreases |replies|
  {
    hide Sound, Queried, TaskDone, Defeats, RefusedUpdate, AsksQuery, Ready;
    var b := Queried(w, a);
    Before(w, a);
    QueriedSound(w, a);
    QueriedReady(w, a);
    Before(w, b);
    if !b.task.value.BrokerFinish? && replies != [] && replies[0].Some? {
      var reply := replies[0].value;
      var (c, r) := TaskDone(w, b, reply);
      SessionStep(w, b, reply);
      ReplyLeads(w, b, reply);
      if r == TEE_SUCCESS && Ready(c) {
        LoopUndefined(w, c, replies[1..]);
      }
    }
  }

  /** What a reply leads to, as far as undefined behaviour is concerned. */
  lemma ReplyLeads(w: World, b: Agent, reply: Octets)
    requires Sound(w, b) && b.task.Some? && !b.task.value.BrokerFinish?
    ensures var (c, r) := TaskDone(w, b, reply);
            && (Rank(b.state) == 1 ==>
                  Ready(c)
                  && if AsksQuery(w, reply) then Rank(c.state) == 2 && r == TEE_SUCCESS else Rank(c.state) >= 3)
            && (Rank(b.state) == 2 ==>
                  (Ready(c) <==> !Defeats(w, reply)) && (Defeats(w, reply) ==> r == TEE_SUCCESS)
                  && if RefusedUpdate(w, reply) then Rank(c.state) == 2 && r == TEE_SUCCESS else Rank(c.state) >= 3)
            && (Rank(b.state) >= 3 ==> Ready(c) && Rank(c.state) >= 3)
  {
    Before(w, b);
    hide Sound, TaskDone, Defeats, RefusedUpdate, AsksQuery, Ready;
    if b.state == AGENT_POSTING_INITIAL_REQUEST {
      AfterInitialReply(w, b, reply);
    } else if b.state == AGENT_POSTING_QUERY_RESPONSE {
      AfterResponseReply(w, b, reply);
    } else {
      AfterLaterReply(w, b, reply);
    }
  }

  /** An accepted update without any manifest is one such reply. */
  lemma EmptyUpdateIsUndefined(w: World, request: Octets, update: Octets)
    requires AsksQuery(w, request) && update != [] && w.parse(update) == Some(Update([]))
    ensures Loop(w, OPENED, [Some(request), Some(update)]).exit == Undefined
  {
    var replies := [Some(request), Some(update)];
    assert Defeats(w, update);
    assert replies[1..] == [Some(update)] && [Some(update)][0].value == update;
    OpenedIsSound(w);
    hide Loop, Sound, Defeats, AsksQuery;
    LoopUndefined(w, OPENED, replies);
  }

  /** Termination: unless the TAM has an update accepted that cannot be started, a session that has no update refused
      posts at most four messages and gets at most as many components as the install plans fetch calls; every refused
      update costs one more post. So it ends, at BROKER_FINISH or an error exit, as soon as there are that many
      replies. */
  lemma SessionEnds(w: World, a: Agent, replies: seq<HttpReply>)
    requires Sound(w, a) && a.state == AGENT_INIT
    ensures var s := Loop(w, a, replies);
            var most := 4 + Refusals(w, a, replies) + PlannedFetches(s.agent);
            && Posts(s.tasks) <= 4 + Refusals(w, a, replies)
            && Gets(s.tasks) <= PlannedFetches(s.agent)
            && |s.tasks| <= most
            && (s.exit == Finished ==> s.agent.state == AGENT_FINISH)
            && (s.exit == Undefined <==> EndsUndefined(w, replies))
            && (s.exit == Undefined ==>
                  s.agent.state == AGENT_INIT_RUNNER
                  && (s.agent.manifests == [] || s.agent.manifests[0].install.Severed?))
            && (|replies| >= most && !EndsUndefined(w, replies) ==> s.exit == Finished || s.exit == ErrorExit)
  {
    hide Loop, Sound, Refusals, PlannedFetches, Posts, Gets, EndsUndefined;
    var s := Loop(w, a, replies);
    SessionBounded(w, a, replies);
    LoopUndefined(w, a, replies);
    DownloadsAreFetches(w, s.agent);
    PostsAndGets(s.tasks);
    TasksAndReplies(w, a, replies);
    NotReady(w, s.agent);
  }

  lemma NotReady(w: World, a: Agent)
    requires Sound(w, a)
    ensures !Ready(a) ==> a.state == AGENT_INIT_RUNNER && (a.manifests == [] || a.manifests[0].install.Severed?)
  {
    hide Installs, FromAuthentic, SoundInstall;
  }

  /** Without the bound on refusals there is none: a TAM that answers every query response with an update that is
      refused is asked again, as often as it likes. */
  lemma {:induction false} RefusedUpdateRepeats(w: World, a: Agent, reply: Octets, n: nat)
    requires a.state == AGENT_POSTING_QUERY_RESPONSE && (a.task.Some? ==> a.task == Some(TaskFor(a)))
    requires Refuses(w, a, reply)
    ensures var s := Loop(w, a, seq(n, _ => Some(reply)));
            s.exit == OutOfReplies && s.tasks == seq(n + 1, _ => TaskFor(a))
    decreases n
  {
    hide TaskFor, Authentic;
    var b := a.(task := Some(TaskFor(a)));
    var replies := seq(n, _ => Some(reply));
    SameTask(a);
    assert Queried(w, a) == b by {
      if a.task.None? {
        assert Round(w, a) == b;
      }
    }
    IsPost(a);
    if n > 0 {
      var c := a.(task := None);
      IdleTask(a);
      assert TaskDone(w, b, reply) == (c, TEE_SUCCESS);
      RefusedUpdateRepeats(w, c, reply, n - 1);
      assert replies[1..] == seq(n - 1, _ => Some(reply));
      assert seq(n + 1, _ => TaskFor(a)) == [TaskFor(a)] + seq(n, _ => TaskFor(a));
    }
  }

  lemma IsPost(a: Agent)
    requires a.state == AGENT_POSTING_QUERY_RESPONSE
    ensures TaskFor(a).HttpPost?
  {
  }

  lemma IdleTask(a: Agent)
    ensures TaskFor(a.(task := None)) == TaskFor(a)
  {
  }

  lemma RequestReceived(w: World, request: Octets)
    requires AsksQuery(w, request)
    ensures Ready(OPENED)
    ensures var b := Queried(w, OPENED);
            var (c, r) := TaskDone(w, b, request);
            b.task.value.HttpPost? && r == TEE_SUCCESS && c.state == AGENT_POSTING_QUERY_RESPONSE && c.task.None?
  {
    var a := OPENED.(state := AGENT_POSTING_INITIAL_REQUEST);
    assert Round(w, OPENED) == a && Round(w, a) == a.(task := Some(TaskFor(a)));
    assert Queried(w, a) == Round(w, a) && Queried(w, OPENED) == Queried(w, a);
  }

  lemma {:induction false} PostsOf(t: Task, n: nat)
    requires t.HttpPost?
    ensures Posts(seq(n, _ => t)) == n
  {
    if n > 0 {
      assert seq(n, _ => t)[1..] == seq(n - 1, _ => t);
      PostsOf(t, n - 1);
    }
  }

  /** So from a session just opened a query request and then any number of updates of three envelopes, which the store
      has no place for, make as many posts. */
  lemma RefusalsAreUnbounded(w: World, request: Octets, update: Octets, envelopes: seq<Octets>, n: nat)
    requires AsksQuery(w, request) && update != [] && w.parse(update) == Some(Update(envelopes)) && |envelopes| == 3
    ensures var s := Loop(w, OPENED, [Some(request)] + seq(n, _ => Some(update)));
            s.exit == OutOfReplies && Posts(s.tasks) == n + 2
  {
    var replies := [Some(request)] + seq(n, _ => Some(update));
    assert replies[0] == Some(request) && replies[1..] == seq(n, _ => Some(update));
    var b := Queried(w, OPENED);
    var c := TaskDone(w, b, request).0;
    RequestReceived(w, request);
    RefusedUpdateRepeats(w, c, update, n);
    IsPost(c);
    PostsOf(TaskFor(c), n + 1);
    hide TaskDone, Queried, Ready, AsksQuery, TaskFor;
    var s := Loop(w, c, replies[1..]);
    assert Loop(w, OPENED, replies) == s.(tasks := [b.task.value] + s.tasks);
    assert ([b.task.value] + s.tasks)[1..] == s.tasks;
  }
}
