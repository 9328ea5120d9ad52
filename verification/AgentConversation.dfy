/** A session as it is seen from outside: which message the broker posts or what it gets next, from what it did before
    and what came back, without the state of the agent. */
module AgentConversation {
  import opened Wrappers
  import opened Bytes
  import opened CborReader
  import opened SuitAuthenticate
  import opened SuitManifest
  import opened TaList
  import opened AgentProtocol
  import opened AgentSafety
  import opened AgentBroker

  /** What a query response lists: nothing unless trusted components are asked for, which is bit 1 of the items, and
      attestation, bit 0, is not. */
  function ListsFor(items: u64, requests: seq<Request>): Option<Lists>
  {
    if items % 2 == 0 && (items / 2) % 2 == 1 then Some(ListsOf(requests)) else None
  }

  /** What a session may come to after an install has begun: getting a component, or a report. */
  predicate InstallGoesOn(uri: seq<byte>, token: seq<byte>, next: Task)
  {
    next.HttpGet? || next == HttpPost(uri, SuccessReport(token)) || next == HttpPost(uri, ErrorReport(token))
  }

  /** There are at most two envelopes, and all verify. */
  predicate AllAccepted(w: World, envelopes: seq<Octets>)
  {
    |envelopes| <= 2 && forall e <- envelopes :: Authentic(w.crypto, w.key, Whole(e))
  }

  /** What the broker is asked for after a task, a reply to it and the token so far. */
  predicate Follows(w: World, uri: seq<byte>, requests: seq<Request>, token: seq<byte>, task: Task, reply: Octets,
                    next: Task)
  {
    match task
    case BrokerFinish => false
    case HttpGet(_) => InstallGoesOn(uri, token, next)
    case HttpPost(_, data) =>
      && reply != [] && w.parse(reply).Some?
      && var message := w.parse(reply).value;
         match data
         case NoData =>
           next == HttpPost(uri, if message.QueryRequest? then
                                   QueryResponse(message.token, ListsFor(message.items, requests))
                                 else ErrorReport(token))
         case QueryResponse(_, _) =>
           if !message.Update? then next == HttpPost(uri, ErrorReport(token))
           else if !AllAccepted(w, message.envelopes) then next == task
           else if exists e <- message.envelopes :: ManifestOf(Whole(e)).None? then
             next == HttpPost(uri, ErrorReport(token))
           else InstallGoesOn(uri, token, next)
         case SuccessReport(_) => next == HttpPost(uri, ErrorReport(token))
         case ErrorReport(_) => false
  }

  /** The token is that of the query request that answers the first message. */
  function TokenAfter(w: World, token: seq<byte>, task: Task, reply: Octets): seq<byte>
  {
    if task.HttpPost? && task.data.NoData? then
      match w.parse(reply) case Some(QueryRequest(t, _)) => if reply != [] then t else token case _ => token
    else token
  }

  /** Every task but the first follows from the one before and the reply to it. */
  predicate Converses(w: World, uri: seq<byte>, requests: seq<Request>, token: seq<byte>, tasks: seq<Task>,
                      replies: seq<HttpReply>)
    decreases |tasks|
  {
    |tasks| <= 1
    || (&& replies != [] && replies[0].Some?
        && Follows(w, uri, requests, token, tasks[0], replies[0].value, tasks[1])
        && Converses(w, uri, requests, TokenAfter(w, token, tasks[0], replies[0].value), tasks[1..], replies[1..]))
  }

  lemma ListsAre(a: Agent)
    ensures ResponseLists(a) == ListsFor(a.items, a.requests)
  {
    hide ListsOf;
  }

  /** What a posting state has the broker post. */
  lemma {:induction false} QueriedTask(w: World, a: Agent)
    requires Ready(a) && a.task.None?
    ensures var b := Queried(w, a);
            var t := b.task.value;
            && b.tamUri == a.tamUri && b.requests == a.requests && b.token == a.token
            && (a.state in {AGENT_INIT, AGENT_POSTING_INITIAL_REQUEST} ==> t == HttpPost(a.tamUri, NoData))
            && (a.state == AGENT_POSTING_QUERY_RESPONSE ==>
                  t == HttpPost(a.tamUri, QueryResponse(a.token, ListsFor(a.items, a.requests))))
            && (a.state == AGENT_POSTING_SUCCESS ==> t == HttpPost(a.tamUri, SuccessReport(a.token)))
            && (a.state == AGENT_POSTING_ERROR ==> t == HttpPost(a.tamUri, ErrorReport(a.token)))
            && (a.state == AGENT_FINISH ==> t == BrokerFinish)
            && (a.state == AGENT_FETCH_COMPONENT ==> t.HttpGet?)
            && (a.state in {AGENT_INIT_RUNNER, AGENT_RUN_SUIT_RUNNER} ==> InstallGoesOn(a.tamUri, a.token, t))
    decreases Rounds(a.state)
  {
    ListsAre(a);
    hide RunOn, PlanOf, ResponseLists, ListsFor, Data;
    var c := Round(w, a);
    if c.task.None? {
      QueriedTask(w, c);
    }
  }

  lemma {:induction false} LoadedIsParsed(envelopes: seq<Octets>)
    ensures Loaded(envelopes).complete <==> forall e <- envelopes :: ManifestOf(Whole(e)).Some?
  {
    hide ManifestOf;
    if envelopes != [] {
      var n := |envelopes| - 1;
      LoadedIsParsed(envelopes[..n]);
      assert envelopes == envelopes[..n] + [envelopes[n]];
    }
  }

  /** What a task says of the state it was given out in. */
  lemma TaskIsOf(w: World, b: Agent)
    requires Sound(w, b) && b.task.Some?
    ensures b.task.value.HttpGet? <==> b.state == AGENT_FETCH_COMPONENT
    ensures b.task.value.BrokerFinish? <==> b.state == AGENT_FINISH
    ensures b.task.value.HttpPost? ==>
              && b.task.value.uri == b.tamUri
              && match b.task.value.data
                 case NoData => b.state == AGENT_POSTING_INITIAL_REQUEST
                 case QueryResponse(t, l) =>
                   b.state == AGENT_POSTING_QUERY_RESPONSE && t == b.token && l == ListsFor(b.items, b.requests)
                 case SuccessReport(t) => b.state == AGENT_POSTING_SUCCESS && t == b.token
                 case ErrorReport(t) => b.state == AGENT_POSTING_ERROR && t == b.token
  {
    ListsAre(b);
    hide SoundInstall, FromAuthentic, ResponseLists, ListsFor, Data;
  }

  /** What a reply to a message makes of the session. */
  lemma ReplyMoves(w: World, b: Agent, reply: Octets)
    requires Sound(w, b) && b.task.Some? && b.task.value.HttpPost?
    ensures var (c, r) := TaskDone(w, b, reply);
            var data := b.task.value.data;
            && c.task.None? && c.tamUri == b.tamUri && c.requests == b.requests
            && c.token == TokenAfter(w, b.token, b.task.value, reply)
            && if reply == [] then c.state == AGENT_FINISH && r == TEE_SUCCESS
               else if data.ErrorReport? || w.parse(reply).None? then r != TEE_SUCCESS
               else
                 && r == TEE_SUCCESS
                 && var message := w.parse(reply).value;
                    if message.QueryRequest? && data.NoData? then
                      c.state == AGENT_POSTING_QUERY_RESPONSE && c.items == message.items
                    else if message.Update? && data.QueryResponse? then c.state == AfterUpdate(w, message.envelopes)
                      && c.items == b.items
                    else c.state == AGENT_POSTING_ERROR
  {
    hide Sound, Storable, Loaded, ListsOf, ListsFor, AfterUpdate;
    TaskIsOf(w, b);
    if reply != [] && w.parse(reply).Some? && w.parse(reply).value.Update? {
      UpdateMoves(w, b, w.parse(reply).value.envelopes);
    }
  }

  /** The state that an update leads to when it is waited for. */
  function AfterUpdate(w: World, envelopes: seq<Octets>): State
  {
    if !AllAccepted(w, envelopes) then AGENT_POSTING_QUERY_RESPONSE
    else if exists e <- envelopes :: ManifestOf(Whole(e)).None? then AGENT_POSTING_ERROR
    else AGENT_INIT_RUNNER
  }

  lemma UpdateMoves(w: World, b: Agent, envelopes: seq<Octets>)
    ensures var c := Updated(w, b, envelopes);
            && c.tamUri == b.tamUri && c.requests == b.requests && c.token == b.token && c.items == b.items
            && c.task == b.task
            && (b.state == AGENT_POSTING_QUERY_RESPONSE ==> c.state == AfterUpdate(w, envelopes))
  {
    hide ManifestOf, Authentic, Loaded;
    LoadedIsParsed(envelopes);
  }

  /** One reply taken, the broker's next task follows, and there is none only after an empty reply. */
  lemma ReplyFollows(w: World, b: Agent, reply: Octets)
    requires Sound(w, b) && b.task.Some? && !b.task.value.BrokerFinish?
    requires TaskDone(w, b, reply).1 == TEE_SUCCESS && Ready(TaskDone(w, b, reply).0)
    ensures var d := Queried(w, TaskDone(w, b, reply).0);
            && d.tamUri == b.tamUri && d.requests == b.requests
            && d.token == TokenAfter(w, b.token, b.task.value, reply)
            && if d.task.value.BrokerFinish? then b.task.value.HttpPost? && reply == []
               else Follows(w, b.tamUri, b.requests, b.token, b.task.value, reply, d.task.value)
  {
    hide Sound, TaskDone, Queried, Ready, ListsFor, AllAccepted, ManifestOf;
    var c := TaskDone(w, b, reply).0;
    TaskIsOf(w, b);
    if b.task.value.HttpPost? {
      ReplyMoves(w, b, reply);
      QueriedTask(w, c);
    } else {
      GetMoves(w, b, reply);
      QueriedTask(w, c);
    }
  }

  lemma GetMoves(w: World, b: Agent, reply: Octets)
    requires Sound(w, b) && b.task.Some? && b.task.value.HttpGet?
    ensures var c := TaskDone(w, b, reply).0;
            && c.task.None? && c.tamUri == b.tamUri && c.requests == b.requests && c.token == b.token
            && c.state == AGENT_RUN_SUIT_RUNNER
  {
    hide Sound;
    DownloadedSound(w, b, reply);
  }

  /** The whole session is such a conversation, in any state that it is taken up in. */
  lemma {:induction false} SessionConverses(w: World, a: Agent, replies: seq<HttpReply>)
    requires Sound(w, a) && Ready(a)
    ensures var b := Queried(w, a);
            Converses(w, b.tamUri, b.requests, b.token, Loop(w, a, replies).tasks, replies)
    ensures var ts := Loop(w, a, replies).tasks; ts != [] ==> Some(ts[0]) == Queried(w, a).task
    decreases |replies|
  {
    hide Sound, Ready, Queried, TaskDone, Follows, TokenAfter;
    var b := Queried(w, a);
    if !b.task.value.BrokerFinish? && replies != [] && replies[0].Some? {
      LoopReply(w, a, replies);
      var (c, r) := TaskDone(w, b, replies[0].value);
      QueriedSound(w, a);
      SessionStep(w, b, replies[0].value);
      if r == TEE_SUCCESS && Ready(c) {
        SessionConverses(w, c, replies[1..]);
        ReplyFollows(w, b, replies[0].value);
        ConversesMore(w, b, replies, Loop(w, c, replies[1..]).tasks, Queried(w, c));
      }
    }
  }

  lemma ConversesMore(w: World, b: Agent, replies: seq<HttpReply>, ts: seq<Task>, d: Agent)
    requires replies != [] && replies[0].Some? && b.task.Some? && d.task.Some?
    requires d.tamUri == b.tamUri && d.requests == b.requests
    requires d.token == TokenAfter(w, b.token, b.task.value, replies[0].value)
    requires Converses(w, d.tamUri, d.requests, d.token, ts, replies[1..]) && (ts != [] ==> Some(ts[0]) == d.task)
    requires ts != [] ==> Follows(w, b.tamUri, b.requests, b.token, b.task.value, replies[0].value, d.task.value)
    ensures Converses(w, b.tamUri, b.requests, b.token, [b.task.value] + ts, replies)
  {
    hide Follows, TokenAfter;
    var all := [b.task.value] + ts;
    assert all[1..] == ts;
  }

  /** Why the broker leaves its loop: at BROKER_FINISH after an empty reply to a message; at an error exit when a
      request failed, a message could not be parsed or answered an error report. */
  ghost predicate Leaves(w: World, s: Course, replies: seq<HttpReply>)
  {
    var n := |s.tasks|;
    && (s.exit == Finished && n > 0 ==> n <= |replies| && s.tasks[n - 1].HttpPost? && replies[n - 1] == Some([]))
    && (s.exit == ErrorExit ==>
          && 0 < n <= |replies|
          && (replies[n - 1].None?
              || (s.tasks[n - 1].HttpPost? && replies[n - 1].value != []
                  && (s.tasks[n - 1].data.ErrorReport? || w.parse(replies[n - 1].value).None?))))
    && (s.exit == OutOfReplies <==> n == |replies| + 1)
  }

  lemma {:induction false} SessionLeaves(w: World, a: Agent, replies: seq<HttpReply>)
    requires Sound(w, a)
    ensures Leaves(w, Loop(w, a, replies), replies)
    decreases |replies|
  {
    hide Sound, Ready, Queried, TaskDone, Leaves;
    if !Ready(a) || Queried(w, a).task.value.BrokerFinish? || replies == [] || replies[0].None? {
      LeavesAtOnce(w, a, replies);
    } else {
      var b := Queried(w, a);
      var (c, r) := TaskDone(w, b, replies[0].value);
      LoopReply(w, a, replies);
      QueriedSound(w, a);
      SessionStep(w, b, replies[0].value);
      if r == TEE_SUCCESS {
        SessionLeaves(w, c, replies[1..]);
        var s := Loop(w, c, replies[1..]);
        FinishesAfter(w, b, replies[0].value, s, replies[1..]);
        LeavesLater(w, b.task.value, s, replies);
      } else {
        RefusedReply(w, b, replies[0].value);
        LeavesInError(w, b.task.value, replies, c);
      }
    }
  }

  lemma LeavesAtOnce(w: World, a: Agent, replies: seq<HttpReply>)
    requires !Ready(a) || Queried(w, a).task.value.BrokerFinish? || replies == [] || replies[0].None?
    ensures Leaves(w, Loop(w, a, replies), replies)
  {
    hide Ready, Queried, TaskDone;
  }

  lemma RefusedReply(w: World, b: Agent, reply: Octets)
    requires Sound(w, b) && b.task.Some? && !b.task.value.BrokerFinish? && TaskDone(w, b, reply).1 != TEE_SUCCESS
    ensures b.task.value.HttpPost? && reply != [] && (b.task.value.data.ErrorReport? || w.parse(reply).None?)
  {
    hide Sound, TaskDone, AfterUpdate;
    if b.task.value.HttpGet? {
      DownloadedSound(w, b, reply);
    } else {
      ReplyMoves(w, b, reply);
    }
  }

  lemma LeavesInError(w: World, t: Task, replies: seq<HttpReply>, c: Agent)
    requires replies != [] && replies[0].Some? && t.HttpPost? && replies[0].value != []
    requires t.data.ErrorReport? || w.parse(replies[0].value).None?
    ensures Leaves(w, Course(ErrorExit, [t], c), replies)
  {
  }

  /** When nothing follows a reply and the loop is finished, the reply was empty. */
  lemma FinishesAfter(w: World, b: Agent, reply: Octets, s: Course, replies: seq<HttpReply>)
    requires Sound(w, b) && b.task.Some? && !b.task.value.BrokerFinish? && TaskDone(w, b, reply).1 == TEE_SUCCESS
    requires s == Loop(w, TaskDone(w, b, reply).0, replies)
    ensures s.exit == Finished && s.tasks == [] ==> b.task.value.HttpPost? && reply == []
    ensures s.exit == ErrorExit ==> s.tasks != []
  {
    hide Sound, TaskDone, Queried, Ready, Follows;
    if Ready(TaskDone(w, b, reply).0) {
      ReplyFollows(w, b, reply);
    }
  }

  lemma LeavesLater(w: World, t: Task, s: Course, replies: seq<HttpReply>)
    requires replies != [] && replies[0].Some? && Leaves(w, s, replies[1..])
    requires s.exit == Finished && s.tasks == [] ==> t.HttpPost? && replies[0].value == []
    requires s.exit == ErrorExit ==> s.tasks != []
    ensures Leaves(w, s.(tasks := [t] + s.tasks), replies)
  {
    var n := |s.tasks|;
    assert n > 0 ==> ([t] + s.tasks)[n] == s.tasks[n - 1];
    assert n > 0 && n <= |replies| - 1 ==> replies[1..][n - 1] == replies[n];
  }

  // The options.

  /** What a session just opened makes of its options: an address of at most 511 characters is posted to, and of at most
      sixteen applications each is listed as its mark says. */
  lemma OptionsAreKept(uri: seq<byte>, fs: seq<Marked>)
    requires fs != [] && (forall f <- fs :: Sayable(f)) && Join(AllWritten(fs)) != []
    ensures var a := Configured(OPENED, uri, Join(AllWritten(fs)));
            && a.tamUri == (if |uri| <= 511 then uri else [])
            && ListsOf(a.requests)
               == (if |fs| <= 16 then Lists(NamesWith(fs, Plain), NamesWith(fs, Wanted), NamesWith(fs, Unwanted))
                   else Lists([], [], []))
            && a == OPENED.(tamUri := a.tamUri, requests := a.requests)
  {
    hide Split, Join, FieldRequests, AllWritten, NamesWith, Names;
    ListSaysWhatIsWritten(fs);
    SplitWritten(fs);
    NoNames();
  }

  lemma SplitWritten(fs: seq<Marked>)
    requires fs != [] && forall f <- fs :: Sayable(f)
    ensures |Split(Join(AllWritten(fs)))| == |fs|
  {
    hide Split, Join, Sayable, Written;
    forall f | f in AllWritten(fs) ensures COMMA !in f {
      var i :| 0 <= i < |fs| && AllWritten(fs)[i] == f;
      assert fs[i] in fs;
      FieldRead(fs[i]);
    }
    JoinThenSplit(AllWritten(fs));
  }

  lemma NoNames()
    ensures ListsOf([]) == Lists([], [], [])
  {
  }

  /** An option is refused when it comes too late, is too long, lists too much or is none of the two. */
  lemma OptionsAreRefused(a: Agent, option: DevOption, value: seq<byte>)
    ensures var (b, r) := OptionSet(a, option, value);
            && (r != TEE_SUCCESS ==> b == a)
            && (r == TEE_ERROR_BAD_STATE <==> a.state != AGENT_INIT)
            && (a.state == AGENT_INIT ==>
                  (r == TEE_ERROR_BAD_PARAMETERS <==>
                     || (option == AGENT_OPTION_SET_TAM_URI && |value| > 511)
                     || (option == AGENT_OPTION_SET_CURRENT_TA_LIST && value != [] && |Split(value)| > 16)
                     || option == UNKNOWN_OPTION))
  {
    hide Split, FieldRequests;
  }

  /** So a session that is handed its options and then driven by the broker begins with an empty message to the address
      it was given, and goes on as a conversation. */
  lemma WholeSession(w: World, uri: seq<byte>, fs: seq<Marked>, replies: seq<HttpReply>)
    requires fs != [] && (forall f <- fs :: Sayable(f)) && Join(AllWritten(fs)) != [] && |uri| <= 511 && |fs| <= 16
    ensures var a := Configured(OPENED, uri, Join(AllWritten(fs)));
            var s := Loop(w, a, replies);
            && s.tasks != [] && s.tasks[0] == HttpPost(uri, NoData)
            && ListsOf(a.requests) == Lists(NamesWith(fs, Plain), NamesWith(fs, Wanted), NamesWith(fs, Unwanted))
            && Converses(w, uri, a.requests, [], s.tasks, replies) && Leaves(w, s, replies)
  {
    hide Sound, Loop, Queried, ListsOf, Join, AllWritten, Converses, Leaves, NamesWith, Configured, Sayable;
    OptionsAreKept(uri, fs);
    var a := Configured(OPENED, uri, Join(AllWritten(fs)));
    OpenedIsSound(w);
    OptionsSound(w, OPENED, uri, Join(AllWritten(fs)));
    QueriedTask(w, a);
    SessionConverses(w, a, replies);
    SessionLeaves(w, a, replies);
    SomeTask(w, a, replies);
  }

  lemma OptionsSound(w: World, a: Agent, uri: seq<byte>, list: seq<byte>)
    requires Sound(w, a)
    ensures Sound(w, Configured(a, uri, list))
  {
    hide Sound, OptionSet;
    OptionSetSound(w, a, AGENT_OPTION_SET_TAM_URI, uri);
    OptionSetSound(w, OptionSet(a, AGENT_OPTION_SET_TAM_URI, uri).0, AGENT_OPTION_SET_CURRENT_TA_LIST, list);
  }

  lemma SomeTask(w: World, a: Agent, replies: seq<HttpReply>)
    requires Ready(a) && !Queried(w, a).task.value.BrokerFinish?
    ensures Loop(w, a, replies).tasks != []
  {
    hide Ready, Queried, TaskDone;
  }
}
