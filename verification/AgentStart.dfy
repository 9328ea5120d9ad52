/** When a session comes to start the runner without a manifest it can start, and so to undefined behaviour: the
    source then reads through a null pointer, or takes a digest for a sequence. */
module AgentStart {
  import opened Bytes
  import opened CborReader
  import opened SuitManifest
  import opened AgentProtocol
  import opened AgentSafety

  /** The manifests all parse, but there is no root among them, or its install sequence was severed. */
  predicate Unstartable(envelopes: seq<Octets>)
  {
    Loaded(envelopes).complete
    && (envelopes == [] || ManifestOf(Whole(envelopes[|envelopes| - 1])).value.install.Severed?)
  }

  /** The message is an update that the store accepts and the runner cannot start. */
  predicate Defeats(w: World, buffer: Octets)
  {
    buffer != []
    && match w.parse(buffer)
       case Some(Update(envelopes)) => Storable(w, envelopes) && Unstartable(envelopes)
       case _ => false
  }

  /** The message is an update that the store refuses. */
  predicate RefusedUpdate(w: World, buffer: Octets)
  {
    buffer != []
    && match w.parse(buffer)
       case Some(Update(envelopes)) => !Storable(w, envelopes)
       case _ => false
  }

  predicate AsksQuery(w: World, buffer: Octets)
  {
    buffer != [] && w.parse(buffer).Some? && w.parse(buffer).value.QueryRequest?
  }

  lemma RootOfLoaded(envelopes: seq<Octets>)
    requires Loaded(envelopes).complete
    ensures Unstartable(envelopes) <==> Loaded(envelopes).all == [] || Loaded(envelopes).all[0].install.Severed?
  {
    hide ManifestOf;
  }

  /** A reply to the initial request. */
  lemma AfterInitialReply(w: World, a: Agent, reply: Octets)
    requires a.state == AGENT_POSTING_INITIAL_REQUEST && a.task.Some? && a.task.value.HttpPost?
    ensures var (b, r) := TaskDone(w, a, reply);
            Ready(b) && if AsksQuery(w, reply) then b.state == AGENT_POSTING_QUERY_RESPONSE && r == TEE_SUCCESS
                        else Rank(b.state) >= 6
  {
    hide Updated;
  }

  /** A reply to a query response. */
  lemma AfterResponseReply(w: World, a: Agent, reply: Octets)
    requires a.state == AGENT_POSTING_QUERY_RESPONSE && a.task.Some? && a.task.value.HttpPost? && a.manifests == []
    ensures var (b, r) := TaskDone(w, a, reply);
            && (Ready(b) <==> !Defeats(w, reply))
            && (Defeats(w, reply) ==> r == TEE_SUCCESS)
            && if RefusedUpdate(w, reply) then b.state == AGENT_POSTING_QUERY_RESPONSE && r == TEE_SUCCESS
               else Rank(b.state) >= 3
  {
    hide Loaded, Storable, Unstartable;
    if w.parse(reply).Some? && w.parse(reply).value.Update? {
      var envelopes := w.parse(reply).value.envelopes;
      assert [] + Loaded(envelopes).all == Loaded(envelopes).all;
      if Loaded(envelopes).complete {
        RootOfLoaded(envelopes);
      } else {
        NotLoaded(envelopes);
      }
    }
  }

  lemma NotLoaded(envelopes: seq<Octets>)
    requires !Loaded(envelopes).complete
    ensures !Unstartable(envelopes)
  {
  }

  /** A reply to anything later. */
  lemma AfterLaterReply(w: World, a: Agent, reply: Octets)
    requires Sound(w, a) && Rank(a.state) >= 4
    ensures Ready(TaskDone(w, a, reply).0) && Rank(TaskDone(w, a, reply).0.state) >= 4
  {
    hide Installs, FromAuthentic, Suspensions, Targets, AgentPlatform, Updated, Storable;
    TaskKind(a);
  }

  /** What a reply leads to is undefined exactly if it answers a query response with an update that is accepted but
      cannot be started. */
  lemma ReplyDefeats(w: World, a: Agent, reply: Octets)
    requires Sound(w, a) && Ready(a)
    ensures !Ready(TaskDone(w, a, reply).0) <==>
            a.task.Some? && a.state == AGENT_POSTING_QUERY_RESPONSE && Defeats(w, reply)
  {
    Before(w, a);
    hide Sound, TaskDone, Defeats, Ready;
    if a.task.None? || a.task.value.BrokerFinish? {
      NothingDone(w, a, reply);
    } else if a.state == AGENT_POSTING_INITIAL_REQUEST {
      AfterInitialReply(w, a, reply);
    } else if a.state == AGENT_POSTING_QUERY_RESPONSE {
      AfterResponseReply(w, a, reply);
    } else {
      AfterLaterReply(w, a, reply);
    }
  }

  lemma Before(w: World, a: Agent)
    requires Sound(w, a)
    ensures a.state == AGENT_POSTING_QUERY_RESPONSE ==> a.manifests == []
    ensures a.task.Some? && Rank(a.state) in {1, 2} ==> a.task.value.HttpPost?
    ensures a.task.Some? ==> Rank(a.state) !in {0, 3}
    ensures a.task.Some? && a.task.value.BrokerFinish? ==> a.state == AGENT_FINISH
  {
    hide Installs, FromAuthentic, SoundInstall;
  }

  lemma NothingDone(w: World, a: Agent, reply: Octets)
    requires a.task.None? || a.task.value.BrokerFinish?
    ensures TaskDone(w, a, reply).0 == a
  {
  }

  lemma {:induction false} QueriedReady(w: World, a: Agent)
    requires Ready(a)
    ensures Ready(Queried(w, a))
    ensures Rank(a.state) <= 1 ==> Rank(Queried(w, a).state) <= 1
    ensures a.state == AGENT_POSTING_QUERY_RESPONSE ==> Queried(w, a).state == a.state
    ensures Rank(a.state) >= 4 || (Rank(a.state) == 3 && a.task.None?) ==> Rank(Queried(w, a).state) >= 4
    decreases if a.task.None? then Rounds(a.state) else 0
  {
    hide TaskFor, RunOn;
    if a.task.None? {
      QueriedReady(w, Round(w, a));
    }
  }
}
