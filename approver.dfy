/**
 * The approval as the use case performs it: an object holding the stores it
 * changes, one method per collaborator call, and `Approve`, which makes those
 * calls in the order the flow makes them. Every call is appended to `log`, so
 * the order of calls is part of what `Approve` is proved to do: it ends in the
 * stores, with the log and the trace, that ApprovalSpec.Approve describes.
 */
module Approver {
  import opened Caip
  import opened SignTypes
  import opened ApprovalSpec
  import ApprovalProperties

  class SessionAuthenticateApprover {
    const env: Env
    const selfMetadata: Metadata

    /** The pending `wc_sessionAuthenticate` requests by id (read only). */
    var pending: map<RequestId, PendingRequest>

    var ownKeys: set<nat>
    var nextKey: nat
    var symKeys: map<Topic, Key>
    var metadata: map<(Topic, Role), Metadata>
    var sessions: map<Topic, StoredSession>
    var subscriptions: set<Topic>
    var activePairings: set<Topic>
    var verifyContexts: set<RequestId>

    /** Every collaborator and callback call made so far, in call order. */
    var log: seq<Effect>

    function State(): Stores
      reads this
    {
      Stores(ownKeys, nextKey, symKeys, metadata, sessions, subscriptions, activePairings, verifyContexts)
    }

    predicate Valid()
      reads this
    {
      Inv(State())
    }

    constructor(env: Env, selfMetadata: Metadata, pending: map<RequestId, PendingRequest>, s: Stores)
      requires Inv(s)
      ensures Valid()
      ensures this.env == env && this.selfMetadata == selfMetadata && this.pending == pending
      ensures State() == s && log == []
    {
      this.env := env;
      this.selfMetadata := selfMetadata;
      this.pending := pending;
      ownKeys, nextKey, symKeys, metadata := s.ownKeys, s.nextKey, s.symKeys, s.metadata;
      sessions, subscriptions, activePairings, verifyContexts := s.sessions, s.subscriptions, s.activePairings, s.verifyContexts;
      log := [];
    }

    // -------------------------------------------------------------------------
    // The collaborators, one call each
    // -------------------------------------------------------------------------

    /** Generates and stores a new X25519 key pair; returns its serial and public key. */
    method GenerateAndStoreKeyPair() returns (serial: nat, publicKey: Key)
      modifies this
      ensures serial == old(nextKey)
      ensures publicKey == env.publicKeyOf(serial)
      ensures State() == KeyedStores(old(State()))
      ensures pending == old(pending) && log == old(log) + [GenerateKeyPair(serial)]
    {
      serial := nextKey;
      publicKey := env.publicKeyOf(serial);
      ownKeys := ownKeys + {serial};
      nextKey := serial + 1;
      log := log + [GenerateKeyPair(serial)];
    }

    method RespondWithRequestExpired(topic: Topic, requestId: RequestId)
      modifies this
      ensures State() == old(State()) && pending == old(pending)
      ensures log == old(log) + [RespondWithError(topic, requestId, RequestExpiredError)]
    {
      log := log + [RespondWithError(topic, requestId, RequestExpiredError)];
    }

    method InsertEvent(event: ErrorEvent)
      modifies this
      ensures State() == old(State()) && pending == old(pending)
      ensures log == old(log) + [Telemetry(event)]
    {
      log := log + [Telemetry(event)];
    }

    method InsertMetadata(topic: Topic, m: Metadata, role: Role)
      modifies this
      ensures State() == old(State()).(metadata := old(metadata)[(topic, role) := m])
      ensures pending == old(pending) && log == old(log) + [Effect.InsertMetadata(topic, role)]
    {
      metadata := metadata[(topic, role) := m];
      log := log + [Effect.InsertMetadata(topic, role)];
    }

    method InsertSession(session: Session, requestId: RequestId)
      modifies this
      ensures State() == old(State()).(sessions := old(sessions)[session.topic := StoredSession(session, requestId)])
      ensures pending == old(pending) && log == old(log) + [Effect.InsertSession(session.topic, requestId)]
    {
      sessions := sessions[session.topic := StoredSession(session, requestId)];
      log := log + [Effect.InsertSession(session.topic, requestId)];
    }

    method SetKey(key: Key, topic: Topic)
      modifies this
      ensures State() == old(State()).(symKeys := old(symKeys)[topic := key])
      ensures pending == old(pending) && log == old(log) + [Effect.SetKey(topic)]
    {
      symKeys := symKeys[topic := key];
      log := log + [Effect.SetKey(topic)];
    }

    /** Subscribes to `topic`; `ok` is the relay's answer. */
    method Subscribe(topic: Topic, ok: bool)
      modifies this
      ensures State() == old(State()).(subscriptions := if ok then old(subscriptions) + {topic} else old(subscriptions))
      ensures pending == old(pending) && log == old(log) + [Effect.Subscribe(topic)]
    {
      if ok {
        subscriptions := subscriptions + {topic};
      }
      log := log + [Effect.Subscribe(topic)];
    }

    method Publish(topic: Topic, response: ApproveResponse)
      modifies this
      ensures State() == old(State()) && pending == old(pending)
      ensures log == old(log) + [Effect.Publish(topic, response)]
    {
      log := log + [Effect.Publish(topic, response)];
    }

    method RemoveKeys(topic: Topic)
      modifies this
      ensures State() == old(State()).(symKeys := old(symKeys) - {topic})
      ensures pending == old(pending) && log == old(log) + [Effect.RemoveKeys(topic)]
    {
      symKeys := symKeys - {topic};
      log := log + [Effect.RemoveKeys(topic)];
    }

    method DeleteSession(topic: Topic)
      modifies this
      ensures State() == old(State()).(sessions := old(sessions) - {topic})
      ensures pending == old(pending) && log == old(log) + [Effect.DeleteSession(topic)]
    {
      sessions := sessions - {topic};
      log := log + [Effect.DeleteSession(topic)];
    }

    method Activate(pairingTopic: Topic)
      modifies this
      ensures State() == old(State()).(activePairings := old(activePairings) + {pairingTopic})
      ensures pending == old(pending) && log == old(log) + [Effect.Activate(pairingTopic)]
    {
      activePairings := activePairings + {pairingTopic};
      log := log + [Effect.Activate(pairingTopic)];
    }

    method DeleteVerifyContext(requestId: RequestId)
      modifies this
      ensures State() == old(State()).(verifyContexts := old(verifyContexts) - {requestId})
      ensures pending == old(pending) && log == old(log) + [Effect.DeleteVerifyContext(requestId)]
    {
      verifyContexts := verifyContexts - {requestId};
      log := log + [Effect.DeleteVerifyContext(requestId)];
    }

    method OnSuccess()
      modifies this
      ensures State() == old(State()) && pending == old(pending)
      ensures log == old(log) + [Succeeded]
    {
      log := log + [Succeeded];
    }

    method OnFailure(failure: Failure)
      modifies this
      ensures State() == old(State()) && pending == old(pending)
      ensures log == old(log) + [Failed(failure)]
    {
      log := log + [Failed(failure)];
    }

    // -------------------------------------------------------------------------
    // The approval
    // -------------------------------------------------------------------------

    /**
     * Approves pending request `id` with `cacaos` at time `now`; the relay
     * answers the subscribe with `subscribeOk` and the publish with
     * `publishOk`. Returns the trace.
     */
    method Approve(id: RequestId, cacaos: seq<Cacao>, now: int, subscribeOk: bool, publishOk: bool)
      returns (trace: seq<Milestone>)
      requires Valid()
      modifies this
      ensures var r := ApprovalSpec.Approve(env, selfMetadata, old(pending), old(State()), id, cacaos, now, subscribeOk, publishOk);
        State() == r.stores && log == old(log) + r.effects && trace == r.trace
      ensures pending == old(pending)
      ensures Valid()
    {
      ghost var s0 := State();
      trace := [Started];
      if id !in pending {
        InsertEvent(MissingRequestEvent);
        OnFailure(MissingRequest);
        return;
      }
      var req := pending[id];
      if req.expiry.Some? && req.expiry.value < now {
        RespondWithRequestExpired(req.topic, req.id);
        InsertEvent(RequestExpiredEvent);
        OnFailure(RequestExpired);
        return;
      }
      trace := trace + [NotExpired];
      if cacaos == [] {
        // the first CACAO is read here; on an empty list that read throws
        OnFailure(NoCacao);
        return;
      }
      var fromResources := env.resourceChains(cacaos[0].resources);
      var chains := if fromResources == [] then req.chains else fromResources;
      if !AllCaip2(env, chains) {
        InsertEvent(Caip2FailureEvent);
        OnFailure(ChainsNotCaip2);
        return;
      }
      trace := trace + [Caip2Compliant];
      if !AllEip155(env, chains) {
        InsertEvent(EvmFailureEvent);
        OnFailure(UnsupportedNamespace);
        return;
      }
      trace := trace + [EvmCompliant];
      assert trace + [TopicCreated] == DerivedTrace;
      trace := Establish(trace, req, id, cacaos, chains, subscribeOk, publishOk);
      ApprovalProperties.ApprovePreservesInv(env, selfMetadata, old(pending), s0, id, cacaos, now, subscribeOk, publishOk);
    }

    /**
     * The approval from key derivation on, for a request whose chains passed
     * both checks; extends the trace `prefix` kept so far.
     */
    method Establish(prefix: seq<Milestone>, req: PendingRequest, id: RequestId, cacaos: seq<Cacao>, chains: seq<ChainId>, subscribeOk: bool, publishOk: bool)
      returns (trace: seq<Milestone>)
      requires cacaos != []
      modifies this
      ensures !AllVerified(env, cacaos) ==>
        && State() == KeyedStores(old(State()))
        && log == old(log) + [GenerateKeyPair(old(nextKey)), Telemetry(InvalidCacaoEvent), Failed(SignatureInvalid)]
        && trace == prefix + [TopicCreated]
      ensures AllVerified(env, cacaos) ==>
        && State() == EstablishedStores(env, selfMetadata, req, old(State()), id, cacaos, chains, subscribeOk, publishOk)
        && log == old(log) + EstablishedEffects(env, selfMetadata, req, old(State()), id, cacaos, subscribeOk, publishOk)
        && trace == prefix + [TopicCreated] + CommitTrace(cacaos[0].methods != [], subscribeOk, publishOk)
      ensures pending == old(pending)
    {
      ghost var s0, log0 := State(), log;
      var serial, selfKey := GenerateAndStoreKeyPair();
      var symKey := env.agree(selfKey, req.requesterKey);
      var responseTopic := env.topicOf(req.requesterKey);
      var sessionTopic := env.topicOf(symKey);
      trace := prefix + [TopicCreated];
      if !AllVerified(env, cacaos) {
        InsertEvent(InvalidCacaoEvent);
        OnFailure(SignatureInvalid);
        return;
      }
      ghost var keyed, logKeyed := State(), log;
      var committed := Commit(req, id, cacaos, chains, selfKey, symKey, responseTopic, sessionTopic, subscribeOk, publishOk);
      trace := trace + committed;
      assert keyed == KeyedStores(s0) && logKeyed == log0 + [GenerateKeyPair(s0.nextKey)];
      AppendAssoc(log0, [GenerateKeyPair(s0.nextKey)],
                  CommitEffects(cacaos[0].methods != [], sessionTopic, responseTopic,
                                ApproveResponseOf(id, selfKey, selfMetadata, cacaos, req.requesterKey), req.topic, id, subscribeOk, publishOk));
      assert selfKey == SelfKey(env, s0) && symKey == SymKey(env, s0, req) && sessionTopic == SessionTopic(env, s0, req);
    }

    /**
     * The approval once every CACAO is verified: the session is persisted
     * when the first CACAO lists methods, then the relay steps run.
     */
    method Commit(req: PendingRequest, id: RequestId, cacaos: seq<Cacao>, chains: seq<ChainId>, selfKey: Key, symKey: Key,
                  responseTopic: Topic, sessionTopic: Topic, subscribeOk: bool, publishOk: bool)
      returns (trace: seq<Milestone>)
      requires cacaos != []
      modifies this
      ensures State() == Committed(env, selfMetadata, req, old(State()), id, cacaos, chains, selfKey, symKey, sessionTopic, subscribeOk, publishOk)
      ensures log == old(log) + CommitEffects(cacaos[0].methods != [], sessionTopic, responseTopic,
                                              ApproveResponseOf(id, selfKey, selfMetadata, cacaos, req.requesterKey),
                                              req.topic, id, subscribeOk, publishOk)
      ensures trace == CommitTrace(cacaos[0].methods != [], subscribeOk, publishOk)
      ensures pending == old(pending)
    {
      var stored := PersistSession(req, id, cacaos, chains, selfKey, sessionTopic);
      trace := [CacaosVerified] + (if stored then [SessionStored] else []);
      ghost var log1 := log;
      var response := ApproveResponse(id, selfKey, selfMetadata, cacaos, selfKey, req.requesterKey);
      var relayTrace := Relay(sessionTopic, symKey, responseTopic, response, req.topic, id, subscribeOk, publishOk);
      trace := trace + relayTrace;
      assert response == ApproveResponseOf(id, selfKey, selfMetadata, cacaos, req.requesterKey);
      AppendAssoc(old(log), PersistEffects(stored, sessionTopic, id),
                  RelayEffects(sessionTopic, responseTopic, response, req.topic, id, subscribeOk, publishOk));
    }

    /**
     * Stores the symmetric key, subscribes to the session topic and publishes
     * the response. Returns the trace it adds.
     */
    method Relay(sessionTopic: Topic, symKey: Key, responseTopic: Topic, response: ApproveResponse,
                 pairingTopic: Topic, id: RequestId, subscribeOk: bool, publishOk: bool)
      returns (trace: seq<Milestone>)
      modifies this
      ensures State() == Relayed(old(State()), sessionTopic, symKey, pairingTopic, id, subscribeOk, publishOk)
      ensures log == old(log) + RelayEffects(sessionTopic, responseTopic, response, pairingTopic, id, subscribeOk, publishOk)
      ensures trace == RelayTrace(subscribeOk, publishOk)
      ensures pending == old(pending)
    {
      var subscribeTrace, subscribeAnswer := SubscribeSessionTopic(sessionTopic, symKey, subscribeOk);
      var publishTrace, publishAnswer := PublishResponse(sessionTopic, responseTopic, response, pairingTopic, id, publishOk);
      // the callbacks' milestones land once the relay answers, after both calls were made
      trace := subscribeTrace + publishTrace + (subscribeAnswer + publishAnswer);
    }

    /**
     * Stores the symmetric key and subscribes to the session topic; a failed
     * subscribe is reported. Returns the trace added as the call is made, and
     * the one the success callback adds when the relay answers.
     */
    method SubscribeSessionTopic(sessionTopic: Topic, symKey: Key, subscribeOk: bool) returns (trace: seq<Milestone>, answer: seq<Milestone>)
      modifies this
      ensures State() == Subscribed(old(State()), sessionTopic, symKey, subscribeOk)
      ensures log == old(log) + SubscribeEffects(sessionTopic, subscribeOk)
      ensures trace == [Subscribing] && answer == SubscribeAnswer(subscribeOk)
      ensures pending == old(pending)
    {
      ghost var log0 := log;
      SetKey(symKey, sessionTopic);
      trace := [Subscribing];
      Subscribe(sessionTopic, subscribeOk);
      assert log == log0 + [Effect.SetKey(sessionTopic), Effect.Subscribe(sessionTopic)];
      if subscribeOk {
        answer := [SubscribeSucceeded];
      } else {
        answer := [];
        InsertEvent(SubscribeFailureEvent);
        OnFailure(SubscribeFailed);
      }
    }

    /**
     * Publishes the response; on success reports it, then activates the
     * pairing and drops the verify context; on failure removes the key and
     * the session of the session topic, then reports the failure. Returns
     * the trace added as the call is made, and the one the success callback
     * adds.
     */
    method PublishResponse(sessionTopic: Topic, responseTopic: Topic, response: ApproveResponse,
                           pairingTopic: Topic, id: RequestId, publishOk: bool) returns (trace: seq<Milestone>, answer: seq<Milestone>)
      modifies this
      ensures State() == Published(old(State()), sessionTopic, pairingTopic, id, publishOk)
      ensures log == old(log) + PublishEffects(sessionTopic, responseTopic, response, pairingTopic, id, publishOk)
      ensures trace == [Publishing] && answer == PublishAnswer(publishOk)
      ensures pending == old(pending)
    {
      ghost var log0 := log;
      trace := [Publishing];
      Publish(responseTopic, response);
      answer := [];
      if publishOk {
        answer := [PublishSucceeded];
        OnSuccess();
        Activate(pairingTopic);
        DeleteVerifyContext(id);
      } else {
        RemoveKeys(sessionTopic);
        DeleteSession(sessionTopic);
        InsertEvent(PublishFailureEvent);
        OnFailure(PublishFailed);
      }
      assert log == log0 + [Effect.Publish(responseTopic, response)] + PublishOutcome(publishOk, sessionTopic, pairingTopic, id);
    }

    /**
     * Builds the account list and, when the first CACAO lists methods, stores
     * both metadata records and the authenticated session under `topic`.
     */
    method PersistSession(req: PendingRequest, id: RequestId, cacaos: seq<Cacao>, chains: seq<ChainId>, selfKey: Key, topic: Topic)
      returns (stored: bool)
      requires cacaos != []
      modifies this
      ensures stored <==> cacaos[0].methods != []
      ensures State() == if stored then Persist(old(State()), AssembleSession(env, selfMetadata, req, cacaos, chains, selfKey, topic), id, req.requesterMetadata)
                         else old(State())
      ensures pending == old(pending) && log == old(log) + PersistEffects(stored, topic, id)
    {
      var addresses := Distinct(IssuerAddresses(env, cacaos));
      var accounts := BuildAccounts(chains, addresses);
      var namespace := env.issuerNamespace(cacaos[0].issuer);
      var methods := cacaos[0].methods;
      stored := methods != [];
      if stored {
        var session := Session(topic, req.requesterKey, req.requesterMetadata, selfKey, selfMetadata, selfKey,
                               map[namespace := Proposal(chains, methods, SessionEvents)],
                               map[namespace := GrantedNamespace(accounts, chains, methods, SessionEvents)],
                               req.topic);
        assert session == AssembleSession(env, selfMetadata, req, cacaos, chains, selfKey, topic);
        InsertMetadata(topic, selfMetadata, SelfApp);
        InsertMetadata(topic, req.requesterMetadata, PeerApp);
        InsertSession(session, id);
      }
    }
  }
}
