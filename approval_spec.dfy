/**
 * The session-authenticate approval as a function of its inputs and of the
 * stores it changes: which checks it makes in which order, what it persists,
 * which collaborators and callbacks it calls, and the trace it keeps. The
 * class in module Approver performs the same steps one collaborator call at a
 * time and is proved to end where this function says.
 */
module ApprovalSpec {
  import opened Caip
  import opened SignTypes

  /** The only chain namespace this version accepts. */
  const SupportedNamespace: string := "eip155"

  /** The events every authenticated session grants; they are not negotiated. */
  const SessionEvents: seq<string> := ["chainChanged", "accountsChanged"]

  /** The outcome of one approval: the new stores, the calls made, the trace. */
  datatype Run = Run(stores: Stores, effects: seq<Effect>, trace: seq<Milestone>)

  predicate Expired(req: PendingRequest, now: int) {
    req.expiry.Some? && req.expiry.value < now
  }

  /** The chains taken from the resources of the first CACAO, or else the requested ones. */
  function ResolveChains(fromResources: seq<ChainId>, requested: seq<ChainId>): (r: seq<ChainId>)
    ensures fromResources != [] ==> r == fromResources
    ensures fromResources == [] ==> r == requested
    ensures r == [] <==> fromResources == [] && requested == []
  {
    if fromResources == [] then requested else fromResources
  }

  function Chains(env: Env, req: PendingRequest, cacaos: seq<Cacao>): (r: seq<ChainId>)
    requires cacaos != []
    ensures forall c :: c in r ==> c in env.resourceChains(cacaos[0].resources) || c in req.chains
    ensures env.resourceChains(cacaos[0].resources) != [] ==> r == env.resourceChains(cacaos[0].resources)
    ensures r == [] ==> req.chains == []
  {
    ResolveChains(env.resourceChains(cacaos[0].resources), req.chains)
  }

  predicate AllCaip2(env: Env, chains: seq<ChainId>) {
    forall c :: c in chains ==> env.isCaip2Compliant(c)
  }

  predicate AllEip155(env: Env, chains: seq<ChainId>) {
    forall c :: c in chains ==> env.namespaceOf(c) == SupportedNamespace
  }

  predicate AllVerified(env: Env, cacaos: seq<Cacao>) {
    forall c :: c in cacaos ==> env.verify(c)
  }

  /** The address of every CACAO's issuer, in CACAO order. */
  function IssuerAddresses(env: Env, cacaos: seq<Cacao>): seq<Address> {
    seq(|cacaos|, i requires 0 <= i < |cacaos| => env.issuerAddress(cacaos[i].issuer))
  }

  /** The request exists, has not expired and passes every check made before the relay is used. */
  predicate Admissible(env: Env, pending: map<RequestId, PendingRequest>, id: RequestId, cacaos: seq<Cacao>, now: int) {
    && id in pending
    && !Expired(pending[id], now)
    && cacaos != []
    && AllCaip2(env, Chains(env, pending[id], cacaos))
    && AllEip155(env, Chains(env, pending[id], cacaos))
    && AllVerified(env, cacaos)
  }

  // The keys and topics derived for an approval that starts from stores `s`.

  function SelfKey(env: Env, s: Stores): Key {
    env.publicKeyOf(s.nextKey)
  }

  function SymKey(env: Env, s: Stores, req: PendingRequest): Key {
    env.agree(SelfKey(env, s), req.requesterKey)
  }

  function SessionTopic(env: Env, s: Stores, req: PendingRequest): Topic {
    env.topicOf(SymKey(env, s, req))
  }

  function ResponseTopic(env: Env, req: PendingRequest): Topic {
    env.topicOf(req.requesterKey)
  }

  /**
   * The authenticated session: one namespace, the issuer namespace of the
   * first CACAO, required and granted with the same chains, methods and
   * events; its accounts pair every chain with every distinct issuer address.
   */
  function AssembleSession(env: Env, selfMetadata: Metadata, req: PendingRequest, cacaos: seq<Cacao>,
                           chains: seq<ChainId>, selfKey: Key, topic: Topic): (r: Session)
    requires cacaos != []
    ensures r.topic == topic && r.pairingTopic == req.topic
    ensures var ns := env.issuerNamespace(cacaos[0].issuer);
      && r.required.Keys == r.granted.Keys == {ns}
      && r.required[ns].chains == r.granted[ns].chains == chains
      && r.required[ns].methods == r.granted[ns].methods == cacaos[0].methods
      && r.required[ns].events == r.granted[ns].events == SessionEvents
      && r.granted[ns].accounts == SessionAccounts(env, cacaos, chains)
  {
    var accounts := SessionAccounts(env, cacaos, chains);
    var namespace := env.issuerNamespace(cacaos[0].issuer);
    var methods := cacaos[0].methods;
    Session(topic, req.requesterKey, req.requesterMetadata, selfKey, selfMetadata, selfKey,
            map[namespace := Proposal(chains, methods, SessionEvents)],
            map[namespace := GrantedNamespace(accounts, chains, methods, SessionEvents)],
            req.topic)
  }

  /** Every chain paired with every distinct issuer address, chain-major. */
  function SessionAccounts(env: Env, cacaos: seq<Cacao>, chains: seq<ChainId>): (r: seq<AccountId>)
    ensures |r| == |chains| * |Distinct(IssuerAddresses(env, cacaos))|
    ensures chains != [] && cacaos != [] ==> r != []
  {
    var addresses := Distinct(IssuerAddresses(env, cacaos));
    CrossProductLength(chains, addresses);
    assert cacaos != [] ==> IssuerAddresses(env, cacaos)[0] in addresses;
    CrossProduct(chains, addresses)
  }

  function ApproveResponseOf(id: RequestId, selfKey: Key, selfMetadata: Metadata, cacaos: seq<Cacao>, peerKey: Key): ApproveResponse {
    ApproveResponse(id, selfKey, selfMetadata, cacaos, selfKey, peerKey)
  }

  /** Both metadata records and the session, stored under the session's topic. */
  function Persist(s: Stores, session: Session, id: RequestId, peerMetadata: Metadata): Stores {
    s.(metadata := s.metadata[(session.topic, SelfApp) := session.selfMetadata][(session.topic, PeerApp) := peerMetadata],
       sessions := s.sessions[session.topic := StoredSession(session, id)])
  }

  /** What a failed publish undoes: the symmetric key and the session of the topic. */
  function Rollback(s: Stores, topic: Topic): (r: Stores)
    ensures topic !in r.symKeys && topic !in r.sessions
    ensures forall t :: t != topic ==> (t in r.symKeys <==> t in s.symKeys) && (t in r.sessions <==> t in s.sessions)
    ensures forall t :: t in r.sessions ==> r.sessions[t] == s.sessions[t]
    ensures forall t :: t in r.symKeys ==> r.symKeys[t] == s.symKeys[t]
    ensures r == s.(symKeys := r.symKeys, sessions := r.sessions)
    ensures Inv(s) ==> Inv(r)
  {
    s.(symKeys := s.symKeys - {topic}, sessions := s.sessions - {topic})
  }

  /**
   * One call of the approval for request `id` and CACAOs `cacaos`, at time
   * `now`, when the relay's subscribe and publish report `subscribeOk` and
   * `publishOk`.
   */
  function Approve(env: Env, selfMetadata: Metadata, pending: map<RequestId, PendingRequest>, s: Stores,
                   id: RequestId, cacaos: seq<Cacao>, now: int, subscribeOk: bool, publishOk: bool): (r: Run)
    ensures |r.trace| > 0 && r.trace[0] == Started
    ensures !Admissible(env, pending, id, cacaos, now) ==> r.stores == s || r.stores == KeyedStores(s)
  {
    if id !in pending then
      Run(s, [Telemetry(MissingRequestEvent), Failed(MissingRequest)], [Started])
    else
      var req := pending[id];
      if Expired(req, now) then
        Run(s, [RespondWithError(req.topic, req.id, RequestExpiredError), Telemetry(RequestExpiredEvent), Failed(RequestExpired)], [Started])
      else if cacaos == [] then
        Run(s, [Failed(NoCacao)], [Started, NotExpired])
      else
        var chains := Chains(env, req, cacaos);
        if !AllCaip2(env, chains) then
          Run(s, [Telemetry(Caip2FailureEvent), Failed(ChainsNotCaip2)], [Started, NotExpired])
        else if !AllEip155(env, chains) then
          Run(s, [Telemetry(EvmFailureEvent), Failed(UnsupportedNamespace)], [Started, NotExpired, Caip2Compliant])
        else
          Establish(env, selfMetadata, req, s, id, cacaos, chains, subscribeOk, publishOk)
  }

  /** The approval from key derivation on, once the request and its chains have been accepted. */
  function Establish(env: Env, selfMetadata: Metadata, req: PendingRequest, s: Stores, id: RequestId,
                     cacaos: seq<Cacao>, chains: seq<ChainId>, subscribeOk: bool, publishOk: bool): Run
    requires cacaos != []
  {
    if !AllVerified(env, cacaos) then
      Run(KeyedStores(s), [GenerateKeyPair(s.nextKey), Telemetry(InvalidCacaoEvent), Failed(SignatureInvalid)], DerivedTrace)
    else
      Run(EstablishedStores(env, selfMetadata, req, s, id, cacaos, chains, subscribeOk, publishOk),
          EstablishedEffects(env, selfMetadata, req, s, id, cacaos, subscribeOk, publishOk),
          DerivedTrace + CommitTrace(cacaos[0].methods != [], subscribeOk, publishOk))
  }

  /** The trace once the key pair and the session topic exist. */
  const DerivedTrace: seq<Milestone> := [Started, NotExpired, Caip2Compliant, EvmCompliant, TopicCreated]

  /** The stores once key pair `s.nextKey` has been generated and stored. */
  function KeyedStores(s: Stores): Stores {
    s.(ownKeys := s.ownKeys + {s.nextKey}, nextKey := s.nextKey + 1)
  }

  /** The stores after verified CACAOs: a new key pair, then the commit steps. */
  function EstablishedStores(env: Env, selfMetadata: Metadata, req: PendingRequest, s: Stores, id: RequestId,
                             cacaos: seq<Cacao>, chains: seq<ChainId>, subscribeOk: bool, publishOk: bool): Stores
    requires cacaos != []
  {
    Committed(env, selfMetadata, req, KeyedStores(s), id, cacaos, chains, SelfKey(env, s), SymKey(env, s, req),
              SessionTopic(env, s, req), subscribeOk, publishOk)
  }

  /**
   * The stores after the commit steps, from `s`: the session and both
   * metadata records when the first CACAO lists methods, then the relay steps.
   */
  function Committed(env: Env, selfMetadata: Metadata, req: PendingRequest, s: Stores, id: RequestId,
                     cacaos: seq<Cacao>, chains: seq<ChainId>, selfKey: Key, symKey: Key, sessionTopic: Topic,
                     subscribeOk: bool, publishOk: bool): Stores
    requires cacaos != []
  {
    var stored :=
      if cacaos[0].methods != [] then
        Persist(s, AssembleSession(env, selfMetadata, req, cacaos, chains, selfKey, sessionTopic), id, req.requesterMetadata)
      else s;
    Relayed(stored, sessionTopic, symKey, req.topic, id, subscribeOk, publishOk)
  }

  /**
   * The stores after the relay steps: the symmetric key stored under the
   * session topic, the subscription when it succeeded, then the pairing
   * activated and the verify context dropped, or the key and the session
   * rolled back.
   */
  function Relayed(s: Stores, sessionTopic: Topic, symKey: Key, pairingTopic: Topic, id: RequestId,
                   subscribeOk: bool, publishOk: bool): Stores
  {
    Published(Subscribed(s, sessionTopic, symKey, subscribeOk), sessionTopic, pairingTopic, id, publishOk)
  }

  /** The symmetric key stored under the session topic, and the subscription when it succeeded. */
  function Subscribed(s: Stores, sessionTopic: Topic, symKey: Key, subscribeOk: bool): Stores {
    var withKey := s.(symKeys := s.symKeys[sessionTopic := symKey]);
    if subscribeOk then withKey.(subscriptions := withKey.subscriptions + {sessionTopic}) else withKey
  }

  /** The pairing activated and the verify context dropped, or the key and the session rolled back. */
  function Published(s: Stores, sessionTopic: Topic, pairingTopic: Topic, id: RequestId, publishOk: bool): Stores {
    if publishOk then s.(activePairings := s.activePairings + {pairingTopic}, verifyContexts := s.verifyContexts - {id})
    else Rollback(s, sessionTopic)
  }

  /** The calls made after verified CACAOs, in order. */
  function EstablishedEffects(env: Env, selfMetadata: Metadata, req: PendingRequest, s: Stores, id: RequestId,
                              cacaos: seq<Cacao>, subscribeOk: bool, publishOk: bool): seq<Effect>
    requires cacaos != []
  {
    [GenerateKeyPair(s.nextKey)]
    + CommitEffects(cacaos[0].methods != [], SessionTopic(env, s, req), ResponseTopic(env, req),
                    ApproveResponseOf(id, SelfKey(env, s), selfMetadata, cacaos, req.requesterKey), req.topic, id,
                    subscribeOk, publishOk)
  }

  /** The inserts, when `persist`, then the relay calls. */
  function CommitEffects(persist: bool, sessionTopic: Topic, responseTopic: Topic, response: ApproveResponse,
                         pairingTopic: Topic, id: RequestId, subscribeOk: bool, publishOk: bool): seq<Effect>
  {
    PersistEffects(persist, sessionTopic, id)
    + RelayEffects(sessionTopic, responseTopic, response, pairingTopic, id, subscribeOk, publishOk)
  }

  /** Storing the symmetric key, the subscribe, the publish and what follows each. */
  function RelayEffects(sessionTopic: Topic, responseTopic: Topic, response: ApproveResponse,
                        pairingTopic: Topic, id: RequestId, subscribeOk: bool, publishOk: bool): seq<Effect>
  {
    SubscribeEffects(sessionTopic, subscribeOk) + PublishEffects(sessionTopic, responseTopic, response, pairingTopic, id, publishOk)
  }

  function SubscribeEffects(sessionTopic: Topic, subscribeOk: bool): seq<Effect> {
    [SetKey(sessionTopic), Subscribe(sessionTopic)] + SubscribeOutcome(subscribeOk)
  }

  function PublishEffects(sessionTopic: Topic, responseTopic: Topic, response: ApproveResponse,
                          pairingTopic: Topic, id: RequestId, publishOk: bool): seq<Effect>
  {
    [Publish(responseTopic, response)] + PublishOutcome(publishOk, sessionTopic, pairingTopic, id)
  }

  /** The trace after verified CACAOs. */
  function CommitTrace(persist: bool, subscribeOk: bool, publishOk: bool): seq<Milestone> {
    [CacaosVerified]
    + (if persist then [SessionStored] else [])
    + RelayTrace(subscribeOk, publishOk)
  }

  /**
   * The trace of the relay steps: Subscribing and Publishing are added as the
   * subscribe and the publish are made; the success milestones are added
   * later, by the relay's callbacks, once the relay answers.
   */
  function RelayTrace(subscribeOk: bool, publishOk: bool): seq<Milestone> {
    [Subscribing, Publishing] + AnswerTrace(subscribeOk, publishOk)
  }

  /** What the subscribe and publish success callbacks add to the trace. */
  function AnswerTrace(subscribeOk: bool, publishOk: bool): seq<Milestone> {
    SubscribeAnswer(subscribeOk) + PublishAnswer(publishOk)
  }

  function SubscribeAnswer(subscribeOk: bool): seq<Milestone> {
    if subscribeOk then [SubscribeSucceeded] else []
  }

  function PublishAnswer(publishOk: bool): seq<Milestone> {
    if publishOk then [PublishSucceeded] else []
  }

  /** The metadata and session inserts, made only when the first CACAO lists methods. */
  function PersistEffects(persist: bool, topic: Topic, id: RequestId): seq<Effect> {
    if persist then [InsertMetadata(topic, SelfApp), InsertMetadata(topic, PeerApp), InsertSession(topic, id)] else []
  }

  /** What a failed subscribe adds: an error event and the failure callback. */
  function SubscribeOutcome(subscribeOk: bool): seq<Effect> {
    if subscribeOk then [] else [Telemetry(SubscribeFailureEvent), Failed(SubscribeFailed)]
  }

  /**
   * After the publish: success, then pairing activation and verify-context
   * deletion; or the rollback, an error event and the failure callback.
   */
  function PublishOutcome(publishOk: bool, sessionTopic: Topic, pairingTopic: Topic, id: RequestId): seq<Effect> {
    if publishOk then [Succeeded, Activate(pairingTopic), DeleteVerifyContext(id)]
    else [RemoveKeys(sessionTopic), DeleteSession(sessionTopic), Telemetry(PublishFailureEvent), Failed(PublishFailed)]
  }

  /** The callback calls among `effects`, in order. */
  function Callbacks(effects: seq<Effect>): seq<Effect> {
    if effects == [] then []
    else (if effects[0].IsCallback() then [effects[0]] else []) + Callbacks(effects[1..])
  }
}
