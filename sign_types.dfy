/**
 * The values the session-authenticate approval reads and writes: the pending
 * request, the signed authorization objects (CACAOs, CAIP-74), the session it
 * assembles, the stores it changes, and the collaborators it calls but whose
 * code is not modelled.
 */
module SignTypes {
  import opened Caip

  datatype Option<T> = None | Some(value: T)

  type RequestId = int   // a JSON-RPC id (Kotlin `Long`)
  type Topic = string
  type Key = string      // hex of a public or symmetric key
  type Metadata = string // an app's metadata record, compared as a whole

  /** A signed authorization object, reduced to the payload fields the approval reads. */
  datatype Cacao = Cacao(issuer: string, methods: seq<string>, resources: seq<string>, signature: string)

  /** The pending `wc_sessionAuthenticate` request, as the JSON-RPC history holds it. */
  datatype PendingRequest = PendingRequest(
    id: RequestId,
    topic: Topic,                // the pairing topic the request arrived on
    expiry: Option<int>,         // seconds
    chains: seq<ChainId>,        // authPayload.chains
    requesterKey: Key,
    requesterMetadata: Metadata)

  datatype Proposal = Proposal(chains: seq<ChainId>, methods: seq<string>, events: seq<string>)
  datatype GrantedNamespace = GrantedNamespace(accounts: seq<AccountId>, chains: seq<ChainId>, methods: seq<string>, events: seq<string>)

  /** The authenticated session the approval persists. */
  datatype Session = Session(
    topic: Topic,
    peerKey: Key,
    peerMetadata: Metadata,
    selfKey: Key,
    selfMetadata: Metadata,
    controllerKey: Key,
    required: map<string, Proposal>,
    granted: map<string, GrantedNamespace>,
    pairingTopic: Topic)

  /** A session as the session store keeps it: with the id of the request that created it. */
  datatype StoredSession = StoredSession(session: Session, requestId: RequestId)

  datatype Role = SelfApp | PeerApp

  /** What the failure callback is called with. */
  datatype Failure =
    | MissingRequest        // no pending request with this id
    | RequestExpired        // RequestExpiredException
    | NoCacao               // `first()` on an empty list
    | ChainsNotCaip2
    | UnsupportedNamespace  // a chain outside eip155
    | SignatureInvalid
    | SubscribeFailed
    | PublishFailed

  /** The protocol error sent back on an expired request. */
  datatype RpcError = RequestExpiredError

  /** The milestone tags of the approval's trace, in the order the flow reaches them. */
  datatype Milestone =
    | Started
    | NotExpired
    | Caip2Compliant
    | EvmCompliant
    | TopicCreated
    | CacaosVerified
    | SessionStored
    | Subscribing
    | Publishing
    | SubscribeSucceeded
    | PublishSucceeded

  /** The error events handed to the telemetry store. */
  datatype ErrorEvent =
    | MissingRequestEvent
    | RequestExpiredEvent
    | Caip2FailureEvent
    | EvmFailureEvent
    | InvalidCacaoEvent
    | SubscribeFailureEvent
    | PublishFailureEvent

  /** The approval response: the responder's key and metadata and all the CACAOs. */
  datatype ApproveResponse = ApproveResponse(
    id: RequestId,
    responderKey: Key,
    responderMetadata: Metadata,
    cacaos: seq<Cacao>,
    sender: Key,       // the two participants the envelope is encrypted for
    receiver: Key)

  /** One call the approval makes to a collaborator or to a callback, in call order. */
  datatype Effect =
    | RespondWithError(topic: Topic, requestId: RequestId, error: RpcError)
    | GenerateKeyPair(serial: nat)
    | InsertMetadata(topic: Topic, role: Role)
    | InsertSession(topic: Topic, requestId: RequestId)
    | SetKey(topic: Topic)
    | Subscribe(topic: Topic)
    | Publish(topic: Topic, response: ApproveResponse)
    | RemoveKeys(topic: Topic)
    | DeleteSession(topic: Topic)
    | Activate(pairingTopic: Topic)
    | DeleteVerifyContext(requestId: RequestId)
    | Telemetry(event: ErrorEvent)
    | Succeeded
    | Failed(failure: Failure)
  {
    predicate IsCallback() { Succeeded? || Failed? }
  }

  /**
   * The collaborators whose code is not part of this model, as functions:
   * `getChains` on a CACAO's resources, CAIP-2 compliance, the namespace of a
   * chain id, CACAO signature checking, the address and namespace of an issuer,
   * the public half of the n-th generated X25519 key pair, key agreement and
   * topic derivation.
   */
  datatype Env = Env(
    resourceChains: seq<string> -> seq<ChainId>,
    isCaip2Compliant: ChainId -> bool,
    namespaceOf: ChainId -> string,
    verify: Cacao -> bool,
    issuerAddress: string -> Address,
    issuerNamespace: string -> string,
    publicKeyOf: nat -> Key,
    agree: (Key, Key) -> Key,
    topicOf: Key -> Topic)

  /**
   * The persistent state the approval changes: the key store (the serials of
   * the generated key pairs and the symmetric keys by topic), the metadata and
   * session stores, the relay's subscriptions, the active pairings and the
   * verify contexts.
   */
  datatype Stores = Stores(
    ownKeys: set<nat>,
    nextKey: nat,
    symKeys: map<Topic, Key>,
    metadata: map<(Topic, Role), Metadata>,
    sessions: map<Topic, StoredSession>,
    subscriptions: set<Topic>,
    activePairings: set<Topic>,
    verifyContexts: set<RequestId>)

  /**
   * What a store state promises: every generated key pair has a serial below
   * `nextKey` (so the next one is fresh), and every persisted session sits
   * under its own topic, next to its symmetric key and both its metadata records.
   */
  predicate Inv(s: Stores) {
    && (forall k :: k in s.ownKeys ==> k < s.nextKey)
    && (forall t :: t in s.sessions ==>
          && s.sessions[t].session.topic == t
          && t in s.symKeys
          && (t, SelfApp) in s.metadata
          && (t, PeerApp) in s.metadata)
  }

  /** Appending to a log in two steps or in one gives the same log. */
  lemma AppendAssoc<T>(a: seq<T>, b: seq<T>, c: seq<T>)
    ensures (a + b) + c == a + (b + c)
  {
  }
}
