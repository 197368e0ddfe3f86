/**
 * What one call of the approval guarantees, stated about ApprovalSpec.Approve
 * for all inputs: which failure stops the flow where, which side effects
 * happen and in which order, which callbacks fire, and what the stores hold
 * afterwards.
 */
module ApprovalProperties {
  import opened Caip
  import opened SignTypes
  import opened ApprovalSpec

  // ---------------------------------------------------------------------------
  // Callbacks
  // ---------------------------------------------------------------------------

  lemma {:induction false} CallbacksAppend(a: seq<Effect>, b: seq<Effect>)
    ensures Callbacks(a + b) == Callbacks(a) + Callbacks(b)
  {
    if a == [] {
      assert a + b == b;
    } else {
      var head: seq<Effect> := if a[0].IsCallback() then [a[0]] else [];
      assert (a + b)[0] == a[0] && (a + b)[1..] == a[1..] + b;
      assert Callbacks(a + b) == head + Callbacks(a[1..] + b);
      CallbacksAppend(a[1..], b);
      AppendAssoc(head, Callbacks(a[1..]), Callbacks(b));
    }
  }

  lemma {:induction false} CallbacksNone(effects: seq<Effect>)
    requires forall e :: e in effects ==> !e.IsCallback()
    ensures Callbacks(effects) == []
  {
    if effects != [] {
      assert effects[0] in effects;
      CallbacksNone(effects[1..]);
    }
  }

  /** A run that stops at a failure has called that failure callback and no other. */
  lemma CallbacksOfFailure(before: seq<Effect>, f: Failure)
    requires forall e :: e in before ==> !e.IsCallback()
    ensures Callbacks(before + [Failed(f)]) == [Failed(f)]
  {
    CallbacksNone(before);
    CallbacksAppend(before, [Failed(f)]);
  }

  lemma SubscribeOutcomeCallbacks(subscribeOk: bool)
    ensures Callbacks(SubscribeOutcome(subscribeOk)) == if subscribeOk then [] else [Failed(SubscribeFailed)]
  {
    if subscribeOk {
      CallbacksNone(SubscribeOutcome(subscribeOk));
    } else {
      CallbacksOfFailure([Telemetry(SubscribeFailureEvent)], SubscribeFailed);
    }
  }

  lemma PublishOutcomeCallbacks(publishOk: bool, sessionTopic: Topic, pairingTopic: Topic, id: RequestId)
    ensures Callbacks(PublishOutcome(publishOk, sessionTopic, pairingTopic, id)) == [if publishOk then Succeeded else Failed(PublishFailed)]
  {
    var d := PublishOutcome(publishOk, sessionTopic, pairingTopic, id);
    if publishOk {
      assert d == [Succeeded] + d[1..];
      CallbacksNone(d[1..]);
      CallbacksAppend([Succeeded], d[1..]);
    } else {
      assert d == d[..3] + [Failed(PublishFailed)];
      CallbacksOfFailure(d[..3], PublishFailed);
    }
  }

  /** The relay calls report the subscribe failure, if any, then the publish outcome. */
  lemma RelayCallbacks(sessionTopic: Topic, responseTopic: Topic, response: ApproveResponse,
                       pairingTopic: Topic, id: RequestId, subscribeOk: bool, publishOk: bool)
    ensures Callbacks(RelayEffects(sessionTopic, responseTopic, response, pairingTopic, id, subscribeOk, publishOk))
         == (if subscribeOk then [] else [Failed(SubscribeFailed)]) + [if publishOk then Succeeded else Failed(PublishFailed)]
  {
    var a := [SetKey(sessionTopic), Subscribe(sessionTopic)];
    var b := SubscribeOutcome(subscribeOk);
    var c := [Publish(responseTopic, response)];
    var d := PublishOutcome(publishOk, sessionTopic, pairingTopic, id);
    assert RelayEffects(sessionTopic, responseTopic, response, pairingTopic, id, subscribeOk, publishOk) == (a + b) + (c + d);
    CallbacksAppend(a + b, c + d);
    CallbacksAppend(a, b);
    CallbacksAppend(c, d);
    assert Callbacks(a) == [] && Callbacks(c) == [];
    SubscribeOutcomeCallbacks(subscribeOk);
    PublishOutcomeCallbacks(publishOk, sessionTopic, pairingTopic, id);
    assert Callbacks(a + b) == Callbacks(b) && Callbacks(c + d) == Callbacks(d);
  }

  /** Key generation and the inserts call no callback. */
  lemma KeyAndInsertsCallNothing(serial: nat, persist: bool, t: Topic, id: RequestId)
    ensures Callbacks([GenerateKeyPair(serial)] + PersistEffects(persist, t, id)) == []
  {
    if persist {
      assert [GenerateKeyPair(serial)] + PersistEffects(persist, t, id)
          == [GenerateKeyPair(serial), InsertMetadata(t, SelfApp), InsertMetadata(t, PeerApp), InsertSession(t, id)];
      CallbacksNone([GenerateKeyPair(serial), InsertMetadata(t, SelfApp), InsertMetadata(t, PeerApp), InsertSession(t, id)]);
    } else {
      assert [GenerateKeyPair(serial)] + PersistEffects(persist, t, id) == [GenerateKeyPair(serial)];
    }
  }

  /** Past the signature check the callbacks are the subscribe failure, if any, then the publish outcome. */
  lemma EstablishedCallbacks(env: Env, selfMetadata: Metadata, req: PendingRequest, s: Stores, id: RequestId,
                             cacaos: seq<Cacao>, subscribeOk: bool, publishOk: bool)
    requires cacaos != []
    ensures Callbacks(EstablishedEffects(env, selfMetadata, req, s, id, cacaos, subscribeOk, publishOk))
         == (if subscribeOk then [] else [Failed(SubscribeFailed)]) + [if publishOk then Succeeded else Failed(PublishFailed)]
  {
    var t, response := SessionTopic(env, s, req), ApproveResponseOf(id, SelfKey(env, s), selfMetadata, cacaos, req.requesterKey);
    var persist := PersistEffects(cacaos[0].methods != [], t, id);
    var relay := RelayEffects(t, ResponseTopic(env, req), response, req.topic, id, subscribeOk, publishOk);
    assert EstablishedEffects(env, selfMetadata, req, s, id, cacaos, subscribeOk, publishOk)
        == ([GenerateKeyPair(s.nextKey)] + persist) + relay;
    CallbacksAppend([GenerateKeyPair(s.nextKey)] + persist, relay);
    KeyAndInsertsCallNothing(s.nextKey, cacaos[0].methods != [], t, id);
    RelayCallbacks(t, ResponseTopic(env, req), response, req.topic, id, subscribeOk, publishOk);
  }

  /** The effects of a call that touches no store: only telemetry, an error reply and callbacks. */
  predicate StoresUntouched(effects: seq<Effect>) {
    forall e :: e in effects ==> e.Telemetry? || e.RespondWithError? || e.IsCallback()
  }

  /** A request that is not admissible gets exactly one callback, a failure. */
  lemma RejectedCallbacks(env: Env, selfMetadata: Metadata, pending: map<RequestId, PendingRequest>, s: Stores,
                          id: RequestId, cacaos: seq<Cacao>, now: int, subscribeOk: bool, publishOk: bool)
    requires !Admissible(env, pending, id, cacaos, now)
    ensures var cbs := Callbacks(Approve(env, selfMetadata, pending, s, id, cacaos, now, subscribeOk, publishOk).effects);
      |cbs| == 1 && cbs[0].Failed?
  {
    var effects := Approve(env, selfMetadata, pending, s, id, cacaos, now, subscribeOk, publishOk).effects;
    var before, f;
    if id !in pending {
      before, f := [Telemetry(MissingRequestEvent)], MissingRequest;
    } else if Expired(pending[id], now) {
      before, f := [RespondWithError(pending[id].topic, pending[id].id, RequestExpiredError), Telemetry(RequestExpiredEvent)], RequestExpired;
    } else if cacaos == [] {
      before, f := [], NoCacao;
    } else if !AllCaip2(env, Chains(env, pending[id], cacaos)) {
      before, f := [Telemetry(Caip2FailureEvent)], ChainsNotCaip2;
    } else if !AllEip155(env, Chains(env, pending[id], cacaos)) {
      before, f := [Telemetry(EvmFailureEvent)], UnsupportedNamespace;
    } else {
      before, f := [GenerateKeyPair(s.nextKey), Telemetry(InvalidCacaoEvent)], SignatureInvalid;
    }
    assert effects == before + [Failed(f)];
    CallbacksOfFailure(before, f);
  }


  /**
   * Exactly one callback fires, except when the relay's subscribe fails on an
   * admissible request: then the subscribe failure is reported as well as the
   * publish outcome. The success callback fires exactly when the request is
   * admissible and the publish succeeds.
   */
  lemma CallbackDelivery(env: Env, selfMetadata: Metadata, pending: map<RequestId, PendingRequest>, s: Stores,
                         id: RequestId, cacaos: seq<Cacao>, now: int, subscribeOk: bool, publishOk: bool)
    ensures var cbs := Callbacks(Approve(env, selfMetadata, pending, s, id, cacaos, now, subscribeOk, publishOk).effects);
      && (Succeeded in cbs <==> Admissible(env, pending, id, cacaos, now) && publishOk)
      && (Admissible(env, pending, id, cacaos, now) && !subscribeOk ==>
            cbs == [Failed(SubscribeFailed), if publishOk then Succeeded else Failed(PublishFailed)])
      && (!(Admissible(env, pending, id, cacaos, now) && !subscribeOk) ==> |cbs| == 1)
  {
    var effects := Approve(env, selfMetadata, pending, s, id, cacaos, now, subscribeOk, publishOk).effects;
    if Admissible(env, pending, id, cacaos, now) {
      AdmissibleRun(env, selfMetadata, pending, s, id, cacaos, now, subscribeOk, publishOk);
      assert effects == EstablishedEffects(env, selfMetadata, pending[id], s, id, cacaos, subscribeOk, publishOk);
      EstablishedCallbacks(env, selfMetadata, pending[id], s, id, cacaos, subscribeOk, publishOk);
    } else {
      RejectedCallbacks(env, selfMetadata, pending, s, id, cacaos, now, subscribeOk, publishOk);
      assert Callbacks(effects)[0] != Succeeded;
    }
  }

  // ---------------------------------------------------------------------------
  // Failures before key derivation
  // ---------------------------------------------------------------------------

  /** An unknown request id fails at once: nothing is stored, generated, subscribed or sent. */
  lemma MissingRequestChangesNothing(env: Env, selfMetadata: Metadata, pending: map<RequestId, PendingRequest>, s: Stores,
                                     id: RequestId, cacaos: seq<Cacao>, now: int, subscribeOk: bool, publishOk: bool)
    requires id !in pending
    ensures var r := Approve(env, selfMetadata, pending, s, id, cacaos, now, subscribeOk, publishOk);
      && r.stores == s
      && StoresUntouched(r.effects)
      && (forall e :: e in r.effects ==> !e.RespondWithError?)
      && Callbacks(r.effects) == [Failed(MissingRequest)]
  {
    CallbacksOfFailure([Telemetry(MissingRequestEvent)], MissingRequest);
  }

  /**
   * An expired request is answered with exactly one RequestExpired error, on
   * the request's own topic and id, and fails; nothing else happens.
   */
  lemma ExpiredRequestIsRejected(env: Env, selfMetadata: Metadata, pending: map<RequestId, PendingRequest>, s: Stores,
                                 id: RequestId, cacaos: seq<Cacao>, now: int, subscribeOk: bool, publishOk: bool)
    requires id in pending && Expired(pending[id], now)
    ensures var r := Approve(env, selfMetadata, pending, s, id, cacaos, now, subscribeOk, publishOk);
      && r.stores == s
      && StoresUntouched(r.effects)
      && r.effects[0] == RespondWithError(pending[id].topic, pending[id].id, RequestExpiredError)
      && (forall i :: 0 < i < |r.effects| ==> !r.effects[i].RespondWithError?)
      && Callbacks(r.effects) == [Failed(RequestExpired)]
  {
    var req := pending[id];
    CallbacksOfFailure([RespondWithError(req.topic, req.id, RequestExpiredError), Telemetry(RequestExpiredEvent)], RequestExpired);
  }

  /** An empty CACAO list fails where the first CACAO is read, before anything is changed. */
  lemma EmptyCacaoListFails(env: Env, selfMetadata: Metadata, pending: map<RequestId, PendingRequest>, s: Stores,
                            id: RequestId, now: int, subscribeOk: bool, publishOk: bool)
    requires id in pending && !Expired(pending[id], now)
    ensures var r := Approve(env, selfMetadata, pending, s, id, [], now, subscribeOk, publishOk);
      && r.stores == s
      && StoresUntouched(r.effects)
      && Callbacks(r.effects) == [Failed(NoCacao)]
  {
    CallbacksOfFailure([], NoCacao);
  }

  /**
   * A resolved chain that is not CAIP-2 compliant, or one outside eip155,
   * fails the approval before a key pair is generated.
   */
  lemma BadChainStopsBeforeKeyDerivation(env: Env, selfMetadata: Metadata, pending: map<RequestId, PendingRequest>, s: Stores,
                                         id: RequestId, cacaos: seq<Cacao>, now: int, subscribeOk: bool, publishOk: bool, chain: ChainId)
    requires id in pending && !Expired(pending[id], now) && cacaos != []
    requires chain in Chains(env, pending[id], cacaos)
    requires !env.isCaip2Compliant(chain) || env.namespaceOf(chain) != SupportedNamespace
    ensures var r := Approve(env, selfMetadata, pending, s, id, cacaos, now, subscribeOk, publishOk);
      && r.stores == s
      && StoresUntouched(r.effects)
      && (forall e :: e in r.effects ==> !e.GenerateKeyPair?)
      && (Callbacks(r.effects) == [Failed(ChainsNotCaip2)] || Callbacks(r.effects) == [Failed(UnsupportedNamespace)])
      && (!env.isCaip2Compliant(chain) ==> Callbacks(r.effects) == [Failed(ChainsNotCaip2)])
  {
    CallbacksOfFailure([Telemetry(Caip2FailureEvent)], ChainsNotCaip2);
    CallbacksOfFailure([Telemetry(EvmFailureEvent)], UnsupportedNamespace);
  }

  /**
   * When the CAIP-2 check demands at least the `namespace:reference` shape, a
   * chain id with no ':' (such as "1") never reaches key derivation.
   */
  lemma BareChainIdNeverReachesKeyDerivation(env: Env, selfMetadata: Metadata, pending: map<RequestId, PendingRequest>, s: Stores,
                                             id: RequestId, cacaos: seq<Cacao>, now: int, subscribeOk: bool, publishOk: bool)
    requires forall c :: env.isCaip2Compliant(c) ==> Caip2Shaped(c)
    requires id in pending && !Expired(pending[id], now) && cacaos != []
    requires "1" in Chains(env, pending[id], cacaos)
    ensures var r := Approve(env, selfMetadata, pending, s, id, cacaos, now, subscribeOk, publishOk);
      && r.stores == s
      && (forall e :: e in r.effects ==> !e.GenerateKeyPair?)
      && Callbacks(r.effects) == [Failed(ChainsNotCaip2)]
  {
    BareReferenceIsNotCaip2Shaped("1");
    BadChainStopsBeforeKeyDerivation(env, selfMetadata, pending, s, id, cacaos, now, subscribeOk, publishOk, "1");
  }

  // ---------------------------------------------------------------------------
  // Signature verification
  // ---------------------------------------------------------------------------

  /**
   * One CACAO that fails verification fails the whole approval: a key pair has
   * been generated, but no metadata, session or symmetric key is stored and
   * nothing is subscribed or published.
   */
  lemma InvalidCacaoPersistsNothing(env: Env, selfMetadata: Metadata, pending: map<RequestId, PendingRequest>, s: Stores,
                                    id: RequestId, cacaos: seq<Cacao>, now: int, subscribeOk: bool, publishOk: bool, bad: Cacao)
    requires id in pending && !Expired(pending[id], now) && cacaos != []
    requires AllCaip2(env, Chains(env, pending[id], cacaos)) && AllEip155(env, Chains(env, pending[id], cacaos))
    requires bad in cacaos && !env.verify(bad)
    ensures var r := Approve(env, selfMetadata, pending, s, id, cacaos, now, subscribeOk, publishOk);
      && r.stores == s.(ownKeys := s.ownKeys + {s.nextKey}, nextKey := s.nextKey + 1)
      && r.effects == [GenerateKeyPair(s.nextKey), Telemetry(InvalidCacaoEvent), Failed(SignatureInvalid)]
      && Callbacks(r.effects) == [Failed(SignatureInvalid)]
  {
    assert !AllVerified(env, cacaos);
    CallbacksOfFailure([GenerateKeyPair(s.nextKey), Telemetry(InvalidCacaoEvent)], SignatureInvalid);
  }

  // ---------------------------------------------------------------------------
  // The assembled session
  // ---------------------------------------------------------------------------

  /**
   * The session names one namespace, the first issuer's, in both its maps,
   * with the same chains and methods and the two fixed events; its controller
   * is the approving side's new key and its accounts are the session accounts.
   */
  lemma AssembledSessionShape(env: Env, selfMetadata: Metadata, req: PendingRequest, cacaos: seq<Cacao>,
                              chains: seq<ChainId>, selfKey: Key, topic: Topic)
    requires cacaos != []
    ensures var session := AssembleSession(env, selfMetadata, req, cacaos, chains, selfKey, topic);
      var ns := env.issuerNamespace(cacaos[0].issuer);
      && session.required.Keys == {ns} && session.granted.Keys == {ns}
      && session.required[ns] == Proposal(chains, cacaos[0].methods, ["chainChanged", "accountsChanged"])
      && session.granted[ns] == GrantedNamespace(SessionAccounts(env, cacaos, chains), chains, cacaos[0].methods, ["chainChanged", "accountsChanged"])
      && session.controllerKey == session.selfKey == selfKey
      && session.peerKey == req.requesterKey && session.peerMetadata == req.requesterMetadata
      && session.selfMetadata == selfMetadata
      && session.topic == topic && session.pairingTopic == req.topic
  {
  }

  /**
   * The session accounts are `chain:address` for every resolved chain and
   * every distinct issuer address, chain-major: |chains| * |addresses| of
   * them, chain `i` with address `j` at position `i * |addresses| + j`.
   */
  lemma SessionAccountsLayout(env: Env, cacaos: seq<Cacao>, chains: seq<ChainId>, i: nat, j: nat)
    requires var addresses := Distinct(IssuerAddresses(env, cacaos)); i < |chains| && j < |addresses|
    ensures var addresses := Distinct(IssuerAddresses(env, cacaos));
      && |SessionAccounts(env, cacaos, chains)| == |chains| * |addresses|
      && i * |addresses| + j < |SessionAccounts(env, cacaos, chains)|
      && SessionAccounts(env, cacaos, chains)[i * |addresses| + j] == AccountOf(chains[i], addresses[j])
  {
    CrossProductAt(chains, Distinct(IssuerAddresses(env, cacaos)), i, j);
  }

  /** An account is granted exactly when it pairs a resolved chain with the address of some issuer. */
  lemma SessionAccountsMembership(env: Env, cacaos: seq<Cacao>, chains: seq<ChainId>, x: AccountId)
    ensures x in SessionAccounts(env, cacaos, chains) <==>
            exists c, a :: c in chains && a in IssuerAddresses(env, cacaos) && x == AccountOf(c, a)
  {
    CrossProductMembership(chains, Distinct(IssuerAddresses(env, cacaos)), x);
  }

  /** With distinct chains and ':'-free issuer addresses, no account is granted twice. */
  lemma SessionAccountsNoDup(env: Env, cacaos: seq<Cacao>, chains: seq<ChainId>)
    requires NoDup(chains)
    requires forall i :: 0 <= i < |cacaos| ==> ':' !in env.issuerAddress(cacaos[i].issuer)
    ensures NoDup(SessionAccounts(env, cacaos, chains))
  {
    var addresses := Distinct(IssuerAddresses(env, cacaos));
    forall a | a in addresses
      ensures ':' !in a
    {
      var i :| 0 <= i < |cacaos| && IssuerAddresses(env, cacaos)[i] == a;
    }
    CrossProductNoDup(chains, addresses);
  }

  // ---------------------------------------------------------------------------
  // Persistence, subscribe and publish
  // ---------------------------------------------------------------------------

  /** The admissible branch of the approval, as its three parts. */
  lemma AdmissibleRun(env: Env, selfMetadata: Metadata, pending: map<RequestId, PendingRequest>, s: Stores,
                      id: RequestId, cacaos: seq<Cacao>, now: int, subscribeOk: bool, publishOk: bool)
    requires Admissible(env, pending, id, cacaos, now)
    ensures var req := pending[id];
      Approve(env, selfMetadata, pending, s, id, cacaos, now, subscribeOk, publishOk)
      == Run(EstablishedStores(env, selfMetadata, req, s, id, cacaos, Chains(env, req, cacaos), subscribeOk, publishOk),
             EstablishedEffects(env, selfMetadata, req, s, id, cacaos, subscribeOk, publishOk),
             DerivedTrace + CommitTrace(cacaos[0].methods != [], subscribeOk, publishOk))
  {
  }

  /**
   * Past the signature check the calls are: key generation, the inserts, the
   * symmetric key, and then the relay calls and their outcomes.
   */
  lemma EstablishedEffectsSplit(env: Env, selfMetadata: Metadata, req: PendingRequest, s: Stores, id: RequestId,
                                cacaos: seq<Cacao>, subscribeOk: bool, publishOk: bool)
    requires cacaos != []
    ensures var t := SessionTopic(env, s, req);
      var response := ApproveResponseOf(id, SelfKey(env, s), selfMetadata, cacaos, req.requesterKey);
      EstablishedEffects(env, selfMetadata, req, s, id, cacaos, subscribeOk, publishOk)
      == ([GenerateKeyPair(s.nextKey)] + PersistEffects(cacaos[0].methods != [], t, id) + [SetKey(t)])
         + ([Subscribe(t)] + SubscribeOutcome(subscribeOk) + PublishEffects(t, ResponseTopic(env, req), response, req.topic, id, publishOk))
  {
    var t, response := SessionTopic(env, s, req), ApproveResponseOf(id, SelfKey(env, s), selfMetadata, cacaos, req.requesterKey);
    var persist := PersistEffects(cacaos[0].methods != [], t, id);
    var so, pe := SubscribeOutcome(subscribeOk), PublishEffects(t, ResponseTopic(env, req), response, req.topic, id, publishOk);
    var rest := [Subscribe(t)] + so + pe;
    var relay := RelayEffects(t, ResponseTopic(env, req), response, req.topic, id, subscribeOk, publishOk);
    assert [SetKey(t), Subscribe(t)] == [SetKey(t)] + [Subscribe(t)];
    AppendAssoc([SetKey(t)], [Subscribe(t)], so);
    AppendAssoc([SetKey(t)], [Subscribe(t)] + so, pe);
    assert relay == [SetKey(t)] + rest;
    var gen := [GenerateKeyPair(s.nextKey)];
    AppendAssoc(gen, persist, relay);
    AppendAssoc(gen + persist, [SetKey(t)], rest);
  }

  /**
   * Past the signature check the key pair is generated first; the inserts
   * follow exactly when the first CACAO lists methods; then the symmetric key
   * is stored, before the relay is used.
   */
  lemma EstablishedEffectsOrder(env: Env, selfMetadata: Metadata, req: PendingRequest, s: Stores, id: RequestId,
                                cacaos: seq<Cacao>, subscribeOk: bool, publishOk: bool)
    requires cacaos != []
    ensures var effects := EstablishedEffects(env, selfMetadata, req, s, id, cacaos, subscribeOk, publishOk);
      var t := SessionTopic(env, s, req);
      var persist := cacaos[0].methods != [];
      && (persist ==> |effects| >= 5 && effects[..5] == [GenerateKeyPair(s.nextKey), InsertMetadata(t, SelfApp), InsertMetadata(t, PeerApp), InsertSession(t, id), SetKey(t)])
      && (!persist ==> |effects| >= 2 && effects[..2] == [GenerateKeyPair(s.nextKey), SetKey(t)])
      && (forall e :: e in effects && (e.InsertSession? || e.InsertMetadata?) ==> persist)
  {
    var t, response := SessionTopic(env, s, req), ApproveResponseOf(id, SelfKey(env, s), selfMetadata, cacaos, req.requesterKey);
    var head := [GenerateKeyPair(s.nextKey)] + PersistEffects(cacaos[0].methods != [], t, id) + [SetKey(t)];
    EstablishedEffectsSplit(env, selfMetadata, req, s, id, cacaos, subscribeOk, publishOk);
    var effects := EstablishedEffects(env, selfMetadata, req, s, id, cacaos, subscribeOk, publishOk);
    assert effects[..|head|] == head;
    if cacaos[0].methods != [] {
      assert head == [GenerateKeyPair(s.nextKey), InsertMetadata(t, SelfApp), InsertMetadata(t, PeerApp), InsertSession(t, id), SetKey(t)];
    } else {
      assert head == [GenerateKeyPair(s.nextKey), SetKey(t)];
    }
    OutcomesInsertNothing(subscribeOk, t, ResponseTopic(env, req), response, req.topic, id, publishOk);
  }

  /** Neither relay outcome inserts metadata or a session, or generates a key pair. */
  lemma OutcomesInsertNothing(subscribeOk: bool, sessionTopic: Topic, responseTopic: Topic, response: ApproveResponse,
                              pairingTopic: Topic, id: RequestId, publishOk: bool)
    ensures var rest := [Subscribe(sessionTopic)] + SubscribeOutcome(subscribeOk)
                        + PublishEffects(sessionTopic, responseTopic, response, pairingTopic, id, publishOk);
      forall e :: e in rest ==> !e.InsertSession? && !e.InsertMetadata? && !e.GenerateKeyPair?
  {
    var so := SubscribeOutcome(subscribeOk);
    var pe := PublishEffects(sessionTopic, responseTopic, response, pairingTopic, id, publishOk);
    assert forall e :: e in so ==> e.Telemetry? || e.Failed?;
    assert forall e :: e in pe ==> !e.InsertSession? && !e.InsertMetadata? && !e.GenerateKeyPair? by {
      if publishOk {
        assert pe == [Publish(responseTopic, response), Succeeded, Activate(pairingTopic), DeleteVerifyContext(id)];
      } else {
        assert pe == [Publish(responseTopic, response), RemoveKeys(sessionTopic), DeleteSession(sessionTopic),
                      Telemetry(PublishFailureEvent), Failed(PublishFailed)];
      }
    }
  }

  /**
   * Past the signature check both metadata records are stored exactly when
   * the first CACAO lists methods, and after a successful publish so is the
   * assembled session, whose chains are the resolved chains.
   */
  lemma EstablishedStoresPersist(env: Env, selfMetadata: Metadata, req: PendingRequest, s: Stores, id: RequestId,
                                 cacaos: seq<Cacao>, chains: seq<ChainId>, subscribeOk: bool, publishOk: bool)
    requires cacaos != []
    ensures var stores := EstablishedStores(env, selfMetadata, req, s, id, cacaos, chains, subscribeOk, publishOk);
      var t := SessionTopic(env, s, req);
      var persist := cacaos[0].methods != [];
      && (persist ==> stores.metadata == s.metadata[(t, SelfApp) := selfMetadata][(t, PeerApp) := req.requesterMetadata])
      && (!persist ==> stores.metadata == s.metadata)
      && (persist && publishOk ==>
            stores.sessions == s.sessions[t := StoredSession(AssembleSession(env, selfMetadata, req, cacaos, chains, SelfKey(env, s), t), id)])
      && (!persist && publishOk ==> stores.sessions == s.sessions)
  {
  }

  /**
   * On an admissible request the symmetric key is stored under the session
   * topic before the relay is used, and the session with both metadata
   * records is stored first when, and only when, the first CACAO lists
   * methods; the chains of that session are the first CACAO's resource chains,
   * or the requested chains when those are empty.
   */
  lemma AdmissibleRequestPersists(env: Env, selfMetadata: Metadata, pending: map<RequestId, PendingRequest>, s: Stores,
                                  id: RequestId, cacaos: seq<Cacao>, now: int, subscribeOk: bool, publishOk: bool)
    requires Admissible(env, pending, id, cacaos, now)
    ensures var r := Approve(env, selfMetadata, pending, s, id, cacaos, now, subscribeOk, publishOk);
      var req := pending[id];
      var t := SessionTopic(env, s, req);
      var persist := cacaos[0].methods != [];
      var fromResources := env.resourceChains(cacaos[0].resources);
      && (persist ==> r.effects[..5] == [GenerateKeyPair(s.nextKey), InsertMetadata(t, SelfApp), InsertMetadata(t, PeerApp), InsertSession(t, id), SetKey(t)])
      && (!persist ==> r.effects[..2] == [GenerateKeyPair(s.nextKey), SetKey(t)])
      && (forall e :: e in r.effects && (e.InsertSession? || e.InsertMetadata?) ==> persist)
      && (persist ==> r.stores.metadata == s.metadata[(t, SelfApp) := selfMetadata][(t, PeerApp) := req.requesterMetadata])
      && (!persist ==> r.stores.metadata == s.metadata)
      && (persist && publishOk ==>
            && r.stores.sessions == s.sessions[t := StoredSession(AssembleSession(env, selfMetadata, req, cacaos, Chains(env, req, cacaos), SelfKey(env, s), t), id)]
            && r.stores.sessions[t].session.required[env.issuerNamespace(cacaos[0].issuer)].chains
               == (if fromResources != [] then fromResources else req.chains))
      && (!persist && publishOk ==> r.stores.sessions == s.sessions)
  {
    var req := pending[id];
    var chains := Chains(env, req, cacaos);
    AdmissibleRun(env, selfMetadata, pending, s, id, cacaos, now, subscribeOk, publishOk);
    EstablishedEffectsOrder(env, selfMetadata, req, s, id, cacaos, subscribeOk, publishOk);
    EstablishedStoresPersist(env, selfMetadata, req, s, id, cacaos, chains, subscribeOk, publishOk);
    AssembledSessionShape(env, selfMetadata, req, cacaos, chains, SelfKey(env, s), SessionTopic(env, s, req));
  }

  /**
   * Past the signature check the calls end with the publish and then its
   * outcome; nothing before the outcome reports success or undoes anything.
   */
  lemma EstablishedEffectsEnd(env: Env, selfMetadata: Metadata, req: PendingRequest, s: Stores, id: RequestId,
                              cacaos: seq<Cacao>, subscribeOk: bool, publishOk: bool)
    requires cacaos != []
    ensures var effects := EstablishedEffects(env, selfMetadata, req, s, id, cacaos, subscribeOk, publishOk);
      var outcome := PublishOutcome(publishOk, SessionTopic(env, s, req), req.topic, id);
      && |effects| > |outcome|
      && effects[|effects| - |outcome|..] == outcome
      && effects[|effects| - |outcome| - 1] == Publish(ResponseTopic(env, req), ApproveResponseOf(id, SelfKey(env, s), selfMetadata, cacaos, req.requesterKey))
      && (forall e :: e in effects[..|effects| - |outcome|] ==> Quiet(e))
      && Succeeded !in effects[..|effects| - |outcome|]
  {
    var t, response := SessionTopic(env, s, req), ApproveResponseOf(id, SelfKey(env, s), selfMetadata, cacaos, req.requesterKey);
    var publish := Publish(ResponseTopic(env, req), response);
    var head := [GenerateKeyPair(s.nextKey)] + PersistEffects(cacaos[0].methods != [], t, id) + [SetKey(t)];
    var mid := [Subscribe(t)] + SubscribeOutcome(subscribeOk);
    var outcome := PublishOutcome(publishOk, t, req.topic, id);
    EstablishedEffectsSplit(env, selfMetadata, req, s, id, cacaos, subscribeOk, publishOk);
    assert PublishEffects(t, ResponseTopic(env, req), response, req.topic, id, publishOk) == [publish] + outcome;
    SplitBeforeOutcome(head, mid, publish, outcome);
    HeadQuiet(s.nextKey, cacaos[0].methods != [], t, id);
    MidQuiet(t, subscribeOk, publish);
    QuietAppend(head, mid + [publish]);
  }

  lemma SplitBeforeOutcome(head: seq<Effect>, mid: seq<Effect>, last: Effect, outcome: seq<Effect>)
    ensures var effects := head + (mid + ([last] + outcome));
      var pre := head + (mid + [last]);
      && effects == pre + outcome
      && |effects| > |outcome|
      && effects[..|effects| - |outcome|] == pre
      && effects[|effects| - |outcome|..] == outcome
      && effects[|effects| - |outcome| - 1] == last
  {
    AppendAssoc(mid, [last], outcome);
    AppendAssoc(head, mid + [last], outcome);
    var pre := head + (mid + [last]);
    assert (pre + outcome)[..|pre|] == pre;
  }

  lemma HeadQuiet(serial: nat, persist: bool, t: Topic, id: RequestId)
    ensures forall e :: e in [GenerateKeyPair(serial)] + PersistEffects(persist, t, id) + [SetKey(t)] ==> Quiet(e)
  {
    if persist {
      assert [GenerateKeyPair(serial)] + PersistEffects(persist, t, id) + [SetKey(t)]
          == [GenerateKeyPair(serial), InsertMetadata(t, SelfApp), InsertMetadata(t, PeerApp), InsertSession(t, id), SetKey(t)];
    } else {
      assert [GenerateKeyPair(serial)] + PersistEffects(persist, t, id) + [SetKey(t)] == [GenerateKeyPair(serial), SetKey(t)];
    }
  }

  lemma MidQuiet(t: Topic, subscribeOk: bool, publish: Effect)
    requires publish.Publish?
    ensures forall e :: e in [Subscribe(t)] + SubscribeOutcome(subscribeOk) + [publish] ==> Quiet(e)
  {
    if subscribeOk {
      assert [Subscribe(t)] + SubscribeOutcome(subscribeOk) + [publish] == [Subscribe(t), publish];
    } else {
      assert [Subscribe(t)] + SubscribeOutcome(subscribeOk) + [publish]
          == [Subscribe(t), Telemetry(SubscribeFailureEvent), Failed(SubscribeFailed), publish];
    }
  }

  /** An effect that neither reports success nor undoes a stored key or session. */
  predicate Quiet(e: Effect) {
    !e.Succeeded? && !e.RemoveKeys? && !e.DeleteSession?
  }

  lemma QuietAppend(a: seq<Effect>, b: seq<Effect>)
    requires forall e :: e in a ==> Quiet(e)
    requires forall e :: e in b ==> Quiet(e)
    ensures forall e :: e in a + b ==> Quiet(e)
    ensures Succeeded !in a + b
  {
    assert !Quiet(Succeeded);
  }

  /**
   * A successful publish reports success and only then asks for the pairing
   * to be activated and the verify context of the request to be deleted; the
   * key stays stored and the session topic is subscribed when the subscribe
   * succeeded.
   */
  lemma PublishSuccessThenActivation(env: Env, selfMetadata: Metadata, pending: map<RequestId, PendingRequest>, s: Stores,
                                     id: RequestId, cacaos: seq<Cacao>, now: int, subscribeOk: bool)
    requires Admissible(env, pending, id, cacaos, now)
    ensures var r := Approve(env, selfMetadata, pending, s, id, cacaos, now, subscribeOk, true);
      var req := pending[id];
      var t := SessionTopic(env, s, req);
      var n := |r.effects|;
      && n >= 4
      && r.effects[n - 4] == Publish(ResponseTopic(env, req), ApproveResponseOf(id, SelfKey(env, s), selfMetadata, cacaos, req.requesterKey))
      && r.effects[n - 3..] == [Succeeded, Activate(req.topic), DeleteVerifyContext(id)]
      && Succeeded !in r.effects[..n - 3]
      && r.stores.symKeys == s.symKeys[t := SymKey(env, s, req)]
      && (t in r.stores.subscriptions <==> subscribeOk || t in s.subscriptions)
      && r.stores.activePairings == s.activePairings + {req.topic}
      && r.stores.verifyContexts == s.verifyContexts - {id}
  {
    AdmissibleRun(env, selfMetadata, pending, s, id, cacaos, now, subscribeOk, true);
    EstablishedEffectsEnd(env, selfMetadata, pending[id], s, id, cacaos, subscribeOk, true);
  }

  /**
   * A failed publish rolls back: the symmetric key and the session of the
   * session topic are removed before the failure is reported, and success is
   * never reported. The metadata records written for the session stay.
   */
  lemma PublishFailureRollsBack(env: Env, selfMetadata: Metadata, pending: map<RequestId, PendingRequest>, s: Stores,
                                id: RequestId, cacaos: seq<Cacao>, now: int, subscribeOk: bool)
    requires Admissible(env, pending, id, cacaos, now)
    ensures var r := Approve(env, selfMetadata, pending, s, id, cacaos, now, subscribeOk, false);
      var t := SessionTopic(env, s, pending[id]);
      var n := |r.effects|;
      && n >= 4
      && r.effects[n - 4..] == [RemoveKeys(t), DeleteSession(t), Telemetry(PublishFailureEvent), Failed(PublishFailed)]
      && Succeeded !in r.effects
      && t !in r.stores.symKeys && t !in r.stores.sessions
      && (cacaos[0].methods != [] ==> (t, SelfApp) in r.stores.metadata && (t, PeerApp) in r.stores.metadata)
      && r.stores.activePairings == s.activePairings && r.stores.verifyContexts == s.verifyContexts
  {
    var req := pending[id];
    var r := Approve(env, selfMetadata, pending, s, id, cacaos, now, subscribeOk, false);
    AdmissibleRun(env, selfMetadata, pending, s, id, cacaos, now, subscribeOk, false);
    assert r.effects == EstablishedEffects(env, selfMetadata, req, s, id, cacaos, subscribeOk, false);
    assert r.stores == Committed(env, selfMetadata, req, KeyedStores(s), id, cacaos, Chains(env, req, cacaos),
                                 SelfKey(env, s), SymKey(env, s, req), SessionTopic(env, s, req), subscribeOk, false);
    EstablishedEffectsRollBack(env, selfMetadata, req, s, id, cacaos, subscribeOk);
    CommittedRollsBack(env, selfMetadata, req, KeyedStores(s), id, cacaos, Chains(env, req, cacaos),
                       SelfKey(env, s), SymKey(env, s, req), SessionTopic(env, s, req), subscribeOk);
  }

  /** The call half of a failed publish: the rollback and the failure close the calls, and success never fires. */
  lemma EstablishedEffectsRollBack(env: Env, selfMetadata: Metadata, req: PendingRequest, s: Stores, id: RequestId,
                                   cacaos: seq<Cacao>, subscribeOk: bool)
    requires cacaos != []
    ensures var effects := EstablishedEffects(env, selfMetadata, req, s, id, cacaos, subscribeOk, false);
      var t := SessionTopic(env, s, req);
      var n := |effects|;
      && n >= 4
      && effects[n - 4..] == [RemoveKeys(t), DeleteSession(t), Telemetry(PublishFailureEvent), Failed(PublishFailed)]
      && Succeeded !in effects
  {
    var t := SessionTopic(env, s, req);
    EstablishedEffectsEnd(env, selfMetadata, req, s, id, cacaos, subscribeOk, false);
    NoSuccessBeforeOrIn(EstablishedEffects(env, selfMetadata, req, s, id, cacaos, subscribeOk, false),
                        PublishOutcome(false, t, req.topic, id));
  }

  lemma NoSuccessBeforeOrIn(effects: seq<Effect>, outcome: seq<Effect>)
    requires |effects| >= |outcome| && effects[|effects| - |outcome|..] == outcome
    requires Succeeded !in effects[..|effects| - |outcome|] && Succeeded !in outcome
    ensures Succeeded !in effects
  {
    assert effects == effects[..|effects| - |outcome|] + outcome;
  }

  /** The store half of a failed publish, for any stores the commit starts from. */
  lemma CommittedRollsBack(env: Env, selfMetadata: Metadata, req: PendingRequest, s: Stores, id: RequestId,
                           cacaos: seq<Cacao>, chains: seq<ChainId>, selfKey: Key, symKey: Key, t: Topic,
                           subscribeOk: bool)
    requires cacaos != []
    ensures var c := Committed(env, selfMetadata, req, s, id, cacaos, chains, selfKey, symKey, t, subscribeOk, false);
      && t !in c.symKeys && t !in c.sessions
      && (cacaos[0].methods != [] ==> (t, SelfApp) in c.metadata && (t, PeerApp) in c.metadata)
      && c.activePairings == s.activePairings && c.verifyContexts == s.verifyContexts
  {
    if cacaos[0].methods != [] {
      var session := AssembleSession(env, selfMetadata, req, cacaos, chains, selfKey, t);
      assert session.topic == t;
    }
  }

  /**
   * A failed subscribe is reported but undoes nothing: the publish still
   * runs, and when it succeeds the key and the session stay stored.
   */
  lemma SubscribeFailureKeepsSession(env: Env, selfMetadata: Metadata, pending: map<RequestId, PendingRequest>, s: Stores,
                                     id: RequestId, cacaos: seq<Cacao>, now: int)
    requires Admissible(env, pending, id, cacaos, now)
    ensures var r := Approve(env, selfMetadata, pending, s, id, cacaos, now, false, true);
      var t := SessionTopic(env, s, pending[id]);
      && t in r.stores.symKeys
      && (cacaos[0].methods != [] ==> t in r.stores.sessions)
      && (forall e :: e in r.effects ==> !e.RemoveKeys? && !e.DeleteSession?)
      && Failed(SubscribeFailed) in r.effects && Succeeded in r.effects
  {
    var req := pending[id];
    var t, response := SessionTopic(env, s, req), ApproveResponseOf(id, SelfKey(env, s), selfMetadata, cacaos, req.requesterKey);
    var r := Approve(env, selfMetadata, pending, s, id, cacaos, now, false, true);
    AdmissibleRun(env, selfMetadata, pending, s, id, cacaos, now, false, true);
    assert r.stores == Committed(env, selfMetadata, req, KeyedStores(s), id, cacaos, Chains(env, req, cacaos),
                                 SelfKey(env, s), SymKey(env, s, req), t, false, true);
    EstablishedEffectsSplit(env, selfMetadata, req, s, id, cacaos, false, true);
    var head := [GenerateKeyPair(s.nextKey)] + PersistEffects(cacaos[0].methods != [], t, id) + [SetKey(t)];
    var rest := [Subscribe(t), Telemetry(SubscribeFailureEvent), Failed(SubscribeFailed),
                 Publish(ResponseTopic(env, req), response), Succeeded, Activate(req.topic), DeleteVerifyContext(id)];
    assert r.effects == head + rest;
    assert forall e :: e in head ==> !e.RemoveKeys? && !e.DeleteSession?;
  }

  /**
   * With an empty method list no session and no metadata is stored, yet the
   * key is stored, the relay is used and a successful publish reports
   * success: the key then has no session beside it.
   */
  lemma EmptyMethodsStoreKeyOnly(env: Env, selfMetadata: Metadata, pending: map<RequestId, PendingRequest>, s: Stores,
                                 id: RequestId, cacaos: seq<Cacao>, now: int, subscribeOk: bool)
    requires Admissible(env, pending, id, cacaos, now) && cacaos[0].methods == []
    ensures var r := Approve(env, selfMetadata, pending, s, id, cacaos, now, subscribeOk, true);
      var t := SessionTopic(env, s, pending[id]);
      && r.stores.sessions == s.sessions && r.stores.metadata == s.metadata
      && t in r.stores.symKeys
      && (t !in s.sessions ==> t !in r.stores.sessions)
      && Subscribe(t) in r.effects
      && Callbacks(r.effects) == (if subscribeOk then [Succeeded] else [Failed(SubscribeFailed), Succeeded])
  {
    CallbackDelivery(env, selfMetadata, pending, s, id, cacaos, now, subscribeOk, true);
  }

  // ---------------------------------------------------------------------------
  // Trace, store invariant, fresh keys
  // ---------------------------------------------------------------------------

  /** The position of each milestone in the flow. */
  function Rank(m: Milestone): nat {
    match m
    case Started => 0
    case NotExpired => 1
    case Caip2Compliant => 2
    case EvmCompliant => 3
    case TopicCreated => 4
    case CacaosVerified => 5
    case SessionStored => 6
    case Subscribing => 7
    case Publishing => 8
    case SubscribeSucceeded => 9
    case PublishSucceeded => 10
  }

  predicate InFlowOrder(trace: seq<Milestone>) {
    forall i, j :: 0 <= i < j < |trace| ==> Rank(trace[i]) < Rank(trace[j])
  }

  lemma OrderedAppend(a: seq<Milestone>, b: seq<Milestone>)
    requires InFlowOrder(a) && InFlowOrder(b)
    requires a != [] && b != [] ==> Rank(a[|a| - 1]) < Rank(b[0])
    ensures InFlowOrder(a + b)
  {
    forall i, j | 0 <= i < j < |a + b|
      ensures Rank((a + b)[i]) < Rank((a + b)[j])
    {
      if i < |a| <= j {
        assert Rank(a[i]) <= Rank(a[|a| - 1]);
        assert Rank(b[0]) <= Rank(b[j - |a|]);
      }
    }
  }

  /**
   * The relay part of the trace: Subscribing then Publishing, as the calls are
   * made, then a success milestone for each relay call that succeeded.
   */
  lemma RelayTraceInOrder(subscribeOk: bool, publishOk: bool)
    ensures var trace := RelayTrace(subscribeOk, publishOk);
      && trace[..2] == [Subscribing, Publishing]
      && Publishing in trace
      && InFlowOrder(trace)
      && (SubscribeSucceeded in trace <==> subscribeOk)
      && (PublishSucceeded in trace <==> publishOk)
  {
    var trace := RelayTrace(subscribeOk, publishOk);
    if subscribeOk && publishOk {
      assert trace == [Subscribing, Publishing, SubscribeSucceeded, PublishSucceeded];
    } else if subscribeOk {
      assert trace == [Subscribing, Publishing, SubscribeSucceeded];
    } else if publishOk {
      assert trace == [Subscribing, Publishing, PublishSucceeded];
    } else {
      assert trace == [Subscribing, Publishing];
    }
  }

  /** The trace of an admissible request up to the relay steps. */
  function CommitPrefix(persist: bool): seq<Milestone> {
    DerivedTrace + [CacaosVerified] + (if persist then [SessionStored] else [])
  }

  lemma CommitPrefixInOrder(persist: bool)
    ensures var p := CommitPrefix(persist);
      && |p| >= 6 && Rank(p[|p| - 1]) < Rank(Subscribing)
      && InFlowOrder(p)
      && Publishing !in p && SubscribeSucceeded !in p && PublishSucceeded !in p
  {
    if persist {
      assert CommitPrefix(persist) == [Started, NotExpired, Caip2Compliant, EvmCompliant, TopicCreated, CacaosVerified, SessionStored];
    } else {
      assert CommitPrefix(persist) == [Started, NotExpired, Caip2Compliant, EvmCompliant, TopicCreated, CacaosVerified];
    }
  }

  /**
   * The trace of an admissible request: the milestones up to the session
   * topic, in flow order, with Publishing reached, and each success milestone
   * present exactly when its relay call succeeded.
   */
  lemma EstablishedTraceInOrder(persist: bool, subscribeOk: bool, publishOk: bool)
    ensures var trace := DerivedTrace + CommitTrace(persist, subscribeOk, publishOk);
      && trace[..5] == DerivedTrace
      && InFlowOrder(trace)
      && Publishing in trace
      && (SubscribeSucceeded in trace <==> subscribeOk)
      && (PublishSucceeded in trace <==> publishOk)
  {
    var p, relay := CommitPrefix(persist), RelayTrace(subscribeOk, publishOk);
    CommitPrefixInOrder(persist);
    RelayTraceInOrder(subscribeOk, publishOk);
    OrderedAppend(p, relay);
    assert DerivedTrace + CommitTrace(persist, subscribeOk, publishOk) == p + relay;
  }

  /** The trace of an approval, by the step at which it stopped. */
  lemma TraceByOutcome(env: Env, selfMetadata: Metadata, pending: map<RequestId, PendingRequest>, s: Stores,
                       id: RequestId, cacaos: seq<Cacao>, now: int, subscribeOk: bool, publishOk: bool)
    ensures var trace := Approve(env, selfMetadata, pending, s, id, cacaos, now, subscribeOk, publishOk).trace;
      && (Admissible(env, pending, id, cacaos, now) ==> trace == DerivedTrace + CommitTrace(cacaos[0].methods != [], subscribeOk, publishOk))
      && (!Admissible(env, pending, id, cacaos, now) ==> trace in {[Started], [Started, NotExpired], [Started, NotExpired, Caip2Compliant], DerivedTrace})
      && ((id !in pending || Expired(pending[id], now)) ==> trace == [Started])
      && ((id in pending && !Expired(pending[id], now) && (cacaos == [] || !AllCaip2(env, Chains(env, pending[id], cacaos))))
          ==> trace == [Started, NotExpired])
      && ((id in pending && !Expired(pending[id], now) && cacaos != [] && AllCaip2(env, Chains(env, pending[id], cacaos))
           && !AllEip155(env, Chains(env, pending[id], cacaos)))
          ==> trace == [Started, NotExpired, Caip2Compliant])
      && ((id in pending && !Expired(pending[id], now) && cacaos != [] && AllCaip2(env, Chains(env, pending[id], cacaos))
           && AllEip155(env, Chains(env, pending[id], cacaos)) && !AllVerified(env, cacaos))
          ==> trace == DerivedTrace)
  {
  }

  /**
   * The trace starts with Started and lists milestones in the order of the
   * flow, each at most once.
   */
  lemma TraceInFlowOrder(env: Env, selfMetadata: Metadata, pending: map<RequestId, PendingRequest>, s: Stores,
                         id: RequestId, cacaos: seq<Cacao>, now: int, subscribeOk: bool, publishOk: bool)
    ensures var trace := Approve(env, selfMetadata, pending, s, id, cacaos, now, subscribeOk, publishOk).trace;
      && |trace| > 0 && trace[0] == Started
      && InFlowOrder(trace)
  {
    TraceByOutcome(env, selfMetadata, pending, s, id, cacaos, now, subscribeOk, publishOk);
    if Admissible(env, pending, id, cacaos, now) {
      EstablishedTraceInOrder(cacaos[0].methods != [], subscribeOk, publishOk);
    } else {
      RejectedTracesInOrder();
    }
  }

  /** The traces of a rejected request are in flow order. */
  lemma RejectedTracesInOrder()
    ensures forall trace :: trace in {[Started], [Started, NotExpired], [Started, NotExpired, Caip2Compliant], DerivedTrace} ==> InFlowOrder(trace)
  {
    assert InFlowOrder(DerivedTrace);
    assert InFlowOrder([Started, NotExpired, Caip2Compliant]);
  }

  /**
   * The trace reaches Publishing exactly on admissible requests, and
   * PublishSucceeded exactly when the success callback fires.
   */
  lemma TraceMarksPublish(env: Env, selfMetadata: Metadata, pending: map<RequestId, PendingRequest>, s: Stores,
                          id: RequestId, cacaos: seq<Cacao>, now: int, subscribeOk: bool, publishOk: bool)
    ensures var r := Approve(env, selfMetadata, pending, s, id, cacaos, now, subscribeOk, publishOk);
      && (Publishing in r.trace <==> Admissible(env, pending, id, cacaos, now))
      && (PublishSucceeded in r.trace <==> Succeeded in Callbacks(r.effects))
  {
    TraceByOutcome(env, selfMetadata, pending, s, id, cacaos, now, subscribeOk, publishOk);
    CallbackDelivery(env, selfMetadata, pending, s, id, cacaos, now, subscribeOk, publishOk);
    if Admissible(env, pending, id, cacaos, now) {
      EstablishedTraceInOrder(cacaos[0].methods != [], subscribeOk, publishOk);
    }
  }

  lemma KeyedStoresKeepInv(s: Stores)
    requires Inv(s)
    ensures Inv(KeyedStores(s))
  {
  }

  /**
   * Storing a session's metadata and the session, then its symmetric key,
   * keeps the invariant; so does what follows the publish, whichever way it
   * goes, since a rollback removes the key and the session together.
   */
  lemma CommittedKeepsInv(env: Env, selfMetadata: Metadata, req: PendingRequest, s: Stores, id: RequestId,
                          cacaos: seq<Cacao>, chains: seq<ChainId>, selfKey: Key, symKey: Key, sessionTopic: Topic,
                          subscribeOk: bool, publishOk: bool)
    requires cacaos != [] && Inv(s)
    ensures Inv(Committed(env, selfMetadata, req, s, id, cacaos, chains, selfKey, symKey, sessionTopic, subscribeOk, publishOk))
  {
    var session := AssembleSession(env, selfMetadata, req, cacaos, chains, selfKey, sessionTopic);
    var subscribed := Subscribed(s, sessionTopic, symKey, subscribeOk);
    if cacaos[0].methods != [] {
      assert session.topic == sessionTopic;
      PersistThenKeyKeepsInv(s, session, id, req.requesterMetadata, symKey, subscribeOk);
      subscribed := Subscribed(Persist(s, session, id, req.requesterMetadata), sessionTopic, symKey, subscribeOk);
    } else {
      KeyKeepsInv(s, sessionTopic, symKey, subscribeOk);
    }
    PublishedKeepsInv(subscribed, sessionTopic, req.topic, id, publishOk);
  }

  /** Storing a session and its metadata, then its key, keeps the invariant. */
  lemma PersistThenKeyKeepsInv(s: Stores, session: Session, id: RequestId, peerMetadata: Metadata, symKey: Key, subscribeOk: bool)
    requires Inv(s)
    ensures Inv(Subscribed(Persist(s, session, id, peerMetadata), session.topic, symKey, subscribeOk))
  {
    var r := Subscribed(Persist(s, session, id, peerMetadata), session.topic, symKey, subscribeOk);
    forall t | t in r.sessions
      ensures r.sessions[t].session.topic == t && t in r.symKeys && (t, SelfApp) in r.metadata && (t, PeerApp) in r.metadata
    {
      if t != session.topic {
        assert t in s.sessions && r.sessions[t] == s.sessions[t];
      }
    }
  }

  /** Storing a key alone keeps the invariant. */
  lemma KeyKeepsInv(s: Stores, t: Topic, symKey: Key, subscribeOk: bool)
    requires Inv(s)
    ensures Inv(Subscribed(s, t, symKey, subscribeOk))
  {
  }

  /** Either publish outcome keeps the invariant: a rollback removes the key and the session together. */
  lemma PublishedKeepsInv(s: Stores, t: Topic, pairingTopic: Topic, id: RequestId, publishOk: bool)
    requires Inv(s)
    ensures Inv(Published(s, t, pairingTopic, id, publishOk))
  {
  }

  /** Every approval keeps the store invariant. */
  lemma ApprovePreservesInv(env: Env, selfMetadata: Metadata, pending: map<RequestId, PendingRequest>, s: Stores,
                            id: RequestId, cacaos: seq<Cacao>, now: int, subscribeOk: bool, publishOk: bool)
    requires Inv(s)
    ensures Inv(Approve(env, selfMetadata, pending, s, id, cacaos, now, subscribeOk, publishOk).stores)
  {
    KeyedStoresKeepInv(s);
    if Admissible(env, pending, id, cacaos, now) {
      var req := pending[id];
      AdmissibleRun(env, selfMetadata, pending, s, id, cacaos, now, subscribeOk, publishOk);
      CommittedKeepsInv(env, selfMetadata, req, KeyedStores(s), id, cacaos, Chains(env, req, cacaos),
                        SelfKey(env, s), SymKey(env, s, req), SessionTopic(env, s, req), subscribeOk, publishOk);
    }
  }

  lemma EstablishedEffectsGenerateOneKey(env: Env, selfMetadata: Metadata, req: PendingRequest, s: Stores, id: RequestId,
                                         cacaos: seq<Cacao>, subscribeOk: bool, publishOk: bool)
    requires cacaos != []
    ensures var effects := EstablishedEffects(env, selfMetadata, req, s, id, cacaos, subscribeOk, publishOk);
      && GenerateKeyPair(s.nextKey) in effects
      && forall k :: GenerateKeyPair(k) in effects ==> k == s.nextKey
  {
    var t, response := SessionTopic(env, s, req), ApproveResponseOf(id, SelfKey(env, s), selfMetadata, cacaos, req.requesterKey);
    EstablishedEffectsSplit(env, selfMetadata, req, s, id, cacaos, subscribeOk, publishOk);
    OutcomesInsertNothing(subscribeOk, t, ResponseTopic(env, req), response, req.topic, id, publishOk);
    if cacaos[0].methods != [] {
      assert PersistEffects(true, t, id) == [InsertMetadata(t, SelfApp), InsertMetadata(t, PeerApp), InsertSession(t, id)];
    }
  }

  lemma EstablishedStoresAdvanceKeys(env: Env, selfMetadata: Metadata, req: PendingRequest, s: Stores, id: RequestId,
                                     cacaos: seq<Cacao>, chains: seq<ChainId>, subscribeOk: bool, publishOk: bool)
    requires cacaos != []
    ensures var stores := EstablishedStores(env, selfMetadata, req, s, id, cacaos, chains, subscribeOk, publishOk);
      stores.nextKey == s.nextKey + 1 && stores.ownKeys == s.ownKeys + {s.nextKey}
  {
  }

  /**
   * An approval generates at most one key pair, the one numbered `nextKey`,
   * and the key store's counter moves past it exactly when it does.
   */
  lemma KeyGeneration(env: Env, selfMetadata: Metadata, pending: map<RequestId, PendingRequest>, s: Stores,
                      id: RequestId, cacaos: seq<Cacao>, now: int, subscribeOk: bool, publishOk: bool)
    ensures var r := Approve(env, selfMetadata, pending, s, id, cacaos, now, subscribeOk, publishOk);
      var generated := GenerateKeyPair(s.nextKey) in r.effects;
      && (forall k :: GenerateKeyPair(k) in r.effects ==> k == s.nextKey)
      && r.stores.nextKey == (if generated then s.nextKey + 1 else s.nextKey)
      && r.stores.ownKeys == (if generated then s.ownKeys + {s.nextKey} else s.ownKeys)
  {
    var r := Approve(env, selfMetadata, pending, s, id, cacaos, now, subscribeOk, publishOk);
    if id in pending && !Expired(pending[id], now) && cacaos != [] {
      var req := pending[id];
      var chains := Chains(env, req, cacaos);
      if AllCaip2(env, chains) && AllEip155(env, chains) {
        if AllVerified(env, cacaos) {
          assert r == Run(EstablishedStores(env, selfMetadata, req, s, id, cacaos, chains, subscribeOk, publishOk),
                          EstablishedEffects(env, selfMetadata, req, s, id, cacaos, subscribeOk, publishOk),
                          DerivedTrace + CommitTrace(cacaos[0].methods != [], subscribeOk, publishOk));
          EstablishedEffectsGenerateOneKey(env, selfMetadata, req, s, id, cacaos, subscribeOk, publishOk);
          EstablishedStoresAdvanceKeys(env, selfMetadata, req, s, id, cacaos, chains, subscribeOk, publishOk);
        }
      }
    }
  }

  /**
   * A key pair generated by an approval was never generated before, so two
   * successive approvals never share their own key pair.
   */
  lemma FreshKeyPairPerApproval(env: Env, selfMetadata: Metadata, pending: map<RequestId, PendingRequest>, s: Stores,
                                id1: RequestId, cacaos1: seq<Cacao>, now1: int, sub1: bool, pub1: bool,
                                id2: RequestId, cacaos2: seq<Cacao>, now2: int, sub2: bool, pub2: bool,
                                k1: nat, k2: nat)
    requires Inv(s)
    requires var r1 := Approve(env, selfMetadata, pending, s, id1, cacaos1, now1, sub1, pub1);
      GenerateKeyPair(k1) in r1.effects
      && GenerateKeyPair(k2) in Approve(env, selfMetadata, pending, r1.stores, id2, cacaos2, now2, sub2, pub2).effects
    ensures k1 !in s.ownKeys && k1 != k2
  {
    var r1 := Approve(env, selfMetadata, pending, s, id1, cacaos1, now1, sub1, pub1);
    KeyGeneration(env, selfMetadata, pending, s, id1, cacaos1, now1, sub1, pub1);
    KeyGeneration(env, selfMetadata, pending, r1.stores, id2, cacaos2, now2, sub2, pub2);
  }
}
