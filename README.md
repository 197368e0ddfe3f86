# Session-authenticate approval, modelled in Dafny

A wallet answers a dapp's `wc_sessionAuthenticate` request by calling
`approveSessionAuthenticate(id, cacaos, onSuccess, onFailure)`. The call
turns a pending request and the CACAO authorization objects (CAIP-74) the
user signed into a stored, keyed session and a published approval response,
or it fails. Along the way it:

- looks up the pending request, and answers an expired one with a
  `RequestExpired` error;
- resolves the session chains (the chains named in the first CACAO's
  resources, else the requested chains);
- checks every chain against CAIP-2 and accepts only the `eip155` namespace;
- generates a key pair, derives the symmetric key and the session and
  response topics;
- verifies every CACAO (all or nothing);
- builds the CAIP-10 accounts: every chain paired with every distinct issuer
  address, chain-major;
- stores both metadata records and the session, only when the first CACAO
  lists methods;
- stores the symmetric key, subscribes to the session topic and publishes the
  response;
- on publish success reports success, then activates the pairing and deletes
  the request's verify context;
- on publish failure removes the key and the session, then reports failure.

The model has five modules:

- `Caip` (caip.dfy): chain ids and account ids, Kotlin's `distinct()` on
  addresses, and the chain × address cross product. `BuildAccounts` is the
  nested loop of the source, proved equal to the cross product.
- `SignTypes` (sign_types.dfy): the request, CACAO, session and store
  values, and the `Effect` log of collaborator and callback calls. The
  collaborators whose code is not part of this model are the record `Env`
  of functions: chain extraction from resources, CAIP-2 compliance, the
  namespace of a chain, CACAO verification, issuer address and namespace,
  key generation, key agreement and topic derivation. The store invariant
  `Inv` says every stored session sits under its own topic, next to its
  symmetric key and both metadata records, and that the key counter is past
  every generated key.
- `ApprovalSpec` (approval_spec.dfy): the whole call as one function
  `Approve`. It returns the new stores, the calls made in order, and the
  trace of milestones.
- `Approver` (approver.dfy): the class `SessionAuthenticateApprover`. It
  holds the stores as fields and has one method per collaborator call; every
  call is appended to `log`. Its `Approve` method makes the calls in the
  source's order. It is proved to end in exactly the stores, log and trace
  that `ApprovalSpec.Approve` gives, and to keep `Inv`.
- `ApprovalProperties` (approval_properties.dfy): the properties of the flow,
  proved about `ApprovalSpec.Approve`.

The relay's subscribe and publish outcomes, the clock and the pending
requests are inputs.

## Model

| member | source | states |
|---|---|---|
| Caip.BareReferenceIsNotCaip2Shaped | protocol/sign/src/main/kotlin/com/walletconnect/sign/engine/use_case/calls/ApproveSessionAuthenticateUseCase.kt:91 | a chain id without ':' (such as "1") does not have the CAIP-2 `namespace:reference` shape |
| Caip.AccountOfInjective | protocol/sign/src/main/kotlin/com/walletconnect/sign/engine/use_case/calls/ApproveSessionAuthenticateUseCase.kt:118 | `chain:address` determines chain and address when the address has no ':' |
| Caip.Distinct | protocol/sign/src/main/kotlin/com/walletconnect/sign/engine/use_case/calls/ApproveSessionAuthenticateUseCase.kt:116 | the address list without duplicates: no repeats, the same members, no longer than the input |
| Caip.DistinctKeepsFirstSeenOrder | protocol/sign/src/main/kotlin/com/walletconnect/sign/engine/use_case/calls/ApproveSessionAuthenticateUseCase.kt:116 | deduplicated addresses keep first-seen order: wherever a later address occurs in the input, every earlier one has already occurred |
| Caip.CrossProductLength | protocol/sign/src/main/kotlin/com/walletconnect/sign/engine/use_case/calls/ApproveSessionAuthenticateUseCase.kt:117-118 | the account list has \|chains\| * \|addresses\| entries |
| Caip.CrossProductAt | protocol/sign/src/main/kotlin/com/walletconnect/sign/engine/use_case/calls/ApproveSessionAuthenticateUseCase.kt:117-118 | entry `i * \|addresses\| + j` is chain `i` paired with address `j` (chain-major order) |
| Caip.CrossProductMembership | protocol/sign/src/main/kotlin/com/walletconnect/sign/engine/use_case/calls/ApproveSessionAuthenticateUseCase.kt:117-118 | an id is an account exactly when it pairs some chain with some address |
| Caip.CrossProductNoDup | protocol/sign/src/main/kotlin/com/walletconnect/sign/engine/use_case/calls/ApproveSessionAuthenticateUseCase.kt:116-118 | distinct chains and distinct ':'-free addresses give distinct accounts |
| Caip.BuildAccounts | protocol/sign/src/main/kotlin/com/walletconnect/sign/engine/use_case/calls/ApproveSessionAuthenticateUseCase.kt:117-118 | the nested `forEach` loop builds exactly the cross product |
| Caip.TwoChainsTwoAddresses | protocol/sign/src/main/kotlin/com/walletconnect/sign/engine/use_case/calls/ApproveSessionAuthenticateUseCase.kt:117-118 | two chains and two addresses give the four accounts in chain-major order |
| SignTypes.Inv | protocol/sign/src/main/kotlin/com/walletconnect/sign/engine/use_case/calls/ApproveSessionAuthenticateUseCase.kt:137-172 | every stored session sits under its own topic, beside its symmetric key and both metadata records; every generated key pair is below the key counter |
| ApprovalSpec.ResolveChains | protocol/sign/src/main/kotlin/com/walletconnect/sign/engine/use_case/calls/ApproveSessionAuthenticateUseCase.kt:90 | the chains from the first CACAO's resources when there are any, else the requested chains; empty only when both are |
| ApprovalSpec.Chains | protocol/sign/src/main/kotlin/com/walletconnect/sign/engine/use_case/calls/ApproveSessionAuthenticateUseCase.kt:90 | every resolved chain comes from the first CACAO's resources or from the request's chains, and the resources win when they name any |
| ApprovalSpec.SessionAccounts | protocol/sign/src/main/kotlin/com/walletconnect/sign/engine/use_case/calls/ApproveSessionAuthenticateUseCase.kt:116-118 | \|chains\| * \|distinct issuer addresses\| accounts, at least one when there are chains and CACAOs |
| ApprovalSpec.AssembleSession | protocol/sign/src/main/kotlin/com/walletconnect/sign/engine/use_case/calls/ApproveSessionAuthenticateUseCase.kt:119-136 | required and granted namespaces coincide: one key, the first issuer's namespace, with the same chains, methods and fixed events; the granted accounts are the session accounts; the session sits on the session topic with the request's topic as pairing |
| ApprovalSpec.Rollback | protocol/sign/src/main/kotlin/com/walletconnect/sign/engine/use_case/calls/ApproveSessionAuthenticateUseCase.kt:170-172 | removes the key and the session of the topic and nothing else, and keeps the store invariant |
| ApprovalSpec.Approve | protocol/sign/src/main/kotlin/com/walletconnect/sign/engine/use_case/calls/ApproveSessionAuthenticateUseCase.kt:66-183 | the whole call: its trace starts with Started, and a rejected request changes no store except, after the chain checks, for the generated key pair |
| ApprovalProperties.CallbacksAppend | protocol/sign/src/main/kotlin/com/walletconnect/sign/engine/use_case/calls/ApproveSessionAuthenticateUseCase.kt:73-182 | the callbacks of a concatenated log are the callbacks of its parts |
| ApprovalProperties.RejectedCallbacks | protocol/sign/src/main/kotlin/com/walletconnect/sign/engine/use_case/calls/ApproveSessionAuthenticateUseCase.kt:70-113 | a request that fails a check before the relay is used gets exactly one callback, a failure |
| ApprovalProperties.CallbackDelivery | protocol/sign/src/main/kotlin/com/walletconnect/sign/engine/use_case/calls/ApproveSessionAuthenticateUseCase.kt:73-182 | success fires exactly when the request passes every check and publish succeeds; exactly one callback fires, except when subscribe fails on an admissible request, where the subscribe failure and then the publish outcome are reported |
| ApprovalProperties.MissingRequestChangesNothing | protocol/sign/src/main/kotlin/com/walletconnect/sign/engine/use_case/calls/ApproveSessionAuthenticateUseCase.kt:70-75 | an unknown id changes no store, sends no error reply and fails with MissingRequest only |
| ApprovalProperties.ExpiredRequestIsRejected | protocol/sign/src/main/kotlin/com/walletconnect/sign/engine/use_case/calls/ApproveSessionAuthenticateUseCase.kt:77-86 | an expired request gets one RequestExpired reply on its own topic and id, changes no store, and only fails |
| ApprovalProperties.EmptyCacaoListFails | protocol/sign/src/main/kotlin/com/walletconnect/sign/engine/use_case/calls/ApproveSessionAuthenticateUseCase.kt:90 | an empty CACAO list fails at `first()` and changes nothing |
| ApprovalProperties.BadChainStopsBeforeKeyDerivation | protocol/sign/src/main/kotlin/com/walletconnect/sign/engine/use_case/calls/ApproveSessionAuthenticateUseCase.kt:91-103 | a non-CAIP-2 or non-eip155 resolved chain fails the call before any key pair is generated, with the failure of the first check it fails |
| ApprovalProperties.BareChainIdNeverReachesKeyDerivation | protocol/sign/src/main/kotlin/com/walletconnect/sign/engine/use_case/calls/ApproveSessionAuthenticateUseCase.kt:90-103 | the chain "1" fails the CAIP-2 check and never reaches key generation |
| ApprovalProperties.InvalidCacaoPersistsNothing | protocol/sign/src/main/kotlin/com/walletconnect/sign/engine/use_case/calls/ApproveSessionAuthenticateUseCase.kt:110-113 | one unverifiable CACAO leaves only the generated key pair: no metadata, session or symmetric key, no subscribe or publish, one failure |
| ApprovalProperties.AssembledSessionShape | protocol/sign/src/main/kotlin/com/walletconnect/sign/engine/use_case/calls/ApproveSessionAuthenticateUseCase.kt:119-136 | the session has one namespace, the first issuer's, in both maps, with the resolved chains, the first CACAO's methods and the two fixed events; its keys, metadata and topics are the derived ones |
| ApprovalProperties.SessionAccountsLayout | protocol/sign/src/main/kotlin/com/walletconnect/sign/engine/use_case/calls/ApproveSessionAuthenticateUseCase.kt:116-118 | session accounts: \|chains\| * \|addresses\| of them, chain `i` with distinct address `j` at `i * \|addresses\| + j` |
| ApprovalProperties.SessionAccountsMembership | protocol/sign/src/main/kotlin/com/walletconnect/sign/engine/use_case/calls/ApproveSessionAuthenticateUseCase.kt:116-118 | an account is granted exactly when it pairs a resolved chain with some issuer's address |
| ApprovalProperties.SessionAccountsNoDup | protocol/sign/src/main/kotlin/com/walletconnect/sign/engine/use_case/calls/ApproveSessionAuthenticateUseCase.kt:116-118 | distinct chains and ':'-free issuer addresses give no duplicate account |
| ApprovalProperties.EstablishedEffectsOrder | protocol/sign/src/main/kotlin/com/walletconnect/sign/engine/use_case/calls/ApproveSessionAuthenticateUseCase.kt:103-145 | after the checks: key generation, then both metadata inserts and the session insert (only when methods are non-empty), then `setKey` |
| ApprovalProperties.EstablishedStoresPersist | protocol/sign/src/main/kotlin/com/walletconnect/sign/engine/use_case/calls/ApproveSessionAuthenticateUseCase.kt:122-172 | metadata is stored exactly when methods are non-empty; after a successful publish the session is stored then too, and only then |
| ApprovalProperties.AdmissibleRequestPersists | protocol/sign/src/main/kotlin/com/walletconnect/sign/engine/use_case/calls/ApproveSessionAuthenticateUseCase.kt:90-145 | the same facts about the whole call, and the stored session's chains are the resource chains, or the requested chains when those are empty |
| ApprovalProperties.EstablishedEffectsEnd | protocol/sign/src/main/kotlin/com/walletconnect/sign/engine/use_case/calls/ApproveSessionAuthenticateUseCase.kt:158-177 | the calls end with the publish and its outcome; nothing before the outcome reports success or undoes anything |
| ApprovalProperties.PublishSuccessThenActivation | protocol/sign/src/main/kotlin/com/walletconnect/sign/engine/use_case/calls/ApproveSessionAuthenticateUseCase.kt:158-168 | on publish success: the publish, then success, then pairing activation and verify-context deletion; no success before; the key stays stored |
| ApprovalProperties.PublishFailureRollsBack | protocol/sign/src/main/kotlin/com/walletconnect/sign/engine/use_case/calls/ApproveSessionAuthenticateUseCase.kt:158-176 | on publish failure: key removal, session deletion, failure event, failure callback, in that order; no success; key and session gone; metadata stays |
| ApprovalProperties.SubscribeFailureKeepsSession | protocol/sign/src/main/kotlin/com/walletconnect/sign/engine/use_case/calls/ApproveSessionAuthenticateUseCase.kt:148-168 | a failed subscribe is reported but undoes nothing; publish still runs and success is still reported |
| ApprovalProperties.EmptyMethodsStoreKeyOnly | protocol/sign/src/main/kotlin/com/walletconnect/sign/engine/use_case/calls/ApproveSessionAuthenticateUseCase.kt:120-168 | with no methods no session or metadata is stored, yet the key is stored, subscribe runs and success is reported |
| ApprovalProperties.RelayTraceInOrder | protocol/sign/src/main/kotlin/com/walletconnect/sign/engine/use_case/calls/ApproveSessionAuthenticateUseCase.kt:147-161 | the relay part of the trace is Subscribing then Publishing, added as the calls are made, then SubscribeSucceeded exactly when subscribe succeeds and PublishSucceeded exactly when publish succeeds |
| ApprovalProperties.EstablishedTraceInOrder | protocol/sign/src/main/kotlin/com/walletconnect/sign/engine/use_case/calls/ApproveSessionAuthenticateUseCase.kt:67-161 | the trace of an admissible request is in flow order, contains Publishing, and contains each success milestone exactly when its relay call succeeds |
| ApprovalProperties.TraceByOutcome | protocol/sign/src/main/kotlin/com/walletconnect/sign/engine/use_case/calls/ApproveSessionAuthenticateUseCase.kt:67-161 | the trace of a rejected request ends at the milestone of the last check it passed: [Started] for a missing or expired request, then NotExpired for an empty CACAO list or a non-CAIP-2 chain, then Caip2Compliant for a non-eip155 chain, and the trace up to TopicCreated for an unverifiable CACAO; an admissible request's trace is the derived trace then the commit trace |
| ApprovalProperties.TraceInFlowOrder | protocol/sign/src/main/kotlin/com/walletconnect/sign/engine/use_case/calls/ApproveSessionAuthenticateUseCase.kt:67-161 | every trace starts with Started and lists milestones in flow order, each at most once |
| ApprovalProperties.TraceMarksPublish | protocol/sign/src/main/kotlin/com/walletconnect/sign/engine/use_case/calls/ApproveSessionAuthenticateUseCase.kt:158-161 | the trace reaches Publishing exactly on admissible requests, and PublishSucceeded exactly when success fires |
| ApprovalProperties.CommittedKeepsInv | protocol/sign/src/main/kotlin/com/walletconnect/sign/engine/use_case/calls/ApproveSessionAuthenticateUseCase.kt:137-172 | storing metadata and session, then the key, then the publish outcome keeps every session next to its key and metadata |
| ApprovalProperties.ApprovePreservesInv | protocol/sign/src/main/kotlin/com/walletconnect/sign/engine/use_case/calls/ApproveSessionAuthenticateUseCase.kt:66-183 | every call keeps the store invariant |
| ApprovalProperties.KeyGeneration | protocol/sign/src/main/kotlin/com/walletconnect/sign/engine/use_case/calls/ApproveSessionAuthenticateUseCase.kt:103 | a call generates at most one key pair, the next serial, and the counter moves past it exactly then |
| ApprovalProperties.FreshKeyPairPerApproval | protocol/sign/src/main/kotlin/com/walletconnect/sign/engine/use_case/calls/ApproveSessionAuthenticateUseCase.kt:103 | the key pair of an approval is new, and two successive approvals never share one |
| Approver.SessionAuthenticateApprover.constructor | protocol/sign/src/main/kotlin/com/walletconnect/sign/engine/use_case/calls/ApproveSessionAuthenticateUseCase.kt:59-65 | the object starts from the given stores, which satisfy the store invariant, with an empty log, and is valid |
| Approver.SessionAuthenticateApprover.GenerateAndStoreKeyPair | protocol/sign/src/main/kotlin/com/walletconnect/sign/engine/use_case/calls/ApproveSessionAuthenticateUseCase.kt:103 | stores a fresh key pair and returns its serial and public key |
| Approver.SessionAuthenticateApprover.RespondWithRequestExpired | protocol/sign/src/main/kotlin/com/walletconnect/sign/engine/use_case/calls/ApproveSessionAuthenticateUseCase.kt:79-82 | logs one RequestExpired reply on the request's topic and id; no store changes |
| Approver.SessionAuthenticateApprover.InsertEvent | protocol/sign/src/main/kotlin/com/walletconnect/sign/engine/use_case/calls/ApproveSessionAuthenticateUseCase.kt:186-196 | logs one telemetry event; no store changes |
| Approver.SessionAuthenticateApprover.InsertMetadata | protocol/sign/src/main/kotlin/com/walletconnect/sign/engine/use_case/calls/ApproveSessionAuthenticateUseCase.kt:137-138 | stores the metadata of one side under the session topic |
| Approver.SessionAuthenticateApprover.InsertSession | protocol/sign/src/main/kotlin/com/walletconnect/sign/engine/use_case/calls/ApproveSessionAuthenticateUseCase.kt:139 | stores the session under its topic |
| Approver.SessionAuthenticateApprover.SetKey | protocol/sign/src/main/kotlin/com/walletconnect/sign/engine/use_case/calls/ApproveSessionAuthenticateUseCase.kt:145 | stores the symmetric key under the session topic |
| Approver.SessionAuthenticateApprover.Subscribe | protocol/sign/src/main/kotlin/com/walletconnect/sign/engine/use_case/calls/ApproveSessionAuthenticateUseCase.kt:148-156 | subscribes the topic when the relay accepts |
| Approver.SessionAuthenticateApprover.Publish | protocol/sign/src/main/kotlin/com/walletconnect/sign/engine/use_case/calls/ApproveSessionAuthenticateUseCase.kt:159 | logs the publish of the response on the response topic |
| Approver.SessionAuthenticateApprover.RemoveKeys | protocol/sign/src/main/kotlin/com/walletconnect/sign/engine/use_case/calls/ApproveSessionAuthenticateUseCase.kt:171 | removes the symmetric key of the topic |
| Approver.SessionAuthenticateApprover.DeleteSession | protocol/sign/src/main/kotlin/com/walletconnect/sign/engine/use_case/calls/ApproveSessionAuthenticateUseCase.kt:172 | removes the session of the topic |
| Approver.SessionAuthenticateApprover.Activate | protocol/sign/src/main/kotlin/com/walletconnect/sign/engine/use_case/calls/ApproveSessionAuthenticateUseCase.kt:165 | marks the pairing active |
| Approver.SessionAuthenticateApprover.DeleteVerifyContext | protocol/sign/src/main/kotlin/com/walletconnect/sign/engine/use_case/calls/ApproveSessionAuthenticateUseCase.kt:166 | deletes the verify context of the request |
| Approver.SessionAuthenticateApprover.OnSuccess | protocol/sign/src/main/kotlin/com/walletconnect/sign/engine/use_case/calls/ApproveSessionAuthenticateUseCase.kt:162 | logs the success callback |
| Approver.SessionAuthenticateApprover.OnFailure | protocol/sign/src/main/kotlin/com/walletconnect/sign/engine/use_case/calls/ApproveSessionAuthenticateUseCase.kt:73-182 | logs the failure callback |
| Approver.SessionAuthenticateApprover.Approve | protocol/sign/src/main/kotlin/com/walletconnect/sign/engine/use_case/calls/ApproveSessionAuthenticateUseCase.kt:66-183 | the whole call: from a valid object, ends in the stores, log and trace of ApprovalSpec.Approve and stays valid |
| Approver.SessionAuthenticateApprover.Establish | protocol/sign/src/main/kotlin/com/walletconnect/sign/engine/use_case/calls/ApproveSessionAuthenticateUseCase.kt:101-177 | key generation, then the signature check, then the commit: the key, commit and relay parts of the spec |
| Approver.SessionAuthenticateApprover.Commit | protocol/sign/src/main/kotlin/com/walletconnect/sign/engine/use_case/calls/ApproveSessionAuthenticateUseCase.kt:122-177 | the optional inserts, then the relay calls |
| Approver.SessionAuthenticateApprover.PersistSession | protocol/sign/src/main/kotlin/com/walletconnect/sign/engine/use_case/calls/ApproveSessionAuthenticateUseCase.kt:116-139 | builds the accounts and the session and stores both metadata records and the session |
| Approver.SessionAuthenticateApprover.Relay | protocol/sign/src/main/kotlin/com/walletconnect/sign/engine/use_case/calls/ApproveSessionAuthenticateUseCase.kt:145-177 | `setKey`, subscribe, publish and its outcome |
| Approver.SessionAuthenticateApprover.SubscribeSessionTopic | protocol/sign/src/main/kotlin/com/walletconnect/sign/engine/use_case/calls/ApproveSessionAuthenticateUseCase.kt:145-156 | `setKey`, the subscribe, and its failure report |
| Approver.SessionAuthenticateApprover.PublishResponse | protocol/sign/src/main/kotlin/com/walletconnect/sign/engine/use_case/calls/ApproveSessionAuthenticateUseCase.kt:158-177 | the publish, then success with activation, or rollback with failure |

## Left out

- Cryptography: X25519 key generation, key agreement, topic hashing and CACAO
  signature checking are functions of `Env`. A generated key pair is
  identified by a serial number from a counter in the key store.
- Helpers whose code is not part of this model are functions of `Env`:
  `getChains`, `CoreValidator.isChainIdCAIP2Compliant`,
  `SignValidator.getNamespaceKeyFromChainId` and `Issuer`.
  `Caip.Caip2Shaped` states only the shape a CAIP-2 check must at least
  demand.
- Expiry: `isExpired()` is not part of this model. A request is expired when
  its expiry is strictly before the input time `now`.
- Concurrency: `supervisorScope`, `scope.launch` and the asynchronous relay
  callbacks. The subscribe outcome is an input, reported before the publish.
  Pairing activation and verify-context deletion run in order, right after
  the success callback. Telemetry inserts are appended to the log at the
  point of the call.
- ApprovalProperties.CallbackDelivery: orders the subscribe failure before
  the publish outcome, because the model runs the relay callbacks in call
  order. In the source the two are concurrent, and their order is not fixed.
- ApprovalProperties.RelayTraceInOrder: puts SubscribeSucceeded before
  PublishSucceeded. In the source the two are added by independent relay
  callbacks (lines 150 and 161), in either order; the model appends the
  subscribe callback's milestone first.
- ApprovalProperties.EstablishedTraceInOrder: the same order of the two
  callback milestones, which the model fixes and the source does not.
- ApprovalProperties.TraceInFlowOrder: the same order of the two callback
  milestones, which the model fixes and the source does not.
- Payloads: IRN parameters, TTLs, envelope types, the JSON-RPC response
  wrapper, log messages, and the trace snapshot carried by each telemetry
  event. The trace is a list of milestone tags. The response carries only
  the request id, keys, metadata and CACAOs.
- Exceptions: the `NoRelayConnectionException` and
  `NoInternetConnectionException` telemetry (lines 180-181), and the failure
  messages. Failures are tags of `Failure`.
- Relay calls that throw: `respondWithError`, `subscribe` and
  `publishJsonRpcResponse` are modelled as returning, with subscribe and
  publish failures reported only through their failure callbacks. In the
  source a relay call can also throw (the catch at lines 178-182 tags
  `NoRelayConnectionException` and `NoInternetConnectionException`); control
  then goes straight to the catch and `onFailure` fires once there. A throwing
  `respondWithError` skips the RequestExpired event; a throwing `subscribe`
  skips the publish; a throwing `subscribe` or publish skips the rollback of
  lines 171-172, so the key stored at line 145 and the session inserted at
  line 139 stay.
- Collaborator faults: `insertOrAbortMetadata` conflicts, session-store and
  key-store errors, and an error inside `removeKeys`. Every collaborator
  call succeeds, except that subscribe and publish may report failure through their callbacks.
- `removeKeys(sessionTopic)`: modelled as removing the symmetric key stored
  under the session topic. The generated key pair stays.

Behaviour of the code a reader may not expect:

- Only the issuer addresses are deduplicated. When the resolved chain list
  repeats a chain, its accounts repeat too (`SessionAccountsNoDup` needs
  distinct chains).
- With an empty method list, no session is stored, but the symmetric key is
  stored, the topic is subscribed and success is reported. The key then has
  no session beside it.
- A failed publish removes the key and the session, but not the two metadata
  records stored for the session.
- A failed CACAO check happens after the key pair is generated. That key
  pair stays in the key store.
