# Trusted operation engine of the encointer community sidechain

This project is a Dafny model of the state-transition core of the
encointer community sidechain, with proofs about that model. It covers
four pieces:

- Signed trusted calls. The model has their signing payload and the
  `execute` state machine: the nonce check, the sudo / enclave-signer /
  ceremony-phase gates, atomic pallet dispatch, the shield and unshield
  arithmetic, the outgoing-call queue, and the nonce bump on success. It
  also has the static table of storage keys each call asks to
  re-synchronise.
- Getters. Public getters and signed trusted getters, the ceremony-master
  confidentiality gate, the 1-based registry aggregation loops, and the
  getters' storage-key change sets.
- Storage-proof verification of parentchain state entries, one entry at a
  time and in batches.
- The ceremony-master predicate, which is the `EnsureAliceOrRoot` origin
  check applied to a signed origin.

Files and modules:

| file | module | content |
|---|---|---|
| `types.dfy` | `Types`, `Scale` | bytes, 32-byte identifiers, the u32 index, phases, the little-endian u32 encoding |
| `signatures.dfy` | `Signatures` | the signature scheme as a value, with its correctness and unforgeability hypotheses |
| `runtime.dfy` | `Runtime` | origins, Alice, `EnsureAliceOrRoot`, the pallet state, the nonce map, pallet calls and the dispatcher |
| `encointer_helpers.dfy` | `EncointerHelpers` | `IsCeremonyMaster` |
| `storage_keys.dfy` | `StorageKeys` | symbolic storage-key descriptors |
| `trusted_call.dfy` | `TrustedCalls` | calls, signing, per-variant call bodies, the phase-gate table, the change-set table |
| `stf.dfy` | `StateTransition` | the classes `Stf` (state + `Execute`) and `CallQueue` |
| `getter.dfy` | `Getters` | getters, aggregation, confidentiality, change sets |
| `verify_storage_proof.dfy` | `StorageProof` | per-entry and batch storage-proof checks |

External code becomes function-valued parameters. Their guarantees are
stated as predicates that the lemmas take as hypotheses:

- The signature scheme is a `SignatureScheme` value. Each lemma states
  which hypothesis (`Correct`, `Unforgeable`) it depends on.
- The SCALE encodings are `CallCodec` / `GetterCodec`, and blake2_256 sits
  in `CallCodec`.
- The runtime's `dispatch_bypass_filter` is `Runtime.dispatch`. Dispatch is
  atomic: it returns either a whole new pallet state or an error text.
- `StorageProofChecker::check_proof` is a `ProofChecker`, and a SCALE
  decoder is a `Decoder`.
- Storage keys are descriptors (pallet, item, map key, hasher), not hashed
  bytes.

The model keeps the account nonces in `Stf.nonces`, apart from the pallet
state that dispatch rewrites, so in the model a dispatched pallet call
never changes a nonce. In the runtime the nonces sit in frame_system's
account record, which a balance change can reap (see "## Left out").
Balances are unbounded (`nat`).

Behaviour of the code worth noting:

- `InvalidNonce` carries the nonce the caller submitted, not the expected
  one (trusted_call.rs:238-241).
- Neither `execute` verifies a signature: the trusted call's `execute`
  and the getter's `execute` both take the signed value as given.
- The public `ceremonies_registered_endorsees_count` reads the pallet's
  `EndorseesCount` item (getter.rs:720-723), a different storage item from
  the endorsee registry's own count that the trusted endorsee list
  iterates (getter.rs:529-530). The model keeps the two apart.

## Model

| member | source | states |
|---|---|---|
| Scale.EncodeU32Injective | app-libs/stf/src/trusted_call.rs:181-186 | distinct nonces have distinct 4-byte SCALE encodings, so both the signer and the verifier bind the nonce |
| EncointerHelpers.IsCeremonyMaster | app-libs/stf/src/encointer_helpers.rs:23-34 | the predicate is total and holds exactly for the Alice account: a signed origin never passes the root half of the check, and a failed check is `false` |
| Runtime.EnsureAliceOrRoot | app-libs/sgx-runtime/src/lib.rs:281-286 | the origin passes exactly when it is Alice's signed origin or root |
| Runtime.IncNonce | app-libs/stf/src/trusted_call.rs:794-796 | the bumped nonce always differs from the old one |
| TrustedCalls.Sign | app-libs/stf/src/trusted_call.rs:174-187 | the payload built by appending is encode(call) ++ encode(nonce) ++ mrenclave ++ shard, and the result carries the call and nonce unchanged |
| TrustedCalls.VerifySignature | app-libs/stf/src/trusted_call.rs:202-208 | it rebuilds the same payload and checks it against the call's own sender account, not against the signer |
| TrustedCalls.CallPayloadInjective | app-libs/stf/src/trusted_call.rs:181-186 | equal payloads have equal call encodings, nonces, mrenclaves and shards |
| TrustedCalls.SignThenVerify | app-libs/stf/src/trusted_call.rs:174-208 | a call signed with its sender's key verifies for the same mrenclave and shard |
| TrustedCalls.TamperedCallFailsVerification | app-libs/stf/src/trusted_call.rs:174-208 | a signature verifies only for the exact call, nonce, mrenclave and shard it was made over, and only when the signing key is the sender's |
| TrustedCalls.OnlyGenuineCallSignatureVerifies | app-libs/stf/src/trusted_call.rs:202-208 | for a sender holding a given key, exactly the genuine signature bytes verify |
| TrustedCalls.VerifySignatureWorks | app-libs/stf/src/trusted_call.rs:896-912 | Alice's balance_set_balance(Alice, Alice, 42, 42), signed with nonce 21, a zero mrenclave and the default shard, verifies |
| TrustedCalls.UnshieldFunds | app-libs/stf/src/trusted_call.rs:854-868 | a free balance below the amount gives MissingFunds, any other failure is a dispatch error; it succeeds exactly when the funds suffice and the root set_balance(free - amount, reserved) dispatch succeeds; on success (with a sound set_balance) free drops by exactly the amount, reserved and every other account stay |
| TrustedCalls.ShieldFunds | app-libs/stf/src/trusted_call.rs:870-881 | it succeeds exactly when the root set_balance(free + amount, reserved) dispatch succeeds, and every failure is a dispatch error; on success (with a sound set_balance) free grows by exactly the amount, reserved and every other account stay |
| TrustedCalls.CallBody | app-libs/stf/src/trusted_call.rs:242-793 | a call body never reports InvalidNonce: that error belongs to the nonce check before it |
| TrustedCalls.ErrorsRaisedByOwnCheck | app-libs/stf/src/trusted_call.rs:242-793 | MissingPrivileges(root) comes only from set_balance with a non-root signer, RequireEnclaveSignerAccount only from a shield not sent by the enclave signer, MissingFunds only from an unshield above the free balance; every other body failure is a dispatch error |
| TrustedCalls.IsRoot | app-libs/stf/src/trusted_call.rs:883-889 | an account is root exactly when a sudo key is set and equals it, so with no sudo key nobody is root |
| TrustedCalls.PhaseGateEnforced | app-libs/stf/src/trusted_call.rs:367-628 | out of phase, every phase-gated call (register, upgrade, unregister, claim_rewards, attest_attendees, attest_claims, set_meetup_time_offset) fails with its own phase cause before dispatch; in phase it never fails with that cause |
| TrustedCalls.UngatedNeverReportsPhaseCause | app-libs/stf/src/trusted_call.rs:242-793 | a call the phase table lists as ungated (every call but the seven gated ones, endorse_newcomer and the ceremonies setters included) never fails with any of the seven phase-gate causes, in any phase |
| TrustedCalls.SetBalanceRequiresRoot | app-libs/stf/src/trusted_call.rs:243-261 | balance_set_balance fails with MissingPrivileges(root) unless root is the sudo key; otherwise it dispatches set_balance as root |
| TrustedCalls.UnshieldMovesFunds | app-libs/stf/src/trusted_call.rs:280-297 | a short free balance gives MissingFunds; on success free drops by exactly the amount, reserved and every other account stay, and exactly one unshield call tagged with the call hash is queued |
| TrustedCalls.ShieldMovesFunds | app-libs/stf/src/trusted_call.rs:298-303 | a non-enclave signer gives RequireEnclaveSignerAccount; the shield succeeds exactly when the signer is the enclave signer and the root set_balance(free + amount, reserved) succeeds; on success free grows by exactly the amount, reserved and every other account stay, and nothing is queued |
| TrustedCalls.OnlyUnshieldQueuesCalls | app-libs/stf/src/trusted_call.rs:231-797 | a successful call body queues an outgoing call exactly when it is an unshield |
| TrustedCalls.StorageHashesToUpdate | app-libs/stf/src/trusted_call.rs:799-851 | the table itself is the definition; its contract only bounds it: a non-empty change set starts with CurrentPhase, holds at most four keys, and names only real scheduler items (which calls get which keys is related to the phase gates by ChangeSetCoversPhaseGate) |
| TrustedCalls.ChangeSetCoversPhaseGate | app-libs/stf/src/trusted_call.rs:799-851 | a call has a non-empty change set exactly when it is phase-gated or is endorse_newcomer; every gated call re-fetches the phase its gate read; endorse_newcomer re-fetches Bootstrappers |
| StateTransition.Stf.Execute | app-libs/stf/src/trusted_call.rs:231-797 | a wrong nonce gives InvalidNonce(submitted nonce); a body error is returned as is; either failure leaves state, nonces and queue unchanged; success keeps the body's state, queues its outgoing call and bumps only the sender's nonce |
| StateTransition.ReplayRejected | app-libs/stf/src/trusted_call.rs:236-241 | after a signed call succeeds, resubmitting it fails with InvalidNonce and changes nothing: pallets, nonces and queue end as the first execution left them |
| StateTransition.Stf.IncAccountNonce | app-libs/stf/src/trusted_call.rs:795 | only the given account's nonce changes, bumped by one with u32 wrap-around; the pallet state stays |
| StateTransition.CallQueue.Push | app-libs/stf/src/trusted_call.rs:289-295 | the call is appended at the end of the queue, which otherwise stays |
| StateTransition.Stf.ExecuteGetter | app-libs/stf/src/getter.rs:221-228 | a getter reads the current state only (no frame to modify) and answers the declarative getter result |
| Getters.SignGetter | app-libs/stf/src/getter.rs:198-201 | the signed getter carries the getter unchanged and a signature over the getter's encoding alone, with no nonce, mrenclave or shard |
| Getters.VerifyGetterSignature | app-libs/stf/src/getter.rs:215-218 | under a correct and unforgeable scheme, a signed getter verifies exactly when it is the getter signed with its own sender's key |
| Getters.GetterSignThenVerify | app-libs/stf/src/getter.rs:198-218 | a getter signed with its sender's key over its encoding alone verifies |
| Getters.GetterTamperDetected | app-libs/stf/src/getter.rs:198-218 | a getter signature verifies only for the same getter, and only when the signing key is the sender's |
| Getters.OccupiedSlotsExact | app-libs/stf/src/getter.rs:405-430 | the visited occupied slots are strictly ascending and are exactly the slots 1..n that hold an account |
| Getters.CollectedReadsOccupiedSlots | app-libs/stf/src/getter.rs:405-430 | the collected list is as long as the occupied slots (at most n), and its k-th account is the one in the k-th occupied slot |
| Getters.CollectedMembership | app-libs/stf/src/getter.rs:405-430 | an account is listed exactly when one of slots 1..n holds it |
| Getters.RegisteredParticipants | app-libs/stf/src/getter.rs:405-432 | the loop over 1..count yields nothing for a count below 1, otherwise the accounts of the occupied slots in order |
| Getters.PublicCountBoundsAggregate | app-libs/stf/src/getter.rs:405-432 | for bootstrappers, reputables and newbies, whose public count is the registry's own count: the master's list exists exactly when that count is positive, with at most that many accounts |
| Getters.ExecuteTrustedGetter | app-libs/stf/src/getter.rs:238-642 | the arm-by-arm execution equals the declarative answer: a gated read of the requested item |
| Getters.ExecuteAggregate | app-libs/stf/src/getter.rs:395-433 | the plural registry arm encodes the aggregated list, or answers nothing |
| Getters.ConfidentialityGate | app-libs/stf/src/getter.rs:284-611 | every ceremonies_* getter answers nothing unless its sender is Alice; the balance, nonce and encointer-balance getters always answer |
| Getters.MasterAnswersUnlessAbsent | app-libs/stf/src/getter.rs:325-611 | for the master, a getter answers nothing exactly when its item is absent: an empty slot, no attestation entry, or a count below 1 |
| Getters.PublicGetterResult | app-libs/stf/src/getter.rs:677-729 | every public getter answers |
| Getters.ExecuteGetter | app-libs/stf/src/getter.rs:221-228 | delegates to the public or trusted getter; a public getter always answers |
| Getters.TrustedGetterStorageHashes | app-libs/stf/src/getter.rs:644-673 | encointer_balance asks for DemurragePerBlock[cid]; aggregated_account_data asks for the ceremony index, the current phase's duration and the next phase timestamp; others ask for nothing; every scheduler key names a real scheduler item |
| Getters.AggregatedAccountDataKeysAsWritten | app-libs/stf/src/getter.rs:656-667 | the as-written change set is the corrected one except that its last item name is the scheduler's NextPhaseTimestamp with a space in front |
| Getters.AsWrittenMissesNextPhaseTimestamp | app-libs/stf/src/getter.rs:666 | as written, the last key names no scheduler item, and the next phase timestamp is never re-fetched |
| Getters.PublicGetterStorageHashes | app-libs/stf/src/getter.rs:731-748 | ceremonies_reward asks for NominalIncome[cid]; every other public getter asks for nothing |
| Getters.GetterStorageHashes | app-libs/stf/src/getter.rs:229-234 | a public getter gets exactly the public change-set table entry for it, a trusted getter exactly the trusted table entry for it and the current state; a change set holds at most three keys and is non-empty exactly for the three getters that have one |
| StorageProof.VerifyStorageProof | core-primitives/storage/src/verify_storage_proof.rs:35-47 | succeeds exactly when a proof is present and the checker shows exactly the claimed value; otherwise NoProofSupplied, the checker's error, or WrongValue |
| StorageProof.VerifyStorageProofAndDecode | core-primitives/storage/src/verify_storage_proof.rs:49-63 | verification errors pass through; once verified, an absent value gives Ok with an absent value, a present value that decodes gives Ok with its decoding, and one that does not gives Codec; the key is kept |
| StorageProof.IntoStorageEntries | core-primitives/storage/src/verify_storage_proof.rs:104-111 | converts each item, keeping length and order |
| StorageProof.VerifyStorageEntries | core-primitives/storage/src/verify_storage_proof.rs:67-83 | succeeds exactly when every entry verifies, with one verified entry per input in order (key and value copied); otherwise it returns the error of the first failing entry |
| StorageProof.VerifyStorageEntriesAndDecode | core-primitives/storage/src/verify_storage_proof.rs:85-102 | succeeds exactly when every entry verifies and decodes, with the decoded entries in input order; otherwise it returns the first failing entry's error |

## Left out

- Cryptography, SCALE and hashing: sr25519 and MultiSignature, blake2_256,
  SCALE encode/decode, and the twox/blake2 hashing inside
  `storage_value_key` / `storage_map_key`. All of these are parameters.
- Signatures.Unforgeable: this is an idealised hypothesis, not a property
  of any concrete scheme.
- Pallet business rules. The balances, encointer-balances and ceremonies
  pallets behind dispatch are opaque, including the in-pallet master check
  of the `ceremonies_set_*` / purge calls. The only exception is the
  `SetBalanceSound` assumption about root `set_balance` used by the
  shield/unshield lemmas.
- StateTransition.Stf.Execute: "bumps only the sender's nonce" and "a failure leaves the nonces unchanged" hold only for calls that reap no account. In the runtime a `set_balance` (a root balance_set_balance, a shield or an unshield) that leaves an account's total below the existential deposit of 500 (app-libs/sgx-runtime/src/lib.rs:226,239-240) reaps that account in frame_system and drops its nonce; the model keeps nonces apart from dispatch, so it never does.
- StateTransition.ReplayRejected: holds only for calls that reap no account. Unshielding a sender's whole free balance with nothing reserved reaps the sender, whose nonce then restarts, so a later call signed with a reused nonce can pass the nonce check in the runtime; the model does not capture this.
- Dispatch is atomic in this model. Partial writes by a failing,
  non-transactional dispatch are not modelled, and neither is the
  existential-deposit reaping that `set_balance` may perform.
- TrustedCalls.ShieldMovesFunds: does not model u128 overflow of
  `free + amount`, because balances are unbounded naturals.
- Runtime.IncNonce: the u32 nonce bump is modelled as wrapping at 2^32.
  frame_system's `inc_account_nonce` is not part of this model.
- The enclave-signer check is modelled as equality with the runtime's
  enclave signer account. `ensure_enclave_signer_account` (helpers.rs) is
  not part of this model.
- The EVM call and getter variants (`#[cfg(feature = "evm")]`), which
  depend on pallet_evm and address mapping.
- Trie proof reconstruction inside `check_proof`, and the conversion of its
  error into the storage error type. A failing check is passed through as
  the checker's own `Error` value.
- Logging (`debug!`, `warn!`, `error!`).
- Pallet reads that the engine only forwards (encointer balance,
  aggregated account data, assignments, meetup counts, votes, attestation
  indices, total issuance, meetup time offset, endorsees count, nominal
  income). They are values of an opaque `storage` function, already encoded.
- `sender_account` of calls and getters is a plain projection
  (`TrustedCalls.SenderAccount`, `Getters.GetterSender`). It has no
  contract of its own. The signing contracts above are stated against it.

## Findings

| source | as written | input that shows it | evidently intended | confidence | as-written member | corrected member |
|---|---|---|---|---|---|---|
| app-libs/stf/src/getter.rs:666 | the aggregated_account_data change set asks for the scheduler item `" NextPhaseTimestamp"`, with a leading space | any `ceremonies_aggregated_account_data` getter: its third key hashes an item name that the scheduler pallet does not have, while the node API reads `"NextPhaseTimestamp"` (core-primitives/node-api/api-client-extensions/src/encointer.rs:118) | the item `NextPhaseTimestamp`, so the timestamp is re-synchronised | high, not executed | Getters.AggregatedAccountDataKeysAsWritten, Getters.AsWrittenMissesNextPhaseTimestamp | Getters.TrustedGetterStorageHashes |
