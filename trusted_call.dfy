/** Signed trusted calls: the call variants, their canonical signing payload,
    the per-variant bodies that `execute` runs after the nonce check, and the
    static table of storage keys each call asks to be re-synchronised. */
module TrustedCalls {
  import opened Types
  import opened Scale
  import opened Signatures
  import opened Runtime
  import opened StorageKeys

  /** The state-mutating operations (the wire enum, in wire order; the
      EVM variants are not modelled). The first field of every variant is
      the sender account. */
  datatype TrustedCall =
    | BalanceSetBalance(root: AccountId, who: AccountId, freeBalance: Balance, reservedBalance: Balance)
    | BalanceTransfer(from: AccountId, to: AccountId, value: Balance)
    | BalanceUnshield(accountIncognito: AccountId, beneficiary: AccountId, value: Balance, shard: ShardIdentifier)
    | BalanceShield(enclaveAccount: AccountId, who: AccountId, value: Balance)
    | EncointerBalanceTransfer(from: AccountId, to: AccountId, communityId: CommunityIdentifier, amount: BalanceType)
    | EncointerSetFeeConversionFactor(who: AccountId, feeConversionFactor: FeeConversionFactorType)
    | EncointerTransferAll(from: AccountId, to: AccountId, communityId: CommunityIdentifier)
    | CeremoniesRegisterParticipant(who: AccountId, cid: CommunityIdentifier, maybeProof: Option<ProofOfAttendance>)
    | CeremoniesUpgradeRegistration(who: AccountId, cid: CommunityIdentifier, proof: ProofOfAttendance)
    | CeremoniesUnregisterParticipant(who: AccountId, cid: CommunityIdentifier, maybeReputationCommunityCeremony: Option<CommunityCeremony>)
    | CeremoniesAttestAttendees(who: AccountId, cid: CommunityIdentifier, numberOfParticipantsVote: u32, attestations: seq<AccountId>)
    | CeremoniesAttestClaims(who: AccountId, claims: seq<ClaimOfAttendance>)
    | CeremoniesEndorseNewcomer(who: AccountId, cid: CommunityIdentifier, newbie: AccountId)
    | CeremoniesClaimRewards(who: AccountId, cid: CommunityIdentifier, maybeMeetupIndex: Option<MeetupIndexType>)
    | CeremoniesSetInactivityTimeout(who: AccountId, inactivityTimeout: InactivityTimeoutType)
    | CeremoniesSetEndorsementTicketsPerBootstrapper(who: AccountId, ticketsPerBootstrapper: EndorsementTicketsType)
    | CeremoniesSetEndorsementTicketsPerReputable(who: AccountId, ticketsPerReputable: EndorsementTicketsType)
    | CeremoniesSetReputationLifetime(who: AccountId, reputationLifetime: ReputationLifetimeType)
    | CeremoniesSetMeetupTimeOffset(who: AccountId, meetupTimeOffset: MeetupTimeOffsetType)
    | CeremoniesSetTimeTolerance(who: AccountId, timeTolerance: Moment)
    | CeremoniesSetLocationTolerance(who: AccountId, locationTolerance: u32)
    | CeremoniesPurgeCommunityCeremony(who: AccountId, communityCeremony: CommunityCeremony)

  /** The account a call is sent by, which is also the account its
      signature is checked against. */
  function SenderAccount(call: TrustedCall): AccountId {
    match call
    case BalanceSetBalance(sender, _, _, _) => sender
    case BalanceTransfer(sender, _, _) => sender
    case BalanceUnshield(sender, _, _, _) => sender
    case BalanceShield(sender, _, _) => sender
    case EncointerBalanceTransfer(sender, _, _, _) => sender
    case EncointerSetFeeConversionFactor(sender, _) => sender
    case EncointerTransferAll(sender, _, _) => sender
    case CeremoniesRegisterParticipant(sender, _, _) => sender
    case CeremoniesUpgradeRegistration(sender, _, _) => sender
    case CeremoniesUnregisterParticipant(sender, _, _) => sender
    case CeremoniesAttestAttendees(sender, _, _, _) => sender
    case CeremoniesAttestClaims(sender, _) => sender
    case CeremoniesEndorseNewcomer(sender, _, _) => sender
    case CeremoniesClaimRewards(sender, _, _) => sender
    case CeremoniesSetInactivityTimeout(sender, _) => sender
    case CeremoniesSetEndorsementTicketsPerBootstrapper(sender, _) => sender
    case CeremoniesSetEndorsementTicketsPerReputable(sender, _) => sender
    case CeremoniesSetReputationLifetime(sender, _) => sender
    case CeremoniesSetMeetupTimeOffset(sender, _) => sender
    case CeremoniesSetTimeTolerance(sender, _) => sender
    case CeremoniesSetLocationTolerance(sender, _) => sender
    case CeremoniesPurgeCommunityCeremony(sender, _) => sender
  }

  /** The call's SCALE encoding and the blake2_256 hash, both external. */
  datatype CallCodec = CallCodec(encode: TrustedCall -> Bytes, blake2_256: Bytes -> Hash32)

  /** The wire encoding of calls is injective (a SCALE property of the enum). */
  ghost predicate InjectiveCallEncoding(codec: CallCodec) {
    forall c1: TrustedCall, c2: TrustedCall :: codec.encode(c1) == codec.encode(c2) ==> c1 == c2
  }

  datatype TrustedCallSigned = TrustedCallSigned(call: TrustedCall, nonce: Index, signature: Signature)

  // ---------------------------------------------------------------------
  // Signing payload, signing and verification
  // ---------------------------------------------------------------------

  /** The signed bytes: encode(call) ++ encode(nonce) ++ encode(mrenclave) ++
      encode(shard); a u32 encodes to 4 bytes, a 32-byte array and an H256
      to their 32 bytes. */
  function CallPayload(codec: CallCodec, call: TrustedCall, nonce: Index, mrenclave: MrEnclave, shard: ShardIdentifier): Bytes {
    codec.encode(call) + EncodeU32(nonce) + mrenclave + shard
  }

  /** What `verify_signature` decides: the signature over the recomputed
      payload, checked against the call's own sender. */
  function CallSignatureValid(scheme: SignatureScheme, codec: CallCodec, signed: TrustedCallSigned,
                              mrenclave: MrEnclave, shard: ShardIdentifier): bool
  {
    scheme.verify(signed.signature, CallPayload(codec, signed.call, signed.nonce, mrenclave, shard), SenderAccount(signed.call))
  }

  /** `TrustedCall::sign`: build the payload by appending and sign it. */
  method Sign(call: TrustedCall, pair: KeyPair, nonce: Index, mrenclave: MrEnclave, shard: ShardIdentifier,
              scheme: SignatureScheme, codec: CallCodec) returns (signed: TrustedCallSigned)
    ensures signed.call == call && signed.nonce == nonce
    ensures signed.signature == scheme.sign(pair, CallPayload(codec, call, nonce, mrenclave, shard))
  {
    var payload := codec.encode(call);
    payload := payload + EncodeU32(nonce);
    payload := payload + mrenclave;
    payload := payload + shard;
    signed := TrustedCallSigned(call, nonce, scheme.sign(pair, payload));
  }

  /** `TrustedCallSigned::verify_signature`: rebuild the same payload and
      verify against the sender embedded in the call, not against the signer. */
  method VerifySignature(signed: TrustedCallSigned, mrenclave: MrEnclave, shard: ShardIdentifier,
                         scheme: SignatureScheme, codec: CallCodec) returns (ok: bool)
    ensures ok == CallSignatureValid(scheme, codec, signed, mrenclave, shard)
  {
    var payload := codec.encode(signed.call);
    payload := payload + EncodeU32(signed.nonce);
    payload := payload + mrenclave;
    payload := payload + shard;
    ok := scheme.verify(signed.signature, payload, SenderAccount(signed.call));
  }

  /** Equal payloads have equal parts: the nonce, mrenclave and shard are
      fixed-width, so the call encoding is determined too. */
  lemma CallPayloadInjective(codec: CallCodec,
                             c1: TrustedCall, n1: Index, m1: MrEnclave, s1: ShardIdentifier,
                             c2: TrustedCall, n2: Index, m2: MrEnclave, s2: ShardIdentifier)
    requires CallPayload(codec, c1, n1, m1, s1) == CallPayload(codec, c2, n2, m2, s2)
    ensures codec.encode(c1) == codec.encode(c2) && n1 == n2 && m1 == m2 && s1 == s2
  {
    var p := CallPayload(codec, c1, n1, m1, s1);
    var e1, e2 := codec.encode(c1), codec.encode(c2);
    assert |e1| == |e2|;
    var k := |e1|;
    assert p[..k] == e1 by { assert p == e1 + (EncodeU32(n1) + m1 + s1); }
    assert p[..k] == e2 by { assert p == e2 + (EncodeU32(n2) + m2 + s2); }
    assert p[k..k + 4] == EncodeU32(n1) && p[k..k + 4] == EncodeU32(n2);
    assert p[k + 4..k + 36] == m1 && p[k + 4..k + 36] == m2;
    assert p[k + 36..] == s1 && p[k + 36..] == s2;
    EncodeU32Injective(n1, n2);
  }

  /** Sign-then-verify: a call signed with its sender's key verifies for the
      same mrenclave and shard. */
  lemma SignThenVerify(scheme: SignatureScheme, codec: CallCodec, call: TrustedCall, pair: KeyPair,
                       nonce: Index, mrenclave: MrEnclave, shard: ShardIdentifier)
    requires Correct(scheme)
    requires scheme.public(pair) == SenderAccount(call)
    ensures CallSignatureValid(scheme, codec,
              TrustedCallSigned(call, nonce, scheme.sign(pair, CallPayload(codec, call, nonce, mrenclave, shard))),
              mrenclave, shard)
  {
  }

  /** Tamper detection: a signature made over (call, nonce, mrenclave, shard)
      verifies for (call', nonce', mrenclave', shard') only if all four are
      unchanged and the signing key is the call's sender. */
  lemma TamperedCallFailsVerification(scheme: SignatureScheme, codec: CallCodec, pair: KeyPair,
                                      call: TrustedCall, nonce: Index, mrenclave: MrEnclave, shard: ShardIdentifier,
                                      call': TrustedCall, nonce': Index, mrenclave': MrEnclave, shard': ShardIdentifier)
    requires Unforgeable(scheme) && InjectiveCallEncoding(codec)
    requires CallSignatureValid(scheme, codec,
               TrustedCallSigned(call', nonce', scheme.sign(pair, CallPayload(codec, call, nonce, mrenclave, shard))),
               mrenclave', shard')
    ensures call' == call && nonce' == nonce && mrenclave' == mrenclave && shard' == shard
    ensures scheme.public(pair) == SenderAccount(call)
  {
    VerifiesOnlyOwnMessage(scheme, pair, CallPayload(codec, call, nonce, mrenclave, shard),
                           CallPayload(codec, call', nonce', mrenclave', shard'), SenderAccount(call'));
    CallPayloadInjective(codec, call', nonce', mrenclave', shard', call, nonce, mrenclave, shard);
  }

  /** For a call whose sender holds `pair`, exactly the genuine signature
      verifies: any altered signature bytes make verification fail. */
  lemma OnlyGenuineCallSignatureVerifies(scheme: SignatureScheme, codec: CallCodec, pair: KeyPair,
                                         signed: TrustedCallSigned, mrenclave: MrEnclave, shard: ShardIdentifier)
    requires Correct(scheme) && Unforgeable(scheme)
    requires scheme.public(pair) == SenderAccount(signed.call)
    ensures CallSignatureValid(scheme, codec, signed, mrenclave, shard)
            <==> signed.signature == scheme.sign(pair, CallPayload(codec, signed.call, signed.nonce, mrenclave, shard))
  {
    if CallSignatureValid(scheme, codec, signed, mrenclave, shard) {
      OnlyGenuineSignatureVerifies(scheme, pair, CallPayload(codec, signed.call, signed.nonce, mrenclave, shard), signed.signature);
    }
  }

  /** The source's `verify_signature_works` test: Alice signs
      balance_set_balance(Alice, Alice, 42, 42) with nonce 21, a zero
      mrenclave and the default shard, and the signature verifies. */
  lemma VerifySignatureWorks(scheme: SignatureScheme, codec: CallCodec, alicePair: KeyPair)
    requires Correct(scheme)
    requires scheme.public(alicePair) == ALICE
    ensures var call := BalanceSetBalance(ALICE, ALICE, 42, 42);
            CallSignatureValid(scheme, codec,
              TrustedCallSigned(call, 21, scheme.sign(alicePair, CallPayload(codec, call, 21, ZERO_HASH, ZERO_HASH))),
              ZERO_HASH, ZERO_HASH)
  {
    SignThenVerify(scheme, codec, BalanceSetBalance(ALICE, ALICE, 42, 42), alicePair, 21, ZERO_HASH, ZERO_HASH);
  }

  // ---------------------------------------------------------------------
  // Execution of one call body
  // ---------------------------------------------------------------------

  datatype StfError =
    | InvalidNonce(nonce: Index)
    | MissingPrivileges(account: AccountId)
    | MissingFunds
    | RequireEnclaveSignerAccount
    | Dispatch(cause: string)

  /** The outgoing parentchain call queued by an unshield: the encoded tuple
      (unshield_funds_fn, beneficiary, value, shard, call_hash). */
  datatype OpaqueCall = UnshieldFundsCall(callIndex: CallIndex, beneficiary: AccountId, value: Balance,
                                          shard: ShardIdentifier, callHash: Hash32)

  /** What a successful call body leaves behind: the new pallet state and at
      most one outgoing call. */
  datatype Effect = Effect(state: PalletState, outgoing: Option<OpaqueCall>)

  /** `dispatch_bypass_filter`, with a dispatch error wrapped into
      `Dispatch(context ++ debug(error))`. */
  function DispatchAs(rt: Runtime, s: PalletState, pc: PalletCall, origin: RawOrigin, context: string): Result<PalletState, StfError> {
    match rt.dispatch(s, pc, origin)
    case Ok(s') => Ok(s')
    case Err(e) => Err(Dispatch(context + e))
  }

  function StateOnly(r: Result<PalletState, StfError>): Result<Effect, StfError> {
    match r
    case Ok(s') => Ok(Effect(s', None))
    case Err(e) => Err(e)
  }

  /** `is_root`: the account is the sudo key; false when no key is set. */
  function IsRoot(sudoKey: Option<AccountId>, account: AccountId): (b: bool)
    ensures b <==> sudoKey == Some(account)
  {
    match sudoKey
    case None => false
    case Some(k) => account == k
  }

  /** `unshield_funds`: refuse when the free balance is short, otherwise set
      free to free - amount and keep reserved, as root. */
  function UnshieldFunds(rt: Runtime, s: PalletState, account: AccountId, amount: Balance): (r: Result<PalletState, StfError>)
    ensures FreeOf(s, account) < amount ==> r == Err(MissingFunds)
    ensures r.Ok? <==>
              (amount <= FreeOf(s, account)
               && rt.dispatch(s, PalletCall.BalancesSetBalance(account, FreeOf(s, account) - amount, ReservedOf(s, account)), Root).Ok?)
    ensures r.Err? ==> r.error == MissingFunds || r.error.Dispatch?
    ensures SetBalanceSound(rt) && r.Ok? ==>
              && amount <= FreeOf(s, account)
              && FreeOf(r.value, account) == FreeOf(s, account) - amount
              && ReservedOf(r.value, account) == ReservedOf(s, account)
              && (forall a :: a != account ==> FreeOf(r.value, a) == FreeOf(s, a) && ReservedOf(r.value, a) == ReservedOf(s, a))
  {
    var free := FreeOf(s, account);
    if free < amount then Err(MissingFunds)
    else DispatchAs(rt, s, PalletCall.BalancesSetBalance(account, free - amount, ReservedOf(s, account)), Root, "Unshield funds error: ")
  }

  /** `shield_funds`: set free to free + amount and keep reserved, as root. */
  function ShieldFunds(rt: Runtime, s: PalletState, account: AccountId, amount: Balance): (r: Result<PalletState, StfError>)
    ensures r.Ok? <==> rt.dispatch(s, PalletCall.BalancesSetBalance(account, FreeOf(s, account) + amount, ReservedOf(s, account)), Root).Ok?
    ensures r.Err? ==> r.error.Dispatch?
    ensures SetBalanceSound(rt) && r.Ok? ==>
              && FreeOf(r.value, account) == FreeOf(s, account) + amount
              && ReservedOf(r.value, account) == ReservedOf(s, account)
              && (forall a :: a != account ==> FreeOf(r.value, a) == FreeOf(s, a) && ReservedOf(r.value, a) == ReservedOf(s, a))
  {
    DispatchAs(rt, s, PalletCall.BalancesSetBalance(account, FreeOf(s, account) + amount, ReservedOf(s, account)), Root, "Shield funds error: ")
  }

  /** The causes reported by the phase gates, each the source's message
      text written as its first word followed by the rest. */
  const REGISTER_PHASE_CAUSE: string := "registering" + " participants can only be done during registering or attesting phase"
  const UPGRADE_PHASE_CAUSE: string := "upgrading" + " registration can only be done during registering or attesting phase"
  const UNREGISTER_PHASE_CAUSE: string := "unregistering" + " participant can only be done during registering or attesting phase"
  const CLAIM_REWARDS_PHASE_CAUSE: string := "claiming" + " rewards can not be done during assigning phase"
  const ATTEST_ATTENDEES_PHASE_CAUSE: string := "attendees" + " attestation can only be done during attesting phase"
  const ATTEST_CLAIMS_PHASE_CAUSE: string := "claims" + " attestation can only be done during attesting phase"
  const MEETUP_OFFSET_PHASE_CAUSE: string := "setting" + " meetup time offset can not be done during registering phase"

  /** The body of `execute` for one call, run after the nonce check: the
      variant's own checks (root, enclave signer, ceremony phase), then one
      atomic dispatch. `callHash` is blake2_256 of the encoded call. */
  function CallBody(rt: Runtime, s: PalletState, call: TrustedCall, callHash: Hash32, unshieldFundsFn: CallIndex)
    : (r: Result<Effect, StfError>)
    ensures r.Err? ==> !r.error.InvalidNonce?
  {
    match call
    case BalanceSetBalance(root, who, freeBalance, reservedBalance) =>
      if !IsRoot(s.sudoKey, root) then Err(MissingPrivileges(root))
      else StateOnly(DispatchAs(rt, s, PalletCall.BalancesSetBalance(who, freeBalance, reservedBalance), Root, "Balance Set Balance error: "))
    case BalanceTransfer(from, to, value) =>
      StateOnly(DispatchAs(rt, s, PalletCall.BalancesTransfer(to, value), Signed(from), "Balance Transfer error: "))
    case BalanceUnshield(accountIncognito, beneficiary, value, shard) =>
      (match UnshieldFunds(rt, s, accountIncognito, value)
       case Err(e) => Err(e)
       case Ok(s') => Ok(Effect(s', Some(UnshieldFundsCall(unshieldFundsFn, beneficiary, value, shard, callHash)))))
    case BalanceShield(enclaveAccount, who, value) =>
      if enclaveAccount != rt.enclaveSigner then Err(RequireEnclaveSignerAccount)
      else StateOnly(ShieldFunds(rt, s, who, value))
    case EncointerBalanceTransfer(from, to, communityId, amount) =>
      StateOnly(DispatchAs(rt, s, PalletCall.EncointerBalancesTransfer(to, communityId, amount), Signed(from),
                           "Encointer Balance Transfer error: "))
    case EncointerSetFeeConversionFactor(who, factor) =>
      StateOnly(DispatchAs(rt, s, PalletCall.EncointerBalancesSetFeeConversionFactor(factor), Signed(who),
                           "Encointer Balance set fee conversion error: "))
    case EncointerTransferAll(from, to, communityId) =>
      StateOnly(DispatchAs(rt, s, PalletCall.EncointerBalancesTransferAll(to, communityId), Signed(from),
                           "Encointer Balance transfer all error: "))
    case CeremoniesRegisterParticipant(who, cid, maybeProof) =>
      if s.phase == Assigning then
        Err(Dispatch(REGISTER_PHASE_CAUSE))
      else StateOnly(DispatchAs(rt, s, PalletCall.CeremoniesRegisterParticipant(cid, maybeProof), Signed(who),
                                "Ceremonies register participant error: "))
    case CeremoniesUpgradeRegistration(who, cid, proof) =>
      if s.phase == Assigning then
        Err(Dispatch(UPGRADE_PHASE_CAUSE))
      else StateOnly(DispatchAs(rt, s, PalletCall.CeremoniesUpgradeRegistration(cid, proof), Signed(who),
                                "Ceremonies upgrade registration error: "))
    case CeremoniesUnregisterParticipant(who, cid, maybeCc) =>
      if s.phase == Assigning then
        Err(Dispatch(UNREGISTER_PHASE_CAUSE))
      else StateOnly(DispatchAs(rt, s, PalletCall.CeremoniesUnregisterParticipant(cid, maybeCc), Signed(who),
                                "Ceremonies unregister participant error: "))
    case CeremoniesAttestAttendees(who, cid, vote, attestations) =>
      if s.phase != Attesting then
        Err(Dispatch(ATTEST_ATTENDEES_PHASE_CAUSE))
      else StateOnly(DispatchAs(rt, s, PalletCall.CeremoniesAttestAttendees(cid, vote, attestations), Signed(who),
                                "Ceremonies attendees attestation error: "))
    case CeremoniesAttestClaims(who, claims) =>
      if s.phase != Attesting then
        Err(Dispatch(ATTEST_CLAIMS_PHASE_CAUSE))
      else StateOnly(DispatchAs(rt, s, PalletCall.CeremoniesAttestClaims(claims), Signed(who),
                                "Ceremonies claims attestation error: "))
    case CeremoniesEndorseNewcomer(who, cid, newbie) =>
      StateOnly(DispatchAs(rt, s, PalletCall.CeremoniesEndorseNewcomer(cid, newbie), Signed(who),
                           "Ceremonies endorse newcomer error: "))
    case CeremoniesClaimRewards(who, cid, maybeMeetupIndex) =>
      if s.phase == Assigning then
        Err(Dispatch(CLAIM_REWARDS_PHASE_CAUSE))
      else StateOnly(DispatchAs(rt, s, PalletCall.CeremoniesClaimRewards(cid, maybeMeetupIndex), Signed(who),
                                "Ceremonies claim rewards error: "))
    case CeremoniesSetInactivityTimeout(who, timeout) =>
      StateOnly(DispatchAs(rt, s, PalletCall.CeremoniesSetInactivityTimeout(timeout), Signed(who),
                           "Ceremonies set inactivity timeout error: "))
    case CeremoniesSetEndorsementTicketsPerBootstrapper(who, tickets) =>
      StateOnly(DispatchAs(rt, s, PalletCall.CeremoniesSetEndorsementTicketsPerBootstrapper(tickets), Signed(who),
                           "Ceremonies" + " set endorsement ticket per bootstrapper error: "))
    case CeremoniesSetEndorsementTicketsPerReputable(who, tickets) =>
      StateOnly(DispatchAs(rt, s, PalletCall.CeremoniesSetEndorsementTicketsPerReputable(tickets), Signed(who),
                           "Ceremonies" + " set endorsement ticket per reputable error: "))
    case CeremoniesSetReputationLifetime(who, lifetime) =>
      StateOnly(DispatchAs(rt, s, PalletCall.CeremoniesSetReputationLifetime(lifetime), Signed(who),
                           "Ceremonies set reputation lifetime error: "))
    case CeremoniesSetMeetupTimeOffset(who, offset) =>
      if s.phase == Registering then
        Err(Dispatch(MEETUP_OFFSET_PHASE_CAUSE))
      else StateOnly(DispatchAs(rt, s, PalletCall.CeremoniesSetMeetupTimeOffset(offset), Signed(who),
                                "Ceremonies set meetup time offset error: "))
    case CeremoniesSetTimeTolerance(who, tolerance) =>
      StateOnly(DispatchAs(rt, s, PalletCall.CeremoniesSetTimeTolerance(tolerance), Signed(who),
                           "Ceremonies set time tolerance error: "))
    case CeremoniesSetLocationTolerance(who, tolerance) =>
      StateOnly(DispatchAs(rt, s, PalletCall.CeremoniesSetLocationTolerance(tolerance), Signed(who),
                           "Ceremonies set location tolerance error: "))
    case CeremoniesPurgeCommunityCeremony(who, cc) =>
      StateOnly(DispatchAs(rt, s, PalletCall.CeremoniesPurgeCommunityCeremony(cc), Signed(who),
                           "Ceremonies purge community ceremony error: "))
  }

  // ---------------------------------------------------------------------
  // The phase-gate table and what the bodies promise
  // ---------------------------------------------------------------------

  datatype PhaseGate = Ungated | Gated(allowed: set<CeremonyPhaseType>, message: string)

  /** Declarative phase-gate table: the phases in which the engine forwards
      a call to its pallet, and the cause it reports in any other phase. */
  function PhaseGateOf(call: TrustedCall): PhaseGate {
    match call
    case CeremoniesRegisterParticipant(_, _, _) =>
      Gated({Registering, Attesting}, REGISTER_PHASE_CAUSE)
    case CeremoniesUpgradeRegistration(_, _, _) =>
      Gated({Registering, Attesting}, UPGRADE_PHASE_CAUSE)
    case CeremoniesUnregisterParticipant(_, _, _) =>
      Gated({Registering, Attesting}, UNREGISTER_PHASE_CAUSE)
    case CeremoniesClaimRewards(_, _, _) =>
      Gated({Registering, Attesting}, CLAIM_REWARDS_PHASE_CAUSE)
    case CeremoniesAttestAttendees(_, _, _, _) =>
      Gated({Attesting}, ATTEST_ATTENDEES_PHASE_CAUSE)
    case CeremoniesAttestClaims(_, _) =>
      Gated({Attesting}, ATTEST_CLAIMS_PHASE_CAUSE)
    case CeremoniesSetMeetupTimeOffset(_, _) =>
      Gated({Assigning, Attesting}, MEETUP_OFFSET_PHASE_CAUSE)
    case _ => Ungated
  }

  /** A dispatch-error cause produced by a ceremonies call starts with
      "Ceremonies", a phase-gate cause with a lower-case letter, so an
      in-phase call never reports the phase-gate cause. */
  lemma DispatchNeverReportsPhaseCause(rt: Runtime, s: PalletState, pc: PalletCall, who: AccountId,
                                       context: string, message: string)
    requires |context| > 0 && |message| > 0 && context[0] == 'C' && message[0] != 'C'
    ensures StateOnly(DispatchAs(rt, s, pc, Signed(who), context)) != Err(Dispatch(message))
  {
    var d := rt.dispatch(s, pc, Signed(who));
    if d.Err? {
      assert (context + d.error)[0] == 'C';
    }
  }

  /** The seven phase-gate causes. */
  const PHASE_CAUSES: set<string> := {REGISTER_PHASE_CAUSE, UPGRADE_PHASE_CAUSE, UNREGISTER_PHASE_CAUSE,
                                      CLAIM_REWARDS_PHASE_CAUSE, ATTEST_ATTENDEES_PHASE_CAUSE,
                                      ATTEST_CLAIMS_PHASE_CAUSE, MEETUP_OFFSET_PHASE_CAUSE}

  /** Every phase-gate cause starts with a lower-case letter. */
  lemma PhaseCauseStartsLowerCase(m: string)
    requires m in PHASE_CAUSES
    ensures |m| > 0 && 'a' <= m[0] <= 'z'
  {
    if m == REGISTER_PHASE_CAUSE {
    } else if m == UPGRADE_PHASE_CAUSE {
    } else if m == UNREGISTER_PHASE_CAUSE {
    } else if m == CLAIM_REWARDS_PHASE_CAUSE {
    } else if m == ATTEST_ATTENDEES_PHASE_CAUSE {
    } else if m == ATTEST_CLAIMS_PHASE_CAUSE {
    }
  }

  /** A dispatch error reported under a context starting with a capital
      letter is never a cause starting with a lower-case one. */
  lemma CapitalContextNeverReportsCause(rt: Runtime, s: PalletState, pc: PalletCall, origin: RawOrigin,
                                        context: string, message: string)
    requires |context| > 0 && 'A' <= context[0] <= 'Z'
    requires |message| > 0 && 'a' <= message[0] <= 'z'
    ensures DispatchAs(rt, s, pc, origin, context) != Err(Dispatch(message))
    ensures StateOnly(DispatchAs(rt, s, pc, origin, context)) != Err(Dispatch(message))
  {
    var d := rt.dispatch(s, pc, origin);
    if d.Err? {
      assert (context + d.error)[0] == context[0];
    }
  }

  /** The other half of the phase-gate table: a call the table lists as
      ungated never fails with any phase-gate cause, whatever the phase. */
  lemma UngatedNeverReportsPhaseCause(rt: Runtime, s: PalletState, call: TrustedCall, callHash: Hash32,
                                      unshieldFundsFn: CallIndex, message: string)
    requires PhaseGateOf(call).Ungated?
    requires message in PHASE_CAUSES
    ensures CallBody(rt, s, call, callHash, unshieldFundsFn) != Err(Dispatch(message))
  {
    PhaseCauseStartsLowerCase(message);
    UngatedNeverReportsLowerCaseCause(rt, s, call, callHash, unshieldFundsFn, message);
  }

  /** An ungated call reports dispatch errors only under its own context,
      which starts with a capital letter. */
  lemma UngatedNeverReportsLowerCaseCause(rt: Runtime, s: PalletState, call: TrustedCall, callHash: Hash32,
                                          unshieldFundsFn: CallIndex, message: string)
    requires PhaseGateOf(call).Ungated?
    requires |message| > 0 && 'a' <= message[0] <= 'z'
    ensures CallBody(rt, s, call, callHash, unshieldFundsFn) != Err(Dispatch(message))
  {
    if call.BalanceSetBalance? || call.BalanceTransfer? || call.BalanceUnshield? || call.BalanceShield? {
      BalanceCallsNeverReportLowerCaseCause(rt, s, call, callHash, unshieldFundsFn, message);
    } else if call.EncointerBalanceTransfer? || call.EncointerSetFeeConversionFactor? || call.EncointerTransferAll? {
      EncointerBalanceCallsNeverReportLowerCaseCause(rt, s, call, callHash, unshieldFundsFn, message);
    } else if call.CeremoniesEndorseNewcomer? || call.CeremoniesSetInactivityTimeout? {
      EndorseAndTimeoutNeverReportLowerCaseCause(rt, s, call, callHash, unshieldFundsFn, message);
    } else if call.CeremoniesSetEndorsementTicketsPerBootstrapper? || call.CeremoniesSetEndorsementTicketsPerReputable? {
      TicketSettersNeverReportLowerCaseCause(rt, s, call, callHash, unshieldFundsFn, message);
    } else if call.CeremoniesSetReputationLifetime? || call.CeremoniesSetTimeTolerance? {
      LifetimeAndTimeToleranceNeverReportLowerCaseCause(rt, s, call, callHash, unshieldFundsFn, message);
    } else {
      LocationToleranceAndPurgeNeverReportLowerCaseCause(rt, s, call, callHash, unshieldFundsFn, message);
    }
  }

  /** The lower-case-cause fact for the balance calls. */
  lemma BalanceCallsNeverReportLowerCaseCause(rt: Runtime, s: PalletState, call: TrustedCall, callHash: Hash32,
      unshieldFundsFn: CallIndex, message: string)
    requires call.BalanceSetBalance?
             || call.BalanceTransfer?
             || call.BalanceUnshield?
             || call.BalanceShield?
    requires |message| > 0 && 'a' <= message[0] <= 'z'
    ensures CallBody(rt, s, call, callHash, unshieldFundsFn) != Err(Dispatch(message))
  {
    match call {
      case BalanceSetBalance(root, who, f, r) =>
        CapitalContextNeverReportsCause(rt, s, PalletCall.BalancesSetBalance(who, f, r), Root,
          "Balance Set Balance error: ", message);
      case BalanceTransfer(from, to, v) =>
        CapitalContextNeverReportsCause(rt, s, PalletCall.BalancesTransfer(to, v), Signed(from),
          "Balance Transfer error: ", message);
      case BalanceUnshield(account, _, v, _) =>
        if v <= FreeOf(s, account) {
          CapitalContextNeverReportsCause(rt, s,
            PalletCall.BalancesSetBalance(account, FreeOf(s, account) - v, ReservedOf(s, account)), Root,
            "Unshield funds error: ", message);
        }
      case BalanceShield(_, who, v) =>
        CapitalContextNeverReportsCause(rt, s,
          PalletCall.BalancesSetBalance(who, FreeOf(s, who) + v, ReservedOf(s, who)), Root,
          "Shield funds error: ", message);
    }
  }

  /** The lower-case-cause fact for the encointer-balance calls. */
  lemma EncointerBalanceCallsNeverReportLowerCaseCause(rt: Runtime, s: PalletState, call: TrustedCall, callHash: Hash32,
      unshieldFundsFn: CallIndex, message: string)
    requires call.EncointerBalanceTransfer?
             || call.EncointerSetFeeConversionFactor?
             || call.EncointerTransferAll?
    requires |message| > 0 && 'a' <= message[0] <= 'z'
    ensures CallBody(rt, s, call, callHash, unshieldFundsFn) != Err(Dispatch(message))
  {
    match call {
      case EncointerBalanceTransfer(from, to, cid, a) =>
        CapitalContextNeverReportsCause(rt, s, PalletCall.EncointerBalancesTransfer(to, cid, a), Signed(from),
          "Encointer Balance Transfer error: ", message);
      case EncointerSetFeeConversionFactor(who, factor) =>
        CapitalContextNeverReportsCause(rt, s, PalletCall.EncointerBalancesSetFeeConversionFactor(factor), Signed(who),
          "Encointer Balance set fee conversion error: ", message);
      case EncointerTransferAll(from, to, cid) =>
        CapitalContextNeverReportsCause(rt, s, PalletCall.EncointerBalancesTransferAll(to, cid), Signed(from),
          "Encointer Balance transfer all error: ", message);
    }
  }

  /** The lower-case-cause fact for endorse_newcomer and set_inactivity_timeout. */
  lemma EndorseAndTimeoutNeverReportLowerCaseCause(rt: Runtime, s: PalletState, call: TrustedCall, callHash: Hash32,
      unshieldFundsFn: CallIndex, message: string)
    requires call.CeremoniesEndorseNewcomer?
             || call.CeremoniesSetInactivityTimeout?
    requires |message| > 0 && 'a' <= message[0] <= 'z'
    ensures CallBody(rt, s, call, callHash, unshieldFundsFn) != Err(Dispatch(message))
  {
    match call {
      case CeremoniesEndorseNewcomer(who, cid, newbie) =>
        CapitalContextNeverReportsCause(rt, s, PalletCall.CeremoniesEndorseNewcomer(cid, newbie), Signed(who),
          "Ceremonies endorse newcomer error: ", message);
      case CeremoniesSetInactivityTimeout(who, timeout) =>
        CapitalContextNeverReportsCause(rt, s, PalletCall.CeremoniesSetInactivityTimeout(timeout), Signed(who),
          "Ceremonies set inactivity timeout error: ", message);
    }
  }

  /** The lower-case-cause fact for the two endorsement-ticket setters. */
  lemma TicketSettersNeverReportLowerCaseCause(rt: Runtime, s: PalletState, call: TrustedCall, callHash: Hash32,
      unshieldFundsFn: CallIndex, message: string)
    requires call.CeremoniesSetEndorsementTicketsPerBootstrapper?
             || call.CeremoniesSetEndorsementTicketsPerReputable?
    requires |message| > 0 && 'a' <= message[0] <= 'z'
    ensures CallBody(rt, s, call, callHash, unshieldFundsFn) != Err(Dispatch(message))
  {
    match call {
      case CeremoniesSetEndorsementTicketsPerBootstrapper(who, tickets) =>
        CapitalContextNeverReportsCause(rt, s, PalletCall.CeremoniesSetEndorsementTicketsPerBootstrapper(tickets), Signed(who),
          "Ceremonies" + " set endorsement ticket per bootstrapper error: ", message);
      case CeremoniesSetEndorsementTicketsPerReputable(who, tickets) =>
        CapitalContextNeverReportsCause(rt, s, PalletCall.CeremoniesSetEndorsementTicketsPerReputable(tickets), Signed(who),
          "Ceremonies" + " set endorsement ticket per reputable error: ", message);
    }
  }

  /** The lower-case-cause fact for set_reputation_lifetime and set_time_tolerance. */
  lemma LifetimeAndTimeToleranceNeverReportLowerCaseCause(rt: Runtime, s: PalletState, call: TrustedCall, callHash: Hash32,
      unshieldFundsFn: CallIndex, message: string)
    requires call.CeremoniesSetReputationLifetime?
             || call.CeremoniesSetTimeTolerance?
    requires |message| > 0 && 'a' <= message[0] <= 'z'
    ensures CallBody(rt, s, call, callHash, unshieldFundsFn) != Err(Dispatch(message))
  {
    match call {
      case CeremoniesSetReputationLifetime(who, lifetime) =>
        CapitalContextNeverReportsCause(rt, s, PalletCall.CeremoniesSetReputationLifetime(lifetime), Signed(who),
          "Ceremonies set reputation lifetime error: ", message);
      case CeremoniesSetTimeTolerance(who, tolerance) =>
        CapitalContextNeverReportsCause(rt, s, PalletCall.CeremoniesSetTimeTolerance(tolerance), Signed(who),
          "Ceremonies set time tolerance error: ", message);
    }
  }

  /** The lower-case-cause fact for set_location_tolerance and purge_community_ceremony. */
  lemma LocationToleranceAndPurgeNeverReportLowerCaseCause(rt: Runtime, s: PalletState, call: TrustedCall, callHash: Hash32,
      unshieldFundsFn: CallIndex, message: string)
    requires call.CeremoniesSetLocationTolerance?
             || call.CeremoniesPurgeCommunityCeremony?
    requires |message| > 0 && 'a' <= message[0] <= 'z'
    ensures CallBody(rt, s, call, callHash, unshieldFundsFn) != Err(Dispatch(message))
  {
    match call {
      case CeremoniesSetLocationTolerance(who, tolerance) =>
        CapitalContextNeverReportsCause(rt, s, PalletCall.CeremoniesSetLocationTolerance(tolerance), Signed(who),
          "Ceremonies set location tolerance error: ", message);
      case CeremoniesPurgeCommunityCeremony(who, cc) =>
        CapitalContextNeverReportsCause(rt, s, PalletCall.CeremoniesPurgeCommunityCeremony(cc), Signed(who),
          "Ceremonies purge community ceremony error: ", message);
    }
  }

  /** The phase gate: out of phase a gated call fails with its phase cause
      before any dispatch; in phase it never fails with that cause. */
  lemma PhaseGateEnforced(rt: Runtime, s: PalletState, call: TrustedCall, callHash: Hash32, unshieldFundsFn: CallIndex)
    requires PhaseGateOf(call).Gated?
    ensures s.phase !in PhaseGateOf(call).allowed ==>
              CallBody(rt, s, call, callHash, unshieldFundsFn) == Err(Dispatch(PhaseGateOf(call).message))
    ensures s.phase in PhaseGateOf(call).allowed ==>
              CallBody(rt, s, call, callHash, unshieldFundsFn) != Err(Dispatch(PhaseGateOf(call).message))
  {
    if s.phase in PhaseGateOf(call).allowed {
      assert s.phase in PhaseGateOf(call).allowed;
      match call {
        case CeremoniesRegisterParticipant(who, cid, p) =>
          DispatchNeverReportsPhaseCause(rt, s, PalletCall.CeremoniesRegisterParticipant(cid, p), who,
            "Ceremonies register participant error: ",
            REGISTER_PHASE_CAUSE);
        case CeremoniesUpgradeRegistration(who, cid, p) =>
          DispatchNeverReportsPhaseCause(rt, s, PalletCall.CeremoniesUpgradeRegistration(cid, p), who,
            "Ceremonies upgrade registration error: ",
            UPGRADE_PHASE_CAUSE);
        case CeremoniesUnregisterParticipant(who, cid, m) =>
          DispatchNeverReportsPhaseCause(rt, s, PalletCall.CeremoniesUnregisterParticipant(cid, m), who,
            "Ceremonies unregister participant error: ",
            UNREGISTER_PHASE_CAUSE);
        case CeremoniesClaimRewards(who, cid, m) =>
          DispatchNeverReportsPhaseCause(rt, s, PalletCall.CeremoniesClaimRewards(cid, m), who,
            "Ceremonies claim rewards error: ",
            CLAIM_REWARDS_PHASE_CAUSE);
        case CeremoniesAttestAttendees(who, cid, v, a) =>
          DispatchNeverReportsPhaseCause(rt, s, PalletCall.CeremoniesAttestAttendees(cid, v, a), who,
            "Ceremonies attendees attestation error: ",
            ATTEST_ATTENDEES_PHASE_CAUSE);
        case CeremoniesAttestClaims(who, c) =>
          DispatchNeverReportsPhaseCause(rt, s, PalletCall.CeremoniesAttestClaims(c), who,
            "Ceremonies claims attestation error: ",
            ATTEST_CLAIMS_PHASE_CAUSE);
        case CeremoniesSetMeetupTimeOffset(who, o) =>
          DispatchNeverReportsPhaseCause(rt, s, PalletCall.CeremoniesSetMeetupTimeOffset(o), who,
            "Ceremonies set meetup time offset error: ",
            MEETUP_OFFSET_PHASE_CAUSE);
      }
    }
  }

  /** `balance_set_balance` runs only for the sudo key; with no sudo key set
      nobody is root. */
  lemma SetBalanceRequiresRoot(rt: Runtime, s: PalletState, root: AccountId, who: AccountId, f: Balance, r: Balance,
                               callHash: Hash32, unshieldFundsFn: CallIndex)
    ensures s.sudoKey != Some(root) ==>
              CallBody(rt, s, BalanceSetBalance(root, who, f, r), callHash, unshieldFundsFn) == Err(MissingPrivileges(root))
    ensures s.sudoKey == Some(root) ==>
              CallBody(rt, s, BalanceSetBalance(root, who, f, r), callHash, unshieldFundsFn)
              == StateOnly(DispatchAs(rt, s, PalletCall.BalancesSetBalance(who, f, r), Root, "Balance Set Balance error: "))
  {
  }

  /** Unshield: a short free balance gives MissingFunds; otherwise, when the
      root set_balance succeeds, free drops by exactly the amount, reserved
      and every other account stay, and exactly one unshield call is queued,
      tagged with the call hash. */
  lemma UnshieldMovesFunds(rt: Runtime, s: PalletState, account: AccountId, beneficiary: AccountId, value: Balance,
                           shard: ShardIdentifier, callHash: Hash32, unshieldFundsFn: CallIndex)
    requires SetBalanceSound(rt)
    ensures var body := CallBody(rt, s, BalanceUnshield(account, beneficiary, value, shard), callHash, unshieldFundsFn);
            && (FreeOf(s, account) < value ==> body == Err(MissingFunds))
            && (body.Ok? <==>
                  (FreeOf(s, account) >= value
                   && rt.dispatch(s, PalletCall.BalancesSetBalance(account, FreeOf(s, account) - value, ReservedOf(s, account)), Root).Ok?))
            && (body.Ok? ==>
                  && FreeOf(body.value.state, account) == FreeOf(s, account) - value
                  && ReservedOf(body.value.state, account) == ReservedOf(s, account)
                  && (forall a :: a != account ==>
                        FreeOf(body.value.state, a) == FreeOf(s, a) && ReservedOf(body.value.state, a) == ReservedOf(s, a))
                  && body.value.outgoing == Some(UnshieldFundsCall(unshieldFundsFn, beneficiary, value, shard, callHash)))
  {
  }

  /** Shield: only the enclave signer may shield; on success free grows by
      exactly the amount (no u128 overflow in this model) and reserved stays. */
  lemma ShieldMovesFunds(rt: Runtime, s: PalletState, enclaveAccount: AccountId, who: AccountId, value: Balance,
                         callHash: Hash32, unshieldFundsFn: CallIndex)
    requires SetBalanceSound(rt)
    ensures var body := CallBody(rt, s, BalanceShield(enclaveAccount, who, value), callHash, unshieldFundsFn);
            && (enclaveAccount != rt.enclaveSigner ==> body == Err(RequireEnclaveSignerAccount))
            && (body.Ok? <==>
                  (enclaveAccount == rt.enclaveSigner
                   && rt.dispatch(s, PalletCall.BalancesSetBalance(who, FreeOf(s, who) + value, ReservedOf(s, who)), Root).Ok?))
            && (body.Ok? ==>
                  && enclaveAccount == rt.enclaveSigner
                  && FreeOf(body.value.state, who) == FreeOf(s, who) + value
                  && ReservedOf(body.value.state, who) == ReservedOf(s, who)
                  && (forall a :: a != who ==>
                        FreeOf(body.value.state, a) == FreeOf(s, a) && ReservedOf(body.value.state, a) == ReservedOf(s, a))
                  && body.value.outgoing == None)
  {
  }

  /** Each check-specific error comes from its own variant's check:
      MissingPrivileges only from set_balance with a non-root signer,
      RequireEnclaveSignerAccount only from a shield not sent by the enclave
      signer, MissingFunds only from an unshield exceeding the free balance.
      Every other failure is a dispatch error. */
  lemma ErrorsRaisedByOwnCheck(rt: Runtime, s: PalletState, call: TrustedCall, callHash: Hash32, unshieldFundsFn: CallIndex)
    ensures var body := CallBody(rt, s, call, callHash, unshieldFundsFn);
            body.Err? ==>
              match body.error
              case InvalidNonce(_) => false
              case MissingPrivileges(account) => call.BalanceSetBalance? && account == call.root && !IsRoot(s.sudoKey, call.root)
              case RequireEnclaveSignerAccount => call.BalanceShield? && call.enclaveAccount != rt.enclaveSigner
              case MissingFunds => call.BalanceUnshield? && FreeOf(s, call.accountIncognito) < call.value
              case Dispatch(_) => true
  {
  }

  /** Only an unshield ever queues an outgoing call. */
  lemma OnlyUnshieldQueuesCalls(rt: Runtime, s: PalletState, call: TrustedCall, callHash: Hash32, unshieldFundsFn: CallIndex)
    ensures var body := CallBody(rt, s, call, callHash, unshieldFundsFn);
            body.Ok? ==> (body.value.outgoing.Some? <==> call.BalanceUnshield?)
  {
  }

  // ---------------------------------------------------------------------
  // Storage keys to re-synchronise
  // ---------------------------------------------------------------------

  /** `get_storage_hashes_to_update`: the static per-variant table. */
  function StorageHashesToUpdate(call: TrustedCall): (keys: seq<StorageKey>)
    ensures keys != [] ==> keys[0] == CURRENT_PHASE
    ensures |keys| <= 4
    ensures forall k :: k in keys ==> NamesSchedulerItem(k)
  {
    match call
    case CeremoniesRegisterParticipant(_, _, _) => [CURRENT_PHASE, CURRENT_CEREMONY_INDEX, COMMUNITY_IDENTIFIERS]
    case CeremoniesUpgradeRegistration(_, _, _) => [CURRENT_PHASE, CURRENT_CEREMONY_INDEX, COMMUNITY_IDENTIFIERS]
    case CeremoniesUnregisterParticipant(_, _, _) => [CURRENT_PHASE, CURRENT_CEREMONY_INDEX, COMMUNITY_IDENTIFIERS]
    case CeremoniesAttestClaims(_, _) => [CURRENT_PHASE, CURRENT_CEREMONY_INDEX, COMMUNITY_IDENTIFIERS]
    case CeremoniesAttestAttendees(_, _, _, _) => [CURRENT_PHASE, COMMUNITY_IDENTIFIERS]
    case CeremoniesClaimRewards(_, _, _) => [CURRENT_PHASE, COMMUNITY_IDENTIFIERS]
    case CeremoniesSetMeetupTimeOffset(_, _) => [CURRENT_PHASE]
    case CeremoniesEndorseNewcomer(_, _, _) => [CURRENT_PHASE, CURRENT_CEREMONY_INDEX, COMMUNITY_IDENTIFIERS, BOOTSTRAPPERS]
    case _ => []
  }

  /** A call asks for re-synchronisation exactly when it is phase-gated or
      is endorse_newcomer, and every phase-gated call re-fetches the current
      phase its gate read. */
  lemma ChangeSetCoversPhaseGate(call: TrustedCall)
    ensures StorageHashesToUpdate(call) != [] <==> PhaseGateOf(call).Gated? || call.CeremoniesEndorseNewcomer?
    ensures PhaseGateOf(call).Gated? ==> StorageHashesToUpdate(call)[0] == CURRENT_PHASE
    ensures call.CeremoniesEndorseNewcomer? ==> BOOTSTRAPPERS in StorageHashesToUpdate(call)
  {
    if PhaseGateOf(call).Gated? {
      assert StorageHashesToUpdate(call) != [];
    } else if call.CeremoniesEndorseNewcomer? {
      assert StorageHashesToUpdate(call)[3] == BOOTSTRAPPERS;
    } else {
      assert StorageHashesToUpdate(call) == [];
    }
  }
}
