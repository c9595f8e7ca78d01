/** Read-only queries against the sidechain state: public getters, signed
    trusted getters with the ceremony-master confidentiality gate, the
    1-based registry aggregation, and the getters' change sets. */
module Getters {
  import opened Types
  import opened Signatures
  import opened Runtime
  import opened StorageKeys
  import opened EncointerHelpers

  datatype PublicGetter =
    | SomeValue
    | EncointerTotalIssuance(cid: CommunityIdentifier)
    | CeremoniesAssignmentCounts(cid: CommunityIdentifier, ceremonyIndex: CeremonyIndexType)
    | CeremoniesAttestationCount(cid: CommunityIdentifier, ceremonyIndex: CeremonyIndexType)
    | CeremoniesMeetupCount(cid: CommunityIdentifier, ceremonyIndex: CeremonyIndexType)
    | CeremoniesMeetupTimeOffset
    | CeremoniesRegisteredBootstrappersCount(cid: CommunityIdentifier, ceremonyIndex: CeremonyIndexType)
    | CeremoniesRegisteredEndorseesCount(cid: CommunityIdentifier, ceremonyIndex: CeremonyIndexType)
    | CeremoniesRegisteredNewbiesCount(cid: CommunityIdentifier, ceremonyIndex: CeremonyIndexType)
    | CeremoniesRegisteredReputablesCount(cid: CommunityIdentifier, ceremonyIndex: CeremonyIndexType)
    | CeremoniesReward(cid: CommunityIdentifier)

  /** The signed queries (the EVM variants are not modelled). The first
      field is always the querying account. */
  datatype TrustedGetter =
    | FreeBalance(who: AccountId)
    | ReservedBalance(who: AccountId)
    | Nonce(who: AccountId)
    | EncointerBalance(who: AccountId, cid: CommunityIdentifier)
    | CeremoniesAggregatedAccountData(who: AccountId, cid: CommunityIdentifier, account: AccountId)
    | CeremoniesAssignments(who: AccountId, cid: CommunityIdentifier, ceremonyIndex: CeremonyIndexType)
    | CeremoniesMeetupParticipantCountVote(who: AccountId, cid: CommunityIdentifier, ceremonyIndex: CeremonyIndexType, participant: AccountId)
    | CeremoniesParticipantAttestees(who: AccountId, cid: CommunityIdentifier, ceremonyIndex: CeremonyIndexType, attestationIndex: AttestationIndexType)
    | CeremoniesParticipantAttestationIndex(who: AccountId, cid: CommunityIdentifier, ceremonyIndex: CeremonyIndexType, participant: AccountId)
    | CeremoniesRegisteredBootstrapper(who: AccountId, cid: CommunityIdentifier, ceremonyIndex: CeremonyIndexType, participantIndex: ParticipantIndexType)
    | CeremoniesRegisteredBootstrappers(who: AccountId, cid: CommunityIdentifier, ceremonyIndex: CeremonyIndexType)
    | CeremoniesRegisteredReputable(who: AccountId, cid: CommunityIdentifier, ceremonyIndex: CeremonyIndexType, participantIndex: ParticipantIndexType)
    | CeremoniesRegisteredReputables(who: AccountId, cid: CommunityIdentifier, ceremonyIndex: CeremonyIndexType)
    | CeremoniesRegisteredEndorsee(who: AccountId, cid: CommunityIdentifier, ceremonyIndex: CeremonyIndexType, participantIndex: ParticipantIndexType)
    | CeremoniesRegisteredEndorsees(who: AccountId, cid: CommunityIdentifier, ceremonyIndex: CeremonyIndexType)
    | CeremoniesRegisteredNewbie(who: AccountId, cid: CommunityIdentifier, ceremonyIndex: CeremonyIndexType, participantIndex: ParticipantIndexType)
    | CeremoniesRegisteredNewbies(who: AccountId, cid: CommunityIdentifier, ceremonyIndex: CeremonyIndexType)

  datatype TrustedGetterSigned = TrustedGetterSigned(getter: TrustedGetter, signature: Signature)

  datatype Getter = Public(publicGetter: PublicGetter) | Trusted(trustedGetter: TrustedGetterSigned)

  /** Typed answers before SCALE encoding. */
  datatype GetterValue =
    | U32Value(n: u32)
    | BalanceValue(balance: Balance)
    | CountValue(count: nat)
    | AccountValue(accountId: AccountId)
    | AccountsValue(accounts: seq<AccountId>)

  /** The SCALE encodings of getters and of answers, both external. */
  datatype GetterCodec = GetterCodec(encodeGetter: TrustedGetter -> Bytes, encodeValue: GetterValue -> Bytes)

  ghost predicate InjectiveGetterEncoding(codec: GetterCodec) {
    forall g1: TrustedGetter, g2: TrustedGetter :: codec.encodeGetter(g1) == codec.encodeGetter(g2) ==> g1 == g2
  }

  /** The account a trusted getter is sent by. */
  function GetterSender(g: TrustedGetter): AccountId {
    match g
    case FreeBalance(sender) => sender
    case ReservedBalance(sender) => sender
    case Nonce(sender) => sender
    case EncointerBalance(sender, _) => sender
    case CeremoniesAggregatedAccountData(sender, _, _) => sender
    case CeremoniesAssignments(sender, _, _) => sender
    case CeremoniesMeetupParticipantCountVote(sender, _, _, _) => sender
    case CeremoniesParticipantAttestees(sender, _, _, _) => sender
    case CeremoniesParticipantAttestationIndex(sender, _, _, _) => sender
    case CeremoniesRegisteredBootstrapper(sender, _, _, _) => sender
    case CeremoniesRegisteredBootstrappers(sender, _, _) => sender
    case CeremoniesRegisteredReputable(sender, _, _, _) => sender
    case CeremoniesRegisteredReputables(sender, _, _) => sender
    case CeremoniesRegisteredEndorsee(sender, _, _, _) => sender
    case CeremoniesRegisteredEndorsees(sender, _, _) => sender
    case CeremoniesRegisteredNewbie(sender, _, _, _) => sender
    case CeremoniesRegisteredNewbies(sender, _, _) => sender
  }

  // ---------------------------------------------------------------------
  // Signing: the payload is the getter's encoding alone
  // ---------------------------------------------------------------------

  /** `TrustedGetter::sign`: the signature covers the getter's encoding
      alone, with no nonce, mrenclave or shard. */
  function SignGetter(scheme: SignatureScheme, codec: GetterCodec, g: TrustedGetter, pair: KeyPair): (signed: TrustedGetterSigned)
    ensures signed.getter == g
    ensures signed.signature == scheme.sign(pair, codec.encodeGetter(g))
  {
    TrustedGetterSigned(g, scheme.sign(pair, codec.encodeGetter(g)))
  }

  /** `verify_signature`: checked against the getter's own sender. */
  function VerifyGetterSignature(scheme: SignatureScheme, codec: GetterCodec, signed: TrustedGetterSigned): (ok: bool)
    ensures Correct(scheme) && Unforgeable(scheme) ==>
              (ok <==> exists pair :: scheme.public(pair) == GetterSender(signed.getter)
                                      && SignGetter(scheme, codec, signed.getter, pair) == signed)
  {
    scheme.verify(signed.signature, codec.encodeGetter(signed.getter), GetterSender(signed.getter))
  }

  /** Sign-then-verify for getters signed with the sender's key. */
  lemma GetterSignThenVerify(scheme: SignatureScheme, codec: GetterCodec, g: TrustedGetter, pair: KeyPair)
    requires Correct(scheme)
    requires scheme.public(pair) == GetterSender(g)
    ensures VerifyGetterSignature(scheme, codec, SignGetter(scheme, codec, g, pair))
  {
  }

  /** A getter signature verifies for another getter, or for a key that is
      not the sender's, never. */
  lemma GetterTamperDetected(scheme: SignatureScheme, codec: GetterCodec, g: TrustedGetter, pair: KeyPair, g': TrustedGetter)
    requires Unforgeable(scheme) && InjectiveGetterEncoding(codec)
    requires VerifyGetterSignature(scheme, codec, TrustedGetterSigned(g', SignGetter(scheme, codec, g, pair).signature))
    ensures g' == g && scheme.public(pair) == GetterSender(g)
  {
    VerifiesOnlyOwnMessage(scheme, pair, codec.encodeGetter(g), codec.encodeGetter(g'), GetterSender(g'));
  }

  // ---------------------------------------------------------------------
  // Registry aggregation (1-based slots, missing slots skipped)
  // ---------------------------------------------------------------------

  function Present(reg: Registry, cc: CommunityCeremony, i: ParticipantIndexType): seq<AccountId> {
    match SlotOf(reg, cc, i)
    case Some(a) => [a]
    case None => []
  }

  /** The accounts in slots 1..n, in slot order, skipping empty slots. */
  function Collected(reg: Registry, cc: CommunityCeremony, n: nat): seq<AccountId>
    decreases n
  {
    if n == 0 then [] else Collected(reg, cc, n - 1) + Present(reg, cc, n)
  }

  /** The occupied slot numbers among 1..n, ascending. */
  function OccupiedSlots(reg: Registry, cc: CommunityCeremony, n: nat): seq<ParticipantIndexType>
    decreases n
  {
    if n == 0 then []
    else OccupiedSlots(reg, cc, n - 1) + (if (cc, n) in reg.slots then [n] else [])
  }

  /** The occupied slots are listed in strictly ascending order and are
      exactly the slots 1..n that hold an account. */
  lemma {:induction false} OccupiedSlotsExact(reg: Registry, cc: CommunityCeremony, n: nat)
    ensures forall j, k :: 0 <= j < k < |OccupiedSlots(reg, cc, n)| ==>
              OccupiedSlots(reg, cc, n)[j] < OccupiedSlots(reg, cc, n)[k]
    ensures forall i :: i in OccupiedSlots(reg, cc, n) <==> 1 <= i <= n && (cc, i) in reg.slots
    decreases n
  {
    if n > 0 {
      OccupiedSlotsExact(reg, cc, n - 1);
      var prev := OccupiedSlots(reg, cc, n - 1);
      assert forall j :: 0 <= j < |prev| ==> prev[j] <= n - 1 by {
        forall j | 0 <= j < |prev| ensures prev[j] <= n - 1 {
          assert prev[j] in prev;
        }
      }
    }
  }

  /** The aggregation reads exactly the occupied slots, in order: its k-th
      account is the one in the k-th occupied slot. */
  lemma {:induction false} CollectedReadsOccupiedSlots(reg: Registry, cc: CommunityCeremony, n: nat)
    ensures |Collected(reg, cc, n)| == |OccupiedSlots(reg, cc, n)| <= n
    ensures forall k :: 0 <= k < |Collected(reg, cc, n)| ==>
              (cc, OccupiedSlots(reg, cc, n)[k]) in reg.slots
              && Collected(reg, cc, n)[k] == reg.slots[(cc, OccupiedSlots(reg, cc, n)[k])]
    decreases n
  {
    if n > 0 {
      CollectedReadsOccupiedSlots(reg, cc, n - 1);
      var c, o := Collected(reg, cc, n), OccupiedSlots(reg, cc, n);
      var c', o' := Collected(reg, cc, n - 1), OccupiedSlots(reg, cc, n - 1);
      if (cc, n) in reg.slots {
        assert c == c' + [reg.slots[(cc, n)]] && o == o' + [n];
      } else {
        assert c == c' && o == o';
      }
    }
  }

  /** An account is listed exactly when some slot 1..n holds it. */
  lemma {:induction false} CollectedMembership(reg: Registry, cc: CommunityCeremony, n: nat, a: AccountId)
    ensures a in Collected(reg, cc, n) <==> exists i :: 1 <= i <= n && SlotOf(reg, cc, i) == Some(a)
    decreases n
  {
    if n > 0 {
      CollectedMembership(reg, cc, n - 1, a);
      assert Collected(reg, cc, n) == Collected(reg, cc, n - 1) + Present(reg, cc, n);
      if a in Collected(reg, cc, n) && a !in Collected(reg, cc, n - 1) {
        assert SlotOf(reg, cc, n) == Some(a);
      }
      if exists i :: 1 <= i <= n && SlotOf(reg, cc, i) == Some(a) {
        var i :| 1 <= i <= n && SlotOf(reg, cc, i) == Some(a);
        if i == n {
          assert a in Present(reg, cc, n);
        }
      }
    }
  }

  /** What the plural registry getters answer: nothing when the declared
      count is below 1, otherwise the accounts of slots 1..count. */
  function Aggregate(reg: Registry, cc: CommunityCeremony): Option<seq<AccountId>> {
    var n := CountOf(reg, cc);
    if n < 1 then None else Some(Collected(reg, cc, n))
  }

  /** The aggregation loop of the plural registry getters: slots 1..count,
      pushing each present account. */
  method RegisteredParticipants(reg: Registry, cc: CommunityCeremony) returns (r: Option<seq<AccountId>>)
    ensures r == Aggregate(reg, cc)
    ensures r.Some? <==> CountOf(reg, cc) >= 1
  {
    var participants: seq<AccountId> := [];
    var numRegistered := CountOf(reg, cc);
    if numRegistered < 1 {
      return None;
    }
    for i := 0 to numRegistered
      invariant participants == Collected(reg, cc, i)
    {
      match SlotOf(reg, cc, i + 1) {
        case Some(b) =>
          participants := participants + [b];
        case None =>
      }
    }
    return Some(participants);
  }

  // ---------------------------------------------------------------------
  // Trusted getters
  // ---------------------------------------------------------------------

  /** The ceremonies_* getters, which only the ceremony master may run. */
  predicate Confidential(g: TrustedGetter) {
    !(g.FreeBalance? || g.ReservedBalance? || g.Nonce? || g.EncointerBalance?)
  }

  function SlotAnswer(codec: GetterCodec, reg: Registry, cc: CommunityCeremony, i: ParticipantIndexType): Option<Bytes> {
    match SlotOf(reg, cc, i)
    case Some(a) => Some(codec.encodeValue(AccountValue(a)))
    case None => None
  }

  function AggregateAnswer(codec: GetterCodec, reg: Registry, cc: CommunityCeremony): Option<Bytes> {
    match Aggregate(reg, cc)
    case Some(accounts) => Some(codec.encodeValue(AccountsValue(accounts)))
    case None => None
  }

  /** What each trusted getter reads, ignoring the confidentiality gate. */
  function TrustedRead(codec: GetterCodec, nonces: NonceMap, s: PalletState, g: TrustedGetter): Option<Bytes> {
    match g
    case FreeBalance(who) => Some(codec.encodeValue(BalanceValue(FreeOf(s, who))))
    case ReservedBalance(who) => Some(codec.encodeValue(BalanceValue(ReservedOf(s, who))))
    case Nonce(who) => Some(codec.encodeValue(U32Value(NonceOf(nonces, who))))
    case EncointerBalance(who, cid) => Some(s.storage(PalletQuery.EncointerBalance(cid, who)))
    case CeremoniesAggregatedAccountData(_, cid, account) => Some(s.storage(AggregatedAccountData(cid, account)))
    case CeremoniesAssignments(_, cid, ci) => Some(s.storage(Assignments((cid, ci))))
    case CeremoniesMeetupParticipantCountVote(_, cid, ci, p) => Some(s.storage(MeetupParticipantCountVote((cid, ci), p)))
    case CeremoniesParticipantAttestees(_, cid, ci, ai) =>
      if ((cid, ci), ai) in s.attestations then Some(codec.encodeValue(AccountsValue(s.attestations[((cid, ci), ai)])))
      else None
    case CeremoniesParticipantAttestationIndex(_, cid, ci, p) => Some(s.storage(AttestationIndex((cid, ci), p)))
    case CeremoniesRegisteredBootstrapper(_, cid, ci, i) => SlotAnswer(codec, s.bootstrappers, (cid, ci), i)
    case CeremoniesRegisteredBootstrappers(_, cid, ci) => AggregateAnswer(codec, s.bootstrappers, (cid, ci))
    case CeremoniesRegisteredReputable(_, cid, ci, i) => SlotAnswer(codec, s.reputables, (cid, ci), i)
    case CeremoniesRegisteredReputables(_, cid, ci) => AggregateAnswer(codec, s.reputables, (cid, ci))
    case CeremoniesRegisteredEndorsee(_, cid, ci, i) => SlotAnswer(codec, s.endorsees, (cid, ci), i)
    case CeremoniesRegisteredEndorsees(_, cid, ci) => AggregateAnswer(codec, s.endorsees, (cid, ci))
    case CeremoniesRegisteredNewbie(_, cid, ci, i) => SlotAnswer(codec, s.newbies, (cid, ci), i)
    case CeremoniesRegisteredNewbies(_, cid, ci) => AggregateAnswer(codec, s.newbies, (cid, ci))
  }

  /** The declarative answer of a trusted getter: confidential getters of a
      sender that is not the ceremony master answer nothing. */
  function TrustedGetterResult(codec: GetterCodec, nonces: NonceMap, s: PalletState, g: TrustedGetter): Option<Bytes> {
    if Confidential(g) && !IsCeremonyMaster(GetterSender(g)) then None else TrustedRead(codec, nonces, s, g)
  }

  /** `TrustedGetterSigned::execute`, arm by arm: each ceremonies_* arm
      checks the ceremony master first; the plural registry arms run the
      aggregation loop. The signature is not checked here. */
  method ExecuteTrustedGetter(codec: GetterCodec, nonces: NonceMap, s: PalletState, signed: TrustedGetterSigned)
    returns (r: Option<Bytes>)
    ensures r == TrustedGetterResult(codec, nonces, s, signed.getter)
  {
    match signed.getter {
      case FreeBalance(who) =>
        r := Some(codec.encodeValue(BalanceValue(FreeOf(s, who))));
      case ReservedBalance(who) =>
        r := Some(codec.encodeValue(BalanceValue(ReservedOf(s, who))));
      case Nonce(who) =>
        r := Some(codec.encodeValue(U32Value(NonceOf(nonces, who))));
      case EncointerBalance(who, cid) =>
        r := Some(s.storage(PalletQuery.EncointerBalance(cid, who)));
      case CeremoniesAggregatedAccountData(who, cid, account) =>
        if !IsCeremonyMaster(who) { return None; }
        r := Some(s.storage(AggregatedAccountData(cid, account)));
      case CeremoniesAssignments(who, cid, ci) =>
        if !IsCeremonyMaster(who) { return None; }
        r := Some(s.storage(Assignments((cid, ci))));
      case CeremoniesMeetupParticipantCountVote(who, cid, ci, p) =>
        if !IsCeremonyMaster(who) { return None; }
        r := Some(s.storage(MeetupParticipantCountVote((cid, ci), p)));
      case CeremoniesParticipantAttestees(who, cid, ci, ai) =>
        if !IsCeremonyMaster(who) { return None; }
        if ((cid, ci), ai) in s.attestations {
          r := Some(codec.encodeValue(AccountsValue(s.attestations[((cid, ci), ai)])));
        } else {
          r := None;
        }
      case CeremoniesParticipantAttestationIndex(who, cid, ci, p) =>
        if !IsCeremonyMaster(who) { return None; }
        r := Some(s.storage(AttestationIndex((cid, ci), p)));
      case CeremoniesRegisteredBootstrapper(who, cid, ci, i) =>
        if !IsCeremonyMaster(who) { return None; }
        r := SlotAnswer(codec, s.bootstrappers, (cid, ci), i);
      case CeremoniesRegisteredBootstrappers(who, cid, ci) =>
        if !IsCeremonyMaster(who) { return None; }
        r := ExecuteAggregate(codec, s.bootstrappers, (cid, ci));
      case CeremoniesRegisteredReputable(who, cid, ci, i) =>
        if !IsCeremonyMaster(who) { return None; }
        r := SlotAnswer(codec, s.reputables, (cid, ci), i);
      case CeremoniesRegisteredReputables(who, cid, ci) =>
        if !IsCeremonyMaster(who) { return None; }
        r := ExecuteAggregate(codec, s.reputables, (cid, ci));
      case CeremoniesRegisteredEndorsee(who, cid, ci, i) =>
        if !IsCeremonyMaster(who) { return None; }
        r := SlotAnswer(codec, s.endorsees, (cid, ci), i);
      case CeremoniesRegisteredEndorsees(who, cid, ci) =>
        if !IsCeremonyMaster(who) { return None; }
        r := ExecuteAggregate(codec, s.endorsees, (cid, ci));
      case CeremoniesRegisteredNewbie(who, cid, ci, i) =>
        if !IsCeremonyMaster(who) { return None; }
        r := SlotAnswer(codec, s.newbies, (cid, ci), i);
      case CeremoniesRegisteredNewbies(who, cid, ci) =>
        if !IsCeremonyMaster(who) { return None; }
        r := ExecuteAggregate(codec, s.newbies, (cid, ci));
    }
  }

  /** One plural registry arm after the gate: aggregate, then encode. */
  method ExecuteAggregate(codec: GetterCodec, reg: Registry, cc: CommunityCeremony) returns (r: Option<Bytes>)
    ensures r == AggregateAnswer(codec, reg, cc)
  {
    var participants := RegisteredParticipants(reg, cc);
    match participants {
      case Some(accounts) => r := Some(codec.encodeValue(AccountsValue(accounts)));
      case None => r := None;
    }
  }

  /** The confidentiality gate: a confidential getter answers nothing unless
      its sender is Alice; the balance and nonce getters answer anyone. */
  lemma ConfidentialityGate(codec: GetterCodec, nonces: NonceMap, s: PalletState, g: TrustedGetter)
    ensures Confidential(g) && GetterSender(g) != ALICE ==> TrustedGetterResult(codec, nonces, s, g) == None
    ensures !Confidential(g) ==> TrustedGetterResult(codec, nonces, s, g).Some?
    ensures GetterSender(g) == ALICE ==> TrustedGetterResult(codec, nonces, s, g) == TrustedRead(codec, nonces, s, g)
  {
  }

  /** For the ceremony master a getter answers nothing exactly when the item
      it asks for is absent: an empty slot, no attestation entry, or a
      declared count below 1. */
  lemma MasterAnswersUnlessAbsent(codec: GetterCodec, nonces: NonceMap, s: PalletState, g: TrustedGetter)
    ensures TrustedRead(codec, nonces, s, g).None? <==>
      match g
      case CeremoniesParticipantAttestees(_, cid, ci, ai) => ((cid, ci), ai) !in s.attestations
      case CeremoniesRegisteredBootstrapper(_, cid, ci, i) => ((cid, ci), i) !in s.bootstrappers.slots
      case CeremoniesRegisteredReputable(_, cid, ci, i) => ((cid, ci), i) !in s.reputables.slots
      case CeremoniesRegisteredEndorsee(_, cid, ci, i) => ((cid, ci), i) !in s.endorsees.slots
      case CeremoniesRegisteredNewbie(_, cid, ci, i) => ((cid, ci), i) !in s.newbies.slots
      case CeremoniesRegisteredBootstrappers(_, cid, ci) => CountOf(s.bootstrappers, (cid, ci)) < 1
      case CeremoniesRegisteredReputables(_, cid, ci) => CountOf(s.reputables, (cid, ci)) < 1
      case CeremoniesRegisteredEndorsees(_, cid, ci) => CountOf(s.endorsees, (cid, ci)) < 1
      case CeremoniesRegisteredNewbies(_, cid, ci) => CountOf(s.newbies, (cid, ci)) < 1
      case _ => false
  {
  }

  /** `PublicGetter::execute`: every public getter answers. */
  function PublicGetterResult(codec: GetterCodec, s: PalletState, g: PublicGetter): (r: Option<Bytes>)
    ensures r.Some?
  {
    match g
    case SomeValue => Some(codec.encodeValue(U32Value(42)))
    case EncointerTotalIssuance(cid) => Some(s.storage(TotalIssuance(cid)))
    case CeremoniesAssignmentCounts(cid, ci) => Some(s.storage(AssignmentCounts((cid, ci))))
    case CeremoniesAttestationCount(cid, ci) => Some(s.storage(AttestationCount((cid, ci))))
    case CeremoniesMeetupCount(cid, ci) => Some(s.storage(MeetupCount((cid, ci))))
    case CeremoniesMeetupTimeOffset => Some(s.storage(MeetupTimeOffset))
    case CeremoniesRegisteredBootstrappersCount(cid, ci) => Some(codec.encodeValue(CountValue(CountOf(s.bootstrappers, (cid, ci)))))
    case CeremoniesRegisteredReputablesCount(cid, ci) => Some(codec.encodeValue(CountValue(CountOf(s.reputables, (cid, ci)))))
    case CeremoniesRegisteredNewbiesCount(cid, ci) => Some(codec.encodeValue(CountValue(CountOf(s.newbies, (cid, ci)))))
    case CeremoniesRegisteredEndorseesCount(cid, ci) => Some(s.storage(EndorseesCount((cid, ci))))
    case CeremoniesReward(cid) => Some(s.storage(NominalIncome(cid)))
  }

  /** For bootstrappers, reputables and newbies, the public count and the
      master's list read the same registry, whose own count decides: the
      list exists exactly when that count is positive and never holds more
      accounts than it. */
  lemma PublicCountBoundsAggregate(reg: Registry, cc: CommunityCeremony)
    ensures Aggregate(reg, cc).Some? <==> CountOf(reg, cc) >= 1
    ensures Aggregate(reg, cc).Some? ==> |Aggregate(reg, cc).value| <= CountOf(reg, cc)
  {
    CollectedReadsOccupiedSlots(reg, cc, CountOf(reg, cc));
  }

  /** `Getter::execute`: delegate to the public or the trusted getter. */
  function GetterResult(codec: GetterCodec, nonces: NonceMap, s: PalletState, g: Getter): Option<Bytes> {
    match g
    case Public(pg) => PublicGetterResult(codec, s, pg)
    case Trusted(tg) => TrustedGetterResult(codec, nonces, s, tg.getter)
  }

  method ExecuteGetter(codec: GetterCodec, nonces: NonceMap, s: PalletState, g: Getter) returns (r: Option<Bytes>)
    ensures r == GetterResult(codec, nonces, s, g)
    ensures g.Public? ==> r.Some?
  {
    match g {
      case Trusted(tg) => r := ExecuteTrustedGetter(codec, nonces, s, tg);
      case Public(pg) => r := PublicGetterResult(codec, s, pg);
    }
  }

  // ---------------------------------------------------------------------
  // Getter change sets
  // ---------------------------------------------------------------------

  /** The trusted getters' change-set table, one entry per getter. */
  function TrustedGetterKeys(g: TrustedGetter, s: PalletState): seq<StorageKey> {
    match g
    case EncointerBalance(_, cid) => [MapKey("EncointerBalances", "DemurragePerBlock", CidArg(cid), Blake2_128Concat)]
    case CeremoniesAggregatedAccountData(_, _, _) => [CURRENT_CEREMONY_INDEX, PhaseDurationsKey(s.phase), NEXT_PHASE_TIMESTAMP]
    case _ => []
  }

  /** The public getters' change-set table, one entry per getter. */
  function PublicGetterKeys(g: PublicGetter): seq<StorageKey> {
    match g
    case CeremoniesReward(cid) => [MapKey("EncointerCommunities", "NominalIncome", CidArg(cid), Blake2_128Concat)]
    case _ => []
  }

  /** Trusted getter change set: the demurrage of the community for
      encointer_balance; the ceremony index, the duration of the current
      phase (read from state) and the next phase timestamp for
      aggregated_account_data; nothing otherwise. */
  method TrustedGetterStorageHashes(signed: TrustedGetterSigned, s: PalletState) returns (keyHashes: seq<StorageKey>)
    ensures signed.getter.EncointerBalance? ==>
              keyHashes == [MapKey("EncointerBalances", "DemurragePerBlock", CidArg(signed.getter.cid), Blake2_128Concat)]
    ensures signed.getter.CeremoniesAggregatedAccountData? ==>
              keyHashes == [CURRENT_CEREMONY_INDEX, PhaseDurationsKey(s.phase), NEXT_PHASE_TIMESTAMP]
    ensures !signed.getter.EncointerBalance? && !signed.getter.CeremoniesAggregatedAccountData? ==> keyHashes == []
    ensures forall k :: k in keyHashes ==> NamesSchedulerItem(k)
    ensures keyHashes == TrustedGetterKeys(signed.getter, s)
  {
    keyHashes := [];
    match signed.getter {
      case EncointerBalance(_, cid) =>
        keyHashes := keyHashes + [MapKey("EncointerBalances", "DemurragePerBlock", CidArg(cid), Blake2_128Concat)];
      case CeremoniesAggregatedAccountData(_, _, _) =>
        keyHashes := keyHashes + [CURRENT_CEREMONY_INDEX];
        var currentPhase := s.phase;
        keyHashes := keyHashes + [PhaseDurationsKey(currentPhase)];
        keyHashes := keyHashes + [NEXT_PHASE_TIMESTAMP];
      case _ =>
    }
  }

  /** The aggregated_account_data change set as the source writes it: the
      last item name carries a leading space. */
  function AggregatedAccountDataKeysAsWritten(currentPhase: CeremonyPhaseType): (keys: seq<StorageKey>)
    ensures keys == [CURRENT_CEREMONY_INDEX, PhaseDurationsKey(currentPhase),
                     ValueKey(NEXT_PHASE_TIMESTAMP.pallet, " " + NEXT_PHASE_TIMESTAMP.item)]
  {
    var item := " NextPhaseTimestamp";
    assert item[0] == ' ' && item[1..] == NEXT_PHASE_TIMESTAMP.item;
    assert item == [item[0]] + item[1..];
    [CURRENT_CEREMONY_INDEX, PhaseDurationsKey(currentPhase), ValueKey("EncointerScheduler", item)]
  }

  /** As written, the change set names no scheduler item in its last key and
      so never re-fetches the next phase timestamp. */
  lemma AsWrittenMissesNextPhaseTimestamp(currentPhase: CeremonyPhaseType)
    ensures !NamesSchedulerItem(AggregatedAccountDataKeysAsWritten(currentPhase)[2])
    ensures NEXT_PHASE_TIMESTAMP !in AggregatedAccountDataKeysAsWritten(currentPhase)
  {
    var item := AggregatedAccountDataKeysAsWritten(currentPhase)[2].item;
    assert |item| == 19;
    assert forall x | x in SCHEDULER_ITEMS :: |x| != 19;
  }

  /** Public getter change set: the nominal income of the community for
      ceremonies_reward, nothing otherwise. */
  method PublicGetterStorageHashes(g: PublicGetter) returns (keyHashes: seq<StorageKey>)
    ensures g.CeremoniesReward? ==> keyHashes == [MapKey("EncointerCommunities", "NominalIncome", CidArg(g.cid), Blake2_128Concat)]
    ensures !g.CeremoniesReward? ==> keyHashes == []
    ensures keyHashes == PublicGetterKeys(g)
  {
    keyHashes := [];
    match g {
      case CeremoniesReward(cid) =>
        keyHashes := keyHashes + [MapKey("EncointerCommunities", "NominalIncome", CidArg(cid), Blake2_128Concat)];
      case _ =>
    }
  }

  /** `Getter::get_storage_hashes_to_update`: delegate. */
  method GetterStorageHashes(g: Getter, s: PalletState) returns (keyHashes: seq<StorageKey>)
    ensures g.Public? ==> keyHashes == PublicGetterKeys(g.publicGetter)
    ensures g.Trusted? ==> keyHashes == TrustedGetterKeys(g.trustedGetter.getter, s)
    ensures |keyHashes| <= 3
    ensures g.Public? ==> (keyHashes != [] <==> g.publicGetter.CeremoniesReward?)
    ensures g.Trusted? ==>
              (keyHashes != [] <==>
                 (g.trustedGetter.getter.EncointerBalance? || g.trustedGetter.getter.CeremoniesAggregatedAccountData?))
  {
    match g {
      case Trusted(tg) => keyHashes := TrustedGetterStorageHashes(tg, s);
      case Public(pg) => keyHashes := PublicGetterStorageHashes(pg);
    }
  }
}
