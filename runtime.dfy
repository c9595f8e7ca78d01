/** The sidechain runtime as the trusted operation engine sees it: origins,
    the Alice-or-Root ceremony-master origin check, the ledger state the
    engine reads, the pallet calls it dispatches, and the opaque dispatcher. */
module Runtime {
  import opened Types

  // ---------------------------------------------------------------------
  // Origins and the EnsureAliceOrRoot origin check
  // ---------------------------------------------------------------------

  /** frame_system's raw origin. */
  datatype RawOrigin = Root | Signed(who: AccountId) | NoOrigin

  datatype Either<+L, +R> = Left(left: L) | Right(right: R)

  /** The well-known Alice account configured as ceremony and community master. */
  const ALICE: AccountId := [212, 53, 147, 199, 21, 253, 211, 28, 97, 20, 26, 189, 4, 169, 159, 214,
                             130, 44, 133, 88, 133, 76, 205, 227, 154, 86, 132, 231, 165, 109, 162, 125]

  /** `EnsureSignedBy<Alice, AccountId32>`: a signed origin whose account is
      a member of the one-element set {Alice}; any other origin is handed back. */
  function EnsureSignedByAlice(o: RawOrigin): (r: Result<AccountId, RawOrigin>)
    ensures r.Ok? <==> o == Signed(ALICE)
  {
    match o
    case Signed(who) => if who in {ALICE} then Ok(who) else Err(o)
    case _ => Err(o)
  }

  /** `EnsureRoot`: only the root origin passes. */
  function EnsureRoot(o: RawOrigin): (r: Result<(), RawOrigin>)
    ensures r.Ok? <==> o == Root
  {
    if o.Root? then Ok(()) else Err(o)
  }

  /** `EnsureAliceOrRoot = EitherOfDiverse<EnsureSignedBy<Alice>, EnsureRoot>`:
      the left check first, and the right one on the origin it hands back. */
  function EnsureAliceOrRoot(o: RawOrigin): (r: Result<Either<AccountId, ()>, RawOrigin>)
    ensures r.Ok? <==> o == Signed(ALICE) || o == Root
  {
    match EnsureSignedByAlice(o)
    case Ok(who) => Ok(Left(who))
    case Err(o') =>
      match EnsureRoot(o')
      case Ok(u) => Ok(Right(u))
      case Err(o'') => Err(o'')
  }

  // ---------------------------------------------------------------------
  // Pallet argument types, carried opaquely
  // ---------------------------------------------------------------------

  /** I64F64 fixed-point community currency amount, as its raw bits. */
  type BalanceType = int
  type FeeConversionFactorType = nat
  type ProofOfAttendance = Bytes
  type ClaimOfAttendance = Bytes
  type MeetupIndexType = nat
  type InactivityTimeoutType = nat
  type EndorsementTicketsType = nat
  type ReputationLifetimeType = nat
  type MeetupTimeOffsetType = int
  type Moment = nat
  type ParticipantIndexType = nat
  type AttestationIndexType = nat

  // ---------------------------------------------------------------------
  // The ledger state
  // ---------------------------------------------------------------------

  /** One participant registry of the ceremonies pallet: a declared count per
      ceremony and 1-based slots holding an account. */
  datatype Registry = Registry(
    count: map<CommunityCeremony, ParticipantIndexType>,
    slots: map<(CommunityCeremony, ParticipantIndexType), AccountId>)

  /** The declared count of a ceremony; storage reads default to 0. */
  function CountOf(reg: Registry, cc: CommunityCeremony): ParticipantIndexType {
    if cc in reg.count then reg.count[cc] else 0
  }

  function SlotOf(reg: Registry, cc: CommunityCeremony, i: ParticipantIndexType): Option<AccountId> {
    if (cc, i) in reg.slots then Some(reg.slots[(cc, i)]) else None
  }

  /** Pallet storage the engine only reads through and never branches on.
      `storage` gives the SCALE-encoded answer of each such getter. */
  datatype PalletQuery =
    | EncointerBalance(cid: CommunityIdentifier, who: AccountId)
    | AggregatedAccountData(cid: CommunityIdentifier, account: AccountId)
    | Assignments(cc: CommunityCeremony)
    | MeetupParticipantCountVote(cc: CommunityCeremony, who: AccountId)
    | AttestationIndex(cc: CommunityCeremony, who: AccountId)
    | TotalIssuance(cid: CommunityIdentifier)
    | AssignmentCounts(cc: CommunityCeremony)
    | AttestationCount(cc: CommunityCeremony)
    | MeetupCount(cc: CommunityCeremony)
    | MeetupTimeOffset
    | EndorseesCount(cc: CommunityCeremony)
    | NominalIncome(cid: CommunityIdentifier)

  /** Everything of the runtime's storage except the account nonces. */
  datatype PalletState = PalletState(
    free: map<AccountId, Balance>,
    reserved: map<AccountId, Balance>,
    phase: CeremonyPhaseType,
    sudoKey: Option<AccountId>,
    bootstrappers: Registry,
    reputables: Registry,
    endorsees: Registry,
    newbies: Registry,
    attestations: map<(CommunityCeremony, AttestationIndexType), seq<AccountId>>,
    storage: PalletQuery -> Bytes)

  /** `System::account(who).data.free`; a missing account reads as 0. */
  function FreeOf(s: PalletState, who: AccountId): Balance {
    if who in s.free then s.free[who] else 0
  }

  function ReservedOf(s: PalletState, who: AccountId): Balance {
    if who in s.reserved then s.reserved[who] else 0
  }

  // ---------------------------------------------------------------------
  // Account nonces
  // ---------------------------------------------------------------------

  /** frame_system's account nonces, kept apart from the pallet state: in
      this model, no pallet call reaches them. */
  type NonceMap = map<AccountId, Index>

  /** `System::account_nonce`; an unknown account has nonce 0. */
  function NonceOf(nonces: NonceMap, who: AccountId): Index {
    if who in nonces then nonces[who] else 0
  }

  /** `inc_account_nonce`: the u32 index plus one, wrapping at 2^32. The
      result always differs from the old nonce. */
  function IncNonce(n: Index): (m: Index)
    ensures m != n
    ensures m as int == (n as int + 1) % 0x1_0000_0000
  {
    if n as int == 0xFFFF_FFFF then 0 else n + 1
  }

  // ---------------------------------------------------------------------
  // Pallet calls and their dispatch
  // ---------------------------------------------------------------------

  datatype PalletCall =
    | BalancesSetBalance(who: AccountId, newFree: Balance, newReserved: Balance)
    | BalancesTransfer(dest: AccountId, value: Balance)
    | EncointerBalancesTransfer(dest: AccountId, communityId: CommunityIdentifier, amount: BalanceType)
    | EncointerBalancesSetFeeConversionFactor(feeConversionFactor: FeeConversionFactorType)
    | EncointerBalancesTransferAll(dest: AccountId, cid: CommunityIdentifier)
    | CeremoniesRegisterParticipant(cid: CommunityIdentifier, maybeProof: Option<ProofOfAttendance>)
    | CeremoniesUpgradeRegistration(cid: CommunityIdentifier, proof: ProofOfAttendance)
    | CeremoniesUnregisterParticipant(cid: CommunityIdentifier, maybeReputationCommunityCeremony: Option<CommunityCeremony>)
    | CeremoniesAttestAttendees(cid: CommunityIdentifier, numberOfParticipantsVote: u32, attestations: seq<AccountId>)
    | CeremoniesAttestClaims(claims: seq<ClaimOfAttendance>)
    | CeremoniesEndorseNewcomer(cid: CommunityIdentifier, newbie: AccountId)
    | CeremoniesClaimRewards(cid: CommunityIdentifier, maybeMeetupIndex: Option<MeetupIndexType>)
    | CeremoniesSetInactivityTimeout(inactivityTimeout: InactivityTimeoutType)
    | CeremoniesSetEndorsementTicketsPerBootstrapper(ticketsPerBootstrapper: EndorsementTicketsType)
    | CeremoniesSetEndorsementTicketsPerReputable(ticketsPerReputable: EndorsementTicketsType)
    | CeremoniesSetReputationLifetime(reputationLifetime: ReputationLifetimeType)
    | CeremoniesSetMeetupTimeOffset(meetupTimeOffset: MeetupTimeOffsetType)
    | CeremoniesSetTimeTolerance(timeTolerance: Moment)
    | CeremoniesSetLocationTolerance(locationTolerance: u32)
    | CeremoniesPurgeCommunityCeremony(communityCeremony: CommunityCeremony)

  /** The runtime's collaborators: `dispatch_bypass_filter` of a pallet call
      under an origin (atomic: either the new state or the debug text of the
      dispatch error), and the enclave's own signer account. */
  datatype Runtime = Runtime(
    dispatch: (PalletState, PalletCall, RawOrigin) -> Result<PalletState, string>,
    enclaveSigner: AccountId)

  /** What `set_balance` writes when it succeeds: the two balances of `who`. */
  function SetBalanceEffect(s: PalletState, who: AccountId, newFree: Balance, newReserved: Balance): PalletState {
    s.(free := s.free[who := newFree], reserved := s.reserved[who := newReserved])
  }

  /** The balances pallet's `set_balance`, when dispatched as root and
      successful, writes exactly the requested free and reserved balance. */
  ghost predicate SetBalanceSound(rt: Runtime) {
    forall s: PalletState, who: AccountId, f: Balance, r: Balance ::
      rt.dispatch(s, BalancesSetBalance(who, f, r), Root).Ok? ==>
        rt.dispatch(s, BalancesSetBalance(who, f, r), Root).value == SetBalanceEffect(s, who, f, r)
  }
}
