/** Storage key descriptors: the change sets name the storage items an
    external synchroniser must re-fetch. The bytes of a key are derived from
    a descriptor by `storage_value_key` / `storage_map_key` (hashing of the
    pallet and item names and of the encoded map key). */
module StorageKeys {
  import opened Types

  datatype StorageHasher = Blake2_128Concat

  /** The map key of a `storage_map_key` descriptor, before encoding. */
  datatype MapKeyArg = CidArg(cid: CommunityIdentifier) | PhaseArg(phase: CeremonyPhaseType)

  datatype StorageKey =
    | ValueKey(pallet: string, item: string)
    | MapKey(pallet: string, item: string, arg: MapKeyArg, hasher: StorageHasher)

  const CURRENT_PHASE: StorageKey := ValueKey("EncointerScheduler", "CurrentPhase")
  const CURRENT_CEREMONY_INDEX: StorageKey := ValueKey("EncointerScheduler", "CurrentCeremonyIndex")
  const COMMUNITY_IDENTIFIERS: StorageKey := ValueKey("EncointerCommunities", "CommunityIdentifiers")
  const BOOTSTRAPPERS: StorageKey := ValueKey("EncointerCommunities", "Bootstrappers")
  const NEXT_PHASE_TIMESTAMP: StorageKey := ValueKey("EncointerScheduler", "NextPhaseTimestamp")

  /** The duration of one ceremony phase, keyed by the phase. */
  function PhaseDurationsKey(phase: CeremonyPhaseType): StorageKey {
    MapKey("EncointerScheduler", "PhaseDurations", PhaseArg(phase), Blake2_128Concat)
  }

  /** The storage items of the scheduler pallet that the engine and the
      node API name. */
  const SCHEDULER_ITEMS: set<string> := {"CurrentPhase", "CurrentCeremonyIndex", "PhaseDurations", "NextPhaseTimestamp"}

  /** A key into the scheduler pallet names one of its storage items. */
  predicate NamesSchedulerItem(k: StorageKey) {
    k.pallet == "EncointerScheduler" ==> k.item in SCHEDULER_ITEMS
  }
}
