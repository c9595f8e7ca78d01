/** The ceremony-master predicate used by the getter confidentiality gate. */
module EncointerHelpers {
  import opened Types
  import opened Runtime

  /** `is_ceremony_master`: build a signed origin for the account and run the
      ceremonies pallet's `CeremonyMaster` check (EnsureAliceOrRoot) on it;
      a bad origin is reported as false, never as an error. */
  function IsCeremonyMaster(accountId: AccountId): (b: bool)
    ensures b <==> accountId == ALICE
  {
    var origin := Signed(accountId);
    match EnsureAliceOrRoot(origin)
    case Ok(_) => true
    case Err(_) => false
  }
}
