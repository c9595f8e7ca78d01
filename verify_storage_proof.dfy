/** Storage-proof verification of state entries read from the parentchain:
    one entry against a header's state root, with or without decoding its
    value, and batches that stop at the first entry that fails. */
module StorageProof {
  import opened Types

  /** A storage entry as received: key, claimed value and the proof nodes. */
  datatype StorageEntry = StorageEntry(key: Bytes, value: Option<Bytes>, proof: Option<seq<Bytes>>)

  /** An entry whose value has been checked against a state root. */
  datatype StorageEntryVerified<V> = StorageEntryVerified(key: Bytes, value: Option<V>)

  datatype Error =
    | NoProofSupplied
    | WrongValue
    | Codec(cause: string)
    | CheckProof(cause: string)

  datatype Header = Header(stateRoot: Hash32)

  /** `StorageProofChecker::check_proof`, external: the value the proof
      shows under the key for the given state root, or why it fails. */
  type ProofChecker = (Hash32, Bytes, seq<Bytes>) -> Result<Option<Bytes>, Error>

  /** A SCALE decoder for the value type, external. */
  type Decoder<V> = Bytes -> Result<V, string>

  /** `verify_storage_proof`: a proof must be present, the checker must
      accept it, and the value it shows must be the entry's claimed value. */
  function VerifyStorageProof(check: ProofChecker, e: StorageEntry, header: Header): (r: Result<(), Error>)
    ensures r.Ok? <==> e.proof.Some? && check(header.stateRoot, e.key, e.proof.value) == Ok(e.value)
    ensures e.proof.None? ==> r == Err(NoProofSupplied)
    ensures e.proof.Some? && check(header.stateRoot, e.key, e.proof.value).Err? ==>
              r == Err(check(header.stateRoot, e.key, e.proof.value).error)
    ensures (e.proof.Some? && check(header.stateRoot, e.key, e.proof.value).Ok?
             && check(header.stateRoot, e.key, e.proof.value).value != e.value) ==> r == Err(WrongValue)
  {
    match e.proof
    case None => Err(NoProofSupplied)
    case Some(proof) =>
      match check(header.stateRoot, e.key, proof)
      case Err(err) => Err(err)
      case Ok(actual) => if actual == e.value then Ok(()) else Err(WrongValue)
  }

  /** `Option::map(decode).transpose()`, with the decode error wrapped. */
  function DecodeValue<V>(decode: Decoder<V>, value: Option<Bytes>): Result<Option<V>, Error> {
    match value
    case None => Ok(None)
    case Some(v) =>
      match decode(v)
      case Ok(x) => Ok(Some(x))
      case Err(cause) => Err(Codec(cause))
  }

  /** `verify_storage_proof_and_decode`: verify first, then decode a present
      value. An absent value verifies to an absent value. */
  function VerifyStorageProofAndDecode<V>(check: ProofChecker, decode: Decoder<V>, e: StorageEntry, header: Header)
    : (r: Result<StorageEntryVerified<V>, Error>)
    ensures VerifyStorageProof(check, e, header).Err? ==> r == Err(VerifyStorageProof(check, e, header).error)
    ensures r.Ok? ==> VerifyStorageProof(check, e, header).Ok? && r.value.key == e.key
    ensures r.Ok? ==> (r.value.value.None? <==> e.value.None?)
    ensures r.Ok? && e.value.Some? ==> decode(e.value.value) == Ok(r.value.value.value)
    ensures VerifyStorageProof(check, e, header).Ok? && e.value.Some? && decode(e.value.value).Err? ==>
              r == Err(Codec(decode(e.value.value).error))
    ensures VerifyStorageProof(check, e, header).Ok? && e.value.None? ==> r == Ok(StorageEntryVerified(e.key, None))
    ensures VerifyStorageProof(check, e, header).Ok? && e.value.Some? && decode(e.value.value).Ok? ==>
              r == Ok(StorageEntryVerified(e.key, Some(decode(e.value.value).value)))
  {
    match VerifyStorageProof(check, e, header)
    case Err(err) => Err(err)
    case Ok(_) =>
      match DecodeValue(decode, e.value)
      case Err(err) => Err(err)
      case Ok(v) => Ok(StorageEntryVerified(e.key, v))
  }

  /** `into_storage_entry_iter`: convert each item, keeping the order. */
  function IntoStorageEntries<S>(into: S -> StorageEntry, source: seq<S>): (r: seq<StorageEntry>)
    ensures |r| == |source|
    ensures forall i :: 0 <= i < |source| ==> r[i] == into(source[i])
  {
    if source == [] then [] else [into(source[0])] + IntoStorageEntries(into, source[1..])
  }

  /** `verify_storage_entries`: verify every entry in order, returning at the
      first failure with its error; otherwise one verified entry per input,
      with the same key and the claimed value. */
  method VerifyStorageEntries<S>(into: S -> StorageEntry, entries: seq<S>, header: Header, check: ProofChecker)
    returns (r: Result<seq<StorageEntryVerified<Bytes>>, Error>)
    ensures r.Ok? <==> forall i :: 0 <= i < |entries| ==> VerifyStorageProof(check, into(entries[i]), header).Ok?
    ensures r.Ok? ==> |r.value| == |entries|
    ensures r.Ok? ==> forall i :: 0 <= i < |entries| ==>
              r.value[i] == StorageEntryVerified(into(entries[i]).key, into(entries[i]).value)
    ensures r.Err? ==>
              exists k :: && 0 <= k < |entries|
                          && (forall j :: 0 <= j < k ==> VerifyStorageProof(check, into(entries[j]), header).Ok?)
                          && VerifyStorageProof(check, into(entries[k]), header) == Err(r.error)
  {
    var iter := IntoStorageEntries(into, entries);
    var verifiedEntries: seq<StorageEntryVerified<Bytes>> := [];
    for i := 0 to |iter|
      invariant |verifiedEntries| == i
      invariant forall j :: 0 <= j < i ==> VerifyStorageProof(check, into(entries[j]), header).Ok?
      invariant forall j :: 0 <= j < i ==>
                  verifiedEntries[j] == StorageEntryVerified(into(entries[j]).key, into(entries[j]).value)
    {
      var e := iter[i];
      var checked := VerifyStorageProof(check, e, header);
      if checked.Err? {
        return Err(checked.error);
      }
      verifiedEntries := verifiedEntries + [StorageEntryVerified(e.key, e.value)];
    }
    return Ok(verifiedEntries);
  }

  /** `verify_storage_entries_and_decode`: as above, each entry verified and
      decoded, returning at the first entry whose verification or decoding
      fails with that error. */
  method VerifyStorageEntriesAndDecode<S, V>(into: S -> StorageEntry, entries: seq<S>, header: Header,
                                             check: ProofChecker, decode: Decoder<V>)
    returns (r: Result<seq<StorageEntryVerified<V>>, Error>)
    ensures r.Ok? <==> forall i :: 0 <= i < |entries| ==> VerifyStorageProofAndDecode(check, decode, into(entries[i]), header).Ok?
    ensures r.Ok? ==> |r.value| == |entries|
    ensures r.Ok? ==> forall i :: 0 <= i < |entries| ==>
              Ok(r.value[i]) == VerifyStorageProofAndDecode(check, decode, into(entries[i]), header)
    ensures r.Err? ==>
              exists k :: && 0 <= k < |entries|
                          && (forall j :: 0 <= j < k ==> VerifyStorageProofAndDecode(check, decode, into(entries[j]), header).Ok?)
                          && VerifyStorageProofAndDecode(check, decode, into(entries[k]), header) == Err(r.error)
  {
    var iter := IntoStorageEntries(into, entries);
    var verifiedEntries: seq<StorageEntryVerified<V>> := [];
    for i := 0 to |iter|
      invariant |verifiedEntries| == i
      invariant forall j :: 0 <= j < i ==>
                  Ok(verifiedEntries[j]) == VerifyStorageProofAndDecode(check, decode, into(entries[j]), header)
    {
      var verified := VerifyStorageProofAndDecode(check, decode, iter[i], header);
      if verified.Err? {
        return Err(verified.error);
      }
      verifiedEntries := verifiedEntries + [verified.value];
    }
    return Ok(verifiedEntries);
  }
}
