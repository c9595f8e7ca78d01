/** The state transition function as a stateful object: the sidechain state
    (account nonces and pallet state), `execute` of a signed trusted call
    with its nonce discipline, and read-only getter execution. */
module StateTransition {
  import opened Types
  import opened Runtime
  import opened TrustedCalls
  import opened Getters

  /** The `calls` vector that `execute` appends outgoing parentchain calls to. */
  class CallQueue {
    var calls: seq<OpaqueCall>

    constructor ()
      ensures calls == []
    {
      calls := [];
    }

    method Push(c: OpaqueCall)
      modifies this
      ensures calls == old(calls) + [c]
    {
      calls := calls + [c];
    }
  }

  /** The sidechain state a call executes against: frame_system's account
      nonces, kept apart from the pallet state that dispatch rewrites. */
  class Stf {
    var nonces: NonceMap
    var pallets: PalletState

    /** Genesis: the given pallet state, every account at nonce 0. */
    constructor (genesis: PalletState)
      ensures nonces == map[] && pallets == genesis
      ensures forall who :: AccountNonce(who) == 0
    {
      nonces := map[];
      pallets := genesis;
    }

    function AccountNonce(who: AccountId): Index
      reads this
    {
      NonceOf(nonces, who)
    }

    /** `System::inc_account_nonce`. */
    method IncAccountNonce(who: AccountId)
      modifies this
      ensures nonces == old(nonces)[who := IncNonce(old(AccountNonce(who)))]
      ensures pallets == old(pallets)
    {
      nonces := nonces[who := IncNonce(AccountNonce(who))];
    }

    /** `TrustedCallSigned::execute`: the submitted nonce must equal the
        sender's account nonce; then the call body runs; only when it
        succeeds is its state kept, its outgoing call queued and the
        sender's nonce bumped. Any failure leaves the state, the nonces and
        the queue as they were. The signature is not checked here. */
    method Execute(rt: Runtime, codec: CallCodec, signed: TrustedCallSigned, queue: CallQueue, unshieldFundsFn: CallIndex)
      returns (r: Result<(), StfError>)
      modifies this, queue
      ensures var sender := SenderAccount(signed.call);
              var body := CallBody(rt, old(pallets), signed.call, codec.blake2_256(codec.encode(signed.call)), unshieldFundsFn);
              && (signed.nonce != old(AccountNonce(sender)) ==> r == Err(InvalidNonce(signed.nonce)))
              && (signed.nonce == old(AccountNonce(sender)) && body.Err? ==> r == Err(body.error))
              && (r.Ok? <==> signed.nonce == old(AccountNonce(sender)) && body.Ok?)
              && (r.Err? ==> nonces == old(nonces) && pallets == old(pallets) && queue.calls == old(queue.calls))
              && (r.Ok? ==>
                    && pallets == body.value.state
                    && nonces == old(nonces)[sender := IncNonce(old(AccountNonce(sender)))]
                    && queue.calls == old(queue.calls) + (match body.value.outgoing
                                                          case Some(c) => [c]
                                                          case None => []))
    {
      var sender := SenderAccount(signed.call);
      var callHash := codec.blake2_256(codec.encode(signed.call));
      var systemNonce := AccountNonce(sender);
      if signed.nonce != systemNonce {
        return Err(InvalidNonce(signed.nonce));
      }
      var body := CallBody(rt, pallets, signed.call, callHash, unshieldFundsFn);
      if body.Err? {
        return Err(body.error);
      }
      pallets := body.value.state;
      if body.value.outgoing.Some? {
        queue.Push(body.value.outgoing.value);
      }
      IncAccountNonce(sender);
      return Ok(());
    }

    /** `Getter::execute` against the current state; reads only. */
    method ExecuteGetter(codec: GetterCodec, g: Getter) returns (r: Option<Bytes>)
      ensures r == GetterResult(codec, nonces, pallets, g)
    {
      r := Getters.ExecuteGetter(codec, nonces, pallets, g);
    }
  }

  /** Replay protection: once a signed call has executed, submitting the
      same signed call again fails with InvalidNonce and changes nothing, so
      the two submissions together have the effect of the first alone. */
  method ReplayRejected(stf: Stf, rt: Runtime, codec: CallCodec, signed: TrustedCallSigned, queue: CallQueue,
                        unshieldFundsFn: CallIndex)
    returns (first: Result<(), StfError>, second: Result<(), StfError>)
    modifies stf, queue
    ensures first.Ok? ==> second == Err(InvalidNonce(signed.nonce))
    ensures first.Ok? ==> stf.AccountNonce(SenderAccount(signed.call)) == IncNonce(signed.nonce)
    ensures first.Ok? ==>
              var body := CallBody(rt, old(stf.pallets), signed.call, codec.blake2_256(codec.encode(signed.call)), unshieldFundsFn);
              && body.Ok?
              && stf.pallets == body.value.state
              && stf.nonces == old(stf.nonces)[SenderAccount(signed.call) := IncNonce(signed.nonce)]
              && queue.calls == old(queue.calls) + (match body.value.outgoing
                                                    case Some(c) => [c]
                                                    case None => [])
  {
    first := stf.Execute(rt, codec, signed, queue, unshieldFundsFn);
    second := stf.Execute(rt, codec, signed, queue, unshieldFundsFn);
  }
}
