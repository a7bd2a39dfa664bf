/**
 The sender's acknowledgement waiter: promises that are settled at most once.

 Its set of armed waits is the `pending` of SenderMachine; a promise is a number, `settled` tells
 whether it was resolved (true) or rejected (false).
*/
module ControlWaiter {
  import opened SenderMachine

  class ControlAckWaiter {
    var pending: map<Ack, nat>
    var failed: bool
    var nextPromise: nat
    ghost var settled: map<nat, bool>

    /** Waits have promises of their own that are still open; after a failure nothing waits. */
    ghost predicate Valid()
      reads this
    {
      && (forall a :: a in pending ==> pending[a] < nextPromise && pending[a] !in settled)
      && (forall a, b :: a in pending && b in pending && pending[a] == pending[b] ==> a == b)
      && (forall p :: p in settled ==> p < nextPromise)
      && (failed ==> pending == map[])
    }

    /** What was settled before stays as it was settled. */
    twostate predicate OnlySettles()
      reads this
    {
      forall p :: p in old(settled) ==> p in settled && settled[p] == old(settled)[p]
    }

    constructor ()
      ensures Valid() && pending == map[] && !failed && settled == map[]
    {
      pending, failed, nextPromise, settled := map[], false, 0, map[];
    }

    /** Resolves the wait for exactly this acknowledgement, if it is armed. */
    method Mark(ack: Ack) returns (known: bool)
      requires Valid()
      modifies this
      ensures Valid() && OnlySettles() && failed == old(failed)
      ensures known <==> ack in old(pending)
      ensures pending == old(pending) - {ack}
      ensures settled == if known then old(settled)[old(pending)[ack] := true] else old(settled)
    {
      known := ack in pending;
      if known {
        settled := settled[pending[ack] := true];
        pending := pending - {ack};
      }
      assert !known ==> pending - {ack} == pending;
    }

    /** A wait that is already armed is shared; after a failure the promise is rejected at once. */
    method Wait(ack: Ack) returns (promise: nat)
      requires Valid()
      modifies this
      ensures Valid() && OnlySettles() && failed == old(failed)
      ensures old(failed) ==> promise in settled && !settled[promise] && pending == old(pending)
      ensures !old(failed) ==> settled == old(settled) && ack in pending && pending[ack] == promise
      ensures !old(failed) ==> pending == old(pending)[ack := promise] && (ack in old(pending) ==> promise == old(pending)[ack])
      ensures promise !in old(settled)
    {
      if failed {
        promise := nextPromise;
        nextPromise := nextPromise + 1;
        settled := settled[promise := false];
        return;
      }
      if ack in pending {
        promise := pending[ack];
        return;
      }
      promise := nextPromise;
      nextPromise := nextPromise + 1;
      pending := pending[ack := promise];
    }

    /** The timer of a wait fires: it is rejected and disarmed. */
    method TimeOut(ack: Ack)
      requires Valid() && ack in pending
      modifies this
      ensures Valid() && OnlySettles() && failed == old(failed)
      ensures pending == old(pending) - {ack} && settled == old(settled)[old(pending)[ack] := false]
    {
      settled := settled[pending[ack] := false];
      pending := pending - {ack};
    }

    /** The first failure rejects every armed wait; later ones change nothing. */
    method Fail()
      requires Valid()
      modifies this
      ensures Valid() && OnlySettles() && failed && pending == map[]
      ensures !old(failed) ==> forall a :: a in old(pending) ==>
                old(pending)[a] in settled && !settled[old(pending)[a]]
      ensures forall p :: p in settled && p !in old(settled) ==> exists a :: a in old(pending) && old(pending)[a] == p
      ensures old(failed) ==> settled == old(settled)
    {
      if failed {
        return;
      }
      failed := true;
      ghost var all := pending;
      ghost var before := settled;
      while pending != map[]
        invariant pending.Keys <= all.Keys && forall a :: a in pending ==> pending[a] == all[a]
        invariant forall a :: a in pending ==> pending[a] < nextPromise && pending[a] !in settled
        invariant forall a :: a in all && a !in pending ==> all[a] in settled && !settled[all[a]]
        invariant forall p :: p in before ==> p in settled && settled[p] == before[p]
        invariant forall p :: p in settled && p !in before ==> exists a :: a in all && all[a] == p
        invariant forall p :: p in settled ==> p < nextPromise
        invariant failed && nextPromise == old(nextPromise) && all == old(pending) && before == old(settled)
        decreases pending.Keys
      {
        var key :| key in pending;
        settled := settled[pending[key] := false];
        pending := pending - {key};
      }
    }
  }
}
