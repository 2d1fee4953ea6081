// The viewport batch coordinator (src/hooks/useViewportPayments.ts): a paid
// set, a pending list and one armed batch timeout holding the list it will
// flush. Asynchronous work becomes explicit events: `TimerFire` is the
// timeout elapsing and `FlushDone` is a `sendBatchPayments` call settling.
module ViewportPayments {
  import opened Types
  import opened Constants
  import opened Payments

  /** A viewport tip awaiting its batch: the post and the address its author is paid at. */
  datatype PendingPayment = PendingPayment(castHash: string, address: string)

  /** The entry that queuing `cast` appends. */
  function EntryFor(cast: FarcasterCast): (e: PendingPayment)
    ensures e.castHash == cast.hash
    ensures e.address == GetPaymentAddress(cast.author)
  {
    PendingPayment(cast.hash, GetPaymentAddress(cast.author))
  }

  /** The recipients `processBatch` passes on: one per entry, in order, each paid the viewport tip. */
  function Recipients(batch: seq<PendingPayment>): (rs: seq<Recipient>)
    ensures |rs| == |batch|
    ensures forall i :: 0 <= i < |rs| ==> rs[i].address == batch[i].address && rs[i].amount == VIEWPORT_TIP_AMOUNT
  {
    seq(|batch|, i requires 0 <= i < |batch| => Recipient(batch[i].address, VIEWPORT_TIP_AMOUNT))
  }

  /** The post hashes of a batch. */
  function Hashes(batch: seq<PendingPayment>): (hs: set<string>)
    ensures forall i :: 0 <= i < |batch| ==> batch[i].castHash in hs
    ensures forall h :: h in hs ==> exists i :: 0 <= i < |batch| && batch[i].castHash == h
  {
    set p | p in batch :: p.castHash
  }

  class ViewportCoordinator {
    /** The hook's inputs: session active, provider present, sub-account address. */
    var enabled: bool
    var providerReady: bool
    var fromAddress: string

    /** Posts already paid through the viewport path. */
    var paidCasts: set<string>
    /** Tips waiting for the next batch, in queuing order. */
    var pending: seq<PendingPayment>
    /** The armed batch timeout, holding the list it will flush; None when no timeout is armed. */
    var timer: Option<seq<PendingPayment>>
    /** Batches whose `sendBatchPayments` call has started and not yet settled. */
    var inFlight: seq<seq<PendingPayment>>
    /** Every `sendBatchPayments` call made, with its recipients, in order. */
    var submitted: seq<seq<Recipient>>

    ghost predicate Valid()
      reads this
    {
      && |pending| < BATCH_SIZE
      && (forall i :: 0 <= i < |pending| ==> pending[i].castHash !in paidCasts)
      && (timer.Some? ==> 0 < |timer.value| < BATCH_SIZE)
      && (forall k :: 0 <= k < |inFlight| ==> |inFlight[k]| > 0)
    }

    /** `processBatch` goes ahead only with a provider and a non-empty sender address. */
    predicate CanSend()
      reads this
    {
      providerReady && fromAddress != ""
    }

    /** The count shown in the header badge. */
    function PendingCount(): (n: nat)
      reads this
      requires Valid()
      ensures n < BATCH_SIZE
    {
      |pending|
    }

    constructor (enabled: bool, providerReady: bool, fromAddress: string)
      ensures Valid()
      ensures this.enabled == enabled && this.providerReady == providerReady && this.fromAddress == fromAddress
      ensures paidCasts == {} && pending == [] && timer == None && inFlight == [] && submitted == []
    {
      this.enabled := enabled;
      this.providerReady := providerReady;
      this.fromAddress := fromAddress;
      paidCasts := {};
      pending := [];
      timer := None;
      inFlight := [];
      submitted := [];
    }

    /** The hook re-rendered with new inputs; the collections are kept. */
    method Reconfigure(enabled: bool, providerReady: bool, fromAddress: string)
      requires Valid()
      modifies this`enabled, this`providerReady, this`fromAddress
      ensures Valid()
      ensures this.enabled == enabled && this.providerReady == providerReady && this.fromAddress == fromAddress
    {
      this.enabled := enabled;
      this.providerReady := providerReady;
      this.fromAddress := fromAddress;
    }

    /** processBatch, up to the point where the submission is under way: nothing happens for an
        empty list or a missing provider or sender; otherwise one batch call starts with one
        recipient per entry, in order. */
    method ProcessBatch(payments: seq<PendingPayment>)
      requires Valid()
      modifies this`inFlight, this`submitted
      ensures Valid()
      ensures |payments| == 0 || !CanSend() ==> inFlight == old(inFlight) && submitted == old(submitted)
      ensures |payments| > 0 && CanSend() ==>
        inFlight == old(inFlight) + [payments] && submitted == old(submitted) + [Recipients(payments)]
    {
      if |payments| == 0 || !CanSend() {
        return;
      }
      inFlight := inFlight + [payments];
      submitted := submitted + [Recipients(payments)];
    }

    /** queuePayment: a no-op when disabled or when the post is already paid (the pending list
        is not consulted). Otherwise one entry is appended; reaching BATCH_SIZE flushes the whole
        list at once and empties it, leaving any armed timeout in place; below it, the armed
        timeout is replaced by one holding the new list. */
    method QueuePayment(cast: FarcasterCast)
      requires Valid()
      modifies this`pending, this`timer, this`inFlight, this`submitted
      ensures Valid()
      ensures paidCasts == old(paidCasts)
      ensures !enabled || cast.hash in paidCasts ==>
        pending == old(pending) && timer == old(timer)
        && inFlight == old(inFlight) && submitted == old(submitted)
      ensures enabled && cast.hash !in paidCasts && |old(pending)| + 1 < BATCH_SIZE ==>
        pending == old(pending) + [EntryFor(cast)] && timer == Some(pending)
        && inFlight == old(inFlight) && submitted == old(submitted)
      ensures enabled && cast.hash !in paidCasts && |old(pending)| + 1 >= BATCH_SIZE ==>
        pending == [] && timer == old(timer)
        && inFlight == old(inFlight) + (if CanSend() then [old(pending) + [EntryFor(cast)]] else [])
        && submitted == old(submitted) + (if CanSend() then [Recipients(old(pending) + [EntryFor(cast)])] else [])
    {
      if !enabled || cast.hash in paidCasts {
        return;
      }
      var newPending := pending + [EntryFor(cast)];
      if |newPending| >= BATCH_SIZE {
        ProcessBatch(newPending);
        pending := [];
        return;
      }
      timer := Some(newPending);
      pending := newPending;
    }

    /** The armed timeout elapses and flushes the list it holds. */
    method TimerFire()
      requires Valid()
      modifies this`timer, this`inFlight, this`submitted
      ensures Valid()
      ensures timer == None
      ensures old(timer).None? || !CanSend() ==> inFlight == old(inFlight) && submitted == old(submitted)
      ensures old(timer).Some? && CanSend() ==>
        inFlight == old(inFlight) + [old(timer).value]
        && submitted == old(submitted) + [Recipients(old(timer).value)]
    {
      if timer.Some? {
        var snapshot := timer.value;
        timer := None;
        ProcessBatch(snapshot);
      }
    }

    /** The in-flight batch `k` settles. A returned call, a skipped (`null`) one included, marks
        every hash of the batch paid and clears the whole pending list; a thrown one changes
        neither. */
    method FlushDone(k: nat, outcome: SendOutcome)
      requires Valid()
      requires k < |inFlight|
      modifies this`inFlight, this`paidCasts, this`pending
      ensures Valid()
      ensures inFlight == old(inFlight[..k] + inFlight[k + 1..])
      ensures old(paidCasts) <= paidCasts
      ensures outcome.Threw? ==> paidCasts == old(paidCasts) && pending == old(pending)
      ensures !outcome.Threw? ==> paidCasts == old(paidCasts) + Hashes(old(inFlight[k])) && pending == []
    {
      var batch := inFlight[k];
      inFlight := inFlight[..k] + inFlight[k + 1..];
      if !outcome.Threw? {
        paidCasts := paidCasts + Hashes(batch);
        pending := [];
      }
    }

    /** Unmount: the armed timeout is cleared; in-flight calls still settle. */
    method Unmount()
      requires Valid()
      modifies this`timer
      ensures Valid()
      ensures timer == None
    {
      timer := None;
    }
  }

  /** The entries queuing `casts` one after another appends. */
  function EntriesFor(casts: seq<FarcasterCast>): (es: seq<PendingPayment>)
    ensures |es| == |casts|
    ensures forall i :: 0 <= i < |es| ==> es[i] == EntryFor(casts[i])
  {
    seq(|casts|, i requires 0 <= i < |casts| => EntryFor(casts[i]))
  }

  /** Queues posts into a fresh, enabled coordinator, staying below BATCH_SIZE: each one is
      appended and the armed timeout always holds the whole list. */
  method QueueBelowCapacity(c: ViewportCoordinator, casts: seq<FarcasterCast>)
    requires c.Valid() && c.enabled && c.CanSend()
    requires c.paidCasts == {} && c.pending == [] && c.timer == None
    requires c.inFlight == [] && c.submitted == []
    requires |casts| < BATCH_SIZE
    modifies c
    ensures c.Valid() && c.enabled && c.CanSend() && c.paidCasts == {}
    ensures c.pending == EntriesFor(casts)
    ensures |casts| > 0 ==> c.timer == Some(c.pending)
    ensures c.inFlight == [] && c.submitted == []
  {
    var i := 0;
    while i < |casts|
      invariant 0 <= i <= |casts|
      invariant c.Valid() && c.enabled && c.CanSend() && c.paidCasts == {}
      invariant c.pending == EntriesFor(casts[..i])
      invariant i > 0 ==> c.timer == Some(c.pending)
      invariant c.inFlight == [] && c.submitted == []
    {
      assert EntriesFor(casts[..i + 1]) == EntriesFor(casts[..i]) + [EntryFor(casts[i])];
      c.QueuePayment(casts[i]);
      i := i + 1;
    }
    assert casts[..|casts|] == casts;
  }

  /** A session that sees BATCH_SIZE new posts, then lets the armed timeout elapse, submits two
      batches: the full list, and again the first BATCH_SIZE - 1 entries, which the capacity
      flush left in the still-armed timeout. Those recipients are submitted twice. */
  method CapacityFlushThenTimeout(casts: seq<FarcasterCast>, fromAddress: string)
    returns (log: seq<seq<Recipient>>)
    requires |casts| == BATCH_SIZE
    requires fromAddress != ""
    ensures |log| == 2
    ensures log[0] == Recipients(EntriesFor(casts))
    ensures log[1] == Recipients(EntriesFor(casts[..BATCH_SIZE - 1]))
    ensures log[1] == log[0][..BATCH_SIZE - 1]
  {
    var c := new ViewportCoordinator(true, true, fromAddress);
    QueueBelowCapacity(c, casts[..BATCH_SIZE - 1]);
    assert EntriesFor(casts) == c.pending + [EntryFor(casts[BATCH_SIZE - 1])];
    c.QueuePayment(casts[BATCH_SIZE - 1]);
    c.TimerFire();
    log := c.submitted;
  }

  /** A thrown batch is lost when it was a capacity flush: the flush had already emptied the
      pending list, and the throw marks nothing paid, so none of the BATCH_SIZE posts is pending
      or paid afterwards. */
  method ThrownCapacityBatchIsLost(casts: seq<FarcasterCast>, fromAddress: string, error: ProviderError)
    returns (pending: seq<PendingPayment>, paidCasts: set<string>)
    requires |casts| == BATCH_SIZE
    requires fromAddress != ""
    ensures pending == [] && paidCasts == {}
  {
    var c := new ViewportCoordinator(true, true, fromAddress);
    QueueBelowCapacity(c, casts[..BATCH_SIZE - 1]);
    c.QueuePayment(casts[BATCH_SIZE - 1]);
    assert |c.inFlight| == 1;
    c.FlushDone(0, Threw(error));
    pending, paidCasts := c.pending, c.paidCasts;
  }

  /** A thrown batch that the timeout flushed leaves its entries pending: the list was never
      emptied, and the throw changes neither the list nor the paid set. */
  method ThrownTimeoutBatchStaysPending(casts: seq<FarcasterCast>, fromAddress: string, error: ProviderError)
    returns (pending: seq<PendingPayment>, paidCasts: set<string>)
    requires 0 < |casts| < BATCH_SIZE
    requires fromAddress != ""
    ensures pending == EntriesFor(casts) && paidCasts == {}
  {
    var c := new ViewportCoordinator(true, true, fromAddress);
    QueueBelowCapacity(c, casts);
    c.TimerFire();
    assert |c.inFlight| == 1;
    c.FlushDone(0, Threw(error));
    pending, paidCasts := c.pending, c.paidCasts;
  }
}
