// The engagement tip scheduler (src/hooks/useEngagementPayment.ts): while one
// post is selected, one tip is sent at once and then one on every tick of an
// interval bound to that post's author. Time is integer milliseconds; a tick
// is the interval callback running at its due time.
module EngagementPayment {
  import opened Types
  import opened Constants
  import opened Payments

  /** The effect's dependency list: provider present, sender address, selected post, session active. */
  datatype Deps = Deps(providerReady: bool, fromAddress: string, cast: Option<FarcasterCast>, enabled: bool)

  /** Every guard of the effect passes. */
  predicate Active(d: Deps) {
    d.enabled && d.cast.Some? && d.providerReady && d.fromAddress != ""
  }

  /** One `sendSinglePayment` call; its failures are caught and do not affect scheduling. */
  datatype Payment = Payment(from: string, to: string, amount: UsdcAmount, at: int)

  /** The live interval: the sender and recipient its callback pays, and when it next runs. */
  datatype Interval = Interval(from: string, to: string, nextDue: int)

  /** The tip sent to the selected post's author at time t. */
  function TipFor(d: Deps, t: int): (p: Payment)
    requires d.cast.Some?
    ensures p.from == d.fromAddress && p.to == GetPaymentAddress(d.cast.value.author)
    ensures p.amount == ENGAGEMENT_TIP_AMOUNT && p.at == t
  {
    Payment(d.fromAddress, GetPaymentAddress(d.cast.value.author), ENGAGEMENT_TIP_AMOUNT, t)
  }

  class EngagementScheduler {
    var now: int
    /** The dependencies the effect last ran with. */
    var deps: Deps
    /** `intervalRef.current`: at most one live interval, by construction. */
    var interval: Option<Interval>
    /** Every payment started, in order. */
    var sent: seq<Payment>

    ghost predicate Valid()
      reads this
    {
      interval.Some? ==>
        && Active(deps)
        && interval.value.from == deps.fromAddress
        && interval.value.to == GetPaymentAddress(deps.cast.value.author)
        && now <= interval.value.nextDue <= now + ENGAGEMENT_TIP_INTERVAL_MS
    }

    /** Mounting runs the effect once with the initial dependencies. */
    constructor (t: int, d: Deps)
      ensures Valid() && now == t && deps == d
      ensures Active(d) ==>
        interval == Some(Interval(d.fromAddress, GetPaymentAddress(d.cast.value.author), t + ENGAGEMENT_TIP_INTERVAL_MS))
        && sent == [TipFor(d, t)]
      ensures !Active(d) ==> interval == None && sent == []
    {
      now, deps, interval, sent := t, d, None, [];
      new;
      RunEffect();
    }

    /** The effect body, run after the previous cleanup: with every guard passing, one immediate
        tip and a fresh interval for the same recipient; otherwise no interval and no tip. */
    method RunEffect()
      requires interval == None
      modifies this`interval, this`sent
      ensures Valid()
      ensures Active(deps) ==>
        interval == Some(Interval(deps.fromAddress, GetPaymentAddress(deps.cast.value.author), now + ENGAGEMENT_TIP_INTERVAL_MS))
        && sent == old(sent) + [TipFor(deps, now)]
      ensures !Active(deps) ==> interval == None && sent == old(sent)
    {
      if !Active(deps) {
        interval := None;
        return;
      }
      var paymentAddress := GetPaymentAddress(deps.cast.value.author);
      sent := sent + [Payment(deps.fromAddress, paymentAddress, ENGAGEMENT_TIP_AMOUNT, now)];
      interval := Some(Interval(deps.fromAddress, paymentAddress, now + ENGAGEMENT_TIP_INTERVAL_MS));
    }

    /** A re-render at time t with dependencies d. Unchanged dependencies leave the effect alone;
        changed ones clear the live interval and run the effect again. */
    method Update(t: int, d: Deps)
      requires Valid()
      requires now <= t
      requires interval.Some? ==> t <= interval.value.nextDue
      modifies this
      ensures Valid() && now == t && deps == d
      ensures d == old(deps) ==> interval == old(interval) && sent == old(sent)
      ensures d != old(deps) && Active(d) ==>
        interval == Some(Interval(d.fromAddress, GetPaymentAddress(d.cast.value.author), t + ENGAGEMENT_TIP_INTERVAL_MS))
        && sent == old(sent) + [TipFor(d, t)]
      ensures d != old(deps) && !Active(d) ==> interval == None && sent == old(sent)
    {
      now := t;
      if d == deps {
        return;
      }
      interval := None;
      deps := d;
      RunEffect();
    }

    /** The live interval's callback runs at its due time: one tip to the same recipient. */
    method Tick()
      requires Valid()
      requires interval.Some?
      modifies this`now, this`interval, this`sent
      ensures Valid() && deps == old(deps)
      ensures now == old(interval.value.nextDue)
      ensures interval == Some(old(interval.value).(nextDue := now + ENGAGEMENT_TIP_INTERVAL_MS))
      ensures sent == old(sent) + [Payment(interval.value.from, interval.value.to, ENGAGEMENT_TIP_AMOUNT, now)]
    {
      var iv := interval.value;
      now := iv.nextDue;
      sent := sent + [Payment(iv.from, iv.to, ENGAGEMENT_TIP_AMOUNT, now)];
      interval := Some(iv.(nextDue := now + ENGAGEMENT_TIP_INTERVAL_MS));
    }

    /** Unmount: the cleanup clears the live interval. */
    method Unmount()
      requires Valid()
      modifies this`interval
      ensures Valid() && interval == None
    {
      interval := None;
    }
  }

  /** Selecting a post at time t and leaving the selection alone for k intervals sends exactly
      k + 1 tips, to that post's author, at t, t + 4000, ..., t + 4000k. */
  method Engage(s: EngagementScheduler, t: int, d: Deps, k: nat)
    requires s.Valid() && s.now <= t
    requires s.interval.Some? ==> t <= s.interval.value.nextDue
    requires Active(d) && d != s.deps
    modifies s
    ensures s.Valid() && s.deps == d
    ensures |s.sent| == |old(s.sent)| + k + 1
    ensures s.sent[..|old(s.sent)|] == old(s.sent)
    ensures forall j :: 0 <= j <= k ==>
      s.sent[|old(s.sent)| + j] == TipFor(d, t + j * ENGAGEMENT_TIP_INTERVAL_MS)
  {
    s.Update(t, d);
    var n := 0;
    while n < k
      invariant 0 <= n <= k
      invariant s.Valid() && s.deps == d
      invariant s.interval == Some(Interval(d.fromAddress, GetPaymentAddress(d.cast.value.author),
                                            t + (n + 1) * ENGAGEMENT_TIP_INTERVAL_MS))
      invariant |s.sent| == |old(s.sent)| + n + 1
      invariant s.sent[..|old(s.sent)|] == old(s.sent)
      invariant forall j :: 0 <= j <= n ==>
        s.sent[|old(s.sent)| + j] == TipFor(d, t + j * ENGAGEMENT_TIP_INTERVAL_MS)
    {
      s.Tick();
      n := n + 1;
    }
  }

  /** Switching from post A to post B before A's first tick: A gets only its immediate tip,
      B gets its own, and the live interval now pays B. */
  method SwitchSelection(s: EngagementScheduler, t1: int, a: Deps, t2: int, b: Deps)
    requires s.Valid() && s.now <= t1 <= t2 < t1 + ENGAGEMENT_TIP_INTERVAL_MS
    requires s.interval.Some? ==> t1 <= s.interval.value.nextDue
    requires Active(a) && Active(b) && a != s.deps && b != a
    modifies s
    ensures s.sent == old(s.sent) + [TipFor(a, t1), TipFor(b, t2)]
    ensures s.interval.Some? && s.interval.value.to == GetPaymentAddress(b.cast.value.author)
  {
    s.Update(t1, a);
    s.Update(t2, b);
  }
}
