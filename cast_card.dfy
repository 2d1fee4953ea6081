// One post of the feed (src/components/CastCard.tsx): its relative-time
// label, the one-shot "fully visible" trigger built on an intersection
// observer, and the values the card displays.
module CastCard {
  import opened Types
  import opened Text

  const HOUR_MS: nat := 1000 * 60 * 60
  const DAY_MS: nat := 24 * HOUR_MS

  /** The label for a post written `diff` milliseconds ago (negative for a future timestamp).
      `Math.floor(diff / 3600000)` is Dafny's division here: with a positive divisor it rounds
      toward negative infinity as well. Exactly one of the three forms is produced. */
  function FormatTimestamp(diff: int): (shown: string)
    ensures shown == "Just now" <==> diff < HOUR_MS
    ensures EndsWith(shown, "h ago") <==> HOUR_MS <= diff < DAY_MS
    ensures EndsWith(shown, "d ago") <==> DAY_MS <= diff
  {
    var hours := diff / HOUR_MS;
    if hours < 1 then "Just now"
    else if hours < 24 then CountLabel(hours, "h ago")
    else CountLabel(hours / 24, "d ago")
  }

  /** A count followed by a unit suffix; never "Just now", and it ends with no other suffix. */
  function CountLabel(n: nat, suffix: string): (shown: string)
    requires suffix == "h ago" || suffix == "d ago"
    ensures shown == NatToString(n) + suffix
    ensures shown != "Just now"
    ensures EndsWith(shown, "h ago") <==> suffix == "h ago"
    ensures EndsWith(shown, "d ago") <==> suffix == "d ago"
  {
    var shown := NatToString(n) + suffix;
    assert shown[|shown| - 5..] == suffix;
    assert shown[|shown| - 5] == suffix[0];
    shown
  }

  /** The number in an "Nh ago" or "Nd ago" label. */
  function ShownCount(shown: string): nat
    requires EndsWith(shown, "h ago") || EndsWith(shown, "d ago")
    requires AllDigits(shown[..|shown| - 5])
  {
    ParseNat(shown[..|shown| - 5])
  }

  lemma {:induction false} ReadBackCount(n: nat, suffix: string)
    requires |suffix| == 5
    ensures var shown := NatToString(n) + suffix;
      EndsWith(shown, suffix) && shown[..|shown| - 5] == NatToString(n) && ParseNat(shown[..|shown| - 5]) == n
  {
    var shown := NatToString(n) + suffix;
    assert shown[..|shown| - 5] == NatToString(n);
    assert shown[|shown| - 5..] == suffix;
    ParseNatToString(n);
  }

  /** Between one hour and one day, the label shows the whole hours elapsed, 1 to 23. */
  lemma FormatTimestampHours(diff: int)
    requires HOUR_MS <= diff < DAY_MS
    ensures var shown := FormatTimestamp(diff);
      EndsWith(shown, "h ago") && AllDigits(shown[..|shown| - 5])
      && var h := ShownCount(shown);
         1 <= h < 24 && h * HOUR_MS <= diff < (h + 1) * HOUR_MS
  {
    var h := diff / HOUR_MS;
    assert FormatTimestamp(diff) == NatToString(h) + "h ago";
    ReadBackCount(h, "h ago");
    DivBounds(diff, HOUR_MS);
  }

  lemma DivBounds(x: int, h: int)
    requires h > 0
    ensures x / h * h <= x < (x / h + 1) * h
  {
  }

  /** From one day on, the label shows the whole days elapsed, at least 1. */
  lemma FormatTimestampDays(diff: int)
    requires DAY_MS <= diff
    ensures var shown := FormatTimestamp(diff);
      EndsWith(shown, "d ago") && AllDigits(shown[..|shown| - 5])
      && var d := ShownCount(shown);
         1 <= d && d * DAY_MS <= diff < (d + 1) * DAY_MS
  {
    var d := diff / HOUR_MS / 24;
    assert FormatTimestamp(diff) == NatToString(d) + "d ago";
    ReadBackCount(d, "d ago");
    NestedDivBounds(diff, HOUR_MS, 24);
  }

  /** Flooring by h and then by k is flooring by k * h. */
  lemma NestedDivBounds(x: int, h: int, k: int)
    requires h > 0 && k > 0
    ensures x / h / k * (k * h) <= x < (x / h / k + 1) * (k * h)
  {
    var q, r := x / h, x % h;
    var d, s := q / k, q % k;
    assert x == q * h + r && 0 <= r < h;
    assert q == d * k + s && 0 <= s < k;
    assert q * h == d * (k * h) + s * h;
    MulMonotone(s, k - 1, h);
    assert s * h + r < k * h;
  }

  lemma MulMonotone(a: int, b: int, c: nat)
    requires a <= b
    ensures a * c <= b * c
  {
  }

  /** The one-shot visibility trigger of a mounted card and the observers it creates. */
  class VisibilityTrigger {
    const cast: FarcasterCast
    /** `cardRef.current` is attached. */
    var mounted: bool
    var hasTriggered: bool
    /** An IntersectionObserver is live. */
    var observing: bool
    var created: nat
    var disconnected: nat
    /** The `onFullyVisible` calls made, in order. */
    var signalled: seq<FarcasterCast>

    ghost predicate Valid()
      reads this
    {
      && created == disconnected + (if observing then 1 else 0)
      && (observing ==> mounted)
      && (forall i :: 0 <= i < |signalled| ==> signalled[i] == cast)
      && (hasTriggered <==> |signalled| > 0)
    }

    /** Mounting attaches the card and runs the effect: one observer watches it. */
    constructor (cast: FarcasterCast)
      ensures Valid() && this.cast == cast
      ensures mounted && !hasTriggered && observing && created == 1 && signalled == []
    {
      this.cast := cast;
      mounted, hasTriggered, observing := true, false, true;
      created, disconnected := 1, 0;
      signalled := [];
    }

    /** The live observer reports one entry. Only an intersecting, fully visible entry triggers,
        and it signals with the card's own post; a disconnected observer reports nothing. */
    method Observe(isIntersecting: bool, fullyVisible: bool)
      requires Valid()
      modifies this`hasTriggered, this`signalled
      ensures Valid()
      ensures observing && isIntersecting && fullyVisible ==>
        hasTriggered && signalled == old(signalled) + [cast]
      ensures !(observing && isIntersecting && fullyVisible) ==>
        hasTriggered == old(hasTriggered) && signalled == old(signalled)
    {
      if observing && isIntersecting && fullyVisible {
        hasTriggered := true;
        signalled := signalled + [cast];
      }
    }

    /** A dependency changed (the trigger flag, the post or the callback): the previous
        observer is disconnected, and a new one is created only while attached and not yet
        triggered. */
    method RerunEffect()
      requires Valid()
      modifies this`observing, this`created, this`disconnected
      ensures Valid()
      ensures observing <==> mounted && !hasTriggered
      ensures created == old(created) + (if mounted && !hasTriggered then 1 else 0)
      ensures disconnected == old(disconnected) + (if old(observing) then 1 else 0)
    {
      if observing {
        disconnected := disconnected + 1;
        observing := false;
      }
      if mounted && !hasTriggered {
        created := created + 1;
        observing := true;
      }
    }

    /** Unmounting runs the cleanup: every observer ever created is now disconnected. */
    method Unmount()
      requires Valid()
      modifies this`mounted, this`observing, this`disconnected
      ensures Valid()
      ensures !mounted && !observing && disconnected == created
    {
      if observing {
        disconnected := disconnected + 1;
        observing := false;
      }
      mounted := false;
    }
  }

  /** What a card displays besides the author and the text. */
  datatype CardView = CardView(
    avatarUrl: string,
    timeLabel: string,
    embedLink: Option<string>,
    likes: int,
    recasts: int,
    replies: int,
    paidBorder: bool,
    tippedBadge: bool)

  const PLACEHOLDER_AVATAR: string := "https://via.placeholder.com/48"

  /** The card of `cast`, written `ageMs` milliseconds ago. Absent counts show 0; the link is the
      first embed's URL when there is one; the paid border and the tipped badge follow isPaid. */
  function RenderCard(cast: FarcasterCast, isPaid: bool, ageMs: int): (v: CardView)
    ensures v.paidBorder == isPaid && v.tippedBadge == isPaid
    ensures v.timeLabel == FormatTimestamp(ageMs)
    ensures v.likes == (if cast.reactions.Some? then cast.reactions.value.likesCount else 0)
    ensures v.recasts == (if cast.reactions.Some? then cast.reactions.value.recastsCount else 0)
    ensures v.replies == (if cast.replies.Some? then cast.replies.value.count else 0)
    ensures v.avatarUrl == (if Truthy(cast.author.pfpUrl) then cast.author.pfpUrl.value else PLACEHOLDER_AVATAR)
    ensures v.embedLink.Some? <==>
      cast.embeds.Some? && |cast.embeds.value| > 0 && Truthy(cast.embeds.value[0].url)
    ensures v.embedLink.Some? ==> v.embedLink.value == cast.embeds.value[0].url.value
  {
    var embedLink :=
      if cast.embeds.Some? && |cast.embeds.value| > 0 && Truthy(cast.embeds.value[0].url)
      then Some(cast.embeds.value[0].url.value) else None;
    CardView(
      if Truthy(cast.author.pfpUrl) then cast.author.pfpUrl.value else PLACEHOLDER_AVATAR,
      FormatTimestamp(ageMs),
      embedLink,
      match cast.reactions case Some(r) => r.likesCount case None => 0,
      match cast.reactions case Some(r) => r.recastsCount case None => 0,
      match cast.replies case Some(r) => r.count case None => 0,
      isPaid,
      isPaid)
  }
}
