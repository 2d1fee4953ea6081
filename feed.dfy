// The feed view (src/components/Feed.tsx): which of the loading, error,
// empty and list views is shown, the cards of the list, and the selection
// protocol between a clicked card, the modal and the parent.
module Feed {
  import opened Types

  /** A card of the list: its post and whether that post is already paid. */
  datatype Card = Card(cast: FarcasterCast, isPaid: bool)

  /** The four views; the list view carries the modal's post when one is open. */
  datatype FeedView =
    | Spinner
    | ErrorPanel(message: string)
    | NoCasts
    | CastList(cards: seq<Card>, modal: Option<FarcasterCast>)

  /** The view cascade: loading wins over everything, then a (non-empty) error, then an empty
      feed; otherwise one card per post in feed order, with the modal open iff a post is
      selected. */
  function RenderFeed(casts: seq<FarcasterCast>, loading: bool, error: Option<string>,
                      paidCasts: set<string>, selected: Option<FarcasterCast>): (v: FeedView)
    ensures v.Spinner? <==> loading
    ensures v.ErrorPanel? <==> !loading && Truthy(error)
    ensures v.ErrorPanel? ==> v.message == error.value
    ensures v.NoCasts? <==> !loading && !Truthy(error) && casts == []
    ensures v.CastList? ==> |v.cards| == |casts|
    ensures v.CastList? ==> forall i :: 0 <= i < |casts| ==>
      v.cards[i].cast == casts[i] && (v.cards[i].isPaid <==> casts[i].hash in paidCasts)
    ensures v.CastList? ==> (v.modal.Some? <==> selected.Some?) && v.modal == selected
  {
    if loading then Spinner
    else if Truthy(error) then ErrorPanel(error.value)
    else if |casts| == 0 then NoCasts
    else CastList(seq(|casts|, i requires 0 <= i < |casts| => Card(casts[i], casts[i].hash in paidCasts)), selected)
  }

  /** The feed's local selection and the notifications it sends to the parent. */
  class FeedSelection {
    var selected: Option<FarcasterCast>
    /** The values passed to `onCastClick`, in order. */
    var forwarded: seq<Option<FarcasterCast>>

    /** The parent was last told exactly the local selection. */
    ghost predicate Valid()
      reads this
    {
      if forwarded == [] then selected == None else selected == forwarded[|forwarded| - 1]
    }

    constructor ()
      ensures Valid() && selected == None && forwarded == []
    {
      selected := None;
      forwarded := [];
    }

    /** A card was clicked: it becomes the selection and is forwarded to the parent. */
    method CastClick(cast: FarcasterCast)
      requires Valid()
      modifies this
      ensures Valid()
      ensures selected == Some(cast) && forwarded == old(forwarded) + [Some(cast)]
    {
      selected := Some(cast);
      forwarded := forwarded + [Some(cast)];
    }

    /** The modal was closed: the selection is cleared and null is forwarded to the parent. */
    method CloseModal()
      requires Valid()
      modifies this
      ensures Valid()
      ensures selected == None && forwarded == old(forwarded) + [None]
    {
      selected := None;
      forwarded := forwarded + [None];
    }
  }
}
