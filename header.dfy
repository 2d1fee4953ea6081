// The header (src/components/Header.tsx): the pending-tip badge, the
// shortened sub-account address and the connect button.
module Header {
  import opened Types
  import opened Text

  function Min(a: int, b: int): int {
    if a <= b then a else b
  }

  /** String.prototype.slice's treatment of an index: a negative one counts from the end,
      and the result is clamped to [0, len]. */
  function SliceIndex(i: int, len: nat): (j: nat)
    ensures j <= len
    ensures 0 <= i ==> j == Min(i, len)
    ensures i < 0 && len + i >= 0 ==> j == len + i
    ensures len + i < 0 ==> j == 0
  {
    if i < 0 then (if len + i < 0 then 0 else len + i) else Min(i, len)
  }

  /** String.prototype.slice(start, end). */
  function Slice(s: string, start: int, end: int): (r: string)
    ensures |r| <= |s|
  {
    var from, to := SliceIndex(start, |s|), SliceIndex(end, |s|);
    if from < to then s[from..to] else ""
  }

  /** `s.slice(0, 6) + "..." + s.slice(-4)`: the first six and the last four characters (the whole
      string where it is shorter), joined by an ellipsis. */
  function ShortAddress(s: string): (r: string)
    ensures |r| == Min(6, |s|) + 3 + Min(4, |s|)
    ensures r[..Min(6, |s|)] == s[..Min(6, |s|)]
    ensures r[Min(6, |s|)..Min(6, |s|) + 3] == "..."
    ensures r[|r| - Min(4, |s|)..] == s[|s| - Min(4, |s|)..]
  {
    var head, tail := Slice(s, 0, 6), Slice(s, -4, |s|);
    assert head == s[..Min(6, |s|)];
    assert tail == s[|s| - Min(4, |s|)..];
    var r := head + "..." + tail;
    assert r[..|head|] == head;
    assert r[|head|..|head| + 3] == "...";
    assert r[|r| - |tail|..] == tail;
    r
  }

  /** For an address of at least ten characters, the shown head and tail are disjoint pieces
      of it: the address is the head, a hidden middle, and the tail. */
  lemma ShortAddressSplitsAddress(s: string)
    requires |s| >= 10
    ensures var r := ShortAddress(s);
      s == r[..6] + s[6..|s| - 4] + r[|r| - 4..]
  {
    var r := ShortAddress(s);
    assert r[..6] == s[..6];
    assert r[|r| - 4..] == s[|s| - 4..];
    assert s == s[..6] + s[6..|s| - 4] + s[|s| - 4..];
  }

  /** The badge `{n} pending tip{n > 1 ? 's' : ''}`, shown only for a positive count. */
  function PendingBadge(n: int): (badge: Option<string>)
    ensures badge.Some? <==> n > 0
    ensures n > 0 ==>
      var digits := NatToString(n);
      && |digits| <= |badge.value|
      && badge.value[..|digits|] == digits
      && (badge.value[|digits|..] == " pending tips" <==> n > 1)
      && (badge.value[|digits|..] == " pending tip" <==> n == 1)
  {
    if n > 0 then
      var digits := NatToString(n);
      var shown := digits + " pending tip" + (if n > 1 then "s" else "");
      assert shown[..|digits|] == digits;
      assert shown[|digits|..] == " pending tip" + (if n > 1 then "s" else "");
      Some(shown)
    else None
  }

  /** The count the badge shows reads back as n. */
  lemma PendingBadgeShowsCount(n: int)
    requires n > 0
    ensures var digits := NatToString(n);
      AllDigits(PendingBadge(n).value[..|digits|])
      && ParseNat(PendingBadge(n).value[..|digits|]) == n
  {
    ParseNatToString(n);
  }

  /** The account corner: the shortened sub-account when connected, else the connect button. */
  datatype AccountControl = AccountBox(shortAddress: string) | ConnectButton(disabled: bool, caption: string)

  function RenderAccount(connected: bool, subAccountAddress: string, loading: bool): (c: AccountControl)
    ensures c.AccountBox? <==> connected
    ensures c.AccountBox? ==> c.shortAddress == ShortAddress(subAccountAddress)
    ensures c.ConnectButton? ==> (c.disabled <==> loading)
    ensures c.ConnectButton? ==> (c.caption == "Connecting..." <==> loading)
    ensures c.ConnectButton? && !loading ==> c.caption == "Connect Wallet"
  {
    if connected then AccountBox(ShortAddress(subAccountAddress))
    else ConnectButton(loading, if loading then "Connecting..." else "Connect Wallet")
  }
}
