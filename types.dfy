// The records of the feed (src/types.ts) and the token amounts the payment
// code passes around.
module Types {

  /** A value that may be absent (an optional field, a nullable reference). */
  datatype Option<+T> = None | Some(value: T)

  /** JavaScript truthiness of an optional string: present and non-empty. */
  predicate Truthy(s: Option<string>) {
    s.Some? && s.value != ""
  }

  /** A feed author (FarcasterUser). */
  datatype FarcasterUser = FarcasterUser(
    fid: int,
    custodyAddress: string,
    username: string,
    displayName: string,
    pfpUrl: Option<string>,
    verifications: seq<string>)

  datatype Embed = Embed(url: Option<string>)

  datatype Reactions = Reactions(likesCount: int, recastsCount: int)

  datatype Replies = Replies(count: int)

  /** A post of the feed (FarcasterCast), identified by its hash. */
  datatype FarcasterCast = FarcasterCast(
    hash: string,
    text: string,
    author: FarcasterUser,
    timestamp: string,
    embeds: Option<seq<Embed>>,
    reactions: Option<Reactions>,
    replies: Option<Replies>)

  /** A decimal number mantissa / 10^scale, as written in an amount string
      such as "0.0001" (mantissa 1, scale 4). */
  datatype Decimal = Decimal(mantissa: nat, scale: nat)

  /** The token has six decimals; amounts with more fractional digits are not modelled. */
  const USDC_DECIMALS: nat := 6

  type UsdcAmount = d: Decimal | d.scale <= USDC_DECIMALS witness Decimal(0, 0)

  function Pow10(n: nat): (r: nat)
    ensures r >= 1
  {
    if n == 0 then 1 else 10 * Pow10(n - 1)
  }

  lemma {:induction false} Pow10Add(a: nat, b: nat)
    ensures Pow10(a + b) == Pow10(a) * Pow10(b)
  {
    if a > 0 {
      Pow10Add(a - 1, b);
    }
  }
}
