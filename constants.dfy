// The fixed configuration of a session (src/constants.ts).
module Constants {
  import opened Types

  /** Base Sepolia, the target network. */
  const CHAIN_ID: nat := 84532

  /** The USDC token contract on Base Sepolia. */
  const USDC_ADDRESS: string := "0x036CbD53842c5426634e7929541eC2318f3dCF7e"

  /** '0.0001' USDC, the one-time tip for a fully visible post. */
  const VIEWPORT_TIP_AMOUNT: UsdcAmount := Decimal(1, 4)

  /** '0.0001' USDC, the tip paid on each engagement tick. */
  const ENGAGEMENT_TIP_AMOUNT: UsdcAmount := Decimal(1, 4)

  /** Number of viewport tips that forces an immediate batch. */
  const BATCH_SIZE: nat := 10

  /** Delay after the last enqueue before a partial batch is sent. */
  const BATCH_TIMEOUT_MS: nat := 2500

  /** Period of the recurring engagement tip. */
  const ENGAGEMENT_TIP_INTERVAL_MS: nat := 4000
}
