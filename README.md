# AttentionRush tipping engine, modelled in Dafny

AttentionRush is a browser feed of Farcaster posts ("casts") that pays their authors in USDC
on Base Sepolia. Two triggers pay: a post that becomes fully visible earns a one-time
*viewport tip*, batched with other such tips, and a post that is selected earns an
*engagement tip* at once and then every 4000 ms while it stays selected. This project models
the tipping engine and the small pure pieces of the components around it:

- `Payments` (`payments.dfy`): the address resolver, the ERC-20 `transfer` call on the USDC
  token (the `transfer` method of EIP-20), the `wallet_sendCalls` request (EIP-5792) and the
  retry rule shared by single and batched sends. The retry loop runs over an oracle sequence
  of attempt outcomes.
- `ViewportPayments` (`viewport_payments.dfy`): the batch coordinator as a class holding the
  paid set, the pending list, the one armed timeout with its snapshot, the in-flight batches
  and a log of every batch submitted. Events: `QueuePayment`, `TimerFire`, `FlushDone`.
- `EngagementPayment` (`engagement_payment.dfy`): the engagement scheduler as a class with
  at most one live interval. Time is integer milliseconds; `Tick` is the interval callback.
- `CastCard`, `Feed`, `Header`: the relative-time label, the one-shot visibility trigger,
  the card values, the feed's view cascade and selection protocol, the shortened address,
  the pending-tip badge and the connect button.
- `Types`, `Constants`, `Text`: the records of `src/types.ts`, the constants of
  `src/constants.ts`, decimal rendering of counts and substring search.

Amounts are decimals `mantissa / 10^scale` with at most six fractional digits; the tip
`'0.0001'` is `Decimal(1, 4)`, which is 100 base units of the six-decimal token.

Where a tidier design and the code differ, the model follows the code:

- A batch whose send returns `null` (a nonce conflict was skipped) still marks every hash of
  the batch paid and clears the pending list (`FlushDone`).
- A batch whose send throws leaves both the paid set and the pending list unchanged. For a
  batch the timeout flushed, its entries therefore stay pending
  (`ThrownTimeoutBatchStaysPending`). A capacity flush has already emptied the pending list,
  so a thrown capacity batch loses its entries: they are neither pending nor paid
  (`ThrownCapacityBatchIsLost`).
- A batch whose send returns clears the whole pending list, including entries queued after it
  started.
- The capacity flush does not cancel an armed timeout. `CapacityFlushThenTimeout` proves that
  ten new posts followed by the timeout submit two batches, the second repeating the first
  nine recipients.
- Queuing checks only the paid set, so the same post can be pending twice.
- The visibility callback does not check `hasTriggered` itself: two fully visible reports
  before the effect re-runs signal twice.
- The batch timeout is 2500 ms, the value in `src/constants.ts:16`; the comment there says
  five seconds.
- The resolver has no error case: with no verified address it returns the custody address,
  whatever it is.

## Model

| member | source | states |
|---|---|---|
| Payments.GetPaymentAddress | src/utils/payments.ts:163-170 | the first verified address when there is one, else the custody address; the result is always one of the author's addresses |
| Payments.ParseUnits | src/utils/payments.ts:16 | the base units times 10^scale equal the mantissa times 10^decimals, so the units are the amount scaled by 10^6 |
| Payments.CreatePaymentCall | src/utils/payments.ts:7-19 | the call targets the USDC contract with value `0x0` and transfers the amount scaled by 10^6 to the given recipient |
| Payments.TipIsHundredUnits | src/constants.ts:10-12 | a viewport or engagement tip of 0.0001 USDC is 100 base units |
| Payments.BuildCalls | src/utils/payments.ts:106-108 | exactly one transfer call per recipient, in recipient order, each to that recipient's address |
| Payments.BuildParams | src/utils/payments.ts:41-55 | version `1.0`, the chain id and the sender are always set; the paymaster capability is present iff the URL is truthy, and then carries that URL |
| Payments.ErrorMessage | src/utils/payments.ts:70 | an error without a message reads as the empty string |
| Payments.IsConflict | src/utils/payments.ts:73 | an error without a message is never a conflict |
| Text.IncludesIffOccurs | src/utils/payments.ts:73 | the substring test holds iff the pattern occurs at some offset of the message |
| Payments.SubmitWithRetry | src/utils/payments.ts:57-87 | one to three submissions of the same `wallet_sendCalls` request; all but the last attempt failed with a non-conflict error; success returns that result at once, a conflict returns null at once, a throw comes only after the third non-conflict failure and carries its error; a 500 ms pause separates consecutive submissions, none follows the last |
| Payments.RetryRuleAttempts | src/utils/payments.ts:59-85 | under the retry rule the number of attempts equals the reference count: attempts continue only past retryable failures, up to three |
| Payments.RetryRuleIsDeterministic | src/utils/payments.ts:59-87 | the attempt outcomes fix the result, the submissions and pauses, and the number of attempts |
| Payments.SendSinglePayment | src/utils/payments.ts:25-88 | exactly one call, the transfer to the recipient, inside the request parameters, submitted under the retry rule |
| Payments.SendBatchPayments | src/utils/payments.ts:93-157 | one call per recipient in order inside the request parameters, submitted as one request under the retry rule |
| ViewportPayments.EntryFor | src/hooks/useViewportPayments.ts:54-60 | a queued entry is the post's hash with its author's resolved payment address |
| ViewportPayments.Recipients | src/hooks/useViewportPayments.ts:28-31 | one recipient per entry, in order, with the entry's address and the viewport tip |
| ViewportPayments.Hashes | src/hooks/useViewportPayments.ts:39 | exactly the hashes of the batch's entries |
| ViewportPayments.ViewportCoordinator.constructor | src/hooks/useViewportPayments.ts:15-21 | empty paid set, empty pending list, no armed timeout |
| ViewportPayments.ViewportCoordinator.PendingCount | src/hooks/useViewportPayments.ts:63-66 | the count the header badge sees is always below BATCH_SIZE, because reaching it flushes the list |
| ViewportPayments.ViewportCoordinator.Reconfigure | src/hooks/useViewportPayments.ts:10-14 | new hook inputs replace the old; paid set and pending list are kept and the invariant still holds |
| ViewportPayments.ViewportCoordinator.ProcessBatch | src/hooks/useViewportPayments.ts:25-31 | nothing happens for an empty list or a missing provider or sender; otherwise one batch call starts with one recipient per entry, in order |
| ViewportPayments.ViewportCoordinator.QueuePayment | src/hooks/useViewportPayments.ts:51-79 | no-op when disabled or already paid (pending is not consulted); else exactly one entry is appended; at BATCH_SIZE the whole list is flushed and pending empties while the armed timeout stays; below it the timeout is replaced by one holding exactly the new list; pending stays below BATCH_SIZE and never holds a paid hash |
| ViewportPayments.ViewportCoordinator.TimerFire | src/hooks/useViewportPayments.ts:73-75 | the armed timeout disarms and flushes exactly the snapshot it holds |
| ViewportPayments.ViewportCoordinator.FlushDone | src/hooks/useViewportPayments.ts:33-47 | a returned send, null included, adds every flushed hash to the paid set and clears pending; a thrown one changes neither; the paid set only grows |
| ViewportPayments.ViewportCoordinator.Unmount | src/hooks/useViewportPayments.ts:82-88 | unmounting disarms the timeout |
| ViewportPayments.CapacityFlushThenTimeout | src/hooks/useViewportPayments.ts:63-77 | ten new posts and then the timeout submit two batches: all ten recipients, then again the first nine |
| ViewportPayments.ThrownCapacityBatchIsLost | src/hooks/useViewportPayments.ts:45-66 | when the capacity batch of ten posts throws, none of them is pending or paid afterwards |
| ViewportPayments.ThrownTimeoutBatchStaysPending | src/hooks/useViewportPayments.ts:45-77 | when a batch the timeout flushed throws, its entries are all still pending and none is paid |
| EngagementPayment.TipFor | src/hooks/useEngagementPayment.ts:25-34 | an engagement tip goes from the sender to the selected author's payment address, for the engagement amount |
| EngagementPayment.EngagementScheduler.constructor | src/hooks/useEngagementPayment.ts:15-45 | on mount, with every guard passing, one immediate tip and one interval for the same address; otherwise no tip and no interval |
| EngagementPayment.EngagementScheduler.RunEffect | src/hooks/useEngagementPayment.ts:16-45 | a failed guard leaves no interval and sends nothing; otherwise one immediate tip to the author's address and an interval due 4000 ms later for that address |
| EngagementPayment.EngagementScheduler.Update | src/hooks/useEngagementPayment.ts:15-54 | unchanged dependencies change nothing; changed ones clear the old interval before the effect runs again, so at most one interval is alive |
| EngagementPayment.EngagementScheduler.Tick | src/hooks/useEngagementPayment.ts:37-45 | each tick sends one tip to the interval's address and amount and re-arms 4000 ms later |
| EngagementPayment.EngagementScheduler.Unmount | src/hooks/useEngagementPayment.ts:47-53 | the cleanup leaves no live interval |
| EngagementPayment.Engage | src/hooks/useEngagementPayment.ts:28-45 | selecting a post at t and leaving it for k intervals sends exactly k+1 tips to that author at t, t+4000, ..., t+4000k |
| EngagementPayment.SwitchSelection | src/hooks/useEngagementPayment.ts:47-54 | switching from A to B before A's first tick gives A only its immediate tip, B its own, and the live interval pays B |
| CastCard.FormatTimestamp | src/components/CastCard.tsx:39-48 | `Just now` iff under one hour (future timestamps included), an `h ago` label iff one hour to one day, a `d ago` label iff one day or more; exactly one form |
| CastCard.CountLabel | src/components/CastCard.tsx:46-47 | a count label is never `Just now` and ends with exactly its own unit |
| CastCard.FormatTimestampHours | src/components/CastCard.tsx:42-46 | between one hour and one day the label shows the floor of the elapsed hours, between 1 and 23 |
| CastCard.FormatTimestampDays | src/components/CastCard.tsx:42-47 | from one day on the label shows the floor of the elapsed days, at least 1 |
| CastCard.VisibilityTrigger.constructor | src/components/CastCard.tsx:13-34 | a mounted card starts untriggered with exactly one observer |
| CastCard.VisibilityTrigger.Observe | src/components/CastCard.tsx:20-27 | only a live observer's intersecting, fully visible entry triggers, and it signals with the card's own post |
| CastCard.VisibilityTrigger.RerunEffect | src/components/CastCard.tsx:16-37 | the old observer is disconnected; a new one exists iff the card is attached and not triggered, so a triggered card stops signalling |
| CastCard.VisibilityTrigger.Unmount | src/components/CastCard.tsx:36 | after unmounting every observer created has been disconnected |
| CastCard.RenderCard | src/components/CastCard.tsx:50-116 | absent counts show 0; the paid border and the tipped badge appear iff isPaid; the link is the first embed's truthy URL |
| Feed.RenderFeed | src/components/Feed.tsx:36-84 | loading shows the spinner whatever else holds; then a truthy error; then the empty view; otherwise one card per post in feed order with isPaid iff its hash is paid, and the modal iff a post is selected |
| Feed.FeedSelection.constructor | src/components/Feed.tsx:24 | nothing selected and nothing forwarded |
| Feed.FeedSelection.CastClick | src/components/Feed.tsx:26-29 | the clicked post becomes the selection and the same post is forwarded to the parent |
| Feed.FeedSelection.CloseModal | src/components/Feed.tsx:31-34 | the selection is cleared and null is forwarded; the parent was always last told the local selection |
| Header.ShortAddress | src/components/Header.tsx:48 | the first min(6,n) characters, `...`, and the last min(4,n) characters, of length min(6,n)+3+min(4,n) |
| Header.ShortAddressSplitsAddress | src/components/Header.tsx:48 | for ten characters or more the shown head and tail are disjoint pieces of the address |
| Header.PendingBadge | src/components/Header.tsx:37-41 | the badge is shown iff the count is positive; it starts with the count's digits and ends in `tips` iff the count exceeds one |
| Header.PendingBadgeShowsCount | src/components/Header.tsx:39 | the digits the badge starts with read back as the count |
| Header.RenderAccount | src/components/Header.tsx:43-68 | connected shows the shortened sub-account; otherwise the button is disabled iff loading and reads `Connecting...` iff loading |

## Left out

- Foreign library calls: `encodeFunctionData` is modelled as an abstract `Transfer(recipient, units)`, and `numberToHex(CHAIN_ID)` as the number itself.
- Payments.ParseUnits: amounts with more than six fractional digits are outside the amount type; the library rounds those.
- The wallet provider is an oracle of attempt outcomes; a send needs one outcome for each of the three possible attempts, and extra ones are ignored.
- The paymaster capability (ERC-7677) is modelled only by its presence and URL.
- Wallet connection (`src/hooks/useBaseAccount.ts`) is not part of this model; the coordinator and scheduler take a provider-present flag and a sender address instead.
- The feed fetch (`src/hooks/useFarcaster.ts`) is not part of this model; posts are a given sequence.
- `src/components/CastModal.tsx` is rendering only and not part of this model, nor is the wiring in `src/App.tsx`.
- ViewportPayments.ViewportCoordinator.TimerFire: the 2500 ms delay is not measured; the event stands for the timeout elapsing.
- Real timers, promises and the 500 ms waits become events and `Pause` steps; React's double invocation of state updaters, stale closures and effect ordering beyond "cleanup, then the new effect" are not modelled.
- EngagementPayment.EngagementScheduler.Update: dependencies are compared by value, where React compares object identity.
- The outcome of each engagement tip is not modelled; the source catches and logs it and scheduling does not depend on it.
- The intersection ratio is a float; it becomes a boolean "fully visible" report.
- Date parsing and the clock become an integer millisecond difference; `toLocaleString` is locale-dependent and left out.
- Console logging throughout.
