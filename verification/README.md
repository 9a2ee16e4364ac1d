# Dyson Protocol scripts, modelled and verified

This project models five parts of the Dyson Protocol repository in Dafny and proves what they promise. Everything is
stated on unbounded inputs and over runs of any length.

| part | modules |
|---|---|
| Protobuf wire codec of `EventSend` | `Wire`, `WireProofs`, `EventSendCodec` (EventSend.dfy) |
| DEX: constant-product pools and paths | `ConstantProduct`, `Dex` |
| DEX: order book in exact lots | `Lots`, `Keys`, `OfferIndex`, `DexSettlement`, `OfferBookModule` (OfferBook.dfy) |
| Order book of solid and liquid coins | `LiquidBook`, `Dicts`, `BatchSums`, `Backing`, `LiquidScript`, `DenomCodec` |
| L1/L2 message queues | `Queues`, `QueueObjects` |
| TEWL commit-reveal oracle | `KeyOrder`, `Tewl`, `TewlQueue`, `TewlScoring`, `TewlEscrow`, `TewlBonds`, `TewlSlashing`, `TewlProgress`, `TewlExamples`, `TewlScript` |
| shared | `Options`, `Totals` (sums over maps), `Bank` |

Where the source updates state in place, a class with the same fields and loops is proved against functions on values
(`LiquidScript` against `LiquidBook`, `TewlScript` against `Tewl`, `QueueObjects` against `Queues`, `EventSendCodec` against
`Wire`); the properties are proved about those functions, over `Run`s of transactions that others may interleave.

`dafny verify dfyconfig.toml` checks the whole project.

## What is assumed

- The bank is a ledger of balances; a supply is the sum of its balances. A send needs a positive amount and a sufficient
  balance. A call that fails changes nothing. Listing a storage prefix returns its keys in order.
- Attached coins reach the script before the call runs. Coin-carrying calls do not come from the script itself, and nobody
  else sends the script's coins or mints its liquid coins (`Backing.WellFormed`, `TewlEscrow.Allowed`).
- `Decimal` amounts are integers without a precision limit, and the two `float` expressions of the oracle
  (tewl/script.py:924 and tewl/script.py:1139) are floor divisions of integers; scores are integers.
- The commitment hash, the schema check, the scorer, the reading of its final state, and the layers' message handlers are
  pure functions passed in as parameters; the scorer and the reading may raise. The gas budget of a `finalize` call is the
  number of reveals it lets the call score. The callback of a resolved request does not touch the modelled state.
- The bank of the oracle may refuse addresses: a parameter says which ones it sends to. A refused share reverts the whole call, so
  the model looks at the payees before it pays any. Refunds and the sends of the other parts are never refused in this way.
- The blocks submitted to L1 come from one chain of L2 blocks; each block may read any earlier state of L1. The responses told to
  `process_l2_responses` are anything.
- The base-64 decoder is that of Python's `binascii` in its lenient mode.

## Where the code and its documentation differ

The model follows the code.

- `exit_pool` says the shares are sent to the script (demo-dex/script.py:924); the code sends them from the script to the
  caller (demo-dex/script.py:948-952). `Dex.ShareLegDirections`, `Dex.PoolCannotBeLeft` and `Dex.Script.ExitPool` say
  what follows; in `Dex.ExitTakesAnotherReserve` an exit gives away and burns what another pool holds as its reserve.
- whaleswap/README.md:29 says script balances back liquid supply exactly; a cancelled normal offer leaves its escrow with the
  script (whaleswap/orderbook.py:978-985), so backing is "at least" (`Backing.CancelSurplus`), and a cancel keeps it
  exact if and only if the offer is a liquid one (`Backing.CancelKeepsBacking`).
- whaleswap/README.md:115 says liquid payments are attached; the code moves them from the taker
  (whaleswap/orderbook.py:811-857), and attached liquid coins pay for nothing (`Backing.LiquidPaysNothing`).
- The storage key of a request pads its id to six digits (tewl/script.py:339), so ties in the queue follow the storage order of
  the ids, which `TewlQueue.KeyOrderIsIdOrder` gives for any two ids. `TewlQueue.LaterIdServedFirst` is a state in which the
  later of two equal requests is served first, and `TewlQueue.ActivationById` says exactly when the smallest id is.
- `set_min_bond` leaves provider statuses as they are. `TewlBonds.NewMinimum` says exactly when they are then wrong, and
  `TewlBonds.RaisedMinimumLeavesBonded` is a run in which they are.
- The balance checks of a DEX batch look at what an account sends as taker and as maker separately, so a taker who is also a
  maker can pass them and fail the move (`DexSettlement.CheckedMoveFails`). `DexSettlement.ChecksLeaveTaker` says exactly when
  a batch that passed the checks still fails, and `OfferBookModule.OfferBook.MoveCoins` when checks and move succeed.
- `process_l2_responses` takes its responses from its caller and does not check them (demo-tew/queue_chain.py:841-888).
  `Queues.Agreement` says what holds all the same. `Queues.AccountsKept` says exactly when each message stays outstanding or
  answered, never both, `Queues.AnswersAreTrue` exactly when what L1 stored is what L2 answered, and `Queues.MislabelledAnswer`
  is a run that loses track of a message.
- A transaction of an L2 block that sends a message as L1 writes to the block's copy of L1 (demo-tew/queue_chain.py:1363-1374),
  which is written into the block but never read back; the model has no such message.
- The reveal deadline set at activation does not stop the first reveal (`TewlProgress.FirstRevealNeverLate`,
  `TewlExamples.LateRevealAccepted`). A final scorer state that is not a dictionary, or that gives a share to an address the bank
  refuses, keeps its request active for good (`TewlProgress.FinalizeEnds`, `TewlProgress.UnsettledBlocks`,
  `TewlExamples.UnreadableRoundStays`).
- Who commits and does not reveal is slashed only when the request resolves (`TewlSlashing.FinalizeSlashes`,
  `TewlSlashing.SlashesWhenResolved`). `finalize` is also accepted while a request is still in its commit phase, once the reveal
  deadline has passed; it then fails the request, and none of the silent committers is slashed
  (`TewlSlashing.SilentRoundSlashesNobody`, `TewlExamples.SilentCommitterKeepsBond`).

## Model

| member | source | states |
|---|---|---|
| WireProofs.WireRoundTrip | api/nft/event.pulsar.go:367-615 | Unmarshalling the bytes marshal writes gives back the same message without error, for all strings in the four fields and all well-formed unknown records. |
| WireProofs.Canonical | api/nft/event.pulsar.go:425-615 | Every accepted byte sequence has a canonical form: the marshalled bytes of what it parsed to are no longer than it and parse to the same message, so parsing, printing and parsing again is parsing. |
| WireProofs.LastOccurrenceWins | api/nft/event.pulsar.go:438-609 | A field ends with the payload of its last record, unknown records are kept in the order they came, and a buffer with an unreadable record is rejected with the error of the first such record. |
| WireProofs.PrintedSize | api/nft/event.pulsar.go:329-365 | The size closure counts exactly the bytes the marshaller writes. |
| WireProofs.ReadPrintedField | api/nft/event.pulsar.go:387-414 | A written field, anywhere in a buffer, is read as one record with its payload and ends where the next record starts. |
| WireProofs.VarintRoundTrip | x/nft/event.pb.go:394-403 | A written base-128 varint reads back as its value and length, whatever bytes follow. |
| WireProofs.SovByBitLength | x/nft/event.pb.go:472-474 | The bit-length formula (bits + 6) / 7, with at least one bit, is the number of varint bytes written. |
| WireProofs.ShortestVarint | x/nft/event.pb.go:472-474 | No readable encoding of a value is shorter than the one written. |
| WireProofs.SkipFromLocal | x/nft/event.pb.go:948-1025 | Skipping a record, nested groups included, depends only on the bytes it skips. |
| WireProofs.UnknownAppend | api/nft/event.pulsar.go:592-608 | Appending unknown records to unknown records gives a well-formed run of unknown records. |
| WireProofs.ParsedIsPrintable | api/nft/event.pulsar.go:436-609 | Whatever parsing leaves, also when an error stops it, has well-formed unknown bytes and prints in no more bytes than the buffer has. |
| WireProofs.JoinedBuffers | api/nft/event.pulsar.go:425-615 | Unmarshalling two buffers joined is unmarshalling the second on top of what the first, if accepted, left: the same message, accepted or rejected alike; only an error for input that ends too soon can become one for a length that is too large. |
| EventSendCodec.EncodeVarint | x/nft/event.pb.go:394-403 | The loop writes the varint of v just before the offset, leaves what follows alone and returns where it starts. |
| EventSendCodec.DecodeVarint | api/nft/event.pulsar.go:440-454 | The shifting loop reads the varint at an index: value, length, overflow after ten groups or end of input. |
| EventSendCodec.SkipField | x/nft/event.pb.go:948-1016 | One step of the skipper: the position after the field and the group depth, or the error, for every wire type. |
| EventSendCodec.SkipRecord | x/nft/event.pb.go:948-1025 | The skipper finds where the record ends, groups balanced, or fails as specified; it ends on every input and reads only inside the buffer. |
| EventSendCodec.Message.ComputeSize | api/nft/event.pulsar.go:329-365 | The computed size is the length of the printed message. |
| EventSendCodec.Message.MarshalField | api/nft/event.pulsar.go:387-414 | Payload, length and tag are filled in backwards before index i, and what was written after i is unchanged. |
| EventSendCodec.Message.Marshal | api/nft/event.pulsar.go:367-424 | The backward writer fills a buffer of the computed size with exactly the printed message, after whatever the caller's buffer held. |
| EventSendCodec.Message.UnmarshalString | api/nft/event.pulsar.go:467-494 | The payload of a string field and the index after it, with the negative-length, overflow and end-of-input errors. |
| EventSendCodec.Message.UnmarshalRecord | api/nft/event.pulsar.go:439-608 | One turn of the loop applies the record at the index to the message, or fails and leaves it unchanged. |
| EventSendCodec.Message.Unmarshal | api/nft/event.pulsar.go:425-615 | The loop ends on every buffer and leaves the message and the error the record-by-record meaning gives. |
| ConstantProduct.ValueNeverFalls | demo-dex/script.py:805-1082 | Over every run of joins, exits and swaps b1*b2/shares^2 never falls (cross-multiplied); a pool with shares has both reserves and one without shares has none. |
| ConstantProduct.JoinKeepsValue | demo-dex/script.py:837-893 | A join keeps at most what was sent of each coin, adds exactly that to the reserves, and never lowers the value per share. |
| ConstantProduct.ExitKeepsValue | demo-dex/script.py:956-967 | An exit pays at most its proportion of each reserve and never lowers the value of the shares that stay; leaving with all shares empties both reserves, with fewer neither. |
| ConstantProduct.SwapKeepsValue | demo-dex/script.py:1021-1057 | A swap pays out a positive amount below the reserve, never lowers the product, and so never meets the depletion guard. |
| ConstantProduct.JoinThenExit | demo-dex/script.py:837-957 | Joining and at once exiting with the minted shares returns at most what was added of each coin. |
| ConstantProduct.ThereAndBack | demo-dex/script.py:1031-1054 | Swapping there and back returns at most the input. |
| ConstantProduct.SplittingNeverGains | demo-dex/script.py:1031-1054 | When a swap split into any sequence of swaps in the same direction succeeds, the single swap succeeds and pays at least as much in total. |
| ConstantProduct.CeilDivLeast | demo-dex/script.py:258-259 | The rounded-up quotient is the least integer whose product covers the dividend. |
| Dex.PathConserves | demo-dex/script.py:1021-1070 | Along any path, one that revisits a pool included, the reserves take in the input and give out the output, intermediate denoms net to zero, every pool stays sound and the depletion guard never fires. |
| Dex.HopConserves | demo-dex/script.py:1026-1057 | One hop moves exactly its input into and its output out of the summed reserves. |
| Dex.ShareLegDirections | demo-dex/script.py:948-954 | The code sends the shares from the script to the caller before burning: it succeeds exactly when the script holds twice the amount; the documented direction succeeds exactly when the caller holds it. |
| Dex.PoolCannotBeLeft | demo-dex/script.py:948-954 | As coded, the share leg of an exit fails for every pool of whose shares the script holds fewer than twice the amount, and only then; in the documented direction every holder could leave. |
| Dex.ExitConserves | demo-dex/script.py:956-967 | An exit lowers the summed reserves by exactly what it pays out. |
| Dex.Script.SwapTokens | demo-dex/script.py:993-1082 | A multi-hop swap succeeds exactly under its guards, moves the input in and the output out and nothing else, and keeps balance minus reserves in every denom. |
| Dex.Script.CreatePool | demo-dex/script.py:723-802 | Success exactly when amounts, denoms and balances allow; coins in canonical order; reserves, shares and balances after; the surplus kept. |
| Dex.Script.JoinPool | demo-dex/script.py:805-916 | Success exactly under its guards; only the kept amounts stay, the refunds and the shares reach the caller; the surplus kept. |
| Dex.Script.ExitPool | demo-dex/script.py:919-990 | As coded: success exactly under its guards and when the script holds, besides both payouts, twice the shares (once, when it leaves a pool itself); pools and all balances after; another caller keeps its own shares and gets as many from the script, and the script stays able to pay every reserve exactly when it held that many shares beyond the reserves. |
| Dex.ExitTakesAnotherReserve | demo-dex/script.py:948-954 | A state in which it does not: a second pool holds shares of the first as a reserve, and an exit from the first takes them. |
| Dex.Script.SettleExit | demo-dex/script.py:948-984 | The bank leg of an exit, for any caller: exactly when it succeeds, and every balance after it. |
| Lots.FinestLots | demo-dex/script.py:451-454 | The least-common-multiple split is exact, units times unit amounts are the offered and wanted amounts, and finest, the unit amounts are coprime. |
| Lots.ExactFillIsWhole | demo-dex/script.py:535-542 | Every fill at the exact price of an offer is a whole number of its units. |
| Lots.CommonDivisor | demo-dex/script.py:451 | Whatever divides both amounts divides their greatest common divisor. |
| Lots.GcdScales | demo-dex/script.py:451-453 | The greatest common divisor scales with a common factor. |
| OfferIndex.TakeUnitsSound | demo-dex/script.py:613-633 | A fill keeps an offer sound, and fill plus remainder is what remained before, on both sides. |
| OfferIndex.PriceKept | demo-dex/script.py:613-633 | At every time remaining have times initial want equals remaining want times initial have. |
| OfferIndex.PartialFillKeepsKeys | demo-dex/script.py:635-642 | A partial fill leaves every secondary key unchanged. |
| OfferIndex.KeyEndsInId | demo-dex/script.py:338-355 | The id of its offer can be read off every secondary key. |
| OfferIndex.KeysNeverCollide | demo-dex/script.py:338-362 | Keys of distinct offers never collide, whatever the makers and denoms. |
| OfferIndex.BookOrder | demo-dex/script.py:351-355 | Have-side keys of one market sort lexicographically by rounded price, ties by id, for prices below 10^10 and ids of at most ten digits. |
| OfferIndex.BookOrderWant | demo-dex/script.py:344-348 | The same on the want side. |
| OfferIndex.BookOrderFollowsPrice | demo-dex/script.py:303-313 | A better exact price never rounds to a worse one. |
| OfferIndex.ReindexAgrees | demo-dex/script.py:635-642 | Deleting the old and setting the new keys of one offer keeps the index the exact image of the offers. |
| OfferIndex.FillRecorded | demo-dex/script.py:594-633 | Recording a trade and filling its offer keeps fills plus remainder equal to the initial amounts, for every offer. |
| OfferIndex.NewOfferFills | demo-dex/script.py:459-472 | A new offer has no fills, so all of it remains. |
| Keys.PadReads | demo-dex/script.py:320-321 | A zero-padded number reads back, so padding never makes two ids one. |
| Keys.PadOrder | demo-dex/script.py:320-321 | Padded numbers of at most w digits sort as numbers. |
| Keys.PriceTextOrder | demo-dex/script.py:303-313 | Price texts below 10^10 have one length and sort as the rounded prices. |
| Keys.PriceSameRatio | demo-dex/script.py:303-313 | The price key depends on the ratio alone. |
| Keys.RoundMonotone | demo-dex/script.py:303-313 | Rounding half to even is monotone in the ratio. |
| DexSettlement.SettleEffect | demo-dex/script.py:653-684 | The single aggregated move succeeds exactly when every account covers what all legs together take from it, then changes each balance by exactly what the legs give and take, the module account ending as it began. |
| DexSettlement.CollectSums | demo-dex/script.py:544-562 | The four dictionaries hold exactly what each account gives and gets, and inputs equal outputs in every denom. |
| DexSettlement.ChecksLeaveTaker | demo-dex/script.py:579-684 | Once the balance checks pass, the move succeeds exactly when the taker holds, denom by denom, what it gives on both sides together. |
| DexSettlement.CheckedMoveFails | demo-dex/script.py:579-684 | A batch that passes every balance check and fails the move: a taker with five coins takes an offer that wants five and its own offer of five. |
| OfferBookModule.OfferBook.Make | demo-dex/script.py:430-483 | Success exactly on positive amounts, two denoms and a sufficient balance; the new offer, its fresh id and its keys. |
| OfferBookModule.OfferBook.CheckTakes | demo-dex/script.py:517-577 | The first pass accepts exactly the lists of distinct open offers with units in range and returns what each take moves. |
| OfferBookModule.OfferBook.MoveCoins | demo-dex/script.py:579-684 | Balance checks and move together succeed exactly when every account covers all its legs; the balances after. |
| OfferBookModule.OfferBook.Fill | demo-dex/script.py:591-643 | The second pass for one take: trade recorded, offer filled, index and fill sums kept. |
| OfferBookModule.OfferBook.TakeBatch | demo-dex/script.py:486-686 | A batch succeeds exactly when all takes are takeable and every account covers them; offers, trade log and balances after; index and fill sums kept. |
| OfferBookModule.OfferBook.Cancel | demo-dex/script.py:689-715 | Exactly the maker of an open offer can cancel it; the book keys go, the amounts stay. |
| DenomCodec.CodecRoundTrip | whaleswap/orderbook.py:36-69 | Decoding the liquid denom of any solid denom gives the solid denom back. |
| DenomCodec.QuoteDistinct | whaleswap/orderbook.py:49-56 | Distinct solid denoms have distinct liquid denoms. |
| DenomCodec.PaddingRestored | whaleswap/orderbook.py:42-46 | Padding an unpadded encoding restores exactly what was stripped, to a multiple of four (sections 5 and 3.2 of RFC 4648). |
| DenomCodec.PaddingFills | whaleswap/orderbook.py:44 | For a text of any length the padding makes the length divisible by four with at most three characters. |
| DenomCodec.Base64RoundTrip | whaleswap/orderbook.py:36-46 | The scanning decoder returns the bytes of every padded encoding. |
| DenomCodec.Utf8RoundTrip | whaleswap/orderbook.py:37-46 | UTF-8 decoding returns every encoded text. |
| DenomCodec.OtherSpellings | whaleswap/orderbook.py:42-46 | The decoder skips foreign characters, so every solid denom has liquid spellings other than the quoted one that decode to it. |
| DenomCodec.CodecFits | whaleswap/orderbook.py:22-69 | The codec meets what the order book needs of it. |
| DenomCodec.ScriptSolvent | whaleswap/orderbook.py:495-985 | With the script's own codec, from a chain without offers and liquid coins, over every run the balance covers liquid supply, open escrow and locked deposits in every denom. |
| Backing.TakeKeepsSurplus | whaleswap/orderbook.py:702-936 | A batch of distinct open offers, makers normal or liquid and payment solid or liquid, leaves each denom's surplus as it was before the attachments arrived, plus attachments in denoms no taken offer wants. |
| Backing.SolventForever | whaleswap/orderbook.py:495-985 | Over every run of conversions, makes, takes and cancels with what others may do in between, the script's balance covers its liabilities in every denom, udys included. |
| Backing.ForwardsNeverFail | whaleswap/orderbook.py:802-917 | Once the liquid moves and burns of a batch succeed, no forward and no deposit release fails, so the skipped balance check is not needed. |
| Backing.CallFine | whaleswap/orderbook.py:495-985 | Every call on a solvent state ends solvent or fails for another reason than the script being short of what it sends. |
| Backing.CancelSurplus | whaleswap/orderbook.py:939-985 | A cancel pays a deposit back exactly and never returns an escrow: the surplus rises by what a normal offer still had. |
| Backing.CancelKeepsBacking | whaleswap/orderbook.py:939-985 | A cancel keeps every surplus if and only if the offer is a liquid one. |
| Backing.LiquidPaysNothing | whaleswap/orderbook.py:752-763 | Liquid coins attached to a take pay for nothing: the take does exactly what it does without them. |
| Backing.ToLiquidFine | whaleswap/orderbook.py:495-535 | Wrapping keeps the script solvent, also for udys, which pays both the backing and the fee, and its sends never fail. |
| Backing.ToSolidFine | whaleswap/orderbook.py:538-573 | Unwrapping keeps the script solvent and its send never fails. |
| Backing.ToSolidBank | whaleswap/orderbook.py:546-569 | An unwrap that passes the balance checks is of a canonical liquid denom, always completes, and burns as much of it as it releases. |
| Backing.MakeFine | whaleswap/orderbook.py:581-685 | Both kinds of offer are covered by what making them brings in. |
| Backing.TakeFine | whaleswap/orderbook.py:688-936 | A take keeps the script solvent and its sends never fail. |
| Backing.BatchSurplus | whaleswap/orderbook.py:822-936 | A settled batch costs the surplus exactly the attached coins of the wanted denoms. |
| Backing.MovesCanonical | whaleswap/orderbook.py:822-862 | A move that succeeds moves only liquid coins of denoms the script itself quotes. |
| Backing.FillEscrow | whaleswap/orderbook.py:888-917 | Filling a batch lowers the open escrow by exactly what normal makers deliver. |
| Backing.ReleaseEffect | whaleswap/orderbook.py:919-928 | The deposits released by a batch are exactly those of the liquid offers it closes. |
| Backing.AttachedCovers | whaleswap/orderbook.py:98-104 | Attached coins raise the surplus by what was attached. |
| Backing.StartsSolvent | whaleswap/orderbook.py:495-985 | A chain without offers and liquid coins is solvent. |
| LiquidBook.MintFeeIsCeiling | whaleswap/orderbook.py:110-120 | The mint fee is the least whole number covering amount times fee per coin. |
| BatchSums.OutgoingRuns | whaleswap/orderbook.py:864-886 | Sends out of the script succeed whenever its balances cover their totals. |
| BatchSums.RequiredSum | whaleswap/orderbook.py:745-750 | The dictionary of required coins has each wanted denom once, with the sum over the trades. |
| BatchSums.RemainderSum | whaleswap/orderbook.py:752-763 | The liquid remainder of a wanted denom is what the attachments leave owing. |
| BatchSums.LegSums | whaleswap/orderbook.py:765-800 | The three dictionaries of a batch add up, denom by denom, to the trades. |
| BatchSums.DeliveredSplits | whaleswap/orderbook.py:784-800 | What the taker receives in a denom is what normal makers deliver plus what liquid makers burn of its liquid denom. |
| Dicts.AddToSum | whaleswap/orderbook.py:745-750 | Adding under a key changes that key's amount and no other. |
| LiquidScript.Script.ConvertToLiquid | whaleswap/orderbook.py:495-535 | Mints the liquid coins to the caller one for one against attached solid coins and fee, counting udys for both; otherwise the first failing check and no change. |
| LiquidScript.Script.ConvertToSolid | whaleswap/orderbook.py:538-573 | Burns liquid coins and releases as many solid ones, after the caller's and the script's balances are checked; otherwise the first failing check and no change. |
| LiquidScript.Script.MakeOffer | whaleswap/orderbook.py:581-685 | A liquid offer locks the deposit and attaches nothing, a normal one attaches exactly its escrow; either is split into lots under the next id; otherwise no change. |
| LiquidScript.Script.CancelOffer | whaleswap/orderbook.py:939-985 | Cancels for the maker, or for anyone when a liquid maker cannot fund one unit, and pays the deposit to whoever cancels; otherwise no change. |
| LiquidScript.Script.TakeOffer | whaleswap/orderbook.py:688-936 | The loops over trades, dictionaries, moves, burns, forwards and fills together do what the batch specification says. |
| LiquidScript.Script.FillAndRelease | whaleswap/orderbook.py:888-928 | The record-by-record fill and release equals filling the whole batch and releasing the deposits of what it closes. |
| LiquidScript.CollectTrades | whaleswap/orderbook.py:707-743 | The checking loop accepts and computes exactly the specified trades, or fails with the first error. |
| LiquidScript.CollectRemainder | whaleswap/orderbook.py:752-763 | The loop refuses over-attachment and computes the liquid remainder. |
| LiquidScript.CollectLegs | whaleswap/orderbook.py:765-800 | The loop fills the three dictionaries as specified. |
| LiquidScript.SumAttachments | whaleswap/orderbook.py:98-104 | The loop's dictionary holds the attached sum of every denom. |
| LiquidScript.MoveAndBurn | whaleswap/orderbook.py:811-862 | Moving all liquid coins and burning the totals per denom, as specified. |
| LiquidScript.Forward | whaleswap/orderbook.py:864-886 | Forwarding to the taker and to each maker, as specified. |
| Queues.Agreement | demo-tew/queue_chain.py:50-242 | Under any loss, repetition and reordering of L2 blocks, and whatever L1 is told outside of blocks, L1 has handled L2's messages exactly once in the order 0, 1, 2, ... and waits only for messages it sent. |
| Queues.AccountsKept | demo-tew/queue_chain.py:841-888 | In every state of a run each message of L1 is outstanding or answered, never both, if and only if in every call outside of blocks the ids borne by the responses that are stored are, all together, the ids of the messages they are filed under. |
| Queues.AnswersAreTrue | demo-tew/queue_chain.py:841-888 | In every state of a run what L1 stored under an id is L2's answer to the message L1 had sent under it, if and only if every response that a call outside of blocks stores bears the id of a message sent and is L2's answer to it. |
| Queues.BlocksAgree | demo-tew/queue_chain.py:191-242 | Over blocks alone both hold: each message of L1 is outstanding or answered, never both, and each stored response is L2's answer to exactly the message L1 sent under that id. |
| Queues.TakeAnswered | demo-tew/queue_chain.py:876-887 | One call with any responses keeps the account exactly when the ids they bear are, all together, the ids they are filed under. |
| Queues.TakeTruthful | demo-tew/queue_chain.py:876-887 | One call keeps what is stored true exactly when what it stores is true. |
| Queues.BlockAnswers | demo-tew/queue_chain.py:841-888 | The responses of any block, told to L1 outside of a submission, meet both conditions. |
| Queues.MislabelledAnswer | demo-tew/queue_chain.py:876-887 | A response filed under message 0 that bears id 1 leaves message 0 neither outstanding nor answered and message 1 both. |
| Queues.CatchUp | demo-tew/queue_chain.py:191-242 | Submitting one block makes up for all blocks before it: every message they carried is handled, and L1 waits for none of the answers they carried, having stored one to each. |
| Queues.StaleBlock | demo-tew/queue_chain.py:191-242 | A block that arrives after a newer one changes nothing. |
| Queues.RepeatedBlock | demo-tew/queue_chain.py:191-242 | Submitting any block a second time processes nothing. |
| Queues.NothingProcessed | demo-tew/queue_chain.py:989-1006 | A block in which nothing was processed would not have changed L1, so not saving it loses nothing. |
| Queues.CarriesAnswer | demo-tew/queue_chain.py:1267-1322 | A block carries the answer to a message L1 waits on exactly when it read a state of L1 in which the message had been sent. |
| Queues.AnswersCarried | demo-tew/queue_chain.py:1285-1290 | While blocks read ever later states of L1, an answer L1 still waits for is in every later block. |
| Queues.OlderViewDropsAnswer | demo-tew/queue_chain.py:1285-1290 | A block built from an older state of L1 can drop an answer L1 still waits for. |
| Queues.AbsorbInOrder | demo-tew/queue_chain.py:213-228 | The while loop handles exactly the unhandled messages of the block, in order, and appends them to what was handled. |
| Queues.StepKeeps | demo-tew/queue_chain.py:50-242 | Every send, block, submission and response call, whatever it is told, keeps the joint invariant of the layers. |
| QueueObjects.L1Queue.SendMessage | demo-tew/queue_chain.py:50-63 | Sends under the next id. |
| QueueObjects.L1Queue.ProcessResponses | demo-tew/queue_chain.py:231-240 | The loop stores exactly the responses to outstanding messages and clears those messages. |
| QueueObjects.L1Queue.ProcessL2Responses | demo-tew/queue_chain.py:876-888 | The loop over the responses told outside of blocks leaves the specified state. |
| QueueObjects.L1Queue.OnL2Block | demo-tew/queue_chain.py:191-242 | The loops leave the specified state and report whether anything was processed. |
| QueueObjects.L2Queue.BuildNextBlock | demo-tew/queue_chain.py:1237-1361 | The queue phase and the sends of the transactions give the specified block. |
| QueueObjects.L2Queue.Answer | demo-tew/queue_chain.py:1302-1322 | The loop answers every message L1 waits on. |
| QueueObjects.L2Queue.DropSeen | demo-tew/queue_chain.py:1285-1290 | The loop keeps exactly the responses L1 still waits for. |
| TewlScoring.FinishedAsOneShot | tewl/script.py:1027-1186 | In every run a finished request ended as one fold of the scorer over all its reveals in address order ends: same result and scores, or failed on a scorer error or no result. |
| TewlScoring.FinalizeTwice | tewl/script.py:1086-1134 | Two finalize calls in a row are one call with both budgets, whatever the cut. |
| TewlScoring.ScoreFolds | tewl/script.py:1096-1108 | One call scores a prefix of what is left exactly as the fold does and stops short only on an error or at the budget. |
| TewlScoring.AcceptedFreezes | tewl/script.py:1046-1071 | After an accepted finalize that leaves the request open, its commits and reveals are closed. |
| TewlScoring.FrozenRejects | tewl/script.py:610-858 | A closed request accepts no commit and no reveal, then or later. |
| TewlScoring.UnprocessedRest | tewl/script.py:1077-1084 | What is left to score is the listed reveals without the processed prefix. |
| TewlScoring.SettledOnce | tewl/script.py:1053-1056 | Finalizing a finished request again pays nobody and changes nothing, however much later. |
| TewlScoring.CommitsBeforeReveals | tewl/script.py:610-858 | Once somebody has revealed, nobody commits to the request any more, over every run. |
| TewlScoring.CommitmentsStay | tewl/script.py:646-663 | A provider's commitment and its response, once accepted, never change. |
| TewlScoring.RevealsAreBound | tewl/script.py:831-853 | With an injective hash every stored response is the one its provider committed to. |
| TewlScoring.StepGood | tewl/script.py:425-1186 | Every call keeps the invariant of every request and only advances it. |
| TewlQueue.PendingOrdered | tewl/script.py:507-517 | The queue lists every pending request once, by fee descending, creation height ascending, then storage order. |
| TewlQueue.ActivationPicksFirst | tewl/script.py:533-573 | The activated request is prior to every other pending one. |
| Keys.ListsBeforeExactly | tewl/script.py:337-339 | When one padded number, followed by a character below the digits, sorts before another: the smaller of two of one length, otherwise the shorter unless it exceeds the leading digits of the longer. |
| TewlQueue.KeyOrderIsIdOrder | tewl/script.py:337-339 | Exactly when one request is stored before another, for any two ids; for ids of at most six digits that is id order. |
| TewlQueue.ActivationById | tewl/script.py:507-573 | The activated request is minimal in fee descending, block and id if and only if the smallest of the top-ranked ids is stored before every other one of them. |
| TewlQueue.LongIdsComeFirst | tewl/script.py:337-339 | Beyond six digits storage order is not id order: request 1000000 sorts before 999999. |
| TewlQueue.LaterIdServedFirst | tewl/script.py:533-602 | A scheduled state in which ending the active request activates request 1000000 while 999999, of the same fee and block, keeps waiting. |
| TewlQueue.AlwaysScheduled | tewl/script.py:533-602 | Over every run at most one request is open and it is the one named active; with none active none is pending. |
| TewlQueue.DeactivateSchedules | tewl/script.py:576-602 | Deactivating activates the next pending request, if any. |
| TewlEscrow.EscrowForever | tewl/script.py:203-1186 | Over every run the balance covers all bonds and the fees of all unfinished requests, and the surplus never shrinks. |
| TewlEscrow.SplitFitsFee | tewl/script.py:902-937 | The floored shares never exceed the fee and leave less than one coin per positive score. |
| TewlEscrow.DistributeEffect | tewl/script.py:919-935 | Paying the shares succeeds when the script can pay their sum and costs it exactly the shares of the others; what it is due itself stays. |
| TewlEscrow.FailRefunds | tewl/script.py:988-999 | A failing request is refunded exactly its fee, and the surplus is unchanged. |
| TewlEscrow.ResolveEscrowed | tewl/script.py:1136-1186 | Settling pays away at most the fee, lowers bonds only, and raises the surplus by exactly the unpaid rest of the fee and the slashed bonds. |
| TewlEscrow.FinalizeKeeps | tewl/script.py:1027-1186 | Finalizing never fails for want of coins and never on the active id, whatever the scorer says. |
| TewlEscrow.WithdrawKeeps | tewl/script.py:246-312 | Withdrawing keeps the surplus, and a positive withdrawal within the bond can always be paid. |
| TewlEscrow.DepositKeeps | tewl/script.py:203-243 | A deposit turns the attached coins into bond exactly. |
| TewlBonds.BondsForever | tewl/script.py:203-312 | With a fixed positive minimum, over every run: bonded means at least the minimum, underbonded less, jail is for good, and who committed to the open request still holds at least the minimum. |
| TewlSlashing.FirstSlashInFull | tewl/script.py:940-1168 | After a call that resolves a request every committer has lost exactly one slash amount for each of its strikes, at most two, and is in jail exactly when less than the minimum is left; a silent one whose score is not low has lost exactly one. |
| TewlSlashing.SettlementStrikes | tewl/script.py:940-1168 | Slashing by scores and then for silence costs each provider one strike per low score and one for an unrevealed commitment. |
| TewlSlashing.FinalizeSlashes | tewl/script.py:1027-1186 | A finalize call slashes exactly when it resolves the request, each provider by its strikes; one that fails the request or leaves it open touches no provider. |
| TewlSlashing.SlashesWhenResolved | tewl/script.py:1064-1186 | A call that ends a request resolves it exactly when the fold over its reveals gives a readable state with a result; otherwise, and whenever nobody revealed, nobody is slashed. |
| TewlSlashing.SilentRoundSlashesNobody | tewl/script.py:1053-1094 | A request still in its commit phase can be finalized once its reveal deadline has passed: it fails, the fee goes back, and none of the committers, all silent, is slashed. |
| TewlBonds.SlashScoredDisciplined | tewl/script.py:1161-1168 | Slashing by scores keeps every status right and frees nobody from jail. |
| TewlBonds.NewMinimum | tewl/script.py:1196-1215 | From right statuses, changing the minimum keeps them right exactly when no provider outside jail has a bond between the two minimums. |
| TewlBonds.RaisedMinimumLeavesBonded | tewl/script.py:1196-1215 | A run that fails it: a provider bonds the first minimum, the minimum is doubled, and the provider stays bonded with half of it. |
| TewlProgress.AlwaysWell | tewl/script.py:203-1215 | From a chain without providers and requests, all invariants of the oracle hold together over every run: one open request, sound records, covered escrow, and, while the minimum bond is left alone, sound bonds. |
| TewlScoring.StartsWell | tewl/script.py:144-155 | The initial state satisfies the invariants. |
| TewlProgress.FinalizeEnds | tewl/script.py:1064-1186 | A call with gas for every reveal ends the request, except exactly when the scorer succeeds with a final state that cannot be read, or with a result that gives a share to an address the bank refuses. |
| TewlProgress.UnsettledBlocks | tewl/script.py:1136-1168 | Once its reveals are closed, by the deadline or because all have revealed, a request whose final scorer state cannot be read or paid out stays open and active over every run, so the queue never moves on. |
| TewlProgress.FirstRevealNeverLate | tewl/script.py:754-821 | After the commit deadline the first reveal opens a new reveal phase however late it comes, and is accepted exactly when it matches commitment and schema. |
| TewlExamples.LateRevealAccepted | tewl/script.py:754-821 | A state long after both deadlines of its activation in which a committed provider still reveals and opens a new reveal phase. |
| TewlExamples.SilentCommitterKeepsBond | tewl/script.py:1053-1094 | In the same state a finalize call fails the request, and the silent committer keeps its bond. |
| TewlExamples.UnreadableRoundStays | tewl/script.py:1136-1144 | A state whose only committer has revealed and whose scorer ends in a state that cannot be read: over every run that request stays the active one. |
| TewlScript.Script.Finalize | tewl/script.py:1027-1186 | The method, its scoring loop and its settlement leave the specified state or the specified error and no change. |
| TewlScript.Script.RunScorer | tewl/script.py:1077-1108 | The while loop scores the pending reveals in order until they, the budget or the scorer end. |
| TewlScript.Script.CheckPayees | tewl/script.py:919-935 | The loop finds whether the bank takes every share that is due. |
| TewlScript.Script.DistributeFees | tewl/script.py:902-937 | The loop pays each positive score its floored share. |
| TewlScript.Script.SlashByScore | tewl/script.py:1161-1166 | The loop slashes every provider scored zero or less. |
| TewlScript.Script.GetPendingRequests | tewl/script.py:507-517 | The stable sort gives the queue order. |
| TewlScript.Script.TryActivateNext | tewl/script.py:533-573 | Activates the first pending request with its two deadlines when none is active. |
| TewlScript.Script.DepositBond | tewl/script.py:203-243 | Adds exactly the attached coins to the caller's bond, making a record if there is none; an underbonded provider that reaches the minimum becomes bonded, a jailed one stays jailed; without coins nothing changes. |
| TewlScript.Script.WithdrawBond | tewl/script.py:246-312 | Pays out exactly the amount: refused to strangers, the jailed, beyond the bond, and to bonded providers below the minimum; the record goes when nothing is left. |
| TewlScript.Script.CreateRequest | tewl/script.py:425-499 | Queues a request under the next id with its fee and block, and activates the first pending one when nothing is active; refused without a fee. |
| TewlScript.Script.Commit | tewl/script.py:610-670 | Accepts one commitment per bonded provider before the deadline of the active request, and opens the reveal phase when all bonded providers have committed. |
| TewlScript.Script.Reveal | tewl/script.py:786-858 | Opens the reveal phase when due, then accepts one matching response per commitment before the reveal deadline; a refused reveal also undoes the transition. |

## Left out

- Fractional amounts, the 28-digit precision of `Decimal`, and floating-point rounding in fee shares and slash amounts.
- A mint fee for pool shares: demo-dex/script.py:199-207 names none, and what the nameservice module charges then is not part
  of this model.
- Ownership checks of the nameservice module on moves, mints and burns (x/nameservice/keeper/msg_move_coins.go). Moves of the
  liquid book go straight to the script instead of through the module account, which ends as it began.
- The module account is not a maker or taker, as the nameservice module refuses module accounts in moves.
- The trade records and the secondary indexes of the liquid order book; they follow the scheme proved for the DEX.
- Administration: `admin_mint_pfand_to` is a mint by others, `reset_all` is not part of this model.
- The texts of pool paths (`pool_ids_str`) and of requests: a path is a list of ids, and whether a request's prompt, schema, scorer
  and callback are acceptable is one flag of the call.
- Counters of provider reputation, timestamps and heights in records other than deadlines and creation height, events.
- A negative or unparsable minimum bond, and amounts whose text does not parse.
- The JSON schema checker, SHA-256, signature checks and the execution of L2 transactions beyond the messages they send.
- The `settling` value of a request's finalize phase: a call that reaches it ends the request or is reverted, so it is never
  stored; the status says which phase a stored request is in.
- Entries of the queues the layers build repeat their key as `msg_id`; the model keeps the key. The debug height fields and
  `process_snapshot_queue` are not used by the protocol.
- A queue's numbers are kept as numbers, not as their decimal texts, which tell them apart (`Keys.DecimalReads`).
- `EventMint` and `EventBurn` are the three-field versions of the same generated code; reflection methods and descriptors.
- Nil messages and nil versus empty byte slices of the codec.
- whaleswap/amm.py, whaleswap/auction.py, the Go keepers and the other scripts of the repository.
- LiquidScript.MoveAndBurn: does not model the order in which coins of one account are moved, because a move is atomic.
