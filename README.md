# Casino bot core, modelled in Dafny

A Discord bot runs a coin economy on a hash-chained ledger. This project models the bot's own deterministic logic:

- **Channel checkpoints.** A bounded FIFO of the last message ids seen in a channel, kept in a file.
- **Slot machine.**
  - The award table `calculate_award_money`.
  - The settlement of a spin in `/slots`: transfer amount, direction and jackpot update.
  - The jackpot and reel setters.
  - `load_jackpot` and `count_symbols`.
- **`/reels`.** The command that edits the symbol counts of the three reels in place.
- **Ledger glue.** The payload `add_block_transaction` submits, the balance guard of `/transfer` and coin mining in `process_reaction`.
- **Role lookup in `utils/roles.py`.** First-match search of candidate role names.

The ledger itself appears only as the sequence of payloads it was handed (`Ledger.Chain`). Balances are stated through a reference replay, `Ledger.Replay`: received minus sent over every transaction entry.

Modules:

| module | file | what it holds |
|---|---|---|
| `Wrappers` | Wrappers.dfy | `Option`, `Min`, `Max` |
| `Checkpoints` | Checkpoints.dfy | `ChannelCheckpoints` with its file as `Option<seq<int>>`, `Retained`, `Load`, `LoadAll` |
| `Ledger` | Ledger.dfy | payload datatypes (after `blockchain/sbchain_type_aliases.py`), `Chain`, `Replay`, `AddBlockTransaction`, `Transfer`, `ProcessReaction` |
| `SlotMachine` | SlotMachine.dfy | configuration, map sums, `CountSymbols`, `LoadJackpot`, `CalculateAwardMoney`, class `SlotMachine` |
| `Slots` | Slots.dfy | the settlement rules `Settle` and the method `Spin` |
| `Reels` | Reels.dfy | the pure effect `Edit` of `/reels`, its cell-by-cell specification `CellDelta`, and the in-place `EditReels` |
| `Roles` | Roles.dfy | `FindByName` (Discord's `utils.get`), `FirstMatch`, `GetRole` and the officer lookups |

Where the code does something its authors evidently did not intend, the operational members model it **as written**. The evidently intended rules are defined beside them and proved correct (see "## Findings"). `Spin` follows `Settle`, `Load` follows the source, and `Transfer` uses the guard as written. `SettleCorrected`, `LoadAll`, `LoadJackpotStored`, `TransferAllowedChecked` and the corrected role lists are the intended versions.

## Model

| member | source | states |
|---|---|---|
| Checkpoints.Retained | bot.py:118-124 | keeps the newest `min(|s|, cap)` entries (none when cap ≤ 0), and they are exactly the suffix of `s`: order kept, only the oldest evicted |
| Checkpoints.ChannelCheckpoints.constructor | bot.py:57-73 | `number` defaults to 10; the entry count is the file's line count (0 when missing); `last_message_ids` is what `load` returns |
| Checkpoints.ChannelCheckpoints.Save | bot.py:109-124 | the file becomes old lines + [id] with the oldest evicted down to `number`; entry count is min(old count + 1, number); a missing file is created first |
| Checkpoints.ChannelCheckpoints.RemoveFirstLine | bot.py:126-130 | the file loses its first line; an empty file stays empty |
| Checkpoints.Load | bot.py:132-144 | `None` iff the file is missing or empty; otherwise a one-element list holding only the first (oldest) entry |
| Checkpoints.LoadAll | bot.py:132-144 | the intended `load`: `None` iff missing or empty, else every entry in file order |
| Checkpoints.LoadMissesNewest | bot.py:109-144 | after saving into a non-full buffer holding an entry, `load` returns the oldest entry and not the id just saved, while `LoadAll` returns all of them |
| Checkpoints.SaveThenLoadAll | bot.py:109-144 | with the intended load, what `save` stores reads back in full: min(n+1, number) ids ending with the new id |
| Ledger.Chain.AddBlock | bot.py:1270 | `add_block` appends exactly one submission (payload, difficulty) to the log |
| Ledger.ReplayAppend | blockchain/sbchain_type_aliases.py:11-17 | appending a block moves each balance by exactly what that block's entries say |
| Ledger.TransactionData | bot.py:1255-1267 | the payload is one transaction entry whose sender and receiver are the identity hashes of the ids, with the amount and method |
| Ledger.TransactionMovesAmount | bot.py:1259-1265 | such a payload credits the receiver's pseudonym and debits the sender's by the amount and touches no one else; a self-transfer changes nothing |
| Ledger.AddBlockTransaction | bot.py:1238-1275 | submits exactly that one-entry payload at difficulty 0; every balance changes by +amount for the receiver and −amount for the sender |
| Ledger.TransferAllowed | bot.py:1501-1512 | no balance refuses; a non-negative amount that passes leaves the balance ≥ 0; any negative amount passes against a balance ≥ 0 |
| Ledger.Transfer | bot.py:1493-1519 | submits a "transfer" transaction iff the balance is known and ≥ amount, and nothing otherwise |
| Ledger.TransferKeepsBalancesSound | bot.py:1501-1519 | with a non-negative amount that passes the guard on the true balance, the sender stays ≥ 0 and the receiver does not lose |
| Ledger.NegativeTransferDrainsReceiver | bot.py:1505-1519 | as written, with a sender balance of at least 0, every negative amount passes the guard and is submitted; on the model ledger, which stores any amount, the transaction takes that many coins from the receiver |
| Ledger.TransferAllowedChecked | bot.py:1501-1511 | the intended guard also rejects negative amounts and implies the written one |
| Ledger.TransferCheckedIsSafe | bot.py:1501-1519 | under the intended guard the receiver never loses coins and the sender stays solvent |
| Ledger.MiningReceiver | bot.py:1152-1170 | only the coin emoji (custom or partial with the coin id) mines, never a Unicode emoji, and the coin goes to the given member or to `receiver_id` |
| Ledger.MiningReceiverIff | bot.py:1152-1170 | a reaction mines iff its emoji is a custom emoji with the coin id and a receiver is known; the receiver is the member if given, else `receiver_id` |
| Ledger.ProcessReaction | bot.py:1146-1184 | a mining reaction submits one "reaction" transaction of amount 1 from the reactor to the receiver; any other reaction submits nothing |
| SlotMachine.DefaultConfiguration | bot.py:341-415 | the template configuration: reels "1", "2", "3", each carrying every awarded symbol; the jackpot award seeded at 2000; `jackpot_amount` 0 |
| SlotMachine.CountSymbols | bot.py:483-487 | the symbols on one reel, or on all reels; never negative when no count is negative |
| SlotMachine.CountSymbolsAfterAdd | bot.py:483-487 | adding `delta` to one cell raises the machine's symbol count and that reel's count by `delta` and leaves other reels' counts as they were |
| SlotMachine.LoadJackpot | bot.py:330-339 | as written: the jackpot's coin profit (the seed), whatever `jackpot_amount` holds; undefined (KeyError) without a jackpot award |
| SlotMachine.StoredJackpotIsLost | bot.py:324-339 | a stored jackpot of 2001 over the default seed 2000 reloads as 2000 |
| SlotMachine.LoadJackpotStored | bot.py:330-339 | the intended load: at least the seed and at least the stored amount, and equal to one of them, i.e. their maximum |
| SlotMachine.StoredJackpotRoundTrip | bot.py:324-339 | under the intended load, a jackpot set to any value ≥ the seed reads back unchanged |
| SlotMachine.CalculateAwardMoney | bot.py:658-699 | only three equal names ever pay; the award is named after the symbol, or is "standard_lose", or (only for three jackpots on a zero wager, paying 0) "jackpot_fail" |
| SlotMachine.AwardMonotoneInWager | bot.py:658-688 | for wagers 0 ≤ w1 ≤ w2, with a non-negative multiplier and jackpot, the larger wager never pays less for the same reels (a wager of −1 can pay more than 0: 0 hits "jackpot_fail") |
| SlotMachine.PayoutLabel | bot.py:689-698 | the friendly name starts with "+" when the award has a coin profit, and otherwise ends in "X" |
| SlotMachine.PayoutLabelReadsBack | bot.py:689-698 | the friendly name reads back as the coin profit after the "+", or as the multiplier before the "X" (after a "-" when negative) |
| SlotMachine.NatTextRoundTrip | bot.py:693 | `str` of a non-negative integer is its decimal digits, and they read back as that integer |
| SlotMachine.AwardTable | bot.py:658-698 | mixed reels → ("standard_lose", "No win", 0); three "lose_wager" pay 0; three "jackpot" pay the jackpot, or "jackpot_fail" paying 0 when the wager is 0; any other triple pays wager×multiplier+coin profit |
| SlotMachine.SlotMachine.constructor | bot.py:286-296 | the reels and configuration are those loaded; the jackpot starts at `load_jackpot` (the seed) |
| SlotMachine.SlotMachine.SetJackpot | bot.py:324-328 | the jackpot and the stored `jackpot_amount` both become the value; the reels are unchanged |
| SlotMachine.SlotMachine.SetReels | bot.py:309-314 | the reels and the configuration's reels both become the value; the jackpot is unchanged |
| Slots.MainGameWager | bot.py:1857-1862 | a wager of 1 plays for 1, any other wager plays for wager−1; so the main-game wager is never 0 |
| Slots.WagerOrDefault | bot.py:1774-1775 | `/slots` without a wager plays for 1 coin, otherwise for the wager given |
| Slots.Settle | bot.py:1857-1942 | the award is `calculate_award_money` on the main-game wager; the house pays only on a win with positive net; the log line is skipped exactly on a win with zero net; losses transfer 1 coin, or the whole wager for "lose_wager" |
| Slots.CoinLabel | bot.py:1839-1843 | the singular currency name exactly when the number is 1, else the plural |
| Slots.SettleLosses | bot.py:1871-1903 | mixed reels cost exactly 1 coin whatever the wager; "lose_wager" transfers the whole wager from the player |
| Slots.SettleWins | bot.py:1904-1942 | for a win the house pays iff net > 0 (payout − 1); a negative net is charged in full, except that a wager of 1 is charged one coin more than the net; a zero net charges payout − 1 and never reaches the log line |
| Slots.JackpotFailUnreachable | bot.py:674-683 | three jackpots always win the jackpot, even on a wager of 1 with the fee unpaid: `jackpot_fail` cannot occur |
| Slots.SmallWinCostsMoreThanLosing | bot.py:1909-1931 | with the default awards, "small_win" on a wager ≥ 3 has net 0 and costs the player wager − 1, more than a loss |
| Slots.SettleViolatesNet | bot.py:1909-1931 | as written, a win can cost the player more than the net the handler computes |
| Slots.SettleCorrectedIsFair | bot.py:1857-1942 | intended rules: every spin reaches its log line, a win with the fee paid never costs more than its net, and only a paid fee wins the jackpot |
| Slots.Spin | bot.py:1857-1998 | settles per the written rules; submits the transfer (if > 0) in the direction `profited` says, moving the player's balance by `PlayerDelta`; then resets the jackpot to the seed after a jackpot or adds 1, and stores it as `jackpot_amount`, unless the handler stopped first; the reels and the rest of the configuration are unchanged |
| Reels.DefaultAmount | bot.py:1616-1620 | the amount given, or 3 without a reel (a multiple of 3) and 1 with one |
| Reels.Edit | bot.py:1611-1682 | refusals leave the reels as they were, and only a missing role gives "not permitted"; no edit adds or drops a reel; a request naming no symbol saves the reels unchanged |
| Reels.DefaultReelsWellFormed | bot.py:341-415 | the template reels are three reels with the same symbols, the shape the edit lemmas assume |
| Reels.TruncDiv3 | bot.py:1645 | `int(n / 3)`: truncation toward zero, exact for multiples of 3 |
| Reels.EditRefusals | bot.py:1607-1631 | refused iff the invoker lacks both roles, or both symbols are given, or an add without a reel has an amount not a multiple of 3; a refusal changes nothing |
| Reels.EditAddCells | bot.py:1626-1654 | adding: the named reel's cell gains the amount, then reels 1-3 each gain int(amount/3); all else unchanged |
| Reels.EditRemoveAtReel | bot.py:1656-1664 | removing with a reel subtracts the amount from that reel's cell only |
| Reels.EditRemoveSpread | bot.py:1665-1678 | removing without a reel subtracts int(amount/3) from the symbol on each of reels 1-3 |
| Reels.EditCells | bot.py:1616-1682 | on three reels with the same symbols, every edit ends refused or saved, keeps the reels and symbols, and changes each count by exactly `CellDelta` |
| Reels.AddWithoutReelAddsAmount | bot.py:1626-1650 | adding a multiple of 3 without a reel raises the machine's symbol count by exactly that amount |
| Reels.SpreadCells | bot.py:1644-1648 | on three reels with the same symbols, the three `+=` lines never fault and change only that symbol on reels 1-3 |
| Reels.AddOnMainReels | bot.py:1646-1648 | the three in-place `+=` lines in turn; a missing reel or symbol is a KeyError that keeps the earlier changes |
| Reels.EditReels | bot.py:1582-1682 | the in-place edit of the machine's reels ends as `Edit` says; the configuration is saved only when the edit is saved; the jackpot is untouched |
| Roles.FindByName | utils/roles.py:27 | `utils.get`: `None` iff no role has the name; otherwise a role with that name and no earlier one |
| Roles.FirstMatch | utils/roles.py:26-30 | `None` iff no candidate name matches any role; otherwise the role for the earliest candidate name that matches |
| Roles.RoleLookup | utils/roles.py:14-30 | `None` without a guild or when no candidate name matches a guild role; otherwise a guild role bearing a candidate name |
| Roles.GetRole | utils/roles.py:14-30 | `None` without a guild; a single name is a one-element list; the loop stops at the first hit, returning a guild role bearing a candidate name |
| Roles.OneNameIsOneElementList | utils/roles.py:22-25 | a single name searches exactly like a one-element list, i.e. `utils.get` on that name |
| Roles.GetCybersecurityOfficerRole | utils/roles.py:36-49 | the lookup over the eight currency titles followed by the fixed list as written |
| Roles.GetAmlOfficerRole | utils/roles.py:55-63 | the lookup over the six AML names as written |
| Roles.TestInvokerIsAmlOfficer | utils/roles.py:66-83 | the loop over the invoker's candidate names yields whether some name matches one of the invoker's roles |
| Roles.InvokerCheckIff | utils/roles.py:66-83 | the invoker check is true iff some candidate name equals the name of one of the invoker's roles |
| Roles.MergedNames | utils/roles.py:42-73 | the lists hold "information_security_officerComputer Security Officer" and "AML officeraml_officer", not the separate names |
| Roles.AmlOfficerNameFound | utils/roles.py:55-61 | a role named "AML officer" is missed by the list as written and found by the corrected list |
| Roles.AmlChecksDisagree | utils/roles.py:55-73 | a lone "anti-money laundering officer" role is found by `get_aml_officer_role`, yet its holder fails the invoker check |
| Roles.AmlChecksAgreeCorrected | utils/roles.py:55-84 | with one shared corrected list, whoever holds the role the guild lookup finds passes the invoker check |
| Roles.CorrectedNamesPresent | utils/roles.py:42-44 | the corrected lists hold "AML officer", "aml_officer", "information_security_officer" and "Computer Security Officer" |

## Left out

- The ledger engine (`sb_blockchain`: block sealing, validation, `get_balance`, `get_last_block`). That package is not part of this model. The ledger is the log of submissions in `Ledger.Chain`. A balance query's answer, or its failure, is an input to `Transfer`. Whether the newest block can be read after a spin is the input `tipKnown` of `Spin`.
- Ledger.Chain.AddBlock: accepts every payload, including a transaction with a negative amount. The engine may refuse such an amount (its records are meant to keep amounts ≥ 0); the source then calls `terminate_bot()` (bot.py:1271-1273). The model does not capture that refusal, so `Ledger.NegativeTransferDrainsReceiver`'s drain of the receiver assumes an engine that stores negative amounts; the guard letting them through holds either way.
- SHA-256 identity hashing. It is the function parameter `idHash`.
- Probabilities, total return, average jackpot and RTP. These use floating point and sympy, and so does the reel report that `/reels` prints after saving.
- Randomness. The reel stops are the inputs `r1`, `r2`, `r3` of `Spin`. The starting-bonus die roll and its grant are not modelled.
- Discord views, buttons, timeouts, messages and async scheduling. The role check of `/reels` is the input `permitted`, and `terminate_bot` ends the handler. After a submission, logging, chain validation and termination in `process_reaction` and `/transfer` change no modelled state.
- Files and configuration plumbing (`load_config`, `save_config`, `Log`, `BotConfiguration`, `UserSaveData`, directory creation, `count_lines`). A checkpoints file is the sequence of ids it holds, one per line, and `None` while missing. The configuration file is the `configuration` field.
- `start_checkpoints` and the missed-message scan. These are Discord I/O, and the scan's call is disabled.
- SlotMachine.CalculateAwardMoney: computes `wager * multiplier` exactly on integers. The source multiplies by a float multiplier before `math.floor` (bot.py:686-688), so a product above 2^53 is rounded there; for instance a main-game wager of 2^53 − 1 with an odd multiplier of 3 or more gives an odd exact product that no double can hold, and the source pays a different amount. Multipliers are whole numbers in the model (the shipped defaults are); a friendly label such as "1.5X" for a non-integer multiplier is not modelled.
- Reels.TruncDiv3: computes `int(amount / 3)` exactly. Python goes through a float, which rounds for amounts beyond 2^53, and that rounding is not modelled.
- SlotMachine.SlotMachine.constructor: requires a "jackpot" award. Without one the source raises KeyError at start-up, and that failure is not modelled. Start-up also raises KeyError in the probability code it calls (bot.py:294-295, bot.py:438-459) when reel "1" is missing or another reel lacks one of reel "1"'s symbols. The model's constructor accepts such reels and does not model that failure.
- SlotMachine.LoadJackpot: returns `None` where the source raises KeyError (no jackpot award).
- Reels.EditReels: the model keeps the reels and the configuration's copy as two values, synced by the `reels` setter. In the source they can be one shared dict. So when a KeyError stops `/reels` part-way, the source's configuration may already hold the partial edit, while the model leaves the configuration unchanged.
- Slots.Spin: a zero-net win raises UnboundLocalError on the unset log line. The model reports this as `logged == false`, with the transfer (when positive) already submitted and the jackpot not updated.
- Roles: the currency names `coin` and `Coin` come from global configuration and are parameters. Printing the "Guild is None" error is not modelled.

## Findings

| source | as written | input that shows it | evidently intended | confidence | as-written member | corrected member |
|---|---|---|---|---|---|---|
| bot.py:674-683, bot.py:1857-1864 | `calculate_award_money` gets the main-game wager, which is never 0, so the `wager == 0` test never fires | wager 1 (jackpot fee unpaid), three jackpot symbols: the player wins the jackpot | a wager of 1 that hits three jackpots is "jackpot_fail" | high, not executed | Slots.JackpotFailUnreachable | Slots.SettleCorrectedIsFair |
| bot.py:1909-1931 | the `net_amount == 0` branch leaves `transfer_amount = win_money − 1`, not profited, and never sets `log_line` | default config, wager 3, three "small_win": player pays 2, then UnboundLocalError before the jackpot update | a zero net moves no coins and is logged | high, not executed | Slots.SmallWinCostsMoreThanLosing | Slots.SettleCorrectedIsFair |
| bot.py:330-339 | seed and size are both read from the jackpot award's `coin_profit`, so `jackpot_amount` is ignored | set jackpot 2001, reload: 2000 | jackpot reloads as max(seed, stored `jackpot_amount`) | high, not executed | SlotMachine.StoredJackpotIsLost | SlotMachine.StoredJackpotRoundTrip |
| bot.py:132-144 | `return checkpoints` sits inside the read loop | file [5], save 7 with capacity 10: `load` gives [5] | `load` returns every checkpoint | high, not executed | Checkpoints.LoadMissesNewest | Checkpoints.SaveThenLoadAll |
| bot.py:1501-1519 | the guard only checks `balance < amount` | amount −5 with a balance ≥ 0 passes the guard and is submitted: the receiver loses 5 coins, or, if the engine refuses negative amounts, `add_block` fails and the bot shuts down (bot.py:1271-1273) | negative amounts are refused | medium, not executed | Ledger.NegativeTransferDrainsReceiver | Ledger.TransferCheckedIsSafe |
| utils/roles.py:43-44, utils/roles.py:61, utils/roles.py:73 | missing commas merge adjacent literals | a guild role named "AML officer" is not found | each literal is its own name | high, not executed | Roles.AmlOfficerNameFound | Roles.CorrectedNamesPresent |
| utils/roles.py:56-61, utils/roles.py:69-73 | the invoker check's list omits "anti-money laundering officer" | the holder of that role fails `test_invoker_is_aml_officer` | both checks search the same names | medium, not executed | Roles.AmlChecksDisagree | Roles.AmlChecksAgreeCorrected |
