/** Settlement of one spin in the `/slots` command of bot.py: the award is
    turned into one transfer between the player and the casino house, the
    transfer is submitted to the ledger, and the jackpot moves on. The reel
    stops (random) and the ledger's answer about its newest block are
    inputs. */
module Slots {
  import opened Wrappers
  import opened SlotMachine
  import opened Ledger

  /** `/slots` without a wager plays for 1 coin. */
  function WagerOrDefault(wager: Option<int>): (w: int)
    ensures wager.None? ==> w == 1
    ensures wager.Some? ==> w == wager.value
  {
    if wager.None? then 1 else wager.value
  }

  /** The wager on the main game: the whole wager when it is 1 (no jackpot
      fee was paid), else the wager minus the 1-coin jackpot fee. It is
      never 0, whatever the wager. */
  function MainGameWager(wager: int): (main: int)
    ensures main != 0
    ensures wager == 1 ==> main == 1
    ensures wager != 1 ==> main == wager - 1
  {
    if wager == 1 then 1 else wager - 1
  }

  /** `generate_coin_label`: the singular currency name for exactly one coin. */
  function CoinLabel(number: int, coin: string, coins: string): (text: string)
    ensures coin != coins ==> (text == coin <==> number == 1)
    ensures text == coin || text == coins
  {
    if number == 1 then coin else coins
  }

  /** The outcome of a spin: the award, the transfer amount, whether the
      house pays the player (`profited`) or the player pays the house, and
      whether the handler reaches its log line (it does not after a win
      that exactly returns the wager: that branch never sets `log_line`). */
  datatype Settlement = Settlement(award: Award, transfer: int, profited: bool, logged: bool)

  /** The awards handled as wins: every one but the three losing kinds. */
  predicate IsWin(a: Award)
  {
    a.name != "standard_lose" && a.name != "jackpot_fail" && a.name != "lose_wager"
  }

  /** The player's net result of a win as the handler reckons it: with a
      wager of 1 the player keeps the wager. */
  function Net(wager: int, a: Award): int
  {
    if wager == 1 then a.money else a.money - wager
  }

  /** What the ledger records for the player: no block when the transfer is
      not positive, otherwise the transfer, in the direction `profited` says. */
  function PlayerDelta(s: Settlement): int
  {
    if s.transfer <= 0 then 0 else if s.profited then s.transfer else -s.transfer
  }

  /** The settlement rules of `/slots` as written, for a wager, the three
      reel results and the jackpot before the spin. */
  function Settle(wager: int, r1: Symbol, r2: Symbol, r3: Symbol, jackpot: int): (s: Settlement)
    ensures s.award == CalculateAwardMoney(MainGameWager(wager), r1, r2, r3, jackpot)
    ensures s.profited ==> IsWin(s.award) && Net(wager, s.award) > 0
    ensures !s.logged <==> IsWin(s.award) && Net(wager, s.award) == 0
    ensures !IsWin(s.award) ==> s.transfer == (if s.award.name == "lose_wager" then wager else 1)
  {
    var a := CalculateAwardMoney(MainGameWager(wager), r1, r2, r3, jackpot);
    if a.name == "standard_lose" || a.name == "jackpot_fail" then Settlement(a, 1, false, true)
    else if a.name == "lose_wager" then Settlement(a, wager, false, true)
    else if Net(wager, a) > 0 then Settlement(a, a.money - 1, true, true)
    else if Net(wager, a) == 0 then Settlement(a, a.money - 1, false, false)
    else Settlement(a, wager - a.money, false, true)
  }

  /** Losing spins: mixed reels cost the player exactly the 1-coin fee,
      whatever the wager; three "lose_wager" cost the whole wager. */
  lemma SettleLosses(wager: int, r1: Symbol, r2: Symbol, r3: Symbol, jackpot: int)
    ensures var s := Settle(wager, r1, r2, r3, jackpot);
      (r1.name != r2.name || r2.name != r3.name) ==>
        s.award.name == "standard_lose" && s.transfer == 1 && !s.profited && s.logged && PlayerDelta(s) == -1
    ensures var s := Settle(wager, r1, r2, r3, jackpot);
      r1.name == r2.name == r3.name == "lose_wager" ==>
        s.transfer == wager && !s.profited && s.logged && PlayerDelta(s) == (if wager > 0 then -wager else 0)
  {
    AwardTable(MainGameWager(wager), r1, r2, r3, jackpot);
  }

  /** Winning spins: the house pays the player exactly when the net result
      is positive, and then pays the payout less the fee; a negative net is
      charged to the player in full (one coin more on a wager of 1); a zero net charges the player the
      payout less the fee and the handler stops before its log line. */
  lemma SettleWins(wager: int, r1: Symbol, r2: Symbol, r3: Symbol, jackpot: int)
    ensures var s := Settle(wager, r1, r2, r3, jackpot);
      IsWin(s.award) ==>
        && s.award == CalculateAwardMoney(MainGameWager(wager), r1, r2, r3, jackpot)
        && (s.profited <==> Net(wager, s.award) > 0)
        && (Net(wager, s.award) > 0 ==> s.transfer == s.award.money - 1 && s.logged)
        && (Net(wager, s.award) < 0 ==> s.transfer == wager - s.award.money && s.logged &&
                                        PlayerDelta(s) == Net(wager, s.award) - (if wager == 1 then 1 else 0))
        && (Net(wager, s.award) == 0 ==> s.transfer == s.award.money - 1 && !s.logged)
    ensures var s := Settle(wager, r1, r2, r3, jackpot);
      !IsWin(s.award) ==> !s.profited && s.logged && PlayerDelta(s) <= 0
  {
  }

  /** As written, three "jackpot" symbols always win the jackpot, also with
      a wager of 1 (the jackpot fee unpaid): `calculate_award_money` tests
      for a zero wager, but is handed the main-game wager, which is never 0. */
  lemma JackpotFailUnreachable(wager: int, r1: Symbol, r2: Symbol, r3: Symbol, jackpot: int)
    requires r1.name == r2.name == r3.name == "jackpot"
    ensures Settle(wager, r1, r2, r3, jackpot).award == Award("jackpot", "JACKPOT", jackpot)
    ensures wager == 1 && jackpot > 1 ==> PlayerDelta(Settle(wager, r1, r2, r3, jackpot)) == jackpot - 1
  {
  }

  /** As written, with the default awards, three "small_win" symbols on a
      wager of 3 or more pay back exactly the wager, and the player is then
      charged the wager less 1: more than a losing spin costs. */
  lemma SmallWinCostsMoreThanLosing(wager: int)
    requires wager >= 3
    ensures var small := SymbolOf(DefaultConfiguration(), "small_win");
      var s := Settle(wager, small, small, small, 2000);
      Net(wager, s.award) == 0 && PlayerDelta(s) == -(wager - 1) && PlayerDelta(s) < -1 && !s.logged
  {
    var small := SymbolOf(DefaultConfiguration(), "small_win");
    assert small == Symbol("small_win", 1, 1);
  }

  /** The settlement as evidently intended: the 1-coin jackpot fee must have
      been paid (a wager of 2 or more) to win the jackpot, and a win that
      exactly returns the wager moves no coins and is logged. */
  function SettleCorrected(wager: int, r1: Symbol, r2: Symbol, r3: Symbol, jackpot: int): Settlement
  {
    var a0 := CalculateAwardMoney(MainGameWager(wager), r1, r2, r3, jackpot);
    var a := if a0.name == "jackpot" && wager < 2 then Award("jackpot_fail", "No Jackpot", 0) else a0;
    if a.name == "standard_lose" || a.name == "jackpot_fail" then Settlement(a, 1, false, true)
    else if a.name == "lose_wager" then Settlement(a, wager, false, true)
    else if Net(wager, a) > 0 then Settlement(a, a.money - 1, true, true)
    else if Net(wager, a) == 0 then Settlement(a, 0, false, true)
    else Settlement(a, wager - a.money, false, true)
  }

  /** Under the corrected rules every spin reaches its log line, a win on a
      wager that paid the fee never leaves the player below the net result
      it reports, and the jackpot is
      only ever won by a player who paid the fee. */
  lemma SettleCorrectedIsFair(wager: int, r1: Symbol, r2: Symbol, r3: Symbol, jackpot: int)
    ensures SettleCorrected(wager, r1, r2, r3, jackpot).logged
    ensures var s := SettleCorrected(wager, r1, r2, r3, jackpot);
      IsWin(s.award) && wager >= 2 ==> PlayerDelta(s) >= Net(wager, s.award)
    ensures var s := SettleCorrected(wager, r1, r2, r3, jackpot);
      s.award.name == "jackpot" && r1.name == "jackpot" ==> wager >= 2
    ensures r1.name == r2.name == r3.name == "jackpot" && wager < 2 ==>
      SettleCorrected(wager, r1, r2, r3, jackpot) == Settlement(Award("jackpot_fail", "No Jackpot", 0), 1, false, true)
  {
  }

  /** The as-written rules break the corrected rules' promise: a wager of 3
      on three default "small_win" symbols reports a net of 0 yet costs 2. */
  lemma SettleViolatesNet()
    ensures var small := SymbolOf(DefaultConfiguration(), "small_win");
      var s := Settle(3, small, small, small, 2000);
      IsWin(s.award) && PlayerDelta(s) < Net(3, s.award)
  {
    SmallWinCostsMoreThanLosing(3);
  }

  /** One spin of `/slots`, after the reels have stopped: settles, submits
      the transfer (when positive) as a "slot_machine" transaction, and then
      resets the jackpot to its seed after a jackpot win or raises it by 1.
      The handler stops before the jackpot update when it never set its log
      line, or when the ledger cannot name its newest block (`tipKnown`)
      after a submission. */
  method Spin(machine: SlotMachine, chain: Chain, idHash: int -> string, userId: int, houseId: int,
              wager: Option<int>, r1: Symbol, r2: Symbol, r3: Symbol, tipKnown: bool)
    returns (s: Settlement)
    requires machine.Valid()
    modifies machine`jackpot, machine`configuration, chain
    ensures machine.Valid() && unchanged(machine`reels)
    ensures machine.configuration ==
      if s.logged && (s.transfer <= 0 || tipKnown)
      then old(machine.configuration).(jackpotAmount := machine.jackpot)
      else old(machine.configuration)
    ensures s == Settle(WagerOrDefault(wager), r1, r2, r3, old(machine.jackpot))
    ensures chain.submitted == old(chain.submitted) +
      (if s.transfer > 0
       then [Submission(TransactionData(idHash, if s.profited then houseId else userId,
                                        if s.profited then userId else houseId, s.transfer, "slot_machine"), 0)]
       else [])
    ensures idHash(userId) != idHash(houseId) ==>
      Replay(chain.submitted, idHash(userId)) == old(Replay(chain.submitted, idHash(userId))) + PlayerDelta(s)
    ensures if s.logged && (s.transfer <= 0 || tipKnown)
            then machine.jackpot == (if s.award.name == "jackpot" then machine.Seed() else old(machine.jackpot) + 1)
            else machine.jackpot == old(machine.jackpot)
  {
    s := Settle(WagerOrDefault(wager), r1, r2, r3, machine.jackpot);
    var award, transfer, profited, logged := s.award, s.transfer, s.profited, s.logged;
    var sender, receiver := if profited then houseId else userId, if profited then userId else houseId;
    if transfer > 0 {
      AddBlockTransaction(chain, idHash, sender, receiver, transfer, "slot_machine");
      if !tipKnown {
        return;
      }
    }
    if !logged {
      return;
    }
    if award.name == "jackpot" {
      machine.SetJackpot(machine.Seed());
    } else {
      machine.SetJackpot(machine.jackpot + 1);
    }
  }
}
