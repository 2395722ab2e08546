/** The slot machine of bot.py (class SlotMachine): its configuration, the
    symbol counts of its three reels, the jackpot it carries between spins
    and the award table `calculate_award_money` applies to a spin. Wager
    multipliers are whole numbers here, so `floor` is exact. */
module SlotMachine {
  import opened Wrappers

  /** One award of the configuration (its emoji fields only drive display). */
  datatype AwardConfig = AwardConfig(coinProfit: int, multiplier: int)

  /** The configuration file: awards by symbol name, the symbol counts of
      each reel ("1", "2", "3") and the stored jackpot amount. */
  datatype Configuration = Configuration(
    awards: map<string, AwardConfig>,
    reels: map<string, map<string, int>>,
    jackpotAmount: int)

  /** The configuration `create_config` writes when none exists: three
      reels that each carry every awarded symbol, a jackpot award seeded at
      2000, and no stored jackpot amount yet. */
  function DefaultConfiguration(): (c: Configuration)
    ensures c.reels.Keys == {"1", "2", "3"}
    ensures forall r :: r in c.reels ==> c.reels[r].Keys == c.awards.Keys
    ensures "jackpot" in c.awards && c.awards["jackpot"].coinProfit == 2000
    ensures c.jackpotAmount == 0
  {
    var reel := map["lose_wager" := 1, "small_win" := 3, "medium_win" := 7, "high_win" := 2, "jackpot" := 1];
    Configuration(
      map["lose_wager" := AwardConfig(0, -1),
          "small_win" := AwardConfig(1, 1),
          "medium_win" := AwardConfig(0, 5),
          "high_win" := AwardConfig(0, 500),
          "jackpot" := AwardConfig(2000, 1)],
      map["1" := reel, "2" := reel, "3" := reel],
      0)
  }

  // ---------------------------------------------------------------------
  // count_symbols

  /** The sum of a map's values (Python's `sum(d.values())`). */
  ghost function Sum<K>(m: map<K, int>): int
    decreases |m|
  {
    if |m| == 0 then 0
    else
      var k :| k in m;
      assert |m - {k}| == |m| - 1 by { assert (m - {k}).Keys == m.Keys - {k}; }
      m[k] + Sum(m - {k})
  }

  /** Unfolds `Sum` once, naming the key it takes out. */
  lemma SumStep<K>(m: map<K, int>) returns (j: K)
    requires |m| > 0
    ensures j in m && Sum(m) == m[j] + Sum(m - {j})
  {
    j :| j in m && Sum(m) == m[j] + Sum(m - {j});
  }

  lemma RemoveOneKey<K>(m: map<K, int>, k: K)
    requires k in m
    ensures |m - {k}| == |m| - 1
  {
    assert m.Keys == (m - {k}).Keys + {k};
  }

  /** Any key can be taken out first: the sum does not depend on the order. */
  lemma {:induction false} SumRemove<K>(m: map<K, int>, k: K)
    requires k in m
    ensures Sum(m) == m[k] + Sum(m - {k})
    decreases |m|
  {
    var j := SumStep(m);
    if j != k {
      RemoveOneKey(m, j);
      RemoveOneKey(m, k);
      SumRemove(m - {j}, k);
      SumRemove(m - {k}, j);
      assert m - {j} - {k} == m - {k} - {j};
    }
  }

  /** Changing one value changes the sum by exactly the difference. */
  lemma SumUpdate<K>(m: map<K, int>, k: K, v: int)
    requires k in m
    ensures Sum(m[k := v]) == Sum(m) - m[k] + v
  {
    SumRemove(m, k);
    SumRemove(m[k := v], k);
    assert m[k := v] - {k} == m - {k};
  }

  /** A sum of counts that are never negative is never negative. */
  lemma {:induction false} SumNonNegative<K>(m: map<K, int>)
    ensures (forall k :: k in m ==> m[k] >= 0) ==> Sum(m) >= 0
    decreases |m|
  {
    if |m| > 0 && forall k :: k in m ==> m[k] >= 0 {
      var j := SumStep(m);
      RemoveOneKey(m, j);
      SumNonNegative(m - {j});
    }
  }

  /** Symbols per reel. */
  ghost function ReelTotals(reels: map<string, map<string, int>>): map<string, int>
  {
    map r | r in reels :: Sum(reels[r])
  }

  /** `count_symbols`: the symbols on one reel, or on all reels together. */
  ghost function CountSymbols(reels: map<string, map<string, int>>, reel: Option<string>): (n: int)
    requires reel.Some? ==> reel.value in reels
    ensures (forall r, s :: r in reels && s in reels[r] ==> reels[r][s] >= 0) ==> n >= 0
  {
    if reel.None? then
      ReelTotalsNonNegative(reels);
      Sum(ReelTotals(reels))
    else
      SumNonNegative(reels[reel.value]);
      Sum(reels[reel.value])
  }

  lemma ReelTotalsNonNegative(reels: map<string, map<string, int>>)
    ensures (forall r, s :: r in reels && s in reels[r] ==> reels[r][s] >= 0) ==> Sum(ReelTotals(reels)) >= 0
  {
    forall r | r in reels
      ensures (forall s :: s in reels[r] ==> reels[r][s] >= 0) ==> ReelTotals(reels)[r] >= 0
    {
      SumNonNegative(reels[r]);
    }
    SumNonNegative(ReelTotals(reels));
  }

  /** Replacing one reel changes the per-reel totals at that reel only. */
  lemma ReelTotalsUpdate(reels: map<string, map<string, int>>, reel: string, newReel: map<string, int>)
    requires reel in reels
    ensures ReelTotals(reels[reel := newReel]) == ReelTotals(reels)[reel := Sum(newReel)]
  {
  }

  /** Replacing one reel changes the machine's count by the change in that reel's count. */
  lemma CountSymbolsReplaceReel(reels: map<string, map<string, int>>, reel: string, newReel: map<string, int>)
    requires reel in reels
    ensures CountSymbols(reels[reel := newReel], None) ==
      CountSymbols(reels, None) - CountSymbols(reels, Some(reel)) + Sum(newReel)
  {
    ReelTotalsUpdate(reels, reel, newReel);
    SumUpdate(ReelTotals(reels), reel, Sum(newReel));
  }

  /** The reels after `delta` is added to the count of one symbol on one reel. */
  function AddToCell(reels: map<string, map<string, int>>, reel: string, symbol: string, delta: int)
    : map<string, map<string, int>>
    requires reel in reels && symbol in reels[reel]
  {
    reels[reel := reels[reel][symbol := reels[reel][symbol] + delta]]
  }

  /** Adding `delta` symbols to one cell raises the machine's count, and that
      reel's count, by exactly `delta`; every other reel keeps its count. */
  lemma CountSymbolsAfterAdd(reels: map<string, map<string, int>>, reel: string, symbol: string,
                             delta: int, other: string)
    requires reel in reels && symbol in reels[reel]
    ensures CountSymbols(AddToCell(reels, reel, symbol, delta), None) == CountSymbols(reels, None) + delta
    ensures CountSymbols(AddToCell(reels, reel, symbol, delta), Some(reel)) == CountSymbols(reels, Some(reel)) + delta
    ensures other in reels && other != reel ==>
      CountSymbols(AddToCell(reels, reel, symbol, delta), Some(other)) == CountSymbols(reels, Some(other))
  {
    var newReel := reels[reel][symbol := reels[reel][symbol] + delta];
    var after := AddToCell(reels, reel, symbol, delta);
    assert after == reels[reel := newReel];
    SumUpdate(reels[reel], symbol, reels[reel][symbol] + delta);
    assert Sum(newReel) == Sum(reels[reel]) + delta;
    CountSymbolsReplaceReel(reels, reel, newReel);
    assert CountSymbols(after, None) == CountSymbols(reels, None) - CountSymbols(reels, Some(reel)) + Sum(newReel);
  }

  // ---------------------------------------------------------------------
  // load_jackpot

  /** `load_jackpot` as written: seed and size are both read from the
      jackpot award's `coin_profit`, so the result is that seed whatever
      amount the configuration stores; `None` where the source raises. */
  function LoadJackpot(config: Configuration): (j: Option<int>)
    ensures j.Some? <==> "jackpot" in config.awards
    ensures j.Some? ==> j.value == config.awards["jackpot"].coinProfit
  {
    if "jackpot" !in config.awards then None
    else
      var seed := config.awards["jackpot"].coinProfit;
      var size := config.awards["jackpot"].coinProfit;
      Some(if size < seed then seed else size)
  }

  /** `load_jackpot` with the size read from "jackpot_amount", the value the
      jackpot setter stores, as evidently intended: never below the seed. */
  function LoadJackpotStored(config: Configuration): (j: Option<int>)
    ensures j.Some? <==> "jackpot" in config.awards
    ensures j.Some? ==> j.value >= config.awards["jackpot"].coinProfit && j.value >= config.jackpotAmount
    ensures j.Some? ==> j.value == config.awards["jackpot"].coinProfit || j.value == config.jackpotAmount
  {
    if "jackpot" !in config.awards then None
    else Some(Max(config.awards["jackpot"].coinProfit, config.jackpotAmount))
  }

  /** As written, a stored jackpot is lost on reload: with the default
      configuration, storing 2001 reads back as 2000. */
  lemma StoredJackpotIsLost()
    ensures LoadJackpot(DefaultConfiguration().(jackpotAmount := 2001)) == Some(2000)
  {
  }

  /** With the corrected loader, any jackpot the setter stores that is not
      below the seed reads back unchanged. */
  lemma StoredJackpotRoundTrip(config: Configuration, v: int)
    requires "jackpot" in config.awards && v >= config.awards["jackpot"].coinProfit
    ensures LoadJackpotStored(config.(jackpotAmount := v)) == Some(v)
  {
  }

  // ---------------------------------------------------------------------
  // calculate_award_money

  /** What one reel stopped on: the symbol's name and its award settings. */
  datatype Symbol = Symbol(name: string, multiplier: int, coinProfit: int)

  /** The award of a spin: its name, the name shown to the player, the payout. */
  datatype Award = Award(name: string, friendly: string, money: int)

  function DigitChar(d: nat): char
    requires d < 10
  {
    (48 + d) as char
  }

  /** Python's `str` of a non-negative integer: its decimal digits. */
  function NatText(n: nat): (s: string)
    ensures |s| >= 1
    ensures forall i :: 0 <= i < |s| ==> '0' <= s[i] <= '9'
    decreases n
  {
    if n < 10 then [DigitChar(n)] else NatText(n / 10) + [DigitChar(n % 10)]
  }

  /** Reads a string of decimal digits back as a number. */
  function DigitsValue(s: string): int
  {
    if s == [] then 0 else 10 * DigitsValue(s[..|s| - 1]) + (s[|s| - 1] as int - 48)
  }

  /** `str` of a number reads back as that number. */
  lemma {:induction false} NatTextRoundTrip(n: nat)
    ensures DigitsValue(NatText(n)) == n
    decreases n
  {
    if n < 10 {
      assert NatText(n)[..0] == [];
    } else {
      var prefix := NatText(n / 10);
      assert (prefix + [DigitChar(n % 10)])[..|prefix|] == prefix;
      NatTextRoundTrip(n / 10);
    }
  }

  /** Python's `str` of an integer. */
  function IntText(i: int): string
  {
    if i < 0 then "-" + NatText(-i) else NatText(i)
  }

  /** The friendly name of a paying award: "<multiplier>X", replaced by
      "+<coin profit>" when the award adds a coin profit. */
  function PayoutLabel(multiplier: int, coinProfit: int): (text: string)
    ensures |text| >= 2
    ensures coinProfit > 0 ==> text[0] == '+'
    ensures coinProfit <= 0 ==> text[|text| - 1] == 'X'
  {
    if coinProfit > 0 then "+" + IntText(coinProfit) else IntText(multiplier) + "X"
  }

  /** The label shows the coin profit when there is one, else the
      multiplier: either reads back from the text. */
  lemma PayoutLabelReadsBack(multiplier: int, coinProfit: int)
    ensures var text := PayoutLabel(multiplier, coinProfit);
      coinProfit > 0 ==> DigitsValue(text[1..]) == coinProfit
    ensures var text := PayoutLabel(multiplier, coinProfit);
      coinProfit <= 0 && multiplier >= 0 ==> DigitsValue(text[..|text| - 1]) == multiplier
    ensures var text := PayoutLabel(multiplier, coinProfit);
      coinProfit <= 0 && multiplier < 0 ==> text[0] == '-' && DigitsValue(text[1..|text| - 1]) == -multiplier
  {
    var text := PayoutLabel(multiplier, coinProfit);
    if coinProfit > 0 {
      assert text[1..] == NatText(coinProfit);
      NatTextRoundTrip(coinProfit);
    } else if multiplier >= 0 {
      assert text[..|text| - 1] == NatText(multiplier);
      NatTextRoundTrip(multiplier);
    } else {
      assert text[1..|text| - 1] == NatText(-multiplier);
      NatTextRoundTrip(-multiplier);
    }
  }

  /** `calculate_award_money` for a wager, the three reel results and the
      current jackpot. */
  function CalculateAwardMoney(wager: int, r1: Symbol, r2: Symbol, r3: Symbol, jackpot: int): (a: Award)
    ensures a.money != 0 ==> r1.name == r2.name == r3.name
    ensures a.name == r1.name || a.name == "standard_lose" || a.name == "jackpot_fail"
    ensures a.name == "jackpot_fail" && r1.name != "jackpot_fail" ==> wager == 0 && r1.name == "jackpot" && a.money == 0
  {
    if !(r1.name == r2.name && r2.name == r3.name) then Award("standard_lose", "No win", 0)
    else if r1.name == "lose_wager" then Award("lose_wager", "Lose wager", 0)
    else if r1.name == "jackpot" then
      if wager == 0 then Award("jackpot_fail", "No Jackpot", 0) else Award("jackpot", "JACKPOT", jackpot)
    else Award(r1.name, PayoutLabel(r1.multiplier, r1.coinProfit), wager * r1.multiplier + r1.coinProfit)
  }

  /** The award table: mixed reels never pay; three "lose_wager" pay nothing;
      three "jackpot" pay the current jackpot unless the wager is zero; any
      other triple pays wager times its multiplier plus its coin profit. */
  lemma AwardTable(wager: int, r1: Symbol, r2: Symbol, r3: Symbol, jackpot: int)
    ensures var a := CalculateAwardMoney(wager, r1, r2, r3, jackpot);
      && (a.money != 0 ==> r1.name == r2.name == r3.name)
      && (r1.name != r2.name || r2.name != r3.name ==> a == Award("standard_lose", "No win", 0))
      && (r1.name == r2.name == r3.name == "lose_wager" ==> a.name == "lose_wager" && a.money == 0)
      && (r1.name == r2.name == r3.name == "jackpot" ==>
            if wager == 0 then a.name == "jackpot_fail" && a.money == 0
            else a.name == "jackpot" && a.money == jackpot)
      && (r1.name == r2.name == r3.name && r1.name != "lose_wager" && r1.name != "jackpot" ==>
            a.name == r1.name && a.money == wager * r1.multiplier + r1.coinProfit)
  {
  }

  /** With a multiplier that is not negative and a jackpot that is not
      negative, a larger wager never pays less for the same reels. */
  lemma AwardMonotoneInWager(w1: int, w2: int, r1: Symbol, r2: Symbol, r3: Symbol, jackpot: int)
    requires 0 <= w1 <= w2 && r1.multiplier >= 0 && jackpot >= 0
    ensures CalculateAwardMoney(w1, r1, r2, r3, jackpot).money <= CalculateAwardMoney(w2, r1, r2, r3, jackpot).money
  {
    assert w1 * r1.multiplier <= w2 * r1.multiplier by {
      assert (w2 - w1) * r1.multiplier >= 0;
    }
  }

  /** A symbol as the reel results carry it: its award settings by name. */
  function SymbolOf(config: Configuration, name: string): Symbol
    requires name in config.awards
  {
    Symbol(name, config.awards[name].multiplier, config.awards[name].coinProfit)
  }

  // ---------------------------------------------------------------------
  // The machine's state

  class SlotMachine {
    /** The configuration as `save_config` writes it back. */
    var configuration: Configuration
    /** The reels' symbol counts, edited in place by `/reels`. */
    var reels: map<string, map<string, int>>
    /** The jackpot a winning "jackpot" spin pays. */
    var jackpot: int

    /** The jackpot's seed: the jackpot award's coin profit. */
    function Seed(): int
      reads this
      requires "jackpot" in configuration.awards
    {
      configuration.awards["jackpot"].coinProfit
    }

    /** The jackpot award is configured and the jackpot never falls below its seed. */
    ghost predicate Valid()
      reads this
    {
      "jackpot" in configuration.awards && jackpot >= Seed()
    }

    /** `__init__` over a configuration that has a jackpot award: the reels
        as configured, the jackpot from `load_jackpot` (its seed). */
    constructor (config: Configuration)
      requires "jackpot" in config.awards
      ensures Valid()
      ensures configuration == config && reels == config.reels
      ensures jackpot == config.awards["jackpot"].coinProfit
    {
      configuration := config;
      reels := config.reels;
      jackpot := LoadJackpot(config).value;
    }

    /** The `jackpot` setter: the new value is kept and written to the
        configuration's "jackpot_amount". */
    method SetJackpot(value: int)
      modifies this`jackpot, this`configuration
      ensures jackpot == value
      ensures configuration == old(configuration).(jackpotAmount := value)
      ensures unchanged(this`reels)
    {
      jackpot := value;
      configuration := configuration.(jackpotAmount := value);
    }

    /** The `reels` setter: the new counts are kept and written to the
        configuration. */
    method SetReels(value: map<string, map<string, int>>)
      modifies this`reels, this`configuration
      ensures reels == value
      ensures configuration == old(configuration).(reels := value)
      ensures unchanged(this`jackpot)
    {
      reels := value;
      configuration := configuration.(reels := value);
    }
  }
}
