/** The `/reels` command of bot.py: slot machine technicians add or remove
    symbols on the reels, in place on the machine's symbol counts. The role
    check on the invoker is the input `permitted`; the report it prints
    afterwards is not modelled. */
module Reels {
  import opened Wrappers
  import opened SlotMachine

  /** A string option as Python tests it in a condition: given and non-empty. */
  predicate Truthy(o: Option<string>)
  {
    o.Some? && o.value != ""
  }

  /** Python's `int(n / 3)`: the quotient truncated toward zero. */
  function TruncDiv3(n: int): (q: int)
    ensures n >= 0 ==> 0 <= n - 3 * q < 3
    ensures n < 0 ==> 0 <= 3 * q - n < 3
    ensures n % 3 == 0 ==> 3 * q == n
  {
    if n >= 0 then n / 3 else -((-n) / 3)
  }

  /** One invocation of `/reels`. */
  datatype Request = Request(
    permitted: bool,               // the invoker holds "Administrator" or "Slot Machine Technician"
    addSymbol: Option<string>,
    removeSymbol: Option<string>,
    amount: Option<int>,
    reel: Option<string>)

  /** How the command ends: refused before any change, or saved, or stopped
      by a KeyError part-way (the changes made so far stay in memory). */
  datatype Outcome = NotPermitted | BothSymbols | NotMultipleOfThree | Saved | KeyFault

  datatype EditResult = EditResult(outcome: Outcome, reels: map<string, map<string, int>>)

  /** The amount when none is given: 3 without a reel, 1 with one. */
  function DefaultAmount(amount: Option<int>, reel: Option<string>): (n: int)
    ensures amount.Some? ==> n == amount.value
    ensures amount.None? ==> n == (if reel.None? then 3 else 1) && n % 3 == (if reel.None? then 0 else 1)
  {
    if amount.Some? then amount.value else if reel.None? then 3 else 1
  }

  /** `delta` added to one cell if that reel has that symbol (the source
      prints an error and goes on otherwise). */
  function AddIfPresent(reels: map<string, map<string, int>>, reel: string, symbol: string, delta: int)
    : map<string, map<string, int>>
  {
    if reel in reels && symbol in reels[reel] then AddToCell(reels, reel, symbol, delta) else reels
  }

  /** The three `new_reels[r][symbol] += delta` lines for reels "1", "2",
      "3", once `symbol in reels['1']` has been checked: a reel without the
      symbol raises a KeyError after the earlier reels were changed. */
  function AddToMainReels(reels: map<string, map<string, int>>, symbol: string, delta: int): EditResult
    requires "1" in reels && symbol in reels["1"]
  {
    var afterFirst := AddToCell(reels, "1", symbol, delta);
    if "2" !in afterFirst || symbol !in afterFirst["2"] then EditResult(KeyFault, afterFirst)
    else
      var afterSecond := AddToCell(afterFirst, "2", symbol, delta);
      if "3" !in afterSecond || symbol !in afterSecond["3"] then EditResult(KeyFault, afterSecond)
      else EditResult(Saved, AddToCell(afterSecond, "3", symbol, delta))
  }

  /** The per-reel step of adding or removing without a reel: a KeyError
      when there is no reel "1", nothing when reel "1" lacks the symbol. */
  function SpreadOverReels(reels: map<string, map<string, int>>, symbol: string, delta: int): EditResult
  {
    if "1" !in reels then EditResult(KeyFault, reels)
    else if symbol !in reels["1"] then EditResult(Saved, reels)
    else AddToMainReels(reels, symbol, delta)
  }

  /** The effect of `/reels` on the symbol counts, branch by branch as the
      handler runs. */
  function Edit(reels: map<string, map<string, int>>, req: Request): (e: EditResult)
    ensures e.outcome == NotPermitted <==> !req.permitted
    ensures e.outcome in {NotPermitted, BothSymbols, NotMultipleOfThree} ==> e.reels == reels
    ensures e.reels.Keys == reels.Keys
    ensures !Truthy(req.addSymbol) && !Truthy(req.removeSymbol) ==> e == EditResult(if req.permitted then Saved else NotPermitted, reels)
  {
    var amount := DefaultAmount(req.amount, req.reel);
    if !req.permitted then EditResult(NotPermitted, reels)
    else if Truthy(req.addSymbol) && Truthy(req.removeSymbol) then EditResult(BothSymbols, reels)
    else if Truthy(req.addSymbol) then
      if req.reel.None? && amount % 3 != 0 then EditResult(NotMultipleOfThree, reels)
      else
        var first := if Truthy(req.reel) then AddIfPresent(reels, req.reel.value, req.addSymbol.value, amount)
                     else reels;
        SpreadOverReels(first, req.addSymbol.value, TruncDiv3(amount))
    else if Truthy(req.removeSymbol) then
      if Truthy(req.reel) then EditResult(Saved, AddIfPresent(reels, req.reel.value, req.removeSymbol.value, -amount))
      else SpreadOverReels(reels, req.removeSymbol.value, -TruncDiv3(amount))
    else EditResult(Saved, reels)
  }

  // ---------------------------------------------------------------------
  // What an edit does, stated cell by cell.

  /** Three reels "1", "2" and "3" carrying the same symbols, as the default
      configuration has them. */
  predicate WellFormed(reels: map<string, map<string, int>>)
  {
    "1" in reels && "2" in reels && "3" in reels &&
    reels["1"].Keys == reels["2"].Keys && reels["2"].Keys == reels["3"].Keys
  }

  /** The reels `create_config` writes are well formed, so the lemmas below
      apply to a machine that has only ever been edited by `/reels`. */
  lemma DefaultReelsWellFormed()
    ensures WellFormed(DefaultConfiguration().reels)
  {
  }

  predicate SameShape(a: map<string, map<string, int>>, b: map<string, map<string, int>>)
  {
    a.Keys == b.Keys && forall k :: k in a ==> a[k].Keys == b[k].Keys
  }

  function IsMainReel(k: string): bool
  {
    k == "1" || k == "2" || k == "3"
  }

  /** The change `/reels` makes to the count of `symbol` on `reel`, stated
      directly: refusals change nothing; adding with a reel adds the amount
      there and then a third of it to each of reels 1-3; adding without one
      adds a third of it to each of reels 1-3; removing with a reel takes
      the amount from that reel only; removing without one takes a third of
      it from each of reels 1-3. */
  function CellDelta(req: Request, reel: string, symbol: string): int
  {
    var amount := DefaultAmount(req.amount, req.reel);
    var third := TruncDiv3(amount);
    if !req.permitted || (Truthy(req.addSymbol) && Truthy(req.removeSymbol)) then 0
    else if Truthy(req.addSymbol) then
      if req.reel.None? && amount % 3 != 0 then 0
      else (if Truthy(req.reel) && reel == req.reel.value && symbol == req.addSymbol.value then amount else 0) +
           (if IsMainReel(reel) && symbol == req.addSymbol.value then third else 0)
    else if Truthy(req.removeSymbol) then
      if Truthy(req.reel) then (if reel == req.reel.value && symbol == req.removeSymbol.value then -amount else 0)
      else if IsMainReel(reel) && symbol == req.removeSymbol.value then -third else 0
    else 0
  }

  lemma AddToCellShape(reels: map<string, map<string, int>>, reel: string, symbol: string, delta: int)
    requires reel in reels && symbol in reels[reel]
    ensures SameShape(AddToCell(reels, reel, symbol, delta), reels)
    ensures WellFormed(reels) ==> WellFormed(AddToCell(reels, reel, symbol, delta))
    ensures forall k, s :: k in reels && s in reels[k] ==>
      AddToCell(reels, reel, symbol, delta)[k][s] == reels[k][s] + (if k == reel && s == symbol then delta else 0)
  {
  }

  /** On well-formed reels the per-reel step never faults and adds `delta`
      to `symbol` on reels 1-3 (when reel 1 has it), and to nothing else. */
  lemma SpreadCells(reels: map<string, map<string, int>>, symbol: string, delta: int)
    requires WellFormed(reels)
    ensures SpreadOverReels(reels, symbol, delta).outcome == Saved
    ensures SameShape(SpreadOverReels(reels, symbol, delta).reels, reels)
    ensures WellFormed(SpreadOverReels(reels, symbol, delta).reels)
    ensures forall k, s :: k in reels && s in reels[k] ==>
      SpreadOverReels(reels, symbol, delta).reels[k][s] ==
        reels[k][s] + (if IsMainReel(k) && s == symbol then delta else 0)
  {
    if symbol in reels["1"] {
      var r1 := AddToCell(reels, "1", symbol, delta);
      AddToCellShape(reels, "1", symbol, delta);
      var r2 := AddToCell(r1, "2", symbol, delta);
      AddToCellShape(r1, "2", symbol, delta);
      AddToCellShape(r2, "3", symbol, delta);
    }
  }

  /** Adding on well-formed reels: the named reel's cell (if any) gains the
      amount, then reels 1-3 gain a third of it each. */
  lemma EditAddCells(reels: map<string, map<string, int>>, req: Request)
    requires WellFormed(reels) && req.permitted && Truthy(req.addSymbol) && !Truthy(req.removeSymbol)
    requires !(req.reel.None? && DefaultAmount(req.amount, req.reel) % 3 != 0)
    ensures Edit(reels, req).outcome == Saved
    ensures SameShape(Edit(reels, req).reels, reels)
    ensures forall k, s :: k in reels && s in reels[k] ==>
      Edit(reels, req).reels[k][s] == reels[k][s] + CellDelta(req, k, s)
  {
    var amount := DefaultAmount(req.amount, req.reel);
    var symbol := req.addSymbol.value;
    var first := if Truthy(req.reel) then AddIfPresent(reels, req.reel.value, symbol, amount) else reels;
    if Truthy(req.reel) && req.reel.value in reels && symbol in reels[req.reel.value] {
      AddToCellShape(reels, req.reel.value, symbol, amount);
    }
    assert SameShape(first, reels) && WellFormed(first);
    assert forall k, s :: k in reels && s in reels[k] ==>
      first[k][s] == reels[k][s] + (if Truthy(req.reel) && k == req.reel.value && s == symbol then amount else 0);
    SpreadCells(first, symbol, TruncDiv3(amount));
    assert Edit(reels, req) == SpreadOverReels(first, symbol, TruncDiv3(amount));
  }

  /** Removing with a reel on well-formed reels: that reel's cell loses the
      amount and nothing else changes. */
  lemma EditRemoveAtReel(reels: map<string, map<string, int>>, req: Request)
    requires WellFormed(reels) && req.permitted && !Truthy(req.addSymbol) && Truthy(req.removeSymbol)
    requires Truthy(req.reel)
    ensures Edit(reels, req).outcome == Saved
    ensures SameShape(Edit(reels, req).reels, reels)
    ensures forall k, s :: k in reels && s in reels[k] ==>
      Edit(reels, req).reels[k][s] == reels[k][s] + CellDelta(req, k, s)
  {
    var amount := DefaultAmount(req.amount, req.reel);
    var reel, symbol := req.reel.value, req.removeSymbol.value;
    var after := AddIfPresent(reels, reel, symbol, -amount);
    assert Edit(reels, req) == EditResult(Saved, after);
    if reel in reels && symbol in reels[reel] {
      AddToCellShape(reels, reel, symbol, -amount);
    }
    assert forall k, s :: k in reels && s in reels[k] ==>
      after[k][s] == reels[k][s] + (if k == reel && s == symbol then -amount else 0);
    assert forall k, s :: CellDelta(req, k, s) == (if k == reel && s == symbol then -amount else 0);
  }

  lemma RemoveWithoutReelSpreads(reels: map<string, map<string, int>>, req: Request)
    requires req.permitted && !Truthy(req.addSymbol) && Truthy(req.removeSymbol) && !Truthy(req.reel)
    ensures Edit(reels, req) ==
      SpreadOverReels(reels, req.removeSymbol.value, -TruncDiv3(DefaultAmount(req.amount, req.reel)))
    ensures forall k, s ::
              CellDelta(req, k, s) ==
                (if IsMainReel(k) && s == req.removeSymbol.value then -TruncDiv3(DefaultAmount(req.amount, req.reel)) else 0)
  {
  }

  /** Removing without a reel on well-formed reels: reels 1-3 each lose a
      third of the amount. */
  lemma EditRemoveSpread(reels: map<string, map<string, int>>, req: Request)
    requires WellFormed(reels) && req.permitted && !Truthy(req.addSymbol) && Truthy(req.removeSymbol)
    requires !Truthy(req.reel)
    ensures Edit(reels, req).outcome == Saved
    ensures SameShape(Edit(reels, req).reels, reels)
    ensures forall k, s :: k in reels && s in reels[k] ==>
      Edit(reels, req).reels[k][s] == reels[k][s] + CellDelta(req, k, s)
  {
    var d := -TruncDiv3(DefaultAmount(req.amount, req.reel));
    var symbol := req.removeSymbol.value;
    var spread := SpreadOverReels(reels, symbol, d);
    RemoveWithoutReelSpreads(reels, req);
    assert Edit(reels, req) == spread;
    SpreadCells(reels, symbol, d);
    assert spread.outcome == Saved;
    assert SameShape(spread.reels, reels);
    forall k, s | k in reels && s in reels[k]
      ensures spread.reels[k][s] == reels[k][s] + CellDelta(req, k, s)
    {
      assert spread.reels[k][s] == reels[k][s] + (if IsMainReel(k) && s == symbol then d else 0);
      assert CellDelta(req, k, s) == (if IsMainReel(k) && s == symbol then d else 0);
    }
  }

  /** Every edit of well-formed reels ends in a refusal or a save, keeps the
      reels and their symbols as they were, and changes each count by
      exactly `CellDelta`. */
  lemma EditCells(reels: map<string, map<string, int>>, req: Request)
    requires WellFormed(reels)
    ensures Edit(reels, req).outcome != KeyFault
    ensures SameShape(Edit(reels, req).reels, reels)
    ensures forall k, s :: k in reels && s in reels[k] ==>
      Edit(reels, req).reels[k][s] == reels[k][s] + CellDelta(req, k, s)
  {
    var amount := DefaultAmount(req.amount, req.reel);
    if !req.permitted || (Truthy(req.addSymbol) && Truthy(req.removeSymbol)) {
    } else if Truthy(req.addSymbol) {
      if !(req.reel.None? && amount % 3 != 0) {
        EditAddCells(reels, req);
      }
    } else if Truthy(req.removeSymbol) {
      if Truthy(req.reel) {
        EditRemoveAtReel(reels, req);
      } else {
        EditRemoveSpread(reels, req);
      }
    }
  }

  /** Refusals: exactly when the invoker lacks the role, when both symbols
      are given, or when adding without a reel an amount that is not a
      multiple of 3; and then nothing changes. */
  lemma EditRefusals(reels: map<string, map<string, int>>, req: Request)
    ensures var e := Edit(reels, req);
      (e.outcome == NotPermitted <==> !req.permitted) &&
      (e.outcome == BothSymbols <==> req.permitted && Truthy(req.addSymbol) && Truthy(req.removeSymbol)) &&
      (e.outcome == NotMultipleOfThree <==>
         req.permitted && Truthy(req.addSymbol) && !Truthy(req.removeSymbol) && req.reel.None? &&
         DefaultAmount(req.amount, req.reel) % 3 != 0)
    ensures var e := Edit(reels, req);
      e.outcome in {NotPermitted, BothSymbols, NotMultipleOfThree} ==> e.reels == reels
  {
  }

  /** Adding without a reel on well-formed reels that carry the symbol adds
      exactly the requested amount to the machine's symbol count. */
  lemma AddWithoutReelAddsAmount(reels: map<string, map<string, int>>, req: Request)
    requires WellFormed(reels) && req.permitted && req.reel.None?
    requires Truthy(req.addSymbol) && !Truthy(req.removeSymbol) && req.addSymbol.value in reels["1"]
    requires DefaultAmount(req.amount, req.reel) % 3 == 0
    ensures Edit(reels, req).outcome == Saved
    ensures CountSymbols(Edit(reels, req).reels, None) == CountSymbols(reels, None) + DefaultAmount(req.amount, req.reel)
  {
    var symbol := req.addSymbol.value;
    var third := TruncDiv3(DefaultAmount(req.amount, req.reel));
    var r1 := AddToCell(reels, "1", symbol, third);
    CountSymbolsAfterAdd(reels, "1", symbol, third, "1");
    AddToCellShape(reels, "1", symbol, third);
    var r2 := AddToCell(r1, "2", symbol, third);
    CountSymbolsAfterAdd(r1, "2", symbol, third, "2");
    AddToCellShape(r1, "2", symbol, third);
    CountSymbolsAfterAdd(r2, "3", symbol, third, "3");
  }

  // ---------------------------------------------------------------------
  // The command, in place on the machine.

  /** The `+=` on reels "1", "2", "3" in turn; a KeyError (`fault`) leaves
      the reels changed so far. */
  method AddOnMainReels(machine: SlotMachine, symbol: string, delta: int) returns (fault: bool)
    requires "1" in machine.reels && symbol in machine.reels["1"]
    modifies machine`reels
    ensures fault == (AddToMainReels(old(machine.reels), symbol, delta).outcome == KeyFault)
    ensures machine.reels == AddToMainReels(old(machine.reels), symbol, delta).reels
  {
    machine.reels := machine.reels["1" := machine.reels["1"][symbol := machine.reels["1"][symbol] + delta]];
    if "2" !in machine.reels || symbol !in machine.reels["2"] {
      return true;
    }
    machine.reels := machine.reels["2" := machine.reels["2"][symbol := machine.reels["2"][symbol] + delta]];
    if "3" !in machine.reels || symbol !in machine.reels["3"] {
      return true;
    }
    machine.reels := machine.reels["3" := machine.reels["3"][symbol := machine.reels["3"][symbol] + delta]];
    fault := false;
  }

  /** `/reels`: applies the request to the machine's reels in place and
      saves them through the `reels` setter, unless it was refused or a
      KeyError stopped it. */
  method EditReels(machine: SlotMachine, req: Request) returns (outcome: Outcome)
    modifies machine`reels, machine`configuration
    ensures outcome == Edit(old(machine.reels), req).outcome
    ensures machine.reels == Edit(old(machine.reels), req).reels
    ensures machine.configuration ==
      if outcome == Saved then old(machine.configuration).(reels := machine.reels) else old(machine.configuration)
    ensures unchanged(machine`jackpot)
  {
    if !req.permitted {
      return NotPermitted;
    }
    var amount := DefaultAmount(req.amount, req.reel);
    if Truthy(req.addSymbol) && Truthy(req.removeSymbol) {
      return BothSymbols;
    }
    if Truthy(req.addSymbol) && req.reel.None? {
      if amount % 3 != 0 {
        return NotMultipleOfThree;
      }
    } else if Truthy(req.addSymbol) && Truthy(req.reel) {
      var reel, symbol := req.reel.value, req.addSymbol.value;
      if reel in machine.reels && symbol in machine.reels[reel] {
        machine.reels := machine.reels[reel := machine.reels[reel][symbol := machine.reels[reel][symbol] + amount]];
      }
    }
    if Truthy(req.addSymbol) {
      var symbol := req.addSymbol.value;
      if "1" !in machine.reels {
        return KeyFault;
      }
      if symbol in machine.reels["1"] {
        var fault := AddOnMainReels(machine, symbol, TruncDiv3(amount));
        if fault {
          return KeyFault;
        }
      }
    } else if Truthy(req.removeSymbol) && Truthy(req.reel) {
      var reel, symbol := req.reel.value, req.removeSymbol.value;
      if reel in machine.reels && symbol in machine.reels[reel] {
        machine.reels := machine.reels[reel := machine.reels[reel][symbol := machine.reels[reel][symbol] - amount]];
      }
    } else if Truthy(req.removeSymbol) {
      var symbol := req.removeSymbol.value;
      if "1" !in machine.reels {
        return KeyFault;
      }
      if symbol in machine.reels["1"] {
        var fault := AddOnMainReels(machine, symbol, -TruncDiv3(amount));
        if fault {
          return KeyFault;
        }
      }
    }
    machine.SetReels(machine.reels);
    outcome := Saved;
  }
}
