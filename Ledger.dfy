/** The bot's glue to the ledger: the payload shape it submits
    (blockchain/sbchain_type_aliases.py), `add_block_transaction`, the
    balance guard of `/transfer` and coin mining in `process_reaction`.
    The ledger engine itself (sealing, validation, balances) is not part of
    this model: it is seen only through the submissions it receives. */
module Ledger {
  import opened Wrappers

  /** TransactionDict: pseudonymous sender and receiver, amount, cause. */
  datatype TransactionRecord = TransactionRecord(sender: string, receiver: string, amount: int, cause: string)

  /** One entry of a block's `data`: a free-form note or `{"transaction": ...}`. */
  datatype Entry = Note(text: string) | Transaction(transaction: TransactionRecord)

  /** One call of `add_block`: the payload and the difficulty asked for. */
  datatype Submission = Submission(data: seq<Entry>, difficulty: int)

  /** The shared ledger instance, seen as the append-only log of what was
      submitted to it. */
  class Chain {
    var submitted: seq<Submission>

    constructor ()
      ensures submitted == []
    {
      submitted := [];
    }

    /** `add_block`: the engine seals the payload into a new block. */
    method AddBlock(data: seq<Entry>, difficulty: int)
      modifies this
      ensures submitted == old(submitted) + [Submission(data, difficulty)]
    {
      submitted := submitted + [Submission(data, difficulty)];
    }
  }

  // ---------------------------------------------------------------------
  // Reference balance: received minus sent over every transaction entry,
  // the quantity the ledger's balance query reports.

  function EntryDelta(e: Entry, who: string): int
  {
    match e
    case Note(_) => 0
    case Transaction(t) =>
      (if t.receiver == who then t.amount else 0) - (if t.sender == who then t.amount else 0)
  }

  function DataDelta(data: seq<Entry>, who: string): int
  {
    if data == [] then 0 else EntryDelta(data[0], who) + DataDelta(data[1..], who)
  }

  /** Replays the log from the first submission to the last. */
  function Replay(log: seq<Submission>, who: string): int
  {
    if log == [] then 0 else DataDelta(log[0].data, who) + Replay(log[1..], who)
  }

  /** Appending a submission moves every balance by exactly what its payload says. */
  lemma {:induction false} ReplayAppend(log: seq<Submission>, s: Submission, who: string)
    ensures Replay(log + [s], who) == Replay(log, who) + DataDelta(s.data, who)
  {
    if log == [] {
      assert [] + [s] == [s];
      assert [s][1..] == [];
    } else {
      assert (log + [s])[1..] == log[1..] + [s];
      ReplayAppend(log[1..], s, who);
    }
  }

  // ---------------------------------------------------------------------
  // add_block_transaction

  /** The single-entry payload of one transaction: both parties pass through
      the identity hash (`sha256` of the decimal id, supplied here as
      `idHash`), so no raw account id enters the ledger. */
  function TransactionData(idHash: int -> string, senderId: int, receiverId: int,
                           amount: int, cause: string): (data: seq<Entry>)
    ensures |data| == 1 && data[0].Transaction?
    ensures data[0].transaction.sender == idHash(senderId)
    ensures data[0].transaction.receiver == idHash(receiverId)
    ensures data[0].transaction.amount == amount && data[0].transaction.cause == cause
  {
    [Transaction(TransactionRecord(idHash(senderId), idHash(receiverId), amount, cause))]
  }

  /** A transaction payload moves `amount` from the sender's pseudonym to the
      receiver's and leaves every other pseudonym where it was; a transfer to
      oneself changes nothing. */
  lemma TransactionMovesAmount(idHash: int -> string, senderId: int, receiverId: int,
                               amount: int, cause: string, who: string)
    ensures DataDelta(TransactionData(idHash, senderId, receiverId, amount, cause), who) ==
      (if who == idHash(receiverId) then amount else 0) - (if who == idHash(senderId) then amount else 0)
    ensures idHash(senderId) == idHash(receiverId) ==>
      DataDelta(TransactionData(idHash, senderId, receiverId, amount, cause), who) == 0
  {
    var data := TransactionData(idHash, senderId, receiverId, amount, cause);
    assert data[1..] == [];
  }

  /** `add_block_transaction`: submits exactly one transaction entry, at
      difficulty 0. */
  method AddBlockTransaction(chain: Chain, idHash: int -> string, senderId: int, receiverId: int,
                             amount: int, cause: string)
    modifies chain
    ensures chain.submitted ==
      old(chain.submitted) + [Submission(TransactionData(idHash, senderId, receiverId, amount, cause), 0)]
    ensures forall who ::
              Replay(chain.submitted, who) == old(Replay(chain.submitted, who)) +
                (if who == idHash(receiverId) then amount else 0) - (if who == idHash(senderId) then amount else 0)
  {
    var data := [Transaction(TransactionRecord(idHash(senderId), idHash(receiverId), amount, cause))];
    chain.AddBlock(data, 0);
    forall who
      ensures Replay(chain.submitted, who) == old(Replay(chain.submitted, who)) +
        (if who == idHash(receiverId) then amount else 0) - (if who == idHash(senderId) then amount else 0)
    {
      ReplayAppend(old(chain.submitted), Submission(data, 0), who);
      TransactionMovesAmount(idHash, senderId, receiverId, amount, cause, who);
    }
  }

  // ---------------------------------------------------------------------
  // /transfer

  /** The guard of `/transfer`: the ledger knows a balance for the sender and
      it covers the amount. Nothing else is checked. */
  function TransferAllowed(balance: Option<int>, amount: int): (ok: bool)
    ensures balance.None? ==> !ok
    ensures ok && amount >= 0 ==> balance.value - amount >= 0
    ensures balance.Some? && balance.value >= 0 && amount < 0 ==> ok
  {
    balance.Some? && amount <= balance.value
  }

  /** `/transfer`: submits a "transfer" transaction when the guard passes,
      and nothing otherwise. `balance` is what the ledger's balance query
      answered (`None` also when the query failed). */
  method Transfer(chain: Chain, idHash: int -> string, senderId: int, receiverId: int,
                  amount: int, balance: Option<int>) returns (sent: bool)
    modifies chain
    ensures sent <==> TransferAllowed(balance, amount)
    ensures sent <==> balance.Some? && balance.value >= amount
    ensures chain.submitted == old(chain.submitted) +
      (if sent then [Submission(TransactionData(idHash, senderId, receiverId, amount, "transfer"), 0)] else [])
  {
    if !TransferAllowed(balance, amount) {
      return false;
    }
    AddBlockTransaction(chain, idHash, senderId, receiverId, amount, "transfer");
    sent := true;
  }

  /** When the guard is fed the sender's true balance and the amount is not
      negative, a transfer never leaves the sender below zero and never takes
      anything from the receiver. */
  lemma TransferKeepsBalancesSound(log: seq<Submission>, idHash: int -> string, senderId: int,
                                   receiverId: int, amount: int)
    requires 0 <= amount
    requires TransferAllowed(Some(Replay(log, idHash(senderId))), amount)
    ensures var after := log + [Submission(TransactionData(idHash, senderId, receiverId, amount, "transfer"), 0)];
      Replay(after, idHash(senderId)) >= 0
    ensures var after := log + [Submission(TransactionData(idHash, senderId, receiverId, amount, "transfer"), 0)];
      Replay(after, idHash(receiverId)) >= Replay(log, idHash(receiverId))
  {
    var s := Submission(TransactionData(idHash, senderId, receiverId, amount, "transfer"), 0);
    ReplayAppend(log, s, idHash(senderId));
    ReplayAppend(log, s, idHash(receiverId));
    TransactionMovesAmount(idHash, senderId, receiverId, amount, "transfer", idHash(senderId));
    TransactionMovesAmount(idHash, senderId, receiverId, amount, "transfer", idHash(receiverId));
  }

  /** As written, the guard lets any negative amount through (it never
      exceeds a balance that is zero or more), and the submitted transaction
      then takes coins from the receiver. */
  lemma NegativeTransferDrainsReceiver(log: seq<Submission>, idHash: int -> string, senderId: int,
                                       receiverId: int, amount: int)
    requires amount < 0 && Replay(log, idHash(senderId)) >= 0
    requires idHash(senderId) != idHash(receiverId)
    ensures TransferAllowed(Some(Replay(log, idHash(senderId))), amount)
    ensures var after := log + [Submission(TransactionData(idHash, senderId, receiverId, amount, "transfer"), 0)];
      Replay(after, idHash(receiverId)) == Replay(log, idHash(receiverId)) + amount
  {
    var s := Submission(TransactionData(idHash, senderId, receiverId, amount, "transfer"), 0);
    ReplayAppend(log, s, idHash(receiverId));
    TransactionMovesAmount(idHash, senderId, receiverId, amount, "transfer", idHash(receiverId));
  }

  /** The guard as evidently intended: a known balance and an amount that is
      neither negative nor above it. */
  function TransferAllowedChecked(balance: Option<int>, amount: int): (ok: bool)
    ensures ok ==> TransferAllowed(balance, amount)
  {
    balance.Some? && 0 <= amount <= balance.value
  }

  /** Under the corrected guard, fed the sender's true balance, the receiver
      never loses coins and a sender that was solvent stays solvent. */
  lemma TransferCheckedIsSafe(log: seq<Submission>, idHash: int -> string, senderId: int,
                              receiverId: int, amount: int)
    requires TransferAllowedChecked(Some(Replay(log, idHash(senderId))), amount)
    ensures var after := log + [Submission(TransactionData(idHash, senderId, receiverId, amount, "transfer"), 0)];
      Replay(after, idHash(receiverId)) >= Replay(log, idHash(receiverId)) &&
      Replay(after, idHash(senderId)) >= 0
  {
    TransferKeepsBalancesSound(log, idHash, senderId, receiverId, amount);
  }

  // ---------------------------------------------------------------------
  // process_reaction

  /** The emoji a reaction carries: a guild emoji, a partial emoji (custom
      when it has an id) or a plain Unicode string. */
  datatype Emoji = Custom(id: int) | Partial(partialId: Option<int>) | Unicode(text: string)

  /** The id of the user who is credited with a mined coin, if the reaction
      mines one: the emoji must be custom with id `coinEmojiId`, and the
      receiver is the given member or, failing that, the user fetched by
      `receiverId`. */
  function MiningReceiver(emoji: Emoji, coinEmojiId: int, receiver: Option<int>,
                          receiverId: Option<int>): (credited: Option<int>)
    ensures credited.Some? ==> emoji == Custom(coinEmojiId) || emoji == Partial(Some(coinEmojiId))
    ensures credited.Some? ==> credited == receiver || credited == receiverId
    ensures emoji.Unicode? ==> credited.None?
  {
    var emojiId: Option<int> :=
      match emoji
      case Custom(id) => Some(id)
      case Partial(pid) => pid
      case Unicode(_) => None;
    if emojiId.None? || emojiId.value != coinEmojiId then None
    else if receiver.Some? then receiver
    else receiverId
  }

  /** A reaction mines exactly when its emoji is the coin emoji and a
      receiver is known; the coin goes to the member when given, else to
      `receiverId`. */
  lemma MiningReceiverIff(emoji: Emoji, coinEmojiId: int, receiver: Option<int>, receiverId: Option<int>)
    ensures MiningReceiver(emoji, coinEmojiId, receiver, receiverId).Some? <==>
      (emoji == Custom(coinEmojiId) || emoji == Partial(Some(coinEmojiId))) &&
      (receiver.Some? || receiverId.Some?)
    ensures MiningReceiver(emoji, coinEmojiId, receiver, receiverId).Some? ==>
      MiningReceiver(emoji, coinEmojiId, receiver, receiverId) == (if receiver.Some? then receiver else receiverId)
  {
  }

  /** `process_reaction`: a coin-emoji reaction submits one "reaction"
      transaction of amount 1 from the reacting user to the receiver;
      any other reaction submits nothing. */
  method ProcessReaction(chain: Chain, idHash: int -> string, emoji: Emoji, coinEmojiId: int,
                         senderId: int, receiver: Option<int>, receiverId: Option<int>)
    returns (mined: bool)
    modifies chain
    ensures mined <==> MiningReceiver(emoji, coinEmojiId, receiver, receiverId).Some?
    ensures chain.submitted == old(chain.submitted) +
      (if mined
       then [Submission(TransactionData(idHash, senderId,
                MiningReceiver(emoji, coinEmojiId, receiver, receiverId).value, 1, "reaction"), 0)]
       else [])
  {
    var credited := MiningReceiver(emoji, coinEmojiId, receiver, receiverId);
    if credited.None? {
      return false;
    }
    AddBlockTransaction(chain, idHash, senderId, credited.value, 1, "reaction");
    mined := true;
  }
}
