/** Per-channel checkpoint files: a bounded FIFO of the last message ids seen
    in a channel (class ChannelCheckpoints of bot.py). The file holds one
    `{"last_message_id": id}` line per entry; the model keeps the ids, oldest
    first, and `None` while the file does not exist. */
module Checkpoints {
  import opened Wrappers

  /** The entries of a checkpoints file; a missing file reads as no lines. */
  function Lines(file: Option<seq<int>>): seq<int>
  {
    if file.None? then [] else file.value
  }

  /** What is left of `s` once the oldest entries have been evicted until at
      most `cap` remain: the newest `cap` entries, in their original order. */
  function Retained(s: seq<int>, cap: int): (r: seq<int>)
    ensures |r| == (if cap <= 0 then 0 else Min(|s|, cap))
    ensures r == s[|s| - |r|..]
    decreases |s|
  {
    if |s| <= cap || s == [] then s else Retained(s[1..], cap)
  }

  /** `load`: reads the checkpoints back. The source returns from inside its
      read loop, so only the first (oldest) entry ever comes back, and a
      missing or empty file gives `None`. */
  function Load(file: Option<seq<int>>): (r: Option<seq<int>>)
    ensures r.None? <==> Lines(file) == []
    ensures r.Some? ==> r.value == [Lines(file)[0]]
  {
    if file.None? || file.value == [] then None else Some([file.value[0]])
  }

  /** `load` as evidently intended: every entry, oldest first, and `None`
      for a missing or empty file as the source already answers (a plain
      move of the `return` after the loop would give an empty list for an
      empty file instead, which callers treat differently). */
  function LoadAll(file: Option<seq<int>>): (r: Option<seq<int>>)
    ensures r.None? <==> Lines(file) == []
    ensures r.Some? ==> r.value == Lines(file)
  {
    if file.None? || file.value == [] then None else Some(file.value)
  }

  /** Saving into a buffer of capacity two or more that already holds an
      entry and is not full: `Load` then still answers with the oldest entry
      alone, so the id just saved is not what comes back, while `LoadAll`
      returns every entry. */
  lemma LoadMissesNewest(file: Option<seq<int>>, messageId: int, number: int)
    requires 1 <= |Lines(file)| < number
    requires Lines(file)[0] != messageId
    ensures var after := Some(Retained(Lines(file) + [messageId], number));
      Load(after) == Some([Lines(file)[0]]) &&
      messageId !in Load(after).value &&
      LoadAll(after) == Some(Lines(file) + [messageId])
  {
  }

  /** With the corrected `LoadAll`, what `Save` stores reads back in full:
      the newest `number` ids, ending with the id just saved. */
  lemma SaveThenLoadAll(file: Option<seq<int>>, messageId: int, number: int)
    requires number >= 1
    ensures var kept := Retained(Lines(file) + [messageId], number);
      LoadAll(Some(kept)) == Some(kept) &&
      |kept| == Min(|Lines(file)| + 1, number) &&
      kept[|kept| - 1] == messageId
  {
    var s := Lines(file) + [messageId];
    var kept := Retained(s, number);
    assert kept == s[|s| - |kept|..];
    assert kept[|kept| - 1] == s[|s| - 1];
  }

  class ChannelCheckpoints {
    /** Capacity: the most entries the file keeps. */
    const number: int
    /** The checkpoints file, `None` while it does not exist. */
    var file: Option<seq<int>>
    /** The line count the object last computed (not always |file|: it can
        drop below zero when `number` is negative). */
    var entryCount: int
    /** What `load` returned when the object was built. */
    var lastMessageIds: Option<seq<int>>

    /** Opens the checkpoints of one channel over whatever file is already there. */
    constructor (file: Option<seq<int>>, number: int := 10)
      ensures this.number == number && this.file == file
      ensures entryCount == |Lines(file)|
      ensures lastMessageIds == Load(file)
    {
      this.number := number;
      this.file := file;
      entryCount := |Lines(file)|;
      new;
      lastMessageIds := Load(file);
    }

    /** Records `messageId` as the newest entry, then evicts from the front
        until at most `number` entries remain. */
    method Save(messageId: int)
      modifies this`file, this`entryCount
      ensures file == Some(Retained(Lines(old(file)) + [messageId], number))
      ensures entryCount == Min(|Lines(old(file))| + 1, number)
    {
      if file.None? {
        file := Some([]);
      }
      entryCount := |file.value|;
      file := Some(file.value + [messageId]);
      entryCount := entryCount + 1;
      ghost var appended := file.value;
      while entryCount > number
        invariant file.Some?
        invariant entryCount <= |appended|
        invariant entryCount < |appended| ==> number <= entryCount
        invariant file.value == if entryCount <= 0 then [] else appended[|appended| - entryCount..]
        decreases entryCount - number
      {
        RemoveFirstLine();
        entryCount := entryCount - 1;
      }
      ghost var kept := Retained(appended, number);
      assert |kept| == (if entryCount <= 0 then 0 else entryCount);
      assert file.value == kept;
    }

    /** Rewrites the file without its first line (an empty file stays empty). */
    method RemoveFirstLine()
      requires file.Some?
      modifies this`file
      ensures file == Some(if old(file.value) == [] then [] else old(file.value)[1..])
    {
      var lines := file.value;
      file := Some(if lines == [] then [] else lines[1..]);
    }
  }
}
