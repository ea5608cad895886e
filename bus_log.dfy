/** The writes the driver issues on the bus, in the order it issues them,
    and what the log says about each register: its history of written bytes
    and the newest of them. This is the driver's side only: the effect of a
    reset on the chip's registers is not modelled, and the driver never
    reads a register back. */
module BusLog {
  import opened Bits
  import opened Encoding

  /** One register write: a register and the byte written to it. */
  datatype Write = Write(reg: Register, value: byte)

  datatype Option<T> = None | Some(value: T)

  /** The write `reset` issues. */
  function ResetWrite(): (w: Write)
    ensures w.reg == SystemReset && Bit7(w.value) && Low7(w.value) == 1
  {
    Write(SystemReset, RESET_COMMAND)
  }

  /** The bytes written to `reg`, oldest first. */
  function WritesTo(log: seq<Write>, reg: Register): (bytes: seq<byte>)
    ensures |bytes| <= |log|
  {
    if log == [] then []
    else WritesTo(log[..|log| - 1], reg)
         + (if log[|log| - 1].reg == reg then [log[|log| - 1].value] else [])
  }

  /** The newest byte written to `reg` in `log`, if any write names `reg`. */
  function LastWritten(log: seq<Write>, reg: Register): (last: Option<byte>)
    ensures last.Some? <==> WritesTo(log, reg) != []
    ensures last.Some? ==> last.value == WritesTo(log, reg)[|WritesTo(log, reg)| - 1]
  {
    if log == [] then None
    else if log[|log| - 1].reg == reg then Some(log[|log| - 1].value)
    else LastWritten(log[..|log| - 1], reg)
  }

  /** The history of each register in two consecutive stretches of writes
      is the history of the first stretch followed by that of the second. */
  lemma {:induction false} WritesToAppend(s: seq<Write>, t: seq<Write>, reg: Register)
    ensures WritesTo(s + t, reg) == WritesTo(s, reg) + WritesTo(t, reg)
  {
    if t == [] {
      assert s + t == s;
    } else {
      var t' := t[..|t| - 1];
      assert (s + t)[..|s + t| - 1] == s + t';
      assert (s + t)[|s + t| - 1] == t[|t| - 1];
      WritesToAppend(s, t', reg);
    }
  }

  /** After two stretches of writes a register holds what the second stretch
      last wrote to it, or, if the second never touched it, what it held
      after the first. */
  lemma {:induction false} LastWrittenAppend(s: seq<Write>, t: seq<Write>, reg: Register)
    ensures LastWritten(s + t, reg)
            == if LastWritten(t, reg).Some? then LastWritten(t, reg) else LastWritten(s, reg)
  {
    if t == [] {
      assert s + t == s;
    } else {
      var t' := t[..|t| - 1];
      assert (s + t)[..|s + t| - 1] == s + t';
      assert (s + t)[|s + t| - 1] == t[|t| - 1];
      LastWrittenAppend(s, t', reg);
    }
  }

  /** A stretch of writes none of which names `reg` leaves the history of
      `reg` as it was: what each setter promises for every register but its
      own. */
  lemma {:induction false} UntouchedHistory(s: seq<Write>, t: seq<Write>, reg: Register)
    requires forall i :: 0 <= i < |t| ==> t[i].reg != reg
    ensures WritesTo(s + t, reg) == WritesTo(s, reg)
  {
    WritesToAppend(s, t, reg);
    NoWritesTo(t, reg);
    assert WritesTo(s, reg) + [] == WritesTo(s, reg);
  }

  lemma {:induction false} NoWritesTo(t: seq<Write>, reg: Register)
    requires forall i :: 0 <= i < |t| ==> t[i].reg != reg
    ensures WritesTo(t, reg) == []
  {
    if t != [] {
      NoWritesTo(t[..|t| - 1], reg);
    }
  }

  /** A single write changes the history of its own register only: that
      register gains the byte as its newest write; every other register
      keeps its history and its newest write. */
  lemma OneWrite(log: seq<Write>, w: Write, reg: Register)
    ensures WritesTo(log + [w], reg)
            == if reg == w.reg then WritesTo(log, reg) + [w.value] else WritesTo(log, reg)
    ensures LastWritten(log + [w], reg)
            == if reg == w.reg then Some(w.value) else LastWritten(log, reg)
  {}

  /** Whatever was written before, after a write of `b` to `reg` followed
      by writes that do not name `reg`, `b` is the newest byte written to
      `reg`. */
  lemma {:induction false} LastWriteWins(s: seq<Write>, b: byte, t: seq<Write>, reg: Register)
    requires WritesTo(t, reg) == []
    ensures LastWritten(s + [Write(reg, b)] + t, reg) == Some(b)
  {
    LastWrittenAppend(s + [Write(reg, b)], t, reg);
    OneWrite(s, Write(reg, b), reg);
  }
}
