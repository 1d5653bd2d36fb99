/** `PcmBuffer` (sipgram/audio/buffer.py): the FIFO between Telegram and RTP that drops the oldest audio. */
module PcmBuffers {
  import opened Options
  import opened Bytes

  function Zeros(n: nat): (z: bytes)
    ensures |z| == n
  {
    seq(n, _ => 0)
  }

  /** The buffer and its counters. */
  datatype Fifo = Fifo(buf: bytes, pushed: nat, dropped: nat, underruns: nat)

  function Appended(f: Fifo, data: bytes, max: nat): Fifo {
    if data == [] then f
    else
      var all := f.buf + data;
      var overflow := if |all| > max then |all| - max else 0;
      Fifo(all[overflow..], f.pushed + |data|, f.dropped + overflow, f.underruns)
  }

  datatype Pulled = Pulled(fifo: Fifo, out: Option<bytes>)

  function Drawn(f: Fifo, n: nat, pad: bool): Pulled {
    if |f.buf| >= n then Pulled(f.(buf := f.buf[n..]), Some(f.buf[..n]))
    else if f.buf == [] && !pad then Pulled(f, None)
    else Pulled(f.(buf := [], underruns := f.underruns + 1), Some(f.buf + Zeros(n - |f.buf|)))
  }

  // ---- Runs ----

  datatype Op = Push(data: bytes) | Pull(n: nat, pad: bool) | Clear

  /** The buffer after some operations, everything pushed so far, and how many bytes were handed out or cleared. */
  datatype Story = Story(fifo: Fifo, stream: bytes, delivered: nat, cleared: nat)

  function Next(s: Story, op: Op, max: nat): Story {
    match op
    case Push(data) => s.(fifo := Appended(s.fifo, data, max), stream := s.stream + data)
    case Pull(n, pad) =>
      var p := Drawn(s.fifo, n, pad);
      s.(fifo := p.fifo, delivered := s.delivered + (|s.fifo.buf| - |p.fifo.buf|))
    case Clear => s.(fifo := s.fifo.(buf := []), cleared := s.cleared + |s.fifo.buf|)
  }

  function Run(ops: seq<Op>, max: nat): Story
    decreases |ops|
  {
    if ops == [] then Story(Fifo([], 0, 0, 0), [], 0, 0)
    else Next(Run(ops[..|ops| - 1], max), ops[|ops| - 1], max)
  }

  /** How many bytes have left the buffer. */
  function Gone(s: Story): nat {
    s.fifo.dropped + s.delivered + s.cleared
  }

  predicate Suffix(part: bytes, whole: bytes) {
    |part| <= |whole| && whole[|whole| - |part|..] == part
  }

  predicate Accounted(s: Story, max: nat) {
    && Suffix(s.fifo.buf, s.stream)
    && |s.fifo.buf| <= max
    && s.fifo.pushed == |s.stream|
    && s.fifo.pushed == s.fifo.dropped + s.delivered + s.cleared + |s.fifo.buf|
  }

  lemma PushAccounted(s: Story, data: bytes, max: nat)
    requires Accounted(s, max)
    ensures Accounted(Next(s, Op.Push(data), max), max)
  {
    var f := s.fifo;
    var all := f.buf + data;
    var cut := |s.stream| - |f.buf|;
    assert s.stream + data == s.stream[..cut] + all;
    var overflow := if |all| > max then |all| - max else 0;
    assert all[overflow..] == (s.stream + data)[cut + overflow..];
    if data == [] {
      assert s.stream + data == s.stream;
    }
  }

  lemma PullAccounted(s: Story, n: nat, pad: bool, max: nat)
    requires Accounted(s, max)
    ensures Accounted(Next(s, Op.Pull(n, pad), max), max)
  {
    var cut := |s.stream| - |s.fifo.buf|;
    if n <= |s.fifo.buf| {
      assert s.stream[cut..][n..] == s.stream[cut + n..];
    }
  }

  /** Whatever is pushed, pulled and cleared: the buffer is the end of everything pushed, no longer than its capacity,
      and every byte pushed has been dropped, handed out, cleared, or is still there. */
  lemma {:induction false} EveryByteAccounted(ops: seq<Op>, max: nat)
    ensures Accounted(Run(ops, max), max)
    decreases |ops|
  {
    if ops != [] {
      EveryByteAccounted(ops[..|ops| - 1], max);
      var s := Run(ops[..|ops| - 1], max);
      match ops[|ops| - 1] {
        case Push(data) => PushAccounted(s, data, max);
        case Pull(n, pad) => PullAccounted(s, n, pad, max);
        case Clear =>
      }
    }
  }

  /** A pull hands out the bytes that follow everything that has left the buffer so far, in the order they were pushed,
      padded with silence when there are fewer than asked for. */
  lemma PullContinuesTheStream(ops: seq<Op>, max: nat, n: nat, pad: bool)
    ensures var s := Run(ops, max);
            var at := s.fifo.dropped + s.delivered + s.cleared; var got := if |s.fifo.buf| < n then |s.fifo.buf| else n;
            && at + got <= |s.stream|
            && Drawn(s.fifo, n, pad).out
               == if got == 0 && n > 0 && !pad then None else Some(s.stream[at..at + got] + Zeros(n - got))
  {
    EveryByteAccounted(ops, max);
    var s := Run(ops, max);
    var at := s.fifo.dropped + s.delivered + s.cleared;
    assert s.stream[at..] == s.fifo.buf;
    var got := if |s.fifo.buf| < n then |s.fifo.buf| else n;
    assert s.stream[at..at + got] == s.fifo.buf[..got];
    if |s.fifo.buf| >= n {
      assert Zeros(n - got) == [];
      assert s.fifo.buf[..got] + Zeros(n - got) == s.fifo.buf[..got];
    } else {
      assert s.fifo.buf[..got] == s.fifo.buf;
    }
  }

  // ---- The object ----

  class PcmBuffer {
    const max: nat
    var buf: bytes
    var pushed: nat
    var dropped: nat
    var underruns: nat

    function View(): Fifo
      reads this
    {
      Fifo(buf, pushed, dropped, underruns)
    }

    constructor (max: nat)
      ensures this.max == max && View() == Fifo([], 0, 0, 0)
    {
      this.max := max;
      buf, pushed, dropped, underruns := [], 0, 0, 0;
    }

    method Push(data: bytes)
      modifies this
      ensures View() == Appended(old(View()), data, max)
    {
      if data == [] {
        return;
      }
      buf := buf + data;
      pushed := pushed + |data|;
      var overflow := |buf| - max;
      if overflow > 0 {
        buf := buf[overflow..];
        dropped := dropped + overflow;
      }
    }

    method Pull(n: nat, pad: bool) returns (out: Option<bytes>)
      modifies this
      ensures Pulled(View(), out) == Drawn(old(View()), n, pad)
    {
      var have := |buf|;
      if have >= n {
        out := Some(buf[..n]);
        buf := buf[n..];
        return;
      }
      if have == 0 && !pad {
        return None;
      }
      underruns := underruns + 1;
      out := Some(buf + Zeros(n - have));
      buf := [];
    }

    method Empty()
      modifies `buf
      ensures View() == old(View()).(buf := [])
    {
      buf := [];
    }
  }
}
