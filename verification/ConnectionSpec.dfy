/** The output side of net/tcp_connection as a transition function on values.

    An `Act` is one call made on the connection's own loop thread, with the answer of the
    kernel to the write it issues, if any.  Callbacks of the application run inside such
    calls and make further ones, so a run of the connection is a sequence of acts.
 */
module ConnectionSpec {
  import opened Epoll
  import opened Buffers

  datatype State = Disconnected | Connecting | Connected | Disconnecting

  /** Functors posted to the loop by queue_in_loop. */
  datatype Note = WriteComplete | HighWater(pending: nat)

  datatype Settings = Settings(mark: nat, hasHighWater: bool, hasWriteComplete: bool, noneTest: NoneTest)

  datatype Conn = Conn(
    state: State,
    out: seq<Byte>,    // readable bytes of output_buffer_
    events: Mask,      // mask of channel_
    idx: Index,        // its place in the poller
    wire: seq<Byte>,   // every byte the kernel has taken from this socket
    shut: nat,         // how often SHUT_WR was issued on it
    notes: seq<Note>)

  function Fresh(): Conn {
    Conn(Connecting, [], NONE_EVENT, New, [], 0, [])
  }

  predicate Writing(c: Conn) {
    c.events.Meets(WRITE_EVENT)
  }

  datatype Act =
    | Establish                                   // connection_established
    | Send(bytes: seq<Byte>, res: WriteResult)    // send
    | Shutdown                                    // shutdown
    | HandleWrite(res: WriteResult)               // handle_write
    | HandleClose                                 // handle_close
    | Destroy                                     // connection_destroyed

  /** An act can happen: handlers run on a channel the poller knows, connection_established
      is the first call and connection_destroyed follows it (both by the server protocol),
      and a write takes no more than it is offered. */
  predicate Enabled(c: Conn, a: Act) {
    match a
    case Establish => c.state == Connecting
    case Send(bytes, res) => WriteFits(res, |bytes|)
    case Shutdown => true
    case HandleWrite(res) => c.idx != New && WriteFits(res, |c.out|)
    case HandleClose => c.idx != New
    case Destroy => c.state != Connecting
  }

  function WithEvents(c: Conn, events: Mask, cfg: Settings): Conn {
    c.(events := events, idx := IndexAfter(c.idx, events, cfg.noneTest))
  }

  /** The first half of send_in_loop: the direct write, tried when nothing is waiting. */
  function Direct(c: Conn, bytes: seq<Byte>, res: WriteResult, cfg: Settings): (Conn, nat)
    requires WriteFits(res, |bytes|)
  {
    if !Writing(c) && |c.out| == 0 && res.Wrote? then
      var done := res.n == |bytes| && cfg.hasWriteComplete;
      (c.(wire := c.wire + bytes[..res.n], notes := c.notes + if done then [WriteComplete] else []), res.n)
    else
      (c, 0)
  }

  /** The second half: the rest goes to the output buffer and writing is enabled. */
  function Buffered(c: Conn, rest: seq<Byte>, cfg: Settings): Conn {
    var pending := |c.out| + |rest|;
    var crossed := pending >= cfg.mark && |c.out| < cfg.mark && cfg.hasHighWater;
    var c1 := c.(out := c.out + rest, notes := c.notes + if crossed then [HighWater(pending)] else []);
    if Writing(c1) then c1 else WithEvents(c1, c1.events.Or(WRITE_EVENT), cfg)
  }

  /** A direct write failed with EPIPE or ECONNRESET: the payload is dropped. */
  predicate Faulted(c: Conn, res: WriteResult) {
    !Writing(c) && |c.out| == 0 && res.PeerGone?
  }

  function SendInLoop(c: Conn, bytes: seq<Byte>, res: WriteResult, cfg: Settings): Conn
    requires WriteFits(res, |bytes|)
  {
    if c.state == Disconnected then c
    else
      var (c1, n) := Direct(c, bytes, res, cfg);
      if Faulted(c, res) || n == |bytes| then c1 else Buffered(c1, bytes[n..], cfg)
  }

  function ShutdownInLoop(c: Conn): Conn {
    if Writing(c) then c else c.(shut := c.shut + 1)
  }

  /** handle_write after a write that took `n` > 0 bytes. */
  function Drained(c: Conn, n: nat, cfg: Settings): Conn
    requires n <= |c.out|
  {
    Retrieved(c.(wire := c.wire + c.out[..n], out := c.out[n..]), cfg)
  }

  function Retrieved(c: Conn, cfg: Settings): Conn {
    if |c.out| > 0 then c
    else
      var c1 := WithEvents(c, c.events.Without(WRITE_EVENT), cfg);
      var c2 := c1.(notes := c1.notes + if cfg.hasWriteComplete then [WriteComplete] else []);
      if c2.state == Disconnecting then ShutdownInLoop(c2) else c2
  }

  function Effect(c: Conn, a: Act, cfg: Settings): Conn
    requires Enabled(c, a)
  {
    match a
    case Establish => WithEvents(c.(state := Connected), c.events.Or(READ_EVENT), cfg)
    case Send(bytes, res) => if c.state == Connected then SendInLoop(c, bytes, res, cfg) else c
    case Shutdown => if c.state == Connected then ShutdownInLoop(c.(state := Disconnecting)) else c
    case HandleWrite(res) =>
      if Writing(c) && res.Wrote? && res.n > 0 then Drained(c, res.n, cfg) else c
    case HandleClose => WithEvents(c.(state := Disconnected), NONE_EVENT, cfg)
    case Destroy =>
      var c1 := if c.state == Connected then WithEvents(c.(state := Disconnected), NONE_EVENT, cfg) else c;
      c1.(idx := New)
  }

  /** Acts that cannot happen are skipped, so that every sequence of acts is a run. */
  function Step(c: Conn, a: Act, cfg: Settings): Conn {
    if Enabled(c, a) then Effect(c, a, cfg) else c
  }

  function Run(c: Conn, acts: seq<Act>, cfg: Settings): Conn
    decreases |acts|
  {
    if acts == [] then c else Step(Run(c, acts[..|acts| - 1], cfg), acts[|acts| - 1], cfg)
  }

  lemma RunSnoc(c: Conn, acts: seq<Act>, a: Act, cfg: Settings)
    ensures Run(c, acts + [a], cfg) == Step(Run(c, acts, cfg), a, cfg)
  {
    assert (acts + [a])[..|acts|] == acts;
  }

  lemma {:induction false} RunConcat(c: Conn, xs: seq<Act>, ys: seq<Act>, cfg: Settings)
    ensures Run(c, xs + ys, cfg) == Run(Run(c, xs, cfg), ys, cfg)
    decreases |ys|
  {
    if ys == [] {
      assert xs + ys == xs;
    } else {
      RunConcat(c, xs, ys[..|ys| - 1], cfg);
      assert (xs + ys)[..|xs + ys| - 1] == xs + ys[..|ys| - 1];
    }
  }

  lemma RunCons(c: Conn, a: Act, acts: seq<Act>, cfg: Settings)
    ensures Run(c, [a] + acts, cfg) == Run(Step(c, a, cfg), acts, cfg)
  {
    RunConcat(c, [a], acts, cfg);
    RunSnoc(c, [], a, cfg);
    assert [] + [a] == [a];
  }

  /** Once disconnected, what callbacks send or shut down has no effect. */
  lemma {:induction false} DisconnectedIgnores(c: Conn, acts: seq<Act>, cfg: Settings)
    requires c.state == Disconnected && forall i | 0 <= i < |acts| :: acts[i].Send? || acts[i].Shutdown?
    ensures Run(c, acts, cfg) == c
    decreases |acts|
  {
    if acts == [] {
    } else {
      DisconnectedIgnores(c, acts[..|acts| - 1], cfg);
    }
  }

  /** Only connection_destroyed takes the channel out of the poller. */
  lemma {:induction false} StaysKnown(c: Conn, acts: seq<Act>, cfg: Settings)
    requires c.idx != New && forall i | 0 <= i < |acts| :: !acts[i].Destroy?
    ensures Run(c, acts, cfg).idx != New
    decreases |acts|
  {
    if acts == [] {
    } else {
      StaysKnown(c, acts[..|acts| - 1], cfg);
    }
  }

  // ---- conservation of the byte stream ----

  /** Nothing was waiting, so the kernel was asked to take the payload of a send, and it
      answered with EPIPE or ECONNRESET. */
  predicate Refused(c: Conn, res: WriteResult) {
    c.out == [] && !c.events.output && res.PeerGone?
  }

  /** The payload that an act adds to the stream: all of what is sent while connected,
      unless the kernel has refused it because the peer is gone. */
  function Payload(c: Conn, a: Act): seq<Byte> {
    if a.Send? && WriteFits(a.res, |a.bytes|) && c.state == Connected && !Refused(c, a.res) then a.bytes else []
  }

  function Accepted(c: Conn, acts: seq<Act>, cfg: Settings): seq<Byte>
    decreases |acts|
  {
    if acts == [] then []
    else
      var before := acts[..|acts| - 1];
      Accepted(c, before, cfg) + Payload(Run(c, before, cfg), acts[|acts| - 1])
  }

  lemma DirectConserves(c: Conn, bytes: seq<Byte>, res: WriteResult, cfg: Settings)
    requires WriteFits(res, |bytes|)
    ensures var (c1, n) := Direct(c, bytes, res, cfg);
            n <= |bytes| && c1.out == c.out && c1.wire + c1.out == c.wire + c.out + bytes[..n]
  {
  }

  lemma BufferedConserves(c: Conn, rest: seq<Byte>, cfg: Settings)
    ensures var c' := Buffered(c, rest, cfg); c'.wire + c'.out == c.wire + c.out + rest
  {
    assert c.wire + (c.out + rest) == c.wire + c.out + rest;
  }

  lemma SendConserves(c: Conn, bytes: seq<Byte>, res: WriteResult, cfg: Settings)
    requires WriteFits(res, |bytes|) && c.state == Connected
    ensures var c' := SendInLoop(c, bytes, res, cfg);
            c'.wire + c'.out == c.wire + c.out + if Refused(c, res) then [] else bytes
  {
    DirectConserves(c, bytes, res, cfg);
    var (c1, n) := Direct(c, bytes, res, cfg);
    if !Refused(c, res) {
      BufferedConserves(c1, bytes[n..], cfg);
      assert c.wire + c.out + bytes[..n] + bytes[n..] == c.wire + c.out + bytes;
    }
  }

  lemma DrainConserves(c: Conn, n: nat, cfg: Settings)
    requires n <= |c.out|
    ensures var c' := Drained(c, n, cfg); c'.wire + c'.out == c.wire + c.out
  {
    assert c.out == c.out[..n] + c.out[n..];
  }

  lemma StepConserves(c: Conn, a: Act, cfg: Settings)
    ensures Step(c, a, cfg).wire + Step(c, a, cfg).out == c.wire + c.out + Payload(c, a)
  {
    if Enabled(c, a) {
      match a
      case Send(bytes, res) =>
        if c.state == Connected {
          SendConserves(c, bytes, res, cfg);
        }
      case HandleWrite(res) =>
        if Writing(c) && res.Wrote? && res.n > 0 {
          DrainConserves(c, res.n, cfg);
        }
      case _ =>
    }
  }

  /** Whatever the kernel answers, the bytes it has taken followed by the bytes still in
      the output buffer are, in order, the payloads accepted. */
  lemma {:induction false} Conservation(c: Conn, acts: seq<Act>, cfg: Settings)
    ensures var c' := Run(c, acts, cfg);
            c'.wire + c'.out == c.wire + c.out + Accepted(c, acts, cfg)
    decreases |acts|
  {
    if acts == [] {
    } else {
      var before := acts[..|acts| - 1];
      Conservation(c, before, cfg);
      StepConserves(Run(c, before, cfg), acts[|acts| - 1], cfg);
    }
  }

  // ---- what every act keeps ----

  predicate IsOpen(state: State) {
    state == Connected || state == Disconnecting
  }

  /** Reading is enabled, so that clearing the write bit never empties the mask. */
  predicate Reading(c: Conn) {
    c.events.Meets(READ_EVENT)
  }

  ghost predicate Inv(c: Conn) {
    && (c.state == Connecting ==> c.idx == New && c.out == [] && c.events == NONE_EVENT && c.shut == 0)
    && (IsOpen(c.state) ==> Reading(c) && (Writing(c) <==> c.out != []))
    && (c.state == Disconnected ==> !Writing(c))
    && (c.state == Connected ==> c.idx == Added && c.shut == 0)
    && (c.state == Disconnecting ==> c.idx != Deleted && (c.shut == 0 <==> Writing(c)))
    && c.shut <= 1
    && (c.shut == 1 ==> c.out == [])
  }

  lemma SendInv(c: Conn, bytes: seq<Byte>, res: WriteResult, cfg: Settings)
    requires Inv(c) && c.state == Connected && WriteFits(res, |bytes|)
    ensures Inv(SendInLoop(c, bytes, res, cfg))
  {
    var (c1, n) := Direct(c, bytes, res, cfg);
    assert Inv(c1);
  }

  lemma ShutdownInv(c: Conn)
    requires Inv(c) && c.state == Connected
    ensures Inv(ShutdownInLoop(c.(state := Disconnecting)))
  {
  }

  lemma DrainInv(c: Conn, n: nat, cfg: Settings)
    requires Inv(c) && IsOpen(c.state) && c.idx != New && 0 < n <= |c.out|
    ensures Inv(Drained(c, n, cfg))
  {
  }

  lemma StepInv(c: Conn, a: Act, cfg: Settings)
    requires Inv(c)
    ensures Inv(Step(c, a, cfg))
  {
    if Enabled(c, a) {
      match a
      case Send(bytes, res) =>
        if c.state == Connected {
          SendInv(c, bytes, res, cfg);
        }
      case Shutdown =>
        if c.state == Connected {
          ShutdownInv(c);
        }
      case HandleWrite(res) =>
        if Writing(c) && res.Wrote? && res.n > 0 {
          DrainInv(c, res.n, cfg);
        }
      case _ =>
    }
  }

  lemma {:induction false} RunInv(c: Conn, acts: seq<Act>, cfg: Settings)
    requires Inv(c)
    ensures Inv(Run(c, acts, cfg))
    decreases |acts|
  {
    if acts == [] {
    } else {
      RunInv(c, acts[..|acts| - 1], cfg);
      StepInv(Run(c, acts[..|acts| - 1], cfg), acts[|acts| - 1], cfg);
    }
  }

  /** Between two acts, while connected or disconnecting, the output buffer is non-empty
      exactly when writing is enabled; and until removal the poller holds the channel. */
  lemma NoStalledOutput(acts: seq<Act>, cfg: Settings)
    ensures var c := Run(Fresh(), acts, cfg);
            IsOpen(c.state) ==> (c.out != [] <==> Writing(c)) && (c.idx != New ==> c.idx == Added)
  {
    RunInv(Fresh(), acts, cfg);
  }

  // ---- graceful half-close ----

  lemma StepAfterShut(c: Conn, a: Act, cfg: Settings)
    requires Inv(c) && c.shut == 1
    ensures var c' := Step(c, a, cfg); c'.shut == 1 && c'.wire == c.wire && c'.out == []
  {
  }

  lemma {:induction false} RunAfterShut(c: Conn, acts: seq<Act>, cfg: Settings)
    requires Inv(c) && c.shut == 1
    ensures var c' := Run(c, acts, cfg); c'.shut == 1 && c'.wire == c.wire && c'.out == []
    decreases |acts|
  {
    if acts == [] {
    } else {
      RunAfterShut(c, acts[..|acts| - 1], cfg);
      RunInv(c, acts[..|acts| - 1], cfg);
      StepAfterShut(Run(c, acts[..|acts| - 1], cfg), acts[|acts| - 1], cfg);
    }
  }

  lemma ShutMeansSent(acts: seq<Act>, cfg: Settings)
    requires Run(Fresh(), acts, cfg).shut == 1
    ensures Run(Fresh(), acts, cfg).wire == Accepted(Fresh(), acts, cfg)
  {
    RunInv(Fresh(), acts, cfg);
    Conservation(Fresh(), acts, cfg);
    var c := Run(Fresh(), acts, cfg);
    assert c.wire + c.out == c.wire;
  }

  /** SHUT_WR is issued at most once; once issued, the kernel has every accepted byte, and
      whatever happens afterwards it is given no other. */
  lemma HalfClose(acts: seq<Act>, more: seq<Act>, cfg: Settings)
    ensures Run(Fresh(), acts, cfg).shut <= 1
    ensures Run(Fresh(), acts, cfg).shut == 1 ==>
              && Run(Fresh(), acts, cfg).wire == Accepted(Fresh(), acts, cfg)
              && Run(Fresh(), acts + more, cfg).wire == Run(Fresh(), acts, cfg).wire
              && Accepted(Fresh(), acts + more, cfg) == Accepted(Fresh(), acts, cfg)
  {
    var c := Run(Fresh(), acts, cfg);
    RunInv(Fresh(), acts, cfg);
    if c.shut == 1 {
      RunConcat(Fresh(), acts, more, cfg);
      RunAfterShut(c, more, cfg);
      ShutMeansSent(acts, cfg);
      ShutMeansSent(acts + more, cfg);
    }
  }

  /** After shutdown and until close or removal, SHUT_WR has been issued exactly when the
      output buffer is drained; before shutdown it has not been issued. */
  lemma HalfCloseWhenDrained(acts: seq<Act>, cfg: Settings)
    ensures var c := Run(Fresh(), acts, cfg);
            && (c.state == Connecting || c.state == Connected ==> c.shut == 0)
            && (c.state == Disconnecting ==> (c.shut == 1 <==> c.out == []))
  {
    RunInv(Fresh(), acts, cfg);
  }

  // ---- the state only moves forward ----

  function Rank(state: State): nat {
    match state
    case Connecting => 0
    case Connected => 1
    case Disconnecting => 2
    case Disconnected => 3
  }

  lemma {:induction false} StateMovesForward(c: Conn, acts: seq<Act>, cfg: Settings)
    ensures Rank(c.state) <= Rank(Run(c, acts, cfg).state)
    decreases |acts|
  {
    if acts == [] {
    } else {
      StateMovesForward(c, acts[..|acts| - 1], cfg);
    }
  }

  // ---- notifications ----

  function HighWaters(notes: seq<Note>): nat {
    if notes == [] then 0
    else HighWaters(notes[..|notes| - 1]) + if notes[|notes| - 1].HighWater? then 1 else 0
  }

  function Completions(notes: seq<Note>): nat {
    if notes == [] then 0
    else Completions(notes[..|notes| - 1]) + if notes[|notes| - 1].WriteComplete? then 1 else 0
  }

  /** One act takes the pending length from below the mark to the mark or above. */
  predicate Crosses(c: Conn, c': Conn, mark: nat) {
    |c.out| < mark <= |c'.out|
  }

  /** The upward crossings of the mark along a run. */
  function Crossings(c: Conn, acts: seq<Act>, cfg: Settings): nat
    decreases |acts|
  {
    if acts == [] then 0
    else
      var before := acts[..|acts| - 1];
      Crossings(c, before, cfg)
      + if Crosses(Run(c, before, cfg), Run(c, acts, cfg), cfg.mark) then 1 else 0
  }

  lemma NotesAppend(notes: seq<Note>, n: Note)
    ensures HighWaters(notes + [n]) == HighWaters(notes) + if n.HighWater? then 1 else 0
    ensures Completions(notes + [n]) == Completions(notes) + if n.WriteComplete? then 1 else 0
  {
    assert (notes + [n])[..|notes|] == notes;
  }

  /** An act posts at most one notification: a high-water one exactly when it crosses the
      mark, carrying the new pending length, and a completion only when nothing is pending. */
  lemma StepNotes(c: Conn, a: Act, cfg: Settings)
    ensures var c' := Step(c, a, cfg);
            if cfg.hasHighWater && Crosses(c, c', cfg.mark) then
              c'.notes == c.notes + [HighWater(|c'.out|)]
            else
              c'.notes == c.notes || (c'.notes == c.notes + [WriteComplete] && c'.out == [])
  {
    if Enabled(c, a) && a.Send? && c.state == Connected {
      var (c1, n) := Direct(c, a.bytes, a.res, cfg);
      assert c1.out == c.out;
      assert n < |a.bytes| ==> c1.notes == c.notes;
    }
  }

  /** Over any run, high-water notifications count the upward crossings of the mark. */
  lemma {:induction false} HighWaterCountsCrossings(c: Conn, acts: seq<Act>, cfg: Settings)
    requires cfg.hasHighWater
    ensures HighWaters(Run(c, acts, cfg).notes) == HighWaters(c.notes) + Crossings(c, acts, cfg)
    decreases |acts|
  {
    if acts == [] {
    } else {
      var before := acts[..|acts| - 1];
      HighWaterCountsCrossings(c, before, cfg);
      var c1 := Run(c, before, cfg);
      var c2 := Run(c, acts, cfg);
      StepNotes(c1, acts[|acts| - 1], cfg);
      NotesAppend(c1.notes, HighWater(|c2.out|));
      NotesAppend(c1.notes, WriteComplete);
    }
  }

  /** Only handle_write shortens the output buffer. */
  lemma StepShortens(c: Conn, a: Act, cfg: Settings)
    requires |Step(c, a, cfg).out| < |c.out|
    ensures a.HandleWrite? && Enabled(c, a)
  {
    if a.Send? && Enabled(c, a) && c.state == Connected {
      SendConserves(c, a.bytes, a.res, cfg);
    }
  }

  /** Between two crossings of the mark, handle_write has drained the output below it. */
  lemma {:induction false} DrainBetweenCrossings(c: Conn, acts: seq<Act>, i: nat, j: nat, cfg: Settings)
    returns (k: nat)
    requires i < j < |acts|
    requires Crosses(Run(c, acts[..i], cfg), Run(c, acts[..i + 1], cfg), cfg.mark)
    requires Crosses(Run(c, acts[..j], cfg), Run(c, acts[..j + 1], cfg), cfg.mark)
    ensures i < k < j && acts[k].HandleWrite?
    ensures |Run(c, acts[..k + 1], cfg).out| < cfg.mark <= |Run(c, acts[..k], cfg).out|
  {
    k := j - 1;
    while |Run(c, acts[..k], cfg).out| < cfg.mark
      invariant i < k < j
      invariant |Run(c, acts[..k + 1], cfg).out| < cfg.mark
      decreases k
    {
      k := k - 1;
    }
    assert acts[..k + 1][..k] == acts[..k];
    StepShortens(Run(c, acts[..k], cfg), acts[k], cfg);
  }

  lemma SendCompletes(c: Conn, bytes: seq<Byte>, res: WriteResult, cfg: Settings)
    requires cfg.hasWriteComplete && WriteFits(res, |bytes|) && c.state == Connected
    ensures var c' := SendInLoop(c, bytes, res, cfg);
            c'.wire != c.wire && c'.out == [] ==> c'.notes == c.notes + [WriteComplete]
  {
    var (c1, n) := Direct(c, bytes, res, cfg);
    if n < |bytes| && !Faulted(c, res) {
      assert |Buffered(c1, bytes[n..], cfg).out| > 0;
    }
  }

  lemma DrainCompletes(c: Conn, n: nat, cfg: Settings)
    requires cfg.hasWriteComplete && n <= |c.out|
    ensures var c' := Drained(c, n, cfg); c'.notes == c.notes + if c'.out == [] then [WriteComplete] else []
  {
  }

  lemma CompletionPosted(c: Conn, a: Act, cfg: Settings)
    requires cfg.hasWriteComplete
    ensures var c' := Step(c, a, cfg);
            c'.wire != c.wire && c'.out == [] ==> c'.notes == c.notes + [WriteComplete]
  {
    if Enabled(c, a) && a.Send? && c.state == Connected {
      SendCompletes(c, a.bytes, a.res, cfg);
    } else if Enabled(c, a) && a.HandleWrite? && a.res.Wrote? {
      DrainCompletes(c, a.res.n, cfg);
    }
  }

  /** With a completion callback set, an act that hands bytes to the kernel posts a
      completion exactly when it leaves nothing pending. */
  lemma CompletionExact(c: Conn, a: Act, cfg: Settings)
    requires cfg.hasWriteComplete
    ensures var c' := Step(c, a, cfg);
            c'.wire != c.wire ==>
              Completions(c'.notes) == Completions(c.notes) + if c'.out == [] then 1 else 0
  {
    var c' := Step(c, a, cfg);
    NotesAppend(c.notes, WriteComplete);
    NotesAppend(c.notes, HighWater(|c'.out|));
    StepNotes(c, a, cfg);
    CompletionPosted(c, a, cfg);
  }
}
