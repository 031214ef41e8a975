/** What each call on a connection has done, by the state before it and the answer of the
    kernel: on the bytes, on the mask, on the half-close and on what is posted.  Nothing here
    is said through the functions of module ConnectionSpec that compute it. */
module ConnectionLaws {
  import opened Epoll
  import opened Buffers
  import opened ConnectionSpec

  // ---- send ----

  /** What is waiting stays in front.  If nothing is, the kernel has what it took and the
      rest waits; and a payload is dropped only where the peer is gone. */
  lemma SendGives(c: Conn, bytes: seq<Byte>, res: WriteResult, cfg: Settings)
    requires Inv(c) && c.state == Connected && WriteFits(res, |bytes|)
    ensures var c' := Step(c, Send(bytes, res), cfg);
            && c'.state == Connected && c'.idx == Added && c'.shut == 0
            && c'.events == c.events.(output := c'.out != [])
            && (c.out != [] ==> c'.wire == c.wire && c'.out == c.out + bytes)
            && (c.out == [] ==>
                  match res
                  case Wrote(n) => c'.wire == c.wire + bytes[..n] && c'.out == bytes[n..]
                  case PeerGone => c' == c
                  case _ => c'.wire == c.wire && c'.out == bytes)
  {
  }

  /** So the whole payload is kept, in order, by the kernel or by the buffer, unless the
      kernel was asked and the peer is gone. */
  lemma SendKeepsPayload(c: Conn, bytes: seq<Byte>, res: WriteResult, cfg: Settings)
    requires Inv(c) && c.state == Connected && WriteFits(res, |bytes|)
    ensures var c' := Step(c, Send(bytes, res), cfg);
            if res.PeerGone? && c.out == [] then c' == c
            else c'.wire + c'.out == c.wire + c.out + bytes
  {
    if res.PeerGone? && c.out == [] {
      SendGives(c, bytes, res, cfg);
    } else {
      SendConserves(c, bytes, res, cfg);
    }
  }

  /** A completion is posted when the kernel took all at once, a high-water notice when the
      pending length reaches the mark from below. */
  lemma SendPosts(c: Conn, bytes: seq<Byte>, res: WriteResult, cfg: Settings)
    requires Inv(c) && c.state == Connected && WriteFits(res, |bytes|)
    ensures var c' := Step(c, Send(bytes, res), cfg);
            c'.notes == c.notes
              + (if cfg.hasWriteComplete && c.out == [] && res == Wrote(|bytes|) then [WriteComplete] else [])
              + (if cfg.hasHighWater && |c.out| < cfg.mark <= |c'.out| then [HighWater(|c'.out|)] else [])
  {
    var c' := Step(c, Send(bytes, res), cfg);
    StepNotes(c, Send(bytes, res), cfg);
    if res == Wrote(|bytes|) && c.out == [] {
      SendPostsAll(c, bytes, cfg);
    } else if !(cfg.hasHighWater && |c.out| < cfg.mark <= |c'.out|) {
      SendPostsNone(c, bytes, res, cfg);
    }
  }

  lemma SendPostsAll(c: Conn, bytes: seq<Byte>, cfg: Settings)
    requires Inv(c) && c.state == Connected && c.out == []
    ensures var c' := Step(c, Send(bytes, Wrote(|bytes|)), cfg);
            c'.out == [] && c'.notes == c.notes + if cfg.hasWriteComplete then [WriteComplete] else []
  {
  }

  lemma SendPostsNone(c: Conn, bytes: seq<Byte>, res: WriteResult, cfg: Settings)
    requires Inv(c) && c.state == Connected && WriteFits(res, |bytes|)
    requires c.out != [] || res != Wrote(|bytes|)
    requires !(cfg.hasHighWater && |c.out| < cfg.mark <= |Step(c, Send(bytes, res), cfg).out|)
    ensures Step(c, Send(bytes, res), cfg).notes == c.notes
  {
  }

  lemma SendIgnored(c: Conn, bytes: seq<Byte>, res: WriteResult, cfg: Settings)
    requires c.state != Connected
    ensures Step(c, Send(bytes, res), cfg) == c
  {
  }

  // ---- handle_write ----

  /** The kernel has the next bytes of the buffer and the buffer the others; when none is
      left writing is disabled, and SHUT_WR issued if a shutdown is pending. */
  lemma HandleWriteGives(c: Conn, n: nat, cfg: Settings)
    requires Inv(c) && IsOpen(c.state) && c.idx != New && 0 < n <= |c.out|
    ensures var c' := Step(c, HandleWrite(Wrote(n)), cfg);
            && c'.wire == c.wire + c.out[..n] && c'.out == c.out[n..]
            && c'.state == c.state && c'.idx == Added
            && c'.events == c.events.(output := n < |c.out|)
            && c'.shut == (if n == |c.out| && c.state == Disconnecting then 1 else 0)
            && c'.notes == c.notes + if n == |c.out| && cfg.hasWriteComplete then [WriteComplete] else []
  {
  }

  /** It does nothing where the kernel takes nothing, and where nothing is waiting. */
  lemma HandleWriteIdle(c: Conn, res: WriteResult, cfg: Settings)
    requires Inv(c)
    requires !res.Wrote? || res.n == 0 || !IsOpen(c.state) || c.out == []
    ensures Step(c, HandleWrite(res), cfg) == c
  {
  }

  function Writes(counts: seq<nat>): seq<Act> {
    if counts == [] then [] else Writes(counts[..|counts| - 1]) + [HandleWrite(Wrote(counts[|counts| - 1]))]
  }

  function Total(counts: seq<nat>): nat {
    if counts == [] then 0 else Total(counts[..|counts| - 1]) + counts[|counts| - 1]
  }

  predicate AllPositive(counts: seq<nat>) {
    forall i | 0 <= i < |counts| :: 0 < counts[i]
  }

  /** The kernel has been given the first `n` bytes pending, and nothing else has changed but
      for the half-close and the mask, which the invariant ties to what is pending. */
  ghost predicate Gave(c: Conn, c': Conn, n: nat) {
    && Inv(c') && c'.state == c.state && c'.idx != New
    && n <= |c.out| && c'.wire == c.wire + c.out[..n] && c'.out == c.out[n..]
  }

  /** However the kernel splits it, what is pending goes to the kernel in order. */
  lemma {:induction false} WritesGive(c: Conn, counts: seq<nat>, cfg: Settings)
    requires Inv(c) && IsOpen(c.state) && c.idx != New
    requires AllPositive(counts) && Total(counts) <= |c.out|
    ensures Gave(c, Run(c, Writes(counts), cfg), Total(counts))
    decreases |counts|
  {
    if counts == [] {
    } else {
      var k := |counts| - 1;
      WritesGive(c, counts[..k], cfg);
      LastWrite(c, counts, cfg);
    }
  }

  lemma LastWrite(c: Conn, counts: seq<nat>, cfg: Settings)
    requires IsOpen(c.state) && counts != [] && AllPositive(counts) && Total(counts) <= |c.out|
    requires var before := counts[..|counts| - 1]; Gave(c, Run(c, Writes(before), cfg), Total(before))
    ensures Gave(c, Run(c, Writes(counts), cfg), Total(counts))
  {
    OneMoreWrite(c, counts[..|counts| - 1], counts[|counts| - 1], cfg);
  }

  lemma OneMoreWrite(c: Conn, before: seq<nat>, n: nat, cfg: Settings)
    requires IsOpen(c.state) && Gave(c, Run(c, Writes(before), cfg), Total(before))
    requires 0 < n && Total(before) + n <= |c.out|
    ensures Gave(c, Run(c, Writes(before) + [HandleWrite(Wrote(n))], cfg), Total(before) + n)
  {
    ConnectionSpec.RunSnoc(c, Writes(before), HandleWrite(Wrote(n)), cfg);
    WriteGives(c, Run(c, Writes(before), cfg), Total(before), n, cfg);
  }

  lemma WriteGives(c: Conn, c1: Conn, m: nat, n: nat, cfg: Settings)
    requires IsOpen(c.state) && Gave(c, c1, m) && 0 < n && m + n <= |c.out|
    ensures Gave(c, Step(c1, HandleWrite(Wrote(n)), cfg), m + n)
  {
    HandleWriteGives(c1, n, cfg);
    StepInv(c1, HandleWrite(Wrote(n)), cfg);
    assert c.out[..m] + c.out[m..][..n] == c.out[..m + n];
  }

  // ---- shutdown ----

  /** Disconnecting at once, and SHUT_WR at once if nothing is waiting. */
  lemma ShutdownGives(c: Conn, cfg: Settings)
    requires Inv(c) && c.state == Connected
    ensures Step(c, Shutdown, cfg) == c.(state := Disconnecting, shut := if c.out == [] then 1 else 0)
  {
  }

  lemma ShutdownIgnored(c: Conn, cfg: Settings)
    requires c.state != Connected
    ensures Step(c, Shutdown, cfg) == c
  {
  }

  /** After a shutdown nothing that is sent is accepted any more. */
  lemma {:induction false} ShutdownEndsSending(c: Conn, acts: seq<Act>, cfg: Settings)
    requires Inv(c) && c.state == Connected
    ensures var c1 := Step(c, Shutdown, cfg);
            && Accepted(c1, acts, cfg) == []
            && (Run(c1, acts, cfg).state == Disconnecting || Run(c1, acts, cfg).state == Disconnected)
    decreases |acts|
  {
    ShutdownGives(c, cfg);
    if acts == [] {
    } else {
      var c1, before := Step(c, Shutdown, cfg), acts[..|acts| - 1];
      ShutdownEndsSending(c, before, cfg);
      StaysShut(Run(c1, before, cfg), acts[|acts| - 1], cfg);
    }
  }

  lemma StaysShut(c: Conn, a: Act, cfg: Settings)
    requires c.state == Disconnecting || c.state == Disconnected
    ensures Payload(c, a) == []
    ensures var c' := Step(c, a, cfg); c'.state == Disconnecting || c'.state == Disconnected
  {
  }

  /** And once the kernel has taken what was waiting, in whatever pieces, SHUT_WR has been
      issued, after all of it. */
  lemma ShutdownCompletes(c: Conn, counts: seq<nat>, cfg: Settings)
    requires Inv(c) && c.state == Connected
    requires AllPositive(counts) && Total(counts) == |c.out|
    ensures var c' := Run(Step(c, Shutdown, cfg), Writes(counts), cfg);
            c'.shut == 1 && c'.out == [] && c'.wire == c.wire + c.out && c'.state == Disconnecting
  {
    ShutdownGives(c, cfg);
    StepInv(c, Shutdown, cfg);
    WritesGive(Step(c, Shutdown, cfg), counts, cfg);
  }

  // ---- establishment, close and removal ----

  lemma EstablishGives(c: Conn, cfg: Settings)
    requires Inv(c) && c.state == Connecting
    ensures var c' := Step(c, Establish, cfg);
            c' == c.(state := Connected, idx := Added, events := Mask(true, true, false, false, false))
  {
  }

  /** Nothing is asked of the poller any more, and nothing waits to be written there; what
      is in the buffer stays. */
  lemma CloseGives(c: Conn, cfg: Settings)
    requires c.idx != New
    ensures var c' := Step(c, Act.HandleClose, cfg);
            c' == c.(state := Disconnected, events := Mask(false, false, false, false, false),
                     idx := if c.idx == Added && cfg.noneTest == AgainstZero then Deleted else Added)
  {
  }

  lemma DestroyGives(c: Conn, cfg: Settings)
    requires Inv(c) && c.state != Connecting
    ensures var c' := Step(c, Destroy, cfg);
            && c'.idx == New && c'.wire == c.wire && c'.out == c.out && c'.shut == c.shut && c'.notes == c.notes
            && c'.state == (if c.state == Connected then Disconnected else c.state)
            && c'.events == (if c.state == Connected then Mask(false, false, false, false, false) else c.events)
  {
  }
}
