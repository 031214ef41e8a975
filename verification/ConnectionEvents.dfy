/** The events of a connection as the acts they amount to: what channel::handle_event runs,
    by the mask that poll_wait has reported and the answers of the kernel, and what one
    event, or any sequence of them, then does to the connection. */
module ConnectionEvents {
  import opened Epoll
  import opened Buffers
  import opened ConnectionSpec
  import ConnectionLaws

  /** What an application callback does with its connection: sends and shutdowns, each
      send with the kernel's answer to the write it may issue. */
  predicate CallbackActs(acts: seq<Act>) {
    forall i | 0 <= i < |acts| ::
      acts[i].Shutdown? || (acts[i].Send? && WriteFits(acts[i].res, |acts[i].bytes|))
  }

  /** The outside world's part in one event: the result of the read, how much of the input
      the message callback takes and what it then does, what the connection callback does
      on close, and the kernel's answer to the write. */
  datatype Inputs = Inputs(read: ReadResult, take: nat, onMessage: seq<Act>, onClose: seq<Act>, write: WriteResult)

  /** A write takes no more than it is offered. */
  function Clip(res: WriteResult, len: nat): (r: WriteResult)
    ensures WriteFits(r, len)
    ensures WriteFits(res, len) ==> r == res
    ensures !WriteFits(res, len) ==> r == Wrote(len)
  {
    if res.Wrote? then Wrote(Min(res.n, len)) else res
  }

  /** readv fills no more than the tail and the overflow area, and what it leaves is no end
      of stream. */
  function ClipRead(res: ReadResult, writable: nat): (r: ReadResult)
    ensures ReadFits(r, writable)
    ensures r == Got([]) <==> res == Got([])
    ensures ReadFits(res, writable) ==> r == res
    ensures res.Got? ==> r.Got? && r.bytes <= res.bytes
  {
    if res.Got? then Got(res.bytes[..Min(|res.bytes|, ReadSpace(writable))]) else res
  }

  /** handle_read: the message callback after data, handle_close at end of stream. */
  function ReadActs(inp: Inputs): seq<Act> {
    if inp.read.Failed? then []
    else if |inp.read.bytes| == 0 then [HandleClose] + inp.onClose
    else inp.onMessage
  }

  function CloseActs(revents: Mask, inp: Inputs): seq<Act> {
    if revents.hangUp && !revents.input then [HandleClose] + inp.onClose else []
  }

  function InputActs(revents: Mask, inp: Inputs): seq<Act> {
    CloseActs(revents, inp) + if revents.Meets(READ_EVENT) then ReadActs(inp) else []
  }

  function WriteActs(revents: Mask, inp: Inputs, c: Conn): seq<Act> {
    if revents.output then [HandleWrite(Clip(inp.write, |c.out|))] else []
  }

  /** handle_event_with_guard: close, then read, then write. */
  function EventActs(c: Conn, revents: Mask, inp: Inputs, cfg: Settings): seq<Act> {
    var acts := InputActs(revents, inp);
    acts + WriteActs(revents, inp, Run(c, acts, cfg))
  }

  /** An event ends the connection: a hang-up with nothing to read, or an end of stream. */
  predicate Ends(revents: Mask, inp: Inputs) {
    || (revents.hangUp && !revents.input)
    || ((revents.input || revents.priority) && inp.read == Got([]))
  }

  /** An event brings bytes, for the message callback. */
  predicate Brings(revents: Mask, inp: Inputs) {
    (revents.input || revents.priority) && inp.read.Got? && inp.read.bytes != []
  }

  /** What an event adds to the input buffer. */
  function Received(revents: Mask, inp: Inputs): (r: seq<Byte>)
    ensures r == if Brings(revents, inp) then inp.read.bytes else []
  {
    if revents.Meets(READ_EVENT) && inp.read.Got? then inp.read.bytes else []
  }

  /** How much the message callback takes: it runs only if something has come. */
  function Taken(held: nat, come: seq<Byte>, take: nat): nat {
    if come == [] then 0 else Min(take, held + |come|)
  }

  /** How often an event runs handle_close: for a hang-up, for an end of stream, or both. */
  function Closes(revents: Mask, inp: Inputs): (n: nat)
    ensures n <= 2 && (n > 0 <==> Ends(revents, inp))
    ensures n == 2 <==> revents.hangUp && !revents.input && revents.priority && inp.read == Got([])
  {
    HangUps(revents) + if revents.Meets(READ_EVENT) && inp.read == Got([]) then 1 else 0
  }

  function HangUps(revents: Mask): nat {
    if revents.hangUp && !revents.input then 1 else 0
  }

  function AllCloses(events: seq<(Mask, Inputs)>): nat {
    if events == [] then 0
    else
      var n := |events| - 1;
      AllCloses(events[..n]) + Closes(events[n].0, events[n].1)
  }

  function Joined(parts: seq<seq<Byte>>): seq<Byte> {
    if parts == [] then [] else Joined(parts[..|parts| - 1]) + parts[|parts| - 1]
  }

  /** The acts of a sequence of events that delivered `got`: those of each event, with the
      callbacks it runs, at the point that the acts before it have led to. */
  function DriveActs(start: seq<Act>, events: seq<(Mask, Inputs)>, got: seq<seq<Byte>>, cfg: Settings): seq<Act>
    requires |got| == |events|
    decreases |events|
  {
    if events == [] then start
    else
      var n := |events| - 1;
      var before := DriveActs(start, events[..n], got[..n], cfg);
      before + EventActs(Run(Fresh(), before, cfg), events[n].0, Delivered(events[n].1, got[n]), cfg)
  }

  /** The same inputs, with what the read has delivered. */
  function Delivered(inp: Inputs, got: seq<Byte>): (r: Inputs)
    ensures r.take == inp.take && r.onMessage == inp.onMessage && r.onClose == inp.onClose && r.write == inp.write
    ensures if inp.read.Got? then r.read == Got(got) else r.read == inp.read
  {
    if inp.read.Got? then inp.(read := Got(got)) else inp
  }

  /** How much the message callbacks take over a sequence of events. */
  function AllTaken(events: seq<(Mask, Inputs)>, got: seq<seq<Byte>>): (n: nat)
    requires |got| == |events|
    ensures n <= |Joined(got)|
    decreases |events|
  {
    if events == [] then 0
    else
      var n := |events| - 1;
      var before := AllTaken(events[..n], got[..n]);
      before + Taken(|Joined(got[..n])| - before, got[n], events[n].1.take)
  }

  /** One read has delivered `got` of what the event holds: nothing only where there is
      nothing, and everything that fits the space given to readv. */
  predicate Delivers(got: seq<Byte>, revents: Mask, inp: Inputs) {
    var all := Received(revents, inp);
    && got <= all && (got == [] ==> all == [])
    && (|all| <= EXTRA_BUF ==> got == all)
  }

  /** Where a read delivers `got`, the event is one that has just that to read. */
  lemma ReadsDelivered(c: Conn, revents: Mask, inp: Inputs, inp': Inputs, got: seq<Byte>, cfg: Settings)
    requires inp' == inp.(read := inp'.read) && (inp.read.Failed? ==> inp'.read == inp.read)
    requires inp.read.Got? ==> inp'.read.Got? && inp'.read.bytes <= inp.read.bytes
    requires (inp'.read == Got([]) <==> inp.read == Got([])) && got == Received(revents, inp')
    requires inp.read.Got? && |inp.read.bytes| <= EXTRA_BUF ==> inp'.read == inp.read
    ensures Delivers(got, revents, inp)
    ensures EventActs(c, revents, inp', cfg) == EventActs(c, revents, Delivered(inp, got), cfg)
  {
    assert InputActs(revents, inp') == InputActs(revents, Delivered(inp, got));
  }

  predicate AllDelivered(got: seq<seq<Byte>>, events: seq<(Mask, Inputs)>) {
    && |got| == |events|
    && forall i | 0 <= i < |got| :: Delivers(got[i], events[i].0, events[i].1)
  }

  lemma OneMore(events: seq<(Mask, Inputs)>, i: nat, got: seq<seq<Byte>>, part: seq<Byte>)
    requires i < |events| && |got| == i
    ensures events[..i + 1][..i] == events[..i] && (got + [part])[..i] == got
    ensures Joined(got + [part]) == Joined(got) + part
  {
    assert events[..i + 1][..i] == events[..i];
    assert (got + [part])[..|got|] == got;
  }

  lemma OneMoreCloses(events: seq<(Mask, Inputs)>, i: nat)
    requires i < |events|
    ensures AllCloses(events[..i + 1]) == AllCloses(events[..i]) + Closes(events[i].0, events[i].1)
  {
    assert events[..i + 1][..i] == events[..i];
  }

  lemma OneMoreDelivered(events: seq<(Mask, Inputs)>, i: nat, got: seq<seq<Byte>>, part: seq<Byte>)
    requires i < |events| && AllDelivered(got, events[..i]) && Delivers(part, events[i].0, events[i].1)
    ensures AllDelivered(got + [part], events[..i + 1])
  {
  }

  lemma OneMoreTaken(events: seq<(Mask, Inputs)>, i: nat, got: seq<seq<Byte>>, part: seq<Byte>)
    requires i < |events| && |got| == i
    ensures var before := AllTaken(events[..i], got);
            AllTaken(events[..i + 1], got + [part])
            == before + Taken(|Joined(got)| - before, part, events[i].1.take)
  {
    OneMore(events, i, got, part);
  }

  lemma OneMoreActs(start: seq<Act>, events: seq<(Mask, Inputs)>, i: nat, got: seq<seq<Byte>>, part: seq<Byte>,
                    cfg: Settings)
    requires i < |events| && |got| == i
    ensures var acts, inp := DriveActs(start, events[..i], got, cfg), Delivered(events[i].1, part);
            DriveActs(start, events[..i + 1], got + [part], cfg)
            == acts + EventActs(Run(Fresh(), acts, cfg), events[i].0, inp, cfg)
  {
    OneMore(events, i, got, part);
  }

  /** A message taken, and the rest left, out of what was there and what has come. */
  lemma Regroup(taken: seq<Byte>, msg: seq<Byte>, rest: seq<Byte>, before: seq<Byte>, joined: seq<Byte>,
                part: seq<Byte>)
    requires msg + rest == before + part && taken + before == joined
    ensures (taken + msg) + rest == joined + part
  {
    assert (taken + msg) + rest == taken + (msg + rest);
    assert joined + part == taken + (before + part);
  }

  /** What is to be seen of a connection after `events` that have delivered `got`: its view
      `c`, what its message callbacks have taken, what its input buffer holds, and how often
      the server was told of a close. */
  ghost predicate Driven(start: seq<Act>, events: seq<(Mask, Inputs)>, got: seq<seq<Byte>>,
                         c: Conn, taken: seq<Byte>, held: seq<Byte>, closes: int, cfg: Settings) {
    && AllDelivered(got, events)
    && c == Run(Fresh(), DriveActs(start, events, got, cfg), cfg)
    && taken + held == Joined(got) && |taken| == AllTaken(events, got)
    && closes == AllCloses(events)
  }

  lemma DrivenOn(start: seq<Act>, events: seq<(Mask, Inputs)>, i: nat, got: seq<seq<Byte>>, part: seq<Byte>,
                 c: Conn, c': Conn, taken: seq<Byte>, msg: seq<Byte>, held: seq<Byte>, held': seq<Byte>,
                 closes: int, cfg: Settings)
    requires i < |events| && Driven(start, events[..i], got, c, taken, held, closes, cfg)
    requires Delivers(part, events[i].0, events[i].1)
    requires c' == Run(c, EventActs(c, events[i].0, Delivered(events[i].1, part), cfg), cfg)
    requires msg + held' == held + part && |msg| == Taken(|held|, part, events[i].1.take)
    ensures Driven(start, events[..i + 1], got + [part], c', taken + msg, held',
                   closes + Closes(events[i].0, events[i].1), cfg)
  {
    OneMore(events, i, got, part);
    OneMoreCloses(events, i);
    OneMoreDelivered(events, i, got, part);
    OneMoreTaken(events, i, got, part);
    Regroup(taken, msg, held', held, Joined(got), part);
    assert |held| == |Joined(got)| - |taken|;
    DrivenActs(start, events, i, got, part, c, cfg);
  }

  lemma DrivenActs(start: seq<Act>, events: seq<(Mask, Inputs)>, i: nat, got: seq<seq<Byte>>, part: seq<Byte>,
                   c: Conn, cfg: Settings)
    requires i < |events| && |got| == i && c == Run(Fresh(), DriveActs(start, events[..i], got, cfg), cfg)
    ensures Run(c, EventActs(c, events[i].0, Delivered(events[i].1, part), cfg), cfg)
            == Run(Fresh(), DriveActs(start, events[..i + 1], got + [part], cfg), cfg)
  {
    OneMoreActs(start, events, i, got, part, cfg);
    RunConcat(Fresh(), DriveActs(start, events[..i], got, cfg),
              EventActs(c, events[i].0, Delivered(events[i].1, part), cfg), cfg);
  }

  predicate AllCallbackActs(events: seq<(Mask, Inputs)>) {
    forall i | 0 <= i < |events| :: CallbackActs(events[i].1.onMessage) && CallbackActs(events[i].1.onClose)
  }

  // ---- what an event does ----

  /** From `c` to `c'` the kernel, offered all that is pending, has taken as much of it as it
      would take, `n` bytes at most. */
  ghost predicate Flushed(c: Conn, c': Conn, n: nat, cfg: Settings) {
    if n == 0 || c.out == [] || !IsOpen(c.state) then c' == c
    else
      var k := Min(n, |c.out|);
      && c'.wire == c.wire + c.out[..k] && c'.out == c.out[k..]
      && c'.state == c.state && c'.idx == Added && c'.events == c.events.(output := k < |c.out|)
      && c'.shut == (if k == |c.out| && c.state == Disconnecting then 1 else 0)
      && c'.notes == c.notes + if k == |c.out| && cfg.hasWriteComplete then [WriteComplete] else []
  }

  /** From `c` to `c'` the connection has become disconnected, or was already, and nothing
      more has been sent or half-closed. */
  predicate Ended(c: Conn, c': Conn) {
    && c'.state == Disconnected && c'.events == Mask(false, false, false, false, false) && c'.idx != New
    && c'.wire == c.wire && c'.out == c.out && c'.shut == c.shut && c'.notes == c.notes
  }

  /** What one event does: either it ends the connection, or the message callback acts on
      what has come, if anything, and then pending output is flushed if the event reports
      that there is room for it. */
  ghost predicate Results(c: Conn, c': Conn, revents: Mask, inp: Inputs, cfg: Settings) {
    if Ends(revents, inp) then Ended(c, c')
    else
      Flushed(if Brings(revents, inp) then Run(c, inp.onMessage, cfg) else c, c',
              if revents.output && inp.write.Wrote? then inp.write.n else 0, cfg)
  }

  /** What event handlers and their callbacks do to a connection. */
  predicate HandlerActs(acts: seq<Act>) {
    forall i | 0 <= i < |acts| :: acts[i].Send? || acts[i].Shutdown? || acts[i].HandleWrite? || acts[i].HandleClose?
  }

  lemma StaysEnded(c: Conn, a: Act, cfg: Settings)
    requires Inv(c) && Ended(c, c) && (a.Send? || a.Shutdown? || a.HandleWrite? || a.HandleClose?)
    ensures Ended(c, Step(c, a, cfg))
  {
  }

  lemma {:induction false} EndedStays(c: Conn, acts: seq<Act>, cfg: Settings)
    requires Inv(c) && Ended(c, c)
    requires HandlerActs(acts)
    ensures Ended(c, Run(c, acts, cfg))
    decreases |acts|
  {
    if acts == [] {
    } else {
      var n := |acts| - 1;
      EndedStays(c, acts[..n], cfg);
      RunInv(c, acts[..n], cfg);
      StaysEnded(Run(c, acts[..n], cfg), acts[n], cfg);
    }
  }

  lemma CloseFirst(c: Conn, acts: seq<Act>, cfg: Settings)
    requires Inv(c) && c.idx != New
    requires HandlerActs(acts)
    ensures Ended(c, Run(c, [HandleClose] + acts, cfg))
  {
    RunCons(c, HandleClose, acts, cfg);
    ConnectionLaws.CloseGives(c, cfg);
    StepInv(c, HandleClose, cfg);
    EndedStays(Step(c, HandleClose, cfg), acts, cfg);
  }

  lemma ClippedWrite(c: Conn, res: WriteResult, cfg: Settings)
    requires Inv(c) && c.idx != New
    ensures Flushed(c, Step(c, HandleWrite(Clip(res, |c.out|)), cfg), if res.Wrote? then res.n else 0, cfg)
  {
    var r := Clip(res, |c.out|);
    if IsOpen(c.state) && r.Wrote? && r.n > 0 {
      ConnectionLaws.HandleWriteGives(c, r.n, cfg);
    } else {
      ConnectionLaws.HandleWriteIdle(c, r, cfg);
    }
  }

  /** If the event ends the connection, handle_close is the first act. */
  lemma EndsFirst(c: Conn, revents: Mask, inp: Inputs, cfg: Settings) returns (rest: seq<Act>)
    requires CallbackActs(inp.onMessage) && CallbackActs(inp.onClose) && Ends(revents, inp)
    ensures EventActs(c, revents, inp, cfg) == [HandleClose] + rest
    ensures HandlerActs(rest)
  {
    var acts := EventActs(c, revents, inp, cfg);
    rest := acts[1..];
  }

  /** The acts of an event have this result. */
  lemma EventResults(c: Conn, revents: Mask, inp: Inputs, cfg: Settings)
    requires Inv(c) && c.idx != New && CallbackActs(inp.onMessage) && CallbackActs(inp.onClose)
    ensures Results(c, Run(c, EventActs(c, revents, inp, cfg), cfg), revents, inp, cfg)
  {
    if Ends(revents, inp) {
      var rest := EndsFirst(c, revents, inp, cfg);
      CloseFirst(c, rest, cfg);
    } else {
      var acts := InputActs(revents, inp);
      assert acts == if Brings(revents, inp) then inp.onMessage else [];
      RunInv(c, acts, cfg);
      StaysKnown(c, acts, cfg);
      if revents.output {
        RunSnoc(c, acts, HandleWrite(Clip(inp.write, |Run(c, acts, cfg).out|)), cfg);
        ClippedWrite(Run(c, acts, cfg), inp.write, cfg);
      } else {
        assert EventActs(c, revents, inp, cfg) == acts;
      }
    }
  }

  /** Room for output, and nothing else: the kernel gets what it takes of what is pending. */
  lemma OutputOnly(c: Conn, c': Conn, inp: Inputs, cfg: Settings)
    ensures Results(c, c', EPOLLOUT, inp, cfg) && IsOpen(c.state) && inp.write.Wrote? ==>
              var n := Min(inp.write.n, |c.out|);
              c'.wire == c.wire + c.out[..n] && c'.out == c.out[n..]
  {
  }

  /** handle_write is run exactly when the event reports room for output, once, after all
      the rest, and with the kernel's own answer. */
  lemma WritesOnce(c: Conn, revents: Mask, inp: Inputs, cfg: Settings)
    requires CallbackActs(inp.onMessage) && CallbackActs(inp.onClose)
    ensures var acts := EventActs(c, revents, inp, cfg);
            var n := |acts| - if revents.output then 1 else 0;
            && 0 <= n && (forall i | 0 <= i < n :: !acts[i].HandleWrite?)
            && (revents.output ==> acts[n].HandleWrite?)
            && (revents.output && WriteFits(inp.write, |Run(c, acts[..n], cfg).out|) ==> acts[n].res == inp.write)
  {
    var acts := InputActs(revents, inp);
    assert forall i | 0 <= i < |acts| :: !acts[i].HandleWrite?;
    if revents.output {
      assert EventActs(c, revents, inp, cfg)[..|acts|] == acts;
    }
  }

  /** What is to be seen of a connection after the first `i` events. */
  ghost function Seen(start: seq<Act>, events: seq<(Mask, Inputs)>, got: seq<seq<Byte>>, i: nat, cfg: Settings): Conn
    requires i <= |events| == |got|
  {
    Run(Fresh(), DriveActs(start, events[..i], got[..i], cfg), cfg)
  }

  lemma SeenNext(start: seq<Act>, events: seq<(Mask, Inputs)>, got: seq<seq<Byte>>, i: nat, cfg: Settings)
    requires i < |events| == |got|
    ensures var c := Seen(start, events, got, i, cfg);
            Seen(start, events, got, i + 1, cfg)
            == Run(c, EventActs(c, events[i].0, Delivered(events[i].1, got[i]), cfg), cfg)
  {
    DrivenActs(start, events, i, got[..i], got[i], Seen(start, events, got, i, cfg), cfg);
    assert got[..i + 1] == got[..i] + [got[i]];
  }

  lemma {:induction false} SeenKnown(start: seq<Act>, events: seq<(Mask, Inputs)>, got: seq<seq<Byte>>, i: nat,
                                     cfg: Settings)
    requires i <= |events| == |got| && AllCallbackActs(events) && Run(Fresh(), start, cfg).idx != New
    ensures Seen(start, events, got, i, cfg).idx != New
    decreases i
  {
    if i > 0 {
      var j := i - 1;
      SeenKnown(start, events, got, j, cfg);
      SeenNext(start, events, got, j, cfg);
      EventKnown(Seen(start, events, got, j, cfg), events[j].0, Delivered(events[j].1, got[j]), cfg);
    }
  }

  /** From each event to the next, what is seen is the event's result. */
  lemma DriveResults(start: seq<Act>, events: seq<(Mask, Inputs)>, got: seq<seq<Byte>>, i: nat, cfg: Settings)
    requires i < |events| == |got| && AllCallbackActs(events) && Run(Fresh(), start, cfg).idx != New
    ensures Results(Seen(start, events, got, i, cfg), Seen(start, events, got, i + 1, cfg),
                    events[i].0, Delivered(events[i].1, got[i]), cfg)
  {
    SeenKnown(start, events, got, i, cfg);
    SeenNext(start, events, got, i, cfg);
    RunInv(Fresh(), DriveActs(start, events[..i], got[..i], cfg), cfg);
    EventResults(Seen(start, events, got, i, cfg), events[i].0, Delivered(events[i].1, got[i]), cfg);
  }

  lemma EventKnown(c: Conn, revents: Mask, inp: Inputs, cfg: Settings)
    requires c.idx != New && CallbackActs(inp.onMessage) && CallbackActs(inp.onClose)
    ensures Run(c, EventActs(c, revents, inp, cfg), cfg).idx != New
  {
    StaysKnown(c, EventActs(c, revents, inp, cfg), cfg);
  }

  /** Every event has had its result. */
  ghost predicate AllResults(start: seq<Act>, events: seq<(Mask, Inputs)>, got: seq<seq<Byte>>, cfg: Settings)
    requires |got| == |events|
  {
    forall i | 0 <= i < |events| ::
      Results(Seen(start, events, got, i, cfg), Seen(start, events, got, i + 1, cfg),
              events[i].0, Delivered(events[i].1, got[i]), cfg)
  }

  lemma EveryResult(start: seq<Act>, events: seq<(Mask, Inputs)>, got: seq<seq<Byte>>, cfg: Settings)
    requires |events| == |got| && AllCallbackActs(events) && Run(Fresh(), start, cfg).idx != New
    ensures AllResults(start, events, got, cfg)
  {
    forall i | 0 <= i < |events|
      ensures Results(Seen(start, events, got, i, cfg), Seen(start, events, got, i + 1, cfg),
                      events[i].0, Delivered(events[i].1, got[i]), cfg)
    {
      DriveResults(start, events, got, i, cfg);
    }
  }

  lemma SeenEnds(start: seq<Act>, events: seq<(Mask, Inputs)>, got: seq<seq<Byte>>, cfg: Settings)
    requires |events| == |got|
    ensures Seen(start, events, got, 0, cfg) == Run(Fresh(), start, cfg)
    ensures Seen(start, events, got, |events|, cfg) == Run(Fresh(), DriveActs(start, events, got, cfg), cfg)
  {
    assert events[..|events|] == events && got[..|got|] == got;
  }
}
