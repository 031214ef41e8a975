/** net/tcp_connection as an object over a real channel, poller and buffers.  Each method
    is specified by the acts of module ConnectionSpec that it amounts to. */
module TcpConnections {
  import opened Epoll
  import opened Buffers
  import opened ConnectionSpec
  import opened ConnectionEvents
  import ConnectionLaws
  import opened Polling

  /** The kernel's side of the descriptor: what it has taken, and how often it was asked
      to shut the writing half. */
  class Socket {
    var wire: seq<Byte>
    var shut: nat

    constructor ()
      ensures wire == [] && shut == 0
    {
      wire, shut := [], 0;
    }

    method Write(bytes: seq<Byte>, res: WriteResult) returns (ret: int)
      requires WriteFits(res, |bytes|)
      modifies this`wire
      ensures ret == if res.Wrote? then res.n else -1
      ensures wire == if res.Wrote? then old(wire) + bytes[..res.n] else old(wire)
    {
      if res.Wrote? {
        wire := wire + bytes[..res.n];
        ret := res.n;
      } else {
        ret := -1;
      }
    }

    method ShutdownWrite()
      modifies this`shut
      ensures shut == old(shut) + 1
    {
      shut := shut + 1;
    }
  }

  class TcpConnection {
    const cfg: Settings
    const repaired: bool    // the form of buffer::read_fd
    const socket: Socket
    const channel: Channel
    const input: Buffer
    const output: Buffer
    var state: State
    var posted: seq<Note>   // given to loop_->queue_in_loop
    var closeCalls: nat     // calls of close_callback_, the server's remove_connection

    ghost function View(): Conn
      reads this, socket, channel, output, output.data
      requires output.Valid()
    {
      Conn(state, output.Contents(), channel.events, channel.idx, socket.wire, socket.shut, posted)
    }

    ghost predicate Valid()
      reads this, socket, channel, channel.loop, channel.loop.managed`events, channel.loop.managed`idx,
            input, output, output.data
    {
      && channel.Ready() && channel.noneTest == cfg.noneTest
      && input.Valid() && output.Valid() && input != output && input.data != output.data
      && Inv(View())
    }

    /** What the methods change; other connections of the same poller are not in it. */
    ghost function Repr(): set<object>
      reads input, output
    {
      {this, socket, channel, channel.loop, input, input.data, output, output.data}
    }

    constructor (loop: EpollPoller, fd: int, cfg: Settings, repaired: bool)
      requires loop.Valid()
      requires forall d | d in loop.managed && d.idx != New :: d.fd != fd
      modifies loop`managed
      ensures Valid() && View() == Fresh()
      ensures fresh(socket) && fresh(input) && fresh(input.data) && fresh(output) && fresh(output.data)
      ensures channel.loop == loop && channel.fd == fd && this.cfg == cfg && this.repaired == repaired
      ensures loop.managed == old(loop.managed) + {channel} && fresh(channel)
      ensures input.Contents() == [] && closeCalls == 0
    {
      this.cfg, this.repaired := cfg, repaired;
      socket := new Socket();
      channel := new Channel(loop, fd, cfg.noneTest);
      input := new Buffer(INITIAL_SIZE);
      output := new Buffer(INITIAL_SIZE);
      state, posted, closeCalls := Connecting, [], 0;
      new;
      assert loop.View() == old(loop.View());
      loop.Manage(channel);
      assert View() == Fresh();
      assert Inv(Fresh());
      assert input.Valid() && output.Valid() && input != output && input.data != output.data;
      assert Valid();
    }

    /** queue_in_loop of a bound callback */
    method Post(note: Note)
      modifies this`posted
      ensures posted == old(posted) + [note]
    {
      posted := posted + [note];
    }

    method SendInLoop(bytes: seq<Byte>, res: WriteResult)
      requires Valid() && WriteFits(res, |bytes|)
      requires state == Connected || state == Disconnected
      modifies Repr()
      ensures channel.loop.managed == old(channel.loop.managed)
      ensures Valid() && fresh(Repr() - old(Repr()))
      ensures View() == ConnectionSpec.SendInLoop(old(View()), bytes, res, cfg)
      ensures old(state) == Disconnected || (res.PeerGone? && old(output.Contents()) == []) ==> View() == old(View())
      ensures old(state) == Connected && !(res.PeerGone? && old(output.Contents()) == []) ==>
                socket.wire + output.Contents() == old(socket.wire) + old(output.Contents()) + bytes
      ensures closeCalls == old(closeCalls) && channel.revents == old(channel.revents)
      ensures input.data == old(input.data) && input.View() == old(input.View())
      ensures input.Contents() == old(input.Contents())
    {
      var nwrote := 0;
      var remaining := |bytes|;
      var fault := false;
      if state == Disconnected {
        return;
      }
      if !channel.IsWriting() && output.writer - output.reader == 0 {
        nwrote := socket.Write(bytes, res);
        if nwrote >= 0 {
          remaining := |bytes| - nwrote;
          if remaining == 0 && cfg.hasWriteComplete {
            Post(WriteComplete);
          }
        } else {
          nwrote := 0;
          if res != WouldBlock {
            if res == PeerGone {
              fault := true;
            }
          }
        }
      }
      ghost var mid := View();
      assert mid.wire == Direct(old(View()), bytes, res, cfg).0.wire;
      assert mid.notes == Direct(old(View()), bytes, res, cfg).0.notes;
      assert (mid, nwrote) == Direct(old(View()), bytes, res, cfg);
      if !fault && remaining > 0 {
        BufferRest(bytes[nwrote..]);
      }
      SendInv(old(View()), bytes, res, cfg);
      ConnectionLaws.SendKeepsPayload(old(View()), bytes, res, cfg);
    }

    /** The second half of send_in_loop: high-water mark, append, enable writing. */
    method BufferRest(rest: seq<Byte>)
      requires channel.Ready() && channel.noneTest == cfg.noneTest
      requires input.Valid() && output.Valid() && input != output && input.data != output.data
      modifies Repr()
      ensures channel.loop.managed == old(channel.loop.managed)
      ensures channel.Ready()
      ensures input.Valid() && output.Valid() && input.data != output.data && fresh(Repr() - old(Repr()))
      ensures View() == Buffered(old(View()), rest, cfg)
      ensures closeCalls == old(closeCalls) && channel.revents == old(channel.revents)
      ensures input.data == old(input.data) && input.View() == old(input.View())
      ensures input.Contents() == old(input.Contents())
    {
      TestHighWater(output.writer - output.reader, |rest|);
      AppendOutput(rest);
      if !channel.IsWriting() {
        channel.EnableWriting();
      }
    }

    method TestHighWater(oldlen: nat, more: nat)
      modifies this`posted
      ensures var crossed := oldlen + more >= cfg.mark && oldlen < cfg.mark && cfg.hasHighWater;
              posted == old(posted) + if crossed then [HighWater(oldlen + more)] else []
    {
      if oldlen + more >= cfg.mark && oldlen < cfg.mark && cfg.hasHighWater {
        Post(HighWater(oldlen + more));
      }
    }

    method AppendOutput(rest: seq<Byte>)
      requires channel.Ready() && input.Valid() && output.Valid() && input != output && input.data != output.data
      modifies output, output.data
      ensures channel.Ready() && input.Valid() && output.Valid() && input.data != output.data
      ensures output.data == old(output.data) || fresh(output.data)
      ensures output.Contents() == old(output.Contents()) + rest
      ensures input.Contents() == old(input.Contents())
    {
      output.Append(rest);
    }

    /** send, called on the connection's own loop thread */
    method Send(bytes: seq<Byte>, res: WriteResult)
      requires Valid() && WriteFits(res, |bytes|)
      modifies Repr()
      ensures channel.loop.managed == old(channel.loop.managed)
      ensures Valid() && fresh(Repr() - old(Repr()))
      ensures View() == Step(old(View()), Act.Send(bytes, res), cfg)
      ensures old(state) == Connected && !(res.PeerGone? && old(output.Contents()) == []) ==>
                socket.wire + output.Contents() == old(socket.wire) + old(output.Contents()) + bytes
      ensures closeCalls == old(closeCalls) && channel.revents == old(channel.revents)
      ensures input.data == old(input.data) && input.View() == old(input.View())
      ensures input.Contents() == old(input.Contents())
    {
      if state == Connected {
        SendInLoop(bytes, res);
      }
    }

    /** shutdown, called on the connection's own loop thread, where run_in_loop runs
        shutdown_in_loop at once */
    method Shutdown()
      requires Valid()
      modifies this`state, socket
      ensures Valid() && View() == Step(old(View()), Act.Shutdown, cfg)
      ensures old(state) == Connected ==>
                state == Disconnecting && socket.shut == if output.Contents() == [] then 1 else 0
    {
      if state == Connected {
        ShutdownInv(View());
        ConnectionLaws.ShutdownGives(View(), cfg);
        state := Disconnecting;
        ShutdownInLoop();
      }
    }

    method ShutdownInLoop()
      modifies socket`shut
      ensures socket.shut == old(socket.shut) + if channel.IsWriting() then 0 else 1
    {
      if !channel.IsWriting() {
        socket.ShutdownWrite();
      }
    }

    /** An application callback: any sequence of sends and shutdowns. */
    method Callback(acts: seq<Act>)
      requires Valid() && CallbackActs(acts)
      modifies Repr()
      ensures channel.loop.managed == old(channel.loop.managed)
      ensures Valid() && fresh(Repr() - old(Repr()))
      ensures View() == Run(old(View()), acts, cfg)
      ensures closeCalls == old(closeCalls) && channel.revents == old(channel.revents)
      ensures input.data == old(input.data) && input.View() == old(input.View())
      ensures input.Contents() == old(input.Contents())
    {
      ghost var before := View();
      for i := 0 to |acts|
        invariant Valid() && fresh(Repr() - old(Repr()))
        invariant View() == Run(before, acts[..i], cfg) && channel.loop.managed == old(channel.loop.managed)
        invariant closeCalls == old(closeCalls) && channel.revents == old(channel.revents)
        invariant input.data == old(input.data) && input.View() == old(input.View())
        invariant input.Contents() == old(input.Contents())
      {
        assert acts[..i + 1] == acts[..i] + [acts[i]];
        RunSnoc(before, acts[..i], acts[i], cfg);
        if acts[i].Shutdown? {
          Shutdown();
        } else {
          Send(acts[i].bytes, acts[i].res);
        }
      }
      assert acts[..|acts|] == acts;
    }

    /** The change of state and mask that connection_established starts with. */
    method Open()
      requires Valid() && state == Connecting
      modifies this`state, channel, channel.loop
      ensures channel.loop.managed == old(channel.loop.managed)
      ensures Valid() && View() == Step(old(View()), Establish, cfg)
    {
      StepInv(View(), Establish, cfg);
      state := Connected;
      channel.EnableReading();
    }

    /** The change of state and mask that handle_close and connection_destroyed share. */
    method Close()
      requires Valid() && channel.idx != New
      modifies this`state, channel, channel.loop
      ensures channel.loop.managed == old(channel.loop.managed)
      ensures Valid() && View() == Step(old(View()), Act.HandleClose, cfg)
      ensures channel.revents == old(channel.revents)
    {
      StepInv(View(), Act.HandleClose, cfg);
      state := Disconnected;
      channel.DisableAll();
    }

    method ConnectionEstablished(onConnection: seq<Act>)
      requires Valid() && state == Connecting && CallbackActs(onConnection)
      modifies Repr()
      ensures channel.loop.managed == old(channel.loop.managed)
      ensures Valid() && fresh(Repr() - old(Repr()))
      ensures View() == Run(old(View()), [Establish] + onConnection, cfg)
      ensures closeCalls == old(closeCalls) && input.Contents() == old(input.Contents())
    {
      RunCons(View(), Establish, onConnection, cfg);
      Open();
      Callback(onConnection);
    }

    method Unregister()
      requires Valid() && state != Connecting && state != Connected
      modifies channel, channel.loop
      ensures channel.loop.managed == old(channel.loop.managed)
      ensures Valid() && View() == old(View()).(idx := New) && channel.fd !in channel.loop.kernel
    {
      channel.Remove();
    }

    /** The connection callback, run only if the connection was still connected, has no
        effect on it any more. */
    method ConnectionDestroyed(onConnection: seq<Act>)
      requires Valid() && state != Connecting && CallbackActs(onConnection)
      modifies Repr()
      ensures channel.loop.managed == old(channel.loop.managed)
      ensures Valid() && fresh(Repr() - old(Repr()))
      ensures View() == Step(old(View()), Destroy, cfg)
      ensures channel.fd !in channel.loop.kernel
    {
      if state == Connected {
        Close();
        DisconnectedIgnores(View(), onConnection, cfg);
        Callback(onConnection);
      }
      Unregister();
    }

    method HandleWrite(res: WriteResult)
      requires Valid() && channel.idx != New && WriteFits(res, |output.Contents()|)
      modifies Repr()
      ensures channel.loop.managed == old(channel.loop.managed)
      ensures Valid() && Repr() == old(Repr()) && channel.idx != New
      ensures View() == Step(old(View()), Act.HandleWrite(res), cfg)
      ensures Flushed(old(View()), View(), if res.Wrote? then res.n else 0, cfg)
      ensures closeCalls == old(closeCalls) && channel.revents == old(channel.revents)
      ensures input.Contents() == old(input.Contents())
    {
      StepInv(View(), Act.HandleWrite(res), cfg);
      ClippedWrite(View(), res, cfg);
      if channel.IsWriting() {
        WriteOutput(res);
      }
    }

    /** handle_write of a channel that is writing. */
    method WriteOutput(res: WriteResult)
      requires channel.Ready() && channel.noneTest == cfg.noneTest
      requires input.Valid() && output.Valid() && input != output && input.data != output.data
      requires WriteFits(res, |output.Contents()|)
      modifies this, socket, channel, channel.loop, output
      ensures channel.loop.managed == old(channel.loop.managed)
      ensures channel.Ready() && input.Valid() && output.Valid() && Repr() == old(Repr())
      ensures View() == if res.Wrote? && res.n > 0 then Drained(old(View()), res.n, cfg) else old(View())
      ensures closeCalls == old(closeCalls)
      ensures channel.revents == old(channel.revents) && input.Contents() == old(input.Contents())
    {
      var ret := socket.Write(output.Contents(), res);
      if ret > 0 {
        Drain(ret);
      } else {
        assert socket.wire == old(socket.wire);
      }
    }

    /** handle_write after the kernel has taken `n` bytes. */
    method Drain(n: nat)
      requires channel.Ready() && channel.noneTest == cfg.noneTest
      requires input.Valid() && output.Valid() && input != output && input.data != output.data
      requires 0 < n <= |output.Contents()|
      modifies this, socket`shut, channel, channel.loop, output
      ensures channel.loop.managed == old(channel.loop.managed)
      ensures channel.Ready() && input.Valid() && output.Valid() && Repr() == old(Repr())
      ensures View() == Retrieved(old(View()).(out := old(output.Contents())[n..]), cfg)
      ensures closeCalls == old(closeCalls)
      ensures channel.revents == old(channel.revents) && input.Contents() == old(input.Contents())
    {
      output.Retrieve(n);
      if output.writer - output.reader == 0 {
        FinishWriting();
      }
    }

    /** The output buffer has just been emptied by handle_write. */
    method FinishWriting()
      requires channel.Ready() && channel.noneTest == cfg.noneTest && output.Valid()
      modifies this, socket`shut, channel, channel.loop
      ensures channel.loop.managed == old(channel.loop.managed)
      ensures channel.Ready()
      ensures state == old(state) && closeCalls == old(closeCalls) && channel.revents == old(channel.revents)
      ensures channel.events == old(channel.events).Without(WRITE_EVENT)
      ensures channel.idx == IndexAfter(old(channel.idx), channel.events, cfg.noneTest)
      ensures posted == old(posted) + if cfg.hasWriteComplete then [WriteComplete] else []
      ensures socket.shut == old(socket.shut) + if state == Disconnecting then 1 else 0
    {
      channel.DisableWriting();
      if cfg.hasWriteComplete {
        Post(WriteComplete);
      }
      if state == Disconnecting {
        ShutdownInLoop();
      }
    }

    method HandleClose(onConnection: seq<Act>)
      requires Valid() && channel.idx != New && CallbackActs(onConnection)
      modifies Repr()
      ensures channel.loop.managed == old(channel.loop.managed)
      ensures Valid() && fresh(Repr() - old(Repr()))
      ensures View() == Run(old(View()), [Act.HandleClose] + onConnection, cfg)
      ensures closeCalls == old(closeCalls) + 1 && channel.revents == old(channel.revents)
      ensures input.data == old(input.data) && input.View() == old(input.View())
      ensures input.Contents() == old(input.Contents())
    {
      RunCons(View(), Act.HandleClose, onConnection, cfg);
      Close();
      Callback(onConnection);
      closeCalls := closeCalls + 1;
    }

    /** The read itself, into the input buffer. */
    method ReadInput(res: ReadResult) returns (ret: int, ok: bool)
      requires Valid() && ReadFits(res, input.View().Writable())
      modifies input, input.data
      ensures ret == if res.Got? then |res.bytes| else -1
      ensures ok <==> repaired || res.Failed? || |res.bytes| <= old(input.View().Writable())
      ensures input.data == old(input.data) || fresh(input.data)
      ensures ok ==> Valid() && View() == old(View())
      ensures ok ==> input.Contents() == old(input.Contents()) + if res.Got? then res.bytes else []
    {
      ret, ok := input.ReadFd(res, repaired);
    }

    /** The message callback takes up to `take` bytes from the input buffer, then acts. */
    method OnMessage(take: nat, acts: seq<Act>) returns (msg: seq<Byte>)
      requires Valid() && CallbackActs(acts)
      modifies Repr()
      ensures channel.loop.managed == old(channel.loop.managed)
      ensures Valid() && fresh(Repr() - old(Repr()))
      ensures View() == Run(old(View()), acts, cfg)
      ensures msg + input.Contents() == old(input.Contents()) && |msg| == Min(take, |old(input.Contents())|)
      ensures closeCalls == old(closeCalls) && channel.revents == old(channel.revents)
    {
      msg := TakeInput(take);
      Callback(acts);
    }

    method TakeInput(take: nat) returns (msg: seq<Byte>)
      requires Valid()
      modifies input
      ensures Valid() && View() == old(View()) && input.data == old(input.data)
      ensures msg + input.Contents() == old(input.Contents()) && |msg| == Min(take, |old(input.Contents())|)
    {
      msg := input.RetrieveAsString(Min(take, input.writer - input.reader));
    }

    /** `ok` is false only where the written form of read_fd overruns its buffer.  Otherwise
        what the message callback takes and what the input buffer keeps are, in order, what
        the buffer held and what was read. */
    method HandleRead(inp: Inputs) returns (ok: bool, msg: seq<Byte>)
      requires Valid() && channel.idx != New && ReadFits(inp.read, input.View().Writable())
      requires CallbackActs(inp.onMessage) && CallbackActs(inp.onClose)
      modifies Repr()
      ensures channel.loop.managed == old(channel.loop.managed)
      ensures ok <==> repaired || inp.read.Failed? || |inp.read.bytes| <= old(input.View().Writable())
      ensures ok ==> Valid() && fresh(Repr() - old(Repr())) && channel.idx != New
      ensures ok ==> View() == Run(old(View()), ReadActs(inp), cfg)
      ensures ok ==> closeCalls == old(closeCalls) + if inp.read == Got([]) then 1 else 0
      ensures ok ==> msg + input.Contents() == old(input.Contents()) + if inp.read.Got? then inp.read.bytes else []
      ensures ok ==> |msg| == Taken(|old(input.Contents())|, if inp.read.Got? then inp.read.bytes else [], inp.take)
      ensures channel.revents == old(channel.revents)
    {
      StaysKnown(View(), ReadActs(inp), cfg);
      msg := [];
      var ret;
      ret, ok := ReadInput(inp.read);
      if !ok {
        return;
      }
      if ret > 0 {
        msg := OnMessage(inp.take, inp.onMessage);
      } else if ret == 0 {
        HandleClose(inp.onClose);
      }
    }

    /** channel::handle_event_with_guard: first the close callback... */
    method HandleHangUp(inp: Inputs)
      requires Valid() && channel.idx != New && CallbackActs(inp.onClose)
      modifies Repr()
      ensures channel.loop.managed == old(channel.loop.managed)
      ensures Valid() && fresh(Repr() - old(Repr())) && channel.idx != New
      ensures View() == Run(old(View()), CloseActs(channel.revents, inp), cfg)
      ensures closeCalls == old(closeCalls) + HangUps(channel.revents) && channel.revents == old(channel.revents)
      ensures input.data == old(input.data) && input.View() == old(input.View())
      ensures input.Contents() == old(input.Contents())
    {
      StaysKnown(View(), CloseActs(channel.revents, inp), cfg);
      if channel.revents.hangUp && !channel.revents.input {
        HandleClose(inp.onClose);
      }
    }

    /** ... then the read callback... */
    method HandleInput(inp: Inputs) returns (ok: bool, msg: seq<Byte>)
      requires Valid() && channel.idx != New && ReadFits(inp.read, input.View().Writable())
      requires CallbackActs(inp.onMessage) && CallbackActs(inp.onClose)
      modifies Repr()
      ensures channel.loop.managed == old(channel.loop.managed)
      ensures ok <==> repaired || !channel.revents.Meets(READ_EVENT) || inp.read.Failed?
                      || |inp.read.bytes| <= old(input.View().Writable())
      ensures channel.revents == old(channel.revents)
      ensures ok ==> Valid() && fresh(Repr() - old(Repr())) && channel.idx != New
      ensures ok ==> View() == Run(old(View()), InputActs(channel.revents, inp), cfg)
      ensures ok ==> closeCalls == old(closeCalls) + Closes(channel.revents, inp)
      ensures ok ==> msg + input.Contents() == old(input.Contents()) + Received(channel.revents, inp)
      ensures ok ==> |msg| == Taken(|old(input.Contents())|, Received(channel.revents, inp), inp.take)
    {
      ok, msg := true, [];
      ghost var before := View();
      ghost var close := CloseActs(channel.revents, inp);
      HandleHangUp(inp);
      if channel.revents.Meets(READ_EVENT) {
        RunConcat(before, close, ReadActs(inp), cfg);
        ok, msg := HandleRead(inp);
      } else {
        assert close + [] == close;
      }
    }

    /** ... then the write callback. */
    method HandleOutput(inp: Inputs, ghost before: Conn, ghost acts: seq<Act>)
      requires Valid() && channel.idx != New && View() == Run(before, acts, cfg)
      modifies Repr()
      ensures channel.loop.managed == old(channel.loop.managed)
      ensures Valid() && Repr() == old(Repr()) && channel.idx != New && channel.revents == old(channel.revents)
      ensures closeCalls == old(closeCalls) && input.Contents() == old(input.Contents())
      ensures View() == Run(before, acts + WriteActs(channel.revents, inp, Run(before, acts, cfg)), cfg)
    {
      ghost var write := WriteActs(channel.revents, inp, View());
      if channel.revents.output {
        var res := Clip(inp.write, output.writer - output.reader);
        RunSnoc(before, acts, Act.HandleWrite(res), cfg);
        HandleWrite(res);
      } else {
        assert acts + write == acts;
      }
    }

    method HandleEventWithGuard(inp: Inputs) returns (ok: bool, msg: seq<Byte>)
      requires Valid() && channel.idx != New && ReadFits(inp.read, input.View().Writable())
      requires CallbackActs(inp.onMessage) && CallbackActs(inp.onClose)
      modifies Repr()
      ensures channel.loop.managed == old(channel.loop.managed)
      ensures ok <==> repaired || !channel.revents.Meets(READ_EVENT) || inp.read.Failed?
                      || |inp.read.bytes| <= old(input.View().Writable())
      ensures channel.revents == old(channel.revents)
      ensures ok ==> Valid() && fresh(Repr() - old(Repr())) && channel.idx != New
      ensures ok ==> View() == Run(old(View()), EventActs(old(View()), channel.revents, inp, cfg), cfg)
      ensures ok ==> closeCalls == old(closeCalls) + Closes(channel.revents, inp)
      ensures ok ==> msg + input.Contents() == old(input.Contents()) + Received(channel.revents, inp)
      ensures ok ==> |msg| == Taken(|old(input.Contents())|, Received(channel.revents, inp), inp.take)
    {
      ghost var before := View();
      ok, msg := HandleInput(inp);
      if ok {
        HandleOutput(inp, before, InputActs(channel.revents, inp));
      }
    }

    /** handle_event, by the reported mask and the kernel's answers alone.  The connection is
        held, so the guard is passed. */
    method HandleEvent(inp: Inputs) returns (ok: bool, msg: seq<Byte>)
      requires Valid() && channel.idx != New && ReadFits(inp.read, input.View().Writable())
      requires CallbackActs(inp.onMessage) && CallbackActs(inp.onClose)
      modifies Repr()
      ensures channel.loop.managed == old(channel.loop.managed)
      ensures ok <==> repaired || !channel.revents.Meets(READ_EVENT) || inp.read.Failed?
                      || |inp.read.bytes| <= old(input.View().Writable())
      ensures ok ==> Valid() && fresh(Repr() - old(Repr())) && channel.idx != New
      ensures ok ==> View() == Run(old(View()), EventActs(old(View()), channel.revents, inp, cfg), cfg)
      ensures ok ==> closeCalls == old(closeCalls) + Closes(channel.revents, inp)
      ensures ok ==> msg + input.Contents() == old(input.Contents()) + Received(channel.revents, inp)
      ensures ok ==> |msg| == Taken(|old(input.Contents())|, Received(channel.revents, inp), inp.take)
      ensures channel.revents == old(channel.revents)
      ensures ok && Brings(channel.revents, inp) ==>
                |msg| == Min(inp.take, |old(input.Contents())| + |inp.read.bytes|)
      ensures ok ==> Results(old(View()), View(), channel.revents, inp, cfg)
      ensures ok && channel.revents == EPOLLOUT && IsOpen(old(state)) && inp.write.Wrote? ==>
                var pending := old(output.Contents());
                var n := Min(inp.write.n, |pending|);
                socket.wire == old(socket.wire) + pending[..n] && output.Contents() == pending[n..]
    {
      ghost var before := View();
      ok, msg := HandleEventWithGuard(inp);
      EventResults(before, channel.revents, inp, cfg);
      OutputOnly(before, Run(before, EventActs(before, channel.revents, inp, cfg), cfg), inp, cfg);
    }

    /** While the connection is open and not yet removed, the kernel watches its descriptor
        for this channel, and watches it for output exactly when output is waiting. */
    lemma KernelWatchesOutput()
      requires Valid() && IsOpen(state) && channel.idx != New
      ensures var kernel := channel.loop.kernel;
              && channel.fd in kernel
              && kernel[channel.fd] == Interest(channel.events, channel)
              && (kernel[channel.fd].mask.output <==> output.Contents() != [])
    {
      assert channel.loop.View().chans[channel] == Chan(channel.fd, channel.events, channel.idx);
    }

    /** A whole life up to removal: establishment, then any sequence of dispatched events
        with any answers of the kernel and any callbacks, until a read overruns the input
        buffer, as it does only in the written form of read_fd.  The connection has done
        exactly what its events and callbacks ask.  So the kernel has been given, and the
        output buffer still holds, what their sends had accepted, in order, and SHUT_WR was
        issued at most once, after everything; what the message callbacks asked for, and then
        what the input buffer still holds, are the bytes read, in order; and the server was
        told of a close by each hang-up and each end of stream. */
    method Drive(onConnection: seq<Act>, events: seq<(Mask, Inputs)>)
      returns (ok: bool, taken: seq<Byte>, ghost got: seq<seq<Byte>>)
      requires Valid() && View() == Fresh() && input.Contents() == [] && CallbackActs(onConnection)
      requires AllCallbackActs(events)
      modifies Repr()
      ensures channel.loop.managed == old(channel.loop.managed)
      ensures repaired ==> ok
      ensures ok ==> Valid() && AllDelivered(got, events)
      ensures ok ==> var acts := DriveActs([Establish] + onConnection, events, got, cfg);
                     && View() == Run(Fresh(), acts, cfg)
                     && socket.wire + output.Contents() == Accepted(Fresh(), acts, cfg)
                     && socket.shut <= 1 && (socket.shut == 1 ==> socket.wire == Accepted(Fresh(), acts, cfg))
      ensures ok ==> var start := [Establish] + onConnection;
                     && Seen(start, events, got, 0, cfg) == Run(Fresh(), start, cfg)
                     && Seen(start, events, got, |events|, cfg) == View()
                     && AllResults(start, events, got, cfg)
      ensures ok ==> taken + input.Contents() == Joined(got) && |taken| == AllTaken(events, got)
      ensures ok ==> closeCalls == old(closeCalls) + AllCloses(events)
    {
      ghost var start := [Establish] + onConnection;
      ConnectionEstablished(onConnection);
      RunCons(Fresh(), Establish, onConnection, cfg);
      StaysKnown(Step(Fresh(), Establish, cfg), onConnection, cfg);
      ok, taken, got := Events(start, events);
      if ok {
        ghost var acts := DriveActs(start, events, got, cfg);
        Conservation(Fresh(), acts, cfg);
        HalfClose(acts, [], cfg);
        SeenEnds(start, events, got, cfg);
        EveryResult(start, events, got, cfg);
      }
    }

    method Events(ghost start: seq<Act>, events: seq<(Mask, Inputs)>)
      returns (ok: bool, taken: seq<Byte>, ghost got: seq<seq<Byte>>)
      requires Valid() && channel.idx != New && View() == Run(Fresh(), start, cfg) && input.Contents() == []
      requires AllCallbackActs(events)
      modifies Repr()
      ensures channel.loop.managed == old(channel.loop.managed)
      ensures repaired ==> ok
      ensures ok ==> Valid()
      ensures ok ==>
                Driven(start, events, got, View(), taken, input.Contents(), closeCalls - old(closeCalls), cfg)
    {
      ok, taken, got := true, [], [];
      ghost var first := closeCalls;
      for i := 0 to |events|
        invariant ok && Valid() && fresh(Repr() - old(Repr())) && channel.idx != New
        invariant channel.loop.managed == old(channel.loop.managed)
        invariant Driven(start, events[..i], got, View(), taken, input.Contents(), closeCalls - first, cfg)
      {
        ok, taken, got := NextEvent(start, events, i, got, taken, first);
        if !ok {
          return;
        }
      }
      assert events[..|events|] == events;
    }

    /** One round of it. */
    method NextEvent(ghost start: seq<Act>, events: seq<(Mask, Inputs)>, i: nat, ghost got: seq<seq<Byte>>,
                     taken: seq<Byte>, ghost first: nat)
      returns (ok: bool, taken': seq<Byte>, ghost got': seq<seq<Byte>>)
      requires Valid() && channel.idx != New && i < |events| && AllCallbackActs(events)
      requires Driven(start, events[..i], got, View(), taken, input.Contents(), closeCalls - first, cfg)
      modifies Repr()
      ensures channel.loop.managed == old(channel.loop.managed)
      ensures repaired ==> ok
      ensures ok ==> Valid() && fresh(Repr() - old(Repr())) && channel.idx != New
      ensures ok ==> Driven(start, events[..i + 1], got', View(), taken', input.Contents(), closeCalls - first, cfg)
    {
      ghost var c, held, closes, part := View(), input.Contents(), closeCalls - first, [];
      var revents, inp := events[i].0, events[i].1;
      var msg;
      ok, msg, part := Dispatch(revents, inp);
      taken', got' := taken + msg, got + [part];
      if !ok {
        return;
      }
      ghost var c', held', closes' := View(), input.Contents(), closeCalls - first;
      DrivenOn(start, events, i, got, part, c, c', taken, msg, held, held', closes, cfg);
      assert closes' == closes + Closes(revents, inp);
    }

    /** poll_wait sets the reported mask, and the handlers run. */
    method Dispatch(revents: Mask, inp: Inputs) returns (ok: bool, msg: seq<Byte>, ghost part: seq<Byte>)
      requires Valid() && channel.idx != New && CallbackActs(inp.onMessage) && CallbackActs(inp.onClose)
      modifies Repr()
      ensures channel.loop.managed == old(channel.loop.managed)
      ensures repaired ==> ok
      ensures ok ==> Valid() && fresh(Repr() - old(Repr())) && channel.idx != New
      ensures ok ==> View() == Run(old(View()), EventActs(old(View()), revents, Delivered(inp, part), cfg), cfg)
      ensures ok ==> closeCalls == old(closeCalls) + Closes(revents, inp)
      ensures ok ==> Delivers(part, revents, inp) && msg + input.Contents() == old(input.Contents()) + part
      ensures ok ==> |msg| == Taken(|old(input.Contents())|, part, inp.take)
    {
      var inp' := inp.(read := ClipRead(inp.read, input.data.Length - input.writer));
      part := Received(revents, inp');
      ReadsDelivered(View(), revents, inp, inp', part, cfg);
      channel.revents := revents;
      ok, msg := HandleEvent(inp');
    }
  }

  // ---- connections of one poller ----

  /** Two connections of one poller, which is all that they share. */
  ghost predicate Beside(a: TcpConnection, b: TcpConnection)
    reads a.input, a.output, b.input, b.output
  {
    && a.channel.loop == b.channel.loop
    && b !in a.Repr() && b.socket !in a.Repr() && b.channel !in a.Repr()
    && b.input !in a.Repr() && b.input.data !in a.Repr() && b.output !in a.Repr() && b.output.data !in a.Repr()
  }

  /** The poller's channels but that of `a` are as they were in `p`. */
  ghost predicate OthersKept(p: Poller<Channel>, p': Poller<Channel>, a: Channel) {
    && a in p.chans && p'.chans.Keys == p.chans.Keys
    && (forall d | d in p.chans && d != a :: p'.chans[d] == p.chans[d])
    && p'.chans[a].fd == p.chans[a].fd
  }

  lemma StillOthers(p: Poller<Channel>, a: Channel)
    requires a in p.chans && p.chans.Keys == a.loop.managed && p.chans[a].fd == a.fd
    requires forall d | d in p.chans && d != a :: p.chans[d] == Chan(d.fd, d.events, d.idx)
    ensures OthersKept(p, a.loop.View(), a)
  {
  }

  lemma StillValid(a: TcpConnection, b: TcpConnection, p: Poller<Channel>)
    requires a.Valid() && a.channel.loop == b.channel.loop && a.channel != b.channel
    requires b.channel.noneTest == b.cfg.noneTest && b.input.Valid() && b.output.Valid()
    requires b.input != b.output && b.input.data != b.output.data && Inv(b.View())
    requires OthersKept(p, a.channel.loop.View(), a.channel) && p.chans[a.channel].idx != New
    requires b.channel in p.chans && Exclusive(p, b.channel)
    ensures b.Valid()
  {
    StillExclusive(p, a.channel.loop.View(), a.channel, b.channel);
  }

  /** An event of one touches nothing of the other's own, and no channel but its own. */
  method HandleApart(a: TcpConnection, ghost b: TcpConnection, revents: Mask, inp: Inputs)
    returns (ok: bool, msg: seq<Byte>, ghost part: seq<Byte>)
    requires a.Valid() && Beside(a, b) && b.input.Valid() && b.output.Valid() && a.channel.idx != New
    requires CallbackActs(inp.onMessage) && CallbackActs(inp.onClose)
    modifies a.Repr()
    ensures a.repaired ==> ok
    ensures b.input.Valid() && b.output.Valid()
    ensures b.View() == old(b.View()) && b.input.Contents() == old(b.input.Contents())
    ensures b.input.data == old(b.input.data) && b.output.data == old(b.output.data)
    ensures ok ==> a.Valid() && Beside(a, b) && a.channel.idx != New && Delivers(part, revents, inp)
    ensures ok ==> a.channel.loop.managed == old(a.channel.loop.managed)
    ensures forall d: Channel | d in old(a.channel.loop.managed) && d != a.channel ::
              d.events == old(d.events) && d.idx == old(d.idx)
    ensures ok ==> fresh(a.Repr() - old(a.Repr()))
    ensures ok ==> a.View() == Run(old(a.View()), EventActs(old(a.View()), revents, Delivered(inp, part), a.cfg), a.cfg)
  {
    ok, msg, part := a.Dispatch(revents, inp);
  }

  /** An event of one leaves the other as it was, its channel's registration included. */
  method HandleBeside(a: TcpConnection, b: TcpConnection, revents: Mask, inp: Inputs)
    returns (ok: bool, msg: seq<Byte>, ghost part: seq<Byte>)
    requires a.Valid() && b.Valid() && Beside(a, b) && a.channel.idx != New
    requires CallbackActs(inp.onMessage) && CallbackActs(inp.onClose)
    modifies a.Repr()
    ensures a.repaired ==> ok
    ensures b.input.Valid() && b.output.Valid()
    ensures b.View() == old(b.View()) && b.input.Contents() == old(b.input.Contents())
    ensures ok ==> a.Valid() && b.Valid() && Beside(a, b) && a.channel.idx != New
    ensures ok ==> fresh(a.Repr() - old(a.Repr())) && Delivers(part, revents, inp)
    ensures ok ==> a.View() == Run(old(a.View()), EventActs(old(a.View()), revents, Delivered(inp, part), a.cfg), a.cfg)
  {
    ghost var p := a.channel.loop.View();
    ok, msg, part := HandleApart(a, b, revents, inp);
    if ok {
      StillOthers(p, a.channel);
      StillValid(a, b, p);
    }
  }
}
