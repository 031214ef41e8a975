/** net/tcp_server as a protocol: a base loop and any number of io loops hand connections
    to one another through their functor queues.

    Loop 0 is the base loop.  A connection is known by the order of its acceptance; it is
    held by the server's map, by functors bound to it, and by code that is executing with
    it, and it is freed when nothing holds it.  As in module EventLoops a step is one
    access to what loops share with the private work around it, and a run is any sequence
    of steps, of which those that cannot happen where they stand are skipped.
 */
module Servers {
  import opened Epoll
  import Names
  import ThreadPools
  import CS = ConnectionSpec

  type ConnId = nat
  type LoopId = nat

  /** The functors that matter here; each is bound to a shared pointer to its connection.
      Notify is a write-complete or high-water callback. */
  datatype Functor =
    | Established(c: ConnId)
    | RemoveInLoop(c: ConnId)
    | Destroyed(c: ConnId)
    | Notify(c: ConnId)

  /** Where a loop stands: in poll_wait, at one of the channels that it reported, or in
      the batch of do_pending_functions. */
  datatype Phase =
    | Polling
    | Dispatching(active: seq<ConnId>, at: nat)
    | Running(batch: seq<Functor>)

  /** Code between two shared accesses that holds a connection: handle_close before its
      close callback, and remove_connection_in_loop between its erase and its queue_in_loop. */
  datatype Busy = Free | Closing(c: ConnId) | Removing(c: ConnId)

  datatype Loop = Loop(pending: seq<Functor>, phase: Phase, busy: Busy)

  /** `established` counts the calls of connection_established. */
  datatype Conn = Conn(name: string, io: LoopId, state: CS.State, established: nat)

  datatype Config = Config(name: string, ipPort: string, noneTest: NoneTest)

  datatype Server = Server(
    cfg: Config,
    loops: seq<Loop>,
    pollers: seq<Poller<ConnId>>,
    connections: map<string, ConnId>,
    conns: seq<Conn>,          // every connection ever accepted
    fatal: bool)               // an epoll_ctl failure has ended the process

  /** A started server with its base loop and `ioLoops` more. */
  function Init(cfg: Config, ioLoops: nat): Server {
    Server(cfg, seq(ioLoops + 1, _ => Loop([], Polling, Free)),
           seq(ioLoops + 1, _ => Poller(map[], map[], map[])), map[], [], false)
  }

  /** next_id_ starts at 1 and grows by one with each connection. */
  function Name(cfg: Config, c: ConnId): string {
    Names.ConnectionName(cfg.name, cfg.ipPort, c + 1)
  }

  /** get_next_loop for the c-th connection: the base loop if there is no other. */
  function IoLoop(loops: nat, c: ConnId): LoopId
    requires loops > 0
  {
    if loops == 1 then 0 else 1 + c % (loops - 1)
  }

  // ---- elementary updates ----

  function Batch(phase: Phase): seq<Functor> {
    if phase.Running? then phase.batch else []
  }

  /** The functors that a loop has yet to run, in order. */
  function Queue(loop: Loop): seq<Functor> {
    Batch(loop.phase) + loop.pending
  }

  ghost function Places(q: seq<Functor>, f: Functor): set<int> {
    set i | 0 <= i < |q| && q[i] == f
  }

  /** How often a functor is queued. */
  ghost function Count(q: seq<Functor>, f: Functor): nat {
    |Places(q, f)|
  }

  lemma CountPush(q: seq<Functor>, f: Functor, g: Functor)
    ensures Count(q + [f], g) == Count(q, g) + if f == g then 1 else 0
  {
    assert Places(q + [f], g) == Places(q, g) + if f == g then {|q|} else {};
  }

  lemma {:induction false} CountPop(q: seq<Functor>, g: Functor)
    requires q != []
    ensures Count(q, g) == Count(q[1..], g) + if q[0] == g then 1 else 0
    decreases |q|
  {
    var n := |q| - 1;
    CountPush(q[..n], q[n], g);
    assert q == q[..n] + [q[n]];
    if n > 0 {
      CountPop(q[..n], g);
      CountPush(q[1..n], q[n], g);
      assert q[1..] == q[1..n] + [q[n]] && q[..n][1..] == q[1..n];
    } else {
      assert Places(q[1..], g) == {} && Places(q[..n], g) == {};
    }
  }

  function WithLoop(s: Server, l: LoopId, loop: Loop): Server
    requires l < |s.loops|
  {
    s.(loops := s.loops[l := loop])
  }

  /** queue_in_loop */
  function Push(s: Server, l: LoopId, f: Functor): Server
    requires l < |s.loops|
  {
    WithLoop(s, l, s.loops[l].(pending := s.loops[l].pending + [f]))
  }

  function WithBusy(s: Server, l: LoopId, busy: Busy): Server
    requires l < |s.loops|
  {
    WithLoop(s, l, s.loops[l].(busy := busy))
  }

  /** A change of state, or of the count of establishments. */
  predicate Retold(conn: Conn, conn': Conn) {
    conn'.name == conn.name && conn'.io == conn.io
  }

  function WithConn(s: Server, c: ConnId, conn: Conn): Server
    requires c < |s.conns|
  {
    s.(conns := s.conns[c := conn])
  }

  /** connections_.erase(conn->name()) */
  function Erase(s: Server, c: ConnId): Server
    requires c < |s.conns|
  {
    s.(connections := s.connections - {s.conns[c].name})
  }

  /** The connection has a loop and a channel in its poller. */
  predicate Known(s: Server, c: ConnId) {
    && c < |s.conns| && s.conns[c].io < |s.loops| == |s.pollers|
    && c in s.pollers[s.conns[c].io].chans
  }

  /** Each connection has a poller, that of its own loop, and a name of its own. */
  ghost predicate Shape(s: Server) {
    && |s.loops| == |s.pollers| > 0
    && (forall c | 0 <= c < |s.conns| :: Known(s, c))
    && (forall l | 0 <= l < |s.loops| ::
          forall c | c in s.pollers[l].chans :: c < |s.conns| && s.conns[c].io == l)
    && (forall c, d | 0 <= c < d < |s.conns| :: s.conns[c].name != s.conns[d].name)
  }

  /** Names and loops are those that new_connection assigns, while next_id_ is an int. */
  ghost predicate Assigned(s: Server) {
    && |s.cfg.ipPort| <= 51 && |s.conns| < Names.INT_MAX && |s.loops| > 0
    && (forall c | 0 <= c < |s.conns| ::
          s.conns[c].name == Name(s.cfg, c) && s.conns[c].io == IoLoop(|s.loops|, c))
  }

  /** The channel of a connection, as its poller knows it. */
  function ChanOf(s: Server, c: ConnId): Chan
    requires Known(s, c)
  {
    s.pollers[s.conns[c].io].chans[c]
  }

  /** An operation of its own loop's poller on the channel of `c`. */
  function WithPoller(s: Server, c: ConnId, r: (Poller<ConnId>, Outcome)): Server
    requires Known(s, c)
  {
    s.(pollers := s.pollers[s.conns[c].io := r.0], fatal := s.fatal || r.1 == Fatal)
  }

  function WithEvents(s: Server, c: ConnId, events: Mask): Server
    requires Known(s, c)
  {
    WithPoller(s, c, SetEvents(s.pollers[s.conns[c].io], c, events, s.cfg.noneTest))
  }

  function Unregistered(s: Server, c: ConnId): Server
    requires Known(s, c)
  {
    WithPoller(s, c, RemoveChannel(s.pollers[s.conns[c].io], c))
  }

  // ---- what holds a connection ----

  /** All there is to say about one connection: its state, its place in its poller, and
      who holds it. */
  datatype View = View(
    state: CS.State,
    established: nat,
    idx: Index,
    inMap: bool,
    toEstablish: nat,   // connection_established queued on its io loop, how often
    toRemove: nat,      // remove_connection_in_loop queued on the base loop
    toDestroy: nat,     // connection_destroyed queued on its io loop
    toNotify: nat,
    closing: bool,
    removing: bool,
    active: bool)       // in active_channels_ of its io loop

  ghost predicate InMap(s: Server, c: ConnId)
    requires c < |s.conns|
  {
    s.conns[c].name in s.connections && s.connections[s.conns[c].name] == c
  }

  ghost function ViewOf(s: Server, c: ConnId): View
    requires Known(s, c)
  {
    var io := s.loops[s.conns[c].io];
    var q := Queue(io);
    View(s.conns[c].state, s.conns[c].established, ChanOf(s, c).idx, InMap(s, c),
         Count(q, Established(c)), Count(Queue(s.loops[0]), RemoveInLoop(c)),
         Count(q, Destroyed(c)), Count(q, Notify(c)),
         io.busy == Closing(c), s.loops[0].busy == Removing(c),
         io.phase.Dispatching? && c in io.phase.active)
  }

  predicate Held(v: View) {
    v.inMap || v.toEstablish > 0 || v.toRemove > 0 || v.toDestroy > 0 || v.toNotify > 0 || v.closing || v.removing
  }

  /** A channel that is registered, or k_deleted but still listed, belongs to a connection
      in the map, in an executing remove_connection_in_loop, or in a connection_destroyed
      queued on its own loop; and the life of the connection runs one way. */
  predicate Good(v: View) {
    && (v.idx != New ==> v.inMap || v.removing || v.toDestroy > 0)
    && (v.active ==> v.idx != New)
    && v.established == (if v.state == CS.Connecting then 0 else 1)
    && v.toEstablish == (if v.state == CS.Connecting then 1 else 0)
    && (v.state == CS.Connecting ==> v.idx == New && v.inMap && v.toNotify == 0)
    && (v.state == CS.Connected || v.state == CS.Disconnecting ==> v.idx == Added)
    && (v.toRemove > 0 || v.toDestroy > 0 || v.closing || v.removing ==> v.state == CS.Disconnected)
    && (v.toDestroy > 0 || v.removing ==> !v.inMap)
    && (!v.inMap ==> v.state == CS.Disconnected)
    && (v.inMap && v.state == CS.Disconnected ==> v.idx != New && (v.toRemove > 0 || v.closing))
  }

  ghost predicate PlacedFunctor(s: Server, l: LoopId, f: Functor) {
    f.c < |s.conns| && if f.RemoveInLoop? then l == 0 else s.conns[f.c].io == l
  }

  /** The code that is executing on a loop, and the channels listed there, are its own. */
  ghost predicate PlacedLoop(s: Server, l: LoopId)
    requires l < |s.loops|
  {
    var loop := s.loops[l];
    && (forall f | f in Queue(loop) :: PlacedFunctor(s, l, f))
    && (loop.phase.Dispatching? ==>
          && loop.phase.at <= |loop.phase.active|
          && (forall c | c in loop.phase.active :: c < |s.conns| && s.conns[c].io == l))
    && (loop.busy.Closing? ==>
          && loop.phase.Dispatching? && loop.phase.at < |loop.phase.active|
          && loop.phase.active[loop.phase.at] == loop.busy.c)
    && (loop.busy.Removing? ==> l == 0 && loop.busy.c < |s.conns|)
  }

  ghost predicate Placed(s: Server) {
    forall l | 0 <= l < |s.loops| :: PlacedLoop(s, l)
  }

  ghost predicate MapOk(s: Server) {
    forall name | name in s.connections ::
      s.connections[name] < |s.conns| && s.conns[s.connections[name]].name == name
  }

  ghost predicate Mirrored(s: Server) {
    forall l | 0 <= l < |s.pollers| :: Mirror(s.pollers[l])
  }

  ghost predicate AllGood(s: Server)
    requires Shape(s)
  {
    forall c | 0 <= c < |s.conns| :: Good(ViewOf(s, c))
  }

  /** A descriptor is closed only when its connection is freed, so those held differ. */
  ghost predicate FdsApart(s: Server)
    requires Shape(s)
  {
    forall c, d | 0 <= c < d < |s.conns| && Held(ViewOf(s, c)) && Held(ViewOf(s, d)) ::
      ChanOf(s, c).fd != ChanOf(s, d).fd
  }

  ghost predicate Base(s: Server) {
    Shape(s) && Placed(s) && MapOk(s) && Mirrored(s) && !s.fatal
  }

  ghost predicate Inv(s: Server) {
    Base(s) && Assigned(s) && AllGood(s) && FdsApart(s)
  }

  // ---- what each elementary update does to the views ----

  predicate SameNames(s: Server, s': Server) {
    && s'.cfg == s.cfg && |s'.loops| == |s.loops| && |s'.conns| == |s.conns|
    && (forall d | 0 <= d < |s.conns| :: s'.conns[d].name == s.conns[d].name && s'.conns[d].io == s.conns[d].io)
  }

  /** From `s` to `s'` the view of `c` becomes `v` and no other view changes. */
  ghost predicate Moves(s: Server, s': Server, c: ConnId, v: View)
    requires Shape(s)
  {
    && Base(s') && SameNames(s, s') && c < |s.conns|
    && (forall d | 0 <= d < |s.conns| ::
          ViewOf(s', d) == (if d == c then v else ViewOf(s, d)) && ChanOf(s', d).fd == ChanOf(s, d).fd)
  }

  /** The invariant, but for the view of `c`. */
  ghost predicate InvBut(s: Server, c: ConnId) {
    Base(s) && Assigned(s) && FdsApart(s) && forall d | 0 <= d < |s.conns| && d != c :: Good(ViewOf(s, d))
  }

  /** A move to a good view that holds its connection no more than before keeps everything. */
  lemma MovesKeepInv(s: Server, s': Server, c: ConnId, v: View)
    requires InvBut(s, c) && Moves(s, s', c, v)
    requires Good(v) && (Held(v) ==> Held(ViewOf(s, c)))
    ensures Inv(s')
  {
    forall d | 0 <= d < |s'.conns|
      ensures Good(ViewOf(s', d))
    {
      assert d != c ==> Good(ViewOf(s, d));
    }
  }

  lemma MovesTwice(s: Server, s1: Server, s2: Server, c: ConnId, v1: View, v2: View)
    requires Shape(s) && Moves(s, s1, c, v1) && Moves(s1, s2, c, v2)
    ensures Moves(s, s2, c, v2)
  {
    forall d | 0 <= d < |s.conns|
      ensures ViewOf(s2, d) == (if d == c then v2 else ViewOf(s, d))
      ensures ChanOf(s2, d).fd == ChanOf(s, d).fd
    {
      assert ChanOf(s1, d).fd == ChanOf(s, d).fd;
    }
  }

  lemma PushBase(s: Server, l: LoopId, f: Functor)
    requires Base(s) && l < |s.loops| && PlacedFunctor(s, l, f)
    ensures Base(Push(s, l, f))
  {
    var s' := Push(s, l, f);
    assert Queue(s'.loops[l]) == Queue(s.loops[l]) + [f];
    forall k | 0 <= k < |s.loops|
      ensures PlacedLoop(s', k)
    {
      assert PlacedLoop(s, k);
    }
    assert forall c | 0 <= c < |s.conns| :: Known(s, c) ==> Known(s', c);
  }

  lemma PushCount(s: Server, l: LoopId, f: Functor, k: LoopId, g: Functor)
    requires l < |s.loops| && k < |s.loops|
    ensures Count(Queue(Push(s, l, f).loops[k]), g)
            == Count(Queue(s.loops[k]), g) + if k == l && f == g then 1 else 0
  {
    if k == l {
      assert Queue(Push(s, l, f).loops[k]) == Queue(s.loops[k]) + [f];
      CountPush(Queue(s.loops[k]), f, g);
    }
  }

  lemma PushView(s: Server, l: LoopId, f: Functor, c: ConnId)
    requires Known(s, c) && l < |s.loops| && PlacedFunctor(s, l, f)
    ensures ViewOf(Push(s, l, f), c) == if c == f.c then Queued(ViewOf(s, c), f) else ViewOf(s, c)
  {
    var io := s.conns[c].io;
    PushCount(s, l, f, io, Established(c));
    PushCount(s, l, f, 0, RemoveInLoop(c));
    PushCount(s, l, f, io, Destroyed(c));
    PushCount(s, l, f, io, Notify(c));
  }

  function Queued(v: View, f: Functor): View {
    v.(toEstablish := v.toEstablish + if f.Established? then 1 else 0,
       toRemove := v.toRemove + if f.RemoveInLoop? then 1 else 0,
       toDestroy := v.toDestroy + if f.Destroyed? then 1 else 0,
       toNotify := v.toNotify + if f.Notify? then 1 else 0)
  }

  lemma PushMoves(s: Server, l: LoopId, f: Functor)
    requires Base(s) && l < |s.loops| && PlacedFunctor(s, l, f)
    ensures Moves(s, Push(s, l, f), f.c, Queued(ViewOf(s, f.c), f))
  {
    PushBase(s, l, f);
    forall d | 0 <= d < |s.conns|
      ensures ViewOf(Push(s, l, f), d) == if d == f.c then Queued(ViewOf(s, d), f) else ViewOf(s, d)
    {
      PushView(s, l, f, d);
    }
  }

  lemma BusyBase(s: Server, l: LoopId, busy: Busy)
    requires Base(s) && l < |s.loops| && PlacedLoop(WithBusy(s, l, busy), l)
    ensures Base(WithBusy(s, l, busy))
  {
    var s' := WithBusy(s, l, busy);
    forall k | 0 <= k < |s.loops|
      ensures PlacedLoop(s', k)
    {
      assert PlacedLoop(s, k);
    }
    assert forall d | 0 <= d < |s.conns| :: Known(s, d) ==> Known(s', d);
  }

  lemma BusyView(s: Server, l: LoopId, busy: Busy, d: ConnId)
    requires Known(s, d) && l < |s.loops|
    ensures var v := ViewOf(s, d);
            ViewOf(WithBusy(s, l, busy), d) ==
              v.(closing := if l == s.conns[d].io then busy == Closing(d) else v.closing,
                 removing := if l == 0 then busy == Removing(d) else v.removing)
  {
    assert Queue(s.loops[l].(busy := busy)) == Queue(s.loops[l]);
  }

  lemma BusyMoves(s: Server, l: LoopId, busy: Busy, c: ConnId)
    requires Base(s) && l < |s.loops| && c < |s.conns|
    requires s.loops[l].busy.Free? || s.loops[l].busy.c == c
    requires busy.Free? || busy.c == c
    requires PlacedLoop(WithBusy(s, l, busy), l)
    ensures var v := ViewOf(s, c);
            Moves(s, WithBusy(s, l, busy), c,
                  v.(closing := if l == s.conns[c].io then busy == Closing(c) else v.closing,
                     removing := if l == 0 then busy == Removing(c) else v.removing))
  {
    BusyBase(s, l, busy);
    forall d | 0 <= d < |s.conns|
      ensures d != c ==> ViewOf(WithBusy(s, l, busy), d) == ViewOf(s, d)
    {
      BusyView(s, l, busy, d);
    }
    BusyView(s, l, busy, c);
  }

  lemma ConnBase(s: Server, c: ConnId, conn: Conn)
    requires Base(s) && c < |s.conns| && Retold(s.conns[c], conn)
    ensures Base(WithConn(s, c, conn))
  {
    var s' := WithConn(s, c, conn);
    forall k | 0 <= k < |s.loops|
      ensures PlacedLoop(s', k)
    {
      assert PlacedLoop(s, k);
    }
    assert forall d | 0 <= d < |s.conns| :: Known(s, d) ==> Known(s', d);
  }

  lemma ConnMoves(s: Server, c: ConnId, conn: Conn)
    requires Base(s) && c < |s.conns| && Retold(s.conns[c], conn)
    ensures Moves(s, WithConn(s, c, conn), c,
                  ViewOf(s, c).(state := conn.state, established := conn.established))
  {
    ConnBase(s, c, conn);
  }

  lemma EraseBase(s: Server, c: ConnId)
    requires Base(s) && c < |s.conns|
    ensures Base(Erase(s, c))
  {
    var s' := Erase(s, c);
    forall k | 0 <= k < |s.loops|
      ensures PlacedLoop(s', k)
    {
      assert PlacedLoop(s, k);
    }
    assert forall d | 0 <= d < |s.conns| :: Known(s, d) ==> Known(s', d);
  }

  lemma EraseMoves(s: Server, c: ConnId)
    requires Base(s) && c < |s.conns|
    ensures Moves(s, Erase(s, c), c, ViewOf(s, c).(inMap := false))
  {
    EraseBase(s, c);
  }

  /** No other connection that is registered has the descriptor of `c`. */
  ghost predicate Clear(s: Server, c: ConnId)
    requires Shape(s) && c < |s.conns|
  {
    forall d | 0 <= d < |s.conns| && d != c && ViewOf(s, d).idx != New :: ChanOf(s, d).fd != ChanOf(s, c).fd
  }

  lemma HeldIsClear(s: Server, c: ConnId)
    requires InvBut(s, c) && c < |s.conns| && Held(ViewOf(s, c))
    ensures Clear(s, c)
  {
    forall d | 0 <= d < |s.conns| && d != c && ViewOf(s, d).idx != New
      ensures ChanOf(s, d).fd != ChanOf(s, c).fd
    {
      assert Good(ViewOf(s, d));
      assert Held(ViewOf(s, d));
    }
  }

  lemma MovesStayClear(s: Server, s': Server, c: ConnId, v: View)
    requires Shape(s) && Moves(s, s', c, v) && Clear(s, c)
    ensures Clear(s', c)
  {
    forall d | 0 <= d < |s.conns| && d != c && ViewOf(s', d).idx != New
      ensures ChanOf(s', d).fd != ChanOf(s', c).fd
    {
      assert ChanOf(s', d).fd == ChanOf(s, d).fd && ViewOf(s', d) == ViewOf(s, d);
    }
  }

  lemma ClearIsExclusive(s: Server, c: ConnId)
    requires Base(s) && Known(s, c) && Clear(s, c)
    ensures Exclusive(s.pollers[s.conns[c].io], c)
  {
    var l := s.conns[c].io;
    forall d | d in s.pollers[l].chans && d != c && s.pollers[l].chans[d].idx != New
      ensures s.pollers[l].chans[d].fd != s.pollers[l].chans[c].fd
    {
      assert Known(s, d);
      assert ViewOf(s, d).idx != New;
    }
  }

  /** The result of a poller operation that touches only the channel of `c`. */
  ghost predicate Touches(s: Server, c: ConnId, r: (Poller<ConnId>, Outcome))
    requires Known(s, c)
  {
    var p := s.pollers[s.conns[c].io];
    && r.1 == Done && Mirror(r.0) && r.0.chans.Keys == p.chans.Keys
    && (forall d | d in p.chans :: (d != c ==> r.0.chans[d] == p.chans[d]) && r.0.chans[d].fd == p.chans[d].fd)
  }

  lemma PollerBase(s: Server, c: ConnId, r: (Poller<ConnId>, Outcome))
    requires Base(s) && c < |s.conns| && Touches(s, c, r)
    ensures Base(WithPoller(s, c, r))
  {
    var s' := WithPoller(s, c, r);
    forall k | 0 <= k < |s.loops|
      ensures PlacedLoop(s', k)
    {
      assert PlacedLoop(s, k);
    }
    assert forall d | 0 <= d < |s.conns| :: Known(s, d) ==> Known(s', d);
  }

  lemma PollerMoves(s: Server, c: ConnId, r: (Poller<ConnId>, Outcome))
    requires Base(s) && Known(s, c) && Touches(s, c, r)
    ensures Moves(s, WithPoller(s, c, r), c, ViewOf(s, c).(idx := r.0.chans[c].idx))
  {
    PollerBase(s, c, r);
    var s' := WithPoller(s, c, r);
    forall d | 0 <= d < |s.conns|
      ensures ViewOf(s', d) == if d == c then ViewOf(s, d).(idx := r.0.chans[c].idx) else ViewOf(s, d)
      ensures ChanOf(s', d).fd == ChanOf(s, d).fd
    {
      assert Known(s, d);
    }
  }

  lemma EventsMove(s: Server, c: ConnId, events: Mask)
    requires Base(s) && Known(s, c) && Clear(s, c)
    ensures Moves(s, WithEvents(s, c, events), c,
                  ViewOf(s, c).(idx := IndexAfter(ViewOf(s, c).idx, events, s.cfg.noneTest)))
  {
    var p := s.pollers[s.conns[c].io];
    ClearIsExclusive(s, c);
    SetEventsMirror(p, c, events, s.cfg.noneTest);
    PollerMoves(s, c, SetEvents(p, c, events, s.cfg.noneTest));
  }

  lemma UnregisteredMoves(s: Server, c: ConnId)
    requires Base(s) && Known(s, c) && Clear(s, c)
    ensures Moves(s, Unregistered(s, c), c, ViewOf(s, c).(idx := New))
  {
    var p := s.pollers[s.conns[c].io];
    ClearIsExclusive(s, c);
    RemoveMirror(p, c);
    PollerMoves(s, c, RemoveChannel(p, c));
  }

  /** The head of the batch is taken. */
  function Popped(s: Server, l: LoopId): Server
    requires l < |s.loops| && Batch(s.loops[l].phase) != []
  {
    WithLoop(s, l, s.loops[l].(phase := Running(s.loops[l].phase.batch[1..])))
  }

  function Head(s: Server, l: LoopId): Functor
    requires l < |s.loops| && Batch(s.loops[l].phase) != []
  {
    s.loops[l].phase.batch[0]
  }

  lemma PopQueue(s: Server, l: LoopId)
    requires l < |s.loops| && Batch(s.loops[l].phase) != []
    ensures Queue(s.loops[l]) == [Head(s, l)] + Queue(Popped(s, l).loops[l])
    ensures Head(s, l) in Queue(s.loops[l])
    ensures forall f | f in Queue(Popped(s, l).loops[l]) :: f in Queue(s.loops[l])
  {
    assert s.loops[l].phase.batch == [Head(s, l)] + s.loops[l].phase.batch[1..];
  }

  lemma PopBase(s: Server, l: LoopId)
    requires Base(s) && l < |s.loops| && Batch(s.loops[l].phase) != []
    ensures Base(Popped(s, l)) && PlacedFunctor(s, l, Head(s, l))
  {
    var s' := Popped(s, l);
    PopQueue(s, l);
    assert PlacedLoop(s, l);
    forall k | 0 <= k < |s.loops|
      ensures PlacedLoop(s', k)
    {
      assert PlacedLoop(s, k);
    }
    assert forall d | 0 <= d < |s.conns| :: Known(s, d) ==> Known(s', d);
  }

  lemma PopCount(s: Server, l: LoopId, k: LoopId, g: Functor)
    requires l < |s.loops| && Batch(s.loops[l].phase) != [] && k < |s.loops|
    ensures Count(Queue(s.loops[k]), g)
            == Count(Queue(Popped(s, l).loops[k]), g) + if k == l && Head(s, l) == g then 1 else 0
  {
    if k == l {
      PopQueue(s, l);
      CountPop(Queue(s.loops[k]), g);
      assert Queue(Popped(s, l).loops[k]) == Queue(s.loops[k])[1..];
    }
  }

  /** Taking the head undoes queueing it, as far as the counts are concerned. */
  lemma PopView(s: Server, l: LoopId, c: ConnId)
    requires Known(s, c) && l < |s.loops| && Batch(s.loops[l].phase) != []
    requires PlacedFunctor(s, l, Head(s, l))
    ensures ViewOf(s, c) == if c == Head(s, l).c then Queued(ViewOf(Popped(s, l), c), Head(s, l))
                            else ViewOf(Popped(s, l), c)
  {
    var io := s.conns[c].io;
    PopCount(s, l, io, Established(c));
    PopCount(s, l, 0, RemoveInLoop(c));
    PopCount(s, l, io, Destroyed(c));
    PopCount(s, l, io, Notify(c));
  }

  lemma PopMoves(s: Server, l: LoopId)
    requires Base(s) && l < |s.loops| && Batch(s.loops[l].phase) != []
    ensures var f := Head(s, l);
            && PlacedFunctor(s, l, f) && Known(s, f.c) && Known(Popped(s, l), f.c)
            && ViewOf(s, f.c) == Queued(ViewOf(Popped(s, l), f.c), f)
            && Moves(s, Popped(s, l), f.c, ViewOf(Popped(s, l), f.c))
  {
    PopBase(s, l);
    var c := Head(s, l).c;
    assert Known(s, c);
    PopView(s, l, c);
    forall d | 0 <= d < |s.conns|
      ensures d != c ==> ViewOf(Popped(s, l), d) == ViewOf(s, d)
    {
      assert Known(s, d);
      PopView(s, l, d);
    }
  }

  // ---- the operations on one connection ----

  /** What one send, shutdown or handle_write on the loop thread does to an open connection:
      it leaves some mask that still asks for reading, may begin a shutdown, and may post a
      callback.  (Module ConnectionSpec has the details, and ActSimulates below the link.) */
  datatype Call = Call(mask: Mask, shut: bool, notify: bool)

  function Shut(s: Server, c: ConnId, shut: bool): Server
    requires Known(s, c)
  {
    if shut then WithConn(s, c, s.conns[c].(state := CS.Disconnecting)) else s
  }

  function Notified(s: Server, c: ConnId, notify: bool): Server
    requires Known(s, c)
  {
    if notify then Push(s, s.conns[c].io, Notify(c)) else s
  }

  function Called(s: Server, c: ConnId, call: Call): Server
    requires Known(s, c)
  {
    if !CS.IsOpen(s.conns[c].state) then s
    else Notified(Shut(WithEvents(s, c, call.mask), c, call.shut), c, call.notify)
  }

  function ShutView(v: View, shut: bool): View {
    if shut then v.(state := CS.Disconnecting) else v
  }

  function CalledView(v: View, call: Call): View {
    if !CS.IsOpen(v.state) then v
    else
      var v1 := ShutView(v.(idx := Added), call.shut);
      if call.notify then Queued(v1, Notify(0)) else v1
  }

  lemma MovesNowhere(s: Server, c: ConnId)
    requires Base(s) && Known(s, c)
    ensures Moves(s, s, c, ViewOf(s, c))
  {
  }

  lemma ShutMoves(s: Server, c: ConnId, shut: bool)
    requires Base(s) && Known(s, c)
    ensures Moves(s, Shut(s, c, shut), c, ShutView(ViewOf(s, c), shut))
  {
    if shut {
      ConnMoves(s, c, s.conns[c].(state := CS.Disconnecting));
    } else {
      MovesNowhere(s, c);
    }
  }

  lemma NotifiedMoves(s: Server, c: ConnId, notify: bool)
    requires Base(s) && Known(s, c)
    ensures var v := ViewOf(s, c);
            Moves(s, Notified(s, c, notify), c, if notify then Queued(v, Notify(0)) else v)
  {
    if notify {
      PushMoves(s, s.conns[c].io, Notify(c));
    } else {
      MovesNowhere(s, c);
    }
  }

  lemma ArmedMoves(s: Server, c: ConnId, call: Call)
    requires Base(s) && Known(s, c) && Clear(s, c) && call.mask.Meets(READ_EVENT)
    ensures Moves(s, Shut(WithEvents(s, c, call.mask), c, call.shut), c,
                  ShutView(ViewOf(s, c).(idx := Added), call.shut))
  {
    var s1, v1 := WithEvents(s, c, call.mask), ViewOf(s, c).(idx := Added);
    EventsMove(s, c, call.mask);
    ShutMoves(s1, c, call.shut);
    MovesTwice(s, s1, Shut(s1, c, call.shut), c, v1, ShutView(v1, call.shut));
  }

  lemma CalledMoves(s: Server, c: ConnId, call: Call)
    requires Base(s) && Known(s, c) && Clear(s, c) && call.mask.Meets(READ_EVENT)
    ensures Moves(s, Called(s, c, call), c, CalledView(ViewOf(s, c), call))
  {
    if CS.IsOpen(s.conns[c].state) {
      ArmedMoves(s, c, call);
      var s1 := Shut(WithEvents(s, c, call.mask), c, call.shut);
      var v1 := ShutView(ViewOf(s, c).(idx := Added), call.shut);
      NotifiedMoves(s1, c, call.notify);
      MovesTwice(s, s1, Notified(s1, c, call.notify), c, v1, CalledView(ViewOf(s, c), call));
    } else {
      MovesNowhere(s, c);
    }
  }

  /** A change of state and then of the mask. */
  function Changed(s: Server, c: ConnId, conn: Conn, events: Mask): Server
    requires Known(s, c) && Retold(s.conns[c], conn)
  {
    WithEvents(WithConn(s, c, conn), c, events)
  }

  lemma ChangedMoves(s: Server, c: ConnId, conn: Conn, events: Mask)
    requires Base(s) && Known(s, c) && Clear(s, c) && Retold(s.conns[c], conn)
    ensures var v := ViewOf(s, c);
            Moves(s, Changed(s, c, conn, events), c,
                  v.(state := conn.state, established := conn.established,
                     idx := IndexAfter(v.idx, events, s.cfg.noneTest)))
  {
    var v := ViewOf(s, c);
    var s1, v1 := WithConn(s, c, conn), v.(state := conn.state, established := conn.established);
    ConnMoves(s, c, conn);
    MovesStayClear(s, s1, c, v1);
    EventsMove(s1, c, events);
    MovesTwice(s, s1, WithEvents(s1, c, events), c, v1, v1.(idx := IndexAfter(v.idx, events, s.cfg.noneTest)));
  }

  /** connection_established; what its connection callback does are acts. */
  function Opened(s: Server, c: ConnId): Server
    requires Known(s, c)
  {
    var conn := s.conns[c].(state := CS.Connected, established := s.conns[c].established + 1);
    Changed(s, c, conn, ChanOf(s, c).events.Or(READ_EVENT))
  }

  function OpenedView(v: View): View {
    v.(state := CS.Connected, established := v.established + 1, idx := Added)
  }

  lemma OpenedViewIs(s: Server, c: ConnId)
    requires Known(s, c)
    ensures var conn := s.conns[c].(state := CS.Connected, established := s.conns[c].established + 1);
            var events := ChanOf(s, c).events.Or(READ_EVENT);
            var v := ViewOf(s, c);
            && Opened(s, c) == Changed(s, c, conn, events)
            && OpenedView(v) == v.(state := conn.state, established := conn.established,
                                   idx := IndexAfter(v.idx, events, s.cfg.noneTest))
  {
  }

  lemma OpenedMoves(s: Server, c: ConnId)
    requires Base(s) && Known(s, c) && Clear(s, c)
    ensures Moves(s, Opened(s, c), c, OpenedView(ViewOf(s, c)))
  {
    var conn := s.conns[c].(state := CS.Connected, established := s.conns[c].established + 1);
    OpenedViewIs(s, c);
    ChangedMoves(s, c, conn, ChanOf(s, c).events.Or(READ_EVENT));
  }

  /** The change of state and mask in handle_close. */
  function Closed(s: Server, c: ConnId): Server
    requires Known(s, c)
  {
    Changed(s, c, s.conns[c].(state := CS.Disconnected), NONE_EVENT)
  }

  /** connection_destroyed.  The branch for a connection still connected is the server
      destructor's; it is never taken here. */
  function DestroyedNow(s: Server, c: ConnId): Server
    requires Known(s, c)
  {
    Unregistered(if s.conns[c].state == CS.Connected then Closed(s, c) else s, c)
  }

  // ---- steps and runs ----

  datatype Step =
    | Accept(fd: int)                                    // new_connection, from the acceptor's handler
    | PollReturn(l: LoopId, active: seq<ConnId>)
    | Act(l: LoopId, c: ConnId, call: Call)              // handle_write, or an act of a callback
    | HandleClose(l: LoopId)                             // handle_close up to its close callback
    | CloseCallback(l: LoopId)                           // remove_connection
    | QueueDestroyed                                     // the end of remove_connection_in_loop
    | FinishEvent(l: LoopId)                             // on to the next active channel
    | Swap(l: LoopId)
    | RunNext(l: LoopId)
    | EndBatch(l: LoopId)

  /** The loop is inside the handlers of some connection, between shared accesses. */
  predicate AtEvent(s: Server, l: LoopId) {
    && l < |s.loops| && s.loops[l].phase.Dispatching? && s.loops[l].busy.Free?
    && s.loops[l].phase.at < |s.loops[l].phase.active|
    && Known(s, s.loops[l].phase.active[s.loops[l].phase.at])
  }

  function AtConn(s: Server, l: LoopId): ConnId
    requires l < |s.loops| && s.loops[l].phase.Dispatching?
    requires s.loops[l].phase.at < |s.loops[l].phase.active|
  {
    s.loops[l].phase.active[s.loops[l].phase.at]
  }

  /** epoll_wait reports distinct descriptors of the interest set, each with the pointer
      stored for it. */
  ghost predicate Reported(p: Poller<ConnId>, active: seq<ConnId>) {
    && (forall c | c in active :: exists fd | fd in p.kernel :: p.kernel[fd].target == c)
    && (forall i, j | 0 <= i < j < |active| :: active[i] != active[j])
  }

  /** accept4 returns a descriptor that no open socket has. */
  ghost predicate FreshFd(s: Server, fd: int) {
    forall c | 0 <= c < |s.conns| && Known(s, c) && Held(ViewOf(s, c)) :: ChanOf(s, c).fd != fd
  }

  ghost predicate Enabled(s: Server, step: Step) {
    match step
    case Accept(fd) =>
      && |s.loops| == |s.pollers| > 0 && s.loops[0].phase.Dispatching? && s.loops[0].busy.Free?
      && |s.conns| + 1 < Names.INT_MAX && FreshFd(s, fd)
    case PollReturn(l, active) =>
      l < |s.loops| == |s.pollers| && s.loops[l].phase.Polling? && s.loops[l].busy.Free?
      && Reported(s.pollers[l], active)
    case Act(l, c, call) =>
      && l < |s.loops| && !s.loops[l].phase.Polling? && Known(s, c) && s.conns[c].io == l
      && call.mask.Meets(READ_EVENT)
    case HandleClose(l) => AtEvent(s, l)
    case CloseCallback(l) => l < |s.loops| && s.loops[l].busy.Closing? && Known(s, s.loops[l].busy.c)
    case QueueDestroyed => |s.loops| > 0 && s.loops[0].busy.Removing? && Known(s, s.loops[0].busy.c)
    case FinishEvent(l) => AtEvent(s, l)
    case Swap(l) =>
      && l < |s.loops| && s.loops[l].phase.Dispatching? && s.loops[l].busy.Free?
      && s.loops[l].phase.at == |s.loops[l].phase.active|
    case RunNext(l) =>
      && l < |s.loops| && s.loops[l].busy.Free? && Batch(s.loops[l].phase) != []
      && Known(Popped(s, l), Head(s, l).c)
    case EndBatch(l) => l < |s.loops| && s.loops[l].busy.Free? && s.loops[l].phase == Running([])
  }

  /** new_connection up to its run_in_loop. */
  function Accepted(s: Server, fd: int): Server
    requires |s.loops| == |s.pollers| > 0
  {
    var c := |s.conns|;
    var io := IoLoop(|s.loops|, c);
    var p := s.pollers[io];
    s.(conns := s.conns + [Conn(Name(s.cfg, c), io, CS.Connecting, 0)],
       connections := s.connections[Name(s.cfg, c) := c],
       pollers := s.pollers[io := p.(chans := p.chans[c := Chan(fd, NONE_EVENT, New)])])
  }

  function WithPhase(s: Server, l: LoopId, phase: Phase): Server
    requires l < |s.loops|
  {
    WithLoop(s, l, s.loops[l].(phase := phase))
  }

  function Effect(s: Server, step: Step): Server
    requires Enabled(s, step)
  {
    match step
    case Accept(fd) =>
      var c, s1 := |s.conns|, Accepted(s, fd);
      if s1.conns[c].io == 0 then Opened(s1, c) else Push(s1, s1.conns[c].io, Established(c))
    case PollReturn(l, active) => WithPhase(s, l, Dispatching(active, 0))
    case Act(_, c, call) => Called(s, c, call)
    case HandleClose(l) => WithBusy(Closed(s, AtConn(s, l)), l, Closing(AtConn(s, l)))
    case CloseCallback(l) =>
      var c := s.loops[l].busy.c;
      if l == 0 then WithBusy(Erase(s, c), 0, Removing(c))
      else WithBusy(Push(s, 0, RemoveInLoop(c)), l, Free)
    case QueueDestroyed =>
      var c := s.loops[0].busy.c;
      WithBusy(Push(s, s.conns[c].io, Destroyed(c)), 0, Free)
    case FinishEvent(l) => WithLoop(s, l, NextEvent(s.loops[l]))
    case Swap(l) => WithLoop(s, l, s.loops[l].(phase := Running(s.loops[l].pending), pending := []))
    case RunNext(l) => Ran(Popped(s, l), l, Head(s, l))
    case EndBatch(l) => WithPhase(s, l, Polling)
  }

  /** The functor just taken from the batch of loop `l`, up to its next shared access or its
      callback. */
  function Ran(s: Server, l: LoopId, f: Functor): Server
    requires l < |s.loops| && Known(s, f.c)
  {
    match f
    case Established(c) => Opened(s, c)
    case RemoveInLoop(c) => WithBusy(Erase(s, c), l, Removing(c))
    case Destroyed(c) => DestroyedNow(s, c)
    case Notify(_) => s
  }

  ghost function Next(s: Server, step: Step): Server {
    if Enabled(s, step) then Effect(s, step) else s
  }

  ghost function Run(s: Server, steps: seq<Step>): Server
    decreases |steps|
  {
    if steps == [] then s else Next(Run(s, steps[..|steps| - 1]), steps[|steps| - 1])
  }

  // ---- every step keeps the invariant ----

  lemma CalledGood(v: View, call: Call)
    requires Good(v)
    ensures Good(CalledView(v, call)) && (Held(CalledView(v, call)) ==> Held(v))
  {
  }

  /** Whatever callbacks do to connections of their loop keeps the invariant, be it to the
      connection whose event is handled or to another. */
  lemma ActKeeps(s: Server, l: LoopId, c: ConnId, call: Call)
    requires Inv(s) && Enabled(s, Act(l, c, call))
    ensures Inv(Effect(s, Act(l, c, call)))
  {
    var v := ViewOf(s, c);
    assert Good(v);
    CalledGood(v, call);
    if CS.IsOpen(v.state) {
      HeldIsClear(s, c);
      CalledMoves(s, c, call);
      MovesKeepInv(s, Called(s, c, call), c, CalledView(v, call));
    }
  }

  /** A channel whose handlers are running is registered, and so its connection is held. */
  lemma AtEventActive(s: Server, l: LoopId)
    requires Inv(s) && AtEvent(s, l)
    ensures var v := ViewOf(s, AtConn(s, l)); v.active && v.idx != New && Held(v) && Good(v)
    ensures s.conns[AtConn(s, l)].io == l
  {
    assert PlacedLoop(s, l);
    assert AtConn(s, l) in s.loops[l].phase.active;
    assert Good(ViewOf(s, AtConn(s, l)));
  }

  /** A move, and then a change of what a loop is busy with. */
  lemma MovesThenBusy(s: Server, s1: Server, c: ConnId, v1: View, l: LoopId, busy: Busy)
    requires Shape(s) && Moves(s, s1, c, v1) && l < |s1.loops|
    requires s1.loops[l].busy.Free? || s1.loops[l].busy.c == c
    requires busy.Free? || busy.c == c
    requires PlacedLoop(WithBusy(s1, l, busy), l)
    ensures Moves(s, WithBusy(s1, l, busy), c,
                  v1.(closing := if l == s1.conns[c].io then busy == Closing(c) else v1.closing,
                      removing := if l == 0 then busy == Removing(c) else v1.removing))
  {
    BusyMoves(s1, l, busy, c);
    MovesTwice(s, s1, WithBusy(s1, l, busy), c, v1,
               v1.(closing := if l == s1.conns[c].io then busy == Closing(c) else v1.closing,
                   removing := if l == 0 then busy == Removing(c) else v1.removing));
  }

  lemma ClosedGood(v: View, noneTest: NoneTest)
    requires Good(v) && v.active
    ensures var v1 := v.(state := CS.Disconnected, idx := IndexAfter(v.idx, NONE_EVENT, noneTest));
            Good(v1.(closing := true))
  {
  }

  /** handle_close, up to its close callback. */
  lemma HandleCloseMoves(s: Server, l: LoopId)
    requires Base(s) && Enabled(s, HandleClose(l)) && Clear(s, AtConn(s, l)) && s.conns[AtConn(s, l)].io == l
    requires s.conns[AtConn(s, l)].state != CS.Connecting
    ensures var c := AtConn(s, l);
            var v := ViewOf(s, c);
            Moves(s, Effect(s, HandleClose(l)), c,
                  v.(state := CS.Disconnected, idx := IndexAfter(v.idx, NONE_EVENT, s.cfg.noneTest), closing := true))
  {
    var c := AtConn(s, l);
    var v, s1 := ViewOf(s, c), Closed(s, c);
    var v1 := v.(state := CS.Disconnected, idx := IndexAfter(v.idx, NONE_EVENT, s.cfg.noneTest));
    ChangedMoves(s, c, s.conns[c].(state := CS.Disconnected), NONE_EVENT);
    assert PlacedLoop(s, l);
    assert PlacedLoop(s1, l);
    MovesThenBusy(s, s1, c, v1, l, Closing(c));
  }

  lemma HandleCloseKeeps(s: Server, l: LoopId)
    requires Inv(s) && Enabled(s, HandleClose(l))
    ensures Inv(Effect(s, HandleClose(l)))
  {
    var c := AtConn(s, l);
    AtEventActive(s, l);
    HeldIsClear(s, c);
    var v := ViewOf(s, c);
    HandleCloseMoves(s, l);
    ClosedGood(v, s.cfg.noneTest);
    MovesKeepInv(s, Effect(s, HandleClose(l)), c,
                 v.(state := CS.Disconnected, idx := IndexAfter(v.idx, NONE_EVENT, s.cfg.noneTest), closing := true));
  }

  /** remove_connection on the base loop: remove_connection_in_loop runs at once. */
  lemma CloseOnBaseKeeps(s: Server)
    requires Inv(s) && Enabled(s, CloseCallback(0))
    ensures Inv(Effect(s, CloseCallback(0)))
  {
    var c := s.loops[0].busy.c;
    assert PlacedLoop(s, 0);
    assert Good(ViewOf(s, c));
    var s1, v1 := Erase(s, c), ViewOf(s, c).(inMap := false);
    EraseMoves(s, c);
    assert PlacedLoop(s1, 0);
    MovesThenBusy(s, s1, c, v1, 0, Removing(c));
    MovesKeepInv(s, WithBusy(s1, 0, Removing(c)), c, v1.(closing := false, removing := true));
  }

  /** remove_connection on an io loop: the base loop is asked to run it. */
  lemma CloseOnIoKeeps(s: Server, l: LoopId)
    requires Inv(s) && Enabled(s, CloseCallback(l)) && l != 0
    ensures Inv(Effect(s, CloseCallback(l)))
  {
    var c := s.loops[l].busy.c;
    assert PlacedLoop(s, l);
    assert Good(ViewOf(s, c));
    var s1, v1 := Push(s, 0, RemoveInLoop(c)), Queued(ViewOf(s, c), RemoveInLoop(c));
    PushMoves(s, 0, RemoveInLoop(c));
    assert PlacedLoop(s1, l);
    MovesThenBusy(s, s1, c, v1, l, Free);
    MovesKeepInv(s, WithBusy(s1, l, Free), c, v1.(closing := false));
  }

  lemma QueueDestroyedMoves(s: Server)
    requires Base(s) && Enabled(s, QueueDestroyed)
    ensures var c := s.loops[0].busy.c;
            Moves(s, Effect(s, QueueDestroyed), c, Queued(ViewOf(s, c), Destroyed(c)).(removing := false))
  {
    var c := s.loops[0].busy.c;
    var io := s.conns[c].io;
    var s1, v1 := Push(s, io, Destroyed(c)), Queued(ViewOf(s, c), Destroyed(c));
    PushMoves(s, io, Destroyed(c));
    assert PlacedLoop(s1, 0);
    MovesThenBusy(s, s1, c, v1, 0, Free);
  }

  lemma QueueDestroyedKeeps(s: Server)
    requires Inv(s) && Enabled(s, QueueDestroyed)
    ensures Inv(Effect(s, QueueDestroyed))
  {
    var c := s.loops[0].busy.c;
    assert Good(ViewOf(s, c));
    QueueDestroyedMoves(s);
    MovesKeepInv(s, Effect(s, QueueDestroyed), c, Queued(ViewOf(s, c), Destroyed(c)).(removing := false));
  }

  lemma EstablishedGood(v: View, v1: View, c: ConnId)
    requires v == Queued(v1, Established(c)) && Good(v)
    ensures Good(OpenedView(v1)) && Held(v)
  {
  }

  lemma EstablishedRuns(s: Server, c: ConnId, v: View)
    requires Base(s) && Known(s, c) && Clear(s, c)
    requires v == Queued(ViewOf(s, c), Established(c)) && Good(v)
    ensures var v' := OpenedView(ViewOf(s, c));
            Moves(s, Opened(s, c), c, v') && Good(v') && Held(v)
  {
    EstablishedGood(v, ViewOf(s, c), c);
    OpenedMoves(s, c);
  }

  lemma RemovalRuns(s: Server, c: ConnId, v: View)
    requires Base(s) && Known(s, c) && s.loops[0].busy.Free?
    requires v == Queued(ViewOf(s, c), RemoveInLoop(c)) && Good(v)
    ensures var v' := ViewOf(s, c).(inMap := false, removing := true);
            Moves(s, WithBusy(Erase(s, c), 0, Removing(c)), c, v') && Good(v') && Held(v)
  {
    var s1, v1 := Erase(s, c), ViewOf(s, c).(inMap := false);
    EraseMoves(s, c);
    assert PlacedLoop(s, 0) && PlacedLoop(s1, 0);
    MovesThenBusy(s, s1, c, v1, 0, Removing(c));
  }

  lemma DestructionRuns(s: Server, c: ConnId, v: View)
    requires Base(s) && Known(s, c) && Clear(s, c)
    requires v == Queued(ViewOf(s, c), Destroyed(c)) && Good(v) && !ViewOf(s, c).active
    ensures var v' := ViewOf(s, c).(idx := New);
            Moves(s, DestroyedNow(s, c), c, v') && Good(v') && Held(v)
  {
    UnregisteredMoves(s, c);
  }

  lemma RunNextKeeps(s: Server, l: LoopId)
    requires Inv(s) && Enabled(s, RunNext(l))
    ensures Inv(Effect(s, RunNext(l)))
  {
    var f, s1 := Head(s, l), Popped(s, l);
    var c := f.c;
    PopMoves(s, l);
    var v, v1 := ViewOf(s, c), ViewOf(s1, c);
    assert Good(v);
    HeldIsClear(s, c);
    MovesStayClear(s, s1, c, v1);
    var v2;
    match f {
      case Established(_) =>
        EstablishedRuns(s1, c, v);
        v2 := OpenedView(v1);
      case RemoveInLoop(_) =>
        RemovalRuns(s1, c, v);
        v2 := v1.(inMap := false, removing := true);
      case Destroyed(_) =>
        DestructionRuns(s1, c, v);
        v2 := v1.(idx := New);
      case Notify(_) =>
        MovesNowhere(s1, c);
        v2 := v1;
    }
    MovesTwice(s, s1, Ran(s1, l, f), c, v1, v2);
    MovesKeepInv(s, Ran(s1, l, f), c, v2);
  }

  /** A loop moves on without touching its queue or what it is busy with. */
  ghost predicate MovesOn(s: Server, l: LoopId, loop: Loop) {
    && Shape(s) && l < |s.loops| && Queue(loop) == Queue(s.loops[l]) && loop.busy == s.loops[l].busy
    && PlacedLoop(WithLoop(s, l, loop), l)
    && (loop.phase.Dispatching? ==> forall c | c in loop.phase.active :: Known(s, c) && ChanOf(s, c).idx != New)
  }

  lemma LoopBase(s: Server, l: LoopId, loop: Loop)
    requires Base(s) && MovesOn(s, l, loop)
    ensures Base(WithLoop(s, l, loop))
  {
    var s' := WithLoop(s, l, loop);
    forall k | 0 <= k < |s.loops|
      ensures PlacedLoop(s', k)
    {
      assert PlacedLoop(s, k);
    }
    assert forall d | 0 <= d < |s.conns| :: Known(s, d) ==> Known(s', d);
  }

  lemma LoopView(s: Server, l: LoopId, loop: Loop, d: ConnId)
    requires MovesOn(s, l, loop) && Known(s, d) && Good(ViewOf(s, d))
    ensures var v, v' := ViewOf(s, d), ViewOf(WithLoop(s, l, loop), d);
            v' == v.(active := v'.active) && Good(v')
    ensures ChanOf(WithLoop(s, l, loop), d) == ChanOf(s, d)
  {
  }

  lemma LoopKeeps(s: Server, l: LoopId, loop: Loop)
    requires Inv(s) && MovesOn(s, l, loop)
    ensures Inv(WithLoop(s, l, loop))
  {
    LoopBase(s, l, loop);
    forall d | 0 <= d < |s.conns|
      ensures var v' := ViewOf(WithLoop(s, l, loop), d); Known(s, d) && v' == ViewOf(s, d).(active := v'.active)
      ensures Good(ViewOf(WithLoop(s, l, loop), d)) && ChanOf(WithLoop(s, l, loop), d) == ChanOf(s, d)
    {
      assert Good(ViewOf(s, d));
      LoopView(s, l, loop, d);
    }
  }

  lemma PollReturnKeeps(s: Server, l: LoopId, active: seq<ConnId>)
    requires Inv(s) && Enabled(s, PollReturn(l, active))
    ensures Inv(Effect(s, PollReturn(l, active)))
  {
    var loop := s.loops[l].(phase := Dispatching(active, 0));
    assert PlacedLoop(s, l);
    forall c | c in active
      ensures Known(s, c) && s.conns[c].io == l && ChanOf(s, c).idx == Added
    {
      var fd :| fd in s.pollers[l].kernel && s.pollers[l].kernel[fd].target == c;
      assert Mirror(s.pollers[l]);
      assert c in s.pollers[l].chans;
    }
    LoopKeeps(s, l, loop);
  }

  function NextEvent(loop: Loop): Loop
    requires loop.phase.Dispatching?
  {
    loop.(phase := loop.phase.(at := loop.phase.at + 1))
  }

  lemma NextEventMovesOn(s: Server, l: LoopId)
    requires Shape(s) && AtEvent(s, l) && PlacedLoop(s, l)
    requires forall c | c in s.loops[l].phase.active :: Known(s, c) && ChanOf(s, c).idx != New
    ensures MovesOn(s, l, NextEvent(s.loops[l]))
  {
    assert Queue(NextEvent(s.loops[l])) == Queue(s.loops[l]);
  }

  lemma FinishEventKeeps(s: Server, l: LoopId)
    requires Inv(s) && Enabled(s, FinishEvent(l))
    ensures Inv(Effect(s, FinishEvent(l)))
  {
    ActiveRegistered(s, l);
    assert PlacedLoop(s, l);
    NextEventMovesOn(s, l);
    LoopKeeps(s, l, NextEvent(s.loops[l]));
  }

  lemma SwapKeeps(s: Server, l: LoopId)
    requires Inv(s) && Enabled(s, Swap(l))
    ensures Inv(Effect(s, Swap(l)))
  {
    assert PlacedLoop(s, l);
    LoopKeeps(s, l, s.loops[l].(phase := Running(s.loops[l].pending), pending := []));
  }

  lemma EndBatchKeeps(s: Server, l: LoopId)
    requires Inv(s) && Enabled(s, EndBatch(l))
    ensures Inv(Effect(s, EndBatch(l)))
  {
    assert PlacedLoop(s, l);
    LoopKeeps(s, l, s.loops[l].(phase := Polling));
  }

  /** Every channel in active_channels_ is registered with its loop's poller. */
  lemma ActiveRegistered(s: Server, l: LoopId)
    requires Inv(s) && l < |s.loops| && s.loops[l].phase.Dispatching?
    ensures forall c | c in s.loops[l].phase.active ::
              Known(s, c) && s.conns[c].io == l && ChanOf(s, c).idx != New && Held(ViewOf(s, c))
  {
    assert PlacedLoop(s, l);
    forall c | c in s.loops[l].phase.active
      ensures Known(s, c) && s.conns[c].io == l && ChanOf(s, c).idx != New && Held(ViewOf(s, c))
    {
      assert Known(s, c);
      assert Good(ViewOf(s, c));
    }
  }

  // ---- acceptance ----

  /** A new name: nothing in the map is overwritten. */
  lemma NameIsNew(s: Server)
    requires Inv(s) && |s.conns| + 1 < Names.INT_MAX
    ensures Name(s.cfg, |s.conns|) !in s.connections
    ensures forall c | 0 <= c < |s.conns| :: s.conns[c].name != Name(s.cfg, |s.conns|)
  {
    forall c | 0 <= c < |s.conns|
      ensures s.conns[c].name != Name(s.cfg, |s.conns|)
    {
      if Name(s.cfg, c) == Name(s.cfg, |s.conns|) {
        Names.NameInjective(s.cfg.name, s.cfg.ipPort, c + 1, |s.conns| + 1);
      }
    }
  }

  lemma Absent(q: seq<Functor>, f: Functor)
    requires f !in q
    ensures Count(q, f) == 0
  {
    assert Places(q, f) == {};
  }

  lemma AcceptedShape(s: Server, fd: int)
    requires Inv(s) && |s.conns| + 1 < Names.INT_MAX
    ensures Shape(Accepted(s, fd)) && Assigned(Accepted(s, fd))
  {
    NameIsNew(s);
    var s' := Accepted(s, fd);
    forall d | 0 <= d < |s'.conns|
      ensures Known(s', d)
    {
      assert d < |s.conns| ==> Known(s, d);
    }
  }

  lemma AcceptedMap(s: Server, fd: int)
    requires Inv(s) && |s.conns| + 1 < Names.INT_MAX
    ensures MapOk(Accepted(s, fd))
  {
  }

  lemma AcceptedPlaced(s: Server, fd: int)
    requires Inv(s)
    ensures Placed(Accepted(s, fd))
  {
    var s' := Accepted(s, fd);
    forall k | 0 <= k < |s.loops|
      ensures PlacedLoop(s', k)
    {
      assert PlacedLoop(s, k);
    }
  }

  /** A new channel, not yet registered, next to the others. */
  lemma NewChannelMirrors(p: Poller<ConnId>, c: ConnId, fd: int)
    requires Mirror(p) && c !in p.chans
    ensures Mirror(p.(chans := p.chans[c := Chan(fd, NONE_EVENT, New)]))
  {
  }

  lemma AcceptedBase(s: Server, fd: int)
    requires Inv(s) && |s.conns| + 1 < Names.INT_MAX
    ensures Base(Accepted(s, fd)) && Assigned(Accepted(s, fd))
  {
    AcceptedShape(s, fd);
    AcceptedMap(s, fd);
    AcceptedPlaced(s, fd);
    var io := IoLoop(|s.loops|, |s.conns|);
    assert |s.conns| !in s.pollers[io].chans;
    NewChannelMirrors(s.pollers[io], |s.conns|, fd);
  }

  lemma AcceptedOld(s: Server, fd: int, d: ConnId)
    requires Inv(s) && Known(s, d) && Known(Accepted(s, fd), d) && |s.conns| + 1 < Names.INT_MAX
    ensures ViewOf(Accepted(s, fd), d) == ViewOf(s, d) && ChanOf(Accepted(s, fd), d) == ChanOf(s, d)
  {
    NameIsNew(s);
  }

  lemma AcceptedNew(s: Server, fd: int)
    requires Inv(s) && Base(Accepted(s, fd))
    ensures var c := |s.conns|;
            && ViewOf(Accepted(s, fd), c)
               == View(CS.Connecting, 0, New, true, 0, 0, 0, 0, false, false, false)
            && ChanOf(Accepted(s, fd), c).fd == fd
  {
    var c := |s.conns|;
    var io := IoLoop(|s.loops|, c);
    assert PlacedLoop(s, io) && PlacedLoop(s, 0);
    Absent(Queue(s.loops[io]), Established(c));
    Absent(Queue(s.loops[0]), RemoveInLoop(c));
    Absent(Queue(s.loops[io]), Destroyed(c));
    Absent(Queue(s.loops[io]), Notify(c));
  }

  lemma AcceptedFds(s: Server, fd: int)
    requires Inv(s) && Base(Accepted(s, fd)) && FreshFd(s, fd)
    requires forall d | 0 <= d < |s.conns| ::
               ViewOf(Accepted(s, fd), d) == ViewOf(s, d) && ChanOf(Accepted(s, fd), d) == ChanOf(s, d)
    ensures FdsApart(Accepted(s, fd))
  {
    AcceptedNew(s, fd);
    forall d | 0 <= d < |s.conns| && Held(ViewOf(s, d))
      ensures ChanOf(s, d).fd != fd
    {
      assert Known(s, d);
    }
  }

  lemma AcceptedKeeps(s: Server, fd: int)
    requires Inv(s) && |s.conns| + 1 < Names.INT_MAX && FreshFd(s, fd)
    ensures InvBut(Accepted(s, fd), |s.conns|)
  {
    var s' := Accepted(s, fd);
    AcceptedBase(s, fd);
    forall d | 0 <= d < |s.conns|
      ensures Good(ViewOf(s', d)) && ViewOf(s', d) == ViewOf(s, d) && ChanOf(s', d) == ChanOf(s, d)
    {
      assert Good(ViewOf(s, d)) && Known(s, d);
      AcceptedOld(s, fd, d);
    }
    AcceptedFds(s, fd);
  }

  lemma AcceptKeeps(s: Server, fd: int)
    requires Inv(s) && Enabled(s, Accept(fd))
    ensures Inv(Effect(s, Accept(fd)))
  {
    var c, s1 := |s.conns|, Accepted(s, fd);
    AcceptedKeeps(s, fd);
    AcceptedNew(s, fd);
    var v := ViewOf(s1, c);
    if s1.conns[c].io == 0 {
      HeldIsClear(s1, c);
      OpenedMoves(s1, c);
      MovesKeepInv(s1, Opened(s1, c), c, OpenedView(v));
    } else {
      PushMoves(s1, s1.conns[c].io, Established(c));
      MovesKeepInv(s1, Push(s1, s1.conns[c].io, Established(c)), c, Queued(v, Established(c)));
    }
  }

  /** Every step of every loop keeps the invariant. */
  lemma StepKeeps(s: Server, step: Step)
    requires Inv(s)
    ensures Inv(Next(s, step))
  {
    if Enabled(s, step) {
      match step
      case Accept(fd) => AcceptKeeps(s, fd);
      case PollReturn(l, active) => PollReturnKeeps(s, l, active);
      case Act(l, c, call) => ActKeeps(s, l, c, call);
      case HandleClose(l) => HandleCloseKeeps(s, l);
      case CloseCallback(l) =>
        if l == 0 {
          CloseOnBaseKeeps(s);
        } else {
          CloseOnIoKeeps(s, l);
        }
      case QueueDestroyed => QueueDestroyedKeeps(s);
      case FinishEvent(l) => FinishEventKeeps(s, l);
      case Swap(l) => SwapKeeps(s, l);
      case RunNext(l) => RunNextKeeps(s, l);
      case EndBatch(l) => EndBatchKeeps(s, l);
    }
  }

  lemma InitInv(cfg: Config, ioLoops: nat)
    requires |cfg.ipPort| <= 51
    ensures Inv(Init(cfg, ioLoops))
  {
  }

  lemma {:induction false} RunKeeps(s: Server, steps: seq<Step>)
    requires Inv(s)
    ensures Inv(Run(s, steps))
    decreases |steps|
  {
    if steps == [] {
    } else {
      RunKeeps(s, steps[..|steps| - 1]);
      StepKeeps(Run(s, steps[..|steps| - 1]), steps[|steps| - 1]);
    }
  }

  // ---- theorems about every run of a started server ----

  ghost function Reached(cfg: Config, ioLoops: nat, steps: seq<Step>): (s: Server)
    requires |cfg.ipPort| <= 51
    ensures Inv(s)
  {
    InitInv(cfg, ioLoops);
    RunKeeps(Init(cfg, ioLoops), steps);
    Run(Init(cfg, ioLoops), steps)
  }

  /** A connection whose channel a poller knows is in the server's map, or held by an
      executing remove_connection_in_loop, or by a connection_destroyed queued on its own
      loop; however often handle_close has run for it. */
  lemma RegisteredIsHeld(cfg: Config, ioLoops: nat, steps: seq<Step>, c: ConnId)
    requires |cfg.ipPort| <= 51 && c < |Reached(cfg, ioLoops, steps).conns|
    ensures var s := Reached(cfg, ioLoops, steps);
            Known(s, c) && (ChanOf(s, c).idx != New ==>
              InMap(s, c) || s.loops[0].busy == Removing(c) || Destroyed(c) in Queue(s.loops[s.conns[c].io]))
  {
    var s := Reached(cfg, ioLoops, steps);
    assert Known(s, c) && Good(ViewOf(s, c));
    if ViewOf(s, c).toDestroy > 0 {
      CountedIsQueued(Queue(s.loops[s.conns[c].io]), Destroyed(c));
    }
  }

  lemma CountedIsQueued(q: seq<Functor>, f: Functor)
    requires Count(q, f) > 0
    ensures f in q
  {
    if f !in q {
      Absent(q, f);
    }
  }

  /** What has been freed is nowhere: not in a poller's map, not in the kernel's interest
      set, not in a list of active channels.  No pointer to it is left to follow. */
  lemma FreedIsGone(cfg: Config, ioLoops: nat, steps: seq<Step>, c: ConnId)
    requires |cfg.ipPort| <= 51 && c < |Reached(cfg, ioLoops, steps).conns|
    requires Known(Reached(cfg, ioLoops, steps), c) && !Held(ViewOf(Reached(cfg, ioLoops, steps), c))
    ensures var s := Reached(cfg, ioLoops, steps);
            forall l | 0 <= l < |s.loops| ::
              && (forall fd | fd in s.pollers[l].kernel :: s.pollers[l].kernel[fd].target != c)
              && (forall fd | fd in s.pollers[l].channels :: s.pollers[l].channels[fd] != c)
              && (s.loops[l].phase.Dispatching? ==> c !in s.loops[l].phase.active)
  {
    var s := Reached(cfg, ioLoops, steps);
    assert Good(ViewOf(s, c));
    forall l | 0 <= l < |s.loops|
      ensures forall fd | fd in s.pollers[l].kernel :: s.pollers[l].kernel[fd].target != c
      ensures forall fd | fd in s.pollers[l].channels :: s.pollers[l].channels[fd] != c
      ensures s.loops[l].phase.Dispatching? ==> c !in s.loops[l].phase.active
    {
      assert Mirror(s.pollers[l]);
      if s.loops[l].phase.Dispatching? {
        ActiveRegistered(s, l);
      }
    }
  }

  /** Across the whole server no epoll_ctl call ever fails, and each poller's map, its
      channels and its kernel set agree: descriptors of connections that are still held are
      distinct, although the kernel reuses those of freed ones. */
  lemma PollersAgree(cfg: Config, ioLoops: nat, steps: seq<Step>)
    requires |cfg.ipPort| <= 51
    ensures var s := Reached(cfg, ioLoops, steps);
            !s.fatal && forall l | 0 <= l < |s.pollers| :: Mirror(s.pollers[l])
  {
  }

  /** connection_established runs at most once; it has run before any handler of the
      connection, and before any functor that follows a close. */
  lemma EstablishedFirst(cfg: Config, ioLoops: nat, steps: seq<Step>, l: LoopId)
    requires |cfg.ipPort| <= 51
    ensures var s := Reached(cfg, ioLoops, steps);
            && (forall c | 0 <= c < |s.conns| :: s.conns[c].established <= 1)
            && (AtEvent(s, l) ==> s.conns[AtConn(s, l)].established == 1)
            && (l < |s.loops| && Batch(s.loops[l].phase) != [] ==>
                  && Head(s, l).c < |s.conns|
                  && s.conns[Head(s, l).c].established == if Head(s, l).Established? then 0 else 1)
  {
    var s := Reached(cfg, ioLoops, steps);
    forall c | 0 <= c < |s.conns|
      ensures s.conns[c].established <= 1
    {
      assert Good(ViewOf(s, c));
    }
    if AtEvent(s, l) {
      AtEventActive(s, l);
    }
    if l < |s.loops| && Batch(s.loops[l].phase) != [] {
      PopMoves(s, l);
      assert Good(ViewOf(s, Head(s, l).c));
    }
  }

  /** Nothing queued and nothing executing. */
  ghost predicate Quiet(s: Server) {
    forall l | 0 <= l < |s.loops| :: Queue(s.loops[l]) == [] && s.loops[l].busy.Free?
  }

  /** No leak: when nothing is queued or executing, the map holds exactly the connections
      that are registered, which are those still open; and every other has been freed. */
  lemma QuietServer(cfg: Config, ioLoops: nat, steps: seq<Step>, c: ConnId)
    requires |cfg.ipPort| <= 51 && Quiet(Reached(cfg, ioLoops, steps))
    requires c < |Reached(cfg, ioLoops, steps).conns| && Known(Reached(cfg, ioLoops, steps), c)
    ensures var s := Reached(cfg, ioLoops, steps);
            && (InMap(s, c) <==> ChanOf(s, c).idx == Added)
            && (InMap(s, c) <==> CS.IsOpen(s.conns[c].state))
            && (InMap(s, c) <==> Held(ViewOf(s, c)))
  {
    var s := Reached(cfg, ioLoops, steps);
    var io := s.conns[c].io;
    assert Good(ViewOf(s, c));
    Absent(Queue(s.loops[io]), Established(c));
    Absent(Queue(s.loops[0]), RemoveInLoop(c));
    Absent(Queue(s.loops[io]), Destroyed(c));
    Absent(Queue(s.loops[io]), Notify(c));
  }

  // ---- the state only moves forward ----

  predicate Forward(s: Server, s': Server) {
    |s.conns| <= |s'.conns| && forall d | 0 <= d < |s.conns| ::
      CS.Rank(s.conns[d].state) <= CS.Rank(s'.conns[d].state)
  }

  lemma CalledForward(s: Server, c: ConnId, call: Call)
    requires Known(s, c)
    ensures Forward(s, Called(s, c, call))
  {
  }

  lemma RunNextForward(s: Server, l: LoopId)
    requires Inv(s) && Enabled(s, RunNext(l))
    ensures Forward(s, Effect(s, RunNext(l)))
  {
    PopMoves(s, l);
    assert Good(ViewOf(s, Head(s, l).c));
  }

  lemma OtherForward(s: Server, step: Step)
    requires Enabled(s, step) && !step.RunNext?
    ensures Forward(s, Effect(s, step))
  {
    if step.Act? {
      CalledForward(s, step.c, step.call);
    }
  }

  lemma StepForward(s: Server, step: Step)
    requires Inv(s)
    ensures Forward(s, Next(s, step))
  {
    if Enabled(s, step) {
      if step.RunNext? {
        RunNextForward(s, step.l);
      } else {
        OtherForward(s, step);
      }
    }
  }

  /** Over any run, the state of every connection only moves forward. */
  lemma {:induction false} StatesMoveForward(s: Server, steps: seq<Step>)
    requires Inv(s)
    ensures Forward(s, Run(s, steps))
    decreases |steps|
  {
    if steps == [] {
    } else {
      StatesMoveForward(s, steps[..|steps| - 1]);
      RunKeeps(s, steps[..|steps| - 1]);
      StepForward(Run(s, steps[..|steps| - 1]), steps[|steps| - 1]);
    }
  }

  // ---- dispatch safety ----

  /** Every loop stands where it stood. */
  predicate SamePhases(s: Server, s': Server) {
    |s'.loops| == |s.loops| && forall k | 0 <= k < |s.loops| :: s'.loops[k].phase == s.loops[k].phase
  }

  lemma CalledPhases(s: Server, c: ConnId, call: Call)
    requires Known(s, c)
    ensures SamePhases(s, Called(s, c, call))
  {
  }

  lemma RanPhases(s: Server, l: LoopId, f: Functor)
    requires l < |s.loops| && Known(s, f.c)
    ensures SamePhases(s, Ran(s, l, f))
  {
  }

  lemma OtherPhases(s: Server, step: Step)
    requires Enabled(s, step)
    requires step.Accept? || step.Act? || step.HandleClose? || step.CloseCallback? || step.QueueDestroyed?
    ensures SamePhases(s, Effect(s, step))
  {
    if step.Act? {
      CalledPhases(s, step.c, step.call);
    }
  }

  /** As long as a loop is dispatching, its list of active channels is the one poll_wait
      filled, whatever step any loop takes. */
  lemma StepKeepsActive(s: Server, step: Step, l: LoopId)
    requires l < |s.loops| && s.loops[l].phase.Dispatching?
    ensures var s' := Next(s, step);
            |s'.loops| == |s.loops| &&
            (s'.loops[l].phase.Dispatching? ==> s'.loops[l].phase.active == s.loops[l].phase.active)
  {
    if Enabled(s, step) {
      if step.RunNext? {
        RanPhases(Popped(s, step.l), step.l, Head(s, step.l));
      } else if step.Accept? || step.Act? || step.HandleClose? || step.CloseCallback? || step.QueueDestroyed? {
        OtherPhases(s, step);
      }
    }
  }

  /** From the return of poll_wait to the end of the dispatch loop, every channel that it
      listed stays registered and its connection held, whatever all the loops do. */
  lemma {:induction false} DispatchIsSafe(s: Server, l: LoopId, steps: seq<Step>)
    requires Inv(s) && l < |s.loops| && s.loops[l].phase.Dispatching?
    requires forall i | 0 <= i <= |steps| ::
               |Run(s, steps[..i]).loops| == |s.loops| && Run(s, steps[..i]).loops[l].phase.Dispatching?
    ensures var s' := Run(s, steps);
            |s'.loops| == |s.loops| && s'.loops[l].phase.Dispatching?
            && s'.loops[l].phase.active == s.loops[l].phase.active
            && (forall c | c in s.loops[l].phase.active ::
                  Known(s', c) && ChanOf(s', c).idx != New && Held(ViewOf(s', c)))
    decreases |steps|
  {
    assert steps[..|steps|] == steps;
    RunKeeps(s, steps);
    ActiveRegistered(Run(s, steps), l);
    ActiveStays(s, l, steps);
  }

  lemma {:induction false} ActiveStays(s: Server, l: LoopId, steps: seq<Step>)
    requires l < |s.loops| && s.loops[l].phase.Dispatching?
    requires forall i | 0 <= i <= |steps| ::
               |Run(s, steps[..i]).loops| == |s.loops| && Run(s, steps[..i]).loops[l].phase.Dispatching?
    ensures var s' := Run(s, steps);
            |s'.loops| == |s.loops| && s'.loops[l].phase.Dispatching?
            && s'.loops[l].phase.active == s.loops[l].phase.active
    decreases |steps|
  {
    assert steps[..|steps|] == steps;
    if steps == [] {
    } else {
      var before := steps[..|steps| - 1];
      forall i | 0 <= i <= |before|
        ensures |Run(s, before[..i]).loops| == |s.loops| && Run(s, before[..i]).loops[l].phase.Dispatching?
      {
        assert before[..i] == steps[..i];
      }
      ActiveStays(s, l, before);
      StepKeepsActive(Run(s, before), steps[|steps| - 1], l);
    }
  }

  // ---- what the loops run ----

  /** What a step queues on loop `k`: an accepted connection's establishment on its io loop,
      a callback's notification on its own loop, a removal on the base loop, and then a
      destruction on the connection's own loop. */
  ghost function Queues(s: Server, step: Step, k: LoopId): seq<Functor>
    requires Enabled(s, step)
  {
    match step
    case Accept(_) =>
      var io := IoLoop(|s.loops|, |s.conns|);
      if io == k && io != 0 then [Established(|s.conns|)] else []
    case Act(l, c, call) => if l == k && call.notify && CS.IsOpen(s.conns[c].state) then [Notify(c)] else []
    case CloseCallback(l) => if k == 0 && l != 0 then [RemoveInLoop(s.loops[l].busy.c)] else []
    case QueueDestroyed => if s.conns[s.loops[0].busy.c].io == k then [Destroyed(s.loops[0].busy.c)] else []
    case _ => []
  }

  /** Each loop runs its functors first in, first out: a step takes the first of a loop only
      to run it, loses no other, and adds at the end just what it queues there. */
  lemma StepQueues(s: Server, step: Step, k: LoopId)
    requires Enabled(s, step) && k < |s.loops|
    ensures var s' := Next(s, step);
            && |s'.loops| == |s.loops|
            && (step == RunNext(k) ==> Queue(s.loops[k]) != [])
            && Queue(s'.loops[k]) == Queue(s.loops[k])[if step == RunNext(k) then 1 else 0..] + Queues(s, step, k)
  {
    if step.Act? {
      ActQueues(s, step, k);
    } else if step.RunNext? {
      RunQueues(s, step.l, k);
    } else if step.PollReturn? || step.FinishEvent? || step.Swap? || step.EndBatch? {
      MoveQueues(s, step, k);
    } else {
      OtherQueues(s, step, k);
    }
  }

  lemma ActQueues(s: Server, step: Step, k: LoopId)
    requires step.Act? && Enabled(s, step) && k < |s.loops|
    ensures var s' := Next(s, step);
            |s'.loops| == |s.loops| && Queue(s'.loops[k]) == Queue(s.loops[k]) + Queues(s, step, k)
  {
  }

  lemma RunQueues(s: Server, l: LoopId, k: LoopId)
    requires Enabled(s, RunNext(l)) && k < |s.loops|
    ensures var s' := Next(s, RunNext(l));
            && |s'.loops| == |s.loops| && (l == k ==> Queue(s.loops[k]) != [])
            && Queue(s'.loops[k]) == Queue(s.loops[k])[if l == k then 1 else 0..]
  {
    PopQueue(s, l);
    RanQueues(Popped(s, l), l, Head(s, l), k);
  }

  lemma RanQueues(s: Server, l: LoopId, f: Functor, k: LoopId)
    requires l < |s.loops| && Known(s, f.c) && k < |s.loops|
    ensures |Ran(s, l, f).loops| == |s.loops| && Queue(Ran(s, l, f).loops[k]) == Queue(s.loops[k])
  {
  }

  lemma MoveQueues(s: Server, step: Step, k: LoopId)
    requires Enabled(s, step) && (step.PollReturn? || step.FinishEvent? || step.Swap? || step.EndBatch?)
    requires k < |s.loops|
    ensures var s' := Next(s, step); |s'.loops| == |s.loops| && Queue(s'.loops[k]) == Queue(s.loops[k])
  {
  }

  lemma OtherQueues(s: Server, step: Step, k: LoopId)
    requires Enabled(s, step) && k < |s.loops|
    requires step.Accept? || step.HandleClose? || step.CloseCallback? || step.QueueDestroyed?
    ensures var s' := Next(s, step);
            |s'.loops| == |s.loops| && Queue(s'.loops[k]) == Queue(s.loops[k]) + Queues(s, step, k)
  {
  }

  /** In the handlers of loop `l`, at the `j`-th of the channels listed. */
  ghost predicate Handling(s: Server, l: LoopId, active: seq<ConnId>, j: nat) {
    l < |s.loops| && s.loops[l].phase == Dispatching(active, j)
  }

  /** A dispatch loop moves on by one channel at a time, or ends after the last. */
  lemma StepHandling(s: Server, step: Step, l: LoopId, active: seq<ConnId>, j: nat)
    requires Handling(s, l, active, j)
    ensures var s' := Next(s, step);
            || Handling(s', l, active, j) || Handling(s', l, active, j + 1)
            || (step == Swap(l) && Enabled(s, step) && j == |active|)
  {
    if Enabled(s, step) {
      if step.RunNext? {
        RanPhases(Popped(s, step.l), step.l, Head(s, step.l));
      } else if step.Accept? || step.Act? || step.HandleClose? || step.CloseCallback? || step.QueueDestroyed? {
        OtherPhases(s, step);
      }
    }
  }

  /** At some point of the run the loop has been in the handlers of the `j`-th channel. */
  ghost predicate WasHandled(s: Server, l: LoopId, active: seq<ConnId>, steps: seq<Step>, j: nat) {
    exists i | 0 <= i <= |steps| :: Handling(Run(s, steps[..i]), l, active, j)
  }

  /** The run is one dispatch of loop `l`. */
  ghost predicate Dispatches(s: Server, l: LoopId, steps: seq<Step>) {
    forall i | 0 <= i <= |steps| ::
      l < |Run(s, steps[..i]).loops| && Run(s, steps[..i]).loops[l].phase.Dispatching?
  }

  lemma {:induction false} HandledSoFar(s: Server, l: LoopId, active: seq<ConnId>, steps: seq<Step>) returns (at: nat)
    requires Handling(s, l, active, 0) && Dispatches(s, l, steps)
    ensures Handling(Run(s, steps), l, active, at)
    ensures forall j | 0 <= j <= at :: WasHandled(s, l, active, steps, j)
    decreases |steps|
  {
    if steps == [] {
      at := 0;
      assert Handling(Run(s, steps[..0]), l, active, 0);
    } else {
      var n := |steps| - 1;
      DispatchesPrefix(s, l, steps);
      var before := HandledSoFar(s, l, active, steps[..n]);
      at := OneStepHandled(s, l, active, steps, steps[..n], before);
    }
  }

  lemma DispatchesPrefix(s: Server, l: LoopId, steps: seq<Step>)
    requires Dispatches(s, l, steps) && steps != []
    ensures Dispatches(s, l, steps[..|steps| - 1])
    ensures l < |Run(s, steps).loops| && Run(s, steps).loops[l].phase.Dispatching?
  {
    var before := steps[..|steps| - 1];
    assert steps[..|steps|] == steps;
    forall i | 0 <= i <= |before|
      ensures l < |Run(s, before[..i]).loops| && Run(s, before[..i]).loops[l].phase.Dispatching?
    {
      assert before[..i] == steps[..i];
    }
  }

  lemma OneStepHandled(s: Server, l: LoopId, active: seq<ConnId>, steps: seq<Step>, earlier: seq<Step>, before: nat)
    returns (at: nat)
    requires steps != [] && earlier == steps[..|steps| - 1]
    requires l < |Run(s, steps).loops| && Run(s, steps).loops[l].phase.Dispatching?
    requires Handling(Run(s, earlier), l, active, before)
    requires forall j | 0 <= j <= before :: WasHandled(s, l, active, earlier, j)
    ensures Handling(Run(s, steps), l, active, at)
    ensures forall j | 0 <= j <= at :: WasHandled(s, l, active, steps, j)
  {
    var n := |steps| - 1;
    StepHandling(Run(s, earlier), steps[n], l, active, before);
    at := if Handling(Run(s, steps), l, active, before) then before else before + 1;
    assert steps[..|steps|] == steps;
    forall j | 0 <= j <= at
      ensures WasHandled(s, l, active, steps, j)
    {
      if j <= before {
        WasHandledBefore(s, l, active, steps, j);
      } else {
        assert Handling(Run(s, steps[..|steps|]), l, active, j);
      }
    }
  }

  lemma WasHandledBefore(s: Server, l: LoopId, active: seq<ConnId>, steps: seq<Step>, j: nat)
    requires steps != [] && WasHandled(s, l, active, steps[..|steps| - 1], j)
    ensures WasHandled(s, l, active, steps, j)
  {
    var before := steps[..|steps| - 1];
    var i :| 0 <= i <= |before| && Handling(Run(s, before[..i]), l, active, j);
    assert before[..i] == steps[..i];
  }

  /** When the functors are taken, every channel that poll_wait reported has had its turn. */
  lemma EveryChannelHandled(s: Server, l: LoopId, active: seq<ConnId>, steps: seq<Step>, j: nat)
    requires Enabled(s, PollReturn(l, active)) && j < |active|
    requires Dispatches(Next(s, PollReturn(l, active)), l, steps)
    requires Enabled(Run(Next(s, PollReturn(l, active)), steps), Swap(l))
    ensures WasHandled(Next(s, PollReturn(l, active)), l, active, steps, j)
  {
    var at := HandledSoFar(Next(s, PollReturn(l, active)), l, active, steps);
  }

  // ---- two links to the other modules ----

  /** The abstraction of this module is that of ConnectionSpec: what one send, shutdown or
      handle_write does to an open, registered connection is what some Call does, and to a
      connection no longer open it does nothing. */
  lemma ActIsCall(c: CS.Conn, act: CS.Act, cfg: CS.Settings) returns (call: Call)
    requires CS.Inv(c) && (act.Send? || act.Shutdown? || act.HandleWrite?)
    ensures call.mask.Meets(READ_EVENT)
    ensures var c' := CS.Step(c, act, cfg);
            if CS.IsOpen(c.state) && c.idx == Added then
              && c'.events == call.mask && c'.idx == Added
              && c'.state == (if call.shut then CS.Disconnecting else c.state)
              && |c'.notes| == |c.notes| + if call.notify then 1 else 0
            else if c.state == CS.Disconnected then
              c' == c
            else
              c'.state == c.state
  {
    var c' := CS.Step(c, act, cfg);
    CS.StepInv(c, act, cfg);
    CS.StepNotes(c, act, cfg);
    call := Call(if c'.events.Meets(READ_EVENT) then c'.events else READ_EVENT,
                 c'.state == CS.Disconnecting, c'.notes != c.notes);
  }

  /** Connection `c` of the server stands where the connection `conn` stands. */
  ghost predicate Shows(s: Server, c: ConnId, conn: CS.Conn, cfg: CS.Settings) {
    && Known(s, c) && CS.Inv(conn) && s.cfg.noneTest == cfg.noneTest
    && s.conns[c].state == conn.state
    && ChanOf(s, c).events == conn.events && ChanOf(s, c).idx == conn.idx
  }

  predicate AllCallbackActs(acts: seq<CS.Act>) {
    forall i | 0 <= i < |acts| :: IsCallbackAct(acts[i])
  }

  predicate IsCallbackAct(act: CS.Act) {
    act.Send? || act.Shutdown? || act.HandleWrite?
  }

  /** And its loop is running handlers or functors, which have seen it established. */
  ghost predicate InHand(s: Server, l: LoopId, c: ConnId, conn: CS.Conn, cfg: CS.Settings) {
    && Shows(s, c, conn, cfg) && conn.state != CS.Connecting
    && s.conns[c].io == l && !s.loops[l].phase.Polling?
  }

  /** From `s` to `s'` the connection goes from `conn` to `conn'`, and as many notifications
      are queued. */
  ghost predicate Follows(s: Server, s': Server, l: LoopId, c: ConnId, conn: CS.Conn, conn': CS.Conn,
                          cfg: CS.Settings) {
    && InHand(s, l, c, conn, cfg) && InHand(s', l, c, conn', cfg)
    && ViewOf(s', c).toNotify - ViewOf(s, c).toNotify == |conn'.notes| - |conn.notes|
  }

  lemma FollowsTwice(s: Server, s1: Server, s2: Server, l: LoopId, c: ConnId,
                     conn: CS.Conn, conn1: CS.Conn, conn2: CS.Conn, cfg: CS.Settings)
    requires Follows(s, s1, l, c, conn, conn1, cfg) && Follows(s1, s2, l, c, conn1, conn2, cfg)
    ensures Follows(s, s2, l, c, conn, conn2, cfg)
  {
  }

  lemma CalledShows(s: Server, c: ConnId, call: Call)
    requires Known(s, c) && CS.IsOpen(s.conns[c].state)
    ensures var s' := Called(s, c, call);
            && s'.cfg == s.cfg && Known(s', c) && ChanOf(s', c).events == call.mask
            && s'.conns[c].io == s.conns[c].io
            && s'.conns[c].state == if call.shut then CS.Disconnecting else s.conns[c].state
  {
  }

  /** What ConnectionSpec says of a send, a shutdown or a handle_write is what some Act step
      does to a server whose connection stands there, notifications included. */
  lemma ActSimulates(s: Server, l: LoopId, c: ConnId, conn: CS.Conn, act: CS.Act, cfg: CS.Settings)
    returns (call: Call)
    requires Inv(s) && InHand(s, l, c, conn, cfg) && IsCallbackAct(act)
    ensures Enabled(s, Act(l, c, call))
    ensures Follows(s, Next(s, Act(l, c, call)), l, c, conn, CS.Step(conn, act, cfg), cfg)
  {
    call := ActIsCall(conn, act, cfg);
    assert Good(ViewOf(s, c));
    CS.StepInv(conn, act, cfg);
    CalledPhases(s, c, call);
    if CS.IsOpen(conn.state) {
      HeldIsClear(s, c);
      CalledMoves(s, c, call);
      CalledShows(s, c, call);
    }
  }

  /** The steps are acts on `c` that amount to `acts`. */
  ghost predicate Simulates(s: Server, steps: seq<Step>, l: LoopId, c: ConnId, conn: CS.Conn,
                            acts: seq<CS.Act>, cfg: CS.Settings) {
    && (forall i | 0 <= i < |steps| :: steps[i].Act? && steps[i].c == c && steps[i].l == l)
    && Follows(s, Run(s, steps), l, c, conn, CS.Run(conn, acts, cfg), cfg)
  }

  /** So any sequence of such acts in one callback, however many notifications it posts, is
      a run of Act steps. */
  lemma {:induction false} CallbackSimulates(s: Server, l: LoopId, c: ConnId, conn: CS.Conn,
                                             acts: seq<CS.Act>, cfg: CS.Settings)
    returns (steps: seq<Step>)
    requires Inv(s) && InHand(s, l, c, conn, cfg) && AllCallbackActs(acts)
    ensures Simulates(s, steps, l, c, conn, acts, cfg)
    decreases |acts|
  {
    if acts == [] {
      steps := [];
      NoneSimulates(s, l, c, conn, cfg);
    } else {
      var n := |acts| - 1;
      steps := CallbackSimulates(s, l, c, conn, acts[..n], cfg);
      steps := OneMoreSimulates(s, steps, l, c, conn, acts, cfg);
    }
  }

  lemma NoneSimulates(s: Server, l: LoopId, c: ConnId, conn: CS.Conn, cfg: CS.Settings)
    requires InHand(s, l, c, conn, cfg)
    ensures Simulates(s, [], l, c, conn, [], cfg)
  {
  }

  lemma OneMoreSimulates(s: Server, steps: seq<Step>, l: LoopId, c: ConnId, conn: CS.Conn,
                         acts: seq<CS.Act>, cfg: CS.Settings) returns (steps': seq<Step>)
    requires Inv(s) && acts != [] && Simulates(s, steps, l, c, conn, acts[..|acts| - 1], cfg)
    requires IsCallbackAct(acts[|acts| - 1])
    ensures Simulates(s, steps', l, c, conn, acts, cfg)
  {
    var n := |acts| - 1;
    steps' := AddedSimulates(s, steps, l, c, conn, acts[..n], acts[n], cfg);
    assert acts[..n] + [acts[n]] == acts;
  }

  lemma AddedSimulates(s: Server, steps: seq<Step>, l: LoopId, c: ConnId, conn: CS.Conn,
                       acts: seq<CS.Act>, act: CS.Act, cfg: CS.Settings) returns (steps': seq<Step>)
    requires Inv(s) && Simulates(s, steps, l, c, conn, acts, cfg) && IsCallbackAct(act)
    ensures Simulates(s, steps', l, c, conn, acts + [act], cfg)
  {
    var s1, conn1 := Run(s, steps), CS.Run(conn, acts, cfg);
    RunKeeps(s, steps);
    var call := ActSimulates(s1, l, c, conn1, act, cfg);
    steps' := steps + [Act(l, c, call)];
    RunSnoc(s, steps, Act(l, c, call));
    CS.RunSnoc(conn, acts, act, cfg);
    FollowsTwice(s, s1, Next(s1, Act(l, c, call)), l, c, conn, conn1, CS.Step(conn1, act, cfg), cfg);
  }

  lemma RunSnoc(s: Server, steps: seq<Step>, step: Step)
    ensures Run(s, steps + [step]) == Next(Run(s, steps), step)
  {
    assert (steps + [step])[..|steps|] == steps;
  }

  /** connection_established, handle_close and connection_destroyed are here what they are in
      ConnectionSpec, on state, mask and registration. */
  lemma OpenedShows(s: Server, c: ConnId, conn: CS.Conn, cfg: CS.Settings)
    requires Shows(s, c, conn, cfg) && conn.state == CS.Connecting
    ensures Shows(Opened(s, c), c, CS.Step(conn, CS.Establish, cfg), cfg)
  {
    CS.StepInv(conn, CS.Establish, cfg);
  }

  lemma ClosedShows(s: Server, c: ConnId, conn: CS.Conn, cfg: CS.Settings)
    requires Shows(s, c, conn, cfg) && conn.idx != New
    ensures Shows(Closed(s, c), c, CS.Step(conn, CS.HandleClose, cfg), cfg)
  {
    CS.StepInv(conn, CS.HandleClose, cfg);
  }

  lemma DestroyedShows(s: Server, c: ConnId, conn: CS.Conn, cfg: CS.Settings)
    requires Shows(s, c, conn, cfg) && conn.state != CS.Connecting && conn.state != CS.Connected
    ensures Shows(DestroyedNow(s, c), c, CS.Step(conn, CS.Destroy, cfg), cfg)
  {
    CS.StepInv(conn, CS.Destroy, cfg);
  }

  /** The life of a connection, step by step: accepted with a channel of its own, on a loop
      of its own, under its own name; established at once on the base loop, and else when
      the functor queued for it runs; closed by handle_close; removed by the functor that
      remove_connection_in_loop has queued. */
  lemma AcceptShows(s: Server, fd: int, cfg: CS.Settings)
    requires Inv(s) && Enabled(s, Accept(fd)) && s.cfg.noneTest == cfg.noneTest
    ensures var s', c, io := Next(s, Accept(fd)), |s.conns|, IoLoop(|s.loops|, |s.conns|);
            && |s'.conns| == c + 1 && Known(s', c) && s'.conns[c].io == io && s'.conns[c].name == Name(s.cfg, c)
            && ChanOf(s', c).fd == fd && InMap(s', c)
            && Shows(s', c, if io == 0 then CS.Step(CS.Fresh(), CS.Establish, cfg) else CS.Fresh(), cfg)
            && (io != 0 ==> s'.loops[io].pending == s.loops[io].pending + [Established(c)])
  {
    var c := |s.conns|;
    AcceptedKeeps(s, fd);
    AcceptedShows(s, fd, cfg);
    if IoLoop(|s.loops|, c) == 0 {
      OpenedShows(Accepted(s, fd), c, CS.Fresh(), cfg);
      OpenedElsewhere(Accepted(s, fd), c);
    }
  }

  lemma AcceptedShows(s: Server, fd: int, cfg: CS.Settings)
    requires |s.loops| == |s.pollers| > 0 && s.cfg.noneTest == cfg.noneTest
    ensures var s', c := Accepted(s, fd), |s.conns|;
            && |s'.conns| == c + 1 && Shows(s', c, CS.Fresh(), cfg) && ChanOf(s', c).fd == fd && InMap(s', c)
            && s'.conns[c].io == IoLoop(|s.loops|, c) && s'.conns[c].name == Name(s.cfg, c)
  {
  }

  lemma OpenedElsewhere(s: Server, c: ConnId)
    requires Known(s, c)
    ensures var s' := Opened(s, c);
            && Known(s', c) && s'.connections == s.connections && |s'.conns| == |s.conns|
            && s'.conns[c].io == s.conns[c].io && s'.conns[c].name == s.conns[c].name
            && ChanOf(s', c).fd == ChanOf(s, c).fd
  {
  }

  lemma EstablishedShows(s: Server, l: LoopId, conn: CS.Conn, cfg: CS.Settings)
    requires Enabled(s, RunNext(l)) && Head(s, l).Established? && conn.state == CS.Connecting
    requires Shows(s, Head(s, l).c, conn, cfg)
    ensures Shows(Next(s, RunNext(l)), Head(s, l).c, CS.Step(conn, CS.Establish, cfg), cfg)
  {
    OpenedShows(Popped(s, l), Head(s, l).c, conn, cfg);
  }

  lemma HandleCloseShows(s: Server, l: LoopId, conn: CS.Conn, cfg: CS.Settings)
    requires Enabled(s, HandleClose(l)) && Shows(s, AtConn(s, l), conn, cfg) && conn.idx != New
    ensures Shows(Next(s, HandleClose(l)), AtConn(s, l), CS.Step(conn, CS.HandleClose, cfg), cfg)
  {
    ClosedShows(s, AtConn(s, l), conn, cfg);
  }

  lemma DestroyedRunShows(s: Server, l: LoopId, conn: CS.Conn, cfg: CS.Settings)
    requires Enabled(s, RunNext(l)) && Head(s, l).Destroyed?
    requires Shows(s, Head(s, l).c, conn, cfg) && conn.state != CS.Connecting && conn.state != CS.Connected
    ensures Shows(Next(s, RunNext(l)), Head(s, l).c, CS.Step(conn, CS.Destroy, cfg), cfg)
  {
    DestroyedShows(Popped(s, l), Head(s, l).c, conn, cfg);
  }

  /** How many of the first `n` connections were given to loop `l`. */
  function Share(s: Server, n: nat, l: LoopId): nat
    requires n <= |s.conns|
  {
    if n == 0 then 0 else Share(s, n - 1, l) + if s.conns[n - 1].io == l then 1 else 0
  }

  lemma {:induction false} ShareIsServed(s: Server, n: nat, i: nat)
    requires Assigned(s) && n <= |s.conns| && i + 1 < |s.loops|
    ensures Share(s, n, i + 1) == ThreadPools.Served(|s.loops| - 1, n, i)
    decreases n
  {
    if n == 0 {
    } else {
      ShareIsServed(s, n - 1, i);
    }
  }

  /** The connections accepted so far are spread over the io loops evenly, give or take one. */
  lemma EvenSpread(s: Server, i: nat, j: nat)
    requires Assigned(s) && i <= j && j + 1 < |s.loops|
    ensures Share(s, |s.conns|, j + 1) <= Share(s, |s.conns|, i + 1) <= Share(s, |s.conns|, j + 1) + 1
  {
    ShareIsServed(s, |s.conns|, i);
    ShareIsServed(s, |s.conns|, j);
    ThreadPools.RoundRobinIsFair(|s.loops| - 1, |s.conns|, i, j);
  }
}
