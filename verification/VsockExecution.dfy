/** Tier 2 down to the bytes: the vsock machine of `ExecProtocol` with each message packed into a
    frame and each frame arriving in pieces, and the loops of host and guest that read from such
    a connection. The JSON codec of a message is a parameter. */
module VsockExecution {
  import opened Wrappers
  import opened Utf8
  import opened Framing
  import opened ExecProtocol

  type Encoder = Msg -> seq<Byte>
  type Decoder = seq<Byte> -> Option<Msg>

  ghost predicate Inverse(enc: Encoder, dec: Decoder) { forall m :: dec(enc(m)) == Some(m) }

  predicate Fits(enc: Encoder, msgs: seq<Msg>) { forall m :: m in msgs ==> Sendable(enc(m)) }

  function Bodies(enc: Encoder, msgs: seq<Msg>): (bs: seq<seq<Byte>>)
    ensures |bs| == |msgs| && forall i :: 0 <= i < |msgs| ==> bs[i] == enc(msgs[i])
  {
    seq(|msgs|, i requires 0 <= i < |msgs| => enc(msgs[i]))
  }

  /** What a party writes when it sends `msgs`. */
  function Written(enc: Encoder, msgs: seq<Msg>): seq<Byte>
    requires Fits(enc, msgs)
  {
    Frames(Bodies(enc, msgs))
  }

  // ---- The machine on bytes ---------------------------------------------------------------------

  /** One direction of the connection: what the receiver can read, and what is still under way. */
  datatype Channel = Channel(arrived: seq<Byte>, wire: seq<Byte>)

  datatype ByteWorld<S> = ByteWorld(host: Host, guest: Guest, toGuest: Channel, toHost: Channel, store: S)

  const IDLE := Channel([], [])

  function StartBytes<S>(store: S): ByteWorld<S> { ByteWorld(Sending, AwaitCode, IDLE, IDLE, store) }

  datatype Move = Moves(party: Party) | Delivers(party: Party, n: nat)

  /** The world a party sees: the one message it is about to consume, if any. */
  function Seen<S>(b: ByteWorld<S>, toGuest: seq<Msg>, toHost: seq<Msg>): World<S> {
    World(b.host, b.guest, toGuest, toHost, b.store)
  }

  /** The party has consumed what it saw; what it sent goes onto the wire. A message that is too
      long to frame cannot be sent. */
  function Sent<S>(enc: Encoder, b: ByteWorld<S>, w: Option<World<S>>): Option<ByteWorld<S>> {
    match w
    case None => None
    case Some(w) =>
      if !(Fits(enc, w.toGuest) && Fits(enc, w.toHost)) then None
      else
        Some(ByteWorld(w.host, w.guest, b.toGuest.(wire := b.toGuest.wire + Written(enc, w.toGuest)),
                       b.toHost.(wire := b.toHost.wire + Written(enc, w.toHost)), w.store))
  }

  /** A host that waits reads whole frames only; it fails once the guest is gone and no whole
      frame is left, and a body it cannot decode raises out of the call. */
  function HostMoves<S>(cfg: Setup<S>, enc: Encoder, dec: Decoder, b: ByteWorld<S>): Option<ByteWorld<S>> {
    if !b.host.Serving? then Sent(enc, b, HostStep(cfg, Seen(b, [], [])))
    else
      match Take(b.toHost.arrived)
      case None =>
        if b.guest.Gone? && b.toHost.wire == [] then Sent(enc, b, HostStep(cfg, Seen(b, [], []))) else None
      case Some((body, rest)) =>
        var read := b.(toHost := b.toHost.(arrived := rest));
        match dec(body)
        case None => Some(read.(host := Ended(Propagated(HostError.OtherError([])))))
        case Some(m) => Sent(enc, read, HostStep(cfg, Seen(b, [], [m])))
  }

  function GuestMoves<S>(cfg: Setup<S>, enc: Encoder, dec: Decoder, b: ByteWorld<S>): Option<ByteWorld<S>> {
    if !(b.guest.AwaitCode? || b.guest.AwaitReply?) then Sent(enc, b, GuestStep(cfg, Seen(b, [], [])))
    else
      match Take(b.toGuest.arrived)
      case None => None
      case Some((body, rest)) =>
        match dec(body)
        case None => None
        case Some(m) => Sent(enc, b.(toGuest := b.toGuest.(arrived := rest)), GuestStep(cfg, Seen(b, [m], [])))
  }

  /** Some of the bytes under way arrive. */
  function Delivered(ch: Channel, n: nat): Option<Channel> {
    if !(0 < n <= |ch.wire|) then None else Some(Channel(ch.arrived + ch.wire[..n], ch.wire[n..]))
  }

  function ByteStep<S>(cfg: Setup<S>, enc: Encoder, dec: Decoder, b: ByteWorld<S>, move: Move): Option<ByteWorld<S>> {
    match move
    case Moves(TheHost) => HostMoves(cfg, enc, dec, b)
    case Moves(TheGuest) => GuestMoves(cfg, enc, dec, b)
    case Delivers(TheHost, n) =>
      (match Delivered(b.toHost, n)
       case None => None
       case Some(ch) => Some(b.(toHost := ch)))
    case Delivers(TheGuest, n) =>
      (match Delivered(b.toGuest, n)
       case None => None
       case Some(ch) => Some(b.(toGuest := ch)))
  }

  function RunBytes<S>(cfg: Setup<S>, enc: Encoder, dec: Decoder, b: ByteWorld<S>, moves: seq<Move>)
    : Option<ByteWorld<S>>
    decreases |moves|
  {
    if moves == [] then Some(b)
    else
      match ByteStep(cfg, enc, dec, b, moves[0])
      case None => None
      case Some(next) => RunBytes(cfg, enc, dec, next, moves[1..])
  }

  /** The moves of the parties, without the deliveries. */
  function Schedule(moves: seq<Move>): seq<Party> {
    if moves == [] then []
    else (if moves[0].Moves? then [moves[0].party] else []) + Schedule(moves[1..])
  }

  // ---- It refines the machine on messages -----------------------------------------------------------

  /** The bytes of a direction are the frames of its messages, cut anywhere. */
  predicate Carries(enc: Encoder, ch: Channel, msgs: seq<Msg>) {
    Fits(enc, msgs) && ch.arrived + ch.wire == Written(enc, msgs)
  }

  ghost predicate Refines<S>(enc: Encoder, b: ByteWorld<S>, w: World<S>) {
    && b.host == w.host && b.guest == w.guest && b.store == w.store
    && Carries(enc, b.toGuest, w.toGuest) && Carries(enc, b.toHost, w.toHost)
  }

  lemma {:induction false} WrittenOne(enc: Encoder, msgs: seq<Msg>)
    requires Fits(enc, msgs) && |msgs| <= 1
    ensures Written(enc, msgs) == if msgs == [] then [] else Frame(enc(msgs[0])).value
  {
    if msgs != [] {
      assert Bodies(enc, msgs) == [enc(msgs[0])];
      assert Frames(Bodies(enc, msgs)[1..]) == [];
    }
  }

  /** With at most one message in flight the receiver can take it exactly when all of it has
      arrived, and then nothing else is left. */
  lemma {:induction false} TakeOne(enc: Encoder, ch: Channel, msgs: seq<Msg>)
    requires Carries(enc, ch, msgs) && |msgs| <= 1
    ensures Take(ch.arrived).Some? <==> msgs != [] && ch.wire == []
    ensures Take(ch.arrived).Some? ==> Take(ch.arrived) == Some((enc(msgs[0]), []))
  {
    WrittenOne(enc, msgs);
    if msgs != [] {
      var body := enc(msgs[0]);
      var frame := Frame(body).value;
      assert ch.arrived == frame[..|ch.arrived|];
      if ch.wire == [] {
        assert ch.arrived == frame + [];
        TakeFrame(ch.arrived, body, []);
      } else {
        TakeCut(body, |ch.arrived|);
      }
    }
  }

  lemma {:induction false} SentCarries(enc: Encoder, ch: Channel, msgs: seq<Msg>)
    requires ch == IDLE && Fits(enc, msgs)
    ensures Carries(enc, ch.(wire := ch.wire + Written(enc, msgs)), msgs)
  {
  }

  ghost predicate Short<S>(enc: Encoder, w: World<S>) { Fits(enc, w.toGuest) && Fits(enc, w.toHost) }

  /** A channel that carries nothing. */
  lemma {:induction false} CarriesNothing(enc: Encoder, ch: Channel)
    ensures Carries(enc, ch, []) <==> ch == IDLE
  {
    assert Written(enc, []) == [];
  }

  /** When a party that sees the whole of `w` moves there, the bytes it leaves refine the result. */
  lemma {:induction false} SentRefines<S>(enc: Encoder, b: ByteWorld<S>, w: World<S>)
    requires b.toGuest == IDLE && b.toHost == IDLE && Short(enc, w)
    ensures Sent(enc, b, Some(w)).Some? && Refines(enc, Sent(enc, b, Some(w)).value, w)
  {
    SentCarries(enc, b.toGuest, w.toGuest);
    SentCarries(enc, b.toHost, w.toHost);
  }

  /** Everything in flight is what the mover consumes. */
  lemma {:induction false} OneInFlight<S>(cfg: Setup<S>, w: World<S>, v: Verdict<S>, fuel: nat, clock: nat)
    requires OnTrack(cfg, w, v, fuel, clock)
    ensures |w.toGuest| <= 1 && |w.toHost| <= 1 && (w.toGuest == [] || w.toHost == [])
    ensures w.host.Serving? && w.toGuest != [] ==> w.guest.AwaitCode? || w.guest.AwaitReply?
    ensures !w.host.Serving? ==> w.toGuest == [] && (w.host.Sending? ==> w.toHost == [])
    ensures w.toHost != [] ==> w.host.Serving? && (w.guest.AwaitReply? || w.guest.Reported?)
    ensures w.guest.Live? || w.guest.Gone? ==> w.toGuest == [] && w.toHost == []
  {
  }

  lemma {:induction false} HostRefines<S>(
    cfg: Setup<S>, enc: Encoder, dec: Decoder, b: ByteWorld<S>, w: World<S>, v: Verdict<S>, fuel: nat, clock: nat)
    requires Inverse(enc, dec) && OnTrack(cfg, w, v, fuel, clock) && Refines(enc, b, w)
    requires HostStep(cfg, w).Some? ==> Short(enc, HostStep(cfg, w).value)
    ensures HostMoves(cfg, enc, dec, b).Some? ==>
              HostStep(cfg, w).Some? && Refines(enc, HostMoves(cfg, enc, dec, b).value, HostStep(cfg, w).value)
    ensures HostStep(cfg, w).Some? ==> HostMoves(cfg, enc, dec, b).Some? || b.toHost.wire != []
  {
    OneInFlight(cfg, w, v, fuel, clock);
    CarriesNothing(enc, b.toGuest);
    CarriesNothing(enc, b.toHost);
    TakeOne(enc, b.toHost, w.toHost);
    if w.toGuest == [] {
      if HostStep(cfg, w).Some? {
        if w.toHost == [] {
          assert Seen(b, [], []) == w;
          SentRefines(enc, b, HostStep(cfg, w).value);
        } else if b.toHost.wire == [] {
          assert Seen(b, [], [w.toHost[0]]) == w;
          SentRefines(enc, b.(toHost := IDLE), HostStep(cfg, w).value);
        }
      } else if w.toHost == [] {
        assert Seen(b, [], []) == w;
      }
    }
  }

  lemma {:induction false} GuestRefines<S>(
    cfg: Setup<S>, enc: Encoder, dec: Decoder, b: ByteWorld<S>, w: World<S>, v: Verdict<S>, fuel: nat, clock: nat)
    requires Inverse(enc, dec) && OnTrack(cfg, w, v, fuel, clock) && Refines(enc, b, w)
    requires GuestStep(cfg, w).Some? ==> Short(enc, GuestStep(cfg, w).value)
    ensures GuestMoves(cfg, enc, dec, b).Some? ==>
              GuestStep(cfg, w).Some? && Refines(enc, GuestMoves(cfg, enc, dec, b).value, GuestStep(cfg, w).value)
    ensures GuestStep(cfg, w).Some? ==> GuestMoves(cfg, enc, dec, b).Some? || b.toGuest.wire != []
  {
    OneInFlight(cfg, w, v, fuel, clock);
    CarriesNothing(enc, b.toGuest);
    CarriesNothing(enc, b.toHost);
    TakeOne(enc, b.toGuest, w.toGuest);
    if w.guest.Live? {
      assert Seen(b, [], []) == w;
      SentRefines(enc, b, GuestStep(cfg, w).value);
    } else if w.toGuest != [] && b.toGuest.wire == [] {
      assert Seen(b, [w.toGuest[0]], []) == w;
      if GuestStep(cfg, w).Some? {
        SentRefines(enc, b.(toGuest := IDLE), GuestStep(cfg, w).value);
      }
    }
  }

  lemma {:induction false} DeliveryKeeps(enc: Encoder, ch: Channel, n: nat, msgs: seq<Msg>)
    requires Carries(enc, ch, msgs) && Delivered(ch, n).Some?
    ensures Carries(enc, Delivered(ch, n).value, msgs) && |Delivered(ch, n).value.wire| < |ch.wire|
  {
    assert ch.arrived + ch.wire[..n] + ch.wire[n..] == ch.arrived + ch.wire;
  }

  /** No message of the conversation is too long to frame. */
  ghost predicate NothingTooLong<S>(cfg: Setup<S>, enc: Encoder, w: World<S>) {
    forall schedule :: RunSchedule(cfg, w, schedule).Some? ==> Short(enc, RunSchedule(cfg, w, schedule).value)
  }

  lemma {:induction false} NothingTooLongLater<S>(cfg: Setup<S>, enc: Encoder, w: World<S>, p: Party)
    requires NothingTooLong(cfg, enc, w) && PartyStep(cfg, w, p).Some?
    ensures NothingTooLong(cfg, enc, PartyStep(cfg, w, p).value) && Short(enc, PartyStep(cfg, w, p).value)
  {
    var next := PartyStep(cfg, w, p).value;
    forall schedule | RunSchedule(cfg, next, schedule).Some?
      ensures Short(enc, RunSchedule(cfg, next, schedule).value)
    {
      assert ([p] + schedule)[1..] == schedule;
      assert RunSchedule(cfg, w, [p] + schedule) == RunSchedule(cfg, next, schedule);
    }
    assert RunSchedule(cfg, next, []) == Some(next);
  }

  /** The bytes refine a world of messages that is on its way to `v`. */
  ghost predicate Follows<S>(
    cfg: Setup<S>, enc: Encoder, dec: Decoder, b: ByteWorld<S>, w: World<S>, v: Verdict<S>, fuel: nat, clock: nat)
  {
    Inverse(enc, dec) && OnTrack(cfg, w, v, fuel, clock) && Refines(enc, b, w) && NothingTooLong(cfg, enc, w)
  }

  lemma {:induction false} PartyMoveRefines<S>(
    cfg: Setup<S>, enc: Encoder, dec: Decoder, b: ByteWorld<S>, p: Party,
    w: World<S>, v: Verdict<S>, fuel: nat, clock: nat)
    returns (next: World<S>)
    requires Follows(cfg, enc, dec, b, w, v, fuel, clock) && ByteStep(cfg, enc, dec, b, Moves(p)).Some?
    ensures PartyStep(cfg, w, p) == Some(next)
    ensures Follows(cfg, enc, dec, ByteStep(cfg, enc, dec, b, Moves(p)).value, next, v, fuel, clock + 1)
  {
    if PartyStep(cfg, w, p).Some? {
      NothingTooLongLater(cfg, enc, w, p);
    }
    if p == TheHost {
      HostRefines(cfg, enc, dec, b, w, v, fuel, clock);
      HostStaysOnTrack(cfg, w, v, fuel, clock);
    } else {
      GuestRefines(cfg, enc, dec, b, w, v, fuel, clock);
      if w.guest.Live? {
        RunningStaysOnTrack(cfg, w, v, fuel, clock);
      } else {
        WaitingStaysOnTrack(cfg, w, v, fuel, clock);
      }
    }
    next := PartyStep(cfg, w, p).value;
  }

  /** A delivery is no move of the messages. */
  lemma {:induction false} DeliveryRefines<S>(
    cfg: Setup<S>, enc: Encoder, dec: Decoder, b: ByteWorld<S>, to: Party, n: nat,
    w: World<S>, v: Verdict<S>, fuel: nat, clock: nat)
    requires Follows(cfg, enc, dec, b, w, v, fuel, clock) && ByteStep(cfg, enc, dec, b, Delivers(to, n)).Some?
    ensures Follows(cfg, enc, dec, ByteStep(cfg, enc, dec, b, Delivers(to, n)).value, w, v, fuel, clock)
  {
    if to == TheHost {
      DeliveryKeeps(enc, b.toHost, n, w.toHost);
    } else {
      DeliveryKeeps(enc, b.toGuest, n, w.toGuest);
    }
  }

  /** One move of the bytes is the same move of the messages, or a delivery that they do not see. */
  lemma {:induction false} MoveRefines<S>(
    cfg: Setup<S>, enc: Encoder, dec: Decoder, b: ByteWorld<S>, move: Move,
    w: World<S>, v: Verdict<S>, fuel: nat, clock: nat)
    returns (next: World<S>)
    requires Follows(cfg, enc, dec, b, w, v, fuel, clock)
    requires ByteStep(cfg, enc, dec, b, move).Some?
    ensures if move.Moves? then PartyStep(cfg, w, move.party) == Some(next) else next == w
    ensures Follows(cfg, enc, dec, ByteStep(cfg, enc, dec, b, move).value, next, v, fuel,
                    clock + if move.Moves? then 1 else 0)
  {
    match move {
      case Delivers(to, n) => DeliveryRefines(cfg, enc, dec, b, to, n, w, v, fuel, clock); next := w;
      case Moves(p) => next := PartyMoveRefines(cfg, enc, dec, b, p, w, v, fuel, clock);
    }
  }

  lemma {:induction false} FirstMove<S>(
    cfg: Setup<S>, enc: Encoder, dec: Decoder, b: ByteWorld<S>, moves: seq<Move>, v: Verdict<S>, fuel: nat, clock: nat)
    returns (b': ByteWorld<S>, clock': nat)
    requires exists w :: Follows(cfg, enc, dec, b, w, v, fuel, clock)
    requires moves != [] && RunBytes(cfg, enc, dec, b, moves).Some?
    ensures exists w :: Follows(cfg, enc, dec, b', w, v, fuel, clock')
    ensures RunBytes(cfg, enc, dec, b', moves[1..]) == RunBytes(cfg, enc, dec, b, moves)
    ensures clock' + |Schedule(moves[1..])| == clock + |Schedule(moves)|
  {
    var w :| Follows(cfg, enc, dec, b, w, v, fuel, clock);
    var _ := MoveRefines(cfg, enc, dec, b, moves[0], w, v, fuel, clock);
    b', clock' := ByteStep(cfg, enc, dec, b, moves[0]).value, clock + if moves[0].Moves? then 1 else 0;
  }

  /** `last` is the clock when all moves have been made. */
  lemma {:induction false} RunRefines<S>(
    cfg: Setup<S>, enc: Encoder, dec: Decoder, b: ByteWorld<S>, moves: seq<Move>, end: ByteWorld<S>,
    v: Verdict<S>, fuel: nat, clock: nat, last: nat)
    requires exists w :: Follows(cfg, enc, dec, b, w, v, fuel, clock)
    requires RunBytes(cfg, enc, dec, b, moves) == Some(end)
    requires last == clock + |Schedule(moves)|
    ensures exists w :: Follows(cfg, enc, dec, end, w, v, fuel, last)
    decreases |moves|
  {
    if moves != [] {
      var b', clock' := FirstMove(cfg, enc, dec, b, moves, v, fuel, clock);
      RunRefines(cfg, enc, dec, b', moves[1..], end, v, fuel, clock', last);
    }
  }

  /** For every code and stateful callback on which direct evaluation ends, and every way the
      frames of the conversation are cut and delayed, the parties make a bounded number of moves,
      something can always move or arrive until the host has its answer, and then the answer and
      the callback state are those of direct evaluation. */
  lemma {:induction false} BytesAreDirect<S>(
    cfg: Setup<S>, enc: Encoder, dec: Decoder, store: S, fuel: nat, moves: seq<Move>)
    requires cfg.wire == Vsock && Inverse(enc, dec) && NothingTooLong(cfg, enc, Start(cfg, store))
    requires Evaluate(cfg, store, fuel).Some?
    requires RunBytes(cfg, enc, dec, StartBytes(store), moves).Some?
    ensures var v := Evaluate(cfg, store, fuel).value;
            var b := RunBytes(cfg, enc, dec, StartBytes(store), moves).value;
            && |Schedule(moves)| <= 2 * v.calls + v.made + 4
            && (b.host.Ended? ==> b.host.answer == Expected(cfg, v) && b.store == v.store)
            && (!b.host.Ended? ==> HostMoves(cfg, enc, dec, b).Some? || GuestMoves(cfg, enc, dec, b).Some?
                                   || b.toHost.wire != [] || b.toGuest.wire != [])
  {
    var v := Evaluate(cfg, store, fuel).value;
    var b := RunBytes(cfg, enc, dec, StartBytes(store), moves).value;
    CarriesNothing(enc, IDLE);
    var clock := |Schedule(moves)|;
    assert Follows(cfg, enc, dec, StartBytes(store), Start(cfg, store), v, fuel, 0);
    RunRefines(cfg, enc, dec, StartBytes(store), moves, b, v, fuel, 0, clock);
    var w :| Follows(cfg, enc, dec, b, w, v, fuel, clock);
    ClockBound(cfg, w, v, fuel, clock);
    OneCanMove(cfg, w, v, fuel, clock);
    if HostStep(cfg, w).Some? {
      NothingTooLongLater(cfg, enc, w, TheHost);
      HostRefines(cfg, enc, dec, b, w, v, fuel, clock);
    } else if GuestStep(cfg, w).Some? {
      NothingTooLongLater(cfg, enc, w, TheGuest);
      GuestRefines(cfg, enc, dec, b, w, v, fuel, clock);
    }
  }

  // ---- The loops of host and guest -------------------------------------------------------------------

  function DecodeAll(dec: Decoder, bodies: seq<seq<Byte>>): seq<Option<Msg>>
  {
    if bodies == [] then [] else [dec(bodies[0])] + DecodeAll(dec, bodies[1..])
  }

  /** What one message makes the host do: end with an answer, or reply and go on. */
  datatype Response<S> = Stop(answer: Answer, store: S) | Go(reply: Reply, store: S)

  function Respond<S>(cfg: Setup<S>, message: Option<Msg>, calls: nat, store: S): Response<S> {
    match message
    case None => Stop(Propagated(HostError.OtherError([])), store)
    case Some(ToolCall(tool, params)) =>
      (match cfg.cb(store, tool, params)
       case Failed(e, next) => Stop(AfterCallbackError(cfg, e), next)
       case Replied(r, next) => Go(r, next))
    case Some(Report(success, error, stdout, _)) =>
      Stop(Result(success, error, CaptureText(stdout, cfg.max), calls), store)
    case Some(_) => Stop(Crashed, store)
  }

  datatype Served<S> = Served(answer: Answer, replies: seq<Msg>, store: S)

  /** What is served in all, when `replies` are sent first. */
  function Onward<S>(replies: seq<Msg>, later: Served<S>): Served<S> {
    later.(replies := replies + later.replies)
  }

  /** What the host makes of the messages it receives, the end of the stream after them: its
      answer, what it sends back, and the callback's final state. */
  function Serve<S>(cfg: Setup<S>, received: seq<Option<Msg>>, calls: nat, store: S): Served<S>
    decreases |received|
  {
    if received == [] then Served(Crashed, [], store)
    else
      match Respond(cfg, received[0], calls, store)
      case Stop(answer, next) => Served(answer, [], next)
      case Go(r, next) => Onward([ToolResult(r)], Serve(cfg, received[1..], calls + 1, next))
  }

  /** The reply in a received message, if it is one. Anything else raises into the code. */
  function ReplyIn(received: Option<Msg>): Option<Reply> {
    if received.Some? && received.value.ToolResult? then Some(received.value.reply) else None
  }

  function BackOf(reply: Option<Reply>): Back {
    match reply
    case None => CallRaised
    case Some(r) => Got(r)
  }

  function Replies(received: seq<Option<Msg>>): seq<Option<Reply>> {
    if received == [] then [] else [ReplyIn(received[0])] + Replies(received[1..])
  }

  /** What the guest sends when these replies reach it, one after the other, and the connection is
      lost after them; `None` when it makes more than `fuel` further calls. Once a receive finds
      the connection lost, nothing that the code goes on to do is sent. */
  function Speak(code: Code, history: seq<Back>, out: Text, replies: seq<Option<Reply>>, fuel: nat): Option<seq<Msg>>
    decreases fuel
  {
    var m := code(history);
    match m.act
    case Return => Some([Report(true, None, out + m.out, |history|)])
    case Raise(e) => Some([Report(false, Some(e), out + m.out, |history|)])
    case Abort => Some([])
    case BadCall => if fuel == 0 then None else Speak(code, history + [CallRaised], out + m.out, replies, fuel - 1)
    case Call(tool, params) =>
      if replies == [] then Some([ToolCall(tool, params)])
      else if fuel == 0 then None
      else
        match Speak(code, history + [BackOf(replies[0])], out + m.out, replies[1..], fuel - 1)
        case None => None
        case Some(later) => Some([ToolCall(tool, params)] + later)
  }

  /** Receiving one body takes one message off the front. */
  lemma {:induction false} OneHeard(dec: Decoder, before: seq<Byte>, body: Option<seq<Byte>>, after: seq<Byte>)
    requires match Take(before) case None => body == None case Some((b, rest)) => body == Some(b) && after == rest
    ensures DecodeAll(dec, Messages(before))
         == if body == None then [] else [dec(body.value)] + DecodeAll(dec, Messages(after))
  {
    if body != None {
      assert Messages(before) == [body.value] + Messages(after);
      assert ([body.value] + Messages(after))[1..] == Messages(after);
    }
  }

  lemma {:induction false} OnwardTwice<S>(first: seq<Msg>, second: seq<Msg>, later: Served<S>)
    ensures Onward(first, Onward(second, later)) == Onward(first + second, later)
  {
    assert first + (second + later.replies) == first + second + later.replies;
  }

  /** The host's reaction to one message. */
  method ServeOne<S>(
    cb: Callback<S>, message: Option<Msg>, bounded: bool, max: nat, toolCallCount: nat, store: S, ghost cfg: Setup<S>)
    returns (response: Response<S>)
    requires cfg.wire == Vsock && cfg.cb == cb && cfg.bounded == bounded && cfg.max == max
    ensures response == Respond(cfg, message, toolCallCount, store)
  {
    match message {
      case None => return Stop(Propagated(HostError.OtherError([])), store);
      case Some(ToolCall(tool, params)) =>
        match cb(store, tool, params) {
          case Failed(e, next) =>
            if bounded && e == TimeoutRaised { return Stop(ToolCallTimedOut, next); }
            match e {
              case TimeoutRaised => return Stop(TimedOut, next);
              case ConnectionLost => return Stop(Crashed, next);
              case OtherError(_) => return Stop(Propagated(e), next);
            }
          case Replied(r, next) => return Go(r, next);
        }
      case Some(Report(success, error, stdout, _)) =>
        return Stop(Result(success, error, CaptureText(stdout, max), toolCallCount), store);
      case Some(_) => return Stop(Crashed, store);
    }
  }

  /** `execute`: the host reads the guest's frames off the socket, one pass per message. `sent`
      are the messages it wrote, the code first. */
  method Execute<S>(
    socket: Socket, cb: Callback<S>, dec: Decoder, bounded: bool, max: nat, store: S, ghost cfg: Setup<S>)
    returns (answer: Answer, sent: seq<Msg>, final: S)
    requires socket.Valid()
    requires cfg.wire == Vsock && cfg.cb == cb && cfg.bounded == bounded && cfg.max == max
    modifies socket
    ensures var served := Serve(cfg, DecodeAll(dec, Messages(old(socket.Stream()))), 0, store);
            Served(answer, sent, final) == Onward([CodeMsg], served)
  {
    sent, final := [CodeMsg], store;
    var toolCallCount := 0;
    ghost var pending := DecodeAll(dec, Messages(socket.Stream()));
    ghost var all := Onward([CodeMsg], Serve(cfg, pending, 0, store));
    while true
      invariant socket.Valid() && pending == DecodeAll(dec, Messages(socket.Stream()))
      invariant all == Onward(sent, Serve(cfg, pending, toolCallCount, final))
      decreases |socket.Stream()|
    {
      ghost var before, unread := socket.Stream(), pending;
      var body := socket.Receive();
      OneHeard(dec, before, body, socket.Stream());
      if body == None {
        return Crashed, sent, final;
      }
      pending := DecodeAll(dec, Messages(socket.Stream()));
      assert unread[0] == dec(body.value) && unread[1..] == pending;
      var response := ServeOne(cb, dec(body.value), bounded, max, toolCallCount, final, cfg);
      match response {
        case Stop(last, next) => return last, sent, next;
        case Go(reply, next) =>
          OnwardTwice(sent, [ToolResult(reply)], Serve(cfg, pending, toolCallCount + 1, next));
          sent, toolCallCount, final := sent + [ToolResult(reply)], toolCallCount + 1, next;
      }
    }
  }

  /** What is said in all, when `sent` was said before. */
  function Onto(sent: seq<Msg>, later: Option<seq<Msg>>): (all: Option<seq<Msg>>)
    ensures sent == [] ==> all == later
    ensures later == Some([]) ==> all == Some(sent)
  {
    match later
    case None => None
    case Some(msgs) =>
      assert sent == [] ==> sent + msgs == msgs;
      assert msgs == [] ==> sent + msgs == sent;
      Some(sent + msgs)
  }

  /** A tool call is sent, and what follows depends on whether a reply comes. */
  lemma {:induction false} SpeakCall(
    code: Code, history: seq<Back>, out: Text, replies: seq<Option<Reply>>, fuel: nat, sent: seq<Msg>)
    requires code(history).act.Call? && Speak(code, history, out, replies, fuel).Some?
    ensures replies != [] ==> fuel > 0
    ensures var m := code(history);
            Onto(sent, Speak(code, history, out, replies, fuel))
            == Onto(sent + [ToolCall(m.act.tool, m.act.params)],
                    if replies == [] then Some([])
                    else Speak(code, history + [BackOf(replies[0])], out + m.out, replies[1..], fuel - 1))
  {
    var m := code(history);
    var call := [ToolCall(m.act.tool, m.act.params)];
    if replies != [] {
      var later := Speak(code, history + [BackOf(replies[0])], out + m.out, replies[1..], fuel - 1).value;
      assert sent + (call + later) == sent + call + later;
    }
  }

  /** The replies to come, after one body was received, or none was. */
  lemma {:induction false} OneReply(dec: Decoder, before: seq<Byte>, body: Option<seq<Byte>>, after: seq<Byte>)
    requires match Take(before) case None => body == None case Some((b, rest)) => body == Some(b) && after == rest
    ensures Replies(DecodeAll(dec, Messages(before)))
         == match body
            case None => []
            case Some(b) => [ReplyIn(dec(b))] + Replies(DecodeAll(dec, Messages(after)))
  {
    OneHeard(dec, before, body, after);
    if body != None {
      var later := DecodeAll(dec, Messages(after));
      assert ([dec(body.value)] + later)[1..] == later;
    }
  }

  /** The guest's `main`, once it has the code: run it, asking the host for every tool call. */
  method GuestMain(socket: Socket, code: Code, dec: Decoder, ghost fuel: nat) returns (sent: seq<Msg>)
    requires socket.Valid()
    requires Speak(code, [], [], Replies(DecodeAll(dec, Messages(socket.Stream()))), fuel).Some?
    modifies socket
    ensures Some(sent) == Speak(code, [], [], Replies(DecodeAll(dec, Messages(old(socket.Stream())))), fuel)
  {
    sent := [];
    var history: seq<Back>, stdout: Text, toolCallCount := [], [], 0;
    ghost var pending := Replies(DecodeAll(dec, Messages(socket.Stream())));
    ghost var all, left := Speak(code, [], [], pending, fuel), fuel;
    while true
      invariant socket.Valid() && toolCallCount == |history|
      invariant pending == Replies(DecodeAll(dec, Messages(socket.Stream())))
      invariant all.Some? && all == Onto(sent, Speak(code, history, stdout, pending, left))
      decreases left
    {
      var m := code(history);
      match m.act {
        case Return => return sent + [Report(true, None, stdout + m.out, toolCallCount)];
        case Raise(e) => return sent + [Report(false, Some(e), stdout + m.out, toolCallCount)];
        case Abort => return sent;
        case BadCall =>
          toolCallCount := toolCallCount + 1;
          history, stdout := history + [CallRaised], stdout + m.out;
          left := left - 1;
        case Call(tool, params) =>
          toolCallCount := toolCallCount + 1;
          SpeakCall(code, history, stdout, pending, left, sent);
          ghost var before, unread := socket.Stream(), pending;
          sent := sent + [ToolCall(tool, params)];
          var body := socket.Receive();
          OneReply(dec, before, body, socket.Stream());
          if body == None {
            return;
          }
          var response := ReplyIn(dec(body.value));
          pending := Replies(DecodeAll(dec, Messages(socket.Stream())));
          assert unread[0] == response && unread[1..] == pending;
          history, stdout := history + [BackOf(response)], stdout + m.out;
          left := left - 1;
      }
    }
  }

  // ---- Together they evaluate the code -----------------------------------------------------------------

  /** The replies that direct evaluation gives the code. */
  function Given<S>(code: Code, cb: Callback<S>, store: S, history: seq<Back>, fuel: nat): seq<Reply>
    decreases fuel
  {
    var m := code(history);
    match m.act
    case BadCall => if fuel == 0 then [] else Given(code, cb, store, history + [CallRaised], fuel - 1)
    case Call(tool, params) =>
      (match cb(store, tool, params)
       case Failed(_, _) => []
       case Replied(r, next) => [r] + if fuel == 0 then [] else Given(code, cb, next, history + [Got(r)], fuel - 1))
    case _ => []
  }

  function Heard(msgs: seq<Msg>): (hs: seq<Option<Msg>>)
    ensures |hs| == |msgs| && forall i :: 0 <= i < |msgs| ==> hs[i] == Some(msgs[i])
  {
    seq(|msgs|, i requires 0 <= i < |msgs| => Some(msgs[i]))
  }

  function AsResults(replies: seq<Reply>): (ms: seq<Msg>)
    ensures |ms| == |replies| && forall i :: 0 <= i < |replies| ==> ms[i] == ToolResult(replies[i])
  {
    seq(|replies|, i requires 0 <= i < |replies| => ToolResult(replies[i]))
  }

  lemma {:induction false} ServeFirst<S>(cfg: Setup<S>, first: Msg, later: seq<Msg>, calls: nat, store: S)
    ensures Serve(cfg, Heard([first] + later), calls, store)
         == match Respond(cfg, Some(first), calls, store)
            case Stop(answer, next) => Served(answer, [], next)
            case Go(r, next) => Onward([ToolResult(r)], Serve(cfg, Heard(later), calls + 1, next))
  {
    assert Heard([first] + later)[1..] == Heard(later);
  }

  function Arriving(replies: seq<Reply>): (rs: seq<Option<Reply>>)
    ensures |rs| == |replies| && forall i :: 0 <= i < |replies| ==> rs[i] == Some(replies[i])
  {
    seq(|replies|, i requires 0 <= i < |replies| => Some(replies[i]))
  }

  lemma {:induction false} SpeakFirst(
    code: Code, history: seq<Back>, out: Text, r: Reply, rest: seq<Reply>, fuel: nat)
    requires code(history).act.Call? && fuel > 0
    ensures var m := code(history);
            Speak(code, history, out, Arriving([r] + rest), fuel)
            == Onto([ToolCall(m.act.tool, m.act.params)],
                    Speak(code, history + [Got(r)], out + m.out, Arriving(rest), fuel - 1))
  {
    assert Arriving([r] + rest)[1..] == Arriving(rest);
  }

  /** A tool call that is answered adds its reply in front of those that follow. */
  lemma {:induction false} ServeCall<S>(
    cfg: Setup<S>, tool: Text, params: Text, later: seq<Msg>, rest: seq<Reply>, calls: nat, store: S)
    requires cfg.cb(store, tool, params).Replied?
    requires Serve(cfg, Heard(later), calls + 1, cfg.cb(store, tool, params).next).replies == AsResults(rest)
    ensures var s := cfg.cb(store, tool, params);
            var after := Serve(cfg, Heard(later), calls + 1, s.next);
            Serve(cfg, Heard([ToolCall(tool, params)] + later), calls, store)
            == Served(after.answer, AsResults([s.reply] + rest), after.store)
  {
    ServeFirst(cfg, ToolCall(tool, params), later, calls, store);
    var r := cfg.cb(store, tool, params).reply;
    assert AsResults([r] + rest) == [ToolResult(r)] + AsResults(rest);
  }

  /** A host that hears what the guest says when given those replies gives exactly those replies,
      and ends with direct evaluation's answer and callback state. */
  lemma {:induction false} ServeIsDirect<S>(
    cfg: Setup<S>, store: S, history: seq<Back>, calls: nat, out: Text, err: Text, fuel: nat)
    requires cfg.wire == Vsock && Direct(cfg.code, cfg.cb, store, history, calls, out, err, fuel).Some?
    ensures var v := Direct(cfg.code, cfg.cb, store, history, calls, out, err, fuel).value;
            var replies := Given(cfg.code, cfg.cb, store, history, fuel);
            var said := Speak(cfg.code, history, out, Arriving(replies), fuel);
            && said.Some?
            && Serve(cfg, Heard(said.value), calls, store) == Served(Expected(cfg, v), AsResults(replies), v.store)
    decreases fuel
  {
    var m := cfg.code(history);
    match m.act {
      case Abort =>
      case Return => ServeFirst(cfg, Report(true, None, out + m.out, |history|), [], calls, store);
      case Raise(e) => ServeFirst(cfg, Report(false, Some(e), out + m.out, |history|), [], calls, store);
      case BadCall =>
        ServeIsDirect(cfg, store, history + [CallRaised], calls, out + m.out, err + m.err, fuel - 1);
      case Call(tool, params) =>
        match cfg.cb(store, tool, params) {
          case Failed(_, _) => ServeFirst(cfg, ToolCall(tool, params), [], calls, store);
          case Replied(r, next) =>
            ServeIsDirect(cfg, next, history + [Got(r)], calls + 1, out + m.out, err + m.err, fuel - 1);
            var rest := Given(cfg.code, cfg.cb, next, history + [Got(r)], fuel - 1);
            SpeakFirst(cfg.code, history, out, r, rest, fuel);
            var later := Speak(cfg.code, history + [Got(r)], out + m.out, Arriving(rest), fuel - 1).value;
            ServeCall(cfg, tool, params, later, rest, calls, store);
        }
    }
  }

  lemma {:induction false} DecodeBodies(enc: Encoder, dec: Decoder, msgs: seq<Msg>)
    requires Inverse(enc, dec)
    ensures DecodeAll(dec, Bodies(enc, msgs)) == Heard(msgs)
  {
    if msgs != [] {
      DecodeBodies(enc, dec, msgs[1..]);
      assert Bodies(enc, msgs)[1..] == Bodies(enc, msgs[1..]);
      assert Heard(msgs) == [Some(msgs[0])] + Heard(msgs[1..]);
    }
  }

  lemma {:induction false} RepliesHeard(replies: seq<Reply>)
    ensures Replies(Heard(AsResults(replies))) == Arriving(replies)
  {
    if replies != [] {
      RepliesHeard(replies[1..]);
      assert Heard(AsResults(replies))[1..] == Heard(AsResults(replies[1..]));
      assert Arriving(replies) == [Some(replies[0])] + Arriving(replies[1..]);
    }
  }

  /** Both loops at work on one conversation, each reading the other's frames in arbitrary pieces:
      the guest says what the host hears, the host sends what the guest reads, and the answer and
      the callback state are those of direct evaluation. */
  method Converse<S>(
    cfg: Setup<S>, enc: Encoder, dec: Decoder, store: S, fuel: nat, toHost: seq<seq<Byte>>, toGuest: seq<seq<Byte>>)
    returns (answer: Answer, final: S, fromHost: seq<Msg>, fromGuest: seq<Msg>)
    requires cfg.wire == Vsock && Inverse(enc, dec) && Evaluate(cfg, store, fuel).Some?
    requires forall c :: c in toHost + toGuest ==> c != []
    requires var replies := Given(cfg.code, cfg.cb, store, [], fuel);
             var said := Speak(cfg.code, [], [], Arriving(replies), fuel);
             && said.Some? && Fits(enc, said.value) && Flatten(toHost) == Written(enc, said.value)
             && Fits(enc, AsResults(replies)) && Flatten(toGuest) == Written(enc, AsResults(replies))
    ensures var v := Evaluate(cfg, store, fuel).value;
            answer == Expected(cfg, v) && final == v.store
    ensures var replies := Given(cfg.code, cfg.cb, store, [], fuel);
            && Some(fromGuest) == Speak(cfg.code, [], [], Arriving(replies), fuel)
            && fromHost == [CodeMsg] + AsResults(replies)
  {
    ghost var replies := Given(cfg.code, cfg.cb, store, [], fuel);
    ghost var said := Speak(cfg.code, [], [], Arriving(replies), fuel).value;
    MessagesOfFrames(Bodies(enc, said));
    DecodeBodies(enc, dec, said);
    MessagesOfFrames(Bodies(enc, AsResults(replies)));
    DecodeBodies(enc, dec, AsResults(replies));
    RepliesHeard(replies);
    ServeIsDirect(cfg, store, [], 0, [], [], fuel);
    assert forall c :: c in toHost ==> c in toHost + toGuest;
    assert forall c :: c in toGuest ==> c in toHost + toGuest;
    var hostEnd := new Socket(toHost);
    answer, fromHost, final := Execute(hostEnd, cfg.cb, dec, cfg.bounded, cfg.max, store, cfg);
    var guestEnd := new Socket(toGuest);
    fromGuest := GuestMain(guestEnd, cfg.code, dec, fuel);
  }
}
