/** Running code in a sandbox while it calls back into the host. Two transports: the vsock
    connection of Tier 2 and the request/reply socket plus result trailer of Tiers 0 and 1.
    Host and guest are two machines that share only the messages in flight; what they compute
    together is compared with running the code directly against the callback. */
module ExecProtocol {
  import opened Wrappers
  import opened Utf8
  import opened Trailer

  datatype Reply = Reply(success: bool, value: Text, error: Option<Text>)

  /** `BadCall` is a call whose params cannot be serialized: the shim counts it, and it raises
      into the code before anything is sent. `Abort` is any end that does not come back through
      the shim's `except Exception`. */
  datatype Act = Call(tool: Text, params: Text) | BadCall | Return | Raise(error: Text) | Abort

  /** What the code does next: some output on stdout and stderr, then one act. */
  datatype Move = Move(out: Text, err: Text, act: Act)

  /** What a call gives back to the code. */
  datatype Back = Got(reply: Reply) | CallRaised

  /** User code, as the tree of its interactions: its next move after each history of calls. */
  type Code = seq<Back> -> Move

  datatype HostError = TimeoutRaised | ConnectionLost | OtherError(what: Text)

  datatype Served<S> = Replied(reply: Reply, next: S) | Failed(cause: HostError, next: S)

  /** `on_tool_call`, passing the host's own state along. */
  type Callback<!S> = (S, Text, Text) -> Served<S>

  // ---- Direct evaluation ------------------------------------------------------------------

  /** `calls` reached the callback; `made` were made by the code. */
  datatype Verdict<S> =
    | Completed(success: bool, error: Option<Text>, stdout: Text, stderr: Text, calls: nat, made: nat, store: S)
    | Died(stderr: Text, calls: nat, made: nat, store: S)
    | HostFailed(cause: HostError, calls: nat, made: nat, store: S)

  /** The code run in place of the host's own code, after the calls in `history`, `calls` of which
      reached the callback; `None` when it makes more than `fuel` further calls. */
  function Direct<S>(
    code: Code, cb: Callback<S>, store: S, history: seq<Back>, calls: nat, out: Text, err: Text, fuel: nat)
    : Option<Verdict<S>>
    decreases fuel
  {
    var m := code(history);
    match m.act
    case Return => Some(Completed(true, None, out + m.out, err + m.err, calls, |history|, store))
    case Raise(e) => Some(Completed(false, Some(e), out + m.out, err + m.err, calls, |history|, store))
    case Abort => Some(Died(err + m.err, calls, |history|, store))
    case BadCall =>
      if fuel == 0 then None
      else Direct(code, cb, store, history + [CallRaised], calls, out + m.out, err + m.err, fuel - 1)
    case Call(tool, params) =>
      match cb(store, tool, params)
      case Failed(e, next) => Some(HostFailed(e, calls + 1, |history| + 1, next))
      case Replied(r, next) =>
        if fuel == 0 then None
        else Direct(code, cb, next, history + [Got(r)], calls + 1, out + m.out, err + m.err, fuel - 1)
  }

  function Evaluate<S>(cfg: Setup<S>, store: S, fuel: nat): Option<Verdict<S>> {
    Direct(cfg.code, cfg.cb, store, [], 0, [], [], fuel)
  }

  // ---- The two machines -------------------------------------------------------------------

  datatype Wire = Vsock | RequestReply

  datatype Answer =
    | Result(success: bool, error: Option<Text>, captured: Captured, calls: nat)
    | Crashed
    | TimedOut
    | ToolCallTimedOut
    | Propagated(cause: HostError)

  /** `bounded`: a `tool_call_timeout` is set, so a `TimeoutError` out of the awaited callback,
      its own or the limit's, is reported as a tool-call timeout. */
  datatype Setup<!S> = Setup(
    wire: Wire, code: Code, cb: Callback<S>, bounded: bool,
    enc: Trailer -> Text, dec: Text -> Parsed, max: nat)

  datatype Msg =
    | CodeMsg
    | ToolCall(tool: Text, params: Text)
    | ToolResult(reply: Reply)
    | Report(success: bool, error: Option<Text>, stdout: Text, calls: nat)

  datatype Host = Sending | Serving(calls: nat) | Ended(answer: Answer)

  datatype Guest =
    | AwaitCode
    | Live(history: seq<Back>, out: Text, err: Text, calls: nat)
    | AwaitReply(history: seq<Back>, out: Text, err: Text, calls: nat)
    | Reported                               // result sent; sleeps until it is killed
    | Gone(stdout: Text, stderr: Text)       // dead: connection closed, pipes drained

  datatype World<S> = World(host: Host, guest: Guest, toGuest: seq<Msg>, toHost: seq<Msg>, store: S)

  function Start<S>(cfg: Setup<S>, store: S): World<S> {
    match cfg.wire
    case Vsock => World(Sending, AwaitCode, [], [], store)
    case RequestReply => World(Serving(0), Live([], [], [], 0), [], [], store)   // code came on stdin
  }

  /** How an exception out of the callback leaves the host. */
  function AfterCallbackError<S>(cfg: Setup<S>, e: HostError): Answer {
    if cfg.bounded && e == TimeoutRaised then ToolCallTimedOut
    else if cfg.wire == RequestReply then Propagated(e)
    else
      match e
      case TimeoutRaised => TimedOut
      case ConnectionLost => Crashed
      case OtherError(_) => Propagated(e)
  }

  /** The subprocess has exited: read the trailer off its stderr. */
  function FromPipes<S>(cfg: Setup<S>, stdout: Text, stderr: Text): Answer {
    match ParseTrailer(stderr, cfg.dec)
    case NoTrailer => Crashed
    case ParseRaises(what) => Propagated(OtherError(what))
    case Found(t) => Result(t.success, t.error, CaptureBytes(Encode(stdout), cfg.max), t.calls)
  }

  /** `None` when the host has nothing to do until the guest moves. */
  function HostStep<S>(cfg: Setup<S>, w: World<S>): Option<World<S>> {
    match w.host
    case Sending => Some(w.(host := Serving(0), toGuest := w.toGuest + [CodeMsg]))
    case Serving(n) =>
      if w.toHost != [] then
        var rest := w.toHost[1..];
        match w.toHost[0]
        case ToolCall(tool, params) =>
          (match cfg.cb(w.store, tool, params)
           case Replied(r, next) =>
             Some(w.(host := Serving(n + 1), toHost := rest, toGuest := w.toGuest + [ToolResult(r)], store := next))
           case Failed(e, next) =>
             Some(w.(host := Ended(AfterCallbackError(cfg, e)), toHost := rest, store := next)))
        case Report(success, error, stdout, _) =>
          Some(w.(host := Ended(Result(success, error, CaptureText(stdout, cfg.max), n)), toHost := rest))
        case _ => Some(w.(host := Ended(Crashed), toHost := rest))
      else if w.guest.Gone? then
        Some(w.(host := Ended(if cfg.wire == Vsock then Crashed else FromPipes(cfg, w.guest.stdout, w.guest.stderr))))
      else None
    case Ended(_) => None
  }

  /** The end of the shim's `main`: report over the connection, or print and exit. */
  function Finish<S>(cfg: Setup<S>, w: World<S>, success: bool, error: Option<Text>, out: Text, err: Text, calls: nat)
    : World<S>
  {
    match cfg.wire
    case Vsock => w.(guest := Reported, toHost := w.toHost + [Report(success, error, out, calls)])
    case RequestReply =>
      w.(guest := Gone(out, err + PrintTrailer(Trailer(success, error, calls), cfg.enc)))
  }

  function GuestStep<S>(cfg: Setup<S>, w: World<S>): Option<World<S>> {
    match w.guest
    case AwaitCode =>
      if w.toGuest == [] then None
      else Some(w.(guest := Live([], [], [], 0), toGuest := w.toGuest[1..]))
    case Live(history, out, err, n) =>
      var m := cfg.code(history);
      (match m.act
       case Call(tool, params) =>
         Some(w.(guest := AwaitReply(history, out + m.out, err + m.err, n + 1),
                 toHost := w.toHost + [ToolCall(tool, params)]))
       case BadCall => Some(w.(guest := Live(history + [CallRaised], out + m.out, err + m.err, n + 1)))
       case Return => Some(Finish(cfg, w, true, None, out + m.out, err + m.err, n))
       case Raise(e) => Some(Finish(cfg, w, false, Some(e), out + m.out, err + m.err, n))
       case Abort => Some(w.(guest := Gone([], err + m.err))))   // buffered stdout is lost
    case AwaitReply(history, out, err, n) =>
      if w.toGuest != [] && w.toGuest[0].ToolResult? then
        Some(w.(guest := Live(history + [Got(w.toGuest[0].reply)], out, err, n), toGuest := w.toGuest[1..]))
      else None
    case Reported => None
    case Gone(_, _) => None
  }

  datatype Party = TheHost | TheGuest

  function PartyStep<S>(cfg: Setup<S>, w: World<S>, p: Party): Option<World<S>> {
    if p == TheHost then HostStep(cfg, w) else GuestStep(cfg, w)
  }

  /** The world after the parties moved in the order of `schedule`. */
  function RunSchedule<S>(cfg: Setup<S>, w: World<S>, schedule: seq<Party>): Option<World<S>>
    decreases |schedule|
  {
    if schedule == [] then Some(w)
    else
      match PartyStep(cfg, w, schedule[0])
      case None => None
      case Some(next) => RunSchedule(cfg, next, schedule[1..])
  }

  // ---- Remote execution is direct execution --------------------------------------------------

  /** What the host must answer, given what direct evaluation says. */
  function Expected<S>(cfg: Setup<S>, v: Verdict<S>): Answer {
    match v
    case Completed(success, error, stdout, stderr, calls, made, _) =>
      if cfg.wire == Vsock then Result(success, error, CaptureText(stdout, cfg.max), calls)
      else FromPipes(cfg, stdout, stderr + PrintTrailer(Trailer(success, error, made), cfg.enc))
    case Died(stderr, _, _, _) => if cfg.wire == Vsock then Crashed else FromPipes(cfg, [], stderr)
    case HostFailed(e, _, _, _) => AfterCallbackError(cfg, e)
  }

  function Handshake<S>(cfg: Setup<S>): nat { if cfg.wire == Vsock then 2 else 0 }

  /** The shapes the two machines pass through: at most one message in flight, the host's count
      the calls it served and the guest's the calls it made, and direct evaluation from here still
      leading to `v`. `clock` counts the steps. */
  ghost predicate OnTrack<S>(cfg: Setup<S>, w: World<S>, v: Verdict<S>, fuel: nat, clock: nat) {
    match (w.host, w.guest)
    case (Sending, AwaitCode) =>
      && cfg.wire == Vsock && w.toGuest == [] && w.toHost == [] && clock == 0
      && Evaluate(cfg, w.store, fuel) == Some(v)
    case (Serving(n), AwaitCode) =>
      && cfg.wire == Vsock && w.toGuest == [CodeMsg] && w.toHost == [] && clock == 1 && n == 0
      && Evaluate(cfg, w.store, fuel) == Some(v)
    case (Serving(n), Live(history, out, err, m)) =>
      && w.toGuest == [] && w.toHost == [] && n <= m == |history| <= fuel
      && clock == Handshake(cfg) + 2 * n + m
      && Direct(cfg.code, cfg.cb, w.store, history, n, out, err, fuel - m) == Some(v)
    case (Serving(n), AwaitReply(history, out, err, m)) =>
      if w.toGuest == [] then Asked(cfg, w, v, fuel, clock) else Answered(cfg, w, v, fuel, clock)
    case (Serving(n), Reported) =>
      && cfg.wire == Vsock && w.toGuest == [] && v.Completed?
      && w.toHost == [Report(v.success, v.error, v.stdout, v.made)]
      && n == v.calls && w.store == v.store && clock == Handshake(cfg) + 2 * n + v.made + 1
    case (Serving(n), Gone(stdout, stderr)) =>
      && w.toGuest == [] && w.toHost == [] && n == v.calls && w.store == v.store
      && clock == Handshake(cfg) + 2 * n + v.made + 1
      && (if v.Completed? then
            cfg.wire == RequestReply && stdout == v.stdout
            && stderr == v.stderr + PrintTrailer(Trailer(v.success, v.error, v.made), cfg.enc)
          else v.Died? && stdout == [] && stderr == v.stderr)
    case (Ended(answer), g) =>
      && (g.Reported? || g.Gone? || g.AwaitReply?) && w.toGuest == [] && w.toHost == []
      && answer == Expected(cfg, v) && w.store == v.store
      && clock <= Handshake(cfg) + 2 * v.calls + v.made + 2
    case _ => false
  }

  /** A tool call is on its way to the host. */
  ghost predicate Asked<S>(cfg: Setup<S>, w: World<S>, v: Verdict<S>, fuel: nat, clock: nat)
    requires w.host.Serving? && w.guest.AwaitReply?
  {
    var n, history, m := w.host.calls, w.guest.history, cfg.code(w.guest.history);
    && n <= |history| <= fuel && w.guest.calls == |history| + 1
    && clock == Handshake(cfg) + 2 * n + |history| + 1
    && m.act.Call? && w.toHost == [ToolCall(m.act.tool, m.act.params)]
    && match cfg.cb(w.store, m.act.tool, m.act.params)
       case Failed(e, next) => v == HostFailed(e, n + 1, |history| + 1, next)
       case Replied(r, next) =>
         |history| < fuel &&
         Direct(cfg.code, cfg.cb, next, history + [Got(r)], n + 1, w.guest.out, w.guest.err, fuel - |history| - 1)
         == Some(v)
  }

  /** A reply is on its way to the guest. */
  ghost predicate Answered<S>(cfg: Setup<S>, w: World<S>, v: Verdict<S>, fuel: nat, clock: nat)
    requires w.host.Serving? && w.guest.AwaitReply?
  {
    var n, history := w.host.calls, w.guest.history;
    && n <= |history| + 1 <= fuel && w.guest.calls == |history| + 1
    && clock == Handshake(cfg) + 2 * n + |history|
    && w.toHost == [] && |w.toGuest| == 1 && w.toGuest[0].ToolResult?
    && Direct(cfg.code, cfg.cb, w.store, history + [Got(w.toGuest[0].reply)], n, w.guest.out, w.guest.err,
              fuel - |history| - 1) == Some(v)
  }

  lemma {:induction false} HostStaysOnTrack<S>(cfg: Setup<S>, w: World<S>, v: Verdict<S>, fuel: nat, clock: nat)
    requires OnTrack(cfg, w, v, fuel, clock) && HostStep(cfg, w).Some?
    ensures OnTrack(cfg, HostStep(cfg, w).value, v, fuel, clock + 1)
  {
  }

  lemma {:induction false} RunningStaysOnTrack<S>(cfg: Setup<S>, w: World<S>, v: Verdict<S>, fuel: nat, clock: nat)
    requires OnTrack(cfg, w, v, fuel, clock) && w.guest.Live?
    ensures GuestStep(cfg, w).Some? && OnTrack(cfg, GuestStep(cfg, w).value, v, fuel, clock + 1)
  {
  }

  lemma {:induction false} WaitingStaysOnTrack<S>(cfg: Setup<S>, w: World<S>, v: Verdict<S>, fuel: nat, clock: nat)
    requires OnTrack(cfg, w, v, fuel, clock) && !w.guest.Live? && GuestStep(cfg, w).Some?
    ensures OnTrack(cfg, GuestStep(cfg, w).value, v, fuel, clock + 1)
  {
  }

  /** While the host has no answer, exactly one party can move; afterwards none can. */
  lemma {:induction false} OneCanMove<S>(cfg: Setup<S>, w: World<S>, v: Verdict<S>, fuel: nat, clock: nat)
    requires OnTrack(cfg, w, v, fuel, clock)
    ensures if w.host.Ended? then HostStep(cfg, w).None? && GuestStep(cfg, w).None?
            else HostStep(cfg, w).Some? <==> GuestStep(cfg, w).None?
  {
  }

  lemma {:induction false} FirstStep<S>(
    cfg: Setup<S>, w: World<S>, v: Verdict<S>, fuel: nat, clock: nat, schedule: seq<Party>, end: World<S>)
    returns (next: World<S>)
    requires OnTrack(cfg, w, v, fuel, clock) && schedule != [] && RunSchedule(cfg, w, schedule) == Some(end)
    ensures OnTrack(cfg, next, v, fuel, clock + 1) && RunSchedule(cfg, next, schedule[1..]) == Some(end)
  {
    next := PartyStep(cfg, w, schedule[0]).value;
    if schedule[0] == TheHost {
      HostStaysOnTrack(cfg, w, v, fuel, clock);
    } else if w.guest.Live? {
      RunningStaysOnTrack(cfg, w, v, fuel, clock);
    } else {
      WaitingStaysOnTrack(cfg, w, v, fuel, clock);
    }
  }

  /** `last` is the clock when the schedule has been followed. */
  lemma {:induction false} RunStaysOnTrack<S>(
    cfg: Setup<S>, w: World<S>, v: Verdict<S>, fuel: nat, clock: nat, schedule: seq<Party>, end: World<S>, last: nat)
    requires OnTrack(cfg, w, v, fuel, clock) && RunSchedule(cfg, w, schedule) == Some(end)
    requires last == clock + |schedule|
    ensures OnTrack(cfg, end, v, fuel, last)
    decreases |schedule|
  {
    if schedule != [] {
      var next := FirstStep(cfg, w, v, fuel, clock, schedule, end);
      RunStaysOnTrack(cfg, next, v, fuel, clock + 1, schedule[1..], end, last);
    }
  }

  /** How many calls of the code raise before anything is sent, from here on. */
  function Refused<S>(code: Code, cb: Callback<S>, store: S, history: seq<Back>, fuel: nat): nat
    decreases fuel
  {
    var m := code(history);
    if fuel == 0 then 0
    else
      match m.act
      case BadCall => 1 + Refused(code, cb, store, history + [CallRaised], fuel - 1)
      case Call(tool, params) =>
        (match cb(store, tool, params)
         case Failed(_, _) => 0
         case Replied(r, next) => Refused(code, cb, next, history + [Got(r)], fuel - 1))
      case _ => 0
  }

  /** Direct evaluation ends with at least the calls already made, and tells those that were made
      from those that reached the callback by the ones that were refused. */
  lemma {:induction false} DirectCounts<S>(
    code: Code, cb: Callback<S>, store: S, history: seq<Back>, calls: nat, out: Text, err: Text, fuel: nat)
    requires Direct(code, cb, store, history, calls, out, err, fuel).Some?
    ensures var v := Direct(code, cb, store, history, calls, out, err, fuel).value;
            && v.calls >= calls && v.made >= |history|
            && v.made - |history| == v.calls - calls + Refused(code, cb, store, history, fuel)
    decreases fuel
  {
    var m := code(history);
    if m.act.BadCall? {
      DirectCounts(code, cb, store, history + [CallRaised], calls, out + m.out, err + m.err, fuel - 1);
    } else if m.act.Call? && cb(store, m.act.tool, m.act.params).Replied? {
      var s := cb(store, m.act.tool, m.act.params);
      DirectCounts(code, cb, s.next, history + [Got(s.reply)], calls + 1, out + m.out, err + m.err, fuel - 1);
    }
  }

  /** For every code and stateful callback on which direct evaluation ends, every schedule of the
      two parties stays within a bound, never deadlocks, and ends with the answer and the
      callback state of direct evaluation. */
  lemma {:induction false} RemoteIsDirect<S>(
    cfg: Setup<S>, store: S, fuel: nat, v: Verdict<S>, schedule: seq<Party>, w: World<S>)
    requires Evaluate(cfg, store, fuel) == Some(v)
    requires RunSchedule(cfg, Start(cfg, store), schedule) == Some(w)
    ensures |schedule| <= Handshake(cfg) + 2 * v.calls + v.made + 2
    ensures w.host.Ended? ==> w.host.answer == Expected(cfg, v) && w.store == v.store
    ensures !w.host.Ended? ==> (HostStep(cfg, w).Some? <==> GuestStep(cfg, w).None?)
  {
    RunStaysOnTrack(cfg, Start(cfg, store), v, fuel, 0, schedule, w, |schedule|);
    OneCanMove(cfg, w, v, fuel, |schedule|);
    ClockBound(cfg, w, v, fuel, |schedule|);
  }

  lemma {:induction false} ClockBound<S>(cfg: Setup<S>, w: World<S>, v: Verdict<S>, fuel: nat, clock: nat)
    requires OnTrack(cfg, w, v, fuel, clock)
    ensures clock <= Handshake(cfg) + 2 * v.calls + v.made + 2
  {
    match (w.host, w.guest)
    case (Serving(n), Live(history, out, err, _)) =>
      DirectCounts(cfg.code, cfg.cb, w.store, history, n, out, err, fuel - |history|);
    case (Serving(n), AwaitReply(history, out, err, _)) =>
      if w.toGuest != [] {
        var back := history + [Got(w.toGuest[0].reply)];
        DirectCounts(cfg.code, cfg.cb, w.store, back, n, out, err, fuel - |history| - 1);
      } else {
        var m := cfg.code(history);
        match cfg.cb(w.store, m.act.tool, m.act.params) {
          case Failed(_, _) =>
          case Replied(r, next) =>
            DirectCounts(cfg.code, cfg.cb, next, history + [Got(r)], n + 1, out, err, fuel - |history| - 1);
        }
      }
    case _ =>
  }
}
