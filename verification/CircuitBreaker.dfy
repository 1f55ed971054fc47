/** The circuit breaker of the REST grant client and the client itself, over a clock that
    callers read when they ask and when they fail. Callers may interleave freely: the log is
    one sequence of questions and outcomes, in the order they reached the breaker. */
module CircuitBreaker {
  import opened Wrappers

  datatype BreakerState = Closed | Open | HalfOpen

  /** `_state`, `_consecutive_failures`, `_opened_at`. */
  datatype Breaker = Breaker(state: BreakerState, failures: nat, openedAt: Option<real>)

  const FRESH := Breaker(Closed, 0, None)

  /** `allow_request` at `now`: the new state and the answer. The source asserts that an open
      breaker has an opening time. */
  function Allow(b: Breaker, cooldown: real, now: real): (r: (Breaker, bool))
    requires b.state == Open ==> b.openedAt.Some?
  {
    if b.state == Open then
      if now - b.openedAt.value >= cooldown then (b.(state := HalfOpen), true) else (b, false)
    else
      (b, true)
  }

  function Success(b: Breaker): Breaker {
    Breaker(Closed, 0, None)
  }

  function Failure(b: Breaker, threshold: int, now: real): Breaker {
    var failures := b.failures + 1;
    if b.state == HalfOpen || failures >= threshold then Breaker(Open, failures, Some(now))
    else b.(failures := failures)
  }

  // ---- The log -------------------------------------------------------------------------------

  datatype Event = Ask(at: real) | Succeeded | Failed(at: real)

  /** The breaker after a log. */
  function Run(log: seq<Event>, threshold: int, cooldown: real): (b: Breaker)
    ensures b.state == Open ==> b.openedAt.Some?
  {
    if log == [] then FRESH
    else
      var b := Run(log[..|log| - 1], threshold, cooldown);
      match log[|log| - 1]
      case Ask(now) => Allow(b, cooldown, now).0
      case Succeeded => Success(b)
      case Failed(now) => Failure(b, threshold, now)
  }

  /** How many failures have been recorded since the last success. */
  function FailureRun(log: seq<Event>): nat {
    if log == [] then 0
    else
      match log[|log| - 1]
      case Ask(_) => FailureRun(log[..|log| - 1])
      case Succeeded => 0
      case Failed(_) => FailureRun(log[..|log| - 1]) + 1
  }

  /** The time of the latest recorded failure. */
  function LastFailure(log: seq<Event>): Option<real> {
    if log == [] then None
    else if log[|log| - 1].Failed? then Some(log[|log| - 1].at)
    else LastFailure(log[..|log| - 1])
  }

  /** Somebody asked, after the latest recorded outcome, once `since + cooldown` had come. */
  ghost predicate ProbedSince(log: seq<Event>, since: real, cooldown: real) {
    exists i :: 0 <= i < |log| && log[i].Ask? && log[i].at - since >= cooldown
                && forall j :: i < j < |log| ==> log[j].Ask?
  }

  /** The breaker is a function of its log that mentions none of its fields: it has left CLOSED
      exactly when the trailing failures reach the threshold; it then opened at the latest
      failure; and it is HALF_OPEN exactly when somebody has asked after the cooldown. */
  lemma {:induction false} BreakerIsItsLog(log: seq<Event>, threshold: int, cooldown: real)
    requires threshold >= 1
    ensures var b := Run(log, threshold, cooldown);
            && b.failures == FailureRun(log)
            && (b.state != Closed <==> FailureRun(log) >= threshold)
            && (FailureRun(log) >= 1 ==> LastFailure(log).Some?)
            && (b.state != Closed ==> b.openedAt == LastFailure(log))
            && (b.state == Closed ==> b.openedAt == None)
            && (b.state == HalfOpen <==>
                  FailureRun(log) >= threshold && ProbedSince(log, LastFailure(log).value, cooldown))
  {
    if log != [] {
      var n := |log| - 1;
      var init := log[..n];
      BreakerIsItsLog(init, threshold, cooldown);
      if log[n].Ask? && FailureRun(log) >= threshold {
        var since := LastFailure(log).value;
        if ProbedSince(init, since, cooldown) {
          var i :| 0 <= i < n && init[i].Ask? && init[i].at - since >= cooldown
                   && forall j :: i < j < n ==> init[j].Ask?;
          assert log[i].Ask? && log[i].at - since >= cooldown && forall j :: i < j < |log| ==> log[j].Ask?;
        }
        if ProbedSince(log, since, cooldown) && log[n].at - since < cooldown {
          var i :| 0 <= i < |log| && log[i].Ask? && log[i].at - since >= cooldown
                   && forall j :: i < j < |log| ==> log[j].Ask?;
          assert init[i].Ask? && init[i].at - since >= cooldown && forall j :: i < j < n ==> init[j].Ask?;
        }
      }
    }
  }

  /** Whether a caller that asks at `now`, after `log`, may go to the network. */
  function Admits(log: seq<Event>, threshold: int, cooldown: real, now: real): bool {
    Allow(Run(log, threshold, cooldown), cooldown, now).1
  }

  /** The admission rule in terms of the log alone. */
  lemma AdmissionRule(log: seq<Event>, threshold: int, cooldown: real, now: real)
    requires threshold >= 1
    ensures FailureRun(log) >= 1 ==> LastFailure(log).Some?
    ensures Admits(log, threshold, cooldown, now) <==>
              FailureRun(log) < threshold
              || ProbedSince(log, LastFailure(log).value, cooldown)
              || now - LastFailure(log).value >= cooldown
  {
    BreakerIsItsLog(log, threshold, cooldown);
  }

  /** HALF_OPEN is not limited to one call: everyone who asks before an outcome is recorded is
      let through. */
  lemma {:induction false} HalfOpenAdmitsEveryone(
    log: seq<Event>, asks: seq<Event>, threshold: int, cooldown: real, now: real)
    requires Run(log, threshold, cooldown).state == HalfOpen && forall e :: e in asks ==> e.Ask?
    ensures Run(log + asks, threshold, cooldown) == Run(log, threshold, cooldown)
    ensures Admits(log + asks, threshold, cooldown, now)
  {
    if asks == [] {
      assert log + asks == log;
    } else {
      var n := |asks| - 1;
      assert (log + asks)[..|log| + n] == log + asks[..n];
      HalfOpenAdmitsEveryone(log, asks[..n], threshold, cooldown, now);
    }
  }

  // ---- Sequential callers against a dead server --------------------------------------------------

  /** One call: when it asks, and, if it is let through, when its failure is recorded. */
  datatype Attempt = Attempt(asked: real, failed: real)

  /** Calls one after another on a clock that never goes back. */
  ghost predicate InTurn(calls: seq<Attempt>, from: real) {
    calls == [] || (from <= calls[0].asked <= calls[0].failed && InTurn(calls[1..], calls[0].failed))
  }

  /** When the calls that are let through ask, all of them failing. */
  function Reaching(b: Breaker, threshold: int, cooldown: real, calls: seq<Attempt>): seq<real>
    requires b.state == Open ==> b.openedAt.Some?
    decreases |calls|
  {
    if calls == [] then []
    else
      var (asked, ok) := Allow(b, cooldown, calls[0].asked);
      if ok then
        [calls[0].asked] + Reaching(Failure(asked, threshold, calls[0].failed), threshold, cooldown, calls[1..])
      else Reaching(asked, threshold, cooldown, calls[1..])
  }

  /** Each probe waits a whole cooldown after the one before it: the k-th call that reaches the
      network after the trip asks no earlier than k cooldowns after the trip. */
  lemma {:induction false} ProbesAreSpaced(b: Breaker, threshold: int, cooldown: real, calls: seq<Attempt>, k: nat)
    requires b.state == Open && b.openedAt.Some? && InTurn(calls, b.openedAt.value)
    requires cooldown > 0.0 && k < |Reaching(b, threshold, cooldown, calls)|
    ensures Reaching(b, threshold, cooldown, calls)[k] >= b.openedAt.value + (k + 1) as real * cooldown
    decreases |calls|
  {
    var call, rest := calls[0], calls[1..];
    var (asked, ok) := Allow(b, cooldown, call.asked);
    if ok {
      if k > 0 {
        var b' := Failure(asked, threshold, call.failed);
        ProbesAreSpaced(b', threshold, cooldown, rest, k - 1);
        assert (k + 1) as real * cooldown == k as real * cooldown + cooldown;
      }
    } else {
      InTurnEarlier(rest, call.failed, b.openedAt.value);
      ProbesAreSpaced(b, threshold, cooldown, rest, k);
    }
  }

  lemma InTurnEarlier(calls: seq<Attempt>, from: real, earlier: real)
    requires InTurn(calls, from) && earlier <= from
    ensures InTurn(calls, earlier)
  {
  }

  /** Within `t` of the trip at most floor(t / cooldown) calls reach the network. */
  lemma ProbeRate(b: Breaker, threshold: int, cooldown: real, calls: seq<Attempt>, t: real)
    requires b.state == Open && b.openedAt.Some? && InTurn(calls, b.openedAt.value)
    requires cooldown > 0.0 && t >= 0.0
    requires forall i :: 0 <= i < |Reaching(b, threshold, cooldown, calls)| ==>
               Reaching(b, threshold, cooldown, calls)[i] <= b.openedAt.value + t
    ensures |Reaching(b, threshold, cooldown, calls)| <= (t / cooldown).Floor
  {
    var n := |Reaching(b, threshold, cooldown, calls)|;
    if n > 0 {
      ProbesAreSpaced(b, threshold, cooldown, calls, n - 1);
      AtMostFloor(n, cooldown, t);
    } else {
      AtMostFloor(0, cooldown, t);
    }
  }

  lemma AtMostFloor(n: nat, cooldown: real, t: real)
    requires cooldown > 0.0 && n as real * cooldown <= t
    ensures n <= (t / cooldown).Floor
  {
    assert t / cooldown * cooldown == t;
    assert n as real <= t / cooldown;
  }

  // ---- The client -----------------------------------------------------------------------------

  /** The decision field of a JSON object: absent, a string, another hashable value, or a list
      or object, on which the set-membership test raises `TypeError`. */
  datatype DecisionField = Absent | Word(text: string) | OtherValue | Unhashable

  datatype Response =
    | Unreachable                        // an `HTTPError` (timeout, non-2xx, ...) or a `ValueError`
    | Uncaught                           // any other exception of the request or the parsing, such as
                                         // a `RecursionError` on deeply nested JSON or an invalid URL
    | NotAnObject                        // JSON, but not an object
    | Object(decision: DecisionField)

  datatype Grant = Granted(decision: string) | DeniedByClient

  const VALID_DECISIONS := {"allow", "deny", "require_approval"}

  class Client {
    const threshold: int
    const cooldown: real
    var state: BreakerState
    var consecutiveFailures: nat
    var openedAt: Option<real>

    constructor (threshold: int, cooldown: real)
      ensures this.threshold == threshold && this.cooldown == cooldown && View() == FRESH
    {
      this.threshold, this.cooldown := threshold, cooldown;
      state, consecutiveFailures, openedAt := Closed, 0, None;
    }

    ghost function View(): Breaker
      reads this
    {
      Breaker(state, consecutiveFailures, openedAt)
    }

    ghost predicate Valid()
      reads this
    {
      state == Open ==> openedAt.Some?
    }

    method AllowRequest(now: real) returns (ok: bool)
      requires Valid()
      modifies this`state
      ensures Valid() && (View(), ok) == Allow(old(View()), cooldown, now)
    {
      if state == Open {
        if now - openedAt.value >= cooldown {
          state := HalfOpen;
          return true;
        }
        return false;
      }
      return true;
    }

    method RecordSuccess()
      modifies this
      ensures Valid() && View() == FRESH
    {
      consecutiveFailures := 0;
      state := Closed;
      openedAt := None;
    }

    method RecordFailure(now: real)
      requires Valid()
      modifies this
      ensures Valid() && View() == Failure(old(View()), threshold, now)
    {
      consecutiveFailures := consecutiveFailures + 1;
      if state == HalfOpen || consecutiveFailures >= threshold {
        state := Open;
        openedAt := Some(now);
      }
    }

    /** `check_grant` for one caller at a time. `None` is an exception out of the call: it raises
        exactly when it asks the network and either the request or its parsing raises something
        that the handler does not name, or the decision cannot be hashed; then it records no
        outcome. A denial while the breaker is open leaves the breaker alone. */
    method CheckGrant(asked: real, response: Response, answered: real) returns (grant: Option<Grant>)
      requires Valid()
      modifies this
      ensures Valid()
      ensures var (b, ok) := Allow(old(View()), cooldown, asked);
              var valid := response.Object? && response.decision.Word?
                           && (response.decision.text == "allow" || response.decision.text == "deny"
                               || response.decision.text == "require_approval");
              && (grant == None <==> ok && (response == Uncaught || response == Object(Unhashable)))
              && (grant.Some? && grant.value.Granted? <==> ok && valid)
              && (ok && valid ==> grant == Some(Granted(response.decision.text)))
              && View() == if !ok || grant == None then b
                           else if valid then Success(b)
                           else Failure(b, threshold, answered)
    {
      var ok := AllowRequest(asked);
      if !ok {
        return Some(DeniedByClient);
      }
      match response {
        case Unreachable =>
          RecordFailure(answered);
          return Some(DeniedByClient);
        case Uncaught => return None;
        case Object(Unhashable) => return None;
        case Object(Word(text)) =>
          if text in VALID_DECISIONS {
            RecordSuccess();
            return Some(Granted(text));
          }
          RecordFailure(answered);
          return Some(DeniedByClient);
        case _ =>
          RecordFailure(answered);
          return Some(DeniedByClient);
      }
    }
  }
}
