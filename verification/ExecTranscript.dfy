/** What direct evaluation means, without running it: there is one record of what the code got back
    that the code and the callback agree on, and the verdict is read off its end. */
module ExecTranscript {
  import opened Wrappers
  import opened Utf8
  import opened ExecProtocol

  /** `history` is what the code got back, and `stores` the callback's states in between: each call
      is the one the code makes after what it got before, answered by the callback in its state. */
  ghost predicate Happened<S>(code: Code, cb: Callback<S>, history: seq<Back>, stores: seq<S>) {
    |stores| == |history| + 1 && forall i :: 0 <= i < |history| ==> StepHappened(code, cb, history, stores, i)
  }

  ghost predicate StepHappened<S>(code: Code, cb: Callback<S>, history: seq<Back>, stores: seq<S>, i: int)
    requires |stores| == |history| + 1 && 0 <= i < |history|
  {
    var act := code(history[..i]).act;
    match history[i]
    case CallRaised => act == BadCall && stores[i + 1] == stores[i]
    case Got(reply) => act.Call? && cb(stores[i], act.tool, act.params) == Replied(reply, stores[i + 1])
  }

  /** What the code has written on stdout and stderr when the last entry of `history` comes back. */
  function Written(code: Code, history: seq<Back>): (Text, Text) {
    if history == [] then ([], [])
    else
      var init := history[..|history| - 1];
      (Written(code, init).0 + code(init).out, Written(code, init).1 + code(init).err)
  }

  /** How many of its calls the callback answered. */
  function AnsweredIn(history: seq<Back>): nat {
    if history == [] then 0 else AnsweredIn(history[..|history| - 1]) + if history[|history| - 1].Got? then 1 else 0
  }

  /** How a run ends whose last move comes after `history`, in the callback's state `store`. */
  ghost predicate EndsAs<S>(code: Code, cb: Callback<S>, history: seq<Back>, store: S, v: Verdict<S>) {
    var last, n := code(history), AnsweredIn(history);
    var out, err := Written(code, history).0 + last.out, Written(code, history).1 + last.err;
    match last.act
    case Return => v == Completed(true, None, out, err, n, |history|, store)
    case Raise(e) => v == Completed(false, Some(e), out, err, n, |history|, store)
    case Abort => v == Died(err, n, |history|, store)
    case BadCall => false
    case Call(tool, params) =>
      v.HostFailed? && cb(store, tool, params) == Failed(v.cause, v.store) && v.calls == n + 1
      && v.made == |history| + 1
  }

  /** Direct evaluation from the middle of a run. */
  function From<S>(code: Code, cb: Callback<S>, history: seq<Back>, store: S, fuel: nat): Option<Verdict<S>> {
    var w := Written(code, history);
    Direct(code, cb, store, history, AnsweredIn(history), w.0, w.1, fuel)
  }

  lemma {:induction false} Extends<S>(
    code: Code, cb: Callback<S>, history: seq<Back>, stores: seq<S>, back: Back, next: S)
    requires Happened(code, cb, history, stores)
    requires StepHappened(code, cb, history + [back], stores + [next], |history|)
    ensures Happened(code, cb, history + [back], stores + [next])
    ensures forall fuel: nat :: From(code, cb, history + [back], next, fuel) ==
              var m := code(history);
              Direct(code, cb, next, history + [back], AnsweredIn(history) + (if back.Got? then 1 else 0),
                     Written(code, history).0 + m.out, Written(code, history).1 + m.err, fuel)
  {
    assert (history + [back])[..|history|] == history;
    forall i | 0 <= i < |history| ensures StepHappened(code, cb, history + [back], stores + [next], i) {
      assert StepHappened(code, cb, history, stores, i);
      assert (history + [back])[..i] == history[..i];
    }
  }

  lemma {:induction false} DirectIsRecorded<S>(
    code: Code, cb: Callback<S>, history: seq<Back>, stores: seq<S>, fuel: nat, v: Verdict<S>)
    returns (h: seq<Back>, ss: seq<S>)
    requires Happened(code, cb, history, stores) && From(code, cb, history, stores[|history|], fuel) == Some(v)
    ensures Happened(code, cb, h, ss) && ss[0] == stores[0] && |h| <= |history| + fuel
    ensures EndsAs(code, cb, h, ss[|h|], v)
    decreases fuel
  {
    var m, store := code(history), stores[|history|];
    assert (history + [CallRaised])[..|history|] == history;
    if m.act.BadCall? {
      Extends(code, cb, history, stores, CallRaised, store);
      h, ss := DirectIsRecorded(code, cb, history + [CallRaised], stores + [store], fuel - 1, v);
    } else if m.act.Call? && cb(store, m.act.tool, m.act.params).Replied? {
      var s := cb(store, m.act.tool, m.act.params);
      assert (history + [Got(s.reply)])[..|history|] == history;
      Extends(code, cb, history, stores, Got(s.reply), s.next);
      h, ss := DirectIsRecorded(code, cb, history + [Got(s.reply)], stores + [s.next], fuel - 1, v);
    } else {
      h, ss := history, stores;
    }
  }

  lemma {:induction false} RecordedIsDirect<S>(
    code: Code, cb: Callback<S>, h: seq<Back>, ss: seq<S>, k: nat, fuel: nat, v: Verdict<S>)
    requires Happened(code, cb, h, ss) && EndsAs(code, cb, h, ss[|h|], v) && k <= |h| <= k + fuel
    ensures From(code, cb, h[..k], ss[k], fuel) == Some(v)
    decreases |h| - k
  {
    if k == |h| {
      assert h[..k] == h;
    } else {
      assert StepHappened(code, cb, h, ss, k);
      assert h[..k + 1] == h[..k] + [h[k]];
      RecordedIsDirect(code, cb, h, ss, k + 1, fuel - 1, v);
      Happens(code, cb, h, ss, k);
      Extends(code, cb, h[..k], ss[..k + 1], h[k], ss[k + 1]);
    }
  }

  /** The beginning of what happened happened. */
  lemma {:induction false} Happens<S>(code: Code, cb: Callback<S>, h: seq<Back>, ss: seq<S>, k: nat)
    requires Happened(code, cb, h, ss) && k < |h|
    ensures Happened(code, cb, h[..k], ss[..k + 1])
    ensures StepHappened(code, cb, h[..k] + [h[k]], ss[..k + 1] + [ss[k + 1]], k)
  {
    var init, before := h[..k], ss[..k + 1];
    forall i | 0 <= i < k ensures StepHappened(code, cb, init, before, i) {
      assert StepHappened(code, cb, h, ss, i);
      assert init[..i] == h[..i];
    }
    assert StepHappened(code, cb, h, ss, k);
    assert (h[..k] + [h[k]])[..k] == h[..k];
  }

  /** Direct evaluation gives a verdict exactly when some record of at most `fuel` calls that the
      code and the callback agree on ends in it. */
  lemma {:induction false} DirectIsTheRecord<S>(cfg: Setup<S>, store: S, fuel: nat, v: Verdict<S>)
    ensures Evaluate(cfg, store, fuel) == Some(v) <==>
            exists h, ss :: Happened(cfg.code, cfg.cb, h, ss) && ss[0] == store && |h| <= fuel
                            && EndsAs(cfg.code, cfg.cb, h, ss[|h|], v)
  {
    if Evaluate(cfg, store, fuel) == Some(v) {
      var h, ss := DirectIsRecorded(cfg.code, cfg.cb, [], [store], fuel, v);
    }
    forall h, ss | Happened(cfg.code, cfg.cb, h, ss) && ss[0] == store && |h| <= fuel
                   && EndsAs(cfg.code, cfg.cb, h, ss[|h|], v)
      ensures Evaluate(cfg, store, fuel) == Some(v)
    {
      RecordedIsDirect(cfg.code, cfg.cb, h, ss, 0, fuel, v);
      assert h[..0] == [];
    }
  }
}
