/** The tool cache: it saves handler runs and changes nothing else. */
module ToolCache {
  import opened ToolTurn

  // ----- a reusable result is computed once -----

  /** A result a later call with the same name and arguments is served from. */
  predicate Reusable(policy: CachePolicy, outcome: Exec) {
    outcome.Valid? && !(policy.rejectsEmpty && outcome.content == "")
  }

  /** Every reusable result is in the cache, and nothing was run again after it. */
  ghost predicate RanOnce(policy: CachePolicy, cache: map<Key, string>, ran: seq<Ran>) {
    && (forall i :: 0 <= i < |ran| && Reusable(policy, ran[i].outcome) ==> Hit(policy, cache, ran[i].key))
    && (forall i, j :: 0 <= i < j < |ran| && ran[i].key == ran[j].key ==> !Reusable(policy, ran[i].outcome))
  }

  lemma {:induction false} CallsRunOnce(config: Config, w: Work, calls: seq<Call>)
    requires config.policy.enabled && RanOnce(config.policy, w.cache, w.ran)
    ensures var r := DoCalls(config, w, calls); RanOnce(config.policy, r.cache, r.ran)
    decreases calls
  {
    if calls != [] && !w.failed {
      CallsRunOnce(config, DoCall(config, w, calls[0]), calls[1..]);
    }
  }

  lemma HopRunsOnce(config: Config, t: Turn)
    requires config.policy.enabled && RanOnce(config.policy, t.cache, t.past.ran)
    ensures var h := RunHop(config, t); RanOnce(config.policy, h.cache, h.past.ran)
  {
    CallsRunOnce(config, WorkOf(t), t.reply.calls);
  }

  lemma StepRunsOnce(loop: Loop, config: Config, t: Turn)
    requires config.policy.enabled && RanOnce(config.policy, t.cache, t.past.ran)
    ensures var n := Step(loop, config, t); RanOnce(config.policy, n.cache, n.past.ran)
  {
    if t.reply.calls != [] {
      HopRunsOnce(config, Counted(t));
      AfterHopShape(config, RunHop(config, Counted(t)), SameSignatureExit(loop));
    } else if loop == Compact {
      var _ := SettleShape(config, t);
    }
  }

  /** Whatever the handlers do, a name and arguments that gave a result the cache
      accepts are not handed to a handler again in the same turn. */
  lemma {:induction false} HandlersRunOnce(loop: Loop, config: Config, t: Turn)
    requires config.policy.enabled && RanOnce(config.policy, t.cache, t.past.ran)
    ensures var r := Run(loop, config, t); RanOnce(config.policy, r.cache, r.past.ran)
    decreases if t.exit.Some? then 0 else 1 + Fuel(config, t.n)
  {
    if t.exit.None? {
      StepUsesFuel(loop, config, t);
      StepRunsOnce(loop, config, t);
      HandlersRunOnce(loop, config, Step(loop, config, t));
    }
  }

  // ----- the cached loop refines the loop without a cache -----

  function WithoutCache(config: Config): Config {
    config.(policy := config.policy.(enabled := false))
  }

  /** A handler's result depends on the name and the arguments only. */
  ghost predicate Pure(handlers: Handlers) {
    forall k: nat, c, d :: KeyOf(c) == KeyOf(d) ==> handlers(k, c) == handlers(0, d)
  }

  /** The cache holds what the handlers would return. */
  ghost predicate Truthful(handlers: Handlers, cache: map<Key, string>) {
    forall c :: KeyOf(c) in cache ==> handlers(0, c) == Valid(cache[KeyOf(c)])
  }

  /** `b` is `a` but for the cache, the handler runs and the exact number of
      successful calls. */
  predicate SameButCache(a: Turn, b: Turn) {
    && b == a.(cache := b.cache, n := a.n.(successful := b.n.successful), past := a.past.(ran := b.past.ran))
    && (a.n.successful > 0 <==> b.n.successful > 0)
  }

  ghost predicate Simulates(config: Config, a: Turn, b: Turn) {
    SameButCache(a, b) && Truthful(config.handlers, a.cache) && (a.cache != map[] ==> a.n.successful > 0)
  }

  ghost predicate WorkSimulates(config: Config, a: Work, b: Work) {
    && a.out == b.out && a.invalid == b.invalid && a.failed == b.failed
    && (a.successful > 0 <==> b.successful > 0)
    && Truthful(config.handlers, a.cache) && (a.cache != map[] ==> a.successful > 0)
  }

  lemma CallSimulates(config: Config, a: Work, b: Work, call: Call)
    requires Pure(config.handlers) && config.policy.enabled && WorkSimulates(config, a, b)
    ensures WorkSimulates(config, DoCall(config, a, call), DoCall(WithoutCache(config), b, call))
  {
    var key := KeyOf(call);
    var outcome := config.handlers(0, call);
    assert config.handlers(|b.ran|, call) == outcome;
    if Hit(config.policy, a.cache, key) {
      assert outcome == Valid(a.cache[key]);
    } else {
      assert config.handlers(|a.ran|, call) == outcome;
      var a' := DoCall(config, a, call);
      forall c | KeyOf(c) in a'.cache
        ensures config.handlers(0, c) == Valid(a'.cache[KeyOf(c)])
      {
        if KeyOf(c) == key { assert config.handlers(0, c) == outcome; }
      }
    }
  }

  lemma {:induction false} CallsSimulate(config: Config, a: Work, b: Work, calls: seq<Call>)
    requires Pure(config.handlers) && config.policy.enabled && WorkSimulates(config, a, b)
    ensures WorkSimulates(config, DoCalls(config, a, calls), DoCalls(WithoutCache(config), b, calls))
    decreases calls
  {
    if calls != [] && !a.failed {
      CallSimulates(config, a, b, calls[0]);
      CallsSimulate(config, DoCall(config, a, calls[0]), DoCall(WithoutCache(config), b, calls[0]), calls[1..]);
    }
  }

  lemma HopSimulates(config: Config, a: Turn, b: Turn)
    requires Pure(config.handlers) && config.policy.enabled && Simulates(config, a, b)
    ensures Simulates(config, RunHop(config, a), RunHop(WithoutCache(config), b))
  {
    CallsSimulate(config, WorkOf(a), WorkOf(b), a.reply.calls);
  }

  lemma SendSimulates(config: Config, a: Turn, b: Turn, ask: Ask)
    requires Simulates(config, a, b)
    ensures Simulates(config, Send(config, a, ask), Send(WithoutCache(config), b, ask))
  {
  }

  lemma AfterHopSimulates(config: Config, a: Turn, b: Turn, e: Exit)
    requires Simulates(config, a, b)
    ensures Simulates(config, AfterHop(config, a, e), AfterHop(WithoutCache(config), b, e))
  {
    SendSimulates(config, a, b, AfterTools);
  }

  lemma GuardedHopSimulates(config: Config, a: Turn, b: Turn, e: Exit)
    requires Pure(config.handlers) && config.policy.enabled && Simulates(config, a, b)
    ensures Simulates(config, GuardedHop(config, a, e), GuardedHop(WithoutCache(config), b, e))
  {
    var a1, b1 := Counted(a), Counted(b);
    HopSimulates(config, a1, b1);
    AfterHopSimulates(config, RunHop(config, a1), RunHop(WithoutCache(config), b1), e);
  }

  lemma DismissedSimulates(config: Config, a: Turn, b: Turn, n: Counters, m: Counters, verified: nat)
    requires Simulates(config, a, b) && n.successful == a.n.successful && m == n.(successful := b.n.successful)
    ensures Simulates(config, Dismissed(a, n, verified), Dismissed(b, m, verified))
  {
  }

  lemma SettledSimulates(config: Config, a: Turn, b: Turn, verdict: Verdict)
    requires Simulates(config, a, b)
    ensures Simulates(config, Settled(config, a, verdict), Settled(WithoutCache(config), b, verdict))
  {
    if verdict == Repairing {
      var n, m := a.n.(repairs := a.n.repairs + 1), b.n.(repairs := a.n.repairs + 1);
      DismissedSimulates(config, a, b, n, m, a.past.verified + 1);
      SendSimulates(config, Dismissed(a, n, a.past.verified + 1), Dismissed(b, m, a.past.verified + 1),
                    GroundingRepair);
    } else if verdict == FollowingUp {
      var n, m := a.n.(followUps := a.n.followUps + 1), b.n.(followUps := a.n.followUps + 1);
      DismissedSimulates(config, a, b, n, m, a.past.verified);
      SendSimulates(config, Dismissed(a, n, a.past.verified), Dismissed(b, m, a.past.verified), FollowUpGate);
    }
  }

  lemma SameJudgement(config: Config, a: Turn, b: Turn)
    requires SameButCache(a, b)
    ensures Judge(config, a.since, a.reply.content, a.n, a.past.verified)
         == Judge(WithoutCache(config), b.since, b.reply.content, b.n, b.past.verified)
  {
  }

  lemma SettleSimulates(config: Config, a: Turn, b: Turn)
    requires Simulates(config, a, b)
    ensures Simulates(config, Settle(config, a), Settle(WithoutCache(config), b))
  {
    SameJudgement(config, a, b);
    SettledSimulates(config, a, b, Judge(config, a.since, a.reply.content, a.n, a.past.verified));
  }

  lemma StepSimulates(loop: Loop, config: Config, a: Turn, b: Turn)
    requires Pure(config.handlers) && config.policy.enabled && Simulates(config, a, b)
    ensures Simulates(config, Step(loop, config, a), Step(loop, WithoutCache(config), b))
  {
    if a.reply.calls != [] {
      GuardedHopSimulates(config, a, b, SameSignatureExit(loop));
    } else if loop == Compact {
      SettleSimulates(config, a, b);
    }
  }

  lemma {:induction false} RunSimulates(loop: Loop, config: Config, a: Turn, b: Turn)
    requires Pure(config.handlers) && config.policy.enabled && Simulates(config, a, b)
    ensures Simulates(config, Run(loop, config, a), Run(loop, WithoutCache(config), b))
    decreases if a.exit.Some? then 0 else 1 + Fuel(config, a.n)
  {
    if a.exit.None? {
      StepUsesFuel(loop, config, a);
      StepSimulates(loop, config, a, b);
      RunSimulates(loop, config, Step(loop, config, a), Step(loop, WithoutCache(config), b));
    }
  }
}
