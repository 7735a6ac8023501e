/** How long a turn can last, whatever the model, the handlers and the verifier do. */
module ToolTurnBounds {
  import opened Wrappers
  import opened ToolTurn
  import opened ToolTurnRuns

  function AtLeastOne(n: int): nat {
    if n < 1 then 1 else n
  }

  function InvalidCalls(hops: seq<Hop>): nat {
    if hops == [] then 0 else InvalidCalls(hops[..|hops| - 1]) + hops[|hops| - 1].invalid
  }

  predicate AllInvalid(hops: seq<Hop>) {
    forall h :: h in hops ==> h.invalid == h.calls
  }

  // ----- tool errors -----

  /** Each call is counted at most once, as invalid or as successful. */
  lemma {:induction false} CallsCountedOnce(config: Config, w: Work, calls: seq<Call>)
    ensures var r := DoCalls(config, w, calls);
            w.successful <= r.successful && (r.invalid - w.invalid) + (r.successful - w.successful) <= |calls|
    decreases calls
  {
    if calls != [] && !w.failed {
      CallsCountedOnce(config, DoCall(config, w, calls[0]), calls[1..]);
    }
  }

  predicate Tallied(t: Turn) {
    t.exit != Some(HandlerFailed) ==>
      && t.n.invalid == InvalidCalls(t.past.hops)
      && (forall h :: h in t.past.hops ==> h.calls >= 1)
      && (AllInvalid(t.past.hops) ==> t.n.successful == 0)
  }

  lemma InvalidSnoc(hops: seq<Hop>, h: Hop)
    ensures InvalidCalls(hops + [h]) == InvalidCalls(hops) + h.invalid
    ensures AllInvalid(hops + [h]) <==> AllInvalid(hops) && h.invalid == h.calls
  {
    assert (hops + [h])[..|hops|] == hops;
    assert h in hops + [h];
    assert forall x :: x in hops ==> x in hops + [h];
  }

  lemma HopTallies(config: Config, t: Turn)
    requires Tallied(t) && t.exit.None? && t.reply.calls != []
    ensures Tallied(RunHop(config, t))
  {
    var w := DoCalls(config, WorkOf(t), t.reply.calls);
    CallsCountedOnce(config, WorkOf(t), t.reply.calls);
    if !w.failed {
      var hop := RunHop(config, t).past.hops[|t.past.hops|];
      InvalidSnoc(t.past.hops, hop);
      assert RunHop(config, t).past.hops == t.past.hops + [hop];
    }
  }

  lemma AfterHopTallies(config: Config, h: Turn, sameSignatureExit: Exit)
    requires Tallied(h) && sameSignatureExit != HandlerFailed
    ensures Tallied(AfterHop(config, h, sameSignatureExit))
  {
    AfterHopShape(config, h, sameSignatureExit);
  }

  lemma GuardedHopTallies(config: Config, t: Turn, sameSignatureExit: Exit)
    requires Tallied(t) && t.exit.None? && t.reply.calls != [] && sameSignatureExit != HandlerFailed
    ensures Tallied(GuardedHop(config, t, sameSignatureExit))
  {
    var c := Counted(t);
    assert Tallied(c) && Tallied(c.(exit := Some(HopLimit)));
    if t.n.loopCount + 1 <= config.guard.maxHops {
      HopTallies(config, c);
      AfterHopTallies(config, RunHop(config, c), sameSignatureExit);
    }
  }

  lemma SettleTallies(config: Config, t: Turn)
    requires Tallied(t) && t.exit.None?
    ensures Tallied(Settle(config, t))
  {
    var _ := SettleShape(config, t);
  }

  lemma {:induction false} InvalidAtLeastHops(hops: seq<Hop>)
    requires AllInvalid(hops) && forall h :: h in hops ==> h.calls >= 1
    ensures InvalidCalls(hops) >= |hops|
  {
    if hops != [] {
      var last := hops[|hops| - 1];
      assert last in hops;
      assert forall h :: h in hops[..|hops| - 1] ==> h in hops;
      InvalidAtLeastHops(hops[..|hops| - 1]);
    }
  }

  // ----- hops, sends and verifications -----

  /** No guard has tripped yet. */
  predicate WithinGuards(g: Guard, t: Turn) {
    t.past.hops != [] ==>
      && t.n.consecutive < g.maxNoProgress && t.n.repeated < g.maxSameSignature
      && !(t.n.invalid >= g.maxToolErrors && t.n.successful == 0)
  }

  /** What was spent so far. */
  predicate Spent(loop: Loop, config: Config, t: Turn) {
    && |t.past.hops| <= Max0(config.guard.maxHops)
    && t.past.sends <= 1 + |t.past.hops| + t.n.followUps + t.n.repairs
    && t.n.followUps <= MAX_FOLLOW_UPS && t.n.repairs <= Max0(config.repair.maxAttempts)
    && t.past.verified <= Max0(config.repair.maxAttempts)
    && (loop == Legacy ==> t.n.followUps == t.n.repairs == t.past.verified == 0)
    && (t.exit.None? ==>
          && t.n.loopCount == |t.past.hops| && t.past.verified == t.n.repairs
          && t.past.sends == 1 + |t.past.hops| + t.n.followUps + t.n.repairs)
    && (t.exit.None? ==> WithinGuards(config.guard, t))
    && t.n.consecutive <= AtLeastOne(config.guard.maxNoProgress)
    && t.n.repeated <= AtLeastOne(config.guard.maxSameSignature)
  }

  /** What holds between a hop and the guards. */
  predicate HopSpent(loop: Loop, config: Config, h: Turn) {
    && |h.past.hops| <= Max0(config.guard.maxHops)
    && h.past.sends == 1 + h.n.loopCount - 1 + h.n.followUps + h.n.repairs
    && h.n.followUps <= MAX_FOLLOW_UPS && h.n.repairs <= Max0(config.repair.maxAttempts)
    && h.past.verified == h.n.repairs
    && (loop == Legacy ==> h.n.followUps == h.n.repairs == h.past.verified == 0)
    && h.n.loopCount - 1 <= |h.past.hops| && (h.exit.None? ==> |h.past.hops| == h.n.loopCount)
    && h.n.consecutive <= AtLeastOne(config.guard.maxNoProgress)
    && h.n.repeated <= AtLeastOne(config.guard.maxSameSignature)
  }

  lemma HopSpends(loop: Loop, config: Config, t: Turn)
    requires Spent(loop, config, t) && t.exit.None? && Summarised(t) && t.n.loopCount < config.guard.maxHops
    ensures HopSpent(loop, config, RunHop(config, Counted(t)))
  {
    HopFrame(config, Counted(t));
  }

  lemma AfterHopSpends(loop: Loop, config: Config, h: Turn, sameSignatureExit: Exit)
    requires HopSpent(loop, config, h)
    ensures Spent(loop, config, AfterHop(config, h, sameSignatureExit))
  {
    AfterHopShape(config, h, sameSignatureExit);
  }

  lemma GuardedHopSpends(loop: Loop, config: Config, t: Turn, sameSignatureExit: Exit)
    requires Spent(loop, config, t) && t.exit.None? && Summarised(t)
    ensures Spent(loop, config, GuardedHop(config, t, sameSignatureExit))
  {
    if t.n.loopCount < config.guard.maxHops {
      HopSpends(loop, config, t);
      AfterHopSpends(loop, config, RunHop(config, Counted(t)), sameSignatureExit);
    }
  }

  lemma SettleSpends(config: Config, t: Turn)
    requires Spent(Compact, config, t) && t.exit.None?
    ensures Spent(Compact, config, Settle(config, t))
  {
    var _ := SettleShape(config, t);
  }

  predicate ErrorsCapped(config: Config, t: Turn) {
    t.exit.Some? && AllInvalid(t.past.hops) ==> |t.past.hops| <= AtLeastOne(config.guard.maxToolErrors)
  }

  /** Everything the bounds rest on. */
  ghost predicate Kept(loop: Loop, config: Config, t: Turn) {
    Spent(loop, config, t) && Summarised(t) && Tallied(t) && ErrorsCapped(config, t)
  }

  /** While the loop runs, fewer hops than the error limit were all invalid. */
  lemma ErrorsBelowLimit(config: Config, t: Turn)
    requires Tallied(t) && t.exit.None? && WithinGuards(config.guard, t)
    ensures AllInvalid(t.past.hops) ==> |t.past.hops| < AtLeastOne(config.guard.maxToolErrors)
  {
    if AllInvalid(t.past.hops) { InvalidAtLeastHops(t.past.hops); }
  }

  lemma HopCapsErrors(config: Config, t: Turn)
    requires Tallied(t) && t.exit.None? && WithinGuards(config.guard, t)
    ensures var h := RunHop(config, t);
            AllInvalid(h.past.hops) ==> |h.past.hops| <= AtLeastOne(config.guard.maxToolErrors)
  {
    ErrorsBelowLimit(config, t);
    var h := RunHop(config, t);
    if h.exit.None? {
      InvalidSnoc(t.past.hops, h.past.hops[|t.past.hops|]);
    }
  }

  lemma AfterHopCapsErrors(config: Config, h: Turn, sameSignatureExit: Exit)
    requires AllInvalid(h.past.hops) ==> |h.past.hops| <= AtLeastOne(config.guard.maxToolErrors)
    ensures ErrorsCapped(config, AfterHop(config, h, sameSignatureExit))
  {
    AfterHopShape(config, h, sameSignatureExit);
  }

  lemma GuardedHopCapsErrors(config: Config, t: Turn, sameSignatureExit: Exit)
    requires Tallied(t) && t.exit.None? && WithinGuards(config.guard, t)
    ensures ErrorsCapped(config, GuardedHop(config, t, sameSignatureExit))
  {
    ErrorsBelowLimit(config, t);
    HopCapsErrors(config, Counted(t));
    AfterHopCapsErrors(config, RunHop(config, Counted(t)), sameSignatureExit);
  }

  lemma SettleCapsErrors(config: Config, t: Turn)
    requires Tallied(t) && t.exit.None? && WithinGuards(config.guard, t)
    ensures ErrorsCapped(config, Settle(config, t))
  {
    ErrorsBelowLimit(config, t);
    var _ := SettleShape(config, t);
  }

  lemma StepKeeps(loop: Loop, config: Config, t: Turn)
    requires Kept(loop, config, t) && t.exit.None?
    ensures Kept(loop, config, Step(loop, config, t))
  {
    StepSummarises(loop, config, t);
    if t.reply.calls != [] {
      var e := SameSignatureExit(loop);
      GuardedHopSpends(loop, config, t, e);
      GuardedHopTallies(config, t, e);
      GuardedHopCapsErrors(config, t, e);
    } else if loop == Compact {
      SettleSpends(config, t);
      SettleTallies(config, t);
      SettleCapsErrors(config, t);
    } else {
      ErrorsBelowLimit(config, t);
    }
  }

  lemma {:induction false} RunKeeps(loop: Loop, config: Config, t: Turn)
    requires Kept(loop, config, t)
    ensures Kept(loop, config, Run(loop, config, t))
    decreases if t.exit.Some? then 0 else 1 + Fuel(config, t.n)
  {
    if t.exit.None? {
      StepUsesFuel(loop, config, t);
      StepKeeps(loop, config, t);
      RunKeeps(loop, config, Step(loop, config, t));
    }
  }

  lemma IdleThroughout(hops: seq<Hop>, n: nat)
    requires IdleFor(hops, n)
    ensures n < |hops| ==> exists h :: h in hops && h.progress
  {
    assert n < |hops| ==> hops[|hops| - n - 1] in hops;
  }

  /** Hops without progress that all have one signature. */
  predicate AllStuck(hops: seq<Hop>) {
    forall i :: 0 <= i < |hops| ==> !hops[i].progress && hops[i].signature == hops[|hops| - 1].signature
  }

  lemma StuckThroughout(hops: seq<Hop>, n: nat)
    requires StuckFor(hops, n)
    ensures n < |hops| ==> !AllStuck(hops)
  {
    assert n < |hops| ==> hops[|hops| - n - 1].progress || hops[|hops| - n - 1].signature != hops[|hops| - 1].signature;
  }

  /** Every turn, for every model, handler and verifier: at most MaxHops hops are
      processed, at most 1 + MaxHops + 2 + MaxAttempts answers are asked for and
      at most MaxAttempts verifications made; a turn without progress ends after
      MaxNoProgressLoops hops, one that repeats one signature without progress after
      MaxSameSignatureRepeat, one whose calls are all invalid after MaxToolErrorStreak
      (and a limit below 1 acts like 1). */
  lemma TurnIsBounded(loop: Loop, config: Config, base: seq<Message>, reply: Message)
    ensures var r := Run(loop, config, Start(base, reply));
            && |r.past.hops| <= Max0(config.guard.maxHops)
            && r.past.sends <= 1 + Max0(config.guard.maxHops)
                          + (if loop == Compact then MAX_FOLLOW_UPS + Max0(config.repair.maxAttempts) else 0)
            && r.past.verified <= (if loop == Compact then Max0(config.repair.maxAttempts) else 0)
            && ((forall h :: h in r.past.hops ==> !h.progress)
                ==> |r.past.hops| <= AtLeastOne(config.guard.maxNoProgress))
            && (AllInvalid(r.past.hops) ==> |r.past.hops| <= AtLeastOne(config.guard.maxToolErrors))
            && (AllStuck(r.past.hops) ==> |r.past.hops| <= AtLeastOne(config.guard.maxSameSignature))
            && StuckFor(r.past.hops, r.n.repeated) && r.n.repeated <= AtLeastOne(config.guard.maxSameSignature)
  {
    var r := Run(loop, config, Start(base, reply));
    RunKeeps(loop, config, Start(base, reply));
    IdleThroughout(r.past.hops, r.n.consecutive);
    StuckThroughout(r.past.hops, r.n.repeated);
  }
}
