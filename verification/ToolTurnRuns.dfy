/** What holds of every run of the tool-call loops. */
module ToolTurnRuns {
  import opened Wrappers
  import opened ToolTurn

  // ----- every processed hop closes its tool block -----

  /** One tool message per call, in call order and with that call's id. */
  predicate AnswersTo(answers: seq<Message>, calls: seq<Call>) {
    && |answers| == |calls|
    && forall i :: 0 <= i < |answers| ==> answers[i].role == Tool && answers[i].callId == calls[i].id
  }

  predicate Answered(b: Block) {
    AnswersTo(b.answers, b.reply.calls)
  }

  function Flatten(blocks: seq<Block>): seq<Message> {
    if blocks == [] then []
    else Flatten(blocks[..|blocks| - 1]) + [blocks[|blocks| - 1].reply] + blocks[|blocks| - 1].answers
  }

  lemma {:induction false} CallsAreAnswered(config: Config, w: Work, calls: seq<Call>) returns (answers: seq<Message>)
    requires !DoCalls(config, w, calls).failed
    ensures DoCalls(config, w, calls).out == w.out + answers && AnswersTo(answers, calls)
    decreases calls
  {
    if calls == [] || w.failed {
      answers := [];
    } else {
      var next := DoCall(config, w, calls[0]);
      var rest := CallsAreAnswered(config, next, calls[1..]);
      assert !next.failed;
      answers := [next.out[|w.out|]] + rest;
      assert next.out == w.out + [next.out[|w.out|]];
    }
  }

  /** The check for calls without a response never finds one. */
  lemma NoCallIsUnhandled(config: Config, t: Turn, call: Call)
    requires call in t.reply.calls && !DoCalls(config, WorkOf(t), t.reply.calls).failed
    ensures exists m :: m in DoCalls(config, WorkOf(t), t.reply.calls).out && m.role == Tool && m.callId == call.id
  {
    var answers := CallsAreAnswered(config, WorkOf(t), t.reply.calls);
    var i :| 0 <= i < |t.reply.calls| && t.reply.calls[i] == call;
    assert answers[i] in DoCalls(config, WorkOf(t), t.reply.calls).out;
  }

  /** Whether the last answer still waits for its tool messages. */
  predicate Open(t: Turn) {
    t.exit.None? || t.exit.value in {HopLimit, HandlerFailed, FollowUpExhausted, Finished}
  }

  ghost predicate Closed(t: Turn) {
    && (forall b :: b in t.past.blocks ==> Answered(b))
    && t.since == Flatten(t.past.blocks) + (if Open(t) then [t.reply] else [])
    && (t.exit in {Some(FollowUpExhausted), Some(Finished)} ==> t.reply.calls == [])
  }

  lemma FlattenSnoc(blocks: seq<Block>, b: Block)
    ensures Flatten(blocks + [b]) == Flatten(blocks) + ([b.reply] + b.answers)
  {
    assert (blocks + [b])[..|blocks|] == blocks;
  }

  lemma BlockCloses(blocks: seq<Block>, b: Block)
    ensures Flatten(blocks) + [b.reply] + b.answers == Flatten(blocks + [b])
  {
    FlattenSnoc(blocks, b);
  }

  lemma HopCloses(config: Config, t: Turn)
    requires Closed(t) && t.exit.None?
    ensures var h := RunHop(config, t);
            && (forall b :: b in h.past.blocks ==> Answered(b))
            && (h.exit.None? ==> h.since == Flatten(h.past.blocks))
            && (h.exit.Some? ==> h.exit == Some(HandlerFailed) && Closed(h))
  {
    var w := DoCalls(config, WorkOf(t), t.reply.calls);
    if !w.failed {
      var answers := CallsAreAnswered(config, WorkOf(t), t.reply.calls);
      assert w.out == answers;
      BlockCloses(t.past.blocks, Block(t.reply, w.out));
    }
  }

  lemma AfterHopCloses(config: Config, h: Turn, sameSignatureExit: Exit)
    requires sameSignatureExit in {SameSignature, NoProgress} && forall b :: b in h.past.blocks ==> Answered(b)
    requires if h.exit.None? then h.since == Flatten(h.past.blocks) else Closed(h)
    ensures Closed(AfterHop(config, h, sameSignatureExit))
  {
    AfterHopShape(config, h, sameSignatureExit);
  }

  lemma GuardedHopCloses(config: Config, t: Turn, sameSignatureExit: Exit)
    requires Closed(t) && t.exit.None? && sameSignatureExit in {SameSignature, NoProgress}
    ensures Closed(GuardedHop(config, t, sameSignatureExit))
  {
    HopCloses(config, Counted(t));
    AfterHopCloses(config, RunHop(config, Counted(t)), sameSignatureExit);
  }

  lemma DismissedCloses(t: Turn, n: Counters, verified: nat)
    requires Closed(t) && t.exit.None? && t.reply.calls == []
    ensures var d := Dismissed(t, n, verified);
            d.since == Flatten(d.past.blocks) && forall b :: b in d.past.blocks ==> Answered(b)
  {
    var b := Block(t.reply, []);
    BlockCloses(t.past.blocks, b);
    assert forall x :: x in t.past.blocks + [b] ==> Answered(x);
  }

  lemma SendCloses(config: Config, t: Turn, ask: Ask)
    requires t.since == Flatten(t.past.blocks) && t.exit.None? && forall b :: b in t.past.blocks ==> Answered(b)
    ensures Closed(Send(config, t, ask))
  {
  }

  lemma SettleCloses(config: Config, t: Turn, verdict: Verdict)
    requires Closed(t) && t.exit.None? && t.reply.calls == []
    ensures Closed(Settled(config, t, verdict))
  {
    match verdict
    case Repairing =>
      DismissedCloses(t, t.n.(repairs := t.n.repairs + 1), t.past.verified + 1);
      SendCloses(config, Dismissed(t, t.n.(repairs := t.n.repairs + 1), t.past.verified + 1), GroundingRepair);
    case FollowingUp =>
      DismissedCloses(t, t.n.(followUps := t.n.followUps + 1), t.past.verified);
      SendCloses(config, Dismissed(t, t.n.(followUps := t.n.followUps + 1), t.past.verified), FollowUpGate);
    case _ =>
  }

  lemma StepCloses(loop: Loop, config: Config, t: Turn)
    requires Closed(t) && t.exit.None?
    ensures Closed(Step(loop, config, t))
  {
    if t.reply.calls != [] {
      GuardedHopCloses(config, t, SameSignatureExit(loop));
    } else if loop == Compact {
      SettleCloses(config, t, Judge(config, t.since, t.reply.content, t.n, t.past.verified));
    }
  }

  /** In every run the transcript is a sequence of closed blocks, each answer
      followed at once by its tool messages; only an answer cut by the hop limit
      or a failed handler stays without them. */
  lemma {:induction false} EveryHopClosesItsBlock(loop: Loop, config: Config, t: Turn)
    requires Closed(t)
    ensures Closed(Run(loop, config, t))
    decreases if t.exit.Some? then 0 else 1 + Fuel(config, t.n)
  {
    if t.exit.None? {
      StepUsesFuel(loop, config, t);
      StepCloses(loop, config, t);
      EveryHopClosesItsBlock(loop, config, Step(loop, config, t));
    }
  }

  // ----- the guard counters summarise the run -----

  /** The last `n` hops made no progress, and no longer suffix did. */
  ghost predicate IdleFor(hops: seq<Hop>, n: nat) {
    && n <= |hops|
    && (forall i :: |hops| - n <= i < |hops| ==> !hops[i].progress)
    && (n < |hops| ==> hops[|hops| - n - 1].progress)
  }

  /** The last `n` hops made no progress with one signature, and no longer
      suffix did. */
  ghost predicate StuckFor(hops: seq<Hop>, n: nat) {
    && n <= |hops|
    && (forall i :: |hops| - n <= i < |hops| ==> !hops[i].progress && hops[i].signature == hops[|hops| - 1].signature)
    && (n < |hops| ==> hops[|hops| - n - 1].progress || hops[|hops| - n - 1].signature != hops[|hops| - 1].signature)
  }

  ghost predicate Summarised(t: Turn) {
    && IdleFor(t.past.hops, t.n.consecutive) && StuckFor(t.past.hops, t.n.repeated) && t.n.repeated <= t.n.consecutive
    && t.n.lastSignature == (if t.past.hops == [] then "" else t.past.hops[|t.past.hops| - 1].signature)
  }

  lemma SignatureNotEmpty(calls: seq<Call>)
    requires calls != []
    ensures Signature(calls) != ""
  {
  }

  lemma IdleSnoc(hops: seq<Hop>, n: nat, h: Hop)
    requires IdleFor(hops, n)
    ensures IdleFor(hops + [h], if h.progress then 0 else n + 1)
  {
  }

  lemma StuckSnoc(hops: seq<Hop>, n: nat, h: Hop)
    requires StuckFor(hops, n)
    ensures StuckFor(hops + [h], if h.progress then 0
                                 else if hops != [] && hops[|hops| - 1].signature == h.signature then n + 1 else 1)
  {
  }

  lemma HopSummarises(config: Config, t: Turn)
    requires Summarised(t) && t.reply.calls != []
    ensures Summarised(RunHop(config, t))
  {
    var h := RunHop(config, t);
    if h.exit != Some(HandlerFailed) || h.past.hops != t.past.hops {
      var w := DoCalls(config, WorkOf(t), t.reply.calls);
      if !w.failed {
        var hop := h.past.hops[|t.past.hops|];
        SignatureNotEmpty(t.reply.calls);
        IdleSnoc(t.past.hops, t.n.consecutive, hop);
        StuckSnoc(t.past.hops, t.n.repeated, hop);
      }
    }
  }

  lemma AfterHopSummarises(config: Config, h: Turn, sameSignatureExit: Exit)
    requires Summarised(h)
    ensures Summarised(AfterHop(config, h, sameSignatureExit))
  {
    var g := AfterHop(config, h, sameSignatureExit);
    assert g.past.hops == h.past.hops && g.n == h.n;
  }

  lemma GuardedHopSummarises(config: Config, t: Turn, sameSignatureExit: Exit)
    requires Summarised(t) && t.reply.calls != []
    ensures Summarised(GuardedHop(config, t, sameSignatureExit))
  {
    if t.n.loopCount + 1 > config.guard.maxHops {
      var g := GuardedHop(config, t, sameSignatureExit);
      assert g.past.hops == t.past.hops && g.n == t.n.(loopCount := t.n.loopCount + 1);
    } else {
      HopSummarises(config, Counted(t));
      AfterHopSummarises(config, RunHop(config, Counted(t)), sameSignatureExit);
    }
  }

  lemma SettledSummarises(config: Config, t: Turn, verdict: Verdict)
    requires Summarised(t)
    ensures Summarised(Settled(config, t, verdict))
  {
    var s := Settled(config, t, verdict);
    assert s.past.hops == t.past.hops && s.n.consecutive == t.n.consecutive && s.n.repeated == t.n.repeated
           && s.n.lastSignature == t.n.lastSignature;
  }

  lemma StepSummarises(loop: Loop, config: Config, t: Turn)
    requires Summarised(t)
    ensures Summarised(Step(loop, config, t))
  {
    if t.reply.calls != [] {
      GuardedHopSummarises(config, t, SameSignatureExit(loop));
    } else if loop == Compact {
      SettledSummarises(config, t, Judge(config, t.since, t.reply.content, t.n, t.past.verified));
    }
  }

  /** At the end of every run, and at each turn of the loop, the two counters
      are the lengths of the no-progress suffixes of the hops made. */
  lemma {:induction false} CountersSummariseTheRun(loop: Loop, config: Config, t: Turn)
    requires Summarised(t)
    ensures Summarised(Run(loop, config, t))
    decreases if t.exit.Some? then 0 else 1 + Fuel(config, t.n)
  {
    if t.exit.None? {
      StepUsesFuel(loop, config, t);
      StepSummarises(loop, config, t);
      CountersSummariseTheRun(loop, config, Step(loop, config, t));
    }
  }
}
