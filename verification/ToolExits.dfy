/** Why a run goes on and why it ends: the condition behind every exit, and behind every answer
    that was sent back. */
module ToolExits {
  import opened Wrappers
  import opened Text
  import opened ToolTurn
  import opened ToolTurnRuns
  import ToolReplay

  /** The latest tool message. */
  predicate LatestAt(messages: seq<Message>, i: nat) {
    i < |messages| && messages[i].role == Tool && forall j :: i < j < |messages| ==> messages[j].role != Tool
  }

  /** The latest tool message says that something is left to do. */
  ghost predicate WantsMore(config: Config, messages: seq<Message>) {
    exists i: nat :: LatestAt(messages, i) && config.needsFollowUp(messages[i].content)
  }

  /** An answer not based on any tool, found wanting by the verifier's `v`-th verdict. */
  predicate Ungrounded(config: Config, content: string, v: nat) {
    config.repair.enabled && !Blank(content) && config.repair.needed(v, content)
  }

  /** An answer without calls that was sent back, at the end of `messages`. */
  ghost predicate SentBack(loop: Loop, config: Config, messages: seq<Message>, content: string) {
    && loop == Compact
    && if ToolReplay.SomeTool(messages) then WantsMore(config, messages) else exists v :: Ungrounded(config, content, v)
  }

  /** Every answer without calls in a closed block was sent back. */
  ghost predicate AllSentBack(loop: Loop, config: Config, blocks: seq<Block>) {
    forall k :: 0 <= k < |blocks| && blocks[k].reply.calls == []
      ==> SentBack(loop, config, Flatten(blocks[..k + 1]), blocks[k].reply.content)
  }

  /** How many answers were sent back after a tool result, or without any. */
  ghost function Returned(blocks: seq<Block>, afterTool: bool): nat {
    if blocks == [] then 0
    else
      var last := blocks[|blocks| - 1];
      Returned(blocks[..|blocks| - 1], afterTool)
      + (if last.reply.calls == [] && ToolReplay.SomeTool(Flatten(blocks)) == afterTool then 1 else 0)
  }

  lemma ReturnedSnoc(blocks: seq<Block>, b: Block, afterTool: bool)
    ensures Returned(blocks + [b], afterTool)
         == Returned(blocks, afterTool)
            + (if b.reply.calls == [] && ToolReplay.SomeTool(Flatten(blocks + [b])) == afterTool then 1 else 0)
  {
    assert (blocks + [b])[..|blocks|] == blocks;
  }

  /** The guards, none of which has tripped. */
  predicate GuardsHold(g: Guard, n: Counters) {
    && n.consecutive < g.maxNoProgress && n.repeated < g.maxSameSignature
    && !(n.invalid >= g.maxToolErrors && n.successful == 0)
  }

  ghost predicate CountsReturned(t: Turn) {
    && t.n.followUps == Returned(t.past.blocks, true) <= 2
    && t.n.repairs == Returned(t.past.blocks, false)
  }

  /** Why the loop is where it is. */
  ghost predicate Decided(loop: Loop, config: Config, t: Turn) {
    && AllSentBack(loop, config, t.past.blocks) && CountsReturned(t)
    && var hops, n, g := |t.past.hops|, t.n, config.guard;
       match t.exit
       case None => n.loopCount == hops && (hops > 0 ==> GuardsHold(g, n))
       case Some(SendFailed) => hops > 0 ==> GuardsHold(g, n)
       case Some(HandlerFailed) => t.past.ran != [] && t.past.ran[|t.past.ran| - 1].outcome.Fail?
       case Some(HopLimit) => t.reply.calls != [] && hops >= g.maxHops && (hops > 0 ==> GuardsHold(g, n))
       case Some(ErrorStreak) => hops > 0 && n.invalid >= g.maxToolErrors && n.successful == 0
       case Some(SameSignature) =>
         && hops > 0 && loop == Legacy && n.repeated >= g.maxSameSignature
         && (n.invalid < g.maxToolErrors || n.successful > 0)
       case Some(NoProgress) =>
         && hops > 0 && (n.invalid < g.maxToolErrors || n.successful > 0)
         && (loop == Legacy ==> n.consecutive >= g.maxNoProgress && n.repeated < g.maxSameSignature)
         && (n.consecutive >= g.maxNoProgress || n.repeated >= g.maxSameSignature)
       case Some(FollowUpExhausted) =>
         loop == Compact && t.reply.calls == [] && n.followUps == 2 && WantsMore(config, t.since)
       case Some(Finished) =>
         && t.reply.calls == []
         && (loop == Compact && ToolReplay.SomeTool(t.since) ==> !WantsMore(config, t.since))
         && (loop == Compact && !ToolReplay.SomeTool(t.since) && n.repairs < config.repair.maxAttempts ==>
               t.past.verified == n.repairs + (if config.repair.enabled && !Blank(t.reply.content) then 1 else 0)
               && !Ungrounded(config, t.reply.content, n.repairs))
  }

  /** What is kept beside it: the verdicts asked for are the repairs made. */
  ghost predicate Kept(loop: Loop, config: Config, t: Turn) {
    Closed(t) && Decided(loop, config, t) && (t.exit.None? ==> t.past.verified == t.n.repairs)
  }

  lemma {:induction false} LatestAtIs(messages: seq<Message>, i: nat)
    requires LatestAt(messages, i)
    ensures LatestTool(messages) == Some(messages[i])
  {
    var n := |messages| - 1;
    if i < n {
      assert messages[..n][i] == messages[i];
      LatestAtIs(messages[..n], i);
    }
  }

  lemma LatestIs(messages: seq<Message>)
    ensures LatestTool(messages).Some? <==> ToolReplay.SomeTool(messages)
    ensures forall i: nat :: LatestAt(messages, i) ==> LatestTool(messages) == Some(messages[i])
    ensures LatestTool(messages).Some? ==> exists i: nat :: LatestAt(messages, i)
  {
    ToolReplay.LatestToolFinds(messages);
    forall i: nat | LatestAt(messages, i) ensures LatestTool(messages) == Some(messages[i]) { LatestAtIs(messages, i); }
    if LatestTool(messages).Some? {
      var k :| 0 <= k < |messages| && messages[k] == LatestTool(messages).value && messages[k].role == Tool
               && forall j :: k < j < |messages| ==> messages[j].role != Tool;
      assert LatestAt(messages, k);
    }
  }

  lemma WantsMoreIs(config: Config, messages: seq<Message>)
    ensures LatestTool(messages).Some? <==> ToolReplay.SomeTool(messages)
    ensures WantsMore(config, messages)
            <==> LatestTool(messages).Some? && config.needsFollowUp(LatestTool(messages).value.content)
  {
    LatestIs(messages);
  }

  lemma SentBackStays(loop: Loop, config: Config, blocks: seq<Block>, b: Block)
    requires AllSentBack(loop, config, blocks)
    requires b.reply.calls == [] ==> SentBack(loop, config, Flatten(blocks + [b]), b.reply.content)
    ensures AllSentBack(loop, config, blocks + [b])
  {
    var all := blocks + [b];
    forall k | 0 <= k < |all| && all[k].reply.calls == []
      ensures SentBack(loop, config, Flatten(all[..k + 1]), all[k].reply.content)
    {
      if k < |blocks| {
        assert all[..k + 1] == blocks[..k + 1] && all[k] == blocks[k];
      } else {
        assert all[..k + 1] == all;
      }
    }
  }

  // ----- a hop -----

  lemma {:induction false} FailedLast(config: Config, w: Work, calls: seq<Call>)
    requires !w.failed
    ensures var r := DoCalls(config, w, calls); r.failed ==> r.ran != [] && r.ran[|r.ran| - 1].outcome.Fail?
    decreases calls
  {
    if calls != [] {
      var next := DoCall(config, w, calls[0]);
      if !next.failed { FailedLast(config, next, calls[1..]); }
    }
  }

  /** After a hop, before the guards. */
  ghost predicate Hopped(loop: Loop, config: Config, h: Turn) {
    && AllSentBack(loop, config, h.past.blocks) && CountsReturned(h)
    && (h.exit.None? ==> h.n.loopCount == |h.past.hops| > 0)
    && (h.exit.Some? ==> h.exit == Some(HandlerFailed) && Decided(loop, config, h))
  }

  lemma HopDecides(loop: Loop, config: Config, t: Turn)
    requires Decided(loop, config, t) && t.exit.None? && t.reply.calls != []
    ensures Hopped(loop, config, RunHop(config, Counted(t)))
  {
    var c := Counted(t);
    var w := DoCalls(config, WorkOf(c), c.reply.calls);
    FailedLast(config, WorkOf(c), c.reply.calls);
    if !w.failed {
      SentBackStays(loop, config, t.past.blocks, Block(t.reply, w.out));
      ReturnedSnoc(t.past.blocks, Block(t.reply, w.out), true);
      ReturnedSnoc(t.past.blocks, Block(t.reply, w.out), false);
    }
  }

  lemma AfterHopDecides(loop: Loop, config: Config, h: Turn)
    requires Hopped(loop, config, h)
    ensures Decided(loop, config, AfterHop(config, h, SameSignatureExit(loop)))
  {
  }

  lemma GuardedHopDecides(loop: Loop, config: Config, t: Turn)
    requires Decided(loop, config, t) && t.exit.None? && t.reply.calls != []
    ensures Decided(loop, config, GuardedHop(config, t, SameSignatureExit(loop)))
  {
    if t.n.loopCount + 1 <= config.guard.maxHops {
      HopDecides(loop, config, t);
      AfterHopDecides(loop, config, RunHop(config, Counted(t)));
    }
  }

  // ----- an answer without calls -----

  lemma SendDecides(loop: Loop, config: Config, t: Turn, ask: Ask)
    requires Decided(loop, config, t) && t.exit.None?
    ensures Decided(loop, config, Send(config, t, ask))
  {
  }

  lemma DismissedDecides(loop: Loop, config: Config, t: Turn, n: Counters, verified: nat, ask: Ask)
    requires Kept(loop, config, t) && t.exit.None? && t.reply.calls == []
    requires n == (if ToolReplay.SomeTool(t.since) then t.n.(followUps := t.n.followUps + 1)
                   else t.n.(repairs := t.n.repairs + 1)) && n.followUps <= 2
    requires SentBack(loop, config, t.since, t.reply.content)
    ensures Decided(loop, config, Send(config, Dismissed(t, n, verified), ask))
  {
    DismissedCloses(t, n, verified);
    SentBackStays(loop, config, t.past.blocks, Block(t.reply, []));
    BlockCloses(t.past.blocks, Block(t.reply, []));
    ReturnedSnoc(t.past.blocks, Block(t.reply, []), true);
    ReturnedSnoc(t.past.blocks, Block(t.reply, []), false);
    SendDecides(loop, config, Dismissed(t, n, verified), ask);
  }

  lemma EndingDecides(config: Config, t: Turn, verdict: Verdict)
    requires Kept(Compact, config, t) && t.exit.None? && t.reply.calls == []
    requires verdict == Judge(config, t.since, t.reply.content, t.n, t.past.verified)
    requires verdict in {Done, Verified, Exhausted}
    ensures Decided(Compact, config, Settled(config, t, verdict))
  {
    WantsMoreIs(config, t.since);
  }

  lemma RepairDecides(config: Config, t: Turn)
    requires Kept(Compact, config, t) && t.exit.None? && t.reply.calls == []
    requires Judge(config, t.since, t.reply.content, t.n, t.past.verified) == Repairing
    ensures Decided(Compact, config, Settled(config, t, Repairing))
  {
    WantsMoreIs(config, t.since);
    assert Ungrounded(config, t.reply.content, t.past.verified);
    DismissedDecides(Compact, config, t, t.n.(repairs := t.n.repairs + 1), t.past.verified + 1, GroundingRepair);
  }

  lemma FollowUpDecides(config: Config, t: Turn)
    requires Kept(Compact, config, t) && t.exit.None? && t.reply.calls == []
    requires Judge(config, t.since, t.reply.content, t.n, t.past.verified) == FollowingUp
    ensures Decided(Compact, config, Settled(config, t, FollowingUp))
  {
    WantsMoreIs(config, t.since);
    DismissedDecides(Compact, config, t, t.n.(followUps := t.n.followUps + 1), t.past.verified, FollowUpGate);
  }

  lemma SettledDecides(config: Config, t: Turn, verdict: Verdict)
    requires Kept(Compact, config, t) && t.exit.None? && t.reply.calls == []
    requires verdict == Judge(config, t.since, t.reply.content, t.n, t.past.verified)
    ensures Decided(Compact, config, Settled(config, t, verdict))
  {
    match verdict
    case Repairing => RepairDecides(config, t);
    case FollowingUp => FollowUpDecides(config, t);
    case _ => EndingDecides(config, t, verdict);
  }

  lemma StepDecides(loop: Loop, config: Config, t: Turn)
    requires Kept(loop, config, t) && t.exit.None?
    ensures Decided(loop, config, Step(loop, config, t))
  {
    if t.reply.calls != [] {
      GuardedHopDecides(loop, config, t);
    } else if loop == Compact {
      SettledDecides(config, t, Judge(config, t.since, t.reply.content, t.n, t.past.verified));
    }
  }

  lemma SettledCountsVerdicts(config: Config, t: Turn, verdict: Verdict)
    requires t.exit.None? && t.past.verified == t.n.repairs
    ensures var r := Settled(config, t, verdict); r.exit.None? ==> r.past.verified == r.n.repairs
  {
  }

  lemma StepCountsVerdicts(loop: Loop, config: Config, t: Turn)
    requires t.exit.None? && t.past.verified == t.n.repairs
    ensures var r := Step(loop, config, t); r.exit.None? ==> r.past.verified == r.n.repairs
  {
    if t.reply.calls != [] {
      HopFrame(config, Counted(t));
      AfterHopShape(config, RunHop(config, Counted(t)), SameSignatureExit(loop));
    } else if loop == Compact {
      SettledCountsVerdicts(config, t, Judge(config, t.since, t.reply.content, t.n, t.past.verified));
    }
  }

  lemma {:induction false} LoopDecides(loop: Loop, config: Config, t: Turn)
    requires Kept(loop, config, t)
    ensures Kept(loop, config, Run(loop, config, t))
    decreases if t.exit.Some? then 0 else 1 + Fuel(config, t.n)
  {
    if t.exit.None? {
      StepUsesFuel(loop, config, t);
      StepCloses(loop, config, t);
      StepDecides(loop, config, t);
      StepCountsVerdicts(loop, config, t);
      LoopDecides(loop, config, Step(loop, config, t));
    }
  }

  /** Every run of either loop ends for the reason its exit names, and sends an answer without calls
      back only when a tool result asks for more or the verifier found it ungrounded. */
  lemma EveryExitHasItsReason(loop: Loop, config: Config, base: seq<Message>, first: Message)
    ensures Decided(loop, config, Run(loop, config, Start(base, first)))
  {
    var start := Start(base, first);
    assert Closed(start);
    LoopDecides(loop, config, start);
  }
}
