/** What the model is shown and what the tools answered: the blocks of a run replayed against
    the model and the handlers. */
module ToolReplay {
  import opened Wrappers
  import opened Text
  import opened ToolTurn
  import opened ToolTurnRuns

  // ----- the conversation -----

  ghost predicate SomeTool(messages: seq<Message>) {
    exists m :: m in messages && m.role == Tool
  }

  /** What the model is asked after the closed blocks: to go on after tools; else, its answer having
      called none, to follow up on a tool result or to mend an ungrounded answer. */
  ghost function AskAfter(blocks: seq<Block>): Ask
    requires blocks != []
  {
    if blocks[|blocks| - 1].reply.calls != [] then AfterTools
    else if SomeTool(Flatten(blocks)) then FollowUpGate
    else GroundingRepair
  }

  /** What the model says to the whole conversation so far. */
  ghost function SaysAfter(config: Config, base: seq<Message>, blocks: seq<Block>): Option<Message>
    requires blocks != []
  {
    config.model(|blocks|, base + Flatten(blocks), AskAfter(blocks))
  }

  /** The answer at the head of block `k`. */
  ghost predicate SaidAt(config: Config, base: seq<Message>, first: Message, blocks: seq<Block>, k: nat)
    requires k < |blocks|
  {
    if k == 0 then blocks[0].reply == first else SaysAfter(config, base, blocks[..k]) == Some(blocks[k].reply)
  }

  /** Every answer is what the model says when shown the conversation before the turn and all
      that the turn added since. */
  ghost predicate Replayed(config: Config, base: seq<Message>, first: Message, t: Turn) {
    && t.base == base
    && (forall k :: 0 <= k < |t.past.blocks| ==> SaidAt(config, base, first, t.past.blocks, k))
    && var blocks := t.past.blocks;
       if Open(t) then
         && t.past.sends == |blocks| + 1
         && if blocks == [] then t.reply == first else SaysAfter(config, base, blocks) == Some(t.reply)
       else
         && blocks != [] && t.reply == blocks[|blocks| - 1].reply
         && if t.exit == Some(SendFailed) then t.past.sends == |blocks| + 1 && SaysAfter(config, base, blocks) == None
            else t.past.sends == |blocks|
  }

  lemma SaidStays(config: Config, base: seq<Message>, first: Message, blocks: seq<Block>, b: Block)
    requires forall k :: 0 <= k < |blocks| ==> SaidAt(config, base, first, blocks, k)
    requires if blocks == [] then b.reply == first else SaysAfter(config, base, blocks) == Some(b.reply)
    ensures forall k :: 0 <= k < |blocks + [b]| ==> SaidAt(config, base, first, blocks + [b], k)
  {
    var all := blocks + [b];
    forall k | 0 <= k < |all| ensures SaidAt(config, base, first, all, k) {
      assert all[..k] == blocks[..k];
      if k < |blocks| {
        assert SaidAt(config, base, first, blocks, k) && all[k] == blocks[k];
      } else {
        assert blocks[..k] == blocks && all[k] == b;
      }
    }
  }

  /** A block more, before anything is sent. */
  ghost predicate Between(config: Config, base: seq<Message>, first: Message, t: Turn) {
    && t.base == base && t.exit.None? && t.past.blocks != [] && t.past.sends == |t.past.blocks|
    && t.since == Flatten(t.past.blocks) && t.reply == t.past.blocks[|t.past.blocks| - 1].reply
    && forall k :: 0 <= k < |t.past.blocks| ==> SaidAt(config, base, first, t.past.blocks, k)
  }

  lemma SendReplays(config: Config, base: seq<Message>, first: Message, t: Turn, ask: Ask)
    requires Between(config, base, first, t) && ask == AskAfter(t.past.blocks)
    ensures Replayed(config, base, first, Send(config, t, ask))
  {
  }

  lemma HopReplays(config: Config, base: seq<Message>, first: Message, t: Turn)
    requires Replayed(config, base, first, t) && Closed(t) && t.exit.None?
    ensures var h := RunHop(config, t);
            if h.exit.None? then Between(config, base, first, h) && h.past.blocks[|h.past.blocks| - 1].reply == t.reply
            else Replayed(config, base, first, h)
  {
    HopCloses(config, t);
    var w := DoCalls(config, WorkOf(t), t.reply.calls);
    if !w.failed { SaidStays(config, base, first, t.past.blocks, Block(t.reply, w.out)); }
  }

  /** Leaving the loop with an answer that is not closed. */
  lemma LeavingReplays(config: Config, base: seq<Message>, first: Message, t: Turn, end: Turn)
    requires Replayed(config, base, first, t) && t.exit.None? && Open(end)
    requires end.base == t.base && end.reply == t.reply
    requires end.past.blocks == t.past.blocks && end.past.sends == t.past.sends
    ensures Replayed(config, base, first, end)
  {
  }

  lemma AfterHopReplays(config: Config, base: seq<Message>, first: Message, h: Turn, e: Exit)
    requires if h.exit.None? then Between(config, base, first, h) && AskAfter(h.past.blocks) == AfterTools
             else Replayed(config, base, first, h)
    requires e in {SameSignature, NoProgress}
    ensures Replayed(config, base, first, AfterHop(config, h, e))
  {
    AfterHopShape(config, h, e);
    if h.exit.None? { SendReplays(config, base, first, h, AfterTools); }
  }

  lemma GuardedHopReplays(config: Config, base: seq<Message>, first: Message, t: Turn, e: Exit)
    requires Replayed(config, base, first, t) && Closed(t) && t.exit.None? && t.reply.calls != []
    requires e in {SameSignature, NoProgress}
    ensures Replayed(config, base, first, GuardedHop(config, t, e))
  {
    var c := Counted(t);
    LeavingReplays(config, base, first, t, c);
    if c.n.loopCount > config.guard.maxHops {
      LeavingReplays(config, base, first, t, c.(exit := Some(HopLimit)));
    } else {
      HopReplays(config, base, first, c);
      AfterHopReplays(config, base, first, RunHop(config, c), e);
    }
  }

  lemma DismissedReplays(config: Config, base: seq<Message>, first: Message, t: Turn, n: Counters, verified: nat,
                         ask: Ask)
    requires Replayed(config, base, first, t) && Closed(t) && t.exit.None? && t.reply.calls == []
    requires ask == if SomeTool(t.since) then FollowUpGate else GroundingRepair
    ensures Replayed(config, base, first, Send(config, Dismissed(t, n, verified), ask))
  {
    DismissedCloses(t, n, verified);
    SaidStays(config, base, first, t.past.blocks, Block(t.reply, []));
    SendReplays(config, base, first, Dismissed(t, n, verified), ask);
  }

  lemma {:induction false} LatestToolFinds(messages: seq<Message>)
    ensures LatestTool(messages).Some? <==> SomeTool(messages)
    ensures LatestTool(messages).Some? ==> exists i :: 0 <= i < |messages| && messages[i] == LatestTool(messages).value
                                                       && messages[i].role == Tool
                                                       && forall j :: i < j < |messages| ==> messages[j].role != Tool
  {
    if messages != [] {
      var n := |messages| - 1;
      LatestToolFinds(messages[..n]);
      assert messages == messages[..n] + [messages[n]];
      assert messages[n] in messages;
      if messages[n].role != Tool && LatestTool(messages).Some? {
        var i :| 0 <= i < n && messages[..n][i] == LatestTool(messages).value && messages[..n][i].role == Tool
                 && forall j :: i < j < n ==> messages[..n][j].role != Tool;
        assert messages[i] == LatestTool(messages).value;
      }
    }
  }

  lemma SettleReplays(config: Config, base: seq<Message>, first: Message, t: Turn)
    requires Replayed(config, base, first, t) && Closed(t) && t.exit.None? && t.reply.calls == []
    ensures Replayed(config, base, first, Settle(config, t))
  {
    var verdict := Judge(config, t.since, t.reply.content, t.n, t.past.verified);
    assert verdict in {Repairing, FollowingUp} ==> (verdict == FollowingUp <==> SomeTool(t.since)) by {
      LatestToolFinds(t.since);
    }
    assert Settle(config, t) == Settled(config, t, verdict);
    SettledReplays(config, base, first, t, verdict);
  }

  lemma SettledReplays(config: Config, base: seq<Message>, first: Message, t: Turn, verdict: Verdict)
    requires Replayed(config, base, first, t) && Closed(t) && t.exit.None? && t.reply.calls == []
    requires verdict in {Repairing, FollowingUp} ==> (verdict == FollowingUp <==> SomeTool(t.since))
    ensures Replayed(config, base, first, Settled(config, t, verdict))
  {
    match verdict
    case Repairing =>
      DismissedReplays(config, base, first, t, t.n.(repairs := t.n.repairs + 1), t.past.verified + 1, GroundingRepair);
    case FollowingUp =>
      DismissedReplays(config, base, first, t, t.n.(followUps := t.n.followUps + 1), t.past.verified, FollowUpGate);
    case _ =>
      LeavingReplays(config, base, first, t, Settled(config, t, verdict));
  }

  lemma StepReplays(loop: Loop, config: Config, base: seq<Message>, first: Message, t: Turn)
    requires Replayed(config, base, first, t) && Closed(t) && t.exit.None?
    ensures Replayed(config, base, first, Step(loop, config, t))
  {
    if t.reply.calls != [] {
      GuardedHopReplays(config, base, first, t, SameSignatureExit(loop));
    } else if loop == Compact {
      SettleReplays(config, base, first, t);
    }
  }

  lemma {:induction false} LoopReplays(loop: Loop, config: Config, base: seq<Message>, first: Message, t: Turn)
    requires Replayed(config, base, first, t) && Closed(t)
    ensures Replayed(config, base, first, Run(loop, config, t))
    decreases if t.exit.Some? then 0 else 1 + Fuel(config, t.n)
  {
    if t.exit.None? {
      StepUsesFuel(loop, config, t);
      StepCloses(loop, config, t);
      StepReplays(loop, config, base, first, t);
      LoopReplays(loop, config, base, first, Step(loop, config, t));
    }
  }

  /** In every run of either loop, the model was shown the whole conversation each time: what went
      before the turn, and every answer of the turn with its tool messages. */
  lemma EveryAnswerIsSaid(loop: Loop, config: Config, base: seq<Message>, first: Message)
    ensures Replayed(config, base, first, Run(loop, config, Start(base, first)))
  {
    var start := Start(base, first);
    assert Closed(start) && Flatten([]) == [];
    LoopReplays(loop, config, base, first, start);
  }
}
