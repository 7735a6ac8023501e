/** What the tool messages of a run carry and what its records and counters say: each message is
    the result of a handler run, and each hop is told by its block. */
module ToolResults {
  import opened Wrappers
  import opened Text
  import opened ToolTurn
  import opened ToolTurnRuns

  /** Run `j` was made for `made` and gave `content`. */
  ghost predicate Gave(config: Config, ran: seq<Ran>, j: nat, made: Call, content: string) {
    && j < |ran| && ran[j].key == KeyOf(made) && ran[j].outcome == config.handlers(j, made)
    && ran[j].outcome in {Valid(content), Invalid(content)}
  }

  /** A call is answered by a run of its own, or of a call of the same name and arguments that was
      accepted and may be served again. */
  ghost predicate ServedBy(config: Config, ran: seq<Ran>, call: Call, content: string, j: nat, made: Call) {
    && Gave(config, ran, j, made, content)
    && (made == call
        || (config.policy.enabled && made.name == call.name && made.arguments == call.arguments
            && ran[j].outcome.Valid? && !(config.policy.rejectsEmpty && content == "")))
  }

  ghost predicate Served(config: Config, ran: seq<Ran>, call: Call, m: Message) {
    && m.role == Tool && m.callId == call.id && m.calls == []
    && exists j, made :: ServedBy(config, ran, call, m.content, j, made)
  }

  ghost predicate AllServed(config: Config, ran: seq<Ran>, calls: seq<Call>, answers: seq<Message>) {
    |answers| == |calls| && forall i :: 0 <= i < |answers| ==> Served(config, ran, calls[i], answers[i])
  }

  /** What is cached was accepted. */
  ghost predicate CacheGiven(config: Config, cache: map<Key, string>, ran: seq<Ran>) {
    forall key :: key in cache ==>
      exists j: nat, made: Call :: Gave(config, ran, j, made, cache[key]) && ran[j].outcome.Valid? && KeyOf(made) == key
  }

  function CountOf(ran: seq<Ran>, valid: bool): nat {
    if ran == [] then 0
    else
      var last := ran[|ran| - 1].outcome;
      CountOf(ran[..|ran| - 1], valid) + (if (if valid then last.Valid? else last.Invalid?) then 1 else 0)
  }

  lemma CountSnoc(ran: seq<Ran>, r: Ran, valid: bool)
    ensures CountOf(ran + [r], valid)
         == CountOf(ran, valid) + (if (if valid then r.outcome.Valid? else r.outcome.Invalid?) then 1 else 0)
  {
    assert (ran + [r])[..|ran|] == ran;
  }

  lemma ServedStays(config: Config, ran: seq<Ran>, more: seq<Ran>, call: Call, m: Message)
    requires Served(config, ran, call, m) && ran <= more
    ensures Served(config, more, call, m)
  {
    var j, made :| ServedBy(config, ran, call, m.content, j, made);
    assert ServedBy(config, more, call, m.content, j, made);
  }

  lemma AllServedStays(config: Config, ran: seq<Ran>, more: seq<Ran>, calls: seq<Call>, answers: seq<Message>)
    requires AllServed(config, ran, calls, answers) && ran <= more
    ensures AllServed(config, more, calls, answers)
  {
    forall i | 0 <= i < |answers| ensures Served(config, more, calls[i], answers[i]) {
      ServedStays(config, ran, more, calls[i], answers[i]);
    }
  }

  lemma CacheStays(config: Config, cache: map<Key, string>, ran: seq<Ran>, more: seq<Ran>)
    requires CacheGiven(config, cache, ran) && ran <= more
    ensures CacheGiven(config, cache, more)
  {
    forall key | key in cache
      ensures exists j: nat, made: Call ::
                Gave(config, more, j, made, cache[key]) && more[j].outcome.Valid? && KeyOf(made) == key
    {
      var j: nat, made :| Gave(config, ran, j, made, cache[key]) && ran[j].outcome.Valid? && KeyOf(made) == key;
      assert Gave(config, more, j, made, cache[key]);
    }
  }

  // ----- one call -----

  /** A call served from the cache. */
  lemma HitServes(config: Config, w: Work, call: Call)
    requires CacheGiven(config, w.cache, w.ran) && Hit(config.policy, w.cache, KeyOf(call))
    ensures Served(config, w.ran, call, ToolMessage(w.cache[KeyOf(call)], call))
  {
    var content := w.cache[KeyOf(call)];
    var j: nat, made :| Gave(config, w.ran, j, made, content) && w.ran[j].outcome.Valid? && KeyOf(made) == KeyOf(call);
    assert ServedBy(config, w.ran, call, content, j, made);
  }

  /** A call that is run. */
  lemma RunServes(config: Config, w: Work, call: Call, content: string)
    requires config.handlers(|w.ran|, call) in {Valid(content), Invalid(content)}
    ensures Served(config, w.ran + [Ran(KeyOf(call), config.handlers(|w.ran|, call))], call, ToolMessage(content, call))
  {
    var ran := w.ran + [Ran(KeyOf(call), config.handlers(|w.ran|, call))];
    assert ServedBy(config, ran, call, content, |w.ran|, call);
  }

  /** What one call adds. */
  lemma CallServes(config: Config, w: Work, call: Call)
    requires CacheGiven(config, w.cache, w.ran) && !w.failed
    ensures var r := DoCall(config, w, call);
            && w.ran <= r.ran
            && (r.failed ==> config.handlers(|w.ran|, call).Fail?)
            && (!r.failed ==>
                  |r.out| == |w.out| + 1 && r.out[..|w.out|] == w.out && Served(config, r.ran, call, r.out[|w.out|]))
  {
    var key := KeyOf(call);
    if Hit(config.policy, w.cache, key) {
      HitServes(config, w, call);
    } else {
      match config.handlers(|w.ran|, call)
      case Fail =>
      case Invalid(content) => RunServes(config, w, call, content);
      case Valid(content) => RunServes(config, w, call, content);
    }
  }

  lemma CallCaches(config: Config, w: Work, call: Call)
    requires CacheGiven(config, w.cache, w.ran)
    ensures var r := DoCall(config, w, call); CacheGiven(config, r.cache, r.ran)
  {
    var key, r := KeyOf(call), DoCall(config, w, call);
    if !Hit(config.policy, w.cache, key) {
      CacheStays(config, w.cache, w.ran, r.ran);
      var outcome := config.handlers(|w.ran|, call);
      if outcome.Valid? { assert Gave(config, r.ran, |w.ran|, call, outcome.content); }
    }
  }

  /** Each run is counted for what it gave; a call served from the cache counts as successful where
      the loop counts it. */
  lemma CallCounts(config: Config, w: Work, call: Call)
    ensures var r := DoCall(config, w, call);
            && r.invalid - w.invalid == CountOf(r.ran, false) - CountOf(w.ran, false)
            && r.successful - w.successful
               == CountOf(r.ran, true) - CountOf(w.ran, true)
                  + (if config.policy.countsHits && |r.ran| == |w.ran| then 1 else 0)
  {
    CountSnoc(w.ran, Ran(KeyOf(call), config.handlers(|w.ran|, call)), true);
    CountSnoc(w.ran, Ran(KeyOf(call), config.handlers(|w.ran|, call)), false);
  }

  // ----- one hop -----

  /** The calls of an answer, from any state of the work. */
  lemma {:induction false} CallsServe(config: Config, w: Work, calls: seq<Call>) returns (answers: seq<Message>)
    requires CacheGiven(config, w.cache, w.ran) && !w.failed
    ensures var r := DoCalls(config, w, calls);
            && w.ran <= r.ran && CacheGiven(config, r.cache, r.ran)
            && (!r.failed ==> r.out == w.out + answers && AllServed(config, r.ran, calls, answers))
    decreases calls
  {
    answers := [];
    if calls != [] {
      var next := DoCall(config, w, calls[0]);
      CallServes(config, w, calls[0]);
      CallCaches(config, w, calls[0]);
      if next.failed {
        assert DoCalls(config, next, calls[1..]) == next;
      } else {
        var rest := CallsServe(config, next, calls[1..]);
        answers := FirstServed(config, w, next, DoCalls(config, next, calls[1..]), calls, rest);
      }
    }
  }

  lemma OneMore(before: seq<Message>, longer: seq<Message>, rest: seq<Message>)
    requires |longer| == |before| + 1 && longer[..|before|] == before
    ensures longer + rest == before + ([longer[|before|]] + rest)
  {
    assert longer == before + [longer[|before|]];
  }

  lemma FirstServed(config: Config, w: Work, next: Work, r: Work, calls: seq<Call>, rest: seq<Message>)
    returns (answers: seq<Message>)
    requires calls != [] && next.ran <= r.ran && |next.out| == |w.out| + 1 && next.out[..|w.out|] == w.out
    requires Served(config, next.ran, calls[0], next.out[|w.out|])
    requires !r.failed ==> r.out == next.out + rest && AllServed(config, r.ran, calls[1..], rest)
    ensures !r.failed ==> r.out == w.out + answers && AllServed(config, r.ran, calls, answers)
  {
    var m := next.out[|w.out|];
    answers := [m] + rest;
    OneMore(w.out, next.out, rest);
    if !r.failed {
      ServedStays(config, next.ran, r.ran, calls[0], m);
      ConsServed(config, r.ran, calls, m, rest);
    }
  }

  lemma ConsServed(config: Config, ran: seq<Ran>, calls: seq<Call>, m: Message, rest: seq<Message>)
    requires calls != [] && Served(config, ran, calls[0], m) && AllServed(config, ran, calls[1..], rest)
    ensures AllServed(config, ran, calls, [m] + rest)
  {
    forall i | 0 <= i < |[m] + rest| ensures Served(config, ran, calls[i], ([m] + rest)[i]) {
      if i > 0 { assert Served(config, ran, calls[1..][i - 1], rest[i - 1]); }
    }
  }

  lemma {:induction false} CallsCount(config: Config, w: Work, calls: seq<Call>)
    requires w.invalid == CountOf(w.ran, false) && w.successful >= CountOf(w.ran, true)
    requires !config.policy.countsHits ==> w.successful == CountOf(w.ran, true)
    ensures var r := DoCalls(config, w, calls);
            && r.invalid == CountOf(r.ran, false) && r.successful >= CountOf(r.ran, true)
            && (!config.policy.countsHits ==> r.successful == CountOf(r.ran, true))
            && (config.policy.countsHits && !r.failed && !w.failed ==>
                  r.successful + r.invalid == w.successful + w.invalid + |calls|)
    decreases calls
  {
    if calls != [] && !w.failed {
      CallCounts(config, w, calls[0]);
      CallsCount(config, DoCall(config, w, calls[0]), calls[1..]);
    }
  }

  // ----- the records -----

  /** What is recorded of a hop is what its block shows: the calls' signature and number, and that
      it made progress exactly when a tool message indicates it. */
  ghost predicate HopTold(config: Config, b: Block, h: Hop) {
    && h.signature == Signature(b.reply.calls) && h.calls == |b.reply.calls|
    && (h.progress <==> exists m :: m in b.answers && config.progress(m.content))
  }

  /** One hop for each block with calls, in order. */
  ghost predicate HopsTold(config: Config, blocks: seq<Block>, hops: seq<Hop>) {
    if blocks == [] then hops == []
    else
      var last := blocks[|blocks| - 1];
      if last.reply.calls == [] then HopsTold(config, blocks[..|blocks| - 1], hops)
      else
        && hops != [] && HopTold(config, last, hops[|hops| - 1])
        && HopsTold(config, blocks[..|blocks| - 1], hops[..|hops| - 1])
  }

  /** All that is recorded of a run. */
  ghost predicate Told(config: Config, t: Turn) {
    && (forall b :: b in t.past.blocks ==> AllServed(config, t.past.ran, b.reply.calls, b.answers))
    && CacheGiven(config, t.cache, t.past.ran)
    && HopsTold(config, t.past.blocks, t.past.hops)
    && t.n.invalid == CountOf(t.past.ran, false) && t.n.successful >= CountOf(t.past.ran, true)
    && (!config.policy.countsHits ==> t.n.successful == CountOf(t.past.ran, true))
  }

  lemma BlocksStay(config: Config, blocks: seq<Block>, ran: seq<Ran>, more: seq<Ran>)
    requires ran <= more && forall b :: b in blocks ==> AllServed(config, ran, b.reply.calls, b.answers)
    ensures forall b :: b in blocks ==> AllServed(config, more, b.reply.calls, b.answers)
  {
    forall b | b in blocks ensures AllServed(config, more, b.reply.calls, b.answers) {
      AllServedStays(config, ran, more, b.reply.calls, b.answers);
    }
  }

  lemma BlockAdds(config: Config, blocks: seq<Block>, hops: seq<Hop>, b: Block, h: Hop)
    requires HopsTold(config, blocks, hops)
    ensures b.reply.calls == [] ==> HopsTold(config, blocks + [b], hops)
    ensures b.reply.calls != [] && HopTold(config, b, h) ==> HopsTold(config, blocks + [b], hops + [h])
  {
    assert (blocks + [b])[..|blocks|] == blocks && (hops + [h])[..|hops|] == hops;
  }

  lemma ProgressTold(config: Config, answers: seq<Message>)
    requires forall i :: 0 <= i < |answers| ==> answers[i].role == Tool
    ensures AnyProgress(config.progress, answers) <==> exists m :: m in answers && config.progress(m.content)
  {
    forall m | m in answers ensures m.role == Tool {
      var i :| 0 <= i < |answers| && answers[i] == m;
    }
  }

  lemma HopTells(config: Config, t: Turn)
    requires Told(config, t) && t.reply.calls != []
    ensures Told(config, RunHop(config, t))
  {
    var w := DoCalls(config, WorkOf(t), t.reply.calls);
    var answers := CallsServe(config, WorkOf(t), t.reply.calls);
    CallsCount(config, WorkOf(t), t.reply.calls);
    BlocksStay(config, t.past.blocks, t.past.ran, w.ran);
    if !w.failed {
      assert w.out == answers;
      HopDoneTells(config, t, w);
    }
  }

  lemma HopDoneTells(config: Config, t: Turn, w: Work)
    requires t.reply.calls != [] && !w.failed && t.n.invalid <= w.invalid
    requires HopsTold(config, t.past.blocks, t.past.hops)
    requires forall b :: b in t.past.blocks ==> AllServed(config, w.ran, b.reply.calls, b.answers)
    requires AllServed(config, w.ran, t.reply.calls, w.out) && CacheGiven(config, w.cache, w.ran)
    requires w.invalid == CountOf(w.ran, false) && w.successful >= CountOf(w.ran, true)
    requires !config.policy.countsHits ==> w.successful == CountOf(w.ran, true)
    ensures Told(config, HopDone(config, t, w))
  {
    var b := Block(t.reply, w.out);
    var h := HopDone(config, t, w).past.hops[|t.past.hops|];
    ProgressTold(config, w.out);
    BlockAdds(config, t.past.blocks, t.past.hops, b, h);
  }

  lemma SendTells(config: Config, t: Turn, ask: Ask)
    requires Told(config, t)
    ensures Told(config, Send(config, t, ask))
  {
  }

  lemma GuardedHopTells(config: Config, t: Turn, e: Exit)
    requires Told(config, t) && t.reply.calls != []
    ensures Told(config, GuardedHop(config, t, e))
  {
    var c := Counted(t);
    if c.n.loopCount <= config.guard.maxHops {
      HopTells(config, c);
      AfterHopShape(config, RunHop(config, c), e);
      SendTells(config, RunHop(config, c), AfterTools);
    }
  }

  lemma DismissedTells(config: Config, t: Turn, n: Counters, verified: nat, ask: Ask)
    requires Told(config, t) && t.reply.calls == [] && n.invalid == t.n.invalid && n.successful == t.n.successful
    ensures Told(config, Send(config, Dismissed(t, n, verified), ask))
  {
    var b := Block(t.reply, []);
    BlockAdds(config, t.past.blocks, t.past.hops, b, Hop("", false, 0, 0));
    assert AllServed(config, t.past.ran, b.reply.calls, b.answers);
    SendTells(config, Dismissed(t, n, verified), ask);
  }

  lemma SettledTells(config: Config, t: Turn, verdict: Verdict)
    requires Told(config, t) && t.reply.calls == []
    ensures Told(config, Settled(config, t, verdict))
  {
    match verdict
    case Repairing => DismissedTells(config, t, t.n.(repairs := t.n.repairs + 1), t.past.verified + 1, GroundingRepair);
    case FollowingUp => DismissedTells(config, t, t.n.(followUps := t.n.followUps + 1), t.past.verified, FollowUpGate);
    case _ =>
  }

  lemma StepTells(loop: Loop, config: Config, t: Turn)
    requires Told(config, t)
    ensures Told(config, Step(loop, config, t))
  {
    if t.reply.calls != [] {
      GuardedHopTells(config, t, SameSignatureExit(loop));
    } else if loop == Compact {
      SettledTells(config, t, Judge(config, t.since, t.reply.content, t.n, t.past.verified));
    }
  }

  lemma {:induction false} LoopTells(loop: Loop, config: Config, t: Turn)
    requires Told(config, t)
    ensures Told(config, Run(loop, config, t))
    decreases if t.exit.Some? then 0 else 1 + Fuel(config, t.n)
  {
    if t.exit.None? {
      StepUsesFuel(loop, config, t);
      StepTells(loop, config, t);
      LoopTells(loop, config, Step(loop, config, t));
    }
  }

  /** In every run of either loop each tool message carries what its handler returned for that call,
      or for an earlier one of the same name and arguments; hops and counters are those of the blocks
      and the handler runs. */
  lemma EveryResultIsGiven(loop: Loop, config: Config, base: seq<Message>, first: Message)
    ensures Told(config, Run(loop, config, Start(base, first)))
  {
    LoopTells(loop, config, Start(base, first));
  }
}
