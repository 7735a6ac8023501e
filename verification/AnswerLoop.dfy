/** The two loops as the program runs them: counters, cache and transcript updated in
    place, proved to compute the turn of ToolTurn and its outcome. */
module AnswerLoop {
  import opened Wrappers
  import opened Text
  import opened ToolTurn
  import opened ToolTurnBounds
  import opened AnswerTurn

  /** One call, from the cache or by its handler. */
  method ExecuteCall(config: Config, start: Work, call: Call) returns (w: Work)
    ensures w == DoCall(config, start, call)
  {
    var key := KeyOf(call);
    w := start;
    if config.policy.enabled && key in w.cache {
      var cached := w.cache[key];
      if !(config.policy.rejectsEmpty && cached == "") {
        w := w.(out := w.out + [ToolMessage(cached, call)]);
        if config.policy.countsHits { w := w.(successful := w.successful + 1); }
        return;
      }
    }
    var outcome := config.handlers(|w.ran|, call);
    w := w.(cache := w.cache - {key}, ran := w.ran + [Ran(key, outcome)]);
    match outcome {
      case Fail => w := w.(failed := true);
      case Invalid(content) => w := w.(invalid := w.invalid + 1, out := w.out + [ToolMessage(content, call)]);
      case Valid(content) =>
        w := w.(cache := w.cache[key := content], successful := w.successful + 1,
                out := w.out + [ToolMessage(content, call)]);
    }
  }

  /** All calls of an answer; a handler's failure ends it. */
  method ExecuteCalls(config: Config, start: Work, calls: seq<Call>) returns (w: Work)
    requires !start.failed
    ensures w == DoCalls(config, start, calls)
  {
    w := start;
    for i := 0 to |calls|
      invariant !w.failed && DoCalls(config, start, calls) == DoCalls(config, w, calls[i..])
    {
      assert calls[i..][1..] == calls[i + 1..];
      w := ExecuteCall(config, w, calls[i]);
      if w.failed { return; }
    }
  }

  /** The counters after a processed hop. */
  method CountHop(before: Counters, w: Work, signature: string, progress: bool) returns (n: Counters)
    ensures n == Count(before, w, signature, progress)
  {
    n := before.(invalid := w.invalid, successful := w.successful);
    if progress {
      n := n.(consecutive := 0, repeated := 0);
    } else {
      n := n.(consecutive := n.consecutive + 1);
      if signature != "" && signature == n.lastSignature {
        n := n.(repeated := n.repeated + 1);
      } else {
        n := n.(repeated := 1);
      }
    }
    n := n.(lastSignature := signature);
  }

  method HasProgress(progress: string -> bool, messages: seq<Message>) returns (found: bool)
    ensures found == AnyProgress(progress, messages)
  {
    for i := 0 to |messages|
      invariant forall k :: 0 <= k < i ==> !(messages[k].role == Tool && progress(messages[k].content))
    {
      if messages[i].role == Tool && progress(messages[i].content) { return true; }
    }
    return false;
  }

  /** The latest tool message, searched backwards. */
  method FindLatestTool(messages: seq<Message>) returns (tool: Option<Message>)
    ensures tool == LatestTool(messages)
  {
    var i := |messages|;
    assert messages[..i] == messages;
    while i > 0
      invariant 0 <= i <= |messages| && LatestTool(messages) == LatestTool(messages[..i])
    {
      i := i - 1;
      assert messages[..i + 1][..i] == messages[..i];
      if messages[i].role == Tool { return Some(messages[i]); }
    }
    return None;
  }

  class ToolLoop {
    const config: Config
    const base: seq<Message>
    var since: seq<Message>
    var reply: Message
    var cache: map<Key, string>
    var n: Counters
    var past: History
    var exit: Option<Exit>

    function State(): Turn
      reads this
    {
      Turn(base, since, reply, cache, n, past, exit)
    }

    constructor (config: Config, base: seq<Message>, reply: Message)
      ensures this.config == config && State() == Start(base, reply)
    {
      this.config, this.base, this.reply := config, base, reply;
      since, cache, exit, n, past := [reply], map[], None, ZERO, History([], [], [], 1, 0);
    }

    /** One hop: the calls, the transcript and the no-progress counters. */
    method ProcessHop()
      modifies this
      ensures State() == RunHop(config, old(State()))
    {
      var w := ExecuteCalls(config, WorkOf(State()), reply.calls);
      cache, past := w.cache, past.(ran := w.ran);
      if w.failed {
        n, exit := n.(invalid := w.invalid, successful := w.successful), Some(HandlerFailed);
      } else {
        RecordHop(w);
      }
    }

    /** The answers of a hop join the transcript, and the hop is counted. */
    method RecordHop(w: Work)
      requires n.invalid <= w.invalid && !w.failed && cache == w.cache && past.ran == w.ran
      modifies this
      ensures State() == HopDone(config, old(State()), w)
    {
      var signature := Signature(reply.calls);
      var progress := HasProgress(config.progress, w.out);
      var hop := Hop(signature, progress, |reply.calls|, w.invalid - n.invalid);
      n := CountHop(n, w, signature, progress);
      since := since + w.out;
      past := past.(hops := past.hops + [hop], blocks := past.blocks + [Block(reply, w.out)]);
    }

    method SendNext(ask: Ask)
      modifies this
      ensures State() == Send(config, old(State()), ask)
    {
      var answer := config.model(past.sends, base + since, ask);
      past := past.(sends := past.sends + 1);
      match answer {
        case None => exit := Some(SendFailed);
        case Some(message) => reply, since := message, since + [message];
      }
    }

    /** The guards after a hop, then the next answer. */
    method GuardHop(sameSignatureExit: Exit)
      modifies this
      ensures State() == AfterHop(config, old(State()), sameSignatureExit)
    {
      if exit.None? {
        if n.invalid >= config.guard.maxToolErrors && n.successful == 0 {
          exit := Some(ErrorStreak);
        } else if n.repeated >= config.guard.maxSameSignature {
          exit := Some(sameSignatureExit);
        } else if n.consecutive >= config.guard.maxNoProgress {
          exit := Some(NoProgress);
        } else {
          SendNext(AfterTools);
        }
      }
    }

    /** The tool part of an iteration. */
    method HandleCalls(sameSignatureExit: Exit)
      modifies this
      ensures State() == GuardedHop(config, old(State()), sameSignatureExit)
    {
      n := n.(loopCount := n.loopCount + 1);
      assert State() == Counted(old(State()));
      if n.loopCount > config.guard.maxHops {
        exit := Some(HopLimit);
      } else {
        ProcessHop();
        GuardHop(sameSignatureExit);
      }
    }

    /** The compact loop's treatment of an answer without calls. */
    method HandleAnswer()
      modifies this
      ensures State() == Settle(config, old(State()))
    {
      var tool := FindLatestTool(since);
      if tool.None? {
        if config.repair.enabled && n.repairs < config.repair.maxAttempts && !Blank(reply.content) {
          var needed := config.repair.needed(past.verified, reply.content);
          past := past.(verified := past.verified + 1);
          if needed {
            n, past := n.(repairs := n.repairs + 1), past.(blocks := past.blocks + [Block(reply, [])]);
            SendNext(GroundingRepair);
            return;
          }
        }
        exit := Some(Finished);
      } else if !config.needsFollowUp(tool.value.content) {
        exit := Some(Finished);
      } else if n.followUps >= MAX_FOLLOW_UPS {
        exit := Some(FollowUpExhausted);
      } else {
        n, past := n.(followUps := n.followUps + 1), past.(blocks := past.blocks + [Block(reply, [])]);
        SendNext(FollowUpGate);
      }
    }

    method RunLegacy()
      modifies this
      ensures State() == Run(Legacy, config, old(State()))
    {
      while exit.None?
        invariant Run(Legacy, config, State()) == Run(Legacy, config, old(State()))
        decreases if exit.Some? then 0 else 1 + Fuel(config, n)
      {
        StepUsesFuel(Legacy, config, State());
        if reply.calls == [] {
          exit := Some(Finished);
        } else {
          HandleCalls(SameSignature);
        }
      }
    }

    method RunCompact()
      modifies this
      ensures State() == Run(Compact, config, old(State()))
    {
      while exit.None?
        invariant Run(Compact, config, State()) == Run(Compact, config, old(State()))
        decreases if exit.Some? then 0 else 1 + Fuel(config, n)
      {
        StepUsesFuel(Compact, config, State());
        if reply.calls == [] {
          HandleAnswer();
        } else {
          HandleCalls(NoProgress);
        }
      }
    }

    /** A tripped guard closes the turn. */
    method CloseGuarded(ending: Ending, tripped: Exit, fallback: Notice) returns (o: Outcome)
      modifies this
      ensures o == Guarded(ending, old(State()), tripped, fallback) && past == old(past)
    {
      var processed := ending.takeover(tripped);
      reply := Say(if processed.Some? then EscalationText(ending, processed.value) else ending.wording(fallback));
      since := since + [reply];
      return Answer(reply, since);
    }

    /** The format re-send and the last check of the answer. */
    method PresentReply(ending: Ending, fallback: Notice) returns (o: Outcome)
      modifies this
      ensures o == PresentFormatted(config, ending, old(State()), fallback) && past.sends <= old(past.sends) + 1
    {
      if !ending.formatted(reply.content) {
        since, exit := since + [Message(User, ending.formatRequest, "", [])], None;
        SendNext(Reformat);
        if exit.Some? { return Failed; }
      }
      if !Presentable(reply) {
        reply := Say(ending.wording(fallback));
        since := since + [reply];
      }
      return Answer(reply, since);
    }

    /** The confirmation guard overwrites the last message. */
    method OverrideReply(ending: Ending)
      requires since != []
      modifies this
      ensures State() == Overridden(ending, old(State()))
    {
      var demanded := Demanded(ending, base + since);
      if demanded.Some? && reply.role == Assistant && reply.calls == [] {
        reply := Say(ConfirmationText(ending, demanded.value));
        since := since[..|since| - 1] + [reply];
      }
    }

    method FinishLegacy(ending: Ending) returns (o: Outcome)
      requires exit.Some? && since != []
      modifies this
      ensures o == LegacyOutcome(config, ending, old(State())) && past.sends <= old(past.sends) + 1
    {
      var hasResult := n.successful > 0;
      match exit.value {
        case SendFailed => o := Failed;
        case HandlerFailed => o := Failed;
        case HopLimit => o := CloseGuarded(ending, HopLimit, LimitNotice(hasResult));
        case ErrorStreak => o := CloseGuarded(ending, ErrorStreak, Safety);
        case SameSignature => o := CloseGuarded(ending, SameSignature, NoProgressNotice(hasResult));
        case NoProgress => o := CloseGuarded(ending, NoProgress, NoProgressNotice(hasResult));
        case _ =>
          if n.loopCount == 0 && reply.role == Assistant {
            o := PresentReply(ending, Safety);
          } else {
            OverrideReply(ending);
            if n.invalid > 0 && n.successful == 0 && reply.role == Assistant && reply.calls == [] {
              reply := Say(ending.wording(Safety));
              since := since + [reply];
              o := Answer(reply, since);
            } else {
              o := PresentReply(ending, NoProgressNotice(n.successful > 0));
            }
          }
      }
    }

    method FinishCompact(ending: Ending) returns (o: Outcome)
      requires exit.Some?
      modifies this
      ensures o == CompactOutcome(config, ending, old(State())) && past.sends == old(past.sends)
    {
      var hasResult := n.successful > 0;
      match exit.value {
        case SendFailed => o := Failed;
        case HandlerFailed => o := Failed;
        case HopLimit => o := CloseGuarded(ending, HopLimit, LimitWithResult);
        case ErrorStreak => o := CloseGuarded(ending, ErrorStreak, Safety);
        case SameSignature => o := CloseGuarded(ending, NoProgress, NoProgressNotice(hasResult));
        case NoProgress => o := CloseGuarded(ending, NoProgress, NoProgressNotice(hasResult));
        case FollowUpExhausted => o := Close(since, ExhaustedText(ending, since));
        case Finished =>
          if Presentable(reply) {
            o := Answer(reply, since);
          } else {
            o := Close(since, ending.wording(NoProgressNotice(hasResult)));
          }
      }
    }
  }

  /** `execLegacy` from its first answer on; `sends` counts that answer and every one
      asked for later, the format re-send included. */
  method ExecLegacy(config: Config, ending: Ending, base: seq<Message>, reply: Message) returns (o: Outcome, sends: nat)
    ensures o == Turned(Legacy, config.(policy := CachePolicy(true, true, false)), ending, base, reply)
    ensures sends <= 2 + Max0(config.guard.maxHops)
  {
    var l := new ToolLoop(config.(policy := LEGACY_CACHE), base, reply);
    l.RunLegacy();
    SinceGrows(Legacy, l.config, Start(base, reply));
    TurnIsBounded(Legacy, l.config, base, reply);
    o := l.FinishLegacy(ending);
    sends := l.past.sends;
  }

  /** `runCompactAnswerLoop` from its first answer on. */
  method RunCompactAnswerLoop(config: Config, ending: Ending, base: seq<Message>, reply: Message)
    returns (o: Outcome, sends: nat)
    ensures o == Turned(Compact, config.(policy := CachePolicy(true, false, true)), ending, base, reply)
    ensures sends <= 1 + Max0(config.guard.maxHops) + MAX_FOLLOW_UPS + Max0(config.repair.maxAttempts)
  {
    var l := new ToolLoop(config.(policy := COMPACT_CACHE), base, reply);
    l.RunCompact();
    SinceGrows(Compact, l.config, Start(base, reply));
    TurnIsBounded(Compact, l.config, base, reply);
    o := l.FinishCompact(ending);
    sends := l.past.sends;
  }
}
