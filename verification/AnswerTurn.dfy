/** How a turn ends once its loop has: fallbacks, escalation, the confirmation guard
    and the format re-send; and what the user gets in every run. */
module AnswerTurn {
  import opened Wrappers
  import opened Text
  import opened ToolTurn
  import ToolCache

  /** The fixed replies, by occasion. */
  datatype Notice = Safety | BestSoFar | LimitWithResult | LimitWithoutResult | NotNow | Confirm | Forwarded

  type Wording = s: string | !Blank(s) witness "-"

  /** What the endings ask of the outside: the wording of the fixed replies, what the
      takeover tool answers a tripped guard (None without such a tool, or when it fails),
      a text without its thinking tags, the response format, the confirmation a tool
      status demands and the message of a tool status. */
  datatype Ending = Ending(wording: Notice -> Wording, takeover: Exit -> Option<string>, untagged: string -> string,
                           formatted: string -> bool, formatRequest: string,
                           confirmation: string -> Option<string>, statusMessage: string -> string)

  /** An answer without its thinking tags, unless nothing else is left. */
  function Sanitize(ending: Ending, raw: string): string {
    var trimmed := Trim(raw);
    var cleaned := Trim(ending.untagged(trimmed));
    if trimmed == "" || cleaned == "" then trimmed else cleaned
  }

  /** What an escalated turn says; never blank, whatever the takeover tool returned. */
  function EscalationText(ending: Ending, processed: string): (r: string)
    ensures !Blank(r)
  {
    var content := Trim(processed);
    Sanitize(ending, if content == "" then ending.wording(Forwarded) else content)
  }

  /** The answer, and what the turn added to the conversation after the user's message. */
  datatype Outcome = Failed | Answer(message: Message, added: seq<Message>)

  function Say(content: string): Message {
    Message(Assistant, content, "", [])
  }

  function NoProgressNotice(hasResult: bool): Notice {
    if hasResult then BestSoFar else Safety
  }

  function LimitNotice(hasResult: bool): Notice {
    if hasResult then LimitWithResult else LimitWithoutResult
  }

  /** An answer a user can be shown. */
  predicate Presentable(m: Message) {
    m.role == Assistant && m.calls == [] && !Blank(m.content)
  }

  /** The turn closes with an answer of its own. */
  function Close(since: seq<Message>, content: string): Outcome {
    Answer(Say(content), since + [Say(content)])
  }

  /** A tripped guard: the escalation, or a fallback text. */
  function Guarded(ending: Ending, t: Turn, exit: Exit, fallback: Notice): Outcome {
    Close(t.since, GuardText(ending, exit, fallback))
  }

  function GuardText(ending: Ending, exit: Exit, fallback: Notice): (r: string)
    ensures !Blank(r)
  {
    match ending.takeover(exit)
    case Some(processed) => EscalationText(ending, processed)
    case None => ending.wording(fallback)
  }

  function Present(ending: Ending, since: seq<Message>, reply: Message, fallback: Notice): Outcome {
    if Presentable(reply) then Answer(reply, since) else Close(since, ending.wording(fallback))
  }

  /** The answer is asked for once more when its format is wrong. */
  function PresentFormatted(config: Config, ending: Ending, t: Turn, fallback: Notice): Outcome {
    if ending.formatted(t.reply.content) then Present(ending, t.since, t.reply, fallback)
    else
      var request := Message(User, ending.formatRequest, "", []);
      var t1 := Send(config, t.(since := t.since + [request], exit := None), Reformat);
      if t1.exit.Some? then Failed else Present(ending, t1.since, t1.reply, fallback)
  }

  /** The confirmation the latest tool result of the whole conversation demands. */
  function Demanded(ending: Ending, messages: seq<Message>): Option<string> {
    match LatestTool(messages)
    case None => None
    case Some(tool) => ending.confirmation(tool.content)
  }

  /** The words of a demanded confirmation. */
  function ConfirmationText(ending: Ending, message: string): (r: string)
    ensures !Blank(r)
  {
    if Blank(message) then ending.wording(Confirm) else message
  }

  /** An answer is replaced by the confirmation a tool demands. */
  function Overridden(ending: Ending, t: Turn): Turn
    requires t.since != []
  {
    match Demanded(ending, t.base + t.since)
    case None => t
    case Some(message) =>
      if t.reply.role != Assistant || t.reply.calls != [] then t
      else
        var reply := Say(ConfirmationText(ending, message));
        t.(reply := reply, since := t.since[..|t.since| - 1] + [reply])
  }

  function LegacyOutcome(config: Config, ending: Ending, t: Turn): Outcome
    requires t.exit.Some? && t.since != []
  {
    match t.exit.value
    case SendFailed | HandlerFailed => Failed
    case HopLimit => Guarded(ending, t, HopLimit, LimitNotice(t.n.successful > 0))
    case ErrorStreak => Guarded(ending, t, ErrorStreak, Safety)
    case SameSignature => Guarded(ending, t, SameSignature, NoProgressNotice(t.n.successful > 0))
    case NoProgress => Guarded(ending, t, NoProgress, NoProgressNotice(t.n.successful > 0))
    case Finished | FollowUpExhausted =>
      if t.n.loopCount == 0 && t.reply.role == Assistant then PresentFormatted(config, ending, t, Safety)
      else AfterLoop(config, ending, Overridden(ending, t))
  }

  /** The end of a legacy turn that went through its loop. */
  function AfterLoop(config: Config, ending: Ending, t: Turn): Outcome {
    if t.n.invalid > 0 && t.n.successful == 0 && t.reply.role == Assistant && t.reply.calls == []
    then Close(t.since, ending.wording(Safety))
    else PresentFormatted(config, ending, t, NoProgressNotice(t.n.successful > 0))
  }

  /** When the follow-up gate gives up: the tool's own message. */
  function ExhaustedText(ending: Ending, since: seq<Message>): (r: string)
    ensures !Blank(r)
  {
    var message := match LatestTool(since) case None => "" case Some(tool) => Trim(ending.statusMessage(tool.content));
    if message == "" then ending.wording(NotNow) else message
  }

  function CompactOutcome(config: Config, ending: Ending, t: Turn): Outcome
    requires t.exit.Some?
  {
    match t.exit.value
    case SendFailed | HandlerFailed => Failed
    case HopLimit => Guarded(ending, t, HopLimit, LimitWithResult)
    case ErrorStreak => Guarded(ending, t, ErrorStreak, Safety)
    case SameSignature | NoProgress => Guarded(ending, t, NoProgress, NoProgressNotice(t.n.successful > 0))
    case FollowUpExhausted =>
      Close(t.since, ExhaustedText(ending, t.since))
    case Finished => Present(ending, t.since, t.reply, NoProgressNotice(t.n.successful > 0))
  }

  function OutcomeOf(loop: Loop, config: Config, ending: Ending, t: Turn): Outcome
    requires t.exit.Some? && t.since != []
  {
    if loop == Legacy then LegacyOutcome(config, ending, t) else CompactOutcome(config, ending, t)
  }

  // ----- every run ends in an answer to show -----

  lemma {:induction false} SinceGrows(loop: Loop, config: Config, t: Turn)
    requires t.since != []
    ensures Run(loop, config, t).since != []
    decreases if t.exit.Some? then 0 else 1 + Fuel(config, t.n)
  {
    if t.exit.None? {
      StepUsesFuel(loop, config, t);
      StepGrows(loop, config, t);
      SinceGrows(loop, config, Step(loop, config, t));
    }
  }

  lemma StepGrows(loop: Loop, config: Config, t: Turn)
    requires t.since != []
    ensures Step(loop, config, t).since != []
  {
    if t.reply.calls != [] {
      HopGrows(config, Counted(t));
      AfterHopGrows(config, RunHop(config, Counted(t)), SameSignatureExit(loop));
    }
  }

  lemma HopGrows(config: Config, t: Turn)
    requires t.since != []
    ensures RunHop(config, t).since != []
  {
  }

  lemma AfterHopGrows(config: Config, h: Turn, e: Exit)
    requires h.since != []
    ensures AfterHop(config, h, e).since != []
  {
  }

  /** A whole turn from its first answer. */
  function Turned(loop: Loop, config: Config, ending: Ending, base: seq<Message>, reply: Message): Outcome {
    SinceGrows(loop, config, Start(base, reply));
    OutcomeOf(loop, config, ending, Run(loop, config, Start(base, reply)))
  }

  /** The message ends the conversation. */
  predicate EndsWithAnswer(o: Outcome) {
    o.Answer? ==> o.added != [] && o.added[|o.added| - 1] == o.message
  }

  /** Nothing is answered, or the conversation is closed with a presentable message. */
  predicate Shows(o: Outcome) {
    EndsWithAnswer(o) && (o.Answer? ==> Presentable(o.message))
  }

  lemma CloseShows(since: seq<Message>, content: string)
    requires !Blank(content)
    ensures Shows(Close(since, content))
  {
  }

  lemma GuardedShows(ending: Ending, t: Turn, exit: Exit, fallback: Notice)
    ensures Shows(Guarded(ending, t, exit, fallback))
  {
    CloseShows(t.since, GuardText(ending, exit, fallback));
  }

  lemma PresentShows(ending: Ending, since: seq<Message>, reply: Message, fallback: Notice)
    requires since != [] && since[|since| - 1] == reply
    ensures Shows(Present(ending, since, reply, fallback))
  {
  }

  lemma FormattedShows(config: Config, ending: Ending, t: Turn, fallback: Notice)
    requires t.since != [] && t.since[|t.since| - 1] == t.reply
    ensures Shows(PresentFormatted(config, ending, t, fallback))
  {
    if ending.formatted(t.reply.content) {
      PresentShows(ending, t.since, t.reply, fallback);
    } else {
      var request := Message(User, ending.formatRequest, "", []);
      var t1 := Send(config, t.(since := t.since + [request], exit := None), Reformat);
      if t1.exit.None? { PresentShows(ending, t1.since, t1.reply, fallback); }
    }
  }

  lemma LegacyFinishShows(config: Config, ending: Ending, t: Turn)
    requires t.exit == Some(Finished) && t.since != [] && t.since[|t.since| - 1] == t.reply
    ensures Shows(LegacyOutcome(config, ending, t))
  {
    var o := Overridden(ending, t);
    FormattedShows(config, ending, t, Safety);
    FormattedShows(config, ending, o, NoProgressNotice(o.n.successful > 0));
  }

  lemma LegacyShows(config: Config, ending: Ending, t: Turn)
    requires t.exit.Some? && t.since != [] && (t.exit == Some(Finished) ==> t.since[|t.since| - 1] == t.reply)
    requires t.exit != Some(FollowUpExhausted)
    ensures Shows(LegacyOutcome(config, ending, t))
  {
    var done := t.n.successful > 0;
    match t.exit.value
    case SendFailed | HandlerFailed =>
    case HopLimit => GuardedShows(ending, t, HopLimit, LimitNotice(done));
    case ErrorStreak => GuardedShows(ending, t, ErrorStreak, Safety);
    case SameSignature => GuardedShows(ending, t, SameSignature, NoProgressNotice(done));
    case NoProgress => GuardedShows(ending, t, NoProgress, NoProgressNotice(done));
    case Finished => LegacyFinishShows(config, ending, t);
  }

  lemma CompactShows(config: Config, ending: Ending, t: Turn)
    requires t.exit.Some? && t.since != [] && (t.exit == Some(Finished) ==> t.since[|t.since| - 1] == t.reply)
    ensures Shows(CompactOutcome(config, ending, t))
  {
    var done := t.n.successful > 0;
    match t.exit.value
    case SendFailed | HandlerFailed =>
    case HopLimit => GuardedShows(ending, t, HopLimit, LimitWithResult);
    case ErrorStreak => GuardedShows(ending, t, ErrorStreak, Safety);
    case SameSignature | NoProgress => GuardedShows(ending, t, NoProgress, NoProgressNotice(done));
    case FollowUpExhausted => CloseShows(t.since, ExhaustedText(ending, t.since));
    case Finished => PresentShows(ending, t.since, t.reply, NoProgressNotice(done));
  }

  /** Which exits a loop over `base` has, and that a finished turn ends with its
      answer, which calls nothing. */
  predicate ExitFits(loop: Loop, base: seq<Message>, t: Turn) {
    && t.base == base && t.since != []
    && t.exit != (if loop == Legacy then Some(FollowUpExhausted) else Some(SameSignature))
    && (t.exit in {None, Some(Finished)} ==> t.since[|t.since| - 1] == t.reply)
    && (t.exit == Some(Finished) ==> t.reply.calls == [])
  }

  lemma StepFits(loop: Loop, config: Config, base: seq<Message>, t: Turn)
    requires ExitFits(loop, base, t) && t.exit.None?
    ensures ExitFits(loop, base, Step(loop, config, t))
  {
    if t.reply.calls != [] {
      HopFrame(config, Counted(t));
      AfterHopFits(loop, config, base, RunHop(config, Counted(t)));
    } else if loop == Compact {
      SettledFits(config, base, t, Judge(config, t.since, t.reply.content, t.n, t.past.verified));
    }
  }

  lemma AfterHopFits(loop: Loop, config: Config, base: seq<Message>, h: Turn)
    requires h.base == base && h.since != [] && h.exit in {None, Some(HandlerFailed)}
    ensures ExitFits(loop, base, AfterHop(config, h, SameSignatureExit(loop)))
  {
    AfterHopShape(config, h, SameSignatureExit(loop));
  }

  lemma SettledFits(config: Config, base: seq<Message>, t: Turn, verdict: Verdict)
    requires ExitFits(Compact, base, t) && t.exit.None? && t.reply.calls == []
    ensures ExitFits(Compact, base, Settled(config, t, verdict))
  {
  }

  lemma {:induction false} RunFits(loop: Loop, config: Config, base: seq<Message>, t: Turn)
    requires ExitFits(loop, base, t)
    ensures ExitFits(loop, base, Run(loop, config, t))
    decreases if t.exit.Some? then 0 else 1 + Fuel(config, t.n)
  {
    if t.exit.None? {
      StepUsesFuel(loop, config, t);
      StepFits(loop, config, base, t);
      RunFits(loop, config, base, Step(loop, config, t));
    }
  }

  /** Every answered turn shows an assistant message without calls that is not
      blank, and ends the conversation with it, whatever the model, the tools and
      the takeover tool sent. */
  lemma EveryAnswerIsPresentable(loop: Loop, config: Config, ending: Ending, base: seq<Message>, reply: Message)
    ensures var o := Turned(loop, config, ending, base, reply);
            EndsWithAnswer(o) && (o.Answer? ==> Presentable(o.message))
  {
    RunFits(loop, config, base, Start(base, reply));
    SinceGrows(loop, config, Start(base, reply));
    var r := Run(loop, config, Start(base, reply));
    if loop == Legacy { LegacyShows(config, ending, r); } else { CompactShows(config, ending, r); }
  }

  // ----- the cache changes nothing the user sees -----

  lemma SameFormatted(config: Config, ending: Ending, a: Turn, b: Turn, fallback: Notice)
    requires ToolCache.SameButCache(a, b)
    ensures PresentFormatted(config, ending, a, fallback)
         == PresentFormatted(ToolCache.WithoutCache(config), ending, b, fallback)
  {
  }

  lemma SameOverride(ending: Ending, a: Turn, b: Turn)
    requires ToolCache.SameButCache(a, b) && a.since != []
    ensures ToolCache.SameButCache(Overridden(ending, a), Overridden(ending, b))
  {
  }

  lemma SameAfterLoop(config: Config, ending: Ending, a: Turn, b: Turn)
    requires ToolCache.SameButCache(a, b)
    ensures AfterLoop(config, ending, a) == AfterLoop(ToolCache.WithoutCache(config), ending, b)
  {
    SameFormatted(config, ending, a, b, NoProgressNotice(a.n.successful > 0));
  }

  lemma SameLegacyFinish(config: Config, ending: Ending, a: Turn, b: Turn)
    requires ToolCache.SameButCache(a, b) && a.exit.Some? && a.since != []
             && a.exit.value in {Finished, FollowUpExhausted}
    ensures LegacyOutcome(config, ending, a) == LegacyOutcome(ToolCache.WithoutCache(config), ending, b)
  {
    if a.n.loopCount == 0 && a.reply.role == Assistant {
      SameFormatted(config, ending, a, b, Safety);
    } else {
      SameOverride(ending, a, b);
      SameAfterLoop(config, ending, Overridden(ending, a), Overridden(ending, b));
    }
  }

  lemma SameGuarded(ending: Ending, a: Turn, b: Turn, exit: Exit, fallback: Notice)
    requires ToolCache.SameButCache(a, b)
    ensures Guarded(ending, a, exit, fallback) == Guarded(ending, b, exit, fallback)
  {
  }

  lemma SameLegacyOutcome(config: Config, ending: Ending, a: Turn, b: Turn)
    requires ToolCache.SameButCache(a, b) && a.exit.Some? && a.since != []
    ensures LegacyOutcome(config, ending, a) == LegacyOutcome(ToolCache.WithoutCache(config), ending, b)
  {
    match a.exit.value
    case Finished | FollowUpExhausted => SameLegacyFinish(config, ending, a, b);
    case HopLimit => SameGuarded(ending, a, b, HopLimit, LimitNotice(a.n.successful > 0));
    case ErrorStreak => SameGuarded(ending, a, b, ErrorStreak, Safety);
    case SameSignature => SameGuarded(ending, a, b, SameSignature, NoProgressNotice(a.n.successful > 0));
    case NoProgress => SameGuarded(ending, a, b, NoProgress, NoProgressNotice(a.n.successful > 0));
    case _ =>
  }

  lemma SameCompactOutcome(config: Config, ending: Ending, a: Turn, b: Turn)
    requires ToolCache.SameButCache(a, b) && a.exit.Some?
    ensures CompactOutcome(config, ending, a) == CompactOutcome(ToolCache.WithoutCache(config), ending, b)
  {
  }

  /** For handlers that depend only on name and arguments, a turn with the cache
      ends like the turn without it: same exit, same transcript at every send, same
      answer; only handler runs are saved. */
  lemma CacheChangesNothing(loop: Loop, config: Config, ending: Ending, base: seq<Message>, reply: Message)
    requires config.policy.enabled && ToolCache.Pure(config.handlers)
    ensures Turned(loop, config, ending, base, reply)
            == Turned(loop, ToolCache.WithoutCache(config), ending, base, reply)
    ensures var a, b := Run(loop, config, Start(base, reply)),
                    Run(loop, ToolCache.WithoutCache(config), Start(base, reply));
            a.exit == b.exit && a.since == b.since && a.past.hops == b.past.hops && a.past.sends == b.past.sends
  {
    var start := Start(base, reply);
    ToolCache.RunSimulates(loop, config, start, start);
    SinceGrows(loop, config, start);
    var a, b := Run(loop, config, start), Run(loop, ToolCache.WithoutCache(config), start);
    if loop == Legacy { SameLegacyOutcome(config, ending, a, b); } else { SameCompactOutcome(config, ending, a, b); }
  }
}
