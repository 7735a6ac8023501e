/** What a turn says when it ends, exit by exit. */
module TurnEndings {
  import opened Wrappers
  import opened Text
  import opened ToolTurn
  import opened AnswerTurn

  /** The words of an escalated turn: the takeover tool's, or that the turn was handed on where it has
      none; without thinking tags, unless nothing else is left. */
  predicate EscalatedWords(ending: Ending, processed: string, text: string) {
    var said := if Trim(processed) == "" then Trim(ending.wording(Forwarded)) else Trim(processed);
    text == if Trim(ending.untagged(said)) != "" then Trim(ending.untagged(said)) else said
  }

  /** The words of a guard that tripped: escalated where the takeover tool answers, else a notice. */
  ghost predicate GuardWords(ending: Ending, exit: Exit, notice: Notice, text: string) {
    if ending.takeover(exit).Some? then EscalatedWords(ending, ending.takeover(exit).value, text)
    else text == ending.wording(notice)
  }

  lemma GuardSays(ending: Ending, exit: Exit, notice: Notice)
    ensures GuardWords(ending, exit, notice, GuardText(ending, exit, notice))
  {
  }

  /** A closing text of the turn's own after all that was said. */
  predicate ClosedWith(o: Outcome, since: seq<Message>, text: string) {
    o == Answer(Message(Assistant, text, "", []), since + [Message(Assistant, text, "", [])])
  }

  /** The notice for a turn that got nowhere, and for one cut at the hop limit. */
  function StuckNotice(n: Counters): Notice {
    if n.successful > 0 then BestSoFar else Safety
  }

  function CutNotice(n: Counters): Notice {
    if n.successful > 0 then LimitWithResult else LimitWithoutResult
  }

  /** An answer that is shown as it is. */
  predicate Shown(m: Message) {
    m.role == Assistant && m.calls == [] && Trim(m.content) != ""
  }

  /** The model's own answer, or a notice where it cannot be shown. */
  ghost predicate AnswersWith(ending: Ending, o: Outcome, since: seq<Message>, reply: Message, notice: Notice) {
    if Shown(reply) then o == Answer(reply, since) else ClosedWith(o, since, ending.wording(notice))
  }

  /** The compact loop. */
  ghost predicate CompactSays(ending: Ending, r: Turn, o: Outcome) {
    match r.exit
    case None => false
    case Some(SendFailed) => o == Failed
    case Some(HandlerFailed) => o == Failed
    case Some(HopLimit) =>
      exists text :: GuardWords(ending, HopLimit, LimitWithResult, text) && ClosedWith(o, r.since, text)
    case Some(ErrorStreak) =>
      exists text :: GuardWords(ending, ErrorStreak, Safety, text) && ClosedWith(o, r.since, text)
    case Some(SameSignature) =>
      exists text :: GuardWords(ending, NoProgress, StuckNotice(r.n), text) && ClosedWith(o, r.since, text)
    case Some(NoProgress) =>
      exists text :: GuardWords(ending, NoProgress, StuckNotice(r.n), text) && ClosedWith(o, r.since, text)
    case Some(FollowUpExhausted) => exists text :: StatusWords(ending, r.since, text) && ClosedWith(o, r.since, text)
    case Some(Finished) => AnswersWith(ending, o, r.since, r.reply, StuckNotice(r.n))
  }

  /** What a tool that is not done has to say, or that it is not possible now. */
  ghost predicate StatusWords(ending: Ending, since: seq<Message>, text: string) {
    var message := match LatestTool(since) case None => "" case Some(tool) => Trim(ending.statusMessage(tool.content));
    text == if message != "" then message else ending.wording(NotNow)
  }

  /** Whether the latest tool result asks for a confirmation of the last answer. */
  function Asked(ending: Ending, r: Turn): Option<string> {
    match LatestTool(r.base + r.since)
    case None => None
    case Some(tool) =>
      if r.reply.role == Assistant && r.reply.calls == [] then ending.confirmation(tool.content) else None
  }

  /** What a finished legacy turn has to show: its answer, or the confirmation a tool asks for instead; a
      turn answered at once is not asked. */
  ghost predicate Final(ending: Ending, r: Turn, since: seq<Message>, reply: Message) {
    if (r.n.loopCount == 0 && r.reply.role == Assistant) || Asked(ending, r).None? then
      reply == r.reply && since == r.since
    else
      var message := Asked(ending, r).value;
      && reply == Message(Assistant, if Trim(message) != "" then message else ending.wording(Confirm), "", [])
      && |since| == |r.since| > 0 && since[..|since| - 1] == r.since[..|since| - 1] && since[|since| - 1] == reply
  }

  /** A finished legacy turn: given up when no call was valid; else shown when it has the asked-for
      format; else asked for once more, and shown as it comes back. */
  ghost predicate LegacyFinishes(config: Config, ending: Ending, r: Turn, since: seq<Message>, reply: Message,
                                  o: Outcome) {
    var notice := if r.n.loopCount == 0 && r.reply.role == Assistant then Safety else StuckNotice(r.n);
    var request := Message(User, ending.formatRequest, "", []);
    if !(r.n.loopCount == 0 && r.reply.role == Assistant) && r.n.invalid > 0 && r.n.successful == 0
       && reply.role == Assistant && reply.calls == []
    then ClosedWith(o, since, ending.wording(Safety))
    else if ending.formatted(reply.content) then AnswersWith(ending, o, since, reply, notice)
    else match config.model(r.past.sends, r.base + (since + [request]), Reformat)
         case None => o == Failed
         case Some(again) => AnswersWith(ending, o, since + [request] + [again], again, notice)
  }

  /** The legacy loop. */
  ghost predicate LegacySays(config: Config, ending: Ending, r: Turn, o: Outcome) {
    match r.exit
    case None => false
    case Some(SendFailed) => o == Failed
    case Some(HandlerFailed) => o == Failed
    case Some(HopLimit) =>
      exists text :: GuardWords(ending, HopLimit, CutNotice(r.n), text) && ClosedWith(o, r.since, text)
    case Some(ErrorStreak) =>
      exists text :: GuardWords(ending, ErrorStreak, Safety, text) && ClosedWith(o, r.since, text)
    case Some(SameSignature) =>
      exists text :: GuardWords(ending, SameSignature, StuckNotice(r.n), text) && ClosedWith(o, r.since, text)
    case Some(NoProgress) =>
      exists text :: GuardWords(ending, NoProgress, StuckNotice(r.n), text) && ClosedWith(o, r.since, text)
    case Some(FollowUpExhausted) => false
    case Some(Finished) =>
      exists since, reply :: Final(ending, r, since, reply) && LegacyFinishes(config, ending, r, since, reply, o)
  }

  lemma GuardedSays(ending: Ending, t: Turn, exit: Exit, notice: Notice)
    ensures exists text ::
              GuardWords(ending, exit, notice, text) && ClosedWith(Guarded(ending, t, exit, notice), t.since, text)
  {
    GuardSays(ending, exit, notice);
    assert ClosedWith(Guarded(ending, t, exit, notice), t.since, GuardText(ending, exit, notice));
  }

  lemma CompactTurnSays(config: Config, ending: Ending, base: seq<Message>, first: Message)
    ensures CompactSays(ending, Run(Compact, config, Start(base, first)), Turned(Compact, config, ending, base, first))
  {
    var r := Run(Compact, config, Start(base, first));
    SinceGrows(Compact, config, Start(base, first));
    match r.exit.value
    case HopLimit => GuardedSays(ending, r, HopLimit, LimitWithResult);
    case ErrorStreak => GuardedSays(ending, r, ErrorStreak, Safety);
    case SameSignature => GuardedSays(ending, r, NoProgress, StuckNotice(r.n));
    case NoProgress => GuardedSays(ending, r, NoProgress, StuckNotice(r.n));
    case FollowUpExhausted =>
      var text := ExhaustedText(ending, r.since);
      assert StatusWords(ending, r.since, text) && ClosedWith(Close(r.since, text), r.since, text);
    case _ =>
  }

  lemma FormattedSays(config: Config, ending: Ending, t: Turn, notice: Notice)
    ensures var o := PresentFormatted(config, ending, t, notice);
            var request := Message(User, ending.formatRequest, "", []);
            if ending.formatted(t.reply.content) then AnswersWith(ending, o, t.since, t.reply, notice)
            else match config.model(t.past.sends, t.base + (t.since + [request]), Reformat)
                 case None => o == Failed
                 case Some(again) => AnswersWith(ending, o, t.since + [request] + [again], again, notice)
  {
  }

  lemma LegacyFinishSays(config: Config, ending: Ending, r: Turn) returns (since: seq<Message>, reply: Message)
    requires r.exit == Some(Finished) && r.since != []
    ensures Final(ending, r, since, reply)
    ensures LegacyFinishes(config, ending, r, since, reply, LegacyOutcome(config, ending, r))
  {
    var u := if r.n.loopCount == 0 && r.reply.role == Assistant then r else Overridden(ending, r);
    since, reply := u.since, u.reply;
    var notice := if r.n.loopCount == 0 && r.reply.role == Assistant then Safety else StuckNotice(r.n);
    FormattedSays(config, ending, u, notice);
  }

  lemma LegacyTurnSays(config: Config, ending: Ending, base: seq<Message>, first: Message)
    ensures LegacySays(config, ending, Run(Legacy, config, Start(base, first)),
                       Turned(Legacy, config, ending, base, first))
  {
    var r := Run(Legacy, config, Start(base, first));
    SinceGrows(Legacy, config, Start(base, first));
    RunFits(Legacy, config, base, Start(base, first));
    match r.exit.value
    case HopLimit => GuardedSays(ending, r, HopLimit, CutNotice(r.n));
    case ErrorStreak => GuardedSays(ending, r, ErrorStreak, Safety);
    case SameSignature => GuardedSays(ending, r, SameSignature, StuckNotice(r.n));
    case NoProgress => GuardedSays(ending, r, NoProgress, StuckNotice(r.n));
    case Finished => var since, reply := LegacyFinishSays(config, ending, r);
    case _ =>
  }
}
