/** Which confirmations reach the user: a tool of a legacy turn demands one, and the turn
    shows it, or drops it. */
module Confirmation {
  import opened Wrappers
  import opened Text
  import opened ToolTurn
  import opened AnswerTurn

  /** The turn ends with the confirmation in place of its last answer. */
  function Confirmed(ending: Ending, t: Turn, message: string): Outcome
    requires t.since != []
  {
    var reply := Say(ConfirmationText(ending, message));
    Answer(reply, t.since[..|t.since| - 1] + [reply])
  }

  /** When a finished legacy turn shows a demanded confirmation: its last answer is the
      assistant's, the words have the asked-for format, and the turn either went through
      its loop with a valid call or none at all, or said those very words itself. */
  predicate Passes(ending: Ending, t: Turn, message: string) {
    var text := ConfirmationText(ending, message);
    && t.reply.role == Assistant && ending.formatted(text)
    && if t.n.loopCount == 0 then t.reply == Say(text) else t.n.invalid == 0 || t.n.successful > 0
  }

  /** A format re-send never ends in the same conversation. */
  lemma ResendIsLonger(config: Config, ending: Ending, t: Turn, fallback: Notice)
    requires !ending.formatted(t.reply.content)
    ensures var o := PresentFormatted(config, ending, t, fallback); o.Answer? ==> |o.added| >= |t.since| + 2
  {
  }

  lemma PresentedIff(config: Config, ending: Ending, t: Turn, fallback: Notice, reply: Message)
    requires t.since != [] && t.since[|t.since| - 1] == t.reply && Presentable(reply)
    ensures var kept := t.since[..|t.since| - 1] + [reply];
            PresentFormatted(config, ending, t, fallback) == Answer(reply, kept)
            <==> t.reply == reply && ending.formatted(reply.content)
  {
    var kept := t.since[..|t.since| - 1] + [reply];
    assert t.since == t.since[..|t.since| - 1] + [t.reply];
    if ending.formatted(t.reply.content) {
      assert !Presentable(t.reply) ==> |PresentFormatted(config, ending, t, fallback).added| == |kept| + 1;
    } else {
      ResendIsLonger(config, ending, t, fallback);
    }
  }

  /** A finished turn shows the confirmation the latest tool message demands exactly when
      it passes: the confirmation guard is followed by the format re-send. */
  lemma FinishShowsConfirmation(config: Config, ending: Ending, t: Turn, message: string)
    requires t.exit == Some(Finished) && t.since != [] && t.since[|t.since| - 1] == t.reply && t.reply.calls == []
    requires Demanded(ending, t.base + t.since) == Some(message)
    ensures LegacyOutcome(config, ending, t) == Confirmed(ending, t, message) <==> Passes(ending, t, message)
  {
    var text := ConfirmationText(ending, message);
    var reply, o := Say(text), Overridden(ending, t);
    if t.n.loopCount == 0 && t.reply.role == Assistant {
      PresentedIff(config, ending, t, Safety, reply);
    } else if o.n.invalid > 0 && o.n.successful == 0 && o.reply.role == Assistant && o.reply.calls == [] {
      assert |AfterLoop(config, ending, o).added| == |t.since| + 1;
    } else {
      assert o.since[..|o.since| - 1] == t.since[..|t.since| - 1];
      PresentedIff(config, ending, o, NoProgressNotice(o.n.successful > 0), reply);
    }
  }

  lemma UnfinishedDropsConfirmation(config: Config, ending: Ending, t: Turn, message: string)
    requires t.exit.Some? && t.exit.value !in {Finished, FollowUpExhausted} && t.since != []
    ensures LegacyOutcome(config, ending, t) != Confirmed(ending, t, message)
  {
    var o := LegacyOutcome(config, ending, t);
    assert o.Answer? ==> |o.added| == |t.since| + 1;
  }

  /** Over whole legacy turns, for every model, tool and first answer: the confirmation
      the latest tool message of the conversation demands is what the turn ends with
      exactly when the loop finished by itself and the turn passes; a guard that trips
      after the demand, a failed send and a format re-send drop it. */
  lemma TurnShowsConfirmation(config: Config, ending: Ending, base: seq<Message>, reply: Message, message: string)
    requires Demanded(ending, base + Run(Legacy, config, Start(base, reply)).since) == Some(message)
    ensures var r := Run(Legacy, config, Start(base, reply));
            && r.since != []
            && (Turned(Legacy, config, ending, base, reply) == Confirmed(ending, r, message)
                <==> r.exit == Some(Finished) && Passes(ending, r, message))
  {
    var start := Start(base, reply);
    var r := Run(Legacy, config, start);
    SinceGrows(Legacy, config, start);
    RunFits(Legacy, config, base, start);
    if r.exit == Some(Finished) {
      FinishShowsConfirmation(config, ending, r, message);
    } else {
      UnfinishedDropsConfirmation(config, ending, r, message);
    }
  }

  // ----- two turns that drop one -----

  const BOOK := Message(Assistant, "", "", [Call("1", "book", "{}")])
  const ASKED := Message(Tool, "confirm", "1", [])

  /** One tool that always demands a confirmation, and a model that answers a format
      request with "{}" and everything else with `next`. */
  function Booking(next: Message, maxHops: int): Config {
    Config(LEGACY_CACHE, Guard(maxHops, 2, 3, 2),
           (k: nat, messages: seq<Message>, ask: Ask) => Some(if ask == Reformat then Say("{}") else next),
           (k: nat, call: Call) => Valid("confirm"), (content: string) => true, (content: string) => false,
           Repair(false, 1, (k: nat, content: string) => false))
  }

  function Asking(json: bool): Ending {
    Ending((notice: Notice) => "-", (exit: Exit) => None, (text: string) => text,
           (text: string) => !json || text == "{}", "json",
           (content: string) => if content == "confirm" then Some("sure?") else None, (content: string) => "")
  }

  lemma OneHop(base: seq<Message>, next: Message, maxHops: int)
    requires maxHops >= 1
    ensures var t := Step(Legacy, Booking(next, maxHops), Start(base, BOOK));
            && t.exit.None? && t.base == base && t.since == [BOOK, ASKED, next] && t.reply == next
            && t.n.loopCount == 1 && t.n.successful == 1 && t.n.invalid == 0
  {
    var config, start := Booking(next, maxHops), Start(base, BOOK);
    var w := DoCall(config, WorkOf(Counted(start)), BOOK.calls[0]);
    assert BOOK.calls[1..] == [];
    assert DoCalls(config, WorkOf(Counted(start)), BOOK.calls) == DoCalls(config, w, []) == w;
    assert w.out == [ASKED];
    assert ASKED in w.out;
    assert AnyProgress(config.progress, w.out);
    assert [BOOK] + [ASKED] + [next] == [BOOK, ASKED, next];
  }

  lemma Latest(before: seq<Message>, tool: Message, after: Message)
    requires tool.role == Tool && after.role != Tool
    ensures LatestTool(before + [BOOK, tool, after]) == Some(tool)
  {
    var all := before + [BOOK, tool, after];
    assert all[..|all| - 1] == before + [BOOK, tool];
  }

  /** The tool asks for a confirmation, and the user is shown the re-sent answer. */
  lemma FormatReplacesConfirmation(base: seq<Message>)
    ensures var config, ending := Booking(Say("done"), 10), Asking(true);
            && Demanded(ending, base + Run(Legacy, config, Start(base, BOOK)).since) == Some("sure?")
            && Turned(Legacy, config, ending, base, BOOK).Answer?
            && Turned(Legacy, config, ending, base, BOOK).message == Say("{}")
  {
    var config, ending, start := Booking(Say("done"), 10), Asking(true), Start(base, BOOK);
    OneHop(base, Say("done"), 10);
    var t := Step(Legacy, config, start);
    var r := t.(exit := Some(Finished));
    assert Step(Legacy, config, t) == r;
    assert Run(Legacy, config, start) == Run(Legacy, config, t) == Run(Legacy, config, r) == r;
    Latest(base, ASKED, Say("done"));
    ResendShown(config, ending, r);
  }

  lemma ResendShown(config: Config, ending: Ending, t: Turn)
    requires config == Booking(Say("done"), 10) && ending == Asking(true)
    requires t.exit == Some(Finished) && t.n.loopCount == 1 && t.n.invalid == 0 && t.since != []
             && t.reply == Say("done")
    requires Demanded(ending, t.base + t.since) == Some("sure?")
    ensures LegacyOutcome(config, ending, t).Answer? && LegacyOutcome(config, ending, t).message == Say("{}")
  {
    assert Trimmed("sure?") && Trimmed("{}");
    assert !Blank("sure?") && !Blank("{}");
    var o := Overridden(ending, t);
    assert o.reply == Say("sure?") && !ending.formatted("sure?");
  }

  /** The tool asks for a confirmation, the model calls on, and the hop limit closes the
      turn with a fallback. */
  lemma HopLimitDropsConfirmation(base: seq<Message>)
    ensures var config, ending := Booking(BOOK, 1), Asking(false);
            && Run(Legacy, config, Start(base, BOOK)).exit == Some(HopLimit)
            && Demanded(ending, base + Run(Legacy, config, Start(base, BOOK)).since) == Some("sure?")
            && Turned(Legacy, config, ending, base, BOOK).Answer?
            && Turned(Legacy, config, ending, base, BOOK).message == Say(ending.wording(LimitWithResult))
  {
    var config, ending, start := Booking(BOOK, 1), Asking(false), Start(base, BOOK);
    OneHop(base, BOOK, 1);
    var t := Step(Legacy, config, start);
    var r := Counted(t).(exit := Some(HopLimit));
    assert Step(Legacy, config, t) == r;
    assert Run(Legacy, config, start) == Run(Legacy, config, t) == Run(Legacy, config, r) == r;
    Latest(base, ASKED, BOOK);
  }
}
