/** What an answered turn adds to the saved conversation: whether every call in it is
    answered, and so whether the session stays one that can be sent again and cut. */
module SavedTurn {
  import opened Wrappers
  import opened ToolTurn
  import opened ToolTurnRuns
  import opened AnswerTurn
  import Session
  import Confirmation

  /** Every message with calls is followed at once by one tool message per call. */
  predicate Paired(messages: seq<Message>)
    decreases |messages|
  {
    messages == [] ||
    var n := |messages[0].calls|;
    1 + n <= |messages| && AnswersTo(messages[1..1 + n], messages[0].calls) && Paired(messages[1 + n..])
  }

  predicate NoCalls(messages: seq<Message>) {
    forall m :: m in messages ==> m.calls == []
  }

  lemma {:induction false} NoCallsPaired(messages: seq<Message>)
    requires NoCalls(messages)
    ensures Paired(messages)
  {
    if messages != [] {
      assert messages[0] in messages;
      NoCallsPaired(messages[1..]);
    }
  }

  /** A message with calls that something else than a tool message follows. */
  lemma {:induction false} CutIsUnpaired(before: seq<Message>, m: Message, after: Message)
    requires NoCalls(before) && m.calls != [] && after.role != Tool
    ensures !Paired(before + [m, after])
  {
    var all := before + [m, after];
    if before == [] {
      assert 1 + |m.calls| <= |all| ==> all[1..1 + |m.calls|][0] == after;
    } else {
      assert before[0] in before && all[0] == before[0];
      assert all[1..] == before[1..] + [m, after];
      CutIsUnpaired(before[1..], m, after);
    }
  }

  lemma BlockFirst(b: Block, rest: seq<Message>)
    requires Answered(b)
    ensures Paired([b.reply] + b.answers + rest) <==> Paired(rest)
  {
    var all := [b.reply] + b.answers + rest;
    assert all[1..1 + |b.reply.calls|] == b.answers && all[1 + |b.reply.calls|..] == rest;
  }

  /** Closed blocks leave it to what follows them. */
  lemma {:induction false} PairedAfter(blocks: seq<Block>, rest: seq<Message>)
    requires forall b :: b in blocks ==> Answered(b)
    ensures Paired(Flatten(blocks) + rest) <==> Paired(rest)
  {
    if blocks == [] {
      assert Flatten(blocks) + rest == rest;
    } else {
      var n := |blocks| - 1;
      var b := blocks[n];
      assert Flatten(blocks) + rest == Flatten(blocks[..n]) + ([b.reply] + b.answers + rest);
      PairedAfter(blocks[..n], [b.reply] + b.answers + rest);
      BlockFirst(b, rest);
    }
  }

  // ----- how a turn ends -----

  /** The turn whose answer a finished legacy turn presents. */
  function Presented(ending: Ending, t: Turn): Turn
    requires t.since != []
  {
    if t.n.loopCount == 0 && t.reply.role == Assistant then t else Overridden(ending, t)
  }

  /** Whether a finished legacy turn replaces its answer, as no call was valid. */
  predicate GivesUp(t: Turn) {
    !(t.n.loopCount == 0 && t.reply.role == Assistant)
    && t.n.invalid > 0 && t.n.successful == 0 && t.reply.role == Assistant && t.reply.calls == []
  }

  /** The answer to the format re-send of a legacy turn, if there is one. */
  function Resent(config: Config, ending: Ending, t: Turn): Option<Message>
    requires t.since != []
  {
    var u := Presented(ending, t);
    if t.exit != Some(Finished) || GivesUp(u) || ending.formatted(u.reply.content) then None
    else config.model(u.past.sends, u.base + (u.since + [Message(User, ending.formatRequest, "", [])]), Reformat)
  }

  // ----- the loops' endings -----

  lemma ClosedSince(t: Turn, added: seq<Message>, rest: seq<Message>)
    requires (forall b :: b in t.past.blocks ==> Answered(b)) && added == Flatten(t.past.blocks) + rest
    ensures NoCalls(rest) ==> Paired(added)
    ensures |rest| >= 2 && NoCalls(rest[..|rest| - 2]) && rest[|rest| - 2].calls != [] && rest[|rest| - 1].role != Tool
            ==> !Paired(added)
  {
    PairedAfter(t.past.blocks, rest);
    if NoCalls(rest) { NoCallsPaired(rest); }
    if |rest| >= 2 && NoCalls(rest[..|rest| - 2]) && rest[|rest| - 2].calls != [] && rest[|rest| - 1].role != Tool {
      assert rest == rest[..|rest| - 2] + [rest[|rest| - 2], rest[|rest| - 1]];
      CutIsUnpaired(rest[..|rest| - 2], rest[|rest| - 2], rest[|rest| - 1]);
    }
  }

  /** A closing text after the transcript: paired unless a cut answer waits before it. */
  lemma ClosePaired(t: Turn, content: string)
    requires Closed(t) && (t.exit in {Some(HopLimit), Some(HandlerFailed)} ==> t.reply.calls != []) && t.exit.Some?
    ensures Paired(Close(t.since, content).added) <==> t.exit !in {Some(HopLimit), Some(HandlerFailed)}
  {
    var rest := (if Open(t) then [t.reply] else []) + [Say(content)];
    assert Close(t.since, content).added == Flatten(t.past.blocks) + rest;
    ClosedSince(t, Close(t.since, content).added, rest);
    if Open(t) {
      assert rest[..0] == [] && rest[0] == t.reply;
    }
  }

  lemma PresentPaired(ending: Ending, t: Turn, since: seq<Message>, rest: seq<Message>, reply: Message,
                      fallback: Notice)
    requires (forall b :: b in t.past.blocks ==> Answered(b)) && since == Flatten(t.past.blocks) + rest
    requires rest != [] && rest[|rest| - 1] == reply && NoCalls(rest[..|rest| - 1])
    ensures Paired(Present(ending, since, reply, fallback).added) <==> reply.calls == []
  {
    var added := Present(ending, since, reply, fallback).added;
    var longer := rest + [Say(ending.wording(fallback))];
    assert rest == rest[..|rest| - 1] + [reply];
    assert longer[..|longer| - 2] == rest[..|rest| - 1];
    if Presentable(reply) {
      ClosedSince(t, added, rest);
    } else {
      assert added == Flatten(t.past.blocks) + longer;
      ClosedSince(t, added, longer);
    }
  }

  /** A presented answer: paired unless it is sent again and comes back with calls. */
  lemma FormattedPaired(config: Config, ending: Ending, t: Turn, fallback: Notice)
    requires (forall b :: b in t.past.blocks ==> Answered(b)) && t.since == Flatten(t.past.blocks) + [t.reply]
    requires t.reply.calls == []
    ensures var o := PresentFormatted(config, ending, t, fallback);
            var again := config.model(t.past.sends, t.base + (t.since + [Message(User, ending.formatRequest, "", [])]),
                                      Reformat);
            o.Answer? ==> (Paired(o.added)
                           <==> ending.formatted(t.reply.content) || (again.Some? && again.value.calls == []))
  {
    if ending.formatted(t.reply.content) {
      PresentPaired(ending, t, t.since, [t.reply], t.reply, fallback);
    } else {
      var request := Message(User, ending.formatRequest, "", []);
      var again := config.model(t.past.sends, t.base + (t.since + [request]), Reformat);
      if again.Some? {
        var rest := [t.reply, request, again.value];
        assert t.since + [request] + [again.value] == Flatten(t.past.blocks) + rest;
        assert rest[..2] == [t.reply, request];
        PresentPaired(ending, t, t.since + [request] + [again.value], rest, again.value, fallback);
      }
    }
  }

  /** The confirmation guard leaves the shape of a finished turn. */
  lemma PresentedShape(ending: Ending, t: Turn)
    requires Closed(t) && t.exit == Some(Finished)
    ensures t.since != []
    ensures var u := Presented(ending, t);
            && u.past == t.past && u.n == t.n && u.base == t.base && u.exit == t.exit
            && u.since == Flatten(u.past.blocks) + [u.reply] && u.reply.calls == []
  {
    assert t.since[..|t.since| - 1] == Flatten(t.past.blocks);
  }

  lemma LegacyFinishPaired(config: Config, ending: Ending, t: Turn)
    requires Closed(t) && t.exit == Some(Finished) && t.since != []
    ensures var o, again := LegacyOutcome(config, ending, t), Resent(config, ending, t);
            o.Answer? ==> (Paired(o.added) <==> !(again.Some? && again.value.calls != []))
  {
    PresentedShape(ending, t);
    var u := Presented(ending, t);
    var notice := if t.n.loopCount == 0 && t.reply.role == Assistant then Safety
                  else NoProgressNotice(t.n.successful > 0);
    if GivesUp(u) {
      var rest := [u.reply, Say(ending.wording(Safety))];
      assert Close(u.since, ending.wording(Safety)).added == Flatten(u.past.blocks) + rest;
      ClosedSince(u, Close(u.since, ending.wording(Safety)).added, rest);
    } else {
      FormattedPaired(config, ending, u, notice);
      assert LegacyOutcome(config, ending, t) == PresentFormatted(config, ending, u, notice);
    }
  }

  // ----- whole turns -----

  /** Only an answer with calls is cut by the hop limit. */
  predicate CutHasCalls(t: Turn) {
    t.exit == Some(HopLimit) ==> t.reply.calls != []
  }

  lemma {:induction false} RunCutHasCalls(loop: Loop, config: Config, t: Turn)
    requires CutHasCalls(t)
    ensures CutHasCalls(Run(loop, config, t))
    decreases if t.exit.Some? then 0 else 1 + Fuel(config, t.n)
  {
    if t.exit.None? {
      StepUsesFuel(loop, config, t);
      StepCutHasCalls(loop, config, t);
      RunCutHasCalls(loop, config, Step(loop, config, t));
    }
  }

  lemma StepCutHasCalls(loop: Loop, config: Config, t: Turn)
    requires t.exit.None?
    ensures CutHasCalls(Step(loop, config, t))
  {
    if t.reply.calls != [] {
      var e := SameSignatureExit(loop);
      HopFrame(config, Counted(t));
      AfterHopShape(config, RunHop(config, Counted(t)), e);
    } else if loop == Compact {
      var _ := SettleShape(config, t);
    }
  }

  lemma CompactPaired(config: Config, ending: Ending, t: Turn)
    requires Closed(t) && CutHasCalls(t) && t.exit.Some? && t.since != []
    ensures var o := CompactOutcome(config, ending, t); o.Answer? ==> (Paired(o.added) <==> t.exit != Some(HopLimit))
  {
    match t.exit.value
    case SendFailed | HandlerFailed =>
    case HopLimit => ClosePaired(t, GuardText(ending, HopLimit, LimitWithResult));
    case ErrorStreak => ClosePaired(t, GuardText(ending, ErrorStreak, Safety));
    case SameSignature | NoProgress =>
      ClosePaired(t, GuardText(ending, NoProgress, NoProgressNotice(t.n.successful > 0)));
    case FollowUpExhausted => ClosePaired(t, ExhaustedText(ending, t.since));
    case Finished => PresentPaired(ending, t, t.since, [t.reply], t.reply, NoProgressNotice(t.n.successful > 0));
  }

  lemma LegacyPaired(config: Config, ending: Ending, t: Turn)
    requires Closed(t) && CutHasCalls(t) && t.exit.Some? && t.since != [] && t.exit != Some(FollowUpExhausted)
    ensures var o, again := LegacyOutcome(config, ending, t), Resent(config, ending, t);
            o.Answer? ==> (Paired(o.added) <==> t.exit != Some(HopLimit) && !(again.Some? && again.value.calls != []))
  {
    var done := t.n.successful > 0;
    match t.exit.value
    case SendFailed | HandlerFailed =>
    case HopLimit => ClosePaired(t, GuardText(ending, HopLimit, LimitNotice(done)));
    case ErrorStreak => ClosePaired(t, GuardText(ending, ErrorStreak, Safety));
    case SameSignature => ClosePaired(t, GuardText(ending, SameSignature, NoProgressNotice(done)));
    case NoProgress => ClosePaired(t, GuardText(ending, NoProgress, NoProgressNotice(done)));
    case Finished => LegacyFinishPaired(config, ending, t);
  }

  /** Which answered turns save a conversation whose calls are all answered: for every model, tool,
      verifier and first answer, those the hop limit did not cut and, in the legacy loop, whose
      answer did not come back with calls from the format re-send. */
  lemma SavedIsPaired(loop: Loop, config: Config, ending: Ending, base: seq<Message>, reply: Message)
    ensures var r := Run(loop, config, Start(base, reply));
            var o := Turned(loop, config, ending, base, reply);
            && r.since != []
            && (o.Answer? && loop == Compact ==> (Paired(o.added) <==> r.exit != Some(HopLimit)))
            && (o.Answer? && loop == Legacy ==>
                  var again := Resent(config, ending, r);
                  Paired(o.added) <==> r.exit != Some(HopLimit) && !(again.Some? && again.value.calls != []))
  {
    var start := Start(base, reply);
    SinceGrows(loop, config, start);
    RunFits(loop, config, base, start);
    assert Closed(start);
    EveryHopClosesItsBlock(loop, config, start);
    RunCutHasCalls(loop, config, start);
    var r := Run(loop, config, start);
    if loop == Legacy { LegacyPaired(config, ending, r); } else { CompactPaired(config, ending, r); }
  }

  // ----- two turns that save an unanswered call -----

  /** The model calls on and the hop limit closes the turn. */
  lemma HopLimitLeavesCalls(base: seq<Message>)
    ensures var o := Turned(Legacy, Confirmation.Booking(Confirmation.BOOK, 1), Confirmation.Asking(false), base,
                            Confirmation.BOOK);
            o.Answer? && !Paired(o.added)
  {
    Confirmation.HopLimitDropsConfirmation(base);
    SavedIsPaired(Legacy, Confirmation.Booking(Confirmation.BOOK, 1), Confirmation.Asking(false), base,
                  Confirmation.BOOK);
  }

  /** A model that answers a format request with a call. */
  function CallingBack(): Config {
    var booking := Confirmation.Booking(Confirmation.BOOK, 1);
    booking.(model := (k: nat, messages: seq<Message>, ask: Ask) => Some(Confirmation.BOOK))
  }

  /** The first answer has the wrong format, and comes back with a call. */
  lemma ResendLeavesCalls(base: seq<Message>)
    ensures var o := Turned(Legacy, CallingBack(), Confirmation.Asking(true), base, Say("done"));
            o.Answer? && !Paired(o.added)
  {
    var config, ending, start := CallingBack(), Confirmation.Asking(true), Start(base, Say("done"));
    var r := start.(exit := Some(Finished));
    assert Step(Legacy, config, start) == r;
    assert Run(Legacy, config, start) == Run(Legacy, config, r) == r;
    assert Resent(config, ending, r) == Some(Confirmation.BOOK);
    SavedIsPaired(Legacy, config, ending, base, Say("done"));
  }

  // ----- the session it is saved to -----

  function StoredRole(role: Role): Session.Role {
    match role
    case System => Session.System
    case User => Session.User
    case Assistant => Session.Assistant
    case Tool => Session.Tool
    case OtherRole => Session.OtherRole
  }

  function Ids(calls: seq<Call>): seq<string> {
    seq(|calls|, i requires 0 <= i < |calls| => calls[i].id)
  }

  /** The messages as a session holds them; it numbers them when it loads them. */
  function Stored(messages: seq<Message>): seq<Session.Message> {
    seq(|messages|, i requires 0 <= i < |messages| =>
      Session.Message(0, StoredRole(messages[i].role), messages[i].content, Ids(messages[i].calls), messages[i].callId))
  }

  /** Calls come from the assistant only, and the message answers none. */
  predicate Spoken(m: Message) {
    m.role != Tool && (m.calls != [] ==> m.role == Assistant)
  }

  lemma StoredBlock(b: Block, rest: seq<Message>)
    requires Answered(b) && Spoken(b.reply)
    ensures Session.WellPaired(Stored([b.reply] + b.answers + rest)) <==> Session.WellPaired(Stored(rest))
  {
    var n := |b.reply.calls|;
    var all := Stored([b.reply] + b.answers + rest);
    assert all[1..1 + n] == Stored(b.answers) && all[1 + n..] == Stored(rest);
    assert Session.Answers(Stored(b.answers), Ids(b.reply.calls));
    assert n == 0 <==> all[0].calls == [];
  }

  lemma {:induction false} StoredAfter(blocks: seq<Block>, rest: seq<Message>)
    requires forall b :: b in blocks ==> Answered(b) && Spoken(b.reply)
    ensures Session.WellPaired(Stored(Flatten(blocks) + rest)) <==> Session.WellPaired(Stored(rest))
  {
    if blocks == [] {
      assert Flatten(blocks) + rest == rest;
    } else {
      var n := |blocks| - 1;
      var b := blocks[n];
      assert Flatten(blocks) + rest == Flatten(blocks[..n]) + ([b.reply] + b.answers + rest);
      StoredAfter(blocks[..n], [b.reply] + b.answers + rest);
      StoredBlock(b, rest);
    }
  }

  /** Messages that answer no calls are paired when none has any. */
  lemma {:induction false} StoredRest(rest: seq<Message>)
    requires forall m :: m in rest ==> Spoken(m)
    ensures Session.WellPaired(Stored(rest)) <==> Paired(rest)
    decreases |rest|
  {
    if rest != [] {
      var n := |rest[0].calls|;
      assert rest[0] in rest;
      assert Stored(rest)[1..] == Stored(rest[1..]);
      if n == 0 {
        StoredRest(rest[1..]);
      } else if |rest| > 1 {
        assert rest[1] in rest;
        assert 1 + n <= |rest| ==> rest[1..1 + n][0] == rest[1] && Stored(rest)[1..1 + n][0] == Stored(rest)[1];
      }
    }
  }

  lemma {:induction false} WellPairedAppend(a: seq<Session.Message>, b: seq<Session.Message>)
    requires Session.WellPaired(a)
    ensures Session.WellPaired(a + b) <==> Session.WellPaired(b)
    decreases |a|
  {
    if a == [] {
      assert a + b == b;
    } else {
      var n := if Session.Dangling(a[0]) then 1 + |a[0].calls| else 1;
      assert (a + b)[n..] == a[n..] + b && (a + b)[1..n] == a[1..n];
      WellPairedAppend(a[n..], b);
    }
  }

  ghost predicate ModelSpeaks(config: Config) {
    forall k: nat, messages: seq<Message>, ask: Ask ::
      config.model(k, messages, ask).Some? ==> Spoken(config.model(k, messages, ask).value)
  }

  predicate AllSpoken(t: Turn) {
    Spoken(t.reply) && forall b :: b in t.past.blocks ==> Spoken(b.reply)
  }

  lemma SendSpeaks(config: Config, t: Turn, ask: Ask)
    requires ModelSpeaks(config) && AllSpoken(t)
    ensures AllSpoken(Send(config, t, ask))
  {
    assert config.model(t.past.sends, t.base + t.since, ask).Some?
      ==> Spoken(config.model(t.past.sends, t.base + t.since, ask).value);
  }

  lemma HopSpeaks(config: Config, t: Turn)
    requires AllSpoken(t)
    ensures AllSpoken(RunHop(config, t))
  {
  }

  lemma AfterHopSpeaks(config: Config, h: Turn, e: Exit)
    requires ModelSpeaks(config) && AllSpoken(h)
    ensures AllSpoken(AfterHop(config, h, e))
  {
    SendSpeaks(config, h, AfterTools);
    AfterHopShape(config, h, e);
  }

  lemma DismissedSpeaks(config: Config, t: Turn, n: Counters, verified: nat, ask: Ask)
    requires ModelSpeaks(config) && AllSpoken(t)
    ensures AllSpoken(Send(config, Dismissed(t, n, verified), ask))
  {
    SendSpeaks(config, Dismissed(t, n, verified), ask);
  }

  lemma SettleSpeaks(config: Config, t: Turn, verdict: Verdict)
    requires ModelSpeaks(config) && AllSpoken(t)
    ensures AllSpoken(Settled(config, t, verdict))
  {
    match verdict
    case Repairing =>
      DismissedSpeaks(config, t, t.n.(repairs := t.n.repairs + 1), t.past.verified + 1, GroundingRepair);
    case FollowingUp => DismissedSpeaks(config, t, t.n.(followUps := t.n.followUps + 1), t.past.verified, FollowUpGate);
    case _ =>
  }

  lemma StepSpeaks(loop: Loop, config: Config, t: Turn)
    requires ModelSpeaks(config) && AllSpoken(t)
    ensures AllSpoken(Step(loop, config, t))
  {
    if t.reply.calls != [] {
      HopSpeaks(config, Counted(t));
      AfterHopSpeaks(config, RunHop(config, Counted(t)), SameSignatureExit(loop));
    } else if loop == Compact {
      SettleSpeaks(config, t, Judge(config, t.since, t.reply.content, t.n, t.past.verified));
    }
  }

  lemma {:induction false} RunSpeaks(loop: Loop, config: Config, t: Turn)
    requires ModelSpeaks(config) && AllSpoken(t)
    ensures AllSpoken(Run(loop, config, t))
    decreases if t.exit.Some? then 0 else 1 + Fuel(config, t.n)
  {
    if t.exit.None? {
      StepUsesFuel(loop, config, t);
      StepSpeaks(loop, config, t);
      RunSpeaks(loop, config, Step(loop, config, t));
    }
  }

  /** What an ending adds to the closed blocks answers no call. */
  ghost predicate SpeaksAfter(t: Turn, added: seq<Message>) {
    exists rest: seq<Message> :: added == Flatten(t.past.blocks) + rest && forall m :: m in rest ==> Spoken(m)
  }

  lemma CloseSpeaks(t: Turn, content: string)
    requires Closed(t) && AllSpoken(t)
    ensures SpeaksAfter(t, Close(t.since, content).added)
  {
    var rest := (if Open(t) then [t.reply] else []) + [Say(content)];
    assert Close(t.since, content).added == Flatten(t.past.blocks) + rest;
  }

  lemma PresentSpeaks(ending: Ending, t: Turn, since: seq<Message>, rest: seq<Message>, reply: Message,
                      fallback: Notice)
    requires since == Flatten(t.past.blocks) + rest && forall m :: m in rest ==> Spoken(m)
    ensures SpeaksAfter(t, Present(ending, since, reply, fallback).added)
  {
    var longer := rest + [Say(ending.wording(fallback))];
    assert since + [Say(ending.wording(fallback))] == Flatten(t.past.blocks) + longer;
    assert forall m :: m in longer ==> Spoken(m);
  }

  lemma FormattedSpeaks(config: Config, ending: Ending, t: Turn, fallback: Notice)
    requires ModelSpeaks(config) && t.since == Flatten(t.past.blocks) + [t.reply] && Spoken(t.reply)
    ensures var o := PresentFormatted(config, ending, t, fallback); o.Answer? ==> SpeaksAfter(t, o.added)
  {
    if ending.formatted(t.reply.content) {
      PresentSpeaks(ending, t, t.since, [t.reply], t.reply, fallback);
    } else {
      var request := Message(User, ending.formatRequest, "", []);
      var again := config.model(t.past.sends, t.base + (t.since + [request]), Reformat);
      if again.Some? {
        var rest := [t.reply, request, again.value];
        assert t.since + [request] + [again.value] == Flatten(t.past.blocks) + rest;
        PresentSpeaks(ending, t, t.since + [request] + [again.value], rest, again.value, fallback);
      }
    }
  }

  lemma LegacyFinishSpeaks(config: Config, ending: Ending, t: Turn)
    requires ModelSpeaks(config) && Closed(t) && AllSpoken(t) && t.exit == Some(Finished) && t.since != []
    ensures var o := LegacyOutcome(config, ending, t); o.Answer? ==> SpeaksAfter(t, o.added)
  {
    PresentedShape(ending, t);
    var u := Presented(ending, t);
    var notice := if t.n.loopCount == 0 && t.reply.role == Assistant then Safety
                  else NoProgressNotice(t.n.successful > 0);
    assert Spoken(u.reply);
    if GivesUp(u) {
      CloseSpeaks(u, ending.wording(Safety));
    } else {
      FormattedSpeaks(config, ending, u, notice);
      assert LegacyOutcome(config, ending, t) == PresentFormatted(config, ending, u, notice);
    }
  }

  lemma LegacySpeaks(config: Config, ending: Ending, t: Turn)
    requires ModelSpeaks(config) && Closed(t) && AllSpoken(t) && t.exit.Some? && t.since != []
    requires t.exit != Some(FollowUpExhausted)
    ensures var o := LegacyOutcome(config, ending, t); o.Answer? ==> SpeaksAfter(t, o.added)
  {
    var done := t.n.successful > 0;
    match t.exit.value
    case SendFailed | HandlerFailed =>
    case HopLimit => CloseSpeaks(t, GuardText(ending, HopLimit, LimitNotice(done)));
    case ErrorStreak => CloseSpeaks(t, GuardText(ending, ErrorStreak, Safety));
    case SameSignature => CloseSpeaks(t, GuardText(ending, SameSignature, NoProgressNotice(done)));
    case NoProgress => CloseSpeaks(t, GuardText(ending, NoProgress, NoProgressNotice(done)));
    case Finished => LegacyFinishSpeaks(config, ending, t);
  }

  lemma CompactSpeaks(config: Config, ending: Ending, t: Turn)
    requires Closed(t) && AllSpoken(t) && t.exit.Some? && t.since != []
    ensures var o := CompactOutcome(config, ending, t); o.Answer? ==> SpeaksAfter(t, o.added)
  {
    var done := t.n.successful > 0;
    match t.exit.value
    case SendFailed | HandlerFailed =>
    case HopLimit => CloseSpeaks(t, GuardText(ending, HopLimit, LimitWithResult));
    case ErrorStreak => CloseSpeaks(t, GuardText(ending, ErrorStreak, Safety));
    case SameSignature | NoProgress => CloseSpeaks(t, GuardText(ending, NoProgress, NoProgressNotice(done)));
    case FollowUpExhausted => CloseSpeaks(t, ExhaustedText(ending, t.since));
    case Finished => PresentSpeaks(ending, t, t.since, [t.reply], t.reply, NoProgressNotice(done));
  }

  lemma StoredAlike(t: Turn, added: seq<Message>)
    requires (forall b :: b in t.past.blocks ==> Answered(b) && Spoken(b.reply)) && SpeaksAfter(t, added)
    ensures Session.WellPaired(Stored(added)) <==> Paired(added)
  {
    var rest: seq<Message> :| added == Flatten(t.past.blocks) + rest && forall m :: m in rest ==> Spoken(m);
    StoredAfter(t.past.blocks, rest);
    StoredRest(rest);
    PairedAfter(t.past.blocks, rest);
  }

  /** The session after an answered turn, with the user's message and what the turn added: when the
      model speaks as the assistant, a well-paired session stays well-paired exactly when every
      call the turn saved is answered. */
  lemma SessionStaysPaired(loop: Loop, config: Config, ending: Ending, base: seq<Message>, reply: Message,
                           session: seq<Session.Message>, user: Message)
    requires ModelSpeaks(config) && Spoken(reply) && Session.WellPaired(session) && user.role == User
             && user.calls == []
    ensures var o := Turned(loop, config, ending, base, reply);
            o.Answer? ==> (Session.WellPaired(session + Stored([user] + o.added)) <==> Paired(o.added))
  {
    var start, o := Start(base, reply), Turned(loop, config, ending, base, reply);
    SinceGrows(loop, config, start);
    RunFits(loop, config, base, start);
    assert Closed(start);
    EveryHopClosesItsBlock(loop, config, start);
    RunSpeaks(loop, config, start);
    var r := Run(loop, config, start);
    if loop == Legacy { LegacySpeaks(config, ending, r); } else { CompactSpeaks(config, ending, r); }
    if o.Answer? {
      StoredAlike(r, o.added);
      WellPairedAppend(session, Stored([user] + o.added));
      assert Stored([user] + o.added)[1..] == Stored(o.added);
    }
  }
}
