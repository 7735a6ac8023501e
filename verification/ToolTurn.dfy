/** The tool-call loops of one turn, `execLegacy` and `runCompactAnswerLoop`, against an
    arbitrary model, arbitrary tool handlers and an arbitrary grounding verifier. */
module ToolTurn {
  import opened Wrappers
  import opened Text

  datatype Role = System | User | Assistant | Tool | OtherRole

  datatype Call = Call(id: string, name: string, arguments: string)

  datatype Message = Message(role: Role, content: string, callId: string, calls: seq<Call>)

  /** What the cache is keyed by; the tool definition hash of the legacy loop is
      a function of the name for the length of a turn. */
  datatype Key = Key(name: string, arguments: string)

  /** `Invalid`: a recoverable error, answered with an error payload.  `Fail`: an
      error that ends the turn. */
  datatype Exec = Valid(content: string) | Invalid(content: string) | Fail

  datatype Ran = Ran(key: Key, outcome: Exec)

  /** How a loop uses the tool cache: whether at all, whether an empty cached
      response counts as a hit, and whether hits count as successful calls. */
  datatype CachePolicy = CachePolicy(enabled: bool, rejectsEmpty: bool, countsHits: bool)

  const LEGACY_CACHE := CachePolicy(true, true, false)
  const COMPACT_CACHE := CachePolicy(true, false, true)

  datatype Guard = Guard(maxHops: int, maxSameSignature: int, maxNoProgress: int, maxToolErrors: int)

  datatype Ask = AfterTools | FollowUpGate | GroundingRepair | Reformat

  /** The k-th send of the turn, with the transcript so far; None when it fails. */
  type Model = (nat, seq<Message>, Ask) -> Option<Message>

  /** The k-th handler run of the turn. */
  type Handlers = (nat, Call) -> Exec

  /** Grounding repair; `needed` is the k-th verdict of the verifier. */
  datatype Repair = Repair(enabled: bool, maxAttempts: int, needed: (nat, string) -> bool)

  datatype Config = Config(policy: CachePolicy, guard: Guard, model: Model, handlers: Handlers,
                           progress: string -> bool, needsFollowUp: string -> bool, repair: Repair)

  datatype Exit =
    | SendFailed | HandlerFailed | HopLimit | ErrorStreak | SameSignature | NoProgress | FollowUpExhausted | Finished

  /** A processed hop, for the record. */
  datatype Hop = Hop(signature: string, progress: bool, calls: nat, invalid: nat)

  /** An assistant message and the tool messages that answer it. */
  datatype Block = Block(reply: Message, answers: seq<Message>)

  datatype Counters = Counters(loopCount: nat, invalid: nat, successful: nat, lastSignature: string,
                               repeated: nat, consecutive: nat, followUps: nat, repairs: nat)

  const ZERO := Counters(0, 0, 0, "", 0, 0, 0, 0)

  /** What happened so far; no branch of the loops reads it but the number of
      handler runs, sends and verdicts handed to the oracles. */
  datatype History = History(ran: seq<Ran>, hops: seq<Hop>, blocks: seq<Block>, sends: nat, verified: nat)

  /** The state of a loop: `base` is the transcript before the first answer,
      `since` what the turn added to it. */
  datatype Turn = Turn(base: seq<Message>, since: seq<Message>, reply: Message, cache: map<Key, string>,
                       n: Counters, past: History, exit: Option<Exit>)

  /** The turn after its first answer. */
  function Start(base: seq<Message>, reply: Message): Turn {
    Turn(base, [reply], reply, map[], ZERO, History([], [], [], 1, 0), None)
  }

  function KeyOf(call: Call): Key {
    Key(call.name, call.arguments)
  }

  function ToolMessage(content: string, call: Call): Message {
    Message(Tool, content, call.id, [])
  }

  function Signature(calls: seq<Call>): string {
    if calls == [] then ""
    else
      var part := Trim(calls[0].name) + "::" + Trim(calls[0].arguments);
      if |calls| == 1 then part else part + "||" + Signature(calls[1..])
  }

  // ----- one hop -----

  /** The calls of one answer, worked through: `out` the responses so far. */
  datatype Work = Work(cache: map<Key, string>, ran: seq<Ran>, invalid: nat, successful: nat, out: seq<Message>,
                       failed: bool)

  predicate Hit(policy: CachePolicy, cache: map<Key, string>, key: Key) {
    policy.enabled && key in cache && !(policy.rejectsEmpty && cache[key] == "")
  }

  function DoCall(config: Config, w: Work, call: Call): Work {
    var key := KeyOf(call);
    if Hit(config.policy, w.cache, key) then
      w.(out := w.out + [ToolMessage(w.cache[key], call)],
         successful := if config.policy.countsHits then w.successful + 1 else w.successful)
    else
      var outcome := config.handlers(|w.ran|, call);
      var w' := w.(ran := w.ran + [Ran(key, outcome)], cache := w.cache - {key});
      match outcome
      case Fail => w'.(failed := true)
      case Invalid(content) => w'.(invalid := w.invalid + 1, out := w.out + [ToolMessage(content, call)])
      case Valid(content) => w'.(cache := w.cache[key := content], successful := w.successful + 1,
                                 out := w.out + [ToolMessage(content, call)])
  }

  /** The calls in order; a handler failure ends it. */
  function DoCalls(config: Config, w: Work, calls: seq<Call>): (r: Work)
    ensures w.invalid <= r.invalid
    decreases calls
  {
    if calls == [] || w.failed then w else DoCalls(config, DoCall(config, w, calls[0]), calls[1..])
  }

  function WorkOf(t: Turn): Work {
    Work(t.cache, t.past.ran, t.n.invalid, t.n.successful, [], false)
  }

  predicate AnyProgress(progress: string -> bool, messages: seq<Message>) {
    exists m :: m in messages && m.role == Tool && progress(m.content)
  }

  /** The counters after a processed hop. */
  function Count(n: Counters, w: Work, signature: string, progress: bool): Counters {
    n.(invalid := w.invalid, successful := w.successful, lastSignature := signature,
       consecutive := if progress then 0 else n.consecutive + 1,
       repeated := if progress then 0
                   else if signature != "" && signature == n.lastSignature then n.repeated + 1
                   else 1)
  }

  /** One hop of a loop: the calls, their answers and the no-progress counters. */
  function RunHop(config: Config, t: Turn): Turn {
    HopDone(config, t, DoCalls(config, WorkOf(t), t.reply.calls))
  }

  function HopDone(config: Config, t: Turn, w: Work): Turn
    requires t.n.invalid <= w.invalid
  {
    if w.failed then
      t.(cache := w.cache, past := t.past.(ran := w.ran), exit := Some(HandlerFailed),
         n := t.n.(invalid := w.invalid, successful := w.successful))
    else
      var signature := Signature(t.reply.calls);
      var progress := AnyProgress(config.progress, w.out);
      t.(cache := w.cache, since := t.since + w.out, n := Count(t.n, w, signature, progress),
         past := t.past.(ran := w.ran, blocks := t.past.blocks + [Block(t.reply, w.out)],
                         hops := t.past.hops + [Hop(signature, progress, |t.reply.calls|, w.invalid - t.n.invalid)]))
  }

  /** The next answer of the model joins the transcript. */
  function Send(config: Config, t: Turn, ask: Ask): Turn {
    var past := t.past.(sends := t.past.sends + 1);
    match config.model(t.past.sends, t.base + t.since, ask)
    case None => t.(exit := Some(SendFailed), past := past)
    case Some(reply) => t.(reply := reply, since := t.since + [reply], past := past)
  }

  /** The guard a hop trips, if any; `sameSignatureExit` tells the loops apart. */
  function Tripped(guard: Guard, n: Counters, sameSignatureExit: Exit): Option<Exit> {
    if n.invalid >= guard.maxToolErrors && n.successful == 0 then Some(ErrorStreak)
    else if n.repeated >= guard.maxSameSignature then Some(sameSignatureExit)
    else if n.consecutive >= guard.maxNoProgress then Some(NoProgress)
    else None
  }

  /** After a hop: the guards, then the next answer. */
  function AfterHop(config: Config, h: Turn, sameSignatureExit: Exit): Turn {
    if h.exit.Some? then h
    else
      var tripped := Tripped(config.guard, h.n, sameSignatureExit);
      if tripped.Some? then h.(exit := tripped) else Send(config, h, AfterTools)
  }

  function Counted(t: Turn): Turn {
    t.(n := t.n.(loopCount := t.n.loopCount + 1))
  }

  /** A hop with the guards around it. */
  function GuardedHop(config: Config, t: Turn, sameSignatureExit: Exit): Turn {
    if t.n.loopCount + 1 > config.guard.maxHops then Counted(t).(exit := Some(HopLimit))
    else AfterHop(config, RunHop(config, Counted(t)), sameSignatureExit)
  }

  /** What a hop leaves alone, and how the counters move. */
  lemma HopFrame(config: Config, t: Turn)
    ensures var h := RunHop(config, t);
            && h.past.sends == t.past.sends && h.past.verified == t.past.verified
            && h.n.followUps == t.n.followUps && h.n.repairs == t.n.repairs && h.n.loopCount == t.n.loopCount
            && h.base == t.base && h.reply == t.reply
            && (h.exit != t.exit ==> h.exit == Some(HandlerFailed) && h.past.hops == t.past.hops
                                     && h.n.consecutive == t.n.consecutive && h.n.repeated == t.n.repeated)
            && (h.exit.None? ==> |h.past.hops| == |t.past.hops| + 1 && h.n.consecutive <= t.n.consecutive + 1
                                 && (h.n.repeated <= t.n.repeated + 1 || h.n.repeated <= 1))
  {
  }

  /** The ways the loop goes on after a hop. */
  lemma AfterHopShape(config: Config, h: Turn, sameSignatureExit: Exit)
    ensures var g := AfterHop(config, h, sameSignatureExit);
            || (h.exit.Some? && g == h)
            || (h.exit.None? && g.exit in {Some(ErrorStreak), Some(sameSignatureExit), Some(NoProgress)}
                && g == h.(exit := g.exit))
            || (h.exit.None? && Tripped(config.guard, h.n, sameSignatureExit).None? && g == Send(config, h, AfterTools))
  {
  }

  const MAX_FOLLOW_UPS := 2

  /** The latest tool message, if any. */
  function LatestTool(messages: seq<Message>): Option<Message> {
    if messages == [] then None
    else if messages[|messages| - 1].role == Tool then Some(messages[|messages| - 1])
    else LatestTool(messages[..|messages| - 1])
  }

  /** The answer, which called no tool, is done with; `verified` verdicts were asked for. */
  function Dismissed(t: Turn, n: Counters, verified: nat): Turn {
    t.(n := n, past := t.past.(blocks := t.past.blocks + [Block(t.reply, [])], verified := verified))
  }

  /** What an answer without calls calls for. */
  datatype Verdict = Done | Verified | Exhausted | Repairing | FollowingUp

  /** The verdict of the compact loop: the follow-up gate looks at the latest
      tool message of the turn, grounding repair only at turns without one. */
  function Judge(config: Config, since: seq<Message>, content: string, n: Counters, verified: nat): Verdict {
    match LatestTool(since)
    case None =>
      if config.repair.enabled && n.repairs < config.repair.maxAttempts && !Blank(content) then
        if config.repair.needed(verified, content) then Repairing else Verified
      else Done
    case Some(tool) =>
      if !config.needsFollowUp(tool.content) then Done
      else if n.followUps >= MAX_FOLLOW_UPS then Exhausted
      else FollowingUp
  }

  /** What the compact loop does with an answer that calls no tool. */
  function Settle(config: Config, t: Turn): Turn {
    Settled(config, t, Judge(config, t.since, t.reply.content, t.n, t.past.verified))
  }

  function Settled(config: Config, t: Turn, verdict: Verdict): Turn {
    match verdict
    case Done => t.(exit := Some(Finished))
    case Verified => t.(past := t.past.(verified := t.past.verified + 1), exit := Some(Finished))
    case Exhausted => t.(exit := Some(FollowUpExhausted))
    case Repairing => Send(config, Dismissed(t, t.n.(repairs := t.n.repairs + 1), t.past.verified + 1), GroundingRepair)
    case FollowingUp => Send(config, Dismissed(t, t.n.(followUps := t.n.followUps + 1), t.past.verified), FollowUpGate)
  }

  /** The verdicts that go on spend an allowance. */
  lemma SettleShape(config: Config, t: Turn) returns (verdict: Verdict)
    ensures Settle(config, t) == Settled(config, t, verdict)
    ensures verdict in {Verified, Repairing} ==> t.n.repairs < config.repair.maxAttempts
    ensures verdict == FollowingUp ==> t.n.followUps < MAX_FOLLOW_UPS
  {
    verdict := Judge(config, t.since, t.reply.content, t.n, t.past.verified);
  }

  /** The two loops: the legacy one stops at an answer without calls, the
      compact one may ask again. */
  datatype Loop = Legacy | Compact

  function SameSignatureExit(loop: Loop): Exit {
    if loop == Legacy then SameSignature else NoProgress
  }

  /** One iteration. */
  function Step(loop: Loop, config: Config, t: Turn): Turn {
    if t.reply.calls != [] then GuardedHop(config, t, SameSignatureExit(loop))
    else if loop == Legacy then t.(exit := Some(Finished))
    else Settle(config, t)
  }

  function Max0(n: int): nat {
    if n < 0 then 0 else n
  }

  /** What every iteration uses up: hops, follow-ups and repairs still allowed. */
  function Fuel(config: Config, n: Counters): nat {
    Max0(config.guard.maxHops + 1 - n.loopCount) + Max0(MAX_FOLLOW_UPS - n.followUps)
    + Max0(config.repair.maxAttempts - n.repairs)
  }

  lemma HopUsesFuel(config: Config, t: Turn, sameSignatureExit: Exit)
    requires t.exit.None?
    ensures var h := GuardedHop(config, t, sameSignatureExit); h.exit.None? ==> Fuel(config, h.n) < Fuel(config, t.n)
  {
    HopFrame(config, Counted(t));
    AfterHopShape(config, RunHop(config, Counted(t)), sameSignatureExit);
  }

  /** Every iteration that does not leave the loop makes the measure fall. */
  lemma StepUsesFuel(loop: Loop, config: Config, t: Turn)
    requires t.exit.None?
    ensures var r := Step(loop, config, t); r.exit.None? ==> Fuel(config, r.n) < Fuel(config, t.n)
  {
    if t.reply.calls != [] {
      HopUsesFuel(config, t, SameSignatureExit(loop));
    } else if loop == Compact {
      var _ := SettleShape(config, t);
    }
  }

  /** The loop to its end; it ends for every model, handler and verifier. */
  function Run(loop: Loop, config: Config, t: Turn): (r: Turn)
    ensures r.exit.Some?
    decreases if t.exit.Some? then 0 else 1 + Fuel(config, t.n)
  {
    if t.exit.Some? then t
    else
      StepUsesFuel(loop, config, t);
      Run(loop, config, Step(loop, config, t))
  }
}
