/** What the send loops return, told by their runs: which failures lead on to the next
    profile or the next model, and whose answer or error comes back. */
module Failover {
  import opened Wrappers
  import opened Text
  import opened AuthStore
  import opened SendCycle

  /** The two names of the provider whose every failure leads on. */
  predicate OpenAIProvider(provider: string) {
    var name := Lower(Trim(provider));
    name == "openai" || name == "openai-codex"
  }

  predicate Configured(m: Model) {
    m.openAI <==> OpenAIProvider(m.provider)
  }

  lemma ModelOfConfigured(provider: string, config: BuildConfig)
    ensures Configured(ModelOf(provider, config)) && ModelOf(provider, config).config == config
  {
  }

  // ----- one attempt -----

  predicate SameButThinking(a: BuildConfig, b: BuildConfig) {
    a.reasoning == b.reasoning && a.previousId == b.previousId
  }

  /** The complaint concerns something the request still has. */
  predicate ComplainsOf(m: Mentions, config: BuildConfig) {
    || (m.thinking && !config.thinkingDisabled)
    || (m.previousId && !Blank(config.previousId))
    || (m.summary && config.reasoning == Some(SummaryOn))
    || (m.reasoning && config.reasoning.Some?)
  }

  /** A request is changed exactly when it is called a bad one for something it has, and then
      only what was complained of goes: thinking is disabled, the earlier response is dropped,
      a summary is switched off, or the reasoning goes together with the earlier response. */
  lemma DowngradeDropsComplaint(reply: Reply, config: BuildConfig)
    requires reply.Rejected?
    ensures var m, r := reply.mentions, Downgrade(reply, config);
            && (r.Some? <==> reply.badRequest && ComplainsOf(m, config))
            && (r.Some? ==>
                  var after := r.value;
                  && (after.thinkingDisabled != config.thinkingDisabled ==>
                        m.thinking && after.thinkingDisabled && SameButThinking(after, config))
                  && (after.reasoning != config.reasoning && after.reasoning.Some? ==>
                        m.summary && config.reasoning == Some(SummaryOn) && after.reasoning == Some(SummaryOff)
                        && after.previousId == config.previousId)
                  && (after.reasoning != config.reasoning && after.reasoning.None? ==>
                        m.reasoning && after.previousId == "")
                  && (after.previousId != config.previousId ==>
                        after.previousId == "" && (m.previousId || after.reasoning.None? != config.reasoning.None?)))
  {
  }

  predicate Changes(reply: Reply, before: BuildConfig, after: BuildConfig) {
    reply.Rejected? && Downgrade(reply, before) == Some(after)
  }

  /** The requests of one attempt: each but the last is rejected and changed, and the last is
      answered or cannot be changed any more. */
  ghost predicate Attempted(replies: seq<Reply>, configs: seq<BuildConfig>, config: BuildConfig, provider: Provider,
                            k: nat, a: Attempt) {
    && |replies| == |configs| > 0 && configs[0] == config
    && a.next == k + |configs| && a.reply == replies[|replies| - 1]
    && (forall i :: 0 <= i < |replies| ==> replies[i] == provider(k + i))
    && (forall i :: 0 < i < |configs| ==> Changes(replies[i - 1], configs[i - 1], configs[i]))
    && (a.reply.Rejected? ==> Downgrade(a.reply, configs[|configs| - 1]).None?)
  }

  lemma {:induction false} AttemptRuns(config: BuildConfig, provider: Provider, k: nat)
    returns (replies: seq<Reply>, configs: seq<BuildConfig>)
    ensures Attempted(replies, configs, config, provider, k, RunAttempt(config, provider, k))
    decreases Weight(config)
  {
    var reply := provider(k);
    replies, configs := [reply], [config];
    if reply.Rejected? && Downgrade(reply, config).Some? {
      var lighter := Downgrade(reply, config).value;
      DowngradeLightens(reply, config);
      var more, rest := AttemptRuns(lighter, provider, k + 1);
      replies, configs := AttemptGrows(config, provider, k, more, rest, RunAttempt(lighter, provider, k + 1));
    }
  }

  lemma AttemptGrows(config: BuildConfig, provider: Provider, k: nat, more: seq<Reply>, rest: seq<BuildConfig>,
                     a: Attempt)
    returns (replies: seq<Reply>, configs: seq<BuildConfig>)
    requires rest != [] && Changes(provider(k), config, rest[0]) && Attempted(more, rest, rest[0], provider, k + 1, a)
    ensures Attempted(replies, configs, config, provider, k, a)
  {
    replies, configs := [provider(k)] + more, [config] + rest;
    forall i | 0 <= i < |replies| ensures replies[i] == provider(k + i) {
      if i > 0 { assert more[i - 1] == provider(k + 1 + (i - 1)); }
    }
    forall i | 0 < i < |configs| ensures Changes(replies[i - 1], configs[i - 1], configs[i]) {
      if i > 1 { assert Changes(more[i - 2], rest[i - 2], rest[i - 1]); }
    }
  }

  /** Without a manager there is one attempt, with the configured key; without a key there is none,
      and the login is refused. */
  lemma KeyAlone(world: World, m: Model, progress: Progress)
    requires world.manager.None?
    ensures var c := SendWithModel(world, m, progress);
            var attempt := RunAttempt(m.config, world.provider, progress.requests);
            if Blank(world.staticKey) then c == Cycle(progress, [], Some(RequestError(Auth)))
            else && c.attempts == [""] && c.progress == progress.(requests := attempt.next)
                 && (c.error.None? <==> attempt.reply.Parsed?)
                 && (c.error.Some? ==> c.error == Some(RequestError(attempt.reply.reason)))
  {
  }

  // ----- the profile loop -----

  /** A failure another profile is tried after. */
  predicate TriesNext(m: Model, reason: Reason) {
    OpenAIProvider(m.provider) || reason in {RateLimit, Full, Timeout, Auth}
  }

  /** One failed round from `p` to `q`: the manager selects a profile with a token, not tried
      before, its attempt fails for a reason that leads on, and the manager is told. */
  ghost predicate FailedRound(manager: Manager, world: World, m: Model, p: Progress, tried: seq<string>, q: Progress,
                              id: string, reason: Reason) {
    var (store, resolution) := manager.resolve(m.provider, p.store, p.calls);
    var attempt := RunAttempt(m.config, world.provider, p.requests);
    && resolution.Selected? && !Blank(resolution.selection.token)
    && id == Trim(resolution.selection.profileId) && id !in tried
    && !attempt.reply.Parsed? && reason == attempt.reply.reason && TriesNext(m, reason)
    && q == Progress(manager.settle(m.provider, store, p.calls + 1, id, attempt.reply), p.calls + 2, attempt.next)
  }

  /** The round that ends the cycle, after the rounds that tried `tried` and failed for `reasons`. */
  ghost predicate LastRound(manager: Manager, world: World, m: Model, p: Progress, tried: seq<string>,
                            reasons: seq<Reason>, c: Cycle) {
    var (store, resolution) := manager.resolve(m.provider, p.store, p.calls);
    var last := if reasons == [] then None else Some(reasons[|reasons| - 1]);
    var attempt := RunAttempt(m.config, world.provider, p.requests);
    if !resolution.Selected? || Blank(resolution.selection.token) then
      if reasons == [] && !OpenAIProvider(m.provider) && !Blank(world.staticKey) then
        && c.attempts == [""] && c.progress == Progress(store, p.calls + 1, attempt.next)
        && c.error == if attempt.reply.Parsed? then None else Some(RequestError(attempt.reply.reason))
      else
        && c.attempts == tried && c.progress == Progress(store, p.calls + 1, p.requests)
        && c.error == Some(Exhausted(if reasons == [] && !resolution.Selected? then Some(world.authErrorReason)
                                     else last))
    else if Trim(resolution.selection.profileId) in tried then
      && c.attempts == tried && c.progress == Progress(store, p.calls + 1, p.requests)
      && c.error == Some(Exhausted(last))
    else
      var id := Trim(resolution.selection.profileId);
      && c.attempts == tried + [id]
      && c.progress == Progress(manager.settle(m.provider, store, p.calls + 1, id, attempt.reply), p.calls + 2,
                                attempt.next)
      && if attempt.reply.Parsed? then c.error == None
         else c.error == Some(RequestError(attempt.reply.reason)) && attempt.reply.reason == Unknown
              && !OpenAIProvider(m.provider)
  }

  /** The rounds of a cycle: `path` the states between them. */
  ghost predicate Rounds(manager: Manager, world: World, m: Model, path: seq<Progress>, ids: seq<string>,
                         reasons: seq<Reason>) {
    && |path| == |ids| + 1 == |reasons| + 1
    && forall k :: 0 <= k < |ids| ==>
         FailedRound(manager, world, m, path[k], ids[..k], path[k + 1], ids[k], reasons[k])
  }

  lemma RoundFails(manager: Manager, world: World, m: Model, p: Progress, tried: seq<string>, reasons: seq<Reason>)
    requires Closed(manager) && Configured(m) && |tried| == |reasons|
    ensures var last := if reasons == [] then None else Some(reasons[|reasons| - 1]);
            var r := RunRound(manager, world, m, p, tried, last);
            if r.Next? then FailedRound(manager, world, m, p, tried, r.progress, r.id, r.reason)
            else LastRound(manager, world, m, p, tried, reasons, r.cycle)
  {
  }

  lemma RoundsSnoc(manager: Manager, world: World, m: Model, path: seq<Progress>, ids: seq<string>,
                   reasons: seq<Reason>, q: Progress, id: string, reason: Reason)
    requires Rounds(manager, world, m, path, ids, reasons)
    requires FailedRound(manager, world, m, path[|ids|], ids, q, id, reason)
    ensures Rounds(manager, world, m, path + [q], ids + [id], reasons + [reason])
  {
    var longer, more := ids + [id], reasons + [reason];
    forall k | 0 <= k < |longer|
      ensures FailedRound(manager, world, m, (path + [q])[k], longer[..k], (path + [q])[k + 1], longer[k], more[k])
    {
      assert longer[..k] == ids[..k];
      if k == |ids| { assert ids[..k] == ids; }
    }
  }

  /** From any round on. */
  lemma {:induction false} LoopRuns(manager: Manager, world: World, m: Model, path: seq<Progress>, ids: seq<string>,
                                    reasons: seq<Reason>)
    returns (allPath: seq<Progress>, allIds: seq<string>, allReasons: seq<Reason>)
    requires Closed(manager) && Configured(m) && Rounds(manager, world, m, path, ids, reasons)
    ensures Rounds(manager, world, m, allPath, allIds, allReasons) && path <= allPath
    ensures var last := if reasons == [] then None else Some(reasons[|reasons| - 1]);
            LastRound(manager, world, m, allPath[|allIds|], allIds, allReasons,
                      ProfileLoop(manager, world, m, path[|ids|], ids, last))
    decreases Eligible(manager, m, path[|ids|].store) - Elements(ids)
  {
    allPath, allIds, allReasons := path, ids, reasons;
    var last := if reasons == [] then None else Some(reasons[|reasons| - 1]);
    RoundFails(manager, world, m, path[|ids|], ids, reasons);
    match RunRound(manager, world, m, path[|ids|], ids, last)
    case Stop(_) =>
    case Next(q, id, reason) =>
      RoundsSnoc(manager, world, m, path, ids, reasons, q, id, reason);
      ElementsSnoc(ids, id);
      allPath, allIds, allReasons := LoopRuns(manager, world, m, path + [q], ids + [id], reasons + [reason]);
  }

  /** What one send cycle returns: the failed rounds it made, each with a profile of its own, and
      the round it ended with. */
  lemma CycleRuns(manager: Manager, world: World, m: Model, progress: Progress)
    returns (path: seq<Progress>, ids: seq<string>, reasons: seq<Reason>)
    requires Closed(manager) && Configured(m) && world.manager == Some(manager)
    ensures Rounds(manager, world, m, path, ids, reasons) && path[0] == progress
    ensures LastRound(manager, world, m, path[|ids|], ids, reasons, SendWithModel(world, m, progress))
  {
    path, ids, reasons := LoopRuns(manager, world, m, [progress], [], []);
  }

  // ----- the model loop -----

  /** The state the `n`-th cycle starts from. */
  ghost function StartOf(world: World, models: seq<Model>, progress: Progress, n: nat): Progress
    requires world.manager.Some? ==> Closed(world.manager.value)
    requires n <= |models|
  {
    if n == 0 then progress else SendWithModel(world, models[n - 1], StartOf(world, models, progress, n - 1)).progress
  }

  ghost function CycleAt(world: World, models: seq<Model>, progress: Progress, n: nat): Cycle
    requires world.manager.Some? ==> Closed(world.manager.value)
    requires n < |models|
  {
    SendWithModel(world, models[n], StartOf(world, models, progress, n))
  }

  /** A failed cycle the next model is tried after: any of the two OpenAI providers, else one that
      failed or was exhausted by a rate limit, a quota or a time-out, or was exhausted without a known cause. */
  predicate GoesOn(m: Model, error: SendError) {
    || OpenAIProvider(m.provider)
    || error in {RequestError(RateLimit), RequestError(Full), RequestError(Timeout), Exhausted(None),
                 Exhausted(Some(RateLimit)), Exhausted(Some(Full)), Exhausted(Some(Timeout)), Exhausted(Some(Unknown))}
  }

  /** One that ends the send: of another provider, for a refused login or an unknown request error. */
  predicate Ends(m: Model, error: SendError) {
    && !OpenAIProvider(m.provider)
    && error in {RequestError(Auth), RequestError(Unknown), Exhausted(Some(Auth))}
  }

  /** The send ends with the `n`-th cycle: those before it failed in a way that leads on, and it is
      the last, or succeeded, or failed for good. */
  ghost predicate ReturnsAt(world: World, models: seq<Model>, progress: Progress, n: nat,
                            result: (Progress, Option<SendError>))
    requires world.manager.Some? ==> Closed(world.manager.value)
  {
    && n < |models|
    && (forall k :: 0 <= k < n ==>
          var error := CycleAt(world, models, progress, k).error;
          error.Some? && GoesOn(models[k], error.value) && !Ends(models[k], error.value))
    && var c := CycleAt(world, models, progress, n);
       result == (c.progress, c.error)
       && (n + 1 == |models| || c.error.None? || Ends(models[n], c.error.value))
  }

  lemma WorthyIs(m: Model, error: SendError)
    requires Configured(m)
    ensures ModelFailoverWorthy(m, Classify(error)) <==> GoesOn(m, error)
    ensures GoesOn(m, error) <==> !Ends(m, error)
  {
    match error
    case RequestError(reason) =>
      match reason { case RateLimit => case Full => case Timeout => case Auth => case Unknown => }
    case Exhausted(cause) =>
      match cause {
        case None =>
        case Some(reason) =>
          match reason { case RateLimit => case Full => case Timeout => case Auth => case Unknown => }
      }
  }

  lemma {:induction false} StartsShift(world: World, models: seq<Model>, progress: Progress, n: nat)
    requires world.manager.Some? ==> Closed(world.manager.value)
    requires models != [] && n < |models|
    ensures StartOf(world, models, progress, n + 1)
         == StartOf(world, models[1..], SendWithModel(world, models[0], progress).progress, n)
  {
    if n > 0 { StartsShift(world, models, progress, n - 1); }
  }

  /** A first cycle that leads on comes before those of the other candidates. */
  lemma ReturnsLater(world: World, models: seq<Model>, progress: Progress, n: nat,
                     result: (Progress, Option<SendError>))
    requires world.manager.Some? ==> Closed(world.manager.value)
    requires models != []
    requires var c := SendWithModel(world, models[0], progress);
             && c.error.Some? && GoesOn(models[0], c.error.value) && !Ends(models[0], c.error.value)
             && ReturnsAt(world, models[1..], c.progress, n, result)
    ensures ReturnsAt(world, models, progress, n + 1, result)
  {
    var later := SendWithModel(world, models[0], progress).progress;
    forall k | 0 <= k <= n
      ensures CycleAt(world, models, progress, k + 1) == CycleAt(world, models[1..], later, k)
    {
      StartsShift(world, models, progress, k);
    }
    forall k | 0 <= k < n + 1
      ensures var error := CycleAt(world, models, progress, k).error;
              error.Some? && GoesOn(models[k], error.value) && !Ends(models[k], error.value)
    {
      if k > 0 {
        assert CycleAt(world, models, progress, k - 1 + 1) == CycleAt(world, models[1..], later, k - 1);
        assert models[k] == models[1..][k - 1];
      }
    }
  }

  /** What the model loop returns, for any candidates, manager and provider. */
  lemma {:induction false} ModelLoopReturns(world: World, models: seq<Model>, progress: Progress) returns (n: nat)
    requires world.manager.Some? ==> Closed(world.manager.value)
    requires models != [] && forall m :: m in models ==> Configured(m)
    ensures ReturnsAt(world, models, progress, n, SendWithCandidates(world, models, progress))
  {
    var c := SendWithModel(world, models[0], progress);
    assert Configured(models[0]) by { assert models[0] in models; }
    n := 0;
    if c.error.None? {
      assert c == CycleAt(world, models, progress, 0);
    } else {
      WorthyIs(models[0], c.error.value);
      if |models| == 1 || Ends(models[0], c.error.value) {
        assert c == CycleAt(world, models, progress, 0);
      } else {
        var rest := ModelLoopReturns(world, models[1..], c.progress);
        ReturnsLater(world, models, progress, rest, SendWithCandidates(world, models[1..], c.progress));
        n := rest + 1;
      }
    }
  }
}
