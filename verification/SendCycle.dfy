/** One model send: the request-downgrade loop inside one attempt, the profile loop
    around it and the model-fallback loop around that, against an arbitrary provider. */
module SendCycle {
  import opened Wrappers
  import opened Text
  import opened AuthStore

  // ----- one attempt: downgrade and retry -----

  datatype Summary = SummaryUnset | SummaryOff | SummaryOn

  datatype BuildConfig = BuildConfig(reasoning: Option<Summary>, previousId: string, thinkingDisabled: bool)

  /** What the text of a rejected request complains about. */
  datatype Mentions = Mentions(thinking: bool, previousId: bool, summary: bool, reasoning: bool)

  /** `badRequest`: the error is an API error with status 400 or 422. */
  datatype Reply =
    | Parsed
    | Unparsable(reason: Reason)
    | Rejected(reason: Reason, badRequest: bool, mentions: Mentions)

  /** The provider: what its k-th request gets back. */
  type Provider = nat -> Reply

  function Downgrade(reply: Reply, config: BuildConfig): Option<BuildConfig>
    requires reply.Rejected?
  {
    var m := reply.mentions;
    if !reply.badRequest then None
    else if !config.thinkingDisabled && m.thinking then Some(config.(thinkingDisabled := true))
    else if !Blank(config.previousId) && m.previousId then Some(config.(previousId := ""))
    else if config.reasoning == Some(SummaryOn) && m.summary then Some(config.(reasoning := Some(SummaryOff)))
    else if config.reasoning.Some? && m.reasoning then Some(config.(reasoning := None, previousId := ""))
    else None
  }

  /** How many features of the request can still be turned off. */
  function Weight(config: BuildConfig): (w: nat)
    ensures w <= 4
  {
    (if config.thinkingDisabled then 0 else 1) + (if Blank(config.previousId) then 0 else 1)
    + (if config.reasoning == Some(SummaryOn) then 1 else 0) + (if config.reasoning.Some? then 1 else 0)
  }

  lemma DowngradeLightens(reply: Reply, config: BuildConfig)
    requires reply.Rejected? && Downgrade(reply, config).Some?
    ensures Weight(Downgrade(reply, config).value) < Weight(config)
  {
  }

  datatype Attempt = Attempt(next: nat, reply: Reply)

  /** The attempt that starts with request number `k`: its last reply, and the
      number of the next request. */
  function RunAttempt(config: BuildConfig, provider: Provider, k: nat): (a: Attempt)
    ensures k < a.next <= k + 1 + Weight(config)
    ensures a.reply == provider(a.next - 1)
    decreases Weight(config)
  {
    var reply := provider(k);
    if reply.Rejected? && Downgrade(reply, config).Some? then
      DowngradeLightens(reply, config);
      RunAttempt(Downgrade(reply, config).value, provider, k + 1)
    else Attempt(k + 1, reply)
  }

  method AttemptModelRequest(config: BuildConfig, provider: Provider, k: nat) returns (next: nat, reply: Reply)
    ensures Attempt(next, reply) == RunAttempt(config, provider, k)
    ensures next <= k + 5
  {
    var current := config;
    next := k;
    while true
      invariant k <= next
      invariant RunAttempt(current, provider, next) == RunAttempt(config, provider, k)
      decreases Weight(current)
    {
      reply := provider(next);
      next := next + 1;
      if !reply.Rejected? { return; }
      var lighter := Downgrade(reply, current);
      if lighter.None? { return; }
      DowngradeLightens(reply, current);
      current := lighter.value;
    }
  }

  const COMPLAINS_ABOUT_ALL := Rejected(Unknown, true, Mentions(true, true, true, true))

  /** The bound is met exactly: a provider that complains about everything is
      sent one request for each feature, and a last one. */
  lemma {:induction false} EveryFeatureCostsOneRequest(config: BuildConfig, provider: Provider, k: nat)
    requires forall i: nat :: i >= k ==> provider(i) == COMPLAINS_ABOUT_ALL
    ensures RunAttempt(config, provider, k).next == k + 1 + Weight(config)
    decreases Weight(config)
  {
    var lighter := Downgrade(COMPLAINS_ABOUT_ALL, config);
    if lighter.Some? {
      DowngradeLightens(COMPLAINS_ABOUT_ALL, config);
      assert Weight(lighter.value) + 1 == Weight(config);
      EveryFeatureCostsOneRequest(lighter.value, provider, k + 1);
    }
  }

  // ----- policies -----

  predicate IsOpenAI(provider: string) {
    NormalizeProvider(provider) in {"openai-codex", "openai"}
  }

  /** `openAI` is what `isOpenAICodexProvider` says of the provider. */
  datatype Model = Model(provider: string, openAI: bool, config: BuildConfig)

  function ModelOf(provider: string, config: BuildConfig): Model {
    Model(provider, IsOpenAI(provider), config)
  }

  predicate ProfileRetryWorthy(model: Model, reason: Reason) {
    model.openAI || reason != Unknown
  }

  predicate ModelFailoverWorthy(model: Model, reason: Reason) {
    model.openAI || reason.RateLimit? || reason.Full? || reason.Timeout?
  }

  /** `Exhausted` carries the reason its cause is classified as, if it has one. */
  datatype SendError = RequestError(reason: Reason) | Exhausted(cause: Option<Reason>)

  function Classify(error: SendError): Reason {
    match error
    case RequestError(reason) => reason
    case Exhausted(cause) => if cause.Some? && cause.value != Unknown then cause.value else Full
  }

  // ----- the profile loop -----

  /** The `AuthManager` interface: what its k-th call, a `ResolveAuth` or the
      `MarkSuccess`/`MarkFailure` that settles an attempt, does to the store; and
      the profiles it may ever select for a provider. */
  datatype Manager = Manager(resolve: (string, Store, nat) -> (Store, Resolution),
                             settle: (string, Store, nat, string, Reply) -> Store,
                             pool: (string, Store) -> set<string>)

  /** The manager selects from its pools only, and a send does not change them.
      Profiles may still come and go within a pool. */
  ghost predicate Closed(manager: Manager) {
    && (forall p, s, k :: manager.resolve(p, s, k).1.Selected?
                          ==> manager.resolve(p, s, k).1.selection.profileId in manager.pool(p, s))
    && (forall p, q, s, k :: manager.pool(q, manager.resolve(p, s, k).0) == manager.pool(q, s))
    && (forall p, q, s, k, id, r :: manager.pool(q, manager.settle(p, s, k, id, r)) == manager.pool(q, s))
  }

  /** What a send meets: the manager if one is configured, the static key, the
      provider, and how a failed resolve is classified. */
  datatype World = World(manager: Option<Manager>, staticKey: string, provider: Provider, authErrorReason: Reason)

  /** The store, the number of manager calls and of requests made so far. */
  datatype Progress = Progress(store: Store, calls: nat, requests: nat)

  /** What a send cycle leaves: `attempts` lists the profiles tried, in order,
      with "" for the static key; `error` is None when a request succeeded. */
  datatype Cycle = Cycle(progress: Progress, attempts: seq<string>, error: Option<SendError>)

  function Elements(ids: seq<string>): set<string> {
    set id | id in ids
  }

  /** The ids an attempt can be made under, trimmed as the loop does. */
  function Eligible(manager: Manager, model: Model, store: Store): set<string> {
    set id | id in manager.pool(model.provider, store) :: Trim(id)
  }

  /** No pool differs. */
  ghost predicate SamePools(manager: Manager, s: Store, t: Store) {
    forall q :: manager.pool(q, s) == manager.pool(q, t)
  }

  function TryStaticKey(world: World, model: Model, progress: Progress): (c: Cycle)
    ensures c.progress.store == progress.store
    ensures progress.requests <= c.progress.requests <= progress.requests + 5
  {
    if Blank(world.staticKey) then Cycle(progress, [], Some(RequestError(Auth)))
    else
      var attempt := RunAttempt(model.config, world.provider, progress.requests);
      Cycle(progress.(requests := attempt.next), [""],
            if attempt.reply.Parsed? then None else Some(RequestError(attempt.reply.reason)))
  }

  /** One round of the profile loop: it ends the cycle, or it tried profile
      `id`, failed with `reason` and goes on. */
  datatype Round = Stop(cycle: Cycle) | Next(progress: Progress, id: string, reason: Reason)

  /** The attempt with the profile `id`, and what its failure calls for. */
  function TryId(manager: Manager, world: World, model: Model, resolved: Progress, attempts: seq<string>,
                 id: string): Round {
    var attempt := RunAttempt(model.config, world.provider, resolved.requests);
    var settled := manager.settle(model.provider, resolved.store, resolved.calls, id, attempt.reply);
    var next := Progress(settled, resolved.calls + 1, attempt.next);
    if attempt.reply.Parsed? then Stop(Cycle(next, attempts + [id], None))
    else if !ProfileRetryWorthy(model, attempt.reply.reason) then
      Stop(Cycle(next, attempts + [id], Some(RequestError(attempt.reply.reason))))
    else Next(next, id, attempt.reply.reason)
  }

  /** The round once the manager has answered. */
  function ActOn(manager: Manager, world: World, model: Model, resolved: Progress, resolution: Resolution,
                 attempts: seq<string>, last: Option<Reason>): Round {
    if !resolution.Selected? || Blank(resolution.selection.token) then
      if attempts == [] && last.None? && !model.openAI && !Blank(world.staticKey)
      then Stop(TryStaticKey(world, model, resolved))
      else Stop(Cycle(resolved, attempts, Some(Exhausted(Cause(last, resolution, world.authErrorReason)))))
    else
      var id := Trim(resolution.selection.profileId);
      if id in attempts then Stop(Cycle(resolved, attempts, Some(Exhausted(last))))
      else TryId(manager, world, model, resolved, attempts, id)
  }

  function RunRound(manager: Manager, world: World, model: Model, progress: Progress,
                    attempts: seq<string>, last: Option<Reason>): (r: Round)
    requires Closed(manager)
    ensures r.Next? ==> r.id in Eligible(manager, model, progress.store) && r.id !in attempts
                        && SamePools(manager, progress.store, r.progress.store)
  {
    var (store, resolution) := manager.resolve(model.provider, progress.store, progress.calls);
    assert manager.pool(model.provider, store) == manager.pool(model.provider, progress.store);
    ActOn(manager, world, model, Progress(store, progress.calls + 1, progress.requests), resolution, attempts, last)
  }

  /** The cause of an exhausted cycle: the last failure, else why nothing was resolved;
      none when a blank token was. */
  function Cause(last: Option<Reason>, resolution: Resolution, authErrorReason: Reason): Option<Reason> {
    if last.Some? then last else if resolution.Selected? then None else Some(authErrorReason)
  }

  /** The profile loop from its current state: the ids tried so far and the
      reason of the last failure. */
  ghost function ProfileLoop(manager: Manager, world: World, model: Model, progress: Progress,
                             attempts: seq<string>, last: Option<Reason>): Cycle
    requires Closed(manager)
    decreases Eligible(manager, model, progress.store) - Elements(attempts)
  {
    match RunRound(manager, world, model, progress, attempts, last)
    case Stop(cycle) => cycle
    case Next(next, id, reason) =>
      ElementsSnoc(attempts, id);
      ProfileLoop(manager, world, model, next, attempts + [id], Some(reason))
  }

  lemma ElementsSnoc(ids: seq<string>, id: string)
    ensures Elements(ids + [id]) == Elements(ids) + {id}
  {
  }

  ghost function SendWithModel(world: World, model: Model, progress: Progress): Cycle
    requires world.manager.Some? ==> Closed(world.manager.value)
  {
    match world.manager
    case None => TryStaticKey(world, model, progress)
    case Some(manager) => ProfileLoop(manager, world, model, progress, [], None)
  }

  /** The candidates in order, as long as the failures allow the next one. */
  ghost function SendWithCandidates(world: World, models: seq<Model>,
                                    progress: Progress): (r: (Progress, Option<SendError>))
    requires models != []
    requires world.manager.Some? ==> Closed(world.manager.value)
  {
    var cycle := SendWithModel(world, models[0], progress);
    if cycle.error.None? then (cycle.progress, None)
    else if |models| == 1 || !ModelFailoverWorthy(models[0], Classify(cycle.error.value)) then
      (cycle.progress, cycle.error)
    else SendWithCandidates(world, models[1..], cycle.progress)
  }

  // ----- bounds against an adversarial provider -----

  /** From `attempts` tried after `spent` requests, `c` tried every profile of
      `keys` at most once, at no more than 5 requests each. */
  ghost predicate Bounded(c: Cycle, attempts: seq<string>, spent: nat, keys: set<string>) {
    && (c.attempts == [""] || Elements(c.attempts) <= Elements(attempts) + keys)
    && NoDuplicates(c.attempts)
    && c.progress.requests <= spent + 5 * (|c.attempts| - |attempts|)
  }

  lemma BoundedUnchanged(c: Cycle, attempts: seq<string>, spent: nat, keys: set<string>)
    requires NoDuplicates(attempts) && c.attempts == attempts && c.progress.requests == spent
    ensures Bounded(c, attempts, spent, keys)
  {
  }

  lemma BoundedSnoc(c: Cycle, attempts: seq<string>, id: string, spent: nat, keys: set<string>)
    requires NoDuplicates(attempts) && id !in attempts && id in keys
    requires c.attempts == attempts + [id] && c.progress.requests <= spent + 5
    ensures Bounded(c, attempts, spent, keys)
  {
    ElementsSnoc(attempts, id);
  }

  lemma RoundKeepsPools(manager: Manager, world: World, model: Model, progress: Progress, attempts: seq<string>,
                        last: Option<Reason>)
    requires Closed(manager)
    ensures var r := RunRound(manager, world, model, progress, attempts, last);
            SamePools(manager, progress.store, if r.Stop? then r.cycle.progress.store else r.progress.store)
  {
    var store := manager.resolve(model.provider, progress.store, progress.calls).0;
    assert SamePools(manager, progress.store, store);
  }

  lemma RoundBound(manager: Manager, world: World, model: Model, progress: Progress, attempts: seq<string>,
                   last: Option<Reason>)
    requires Closed(manager)
    requires NoDuplicates(attempts)
    ensures var r := RunRound(manager, world, model, progress, attempts, last);
            && (r.Stop? ==> Bounded(r.cycle, attempts, progress.requests, Eligible(manager, model, progress.store)))
            && (r.Next? ==> r.progress.requests <= progress.requests + 5)
  {
    var r := RunRound(manager, world, model, progress, attempts, last);
    var keys := Eligible(manager, model, progress.store);
    if r.Stop? {
      var resolution := manager.resolve(model.provider, progress.store, progress.calls).1;
      if r.cycle.attempts == attempts {
        BoundedUnchanged(r.cycle, attempts, progress.requests, keys);
      } else if resolution.Selected? && !Blank(resolution.selection.token) {
        BoundedSnoc(r.cycle, attempts, Trim(resolution.selection.profileId), progress.requests, keys);
      }
    }
  }

  lemma {:induction false} ProfileLoopBound(manager: Manager, world: World, model: Model, progress: Progress,
                                            attempts: seq<string>, last: Option<Reason>)
    requires Closed(manager)
    requires NoDuplicates(attempts)
    ensures var c := ProfileLoop(manager, world, model, progress, attempts, last);
            && Bounded(c, attempts, progress.requests, Eligible(manager, model, progress.store))
            && SamePools(manager, progress.store, c.progress.store)
    decreases Eligible(manager, model, progress.store) - Elements(attempts)
  {
    RoundBound(manager, world, model, progress, attempts, last);
    RoundKeepsPools(manager, world, model, progress, attempts, last);
    match RunRound(manager, world, model, progress, attempts, last) {
      case Stop(_) =>
      case Next(next, id, reason) =>
        ElementsSnoc(attempts, id);
        ProfileLoopBound(manager, world, model, next, attempts + [id], Some(reason));
    }
  }

  lemma {:induction false} DistinctCount(ids: seq<string>)
    requires NoDuplicates(ids)
    ensures |Elements(ids)| == |ids|
  {
    if ids != [] {
      DistinctCount(ids[1..]);
      assert Elements(ids) == {ids[0]} + Elements(ids[1..]);
    }
  }

  lemma {:induction false} SubsetCount(a: set<string>, b: set<string>)
    requires a <= b
    ensures |a| <= |b|
  {
    if a != {} {
      var x :| x in a;
      SubsetCount(a - {x}, b - {x});
    }
  }

  lemma {:induction false} TrimmedCount(keys: set<string>)
    ensures |set id | id in keys :: Trim(id)| <= |keys|
  {
    if keys != {} {
      var id :| id in keys;
      TrimmedCount(keys - {id});
      assert (set x | x in keys :: Trim(x)) == (set x | x in keys - {id} :: Trim(x)) + {Trim(id)};
    }
  }

  function AtLeastOne(n: nat): nat {
    if n == 0 then 1 else n
  }

  /** The attempts a send cycle may need: one for each profile it may be given, and one
      for a static key. */
  function Allowance(world: World, model: Model, store: Store): nat {
    if world.manager.None? then 1 else AtLeastOne(|world.manager.value.pool(model.provider, store)|)
  }

  /** One send cycle makes at most one attempt for each profile the manager may select
      for the provider (at least one), and 5 requests each, whatever errors come back. */
  lemma CycleBound(world: World, model: Model, progress: Progress)
    requires world.manager.Some? ==> Closed(world.manager.value)
    ensures var c := SendWithModel(world, model, progress);
            && NoDuplicates(c.attempts)
            && |c.attempts| <= Allowance(world, model, progress.store)
            && c.progress.requests <= progress.requests + 5 * Allowance(world, model, progress.store)
            && (world.manager.Some? ==> SamePools(world.manager.value, progress.store, c.progress.store))
  {
    if world.manager.Some? {
      var c, manager := SendWithModel(world, model, progress), world.manager.value;
      ProfileLoopBound(manager, world, model, progress, [], None);
      if c.attempts != [""] {
        assert Elements([]) == {};
        DistinctCount(c.attempts);
        SubsetCount(Elements(c.attempts), Eligible(manager, model, progress.store));
        TrimmedCount(manager.pool(model.provider, progress.store));
      }
    }
  }

  /** The requests all candidates together may need. */
  function Budget(world: World, models: seq<Model>, store: Store): nat {
    if models == [] then 0 else 5 * Allowance(world, models[0], store) + Budget(world, models[1..], store)
  }

  lemma {:induction false} BudgetStays(world: World, models: seq<Model>, s: Store, t: Store)
    requires world.manager.Some? ==> SamePools(world.manager.value, s, t)
    ensures Budget(world, models, s) == Budget(world, models, t)
  {
    if models != [] {
      assert world.manager.Some? ==>
          world.manager.value.pool(models[0].provider, s) == world.manager.value.pool(models[0].provider, t);
      BudgetStays(world, models[1..], s, t);
    }
  }

  /** One `sendWithModelCandidates` call ends within 5 requests for each profile
      of each candidate. */
  lemma {:induction false} RequestBound(world: World, models: seq<Model>, progress: Progress)
    requires models != []
    requires world.manager.Some? ==> Closed(world.manager.value)
    ensures SendWithCandidates(world, models, progress).0.requests
         <= progress.requests + Budget(world, models, progress.store)
  {
    var cycle := SendWithModel(world, models[0], progress);
    CycleBound(world, models[0], progress);
    if |models| > 1 {
      BudgetStays(world, models[1..], progress.store, cycle.progress.store);
      RequestBound(world, models[1..], cycle.progress);
    }
  }
}
