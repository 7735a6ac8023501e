/** The send loops running on the file manager: the loops of `runtime_model_send.go`,
    proved to follow `SendCycle` step by step. */
module ModelSend {
  import opened Wrappers
  import opened Text
  import opened AuthStore
  import opened SendCycle
  import AuthManager
  import Failover
  import Resolving = Resolution

  /** What the manager is told about an attempt that ended with `reply`. */
  function SettleStore(session: string, provider: string, store: Store, id: string, reply: Reply, now: int): Store {
    match reply
    case Parsed => MarkSuccess(store, session, provider, id, now)
    case Unparsable(_) => MarkFailure(store, session, provider, id, Unknown, now)
    case Rejected(reason, _, _) => MarkFailure(store, session, provider, id, reason, now)
  }

  /** The file manager as an `AuthManager`: its k-th call reads `clock(k)`. */
  ghost function FileManager(session: string, clock: nat -> int, refresh: nat -> Refresher): Manager {
    Manager((p: string, s: Store, k: nat) => Resolve(s, session, p, clock(k), refresh(k)),
            (p: string, s: Store, k: nat, id: string, reply: Reply) => SettleStore(session, p, s, id, reply, clock(k)),
            (p: string, s: Store) => OwnProfiles(s, NormalizeProvider(p)))
  }

  /** `files` behaves as the file manager does. */
  ghost predicate Describes(files: Manager, session: string, clock: nat -> int, refresh: nat -> Refresher) {
    && (forall p: string, s: Store, k: nat {:trigger Resolve(s, session, p, clock(k), refresh(k))} ::
          files.resolve(p, s, k) == Resolve(s, session, p, clock(k), refresh(k)))
    && (forall p: string, s: Store, k: nat, id: string, reply: Reply
        {:trigger SettleStore(session, p, s, id, reply, clock(k))} ::
          files.settle(p, s, k, id, reply) == SettleStore(session, p, s, id, reply, clock(k)))
    && (forall p: string, s: Store {:trigger OwnProfiles(s, NormalizeProvider(p))} ::
          files.pool(p, s) == OwnProfiles(s, NormalizeProvider(p)))
  }

  lemma SettleKeepsProfiles(session: string, provider: string, store: Store, id: string, reply: Reply, now: int)
    ensures SettleStore(session, provider, store, id, reply, now).profiles == store.profiles
  {
  }

  lemma FailedMeans(was: Stats, reason: Reason, now: int)
    ensures var stats := FailStats(was, reason, now);
            && Locked(stats, now) && stats.errorCount == was.errorCount + 1 && stats.lastFailureAt == now
            && forall r :: Count(stats.failureCounts, r) == Count(was.failureCounts, r) + (if r == reason then 1 else 0)
  {
  }

  lemma FailureIsCounted(store: Store, session: string, provider: string, id: string, reason: Reason, now: int)
    requires !Blank(id)
    ensures StatsOf(MarkFailure(store, session, provider, id, reason, now), id)
            == FailStats(StatsOf(store, id), reason, now)
  {
  }

  /** After an answer the profile was used now and is locked at no time. */
  lemma AnsweredMeans(session: string, provider: string, store: Store, id: string, now: int)
    requires !Blank(id)
    ensures var stats := StatsOf(SettleStore(session, provider, store, id, Parsed, now), id);
            && stats.lastUsed == now && stats.errorCount == 0 && forall t :: t >= 0 ==> !Locked(stats, t)
  {
  }

  /** After anything else it is locked now and the reason is counted, one that cannot be read counting
      as unknown. */
  lemma SettledMeans(session: string, provider: string, store: Store, id: string, reply: Reply, now: int)
    requires !Blank(id) && !reply.Parsed?
    ensures var was, stats := StatsOf(store, id), StatsOf(SettleStore(session, provider, store, id, reply, now), id);
            var reason := if reply.Rejected? then reply.reason else Unknown;
            && Locked(stats, now) && stats.errorCount == was.errorCount + 1 && stats.lastFailureAt == now
            && forall r :: Count(stats.failureCounts, r)
                           == Count(was.failureCounts, r) + (if r == reason then 1 else 0)
  {
    var reason := if reply.Rejected? then reply.reason else Unknown;
    FailureIsCounted(store, session, provider, id, reason, now);
    FailedMeans(StatsOf(store, id), reason, now);
  }

  lemma ResolveKeepsOwn(store: Store, session: string, provider: string, now: int, refresh: Refresher, other: string)
    ensures var (after, r) := Resolve(store, session, provider, now, refresh);
            && OwnProfiles(after, other) == OwnProfiles(store, other)
            && (r.Selected? ==> r.selection.profileId in OwnProfiles(store, NormalizeProvider(provider)))
  {
    Resolving.ResolveSelectsOwn(store, session, provider, now, refresh);
    Resolving.SameHoldersOwnTheSame(store, Resolve(store, session, provider, now, refresh).0, other);
  }

  /** While sending, the file manager selects profiles of the provider only, and no
      provider gains or loses any. */
  lemma FileManagerClosed(session: string, clock: nat -> int, refresh: nat -> Refresher)
    ensures Closed(FileManager(session, clock, refresh))
    ensures Describes(FileManager(session, clock, refresh), session, clock, refresh)
  {
    var m := FileManager(session, clock, refresh);
    forall p, s, k
      ensures m.resolve(p, s, k).1.Selected? ==> m.resolve(p, s, k).1.selection.profileId in m.pool(p, s)
    {
      ResolveKeepsOwn(s, session, p, clock(k), refresh(k), p);
    }
    forall p, q, s, k
      ensures m.pool(q, m.resolve(p, s, k).0) == m.pool(q, s)
    {
      ResolveKeepsOwn(s, session, p, clock(k), refresh(k), NormalizeProvider(q));
    }
    forall p, q, s, k, id, r
      ensures m.pool(q, m.settle(p, s, k, id, r)) == m.pool(q, s)
    {
      SettleKeepsProfiles(session, p, s, id, r, clock(k));
    }
  }

  class Sender {
    const manager: AuthManager.FileAuthManager
    const session: string
    const staticKey: string
    const clock: nat -> int
    const refresh: nat -> Refresher
    const provider: Provider
    const authErrorReason: Reason
    /** The manager's calls, seen through the interface the loops use. */
    ghost const files: Manager
    var calls: nat
    var requests: nat

    constructor (manager: AuthManager.FileAuthManager, session: string, staticKey: string, clock: nat -> int,
                 refresh: nat -> Refresher, provider: Provider, authErrorReason: Reason)
      ensures this.manager == manager && this.session == session && this.staticKey == staticKey
      ensures this.clock == clock && this.refresh == refresh && this.provider == provider
      ensures this.authErrorReason == authErrorReason && calls == 0 && requests == 0
      ensures files == FileManager(session, clock, refresh) && Valid()
    {
      this.manager, this.session, this.staticKey := manager, session, staticKey;
      this.clock, this.refresh, this.provider, this.authErrorReason := clock, refresh, provider, authErrorReason;
      files := FileManager(session, clock, refresh);
      calls, requests := 0, 0;
      new;
      FileManagerClosed(session, clock, refresh);
    }

    ghost predicate Valid() {
      Closed(files) && Describes(files, session, clock, refresh)
    }

    ghost function Around(): World {
      World(Some(files), staticKey, provider, authErrorReason)
    }

    function Now(): Progress
      reads this, manager
    {
      Progress(manager.Contents(), calls, requests)
    }

    method Settle(provider: string, id: string, reply: Reply)
      requires Valid()
      modifies this`calls, manager
      ensures calls == old(calls) + 1
      ensures manager.Contents() == files.settle(provider, old(manager.Contents()), old(calls), id, reply)
      ensures manager.profiles == old(manager.profiles)
    {
      SettleKeepsProfiles(session, provider, manager.Contents(), id, reply, clock(calls));
      match reply {
        case Parsed => manager.MarkSuccess(session, provider, id, clock(calls));
        case Unparsable(_) => manager.MarkFailure(session, provider, id, Unknown, clock(calls));
        case Rejected(reason, _, _) => manager.MarkFailure(session, provider, id, reason, clock(calls));
      }
      assert manager.Contents() == SettleStore(session, provider, old(manager.Contents()), id, reply, clock(calls));
      calls := calls + 1;
    }

    method Resolve(provider: string) returns (resolution: Resolution)
      requires Valid()
      modifies this`calls, manager
      ensures calls == old(calls) + 1
      ensures (manager.Contents(), resolution) == files.resolve(provider, old(manager.Contents()), old(calls))
      ensures manager.profiles.Keys == old(manager.profiles).Keys
    {
      var changed;
      resolution, changed := manager.ResolveAuth(session, provider, clock(calls), refresh(calls));
      assert manager.Contents().profiles.Keys == old(manager.Contents()).profiles.Keys;
      calls := calls + 1;
    }

    /** The attempts a round makes on a selected profile. */
    method TryId(model: Model, attempts: seq<string>, id: string) returns (round: Round)
      requires Valid()
      modifies this`calls, this`requests, manager
      ensures round == SendCycle.TryId(files, Around(), model, old(Now()), attempts, id)
      ensures Now() == if round.Stop? then round.cycle.progress else round.progress
      ensures manager.profiles == old(manager.profiles)
    {
      var next, reply := AttemptModelRequest(model.config, provider, requests);
      requests := next;
      Settle(model.provider, id, reply);
      if reply.Parsed? { return Stop(Cycle(Now(), attempts + [id], None)); }
      if !ProfileRetryWorthy(model, reply.reason) {
        return Stop(Cycle(Now(), attempts + [id], Some(RequestError(reply.reason))));
      }
      return Next(Now(), id, reply.reason);
    }

    method TryStaticKey(model: Model) returns (cycle: Cycle)
      requires !Blank(staticKey)
      modifies this`requests
      ensures cycle == SendCycle.TryStaticKey(Around(), model, old(Now()))
      ensures cycle.progress == Now()
    {
      var next, reply := AttemptModelRequest(model.config, provider, requests);
      requests := next;
      cycle := Cycle(Now(), [""], if reply.Parsed? then None else Some(RequestError(reply.reason)));
    }

    /** The round once the manager has answered. */
    method ActOn(model: Model, resolution: Resolution, attempts: seq<string>, last: Option<Reason>)
      returns (round: Round)
      requires Valid()
      modifies this`calls, this`requests, manager
      ensures round == SendCycle.ActOn(files, Around(), model, old(Now()), resolution, attempts, last)
      ensures Now() == if round.Stop? then round.cycle.progress else round.progress
      ensures manager.profiles == old(manager.profiles)
    {
      if !resolution.Selected? || Blank(resolution.selection.token) {
        if attempts == [] && last.None? && !model.openAI && !Blank(staticKey) {
          var cycle := TryStaticKey(model);
          return Stop(cycle);
        }
        return Stop(Cycle(Now(), attempts, Some(Exhausted(Cause(last, resolution, authErrorReason)))));
      }
      var id := Trim(resolution.selection.profileId);
      if id in attempts {
        return Stop(Cycle(Now(), attempts, Some(Exhausted(last))));
      }
      round := TryId(model, attempts, id);
    }

    /** One round of the profile loop. */
    method TryNextProfile(model: Model, attempts: seq<string>, last: Option<Reason>) returns (round: Round)
      requires Valid()
      modifies this`calls, this`requests, manager
      ensures round == RunRound(files, Around(), model, old(Now()), attempts, last)
      ensures Now() == if round.Stop? then round.cycle.progress else round.progress
      ensures manager.profiles.Keys == old(manager.profiles).Keys
    {
      var resolution := Resolve(model.provider);
      round := ActOn(model, resolution, attempts, last);
    }

    /** The attempts allowed for a model: one for each profile of its provider. */
    ghost function OwnAllowance(model: Model): nat
      reads manager
    {
      AtLeastOne(|OwnProfiles(manager.Contents(), NormalizeProvider(model.provider))|)
    }

    method SendWithModel(model: Model) returns (attempts: seq<string>, error: Option<SendError>)
      requires Valid()
      modifies this`calls, this`requests, manager
      ensures Cycle(Now(), attempts, error) == SendCycle.SendWithModel(Around(), model, old(Now()))
      ensures |attempts| <= old(OwnAllowance(model)) && requests <= old(requests) + 5 * old(OwnAllowance(model))
      ensures manager.profiles.Keys == old(manager.profiles).Keys
    {
      attempts := [];
      var last: Option<Reason> := None;
      CycleBound(Around(), model, Now());
      assert Allowance(Around(), model, manager.Contents()) == OwnAllowance(model);
      while true
        invariant ProfileLoop(files, Around(), model, Now(), attempts, last)
               == ProfileLoop(files, Around(), model, old(Now()), [], None)
        invariant manager.profiles.Keys == old(manager.profiles).Keys
        decreases Eligible(files, model, manager.Contents()) - Elements(attempts)
      {
        var round := TryNextProfile(model, attempts, last);
        if round.Stop? { return round.cycle.attempts, round.cycle.error; }
        ElementsSnoc(attempts, round.id);
        attempts, last := attempts + [round.id], Some(round.reason);
      }
    }

    /** The requests allowed for all candidates. */
    ghost function OwnBudget(models: seq<Model>): nat
      reads manager
    {
      if models == [] then 0 else 5 * OwnAllowance(models[0]) + OwnBudget(models[1..])
    }

    lemma BudgetIsOwn(models: seq<Model>)
      requires Valid()
      ensures Budget(Around(), models, manager.Contents()) == OwnBudget(models)
    {
      if models != [] { BudgetIsOwn(models[1..]); }
    }

    lemma LoopReturns(models: seq<Model>, start: Progress)
      requires models != [] && Valid()
      ensures (forall m :: m in models ==> Failover.Configured(m)) ==>
                exists n: nat ::
                  Failover.ReturnsAt(Around(), models, start, n, SendWithCandidates(Around(), models, start))
    {
      if forall m :: m in models ==> Failover.Configured(m) {
        var n := Failover.ModelLoopReturns(Around(), models, start);
      }
    }

    /** The model loop: what it returns is told cycle by cycle. */
    method SendWithModelCandidates(models: seq<Model>) returns (error: Option<SendError>)
      requires models != [] && Valid()
      modifies this`calls, this`requests, manager
      ensures (Now(), error) == SendWithCandidates(Around(), models, old(Now()))
      ensures requests <= old(requests) + old(OwnBudget(models))
      ensures (forall m :: m in models ==> Failover.Configured(m)) ==>
                exists n: nat :: Failover.ReturnsAt(Around(), models, old(Now()), n, (Now(), error))
    {
      LoopReturns(models, Now());
      BudgetIsOwn(models);
      RequestBound(Around(), models, Now());
      error := None;
      for i := 0 to |models|
        invariant i < |models| ==>
                    SendWithCandidates(Around(), models[i..], Now()) == SendWithCandidates(Around(), models, old(Now()))
        invariant i == |models| ==> (Now(), error) == SendWithCandidates(Around(), models, old(Now()))
      {
        var attempts;
        attempts, error := SendWithModel(models[i]);
        assert models[i..][1..] == models[i + 1..];
        if error.None? { return; }
        if !ModelFailoverWorthy(models[i], Classify(error.value)) { return; }
      }
    }
  }
}
