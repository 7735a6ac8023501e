/** The lockout windows of the shared store: every interleaving of clients that run the
    manager's operations keeps the statistics sound, on a clock that does not go back. */
module SharedLockout {
  import opened AuthStore
  import opened MongoStore
  import Lockout

  /** What each attempt of each client does, and the time it reads. */
  datatype Calls = Calls(what: (int, nat) -> Lockout.Event, when: (int, nat) -> int)

  /** The updates are operations of the manager; they may also fail or change nothing. */
  ghost predicate Operates(setup: Setup, calls: Calls) {
    forall id: int, a: nat, store: Store :: setup.updates(id)(a)(store).Changed?
      ==> setup.updates(id)(a)(store).store == Lockout.Apply(store, calls.what(id, a), calls.when(id, a))
  }

  /** The time at each state of a run. */
  ghost predicate Forward(time: nat -> int) {
    time(0) > 0 && forall i: nat, j: nat :: i <= j ==> time(i) <= time(j)
  }

  /** Between states `j - 1` and `j` a client that loads has yet to read the clock, and one that
      leaves its save has read it. */
  ghost predicate ReadsClock(calls: Calls, time: nat -> int, s: State, t: State, j: nat) {
    forall id :: id in s.clients && id in t.clients ==>
      && (s.clients[id].Loading? && t.clients[id].Saving? ==> time(j) <= calls.when(id, t.clients[id].attempt))
      && (s.clients[id].Saving? && t.clients[id] != s.clients[id] ==> calls.when(id, s.clients[id].attempt) <= time(j))
  }

  ghost predicate ClockedRun(calls: Calls, time: nat -> int, run: seq<State>) {
    forall j :: 0 < j < |run| ==> ReadsClock(calls, time, run[j - 1], run[j], j)
  }

  /** When the `n`-th commit read the clock; `first` is the time of the store they started from. */
  function CommitTime(calls: Calls, first: int, log: seq<Commit>, n: nat): int
    requires n <= |log|
  {
    if n == 0 then first else calls.when(log[n - 1].client, log[n - 1].attempt)
  }

  /** The stored statistics are sound at the time of the last commit, which is past, and no
      client at its save read an earlier time than what it loaded. */
  ghost predicate Kept(calls: Calls, start: Collection, first: int, s: State, now: int) {
    && Lockout.AllSound(Load(s.collection).store, CommitTime(calls, first, s.log, |s.log|))
    && 0 <= CommitTime(calls, first, s.log, |s.log|) <= now
    && forall id :: id in s.clients && s.clients[id].Saving? ==>
         && s.clients[id].seen <= |s.log|
         && CommitTime(calls, first, s.log, s.clients[id].seen) <= calls.when(id, s.clients[id].attempt)
         && 0 < calls.when(id, s.clients[id].attempt)
  }

  lemma CommitTimeStays(calls: Calls, first: int, log: seq<Commit>, longer: seq<Commit>, n: nat)
    requires n <= |log| && log <= longer
    ensures CommitTime(calls, first, log, n) == CommitTime(calls, first, longer, n)
  {
  }

  /** A commit applies an operation to what its client loaded, at a later time. */
  lemma CommitKeeps(setup: Setup, calls: Calls, start: Collection, first: int, s: State, t: State, id: int,
                    before: int, now: int)
    requires Operates(setup, calls) && Inv(setup, start, s) && Kept(calls, start, first, s, before)
    requires id in s.clients && s.clients[id].Saving? && Succeeds(s.collection, s.clients[id].loaded)
    requires setup.updates(id)(s.clients[id].attempt)(s.clients[id].loaded.store).Changed?
    requires Committed(setup, s, t, id, s.clients[id])
    requires calls.when(id, s.clients[id].attempt) <= now
    ensures Lockout.AllSound(Load(t.collection).store, CommitTime(calls, first, t.log, |t.log|))
    ensures 0 <= CommitTime(calls, first, t.log, |t.log|) <= now
  {
    var me := s.clients[id];
    SaveIffUnchanged(setup, start, s, id);
    LoadIsCurrent(setup, start, s);
    assert ClientOk(setup, start, s.log, id, me);
    Lockout.ApplyKeepsAllSound(me.loaded.store, calls.what(id, me.attempt), CommitTime(calls, first, s.log, |s.log|),
                               calls.when(id, me.attempt));
  }

  lemma OthersKeep(calls: Calls, time: nat -> int, start: Collection, first: int, s: State, t: State, id: int, j: nat,
                   other: int)
    requires j > 0 && Kept(calls, start, first, s, time(j - 1)) && s.log <= t.log && Forward(time)
    requires id in t.clients && OnlyMoves(s, t, id) && ReadsClock(calls, time, s, t, j)
    requires t.clients[id].Saving? ==> s.clients[id].Loading? && t.clients[id].seen == |s.log|
    requires other in t.clients && t.clients[other].Saving?
    ensures t.clients[other].seen <= |t.log|
    ensures CommitTime(calls, first, t.log, t.clients[other].seen) <= calls.when(other, t.clients[other].attempt)
    ensures 0 < calls.when(other, t.clients[other].attempt)
  {
    CommitTimeStays(calls, first, s.log, t.log, t.clients[other].seen);
    assert 0 < time(0) <= time(j - 1) <= time(j);
    if other == id {
      assert time(j) <= calls.when(other, t.clients[other].attempt);
    } else {
      assert t.clients[other] == s.clients[other];
    }
  }

  lemma StepKeeps(setup: Setup, calls: Calls, time: nat -> int, start: Collection, first: int, s: State, t: State,
                  id: int, action: Action, j: nat)
    requires j > 0 && Operates(setup, calls) && Forward(time) && ReadsClock(calls, time, s, t, j)
    requires Inv(setup, start, s) && ClientStep(setup, s, t, id, action) && Kept(calls, start, first, s, time(j - 1))
    ensures Kept(calls, start, first, t, time(j))
  {
    StepKeepsInv(setup, start, s, t, id, action);
    assert time(j - 1) <= time(j);
    if t.log != s.log {
      CommitKeeps(setup, calls, start, first, s, t, id, time(j - 1), time(j));
    }
    forall other | other in t.clients && t.clients[other].Saving?
      ensures t.clients[other].seen <= |t.log|
      ensures CommitTime(calls, first, t.log, t.clients[other].seen) <= calls.when(other, t.clients[other].attempt)
      ensures 0 < calls.when(other, t.clients[other].attempt)
    {
      OthersKeep(calls, time, start, first, s, t, id, j, other);
    }
  }

  lemma NextKeeps(setup: Setup, calls: Calls, time: nat -> int, start: Collection, first: int, s: State, t: State,
                  j: nat)
    requires j > 0 && Operates(setup, calls) && Forward(time) && ReadsClock(calls, time, s, t, j)
    requires Inv(setup, start, s) && Next(setup, s, t) && Kept(calls, start, first, s, time(j - 1))
    ensures Kept(calls, start, first, t, time(j))
  {
    var id, action :| ClientStep(setup, s, t, id, action);
    StepKeeps(setup, calls, time, start, first, s, t, id, action, j);
  }

  lemma StartKeeps(calls: Calls, time: nat -> int, s: State, first: int)
    requires Initial(s) && 0 <= first <= time(0) && Lockout.AllSound(Load(s.collection).store, first)
    ensures Kept(calls, s.collection, first, s, time(0))
  {
  }

  /** The states of a run, each with what the next step needs. */
  lemma RunSteps(setup: Setup, calls: Calls, time: nat -> int, run: seq<State>, i: nat)
    requires Run(setup, run) && ClockedRun(calls, time, run) && 0 < i < |run|
    ensures Inv(setup, run[0].collection, run[i - 1]) && Next(setup, run[i - 1], run[i])
    ensures ReadsClock(calls, time, run[i - 1], run[i], i)
  {
    RunKeepsInv(setup, run, i - 1);
  }

  lemma {:induction false} RunKeeps(setup: Setup, calls: Calls, time: nat -> int, run: seq<State>, first: int, i: nat)
    requires Operates(setup, calls) && Forward(time) && Run(setup, run) && ClockedRun(calls, time, run) && 0 < i < |run|
    requires Kept(calls, run[0].collection, first, run[0], time(0))
    ensures Kept(calls, run[0].collection, first, run[i], time(i))
  {
    if i > 1 { RunKeeps(setup, calls, time, run, first, i - 1); }
    RunSteps(setup, calls, time, run, i);
    NextKeeps(setup, calls, time, run[0].collection, first, run[i - 1], run[i], i);
  }

  /** In every interleaving of clients that run the manager's operations and read a clock that does
      not go back between their load and their save, the stored statistics are sound at every
      time: counts and reasons agree, windows end within an hour and a day of the last failure,
      and every profile is usable a day after it. */
  lemma SharedStoreIsSound(setup: Setup, calls: Calls, time: nat -> int, run: seq<State>, first: int, i: nat)
    requires Operates(setup, calls) && Forward(time) && Run(setup, run) && ClockedRun(calls, time, run) && i < |run|
    requires 0 <= first <= time(0) && Lockout.AllSound(Load(run[0].collection).store, first)
    ensures Lockout.AllSound(Load(run[i].collection).store, time(i))
    ensures forall id, now {:trigger Unusable(Load(run[i].collection).store, id, now)} ::
              time(i) <= now && StatsOf(Load(run[i].collection).store, id).lastFailureAt + DAY_MS <= now
              ==> !Unusable(Load(run[i].collection).store, id, now)
  {
    StartKeeps(calls, time, run[0], first);
    if i > 0 { RunKeeps(setup, calls, time, run, first, i); }
  }
}
