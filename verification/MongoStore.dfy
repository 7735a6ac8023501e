/** The Mongo manager's `withLockedStore`: any number of clients load the store document,
    compute on it and save it under a condition on its revision.  One step of one client
    at a time, in any order. */
module MongoStore {
  import opened Wrappers
  import opened AuthStore

  /** A document written before revisions existed has none. */
  datatype Document = Document(revision: Option<int>, store: Store)

  /** `legacy`: what the old one-document-per-profile records amount to. */
  datatype Collection = Collection(doc: Option<Document>, legacy: Option<Store>)

  /** What an update function makes of a loaded store. */
  datatype Outcome = Changed(store: Store) | Unchanged | Failed

  /** What `loadStoreDocument` returns. */
  datatype Loaded = Loaded(revision: int, present: bool, store: Store)

  /** One `withLockedStore` call.  The numbers are history the client cannot see:
      how many commits there were when the call began (`began`) and when it last
      loaded (`seen`), and the place of its own commit (`at`, `wrote`). */
  datatype Client =
    | Idle
    | Loading(attempt: nat, began: nat)
    | Saving(attempt: nat, began: nat, seen: nat, loaded: Loaded)
    | Acknowledged(began: nat, at: nat)
    | KeptAsIs(began: nat, seen: nat)
    | GaveUp(began: nat)
    | Errored(wrote: Option<nat>)

  /** A write that reached the collection: `before` is the store it replaced. */
  datatype Commit = Commit(client: int, attempt: nat, before: Store, after: Store)

  datatype State = State(collection: Collection, clients: map<int, Client>, log: seq<Commit>)

  /** Each client's update function; an update may answer
      differently on each attempt (it reads the clock and refreshes tokens). */
  datatype Setup = Setup(updates: int -> nat -> Store -> Outcome)

  const MAX_ATTEMPTS := 8

  function Load(c: Collection): Loaded {
    match c.doc
    case Some(d) => Loaded(if d.revision.Some? then d.revision.value else 0, true, d.store)
    case None => if c.legacy.Some? then Loaded(0, true, c.legacy.value) else Loaded(0, false, EMPTY_STORE)
  }

  /** The filter of the conditional update against the stored document. */
  predicate Matches(d: Document, loaded: Loaded) {
    if loaded.present then d.revision == Some(loaded.revision) else d.revision == None
  }

  /** The upsert inserts when there is no document, updates a matching one, and
      fails with a duplicate key when the document does not match. */
  predicate Succeeds(c: Collection, loaded: Loaded) {
    c.doc.None? || Matches(c.doc.value, loaded)
  }

  function Save(c: Collection, loaded: Loaded, store: Store): Collection {
    c.(doc := Some(Document(Some(loaded.revision + 1), store)))
  }

  datatype Action =
    | Begin
    | Read
    | ReadError
    | Write
    | WriteErrorApplied
    | WriteErrorLost

  /** Everyone but `id` stays where they were. */
  ghost predicate OnlyMoves(s: State, t: State, id: int)
    requires id in t.clients
  {
    id in s.clients && t.clients == s.clients[id := t.clients[id]]
  }

  ghost predicate ClientStep(setup: Setup, s: State, t: State, id: int, action: Action) {
    && id in s.clients && id in t.clients && OnlyMoves(s, t, id)
    && var me, me' := s.clients[id], t.clients[id];
       match action
       case Begin =>
         me.Idle? && me' == Loading(0, |s.log|) && t.collection == s.collection && t.log == s.log
       case Read =>
         me.Loading? && me' == Saving(me.attempt, me.began, |s.log|, Load(s.collection))
         && t.collection == s.collection && t.log == s.log
       case ReadError =>
         me.Loading? && me' == Errored(None) && t.collection == s.collection && t.log == s.log
       case Write =>
         me.Saving? && WriteStep(setup, s, t, id, me, me')
       case WriteErrorApplied =>
         && me.Saving? && me' == Errored(Some(|s.log|)) && Succeeds(s.collection, me.loaded)
         && setup.updates(id)(me.attempt)(me.loaded.store).Changed? && Committed(setup, s, t, id, me)
       case WriteErrorLost =>
         me.Saving? && me' == Errored(None) && t.collection == s.collection && t.log == s.log
  }

  ghost predicate Committed(setup: Setup, s: State, t: State, id: int, me: Client)
    requires me.Saving? && setup.updates(id)(me.attempt)(me.loaded.store).Changed?
  {
    var after := setup.updates(id)(me.attempt)(me.loaded.store).store;
    && t.collection == Save(s.collection, me.loaded, after)
    && t.log == s.log + [Commit(id, me.attempt, Load(s.collection).store, after)]
  }

  ghost predicate WriteStep(setup: Setup, s: State, t: State, id: int, me: Client, me': Client)
    requires me.Saving?
  {
    match setup.updates(id)(me.attempt)(me.loaded.store)
    case Failed => me' == Errored(None) && t.collection == s.collection && t.log == s.log
    case Unchanged => me' == KeptAsIs(me.began, me.seen) && t.collection == s.collection && t.log == s.log
    case Changed(after) =>
      if Succeeds(s.collection, me.loaded) then me' == Acknowledged(me.began, |s.log|) && Committed(setup, s, t, id, me)
      else
        && t.collection == s.collection && t.log == s.log
        && me' == if me.attempt + 1 == MAX_ATTEMPTS then GaveUp(me.began) else Loading(me.attempt + 1, me.began)
  }

  ghost predicate Next(setup: Setup, s: State, t: State) {
    exists id, action :: ClientStep(setup, s, t, id, action)
  }

  ghost predicate Initial(s: State) {
    s.log == [] && forall id :: id in s.clients ==> s.clients[id] == Idle
  }

  /** An interleaving, from a collection in any condition: empty, legacy
      records only, or a document with or without a revision. */
  ghost predicate Run(setup: Setup, run: seq<State>) {
    && run != [] && Initial(run[0])
    && forall i :: 0 < i < |run| ==> Next(setup, run[i - 1], run[i])
  }

  // ----- the invariant -----

  /** What a load returns once `n` updates were committed on top of `start`. */
  function LoadAfter(start: Collection, log: seq<Commit>, n: nat): Loaded
    requires n <= |log|
  {
    var first := Load(start);
    if n == 0 then first else Loaded(first.revision + n, true, log[n - 1].after)
  }

  /** The commit at `i` replaced the store the one before left, with its
      client's function applied to it. */
  ghost predicate SerialAt(setup: Setup, start: Collection, log: seq<Commit>, i: nat)
    requires i < |log|
  {
    && log[i].before == LoadAfter(start, log, i).store
    && setup.updates(log[i].client)(log[i].attempt)(log[i].before) == Changed(log[i].after)
  }

  ghost predicate Serial(setup: Setup, start: Collection, log: seq<Commit>) {
    forall i :: 0 <= i < |log| ==> SerialAt(setup, start, log, i)
  }

  ghost predicate AppearsOnce(log: seq<Commit>, id: int, at: nat) {
    at < |log| && log[at].client == id && forall i :: 0 <= i < |log| && i != at ==> log[i].client != id
  }

  ghost predicate NeverAppears(log: seq<Commit>, id: int) {
    forall i :: 0 <= i < |log| ==> log[i].client != id
  }

  /** The document can be updated at all. */
  predicate Versioned(start: Collection) {
    start.doc.Some? ==> start.doc.value.revision.Some?
  }

  ghost predicate ClientOk(setup: Setup, start: Collection, log: seq<Commit>, id: int, me: Client) {
    match me
    case Idle => NeverAppears(log, id)
    case Loading(attempt, began) =>
      NeverAppears(log, id) && attempt < MAX_ATTEMPTS && began <= |log|
        && (Versioned(start) ==> began + attempt <= |log|)
    case Saving(attempt, began, seen, loaded) =>
      && NeverAppears(log, id) && attempt < MAX_ATTEMPTS && began <= seen <= |log|
      && (Versioned(start) ==> began + attempt <= seen)
      && loaded == LoadAfter(start, log, seen)
    case Acknowledged(began, at) => began <= at && AppearsOnce(log, id, at)
    case KeptAsIs(began, seen) => NeverAppears(log, id) && began <= seen <= |log|
    case GaveUp(began) => NeverAppears(log, id) && (Versioned(start) ==> began + MAX_ATTEMPTS <= |log|)
    case Errored(wrote) => if wrote.Some? then AppearsOnce(log, id, wrote.value) else NeverAppears(log, id)
  }

  /** The document is what the last commit left. */
  ghost predicate LogInv(setup: Setup, start: Collection, c: Collection, log: seq<Commit>) {
    && Serial(setup, start, log)
    && c.legacy == start.legacy
    && (log == [] ==> c == start)
    && (log != [] ==>
          && c.doc == Some(Document(Some(Load(start).revision + |log|), log[|log| - 1].after))
          && Versioned(start))
  }

  ghost predicate ClientsInv(setup: Setup, start: Collection, log: seq<Commit>, clients: map<int, Client>) {
    forall id :: id in clients ==> ClientOk(setup, start, log, id, clients[id])
  }

  ghost predicate Inv(setup: Setup, start: Collection, s: State) {
    LogInv(setup, start, s.collection, s.log) && ClientsInv(setup, start, s.log, s.clients)
  }

  // ----- every step keeps it -----

  /** The current document is what a load after the last commit returns. */
  lemma LoadIsCurrent(setup: Setup, start: Collection, s: State)
    requires Inv(setup, start, s)
    ensures Load(s.collection) == LoadAfter(start, s.log, |s.log|)
  {
  }

  /** A save right after its load goes through iff the document has a revision. */
  lemma FreshSave(c: Collection)
    ensures Succeeds(c, Load(c)) <==> Versioned(c)
  {
  }

  /** What a client loaded before the last commit no longer matches. */
  lemma StaleSaveFails(setup: Setup, start: Collection, c: Collection, log: seq<Commit>, seen: nat)
    requires LogInv(setup, start, c, log) && seen < |log|
    ensures !Succeeds(c, LoadAfter(start, log, seen))
  {
    assert LoadAfter(start, log, seen).revision == Load(start).revision + seen;
    assert c.doc.value.revision == Some(Load(start).revision + |log|);
  }

  /** The revision condition is exact: a save goes through iff nothing was
      committed since the client's load (and the document has a revision). */
  lemma SaveIffUnchanged(setup: Setup, start: Collection, s: State, id: int)
    requires Inv(setup, start, s) && id in s.clients && s.clients[id].Saving?
    ensures Succeeds(s.collection, s.clients[id].loaded) <==> s.clients[id].seen == |s.log| && Versioned(start)
  {
    var me := s.clients[id];
    assert ClientOk(setup, start, s.log, id, me);
    if me.seen < |s.log| {
      StaleSaveFails(setup, start, s.collection, s.log, me.seen);
    } else {
      LoadIsCurrent(setup, start, s);
      FreshSave(s.collection);
    }
  }

  lemma ClientOkAfterCommit(setup: Setup, start: Collection, log: seq<Commit>, c: Commit, id: int, me: Client)
    requires ClientOk(setup, start, log, id, me) && c.client != id
    ensures ClientOk(setup, start, log + [c], id, me)
  {
  }

  lemma CommitKeepsClients(setup: Setup, start: Collection, log: seq<Commit>, c: Commit,
                                    clients: map<int, Client>, id: int, me': Client)
    requires ClientsInv(setup, start, log, clients) && id in clients && clients[id].Saving? && c.client == id
    requires me' == Errored(Some(|log|)) || me' == Acknowledged(clients[id].began, |log|)
    ensures ClientsInv(setup, start, log + [c], clients[id := me'])
  {
    assert ClientOk(setup, start, log, id, clients[id]);
    forall other | other in clients
      ensures ClientOk(setup, start, log + [c], other, clients[id := me'][other])
    {
      if other != id { ClientOkAfterCommit(setup, start, log, c, other, clients[other]); }
    }
  }

  lemma LoadAfterSnoc(start: Collection, log: seq<Commit>, c: Commit, i: nat)
    requires i <= |log|
    ensures LoadAfter(start, log + [c], i) == LoadAfter(start, log, i)
  {
  }

  lemma SerialSnocAt(setup: Setup, start: Collection, log: seq<Commit>, c: Commit, i: nat)
    requires i < |log| && SerialAt(setup, start, log, i)
    ensures SerialAt(setup, start, log + [c], i)
  {
    LoadAfterSnoc(start, log, c, i);
    assert (log + [c])[i] == log[i];
  }

  lemma SerialSnoc(setup: Setup, start: Collection, log: seq<Commit>, c: Commit)
    requires Serial(setup, start, log) && c.before == LoadAfter(start, log, |log|).store
    requires setup.updates(c.client)(c.attempt)(c.before) == Changed(c.after)
    ensures Serial(setup, start, log + [c])
  {
    forall i | 0 <= i <= |log| ensures SerialAt(setup, start, log + [c], i) {
      if i < |log| { SerialSnocAt(setup, start, log, c, i); } else { LoadAfterSnoc(start, log, c, i); }
    }
  }

  lemma CommitKeepsLog(setup: Setup, start: Collection, s: State, id: int, attempt: nat, after: Store)
    requires LogInv(setup, start, s.collection, s.log)
    requires setup.updates(id)(attempt)(Load(s.collection).store) == Changed(after)
    requires Versioned(start)
    ensures var loaded := Load(s.collection);
            LogInv(setup, start, Save(s.collection, loaded, after), s.log + [Commit(id, attempt, loaded.store, after)])
  {
    var loaded := Load(s.collection);
    var log' := s.log + [Commit(id, attempt, loaded.store, after)];
    assert loaded == LoadAfter(start, s.log, |s.log|);
    SerialSnoc(setup, start, s.log, log'[|s.log|]);
  }

  lemma CommitKeepsInv(setup: Setup, start: Collection, s: State, t: State, id: int)
    requires Inv(setup, start, s) && id in s.clients && id in t.clients && s.clients[id].Saving?
    requires Succeeds(s.collection, s.clients[id].loaded)
    requires setup.updates(id)(s.clients[id].attempt)(s.clients[id].loaded.store).Changed?
    requires Committed(setup, s, t, id, s.clients[id]) && OnlyMoves(s, t, id)
    requires t.clients[id] == Errored(Some(|s.log|)) || t.clients[id] == Acknowledged(s.clients[id].began, |s.log|)
    ensures Inv(setup, start, t)
  {
    var me := s.clients[id];
    assert ClientOk(setup, start, s.log, id, me);
    SaveIffUnchanged(setup, start, s, id);
    LoadIsCurrent(setup, start, s);
    var after := setup.updates(id)(me.attempt)(me.loaded.store).store;
    CommitKeepsLog(setup, start, s, id, me.attempt, after);
    CommitKeepsClients(setup, start, s.log, Commit(id, me.attempt, me.loaded.store, after), s.clients, id,
                       t.clients[id]);
  }

  lemma QuietStepKeepsInv(setup: Setup, start: Collection, s: State, t: State, id: int)
    requires Inv(setup, start, s) && id in t.clients && OnlyMoves(s, t, id)
    requires t.collection == s.collection && t.log == s.log
    requires ClientOk(setup, start, s.log, id, t.clients[id])
    ensures Inv(setup, start, t)
  {
    assert ClientsInv(setup, start, s.log, s.clients[id := t.clients[id]]);
  }

  lemma StepKeepsInv(setup: Setup, start: Collection, s: State, t: State, id: int, action: Action)
    requires Inv(setup, start, s) && ClientStep(setup, s, t, id, action)
    ensures Inv(setup, start, t)
    ensures s.log <= t.log && |t.log| <= |s.log| + 1
  {
    var me := s.clients[id];
    assert ClientOk(setup, start, s.log, id, me);
    LoadIsCurrent(setup, start, s);
    match action {
      case Write =>
        SaveIffUnchanged(setup, start, s, id);
        var outcome := setup.updates(id)(me.attempt)(me.loaded.store);
        if outcome.Changed? && Succeeds(s.collection, me.loaded) {
          CommitKeepsInv(setup, start, s, t, id);
        } else {
          QuietStepKeepsInv(setup, start, s, t, id);
        }
      case WriteErrorApplied =>
        CommitKeepsInv(setup, start, s, t, id);
      case _ =>
        QuietStepKeepsInv(setup, start, s, t, id);
    }
  }

  lemma {:induction false} RunKeepsInv(setup: Setup, run: seq<State>, i: nat)
    requires Run(setup, run) && i < |run|
    ensures Inv(setup, run[0].collection, run[i])
  {
    if i > 0 {
      RunKeepsInv(setup, run, i - 1);
      var id, action :| ClientStep(setup, run[i - 1], run[i], id, action);
      StepKeepsInv(setup, run[0].collection, run[i - 1], run[i], id, action);
    }
  }

  // ----- what it means -----

  /** The store obtained by running the committed updates one after the other. */
  function Replay(setup: Setup, store: Store, log: seq<Commit>): Option<Store>
    decreases log
  {
    if log == [] then Some(store)
    else
      match setup.updates(log[0].client)(log[0].attempt)(store)
      case Changed(next) => Replay(setup, next, log[1..])
      case _ => None
  }

  predicate Chained(store: Store, log: seq<Commit>) {
    && (log != [] ==> log[0].before == store)
    && forall i :: 0 <= i < |log| - 1 ==> log[i + 1].before == log[i].after
  }

  lemma {:induction false} ReplayChain(setup: Setup, store: Store, log: seq<Commit>)
    requires Chained(store, log)
    requires forall i :: 0 <= i < |log| ==>
               setup.updates(log[i].client)(log[i].attempt)(log[i].before) == Changed(log[i].after)
    ensures Replay(setup, store, log) == Some(if log == [] then store else log[|log| - 1].after)
    decreases log
  {
    if log != [] {
      ReplayChain(setup, log[0].after, log[1..]);
    }
  }

  /** Over every interleaving, the stored document is what the committed updates
      produce when run one after the other, in commit order, from the initial
      store; each commit raises the revision by exactly one. */
  lemma Serialisable(setup: Setup, run: seq<State>, i: nat)
    requires Run(setup, run) && i < |run|
    ensures var first := Load(run[0].collection);
            && Replay(setup, first.store, run[i].log) == Some(Load(run[i].collection).store)
            && (run[i].log != [] ==>
                  && run[i].collection.doc.Some?
                  && run[i].collection.doc.value.revision == Some(first.revision + |run[i].log|))
  {
    var start := run[0].collection;
    RunKeepsInv(setup, run, i);
    var log, base := run[i].log, Load(start).store;
    forall k | 0 <= k < |log| - 1
      ensures log[k + 1].before == log[k].after
    {
      assert SerialAt(setup, start, log, k + 1);
    }
    if log != [] { assert SerialAt(setup, start, log, 0); }
    forall k | 0 <= k < |log|
      ensures setup.updates(log[k].client)(log[k].attempt)(log[k].before) == Changed(log[k].after)
    {
      assert SerialAt(setup, start, log, k);
    }
    ReplayChain(setup, base, log);
    LoadIsCurrent(setup, start, run[i]);
  }

  /** What the first commit of a run builds on: the document; without one the legacy records; and
      an empty store where there is neither.  Revisions are counted from the document's. */
  lemma FirstCommitBuildsOn(setup: Setup, run: seq<State>, i: nat)
    requires Run(setup, run) && i < |run| && run[i].log != []
    ensures var start := run[0].collection;
            && run[i].log[0].before == (if start.doc.Some? then start.doc.value.store
                                        else if start.legacy.Some? then start.legacy.value
                                        else Store(map[], map[], map[], map[]))
            && run[i].collection.doc.Some?
            && (start.doc.None? ==> run[i].collection.doc.value.revision == Some(|run[i].log|))
            && (start.doc.Some? ==>
                  start.doc.value.revision.Some?
                  && run[i].collection.doc.value.revision == Some(start.doc.value.revision.value + |run[i].log|))
  {
    RunKeepsInv(setup, run, i);
    assert SerialAt(setup, run[0].collection, run[i].log, 0);
  }

  /** No update drops a profile. */
  ghost predicate KeepsProfiles(setup: Setup) {
    forall id: int, a: nat, store: Store :: setup.updates(id)(a)(store).Changed?
      ==> store.profiles.Keys <= setup.updates(id)(a)(store).store.profiles.Keys
  }

  lemma {:induction false} CommitsKeepProfiles(setup: Setup, start: Collection, log: seq<Commit>, n: nat)
    requires KeepsProfiles(setup) && Serial(setup, start, log) && n < |log|
    ensures log[0].before.profiles.Keys <= log[n].after.profiles.Keys
  {
    assert SerialAt(setup, start, log, n);
    if n > 0 { CommitsKeepProfiles(setup, start, log, n - 1); }
  }

  /** The bootstrap loses nothing: when no update drops a profile, every profile of the legacy
      records, or of the document, is in the stored document at every later time. */
  lemma LegacyProfilesStay(setup: Setup, run: seq<State>, i: nat, id: string)
    requires Run(setup, run) && i < |run| && KeepsProfiles(setup)
    requires var start := run[0].collection;
             if start.doc.Some? then id in start.doc.value.store.profiles
             else start.legacy.Some? && id in start.legacy.value.profiles
    ensures run[i].log != [] ==> run[i].collection.doc.Some? && id in run[i].collection.doc.value.store.profiles
    ensures run[i].log == [] ==> run[i].collection == run[0].collection
  {
    RunKeepsInv(setup, run, i);
    if run[i].log != [] {
      FirstCommitBuildsOn(setup, run, i);
      CommitsKeepProfiles(setup, run[0].collection, run[i].log, |run[i].log| - 1);
    }
  }

  lemma {:induction false} LogOnlyGrows(setup: Setup, run: seq<State>, i: nat, j: nat)
    requires Run(setup, run) && i <= j < |run|
    ensures run[i].log <= run[j].log
  {
    if i < j {
      LogOnlyGrows(setup, run, i, j - 1);
      RunKeepsInv(setup, run, j - 1);
      var id, action :| ClientStep(setup, run[j - 1], run[j], id, action);
      StepKeepsInv(setup, run[0].collection, run[j - 1], run[j], id, action);
    }
  }

  /** An acknowledged update is committed, once, after its call began; it is
      still in the history at every later time. */
  lemma AcknowledgedIsNeverLost(setup: Setup, run: seq<State>, i: nat, j: nat, id: int)
    requires Run(setup, run) && i <= j < |run|
    requires id in run[i].clients && run[i].clients[id].Acknowledged?
    ensures var me := run[i].clients[id];
            me.began <= me.at && AppearsOnce(run[i].log, id, me.at) && me.at < |run[j].log|
              && run[j].log[me.at] == run[i].log[me.at]
  {
    RunKeepsInv(setup, run, i);
    assert ClientOk(setup, run[0].collection, run[i].log, id, run[i].clients[id]);
    LogOnlyGrows(setup, run, i, j);
  }

  /** A call that is under way began after `n` commits. */
  predicate BeganAfter(me: Client, n: nat) {
    match me
    case Loading(_, began) => began >= n
    case Saving(_, began, _, _) => began >= n
    case Acknowledged(began, _) => began >= n
    case KeptAsIs(began, _) => began >= n
    case GaveUp(began) => began >= n
    case _ => true
  }

  lemma StepKeepsBegan(setup: Setup, s: State, t: State, id: int, action: Action, other: int, n: nat)
    requires ClientStep(setup, s, t, id, action) && n <= |s.log|
    requires other in s.clients && BeganAfter(s.clients[other], n)
    ensures other in t.clients && BeganAfter(t.clients[other], n)
  {
  }

  /** Who has not begun at one time begins after all that was committed by then. */
  lemma {:induction false} IdleBeginsLater(setup: Setup, run: seq<State>, i: nat, j: nat, id: int)
    requires Run(setup, run) && i <= j < |run| && id in run[i].clients && run[i].clients[id].Idle?
    ensures id in run[j].clients && BeganAfter(run[j].clients[id], |run[i].log|)
  {
    if i < j {
      IdleBeginsLater(setup, run, i, j - 1, id);
      LogOnlyGrows(setup, run, i, j - 1);
      var mover, action :| ClientStep(setup, run[j - 1], run[j], mover, action);
      StepKeepsBegan(setup, run[j - 1], run[j], mover, action, id, |run[i].log|);
    }
  }

  /** A call that has not begun when another is acknowledged commits after it. */
  lemma RealTimeOrder(setup: Setup, run: seq<State>, i: nat, j: nat, first: int, second: int)
    requires Run(setup, run) && i <= j < |run|
    requires first in run[i].clients && run[i].clients[first].Acknowledged?
    requires second in run[i].clients && run[i].clients[second].Idle?
    requires second in run[j].clients && run[j].clients[second].Acknowledged?
    ensures run[i].clients[first].at < run[j].clients[second].at
  {
    AcknowledgedIsNeverLost(setup, run, i, i, first);
    AcknowledgedIsNeverLost(setup, run, j, j, second);
    IdleBeginsLater(setup, run, i, j, second);
  }

  /** A client that gave up has written nothing; and, on a document that has a
      revision, eight other updates were committed while it tried. */
  lemma GivingUpWroteNothing(setup: Setup, run: seq<State>, i: nat, id: int)
    requires Run(setup, run) && i < |run|
    requires id in run[i].clients && run[i].clients[id].GaveUp?
    ensures NeverAppears(run[i].log, id)
    ensures Versioned(run[0].collection) ==> run[i].clients[id].began + 8 <= |run[i].log|
  {
    RunKeepsInv(setup, run, i);
    assert ClientOk(setup, run[0].collection, run[i].log, id, run[i].clients[id]);
  }

  /** A document stored without a revision is never updated again: a load reads
      its revision as 0, and no save matches a missing revision with 0. */
  lemma UnversionedIsFrozen(setup: Setup, run: seq<State>, i: nat)
    requires Run(setup, run) && i < |run|
    ensures !Versioned(run[0].collection) ==> run[i].log == [] && run[i].collection == run[0].collection
  {
    RunKeepsInv(setup, run, i);
  }

  // ----- a client that can never save -----

  /** The only client, step by step: it loads and fails to save eight times. */
  function FrozenClient(store: Store, k: nat): Client {
    if k == 0 then Idle
    else if k > 2 * MAX_ATTEMPTS then GaveUp(0)
    else if k % 2 == 1 then Loading(k / 2, 0)
    else Saving(k / 2 - 1, 0, 0, Loaded(0, true, store))
  }

  function FrozenState(store: Store, k: nat): State {
    State(Collection(Some(Document(None, store)), None), map[1 := FrozenClient(store, k)], [])
  }

  lemma FrozenStep(setup: Setup, store: Store, k: nat)
    requires 0 < k <= 2 * MAX_ATTEMPTS + 1
    requires forall a: nat :: setup.updates(1)(a)(store).Changed?
    ensures Next(setup, FrozenState(store, k - 1), FrozenState(store, k))
  {
    var s, t := FrozenState(store, k - 1), FrozenState(store, k);
    var action := if k == 1 then Begin else if k % 2 == 0 then Read else Write;
    assert s.clients[1 := t.clients[1]] == t.clients;
    assert action == Write ==> s.clients[1].attempt == k / 2 - 1;
    assert ClientStep(setup, s, t, 1, action);
  }

  /** On a document without a revision even a client that is alone gives up, whatever its
      update makes of the store, as long as it changes something. */
  lemma AloneAndFrozen(setup: Setup, store: Store) returns (run: seq<State>)
    requires forall a: nat :: setup.updates(1)(a)(store).Changed?
    ensures Run(setup, run) && run[0] == FrozenState(store, 0) && run[|run| - 1].clients == map[1 := GaveUp(0)]
    ensures run[|run| - 1].collection == run[0].collection && run[|run| - 1].log == []
  {
    run := seq(2 * MAX_ATTEMPTS + 2, k requires 0 <= k < 2 * MAX_ATTEMPTS + 2 => FrozenState(store, k));
    forall i | 0 < i < |run| ensures Next(setup, run[i - 1], run[i]) {
      FrozenStep(setup, store, i);
    }
  }
}
