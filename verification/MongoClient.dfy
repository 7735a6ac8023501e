/** One `withLockedStore` call as its retry loop, other clients moving at every gap: it
    takes only steps of the protocol, so all that holds of every interleaving holds of
    the calls. */
module MongoClient {
  import opened Wrappers
  import opened MongoStore

  /** What can go wrong outside. */
  datatype Fault = NoFault | ReadFault | WriteFaultApplied | WriteFaultLost

  datatype Result = Done | UpdateFailed | StoreFailed | TooManyConflicts

  /** Steps of the protocol, one after the other. */
  ghost predicate Path(setup: Setup, path: seq<State>) {
    path != [] && forall i :: 0 < i < |path| ==> Next(setup, path[i - 1], path[i])
  }

  /** What others do from `s` on, with client `id` standing still. */
  ghost predicate Interlude(setup: Setup, id: int, s: State, path: seq<State>) {
    && Path(setup, [s] + path)
    && forall i :: 0 <= i < |path| ==> id in path[i].clients && id in s.clients && path[i].clients[id] == s.clients[id]
  }

  ghost predicate Courteous(setup: Setup, id: int, others: nat -> State -> seq<State>) {
    forall k: nat, s :: Interlude(setup, id, s, others(k)(s))
  }

  lemma PathJoins(setup: Setup, a: seq<State>, b: seq<State>)
    requires Path(setup, a) && Path(setup, [a[|a| - 1]] + b)
    ensures Path(setup, a + b)
  {
    var tail := [a[|a| - 1]] + b;
    forall i | 0 < i < |a + b| ensures Next(setup, (a + b)[i - 1], (a + b)[i]) {
      if i >= |a| { assert Next(setup, tail[i - |a|], tail[i - |a| + 1]); }
    }
  }

  lemma PathSteps(setup: Setup, path: seq<State>, t: State, id: int, action: Action)
    requires Path(setup, path) && ClientStep(setup, path[|path| - 1], t, id, action)
    ensures Path(setup, path + [t])
  {
    assert Next(setup, path[|path| - 1], t);
    assert forall i :: 0 < i < |path| ==> Next(setup, path[i - 1], path[i]);
  }

  function Last(s: State, path: seq<State>): State {
    if path == [] then s else path[|path| - 1]
  }

  /** How the call's result shows in the protocol. */
  predicate Shows(result: Result, me: Client) {
    match result
    case Done => me.Acknowledged? || me.KeptAsIs?
    case UpdateFailed => me == Errored(None)
    case StoreFailed => me.Errored?
    case TooManyConflicts => me.GaveUp?
  }

  function Move(s: State, id: int, me: Client): State {
    s.(clients := s.clients[id := me])
  }

  /** The loop: load, update, save if the revision is unchanged, at most eight times. */
  method WithLockedStore(setup: Setup, id: int, start: State, others: nat -> State -> seq<State>, fault: nat -> Fault)
    returns (result: Result, end: State, ghost path: seq<State>)
    requires id in start.clients && start.clients[id].Idle? && Courteous(setup, id, others)
    ensures Path(setup, path) && path[0] == start && path[|path| - 1] == end
    ensures id in end.clients && Shows(result, end.clients[id])
  {
    end, path := start, [start];
    ghost var began := |start.log|;
    var next := Move(end, id, Loading(0, |end.log|));
    PathSteps(setup, path, next, id, Begin);
    end, path := next, path + [next];
    var attempt := 0;
    while true
      invariant attempt < MAX_ATTEMPTS && id in end.clients && end.clients[id] == Loading(attempt, began)
      invariant Path(setup, path) && path[0] == start && path[|path| - 1] == end
      decreases MAX_ATTEMPTS - attempt
    {
      end, path := Pause(setup, id, end, others(2 * attempt)(end), path);
      var loaded := Load(end.collection);
      if fault(2 * attempt) == ReadFault {
        next := Move(end, id, Errored(None));
        PathSteps(setup, path, next, id, ReadError);
        return StoreFailed, next, path + [next];
      }
      next := Move(end, id, Saving(attempt, end.clients[id].began, |end.log|, loaded));
      PathSteps(setup, path, next, id, Read);
      end, path := next, path + [next];
      end, path := Pause(setup, id, end, others(2 * attempt + 1)(end), path);
      var done;
      done, result, end, path := Finish(setup, id, end, fault(2 * attempt + 1), path);
      if done { return; }
      attempt := attempt + 1;
    }
  }

  /** Others move while the client waits. */
  method Pause(setup: Setup, id: int, s: State, more: seq<State>, ghost path: seq<State>)
    returns (end: State, ghost longer: seq<State>)
    requires Path(setup, path) && path[|path| - 1] == s && id in s.clients && Interlude(setup, id, s, more)
    ensures Path(setup, longer) && longer[0] == path[0] && longer[|longer| - 1] == end
    ensures id in end.clients && end.clients[id] == s.clients[id]
  {
    PathJoins(setup, path, more);
    end, longer := Last(s, more), path + more;
  }

  /** The update function and the conditional save; `done` unless it is a conflict to retry. */
  method Finish(setup: Setup, id: int, s: State, fault: Fault, ghost path: seq<State>)
    returns (done: bool, result: Result, end: State, ghost longer: seq<State>)
    requires Path(setup, path) && path[|path| - 1] == s && id in s.clients && s.clients[id].Saving?
    requires s.clients[id].attempt < MAX_ATTEMPTS
    ensures Path(setup, longer) && longer[0] == path[0] && longer[|longer| - 1] == end && id in end.clients
    ensures if done then Shows(result, end.clients[id])
            else
              end.clients[id] == Loading(s.clients[id].attempt + 1, s.clients[id].began)
              && s.clients[id].attempt + 1 < MAX_ATTEMPTS
  {
    var me := s.clients[id];
    done, result := true, Done;
    ghost var action := Write;
    match setup.updates(id)(me.attempt)(me.loaded.store) {
      case Failed =>
        result, end := UpdateFailed, Move(s, id, Errored(None));
      case Unchanged =>
        end := Move(s, id, KeptAsIs(me.began, me.seen));
      case Changed(after) =>
        if fault == WriteFaultLost {
          result, end, action := StoreFailed, Move(s, id, Errored(None)), WriteErrorLost;
        } else if Succeeds(s.collection, me.loaded) {
          var me' := if fault == WriteFaultApplied then Errored(Some(|s.log|)) else Acknowledged(me.began, |s.log|);
          if fault == WriteFaultApplied { result, action := StoreFailed, WriteErrorApplied; }
          end := State(Save(s.collection, me.loaded, after), s.clients[id := me'],
                       s.log + [Commit(id, me.attempt, Load(s.collection).store, after)]);
        } else if me.attempt + 1 == MAX_ATTEMPTS {
          result, end := TooManyConflicts, Move(s, id, GaveUp(me.began));
        } else {
          done, end := false, Move(s, id, Loading(me.attempt + 1, me.began));
        }
    }
    PathSteps(setup, path, end, id, action);
    longer := path + [end];
  }
}
