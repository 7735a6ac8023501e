/** The middleware chain: registrations kept stably sorted by priority, and what running
    a chain does. */
module MiddlewareChain {

  datatype Middleware = Middleware(name: string, priority: int, appliesTo: seq<string>)

  // ----- stable order -----

  /** The registration at `i` comes before the one at `j`. */
  predicate Precedes(registered: seq<Middleware>, i: nat, j: nat)
    requires i < |registered| && j < |registered|
  {
    registered[i].priority < registered[j].priority || (registered[i].priority == registered[j].priority && i < j)
  }

  /** `order` lists every registration once, by priority and then by time. */
  ghost predicate StableOrder(registered: seq<Middleware>, order: seq<nat>) {
    && |order| == |registered|
    && (forall i :: 0 <= i < |order| ==> order[i] < |registered|)
    && (forall i, j :: 0 <= i < j < |order| ==> Precedes(registered, order[i], order[j]))
    && (forall n: nat :: n < |registered| ==> n in order)
  }

  /** `sorted` is the stable sort of the registrations by priority. */
  ghost predicate StablySorted(registered: seq<Middleware>, order: seq<nat>, sorted: seq<Middleware>) {
    && StableOrder(registered, order) && |sorted| == |order|
    && forall i :: 0 <= i < |sorted| ==> sorted[i] == registered[order[i]]
  }

  function Inserted(order: seq<nat>, n: nat, at: nat): seq<nat>
    requires at <= |order|
  {
    order[..at] + [n] + order[at..]
  }

  lemma PairStable(registered: seq<Middleware>, order: seq<nat>, sorted: seq<Middleware>, m: Middleware, at: nat,
                   i: nat, j: nat)
    requires StablySorted(registered, order, sorted) && at <= |sorted| && i < j <= |sorted|
    requires forall k :: 0 <= k < at ==> sorted[k].priority <= m.priority
    requires forall k :: at <= k < |sorted| ==> m.priority < sorted[k].priority
    ensures var all, next := registered + [m], Inserted(order, |registered|, at);
            next[i] < |all| && next[j] < |all| && Precedes(all, next[i], next[j])
  {
    if i < at && j < at {
      assert Precedes(registered, order[i], order[j]);
    } else if i < at && j == at {
      assert sorted[i] == registered[order[i]];
    } else if i < at {
      assert Precedes(registered, order[i], order[j - 1]);
    } else if i == at {
      assert sorted[j - 1] == registered[order[j - 1]];
    } else {
      assert Precedes(registered, order[i - 1], order[j - 1]);
    }
  }

  lemma InsertedHas(order: seq<nat>, n: nat, at: nat, x: nat)
    requires at <= |order|
    ensures x in Inserted(order, n, at) <==> x in order || x == n
  {
    assert order == order[..at] + order[at..];
  }

  lemma InsertedOrder(registered: seq<Middleware>, order: seq<nat>, sorted: seq<Middleware>, m: Middleware, at: nat)
    requires StablySorted(registered, order, sorted) && at <= |sorted|
    requires forall i :: 0 <= i < at ==> sorted[i].priority <= m.priority
    requires forall i :: at <= i < |sorted| ==> m.priority < sorted[i].priority
    ensures StableOrder(registered + [m], Inserted(order, |registered|, at))
  {
    var all, next := registered + [m], Inserted(order, |registered|, at);
    forall i, j | 0 <= i < j < |next| ensures next[i] < |all| && next[j] < |all| && Precedes(all, next[i], next[j]) {
      PairStable(registered, order, sorted, m, at, i, j);
    }
    forall i | 0 <= i < |next| ensures next[i] < |all| { assert i < at || i == at || next[i] == order[i - 1]; }
    forall n: nat | n < |all| ensures n in next { InsertedHas(order, |registered|, at, n); }
  }

  lemma InsertedEntry(registered: seq<Middleware>, order: seq<nat>, sorted: seq<Middleware>, m: Middleware, at: nat,
                      i: nat)
    requires StablySorted(registered, order, sorted) && at <= |sorted| && i <= |sorted|
    ensures var next := Inserted(order, |registered|, at);
            next[i] <= |registered| && (sorted[..at] + [m] + sorted[at..])[i] == (registered + [m])[next[i]]
  {
    if i < at { assert sorted[i] == registered[order[i]]; }
    if i > at { assert sorted[i - 1] == registered[order[i - 1]]; }
  }

  /** The new registration goes behind every one of at most its priority. */
  lemma InsertStable(registered: seq<Middleware>, order: seq<nat>, sorted: seq<Middleware>, m: Middleware, at: nat)
    requires StablySorted(registered, order, sorted) && at <= |sorted|
    requires forall i :: 0 <= i < at ==> sorted[i].priority <= m.priority
    requires forall i :: at <= i < |sorted| ==> m.priority < sorted[i].priority
    ensures StablySorted(registered + [m], Inserted(order, |registered|, at), sorted[..at] + [m] + sorted[at..])
  {
    var all, next, longer := registered + [m], Inserted(order, |registered|, at), sorted[..at] + [m] + sorted[at..];
    InsertedOrder(registered, order, sorted, m, at);
    forall i | 0 <= i < |longer|
      ensures longer[i] == all[next[i]] { InsertedEntry(registered, order, sorted, m, at, i); }
  }

  lemma SwapDown(before: seq<Middleware>, m: Middleware, i: nat)
    requires 0 < i <= |before|
    ensures var all := before[..i] + [m] + before[i..];
            all[i := all[i - 1]][i - 1 := m] == before[..i - 1] + [m] + before[i - 1..]
  {
  }

  /** `m` is put behind those of its priority or a lower one and before the others. */
  predicate Placed(before: seq<Middleware>, m: Middleware, at: nat, after: seq<Middleware>) {
    && at <= |before| && after == before[..at] + [m] + before[at..]
    && (forall k :: 0 <= k < at ==> before[k].priority <= m.priority)
    && (forall k :: at <= k < |before| ==> m.priority < before[k].priority)
  }

  class Chain {
    var middlewares: seq<Middleware>
    /** The registrations in time order, and where each one stands. */
    ghost var registered: seq<Middleware>
    ghost var order: seq<nat>

    ghost predicate Valid()
      reads this
    {
      StablySorted(registered, order, middlewares)
    }

    constructor ()
      ensures Valid() && registered == []
    {
      middlewares, registered, order := [], [], [];
    }

    /** Appends and swaps down to its place. */
    method Add(m: Middleware)
      requires Valid()
      modifies this
      ensures Valid() && registered == old(registered) + [m]
      ensures exists at :: Placed(old(middlewares), m, at, middlewares)
    {
      ghost var before := middlewares;
      middlewares := middlewares + [m];
      var i := |middlewares| - 1;
      while i > 0
        invariant 0 <= i <= |before|
        invariant middlewares == before[..i] + [m] + before[i..]
        invariant forall k :: i <= k < |before| ==> m.priority < before[k].priority
        invariant registered == old(registered) && order == old(order)
      {
        if middlewares[i].priority >= middlewares[i - 1].priority { break; }
        SwapDown(before, m, i);
        middlewares := middlewares[i := middlewares[i - 1]][i - 1 := middlewares[i]];
        i := i - 1;
      }
      assert forall k :: 0 <= k < i ==> before[k].priority <= m.priority by {
        forall k | 0 <= k < i ensures before[k].priority <= m.priority {
          assert k < i - 1 ==> Precedes(registered, order[k], order[i - 1]);
        }
      }
      assert Placed(before, m, i, middlewares);
      InsertStable(registered, order, before, m, i);
      order := Inserted(order, |registered|, i);
      registered := registered + [m];
    }

    /** The chain for an intent, in order. */
    method Select(intent: string) returns (applicable: seq<Middleware>)
      ensures applicable == Applicable(middlewares, intent)
    {
      applicable := [];
      for i := 0 to |middlewares|
        invariant applicable == Applicable(middlewares[..i], intent)
      {
        assert middlewares[..i + 1][..i] == middlewares[..i];
        if Applies(middlewares[i], intent) { applicable := applicable + [middlewares[i]]; }
      }
      assert middlewares[..|middlewares|] == middlewares;
    }
  }

  // ----- running a chain -----

  predicate Applies(m: Middleware, intent: string) {
    m.appliesTo == [] || intent in m.appliesTo
  }

  function Applicable(ms: seq<Middleware>, intent: string): seq<Middleware> {
    if ms == [] then []
    else Applicable(ms[..|ms| - 1], intent) + (if Applies(ms[|ms| - 1], intent) then [ms[|ms| - 1]] else [])
  }

  datatype Step = Ran(m: Middleware) | Final

  /** What runs when each handler calls its continuation as often as `calls` says. */
  function Trace(ms: seq<Middleware>, calls: Middleware -> nat): seq<Step>
    decreases |ms|, 1, 0
  {
    if ms == [] then [Final] else [Ran(ms[0])] + Repeat(ms, calls, calls(ms[0]))
  }

  function Repeat(ms: seq<Middleware>, calls: Middleware -> nat, n: nat): seq<Step>
    requires ms != []
    decreases |ms|, 0, n
  {
    if n == 0 then [] else Repeat(ms, calls, n - 1) + Trace(ms[1..], calls)
  }

  function Steps(ms: seq<Middleware>): seq<Step> {
    if ms == [] then [] else [Ran(ms[0])] + Steps(ms[1..])
  }

  lemma CallsOnOnce(ms: seq<Middleware>, calls: Middleware -> nat)
    requires ms != [] && calls(ms[0]) == 1
    ensures Trace(ms, calls) == [Ran(ms[0])] + Trace(ms[1..], calls)
  {
    assert Repeat(ms, calls, 1) == Repeat(ms, calls, 0) + Trace(ms[1..], calls);
  }

  /** With handlers that call on once, exactly the applicable ones run, once each and
      in order, and then the final handler. */
  lemma {:induction false} ChainRunsInOrder(ms: seq<Middleware>, calls: Middleware -> nat)
    requires forall m :: m in ms ==> calls(m) == 1
    ensures Trace(ms, calls) == Steps(ms) + [Final]
    decreases |ms|
  {
    if ms != [] {
      ChainRunsInOrder(ms[1..], calls);
      CallsOnOnce(ms, calls);
      assert Steps(ms) + [Final] == [Ran(ms[0])] + (Steps(ms[1..]) + [Final]);
    }
  }

  /** A handler that does not call on is the last to run. */
  lemma {:induction false} ChainStopsEarly(before: seq<Middleware>, m: Middleware, after: seq<Middleware>,
                                           calls: Middleware -> nat)
    requires calls(m) == 0 && forall b :: b in before ==> calls(b) == 1
    ensures Trace(before + [m] + after, calls) == Steps(before) + [Ran(m)]
    decreases |before|
  {
    var ms := before + [m] + after;
    if before == [] {
      assert ms[0] == m && Repeat(ms, calls, 0) == [];
    } else {
      assert ms[1..] == before[1..] + [m] + after;
      ChainStopsEarly(before[1..], m, after, calls);
      CallsOnOnce(ms, calls);
      assert Steps(before) + [Ran(m)] == [Ran(before[0])] + (Steps(before[1..]) + [Ran(m)]);
    }
  }

  // ----- registering, selecting and running together -----

  /** The registrations of `order` that apply to an intent. */
  function Selected(registered: seq<Middleware>, order: seq<nat>, intent: string): (r: seq<nat>)
    requires forall i :: 0 <= i < |order| ==> order[i] < |registered|
    ensures |r| <= |order| && forall i :: 0 <= i < |r| ==> r[i] < |registered|
  {
    if order == [] then []
    else
      var last := order[|order| - 1];
      Selected(registered, order[..|order| - 1], intent) + (if Applies(registered[last], intent) then [last] else [])
  }

  lemma {:induction false} SelectedAre(registered: seq<Middleware>, order: seq<nat>, intent: string, n: nat)
    requires forall i :: 0 <= i < |order| ==> order[i] < |registered|
    ensures n in Selected(registered, order, intent) <==> n in order && Applies(registered[n], intent)
  {
    if order != [] {
      var k := |order| - 1;
      SelectedAre(registered, order[..k], intent, n);
      assert order == order[..k] + [order[k]];
    }
  }

  lemma {:induction false} SelectedInOrder(registered: seq<Middleware>, order: seq<nat>, intent: string, i: nat, j: nat)
    requires forall k :: 0 <= k < |order| ==> order[k] < |registered|
    requires forall k, l :: 0 <= k < l < |order| ==> Precedes(registered, order[k], order[l])
    requires i < j < |Selected(registered, order, intent)|
    ensures var r := Selected(registered, order, intent); Precedes(registered, r[i], r[j])
  {
    var k, r := |order| - 1, Selected(registered, order, intent);
    var before := Selected(registered, order[..k], intent);
    if j < |before| {
      SelectedInOrder(registered, order[..k], intent, i, j);
    } else {
      SelectedAre(registered, order[..k], intent, before[i]);
      assert before[i] in before;
      var l :| 0 <= l < k && order[..k][l] == before[i];
      assert Precedes(registered, order[l], order[k]);
    }
  }

  lemma {:induction false} ApplicableAreSelected(registered: seq<Middleware>, order: seq<nat>, sorted: seq<Middleware>,
                                                 intent: string)
    requires |sorted| == |order|
    requires forall i :: 0 <= i < |order| ==> order[i] < |registered| && sorted[i] == registered[order[i]]
    ensures var r, ms := Selected(registered, order, intent), Applicable(sorted, intent);
            |ms| == |r| && forall i :: 0 <= i < |r| ==> ms[i] == registered[r[i]]
  {
    if order != [] {
      var k := |order| - 1;
      ApplicableAreSelected(registered, order[..k], sorted[..k], intent);
    }
  }

  /** After any registrations: for an intent exactly the registrations that apply to it
      run, once each, by priority and then by time, and then the final handler, when each
      calls on once. */
  lemma RegisteredRunInOrder(chain: Chain, intent: string, calls: Middleware -> nat) returns (ran: seq<nat>)
    requires chain.Valid() && forall m :: m in chain.middlewares ==> calls(m) == 1
    ensures forall i :: 0 <= i < |ran| ==> ran[i] < |chain.registered|
    ensures forall n :: 0 <= n < |chain.registered| ==>
              (n in ran <==> chain.registered[n].appliesTo == [] || intent in chain.registered[n].appliesTo)
    ensures forall i, j :: 0 <= i < j < |ran| ==>
              var a, b := chain.registered[ran[i]].priority, chain.registered[ran[j]].priority;
              a < b || (a == b && ran[i] < ran[j])
    ensures var trace := Trace(Applicable(chain.middlewares, intent), calls);
            && |trace| == |ran| + 1 && trace[|ran|] == Final
            && forall i :: 0 <= i < |ran| ==> trace[i] == Ran(chain.registered[ran[i]])
  {
    var registered, order, sorted := chain.registered, chain.order, chain.middlewares;
    ran := Selected(registered, order, intent);
    ApplicableAreSelected(registered, order, sorted, intent);
    forall n | 0 <= n < |registered| ensures n in ran <==> Applies(registered[n], intent) {
      SelectedAre(registered, order, intent, n);
    }
    forall i, j | 0 <= i < j < |ran| ensures Precedes(registered, ran[i], ran[j]) {
      SelectedInOrder(registered, order, intent, i, j);
    }
    var ms := Applicable(sorted, intent);
    ApplicableAreMembers(sorted, intent);
    ChainRunsInOrder(ms, calls);
    StepsAre(ms);
  }

  lemma {:induction false} ApplicableAreMembers(ms: seq<Middleware>, intent: string)
    ensures forall m :: m in Applicable(ms, intent) ==> m in ms
  {
    if ms != [] {
      ApplicableAreMembers(ms[..|ms| - 1], intent);
      assert ms == ms[..|ms| - 1] + [ms[|ms| - 1]];
    }
  }

  lemma {:induction false} StepsAre(ms: seq<Middleware>)
    ensures |Steps(ms)| == |ms| && forall i :: 0 <= i < |ms| ==> Steps(ms)[i] == Ran(ms[i])
  {
    if ms != [] { StepsAre(ms[1..]); }
  }
}
