/** Token usage: normalisation, addition, and why a turn's total does not depend on the
    order of its answers.  Counts are mathematical integers. */
module Usage {

  datatype Usage = Usage(prompt: int, completion: int, total: int, cached: int, hit: int, miss: int,
                         reasoning: int, cachedContext: int, persistedContext: int)

  const ZERO := Usage(0, 0, 0, 0, 0, 0, 0, 0, 0)

  function Clamp(v: int): int {
    if v < 0 then 0 else v
  }

  function Clamped(u: Usage): Usage {
    Usage(Clamp(u.prompt), Clamp(u.completion), Clamp(u.total), Clamp(u.cached), Clamp(u.hit), Clamp(u.miss),
          Clamp(u.reasoning), Clamp(u.cachedContext), Clamp(u.persistedContext))
  }

  /** Negative counts dropped, then the derivable ones filled in. */
  function Normalize(u: Usage): Usage {
    var c := Clamped(u);
    var h := if c.hit == 0 && c.cached > 0 then c.(hit := c.cached) else c;
    var k := if h.cached == 0 && h.hit > 0 then h.(cached := h.hit) else h;
    var m := if k.miss == 0 && k.prompt > 0 then k.(miss := Clamp(k.prompt - k.hit)) else k;
    if m.total == 0 && (m.prompt > 0 || m.completion > 0) then m.(total := m.prompt + m.completion) else m
  }

  function Sum(a: Usage, b: Usage): Usage {
    Usage(a.prompt + b.prompt, a.completion + b.completion, a.total + b.total, a.cached + b.cached, a.hit + b.hit,
          a.miss + b.miss, a.reasoning + b.reasoning, a.cachedContext + b.cachedContext,
          a.persistedContext + b.persistedContext)
  }

  function Add(a: Usage, b: Usage): Usage {
    Sum(Normalize(a), Normalize(b))
  }

  /** What normalisation reaches: no count is negative and nothing derivable is missing. */
  predicate IsNormal(u: Usage) {
    && u.prompt >= 0 && u.completion >= 0 && u.total >= 0 && u.cached >= 0 && u.hit >= 0 && u.miss >= 0
    && u.reasoning >= 0 && u.cachedContext >= 0 && u.persistedContext >= 0
    && (u.hit == 0 <==> u.cached == 0)
    && (u.miss == 0 ==> u.prompt <= u.hit)
    && (u.total == 0 ==> u.prompt == 0 && u.completion == 0)
  }

  /** The normal usages are exactly the ones normalisation leaves alone, and it reaches
      one at once. */
  lemma NormalizeIsIdempotent(u: Usage)
    ensures IsNormal(Normalize(u)) && (IsNormal(u) <==> Normalize(u) == u)
  {
  }

  /** What every count becomes: a negative one zero; the two cache counts stand in for each
      other; misses and the total are worked out when they are not given. */
  lemma NormalizeFills(u: Usage)
    ensures var r := Normalize(u);
            && r.prompt == Clamp(u.prompt) && r.completion == Clamp(u.completion) && r.reasoning == Clamp(u.reasoning)
            && r.cachedContext == Clamp(u.cachedContext) && r.persistedContext == Clamp(u.persistedContext)
            && (u.hit > 0 ==> r.hit == u.hit) && (u.cached > 0 ==> r.cached == u.cached)
            && (u.hit <= 0 ==> r.hit == r.cached) && (u.cached <= 0 ==> r.cached == r.hit)
            && (u.hit <= 0 && u.cached <= 0 ==> r.hit == 0)
            && (u.miss > 0 ==> r.miss == u.miss)
            && (u.miss <= 0 && r.prompt >= r.hit ==> r.miss + r.hit == r.prompt)
            && (u.miss <= 0 && r.prompt < r.hit ==> r.miss == 0)
            && (u.total > 0 ==> r.total == u.total)
            && (u.total <= 0 ==> r.total == r.prompt + r.completion)
    ensures forall v: int :: Clamp(v) >= 0 && Clamp(v) >= v && Clamp(v) in {0, v}
  {
  }

  lemma SumIsNormal(a: Usage, b: Usage)
    requires IsNormal(a) && IsNormal(b)
    ensures IsNormal(Sum(a, b))
  {
  }

  /** Addition on normal usages: closed, commutative, associative, with zero. */
  lemma AddIsMonoid(a: Usage, b: Usage, c: Usage)
    ensures IsNormal(Add(a, b)) && Add(a, b) == Add(b, a)
    ensures Add(Add(a, b), c) == Add(a, Add(b, c))
    ensures Add(ZERO, a) == Normalize(a)
  {
    NormalizeIsIdempotent(a);
    NormalizeIsIdempotent(b);
    NormalizeIsIdempotent(c);
    SumIsNormal(Normalize(a), Normalize(b));
    SumIsNormal(Normalize(b), Normalize(c));
    NormalizeIsIdempotent(Add(a, b));
    NormalizeIsIdempotent(Add(b, c));
  }

  // ----- a turn -----

  /** The reports of a turn's answers; None for an answer without usage. */
  datatype Report = NoUsage | Reported(usage: Usage)

  /** The component-wise sum of the normalised reports. */
  function Total(reports: seq<Report>): Usage {
    if reports == [] then ZERO
    else
      var before := Total(reports[..|reports| - 1]);
      match reports[|reports| - 1]
      case NoUsage => before
      case Reported(usage) => Sum(before, Normalize(usage))
  }

  /** The counts a usage is made of. */
  datatype Which = Prompt | Completion | All | Cached | Hit | Miss | Reasoning | CachedContext | PersistedContext

  function Of(u: Usage, which: Which): int {
    match which
    case Prompt => u.prompt
    case Completion => u.completion
    case All => u.total
    case Cached => u.cached
    case Hit => u.hit
    case Miss => u.miss
    case Reasoning => u.reasoning
    case CachedContext => u.cachedContext
    case PersistedContext => u.persistedContext
  }

  function Added(reports: seq<Report>, which: Which): int {
    if reports == [] then 0
    else
      (if reports[0].Reported? then Of(Normalize(reports[0].usage), which) else 0) + Added(reports[1..], which)
  }

  lemma OfSum(a: Usage, b: Usage, which: Which)
    ensures Of(Sum(a, b), which) == Of(a, which) + Of(b, which)
  {
  }

  lemma TotalOfOne(report: Report)
    ensures Total([report]) == UsageOf(report)
  {
    assert [report][..0] == [] && Total([]) == ZERO;
  }

  /** Every count of a total is that count of the normalised reports, added up. */
  lemma {:induction false} EachCountAddsUp(reports: seq<Report>, which: Which)
    ensures Of(Total(reports), which) == Added(reports, which)
  {
    if reports != [] {
      EachCountAddsUp(reports[1..], which);
      assert reports == [reports[0]] + reports[1..];
      TotalOfParts([reports[0]], reports[1..]);
      TotalOfOne(reports[0]);
      OfSum(UsageOf(reports[0]), Total(reports[1..]), which);
    }
  }

  function UsageOf(r: Report): Usage {
    match r
    case NoUsage => ZERO
    case Reported(usage) => Normalize(usage)
  }

  lemma {:induction false} TotalIsNormal(reports: seq<Report>)
    ensures IsNormal(Total(reports))
  {
    if reports != [] {
      var last := reports[|reports| - 1];
      TotalIsNormal(reports[..|reports| - 1]);
      NormalizeIsIdempotent(UsageOf(last));
      if last.Reported? { SumIsNormal(Total(reports[..|reports| - 1]), Normalize(last.usage)); }
    }
  }

  lemma {:induction false} TotalOfParts(a: seq<Report>, b: seq<Report>)
    ensures Total(a + b) == Sum(Total(a), Total(b))
  {
    if b == [] {
      assert a + b == a;
    } else {
      assert (a + b)[..|a + b| - 1] == a + b[..|b| - 1];
      TotalOfParts(a, b[..|b| - 1]);
    }
  }

  lemma RestIsSame(rest: seq<Report>, last: Report, front: seq<Report>, back: seq<Report>)
    requires multiset(rest + [last]) == multiset(front + [last] + back)
    ensures multiset(rest) == multiset(front + back)
  {
    assert multiset(rest + [last]) == multiset(rest) + multiset{last};
    assert multiset(front + [last] + back) == multiset(front + back) + multiset{last};
    assert multiset(rest) == multiset(rest) + multiset{last} - multiset{last};
    assert multiset(front + back) == multiset(front + back) + multiset{last} - multiset{last};
  }

  lemma SumSwaps(a: Usage, b: Usage, c: Usage)
    ensures Sum(Sum(a, b), c) == Sum(Sum(a, c), b)
  {
  }

  lemma TotalMoves(front: seq<Report>, last: Report, back: seq<Report>)
    ensures Total(front + [last] + back) == Sum(Total(front + back), Total([last]))
  {
    TotalOfParts(front + [last], back);
    TotalOfParts(front, [last]);
    TotalOfParts(front, back);
    SumSwaps(Total(front), Total([last]), Total(back));
  }

  /** The total of a turn does not depend on the order of its answers. */
  lemma {:induction false} OrderDoesNotMatter(a: seq<Report>, b: seq<Report>)
    requires multiset(a) == multiset(b)
    ensures Total(a) == Total(b)
  {
    assert |multiset(a)| == |a| && |multiset(b)| == |b|;
    if a != [] {
      var last, rest := a[|a| - 1], a[..|a| - 1];
      assert a == rest + [last];
      assert last in multiset(b);
      var i :| 0 <= i < |b| && b[i] == last;
      var front, back := b[..i], b[i + 1..];
      assert b == front + [last] + back;
      RestIsSame(rest, last, front, back);
      OrderDoesNotMatter(rest, front + back);
      TotalOfParts(rest, [last]);
      TotalMoves(front, last, back);
    }
  }

  /** How a turn adds up its answers: the aggregate it reports is the total, and its
      final normalisation changes nothing. */
  method Aggregate(reports: seq<Report>) returns (u: Usage)
    ensures u == Total(reports)
  {
    var aggregate := ZERO;
    for i := 0 to |reports|
      invariant aggregate == Total(reports[..i])
    {
      assert reports[..i + 1][..i] == reports[..i];
      if reports[i].Reported? {
        TotalIsNormal(reports[..i]);
        NormalizeIsIdempotent(aggregate);
        aggregate := Add(aggregate, reports[i].usage);
      }
    }
    assert reports[..|reports|] == reports;
    TotalIsNormal(reports);
    NormalizeIsIdempotent(aggregate);
    return Normalize(aggregate);
  }
}
