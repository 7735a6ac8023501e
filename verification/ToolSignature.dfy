/** When two hops count as the same: what the signature of an answer's calls tells apart. */
module ToolSignature {
  import opened Text
  import opened ToolTurn

  /** The same tools with the same arguments in the same order, blanks at the ends aside. */
  predicate SameCalls(a: seq<Call>, b: seq<Call>) {
    && |a| == |b|
    && forall i :: 0 <= i < |a| ==> Trim(a[i].name) == Trim(b[i].name) && Trim(a[i].arguments) == Trim(b[i].arguments)
  }

  /** No name holds the first separator and no arguments the second. */
  predicate Plain(calls: seq<Call>) {
    forall i :: 0 <= i < |calls| ==> ':' !in Trim(calls[i].name) && '|' !in Trim(calls[i].arguments)
  }

  /** Where the first `c` stands, or the end. */
  function Until(s: string, c: char): (n: nat)
    ensures n <= |s|
  {
    if s == "" || s[0] == c then 0 else 1 + Until(s[1..], c)
  }

  lemma {:induction false} UntilIs(a: string, c: char, r: string)
    requires c !in a && (r == "" || r[0] == c)
    ensures Until(a + r, c) == |a|
  {
    if a == "" {
      assert a + r == r;
    } else {
      assert (a + r)[1..] == a[1..] + r;
      UntilIs(a[1..], c, r);
    }
  }

  /** What follows the arguments of the first call: nothing, or the others after a mark. */
  function Others(calls: seq<Call>): string
    requires calls != []
  {
    if |calls| == 1 then "" else "||" + Signature(calls[1..])
  }

  /** What follows the name of the first call. */
  function Tail(calls: seq<Call>): string
    requires calls != []
  {
    Trim(calls[0].arguments) + Others(calls)
  }

  lemma SplitsAt(s: string, a: string, r: string, c: char)
    requires s == a + r && c !in a && (r == "" || r[0] == c)
    ensures s[..Until(s, c)] == a && s[Until(s, c)..] == r
  {
    UntilIs(a, c, r);
  }

  lemma SignatureSplits(calls: seq<Call>)
    requires calls != []
    ensures Signature(calls) == Trim(calls[0].name) + ("::" + Tail(calls))
  {
  }

  lemma SameSignatureSameHead(a: seq<Call>, b: seq<Call>)
    requires a != [] && b != [] && Plain(a) && Plain(b) && Signature(a) == Signature(b)
    ensures Trim(a[0].name) == Trim(b[0].name) && Tail(a) == Tail(b)
  {
    SignatureSplits(a);
    SignatureSplits(b);
    SplitsAt(Signature(a), Trim(a[0].name), "::" + Tail(a), ':');
    SplitsAt(Signature(b), Trim(b[0].name), "::" + Tail(b), ':');
    assert ("::" + Tail(a))[2..] == Tail(a) && ("::" + Tail(b))[2..] == Tail(b);
  }

  lemma SameTail(a: seq<Call>, b: seq<Call>)
    requires a != [] && b != [] && Plain(a) && Plain(b) && Tail(a) == Tail(b)
    ensures Trim(a[0].arguments) == Trim(b[0].arguments) && Others(a) == Others(b)
  {
    SplitsAt(Tail(a), Trim(a[0].arguments), Others(a), '|');
    SplitsAt(Tail(b), Trim(b[0].arguments), Others(b), '|');
  }

  lemma SameOthers(a: seq<Call>, b: seq<Call>)
    requires a != [] && b != [] && Others(a) == Others(b)
    ensures Signature(a[1..]) == Signature(b[1..])
  {
    if |a| > 1 {
      assert Others(a)[2..] == Signature(a[1..]) && Others(b)[2..] == Signature(b[1..]);
    }
  }

  /** Hops whose names have no colon and whose arguments no bar have the same signature exactly when
      they make the same calls in the same order. */
  lemma {:induction false} SignatureTells(a: seq<Call>, b: seq<Call>)
    requires Plain(a) && Plain(b)
    ensures Signature(a) == Signature(b) <==> SameCalls(a, b)
  {
    if a != [] && b != [] {
      SignatureTells(a[1..], b[1..]);
      RestIsSame(a, b);
      if Signature(a) == Signature(b) {
        SameSignatureSameHead(a, b);
        SameTail(a, b);
        SameOthers(a, b);
      } else if SameCalls(a, b) {
        SignatureSplits(a);
        SignatureSplits(b);
        assert false;
      }
    }
  }

  lemma RestIsSame(a: seq<Call>, b: seq<Call>)
    requires a != [] && b != []
    ensures SameCalls(a, b) <==> Trim(a[0].name) == Trim(b[0].name) && Trim(a[0].arguments) == Trim(b[0].arguments)
                                 && SameCalls(a[1..], b[1..])
  {
    if SameCalls(a[1..], b[1..]) {
      forall i | 1 <= i < |a|
        ensures Trim(a[i].name) == Trim(b[i].name) && Trim(a[i].arguments) == Trim(b[i].arguments)
      {
        assert a[i] == a[1..][i - 1] && b[i] == b[1..][i - 1];
      }
    }
  }

  /** With a bar in the arguments one call can pass for two. */
  lemma BarsConfuse()
    ensures var one, two := [Call("1", "t", "a||u::b")], [Call("1", "t", "a"), Call("2", "u", "b")];
            Signature(one) == Signature(two) && !SameCalls(one, two)
  {
    var one, two := [Call("1", "t", "a||u::b")], [Call("1", "t", "a"), Call("2", "u", "b")];
    assert two[1..] == [Call("2", "u", "b")];
    assert Trimmed("a||u::b") && Trimmed("t") && Trimmed("u") && Trimmed("a") && Trimmed("b");
    assert Signature(one) == "t::a||u::b" == Signature(two);
  }
}
