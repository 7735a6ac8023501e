/** The recent conversation the compact loop is given: the last messages worth
    repeating, collected backwards and turned round in place. */
module RecentConversation {
  import opened Text
  import opened Session

  /** A user message or an assistant's answer without calls, and not blank. */
  predicate WorthRepeating(m: Message) {
    (m.role == User || (m.role == Assistant && m.calls == [])) && Trim(m.content) != ""
  }

  function Clip(content: string, maxChars: int): string {
    var text := Trim(content);
    if maxChars <= 0 || |text| <= maxChars then text
    else if maxChars <= 3 then text[..maxChars]
    else Trim(text[..maxChars - 3]) + "..."
  }

  function Clipped(m: Message, maxChars: int): Message {
    m.(content := Clip(m.content, maxChars))
  }

  /** All messages worth repeating, clipped, in their order. */
  function Worthwhile(messages: seq<Message>, maxChars: int): seq<Message> {
    if messages == [] then []
    else
      var m := messages[|messages| - 1];
      Worthwhile(messages[..|messages| - 1], maxChars) + (if WorthRepeating(m) then [Clipped(m, maxChars)] else [])
  }

  function LastOf(s: seq<Message>, k: nat): seq<Message> {
    if |s| <= k then s else s[|s| - k..]
  }

  function Reversed(s: seq<Message>): (r: seq<Message>)
    ensures |r| == |s| && forall i :: 0 <= i < |s| ==> r[i] == s[|s| - 1 - i]
  {
    seq(|s|, i requires 0 <= i < |s| => s[|s| - 1 - i])
  }

  method ReverseInPlace(a: array<Message>)
    modifies a
    ensures a[..] == Reversed(old(a[..]))
  {
    var left, right := 0, a.Length - 1;
    while left < right
      invariant 0 <= left <= right + 2 && right == a.Length - 1 - left
      invariant forall k :: 0 <= k < left ==> a[k] == old(a[a.Length - 1 - k]) && a[a.Length - 1 - k] == old(a[k])
      invariant forall k :: left <= k <= right ==> a[k] == old(a[k])
    {
      a[left], a[right] := a[right], a[left];
      left, right := left + 1, right - 1;
    }
  }

  /** Exactly the last `maxMessages` messages worth repeating, in order. */
  method BuildRecent(messages: seq<Message>, maxMessages: int, maxChars: int) returns (r: array<Message>)
    ensures fresh(r) && r[..] == if maxMessages <= 0 then [] else LastOf(Worthwhile(messages, maxChars), maxMessages)
  {
    var filtered: seq<Message> := [];
    if maxMessages > 0 {
      var i := |messages|;
      assert messages[..i] == messages;
      assert Worthwhile(messages, maxChars) == Worthwhile(messages[..i], maxChars) + Reversed(filtered);
      while i > 0 && |filtered| < maxMessages
        invariant 0 <= i <= |messages| && |filtered| <= maxMessages
        invariant Worthwhile(messages, maxChars) == Worthwhile(messages[..i], maxChars) + Reversed(filtered)
      {
        i := i - 1;
        assert messages[..i + 1][..i] == messages[..i];
        var m := messages[i];
        if WorthRepeating(m) {
          var c := Clipped(m, maxChars);
          assert Reversed(filtered + [c]) == [c] + Reversed(filtered);
          filtered := filtered + [c];
        }
      }
    }
    r := new Message[|filtered|](j requires 0 <= j < |filtered| => filtered[j]);
    assert r[..] == filtered;
    ReverseInPlace(r);
  }

  /** No clipped content is longer than asked for. */
  lemma ClipIsShort(content: string, maxChars: int)
    requires maxChars > 0
    ensures |Clip(content, maxChars)| <= maxChars
  {
    var text := Trim(content);
    if |text| > maxChars > 3 { TrimShortens(text[..maxChars - 3]); }
  }

  /** A content that fits stays whole but for the blanks at its ends.  Of a longer one a prefix
      stays, marked when there is room; before the mark nothing but blanks is lost besides. */
  lemma ClipKeepsPrefix(content: string, maxChars: int) returns (k: nat)
    ensures var text, r := Trim(content), Clip(content, maxChars);
            && k <= |text|
            && (maxChars <= 0 || |text| <= maxChars ==> r == text)
            && (0 < maxChars <= 3 && maxChars < |text| ==> r == text[..maxChars])
            && (3 < maxChars < |text| ==> 0 < k <= maxChars - 3 && r == text[..k] + "..."
                                          && !IsSpace(text[k - 1]) && AllSpace(text[k..maxChars - 3]))
  {
    var text := Trim(content);
    k := 0;
    if 3 < maxChars < |text| {
      var part := text[..maxChars - 3];
      assert TrimLeft(part) == part;
      k := |Trim(part)|;
      var back := TrimRightTakesSpace(part);
      assert part[..k] == Trim(part) && part[k..] == back && part[..k] == text[..k];
    }
  }

  /** Said by the user, or an answer without calls, and not only blanks. */
  predicate Said(m: Message) {
    && (m.role == User || (m.role == Assistant && m.calls == []))
    && exists p :: 0 <= p < |m.content| && !IsSpace(m.content[p])
  }

  lemma SaidIff(m: Message)
    ensures WorthRepeating(m) <==> Said(m)
  {
    BlankIff(m.content);
  }

  /** `at` lists, in ascending order, the places of what is said in `messages`. */
  ghost predicate Places(messages: seq<Message>, at: seq<nat>) {
    && (forall i, j :: 0 <= i < j < |at| ==> at[i] < at[j])
    && (forall i :: i in at <==> 0 <= i < |messages| && Said(messages[i]))
  }

  lemma PlacesSnoc(messages: seq<Message>, m: Message, at: seq<nat>)
    requires Places(messages, at)
    ensures Places(messages + [m], if Said(m) then at + [|messages|] else at)
  {
    forall i | 0 <= i < |at| ensures at[i] < |messages| { assert at[i] in at; }
  }

  predicate ClippedFrom(r: seq<Message>, messages: seq<Message>, at: seq<nat>, maxChars: int) {
    |r| == |at| && forall j :: 0 <= j < |r| ==>
      at[j] < |messages| && r[j] == messages[at[j]].(content := Clip(messages[at[j]].content, maxChars))
  }

  lemma ClippedSnoc(r: seq<Message>, messages: seq<Message>, m: Message, at: seq<nat>, maxChars: int)
    requires ClippedFrom(r, messages, at, maxChars)
    ensures ClippedFrom(r, messages + [m], at, maxChars)
    ensures ClippedFrom(r + [Clipped(m, maxChars)], messages + [m], at + [|messages|], maxChars)
  {
  }

  lemma WorthwhileSnoc(front: seq<Message>, m: Message, maxChars: int)
    ensures Worthwhile(front + [m], maxChars)
            == if Said(m) then Worthwhile(front, maxChars) + [Clipped(m, maxChars)] else Worthwhile(front, maxChars)
  {
    SaidIff(m);
    assert (front + [m])[..|front|] == front;
  }

  /** What is repeated of `messages`: those at `at`, each clipped. */
  ghost predicate Repeated(messages: seq<Message>, at: seq<nat>, maxChars: int) {
    Places(messages, at) && ClippedFrom(Worthwhile(messages, maxChars), messages, at, maxChars)
  }

  lemma NothingRepeated(messages: seq<Message>, maxChars: int)
    requires messages == []
    ensures Repeated(messages, [], maxChars)
  {
  }

  lemma RepeatedSnoc(front: seq<Message>, m: Message, at: seq<nat>, maxChars: int)
    requires Repeated(front, at, maxChars)
    ensures Repeated(front + [m], if Said(m) then at + [|front|] else at, maxChars)
  {
    PlacesSnoc(front, m, at);
    ClippedSnoc(Worthwhile(front, maxChars), front, m, at, maxChars);
    WorthwhileSnoc(front, m, maxChars);
  }

  /** What is repeated, and in which order: what was said, each message clipped. */
  lemma {:induction false} RepeatedAre(messages: seq<Message>, maxChars: int)
    ensures exists at :: Repeated(messages, at, maxChars)
  {
    if messages == [] {
      NothingRepeated(messages, maxChars);
    } else {
      var front, m := messages[..|messages| - 1], messages[|messages| - 1];
      RepeatedAre(front, maxChars);
      RepeatedMore(front, m, maxChars);
      assert front + [m] == messages;
    }
  }

  lemma RepeatedMore(front: seq<Message>, m: Message, maxChars: int)
    requires exists at :: Repeated(front, at, maxChars)
    ensures exists at :: Repeated(front + [m], at, maxChars)
  {
    var at :| Repeated(front, at, maxChars);
    RepeatedSnoc(front, m, at, maxChars);
  }

  lemma BlankIff(s: string)
    ensures Blank(s) <==> AllSpace(s)
  {
    var front, back := TrimTakesSpace(s);
    if !Blank(s) {
      assert s[|front|] == Trim(s)[0];
    }
  }

  lemma TrimShortens(s: string)
    ensures |Trim(s)| <= |s|
  {
    TrimLeftShortens(s);
  }

  lemma {:induction false} TrimLeftShortens(s: string)
    ensures |TrimLeft(s)| <= |s|
  {
    if s != "" && IsSpace(s[0]) { TrimLeftShortens(s[1..]); }
  }
}
