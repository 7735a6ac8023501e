/** String helpers the other modules share: whitespace trimming, ASCII lower-casing
    and the byte order on strings. */
module Text {

  /** The code points Go's `unicode.IsSpace` accepts. */
  predicate IsSpace(c: char) {
    var n := c as int;
    || 0x09 <= n <= 0x0D || n == 0x20 || n == 0x85 || n == 0xA0 || n == 0x1680
    || 0x2000 <= n <= 0x200A || n == 0x2028 || n == 0x2029 || n == 0x202F || n == 0x205F || n == 0x3000
  }

  /** No white space at either end. */
  predicate Trimmed(s: string) {
    s == "" || (!IsSpace(s[0]) && !IsSpace(s[|s| - 1]))
  }

  function TrimLeft(s: string): (r: string)
    ensures r == "" || !IsSpace(r[0])
    ensures Trimmed(s) ==> r == s
  {
    if s != "" && IsSpace(s[0]) then TrimLeft(s[1..]) else s
  }

  function TrimRight(s: string): (r: string)
    ensures r <= s
    ensures Trimmed(s) ==> r == s
    ensures r == "" || !IsSpace(r[|r| - 1])
  {
    if s != "" && IsSpace(s[|s| - 1]) then TrimRight(s[..|s| - 1]) else s
  }

  function Trim(s: string): (r: string)
    ensures Trimmed(r)
    ensures Trimmed(s) ==> r == s
  {
    TrimRight(TrimLeft(s))
  }

  predicate AllSpace(s: string) {
    forall i :: 0 <= i < |s| ==> IsSpace(s[i])
  }

  lemma {:induction false} TrimLeftTakesSpace(s: string) returns (front: string)
    ensures s == front + TrimLeft(s) && AllSpace(front)
  {
    front := "";
    if s != "" && IsSpace(s[0]) {
      front := TrimLeftTakesSpace(s[1..]);
      front := [s[0]] + front;
    }
  }

  lemma {:induction false} TrimRightTakesSpace(s: string) returns (back: string)
    ensures s == TrimRight(s) + back && AllSpace(back)
  {
    back := "";
    if s != "" && IsSpace(s[|s| - 1]) {
      var n := |s| - 1;
      back := TrimRightTakesSpace(s[..n]);
      back := back + [s[n]];
    }
  }

  /** Trimming takes white space from the ends and nothing else. */
  lemma TrimTakesSpace(s: string) returns (front: string, back: string)
    ensures s == front + Trim(s) + back && AllSpace(front) && AllSpace(back)
  {
    front := TrimLeftTakesSpace(s);
    back := TrimRightTakesSpace(TrimLeft(s));
  }

  predicate Blank(s: string) {
    Trim(s) == ""
  }

  function LowerChar(c: char): char {
    if 'A' <= c <= 'Z' then c - 'A' + 'a' else c
  }

  function Lower(s: string): string {
    seq(|s|, i requires 0 <= i < |s| => LowerChar(s[i]))
  }

  /** Strict lexicographic order; on UTF-8 it agrees with Go's byte order. */
  predicate Less(a: string, b: string) {
    if b == "" then false
    else if a == "" then true
    else a[0] < b[0] || (a[0] == b[0] && Less(a[1..], b[1..]))
  }

  lemma {:induction false} LessTotal(a: string, b: string)
    ensures Less(a, b) || a == b || Less(b, a)
    ensures !(Less(a, b) && (a == b || Less(b, a)))
  {
    if a == b {
      if a != "" { LessTotal(a[1..], b[1..]); }
    } else if a != "" && b != "" && a[0] == b[0] {
      assert a == [a[0]] + a[1..] && b == [b[0]] + b[1..];
      LessTotal(a[1..], b[1..]);
    }
  }

  lemma {:induction false} LessTransitive(a: string, b: string, c: string)
    requires Less(a, b) && Less(b, c)
    ensures Less(a, c)
  {
    if a != "" && a[0] == b[0] && b[0] == c[0] {
      LessTransitive(a[1..], b[1..], c[1..]);
    }
  }

  /** `a` comes first where the two differ, or is a proper beginning of `b`. */
  predicate Smaller(a: string, b: string) {
    exists k :: 0 <= k <= |a| && DiffersAt(a, b, k)
  }

  predicate DiffersAt(a: string, b: string, k: nat)
    requires k <= |a|
  {
    k < |b| && a[..k] == b[..k] && (k < |a| ==> a[k] < b[k])
  }

  lemma {:induction false} LessIsSmaller(a: string, b: string)
    requires Less(a, b)
    ensures Smaller(a, b)
  {
    if a == "" || a[0] < b[0] {
      assert DiffersAt(a, b, 0);
    } else {
      LessIsSmaller(a[1..], b[1..]);
      var k :| 0 <= k <= |a[1..]| && DiffersAt(a[1..], b[1..], k);
      assert a[..k + 1] == [a[0]] + a[1..][..k] && b[..k + 1] == [b[0]] + b[1..][..k];
      assert DiffersAt(a, b, k + 1);
    }
  }
}
