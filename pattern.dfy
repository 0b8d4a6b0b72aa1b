/**
 * The wildcard matcher of the scratch command (`isMatch`): a single linear
 * scan of name and pattern, position by position, without backtracking.
 */
module Pattern {
  import opened Bytes

  const STAR: byte := 0x2A
  const QMARK: byte := 0x3F
  const TILDE: byte := 0x7E
  /** The pattern byte that stands for a shifted glyph; it matches a `~` in the name. */
  const SHIFTED: byte := 0xFF

  /** Name byte `c` is accepted by pattern byte `p` (neither being a terminator or `*`). */
  predicate Accepts(p: byte, c: byte)
  {
    p == QMARK || p == c || (c == TILDE && p == SHIFTED)
  }

  /** Position `i` neither ends the scan nor fails it: the scan moves on to `i + 1`. */
  predicate Agrees(name: Name, pattern: Name, i: nat)
  {
    var p, c := At(pattern, i), At(name, i);
    p != STAR && p != NUL && c != NUL && Accepts(p, c)
  }

  /** The verdict at a position where the scan stops. */
  predicate Succeeds(name: Name, pattern: Name, k: nat)
  {
    var p, c := At(pattern, k), At(name, k);
    p == STAR || ((p == NUL || c == NUL) && p == c)
  }

  /** The value the scan settles on when it starts at position `i`. */
  function MatchFrom(name: Name, pattern: Name, i: nat): bool
    decreases if i <= |pattern| then |pattern| - i else 0
  {
    var p, c := At(pattern, i), At(name, i);
    if p == STAR then true
    else if p == NUL || c == NUL then p == c
    else if !Accepts(p, c) then false
    else MatchFrom(name, pattern, i + 1)
  }

  /** `isMatch(name, pattern)`. */
  function IsMatch(name: Name, pattern: Name): bool
  {
    MatchFrom(name, pattern, 0)
  }

  /** The scan as the source runs it: a loop that stops once `found` is set. */
  method Matches(name: Name, pattern: Name) returns (r: bool)
    ensures r == IsMatch(name, pattern)
  {
    var found := -1;
    var i := 0;
    while found < 0
      invariant 0 <= i <= |pattern| + 1
      invariant -1 <= found <= 1
      invariant found < 0 ==> i <= |pattern| && MatchFrom(name, pattern, i) == IsMatch(name, pattern)
      invariant found >= 0 ==> (found == 1) == IsMatch(name, pattern)
      decreases |pattern| + 1 - i
    {
      var p, c := At(pattern, i), At(name, i);
      if p == STAR {
        found := 1;
      } else if p == NUL || c == NUL {
        found := if p == c then 1 else 0;
      } else if p != QMARK && p != c && !(c == TILDE && p == SHIFTED) {
        found := 0;
      }
      i := i + 1;
    }
    r := found == 1;
  }

  lemma {:induction false} MatchFromStop(name: Name, pattern: Name, i: nat, k: nat)
    requires i <= k
    requires forall j :: i <= j < k ==> Agrees(name, pattern, j)
    requires !Agrees(name, pattern, k)
    ensures MatchFrom(name, pattern, i) == Succeeds(name, pattern, k)
    decreases k - i
  {
    if i < k {
      assert Agrees(name, pattern, i);
      MatchFromStop(name, pattern, i + 1, k);
    }
  }

  /**
   * The scan stops at the first position that does not agree, and the
   * verdict is read off that position alone: a `*` there succeeds whatever
   * follows, a terminator there succeeds only if both strings end there.
   */
  lemma MatchAtStop(name: Name, pattern: Name, k: nat)
    requires forall j :: 0 <= j < k ==> Agrees(name, pattern, j)
    requires !Agrees(name, pattern, k)
    ensures IsMatch(name, pattern) <==> Succeeds(name, pattern, k)
  {
    MatchFromStop(name, pattern, 0, k);
  }

  /** The scan stops no later than the end of the pattern. */
  lemma {:induction false} StopExists(name: Name, pattern: Name, i: nat)
    requires i <= |pattern|
    requires forall j :: 0 <= j < i ==> Agrees(name, pattern, j)
    ensures exists k :: i <= k <= |pattern| && !Agrees(name, pattern, k) &&
                        forall j :: 0 <= j < k ==> Agrees(name, pattern, j)
    decreases |pattern| - i
  {
    if !Agrees(name, pattern, i) {
    } else {
      assert i < |pattern|;
      StopExists(name, pattern, i + 1);
    }
  }

  /** A `*` reached by the scan matches whatever the name holds from there on. */
  lemma MatchStar(name: Name, pattern: Name, k: nat)
    requires forall j :: 0 <= j < k ==> Agrees(name, pattern, j)
    requires At(pattern, k) == STAR
    ensures IsMatch(name, pattern)
  {
    MatchAtStop(name, pattern, k);
  }

  /** Every name without a NUL byte matches itself. */
  lemma MatchSelf(s: Name)
    requires forall i :: 0 <= i < |s| ==> s[i] != NUL
    ensures IsMatch(s, s)
  {
    forall j | 0 <= j < |s| && s[j] != STAR
      ensures Agrees(s, s, j)
    {
    }
    var k :| 0 <= k <= |s| && !Agrees(s, s, k) && forall j :: 0 <= j < k ==> Agrees(s, s, j) by {
      StopExists(s, s, 0);
    }
    MatchAtStop(s, s, k);
  }

  /** A pattern that holds no wildcard byte matches exactly the name equal to it. */
  lemma MatchLiteral(name: Name, pattern: Name)
    requires forall i :: 0 <= i < |name| ==> name[i] != NUL
    requires forall i :: 0 <= i < |pattern| ==> pattern[i] !in {NUL, STAR, QMARK, SHIFTED}
    ensures IsMatch(name, pattern) <==> name == pattern
  {
    var k :| 0 <= k <= |pattern| && !Agrees(name, pattern, k) &&
             forall j :: 0 <= j < k ==> Agrees(name, pattern, j) by {
      StopExists(name, pattern, 0);
    }
    MatchAtStop(name, pattern, k);
    forall j | 0 <= j < k
      ensures j < |name| && j < |pattern| && name[j] == pattern[j]
    {
      assert Agrees(name, pattern, j);
    }
    if name == pattern {
      assert k == |pattern|;
    }
    if Succeeds(name, pattern, k) {
      assert At(pattern, k) == NUL;
      assert k == |pattern|;
      assert At(name, k) == NUL;
      if k > 0 {
        assert Agrees(name, pattern, k - 1);
      }
      assert k == |name|;
      assert name == pattern;
    }
  }

  lemma Examples()
    ensures IsMatch(Ascii("FILE"), Ascii("FIL?"))
    ensures !IsMatch(Ascii("FILE"), Ascii("FILED"))
    ensures IsMatch([], Ascii("*"))
    ensures IsMatch(Ascii("FILE"), Ascii("F*X"))
    ensures !IsMatch(Ascii("A~B"), Ascii("A~"))
  {
  }

  /** The shifted-glyph equivalence: pattern byte 0xFF accepts a `~` of the name. */
  lemma TildeExample()
    ensures IsMatch([0x41, TILDE, 0x42], [0x41, SHIFTED, 0x42])
  {
    var n, p: Name := [0x41, TILDE, 0x42], [0x41, SHIFTED, 0x42];
    assert MatchFrom(n, p, 3);
    assert MatchFrom(n, p, 2);
    assert MatchFrom(n, p, 1);
  }
}
