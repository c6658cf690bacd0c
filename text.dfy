/** Character classes, substring search and string ordering as Python's `str` has them. */
module Text {
  import opened Common

  /** Python's `str.isspace()`, which is also what `str.split()` and the regex class `\s` use. */
  predicate IsSpace(c: char) {
    ('\t' <= c <= '\r') || ('\U{1C}' <= c <= '\U{1F}') || c == ' ' || c == '\U{85}' || c == '\U{A0}'
    || c == '\U{1680}' || ('\U{2000}' <= c <= '\U{200A}') || c == '\U{2028}' || c == '\U{2029}'
    || c == '\U{202F}' || c == '\U{205F}' || c == '\U{3000}'
  }

  /** The ASCII decimal digits. */
  predicate IsDigit(c: char) {
    '0' <= c <= '9'
  }

  predicate AllSpace(s: string) {
    forall i :: 0 <= i < |s| ==> IsSpace(s[i])
  }

  predicate NoSpace(s: string) {
    forall i :: 0 <= i < |s| ==> !IsSpace(s[i])
  }

  predicate AllDigits(s: string) {
    forall i :: 0 <= i < |s| ==> IsDigit(s[i])
  }

  /** `str.lower()` on one character, for the ASCII letters. */
  function LowerChar(c: char): (r: char)
    ensures IsSpace(r) <==> IsSpace(c)
    ensures 'A' <= c <= 'Z' ==> 'a' <= r <= 'z'
    ensures !('A' <= c <= 'Z') ==> r == c
  {
    if 'A' <= c <= 'Z' then (c as int + 32) as char else c
  }

  /** `str.lower()`, character by character. */
  function Lower(s: string): (r: string)
    ensures |r| == |s|
    ensures forall i :: 0 <= i < |s| ==> r[i] == LowerChar(s[i])
  {
    seq(|s|, i requires 0 <= i < |s| => LowerChar(s[i]))
  }

  /** `pat` occurs in `s` starting at position `j`. */
  predicate OccursAt(s: string, pat: string, j: nat) {
    j + |pat| <= |s| && s[j..j + |pat|] == pat
  }

  /** The leftmost occurrence of `pat` in `s` at or after `from`. */
  function FindFrom(s: string, pat: string, from: nat): (r: Option<nat>)
    requires from <= |s|
    ensures r.Some? ==> from <= r.value && OccursAt(s, pat, r.value)
    decreases |s| - from
  {
    if from + |pat| > |s| then None
    else if s[from..from + |pat|] == pat then Some(from)
    else FindFrom(s, pat, from + 1)
  }

  /** `FindFrom` skips no occurrence: none lies between `from` and what it returns, and none
      at all from `from` on when it returns nothing. */
  lemma {:induction false} FindFromLeftmost(s: string, pat: string, from: nat)
    requires from <= |s|
    ensures var r := FindFrom(s, pat, from);
      forall j: nat :: from <= j && (r.None? || j < r.value) ==> !OccursAt(s, pat, j)
    decreases |s| - from
  {
    if from + |pat| <= |s| && s[from..from + |pat|] != pat {
      FindFromLeftmost(s, pat, from + 1);
    }
  }

  /** Python's `pat in s`. */
  predicate Contains(s: string, pat: string) {
    FindFrom(s, pat, 0).Some?
  }

  /** `pat in s` holds exactly when `pat` occurs somewhere in `s`. */
  lemma ContainsSpec(s: string, pat: string)
    ensures Contains(s, pat) <==> exists j: nat :: OccursAt(s, pat, j)
  {
    FindFromLeftmost(s, pat, 0);
    if Contains(s, pat) {
      assert OccursAt(s, pat, FindFrom(s, pat, 0).value);
    }
  }

  /** `s.split(sep)[1]`: the text between the first and the second occurrence of `sep`,
      or up to the end when `sep` occurs once; `None` when `sep` does not occur. */
  function SecondPiece(s: string, sep: string): (r: Option<string>)
    requires sep != []
    ensures r.None? <==> !Contains(s, sep)
    ensures r.Some? ==> |r.value| + |sep| <= |s|
  {
    match FindFrom(s, sep, 0)
    case None => None
    case Some(k) =>
      var start := k + |sep|;
      match FindFrom(s, sep, start)
      case None => Some(s[start..])
      case Some(k2) => Some(s[start..k2])
  }

  /** Where the piece `SecondPiece` returns sits: just after the first occurrence of `sep`,
      running to the end of `s` or to the next occurrence. */
  lemma SecondPieceSpec(s: string, sep: string, piece: string)
    requires sep != [] && SecondPiece(s, sep) == Some(piece)
    ensures exists k: nat ::
      && OccursAt(s, sep, k)
      && (forall j: nat :: j < k ==> !OccursAt(s, sep, j))
      && k + |sep| + |piece| <= |s|
      && s[k + |sep|..k + |sep| + |piece|] == piece
      && (k + |sep| + |piece| == |s| || OccursAt(s, sep, k + |sep| + |piece|))
  {
    var k := FindFrom(s, sep, 0).value;
    var start := k + |sep|;
    assert FindFrom(s, sep, 0) == Some(k);
    if FindFrom(s, sep, start).Some? {
      assert piece == s[start..FindFrom(s, sep, start).value];
    } else {
      assert piece == s[start..];
    }
    assert s[start..start + |piece|] == piece;
    FindFromLeftmost(s, sep, 0);
  }

  /** The piece `SecondPiece` returns holds no `sep` of its own. */
  lemma SecondPieceHasNoSeparator(s: string, sep: string, piece: string)
    requires sep != [] && SecondPiece(s, sep) == Some(piece)
    ensures !Contains(piece, sep)
  {
    var k := FindFrom(s, sep, 0).value;
    var start := k + |sep|;
    assert FindFrom(s, sep, 0) == Some(k);
    FindFromLeftmost(s, sep, start);
    if FindFrom(s, sep, start).Some? {
      assert piece == s[start..FindFrom(s, sep, start).value];
    } else {
      assert piece == s[start..];
    }
    assert s[start..start + |piece|] == piece;
    PieceHasNoSeparator(s, sep, start, piece);
  }

  /** A piece that starts at `start` and ends before the next occurrence of `sep` holds none. */
  lemma PieceHasNoSeparator(s: string, sep: string, start: nat, piece: string)
    requires sep != []
    requires start + |piece| <= |s| && s[start..start + |piece|] == piece
    requires forall j: nat :: start <= j < start + |piece| ==> !OccursAt(s, sep, j)
    ensures !Contains(piece, sep)
  {
    ContainsSpec(piece, sep);
    forall j: nat | OccursAt(piece, sep, j)
      ensures false
    {
      forall k | 0 <= k < |sep|
        ensures s[start + j + k] == sep[k]
      {
        assert piece[j + k] == s[start..start + |piece|][j + k];
        assert sep[k] == piece[j..j + |sep|][k];
      }
      assert s[start + j..start + j + |sep|] == sep;
      assert OccursAt(s, sep, start + j);
    }
  }

  /** Python's `<` on strings: lexicographic by code point. */
  predicate Less(a: string, b: string)
    decreases |a|
  {
    if a == [] then b != []
    else if b == [] then false
    else if a[0] == b[0] then Less(a[1..], b[1..])
    else a[0] < b[0]
  }

  lemma {:induction false} LessIrreflexive(a: string)
    ensures !Less(a, a)
  {
    if a != [] {
      LessIrreflexive(a[1..]);
    }
  }

  lemma {:induction false} LessTransitive(a: string, b: string, c: string)
    requires Less(a, b) && Less(b, c)
    ensures Less(a, c)
    decreases |a|
  {
    if a != [] && b != [] && c != [] && a[0] == b[0] && b[0] == c[0] {
      LessTransitive(a[1..], b[1..], c[1..]);
    }
  }

  lemma {:induction false} LessTotal(a: string, b: string)
    requires a != b
    ensures Less(a, b) || Less(b, a)
    decreases |a|
  {
    if a != [] && b != [] && a[0] == b[0] {
      assert a == [a[0]] + a[1..] && b == [b[0]] + b[1..];
      LessTotal(a[1..], b[1..]);
    }
  }

  lemma {:induction false} LessAsymmetric(a: string, b: string)
    requires Less(a, b)
    ensures !Less(b, a)
    decreases |a|
  {
    if a != [] && b != [] && a[0] == b[0] {
      LessAsymmetric(a[1..], b[1..]);
    }
  }

  /** Strictly increasing, hence also free of repetitions. */
  predicate Sorted(s: seq<string>) {
    forall i, j :: 0 <= i < j < |s| ==> Less(s[i], s[j])
  }

  /** `<` on strings is a strict total order. */
  lemma LessOrder()
    ensures forall a :: !Less(a, a)
    ensures forall a, b, c :: Less(a, b) && Less(b, c) ==> Less(a, c)
  {
    forall a ensures !Less(a, a) { LessIrreflexive(a); }
    forall a, b, c | Less(a, b) && Less(b, c) ensures Less(a, c) { LessTransitive(a, b, c); }
  }

  /** Every non-empty finite set of strings has a least element. */
  lemma {:induction false} MinimumExists(s: set<string>)
    requires s != {}
    ensures exists m :: m in s && forall y :: y in s && y != m ==> Less(m, y)
    decreases |s|
  {
    var z :| z in s;
    var s' := s - {z};
    if s' == {} {
      assert s == {z};
    } else {
      MinimumExists(s');
      var m :| m in s' && forall y :: y in s' && y != m ==> Less(m, y);
      LessTotal(m, z);
      if Less(m, z) {
        assert forall y :: y in s && y != m ==> Less(m, y);
      } else {
        forall y | y in s && y != z ensures Less(z, y) {
          if y != m { LessTransitive(z, m, y); }
        }
      }
    }
  }

  /** Python's `sorted(s)` for a set of strings: its elements in increasing order. */
  function SortedSet(s: set<string>): (r: seq<string>)
    ensures Sorted(r) && |r| == |s|
    ensures forall x :: x in r <==> x in s
    decreases |s|
  {
    if s == {} then []
    else
      MinimumExists(s);
      forall a, b | Less(a, b) ensures !Less(b, a) { LessAsymmetric(a, b); }
      var m :| m in s && forall y :: y in s && y != m ==> Less(m, y);
      var rest := SortedSet(s - {m});
      assert forall y :: y in rest ==> Less(m, y);
      SortedCons(m, rest);
      assert |s - {m}| == |s| - 1;
      [m] + rest
  }

  /** An element below everything in a sorted sequence can go in front of it. */
  lemma SortedCons(m: string, rest: seq<string>)
    requires Sorted(rest) && forall y :: y in rest ==> Less(m, y)
    ensures Sorted([m] + rest)
  {
    var r := [m] + rest;
    forall i, j | 0 <= i < j < |r| ensures Less(r[i], r[j]) {
      assert r[j] == rest[j - 1];
      if i > 0 {
        assert r[i] == rest[i - 1];
      }
    }
  }

  /** A sorted sequence is determined by its elements. */
  lemma {:induction false} SortedUnique(a: seq<string>, b: seq<string>)
    requires Sorted(a) && Sorted(b)
    requires forall x :: x in a <==> x in b
    ensures a == b
    decreases |a|
  {
    if a != [] {
      assert a[0] in a;
    }
    if b != [] {
      assert b[0] in b;
    }
    if a != [] && b != [] {
      if a[0] != b[0] {
        assert b[0] in a && a[0] in b;
        var i :| 0 < i < |a| && a[i] == b[0];
        var j :| 0 < j < |b| && b[j] == a[0];
        LessTransitive(a[0], b[0], a[0]);
        LessIrreflexive(a[0]);
      }
      assert a == [a[0]] + a[1..] && b == [b[0]] + b[1..];
      forall x ensures x in a[1..] <==> x in b[1..] {
        if x in a[1..] {
          var i :| 1 <= i < |a| && a[i] == x;
          assert Less(a[0], x);
          assert x != a[0] by { LessIrreflexive(a[0]); }
          assert x in b;
          var k :| 0 <= k < |b| && b[k] == x;
          assert b[1..][k - 1] == x;
        }
        if x in b[1..] {
          var j :| 1 <= j < |b| && b[j] == x;
          assert Less(b[0], x);
          assert x != b[0] by { LessIrreflexive(b[0]); }
          assert x in a;
          var k :| 0 <= k < |a| && a[k] == x;
          assert a[1..][k - 1] == x;
        }
      }
      SortedUnique(a[1..], b[1..]);
    }
  }
}
