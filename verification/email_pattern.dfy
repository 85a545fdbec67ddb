/**
 * The e-mail pattern of the contact-form schema,
 * `^\w+([\.-]?\w+)*@\w+([\.-]?\w+)*(\.\w{2,3})+$`, written as a grammar:
 * a dotted name (`\w+([\.-]?\w+)*`), an '@', then a dotted name followed
 * by one or more top-level groups (`(\.\w{2,3})+`). Beside it, a flat
 * description by character positions, and the proof that both accept the
 * same strings.
 */
module EmailPattern {
  import opened Common

  predicate IsSeparator(c: char) { c == '.' || c == '-' }

  /** `\w+` */
  predicate WordRun(s: string)
  {
    |s| > 0 && forall i :: 0 <= i < |s| ==> IsWordChar(s[i])
  }

  /** `[\.-]?\w+` */
  predicate Piece(p: string)
  {
    WordRun(p) || (|p| >= 2 && IsSeparator(p[0]) && WordRun(p[1..]))
  }

  /** `([\.-]?\w+)*` */
  predicate Pieces(s: string)
    decreases |s|
  {
    s == [] || exists j :: 0 < j <= |s| && Piece(s[..j]) && Pieces(s[j..])
  }

  /** `\w+([\.-]?\w+)*` */
  predicate Dotted(s: string)
  {
    exists j :: 0 < j <= |s| && WordRun(s[..j]) && Pieces(s[j..])
  }

  /** `\.\w{2,3}` */
  predicate TopLevelGroup(g: string)
  {
    (|g| == 3 || |g| == 4) && g[0] == '.' && WordRun(g[1..])
  }

  /** `(\.\w{2,3})+` */
  predicate TopLevel(t: string)
    decreases |t|
  {
    (|t| >= 3 && TopLevelGroup(t[..3]) && (|t| == 3 || TopLevel(t[3..])))
    || (|t| >= 4 && TopLevelGroup(t[..4]) && (|t| == 4 || TopLevel(t[4..])))
  }

  /** `\w+([\.-]?\w+)*(\.\w{2,3})+` */
  predicate Domain(d: string)
  {
    exists j :: 0 < j < |d| && Dotted(d[..j]) && TopLevel(d[j..])
  }

  /** The whole pattern, anchored at both ends. */
  predicate MatchesEmailPattern(s: string)
  {
    exists i :: 0 <= i < |s| && s[i] == '@' && Dotted(s[..i]) && Domain(s[i + 1..])
  }

  // ---------------------------------------------------------------------
  // The flat description
  // ---------------------------------------------------------------------

  /** Word characters and separators only, never two separators in a row, ending in a word character. */
  predicate FlatTail(s: string)
  {
    s == [] || (
      IsWordChar(s[|s| - 1])
      && (forall i :: 0 <= i < |s| ==> IsWordChar(s[i]) || IsSeparator(s[i]))
      && (forall i :: 0 <= i < |s| - 1 ==> IsWordChar(s[i]) || IsWordChar(s[i + 1])))
  }

  /** A flat tail that starts with a word character. */
  predicate FlatDotted(s: string)
  {
    |s| > 0 && IsWordChar(s[0]) && FlatTail(s)
  }

  /** The string ends in a dot and two or three word characters. */
  predicate EndsWithTopLevel(d: string)
  {
    (|d| >= 3 && d[|d| - 3] == '.' && IsWordChar(d[|d| - 2]) && IsWordChar(d[|d| - 1]))
    || (|d| >= 4 && d[|d| - 4] == '.' && IsWordChar(d[|d| - 3]) && IsWordChar(d[|d| - 2]) && IsWordChar(d[|d| - 1]))
  }

  /** The e-mail check by character positions. */
  predicate IsValidEmail(s: string)
  {
    exists i :: 0 <= i < |s| && s[i] == '@' && FlatDotted(s[..i]) && FlatDotted(s[i + 1..]) && EndsWithTopLevel(s[i + 1..])
  }

  // ---------------------------------------------------------------------
  // Both descriptions agree
  // ---------------------------------------------------------------------

  lemma FlatConcat(a: string, b: string)
    requires FlatTail(a) && FlatTail(b)
    ensures FlatTail(a + b)
  {
    if a != [] && b != [] {
      var s := a + b;
      forall i | 0 <= i < |s| - 1
        ensures IsWordChar(s[i]) || IsWordChar(s[i + 1])
      {
        if i < |a| - 1 {
          assert s[i] == a[i] && s[i + 1] == a[i + 1];
        } else if i == |a| - 1 {
          assert s[i] == a[|a| - 1];
        } else {
          assert s[i] == b[i - |a|] && s[i + 1] == b[i - |a| + 1];
        }
      }
      forall i | 0 <= i < |s|
        ensures IsWordChar(s[i]) || IsSeparator(s[i])
      {
        if i < |a| { assert s[i] == a[i]; } else { assert s[i] == b[i - |a|]; }
      }
      assert s[|s| - 1] == b[|b| - 1];
    } else if a == [] {
      assert a + b == b;
    } else {
      assert a + b == a;
    }
  }

  /** What is left after a flat tail's first characters is a flat tail. */
  lemma FlatSuffix(s: string, j: nat)
    requires FlatTail(s) && j <= |s|
    ensures FlatTail(s[j..])
  {
    if j < |s| {
      var t := s[j..];
      assert forall i :: 0 <= i < |t| ==> t[i] == s[i + j];
    }
  }

  lemma WordRunFlat(w: string)
    requires WordRun(w)
    ensures FlatDotted(w)
  {
  }

  lemma PieceFlat(p: string)
    requires Piece(p)
    ensures FlatTail(p)
  {
    if !WordRun(p) {
      assert p == p[..1] + p[1..];
      assert FlatTail(p[..1] + p[1..]) by {
        var s := p[..1] + p[1..];
        assert s[|s| - 1] == p[1..][|p[1..]| - 1];
        assert forall i :: 1 <= i < |s| ==> s[i] == p[1..][i - 1];
      }
    }
  }

  lemma {:induction false} PiecesFlat(s: string)
    requires Pieces(s)
    ensures FlatTail(s)
    decreases |s|
  {
    if s != [] {
      var j :| 0 < j <= |s| && Piece(s[..j]) && Pieces(s[j..]);
      PieceFlat(s[..j]);
      PiecesFlat(s[j..]);
      FlatConcat(s[..j], s[j..]);
      assert s == s[..j] + s[j..];
    }
  }

  lemma {:induction false} FlatPieces(s: string)
    requires FlatTail(s)
    ensures Pieces(s)
    decreases |s|
  {
    if s != [] {
      var j := if IsWordChar(s[0]) then 1 else 2;
      if j == 2 {
        assert |s| >= 2;
        assert IsWordChar(s[1]);
        assert s[..2][1..] == [s[1]];
      }
      assert Piece(s[..j]);
      FlatSuffix(s, j);
      FlatPieces(s[j..]);
    }
  }

  /** `\w+([\.-]?\w+)*` accepts exactly the flat names. */
  lemma DottedIff(s: string)
    ensures Dotted(s) <==> FlatDotted(s)
  {
    if Dotted(s) {
      var j :| 0 < j <= |s| && WordRun(s[..j]) && Pieces(s[j..]);
      PiecesFlat(s[j..]);
      FlatConcat(s[..j], s[j..]);
      assert s == s[..j] + s[j..];
      assert s[0] == s[..j][0];
    }
    if FlatDotted(s) {
      FlatSuffix(s, 1);
      FlatPieces(s[1..]);
      assert WordRun(s[..1]);
    }
  }

  /** Putting characters in front keeps the ending. */
  lemma EndKept(a: string, r: string)
    requires EndsWithTopLevel(r)
    ensures EndsWithTopLevel(a + r)
  {
    var d := a + r;
    assert d[|d| - 1] == r[|r| - 1] && d[|d| - 2] == r[|r| - 2] && d[|d| - 3] == r[|r| - 3];
    if |r| >= 4 {
      assert d[|d| - 4] == r[|r| - 4];
    }
  }

  lemma {:induction false} TopLevelShape(t: string)
    requires TopLevel(t)
    ensures t[0] == '.' && FlatTail(t) && EndsWithTopLevel(t)
    decreases |t|
  {
    var n := if |t| >= 3 && TopLevelGroup(t[..3]) && (|t| == 3 || TopLevel(t[3..])) then 3 else 4;
    var g := t[..n];
    assert FlatTail(g) by {
      assert forall i :: 1 <= i < |g| ==> g[i] == g[1..][i - 1];
    }
    if n == |t| {
      assert t == g;
    } else {
      TopLevelShape(t[n..]);
      FlatConcat(g, t[n..]);
      assert t == g + t[n..];
      EndKept(g, t[n..]);
    }
  }

  /** A flat name followed by top-level groups is a flat name with the same ending. */
  lemma JoinFlat(a: string, r: string)
    requires FlatDotted(a) && FlatTail(r) && EndsWithTopLevel(r)
    ensures FlatDotted(a + r) && EndsWithTopLevel(a + r)
  {
    FlatConcat(a, r);
    EndKept(a, r);
    assert (a + r)[0] == a[0];
  }

  lemma DomainFlat(d: string)
    requires Domain(d)
    ensures FlatDotted(d) && EndsWithTopLevel(d)
  {
    var j :| 0 < j < |d| && Dotted(d[..j]) && TopLevel(d[j..]);
    var a, r := d[..j], d[j..];
    DottedIff(a);
    TopLevelShape(r);
    JoinFlat(a, r);
    assert d == a + r;
  }

  lemma FlatDomain(d: string)
    requires FlatDotted(d) && EndsWithTopLevel(d)
    ensures Domain(d)
  {
    var j := if |d| >= 3 && d[|d| - 3] == '.' && IsWordChar(d[|d| - 2]) && IsWordChar(d[|d| - 1]) then |d| - 3 else |d| - 4;
    assert 0 < j;
    assert IsWordChar(d[j - 1]);
    var a := d[..j];
    assert FlatDotted(a) by {
      assert forall i :: 0 <= i < |a| ==> a[i] == d[i];
    }
    DottedIff(a);
    var t := d[j..];
    if j == |d| - 3 {
      assert t == [d[j], d[j + 1], d[j + 2]];
    } else {
      assert t == [d[j], d[j + 1], d[j + 2], d[j + 3]];
    }
    assert TopLevelGroup(t);
    assert t[..|t|] == t;
    assert TopLevel(t);
  }

  /** The domain part of the pattern accepts exactly the flat names that end in a top-level group. */
  lemma DomainIff(d: string)
    ensures Domain(d) <==> FlatDotted(d) && EndsWithTopLevel(d)
  {
    if Domain(d) {
      DomainFlat(d);
    }
    if FlatDotted(d) && EndsWithTopLevel(d) {
      FlatDomain(d);
    }
  }

  /** The grammar of the pattern and the flat check accept the same strings. */
  lemma EmailIff(s: string)
    ensures MatchesEmailPattern(s) <==> IsValidEmail(s)
  {
    if MatchesEmailPattern(s) {
      var i :| 0 <= i < |s| && s[i] == '@' && Dotted(s[..i]) && Domain(s[i + 1..]);
      DottedIff(s[..i]);
      DomainIff(s[i + 1..]);
    }
    if IsValidEmail(s) {
      var i :| 0 <= i < |s| && s[i] == '@' && FlatDotted(s[..i]) && FlatDotted(s[i + 1..]) && EndsWithTopLevel(s[i + 1..]);
      DottedIff(s[..i]);
      DomainIff(s[i + 1..]);
    }
  }

  /** An '@' outside two flat names is the one between them. */
  lemma AtIsSplit(s: string, m: nat, i: nat)
    requires m < |s| && FlatTail(s[..m]) && FlatTail(s[m + 1..])
    requires i < |s| && s[i] == '@'
    ensures i == m
  {
    NoAtInFlat(s[..m]);
    NoAtInFlat(s[m + 1..]);
  }

  lemma NoAtInFlat(t: string)
    requires FlatTail(t)
    ensures '@' !in t
  {
  }

  lemma OneAtFlat(s: string, i: nat, k: nat)
    requires IsValidEmail(s)
    requires i < |s| && k < |s| && s[i] == '@' && s[k] == '@'
    ensures i == k
  {
    var m :| 0 <= m < |s| && s[m] == '@' && FlatDotted(s[..m]) && FlatDotted(s[m + 1..]) && EndsWithTopLevel(s[m + 1..]);
    AtIsSplit(s, m, i);
    AtIsSplit(s, m, k);
  }

  /** An address the pattern accepts has exactly one '@'. */
  lemma OneAt(s: string, i: nat, k: nat)
    requires MatchesEmailPattern(s)
    requires i < |s| && k < |s| && s[i] == '@' && s[k] == '@'
    ensures i == k
  {
    EmailIff(s);
    OneAtFlat(s, i, k);
  }

  /** A typical address is accepted. */
  lemma AcceptsPlainAddress()
    ensures MatchesEmailPattern("kim.lee@salt-co.kr")
  {
    var s := "kim.lee@salt-co.kr";
    assert s[7] == '@';
    assert FlatDotted(s[..7]);
    assert FlatDotted(s[8..]) && EndsWithTopLevel(s[8..]);
    EmailIff(s);
  }

  /** A one-letter top-level domain is refused. */
  lemma RefusesShortTopLevel()
    ensures !MatchesEmailPattern("a@b.c")
  {
    var s := "a@b.c";
    EmailIff(s);
    forall i | 0 <= i < |s| && s[i] == '@'
      ensures !EndsWithTopLevel(s[i + 1..])
    {
      assert i == 1;
    }
  }

  /** No address with a '+' is accepted: `\w` does not include it. */
  lemma RefusesPlus(s: string, p: nat)
    requires p < |s| && s[p] == '+'
    ensures !MatchesEmailPattern(s)
  {
    EmailIff(s);
    forall i | 0 <= i < |s| && s[i] == '@'
      ensures !(FlatDotted(s[..i]) && FlatDotted(s[i + 1..]))
    {
      if p < i {
        NotFlatAt(s[..i], p);
      } else {
        NotFlatAt(s[i + 1..], p - i - 1);
      }
    }
  }

  lemma NotFlatAt(t: string, p: nat)
    requires p < |t| && !IsWordChar(t[p]) && !IsSeparator(t[p])
    ensures !FlatTail(t)
  {
  }
}
