/**
 * The trial-label rewrite of the data cleaner: the regular-expression
 * substitution `([A-Z]+)(\d+)` -> `\1_\2`, so that "LF1" becomes "LF_1".
 */
module Labels {
  import opened Strings

  /** Length of the run of upper-case letters that starts `s`. */
  function UpperRun(s: string): (k: nat)
    ensures k <= |s|
    decreases |s|
  {
    if s != [] && IsUpper(s[0]) then 1 + UpperRun(s[1..]) else 0
  }

  /** The run is maximal: upper-case letters up to it, and none right after it. */
  lemma {:induction false} UpperRunSpec(s: string)
    ensures forall i :: 0 <= i < UpperRun(s) ==> IsUpper(s[i])
    ensures UpperRun(s) < |s| ==> !IsUpper(s[UpperRun(s)])
    decreases |s|
  {
    if s != [] && IsUpper(s[0]) {
      UpperRunSpec(s[1..]);
    }
  }

  /** Length of the run of digits that starts `s`. */
  function DigitRun(s: string): (k: nat)
    ensures k <= |s|
    decreases |s|
  {
    if s != [] && IsDigit(s[0]) then 1 + DigitRun(s[1..]) else 0
  }

  /** The run is maximal: digits up to it, and none right after it. */
  lemma {:induction false} DigitRunSpec(s: string)
    ensures forall i :: 0 <= i < DigitRun(s) ==> IsDigit(s[i])
    ensures DigitRun(s) < |s| ==> !IsDigit(s[DigitRun(s)])
    decreases |s|
  {
    if s != [] && IsDigit(s[0]) {
      DigitRunSpec(s[1..]);
    }
  }

  /**
   * One step of the regular-expression engine at the front of a non-empty
   * text: the greedy match of an upper-case run followed by a digit run
   * gives the run, "_" and the digits, and consumes the match; otherwise
   * one character is copied and consumed. Returns (emitted, consumed).
   */
  function Front(s: string): (r: (string, nat))
    requires s != []
    ensures 0 < r.1 <= |s|
  {
    var u := UpperRun(s);
    if 0 < u < |s| && IsDigit(s[u]) then
      var d := u + DigitRun(s[u..]);
      (s[..u] + "_" + s[u..d], d)
    else ([s[0]], 1)
  }

  /** The substitution: engine steps from the front until the text is used up. */
  function Rewrite(s: string): string
    decreases |s|
  {
    if s == [] then "" else Front(s).0 + Rewrite(s[Front(s).1..])
  }

  /** Position `i` is a letter-digit boundary: an upper-case letter directly followed by a digit. */
  predicate IsBoundary(s: string, i: int)
  {
    0 <= i < |s| - 1 && IsUpper(s[i]) && IsDigit(s[i + 1])
  }

  predicate NoBoundary(s: string)
  {
    forall i :: 0 <= i < |s| - 1 ==> !IsBoundary(s, i)
  }

  /** Reference definition: "_" inserted at every letter-digit boundary and nowhere else. */
  function Separated(s: string): (r: string)
    ensures |s| > 0 ==> |r| > 0 && r[0] == s[0]
    decreases |s|
  {
    if |s| < 2 then s
    else if IsUpper(s[0]) && IsDigit(s[1]) then [s[0], '_'] + Separated(s[1..])
    else [s[0]] + Separated(s[1..])
  }

  lemma {:induction false} SeparatedUpperRun(s: string, u: nat)
    requires 0 < u < |s| && IsDigit(s[u])
    requires forall i :: 0 <= i < u ==> IsUpper(s[i])
    ensures Separated(s) == s[..u] + "_" + Separated(s[u..])
    decreases u
  {
    if u == 1 {
      assert Separated(s) == [s[0], '_'] + Separated(s[1..]);
      assert s[..1] + "_" == [s[0], '_'];
    } else {
      var t := s[1..];
      SeparatedUpperRun(t, u - 1);
      assert t[..u - 1] == s[1..u] && t[u - 1..] == s[u..];
      UpperRunStep(s, u);
    }
  }

  /** One more upper-case letter in front of a run keeps the "_" after the run. */
  lemma UpperRunStep(s: string, u: nat)
    requires 1 < u < |s| && IsUpper(s[1])
    requires Separated(s[1..]) == s[1..u] + "_" + Separated(s[u..])
    ensures Separated(s) == s[..u] + "_" + Separated(s[u..])
  {
    var head, run, rest := [s[0]], s[1..u], Separated(s[u..]);
    assert Separated(s) == head + (run + "_" + rest);
    Regroup(head, run + "_", rest);
    Regroup(head, run, "_");
    assert head + run == s[..u];
  }

  lemma {:induction false} SeparatedDigitRun(s: string, d: nat)
    requires d <= |s|
    requires forall i :: 0 <= i < d ==> IsDigit(s[i])
    ensures Separated(s) == s[..d] + Separated(s[d..])
    decreases d
  {
    if d == 0 {
      assert s[..0] + s == s;
    } else if |s| < 2 {
      assert s[..d] == s && s[d..] == [];
    } else {
      SeparatedDigitRun(s[1..], d - 1);
      assert s[1..][..d - 1] == s[1..d];
      assert s[1..][d - 1..] == s[d..];
      var head, run, rest := [s[0]], s[1..d], Separated(s[d..]);
      assert Separated(s) == head + (run + rest);
      Regroup(head, run, rest);
      assert head + run == s[..d];
    }
  }

  /** The engine's scan and the boundary definition agree on every string. */
  lemma {:induction false} RewriteIsSeparated(s: string)
    ensures Rewrite(s) == Separated(s)
    decreases |s|
  {
    if s != [] {
      var u := UpperRun(s);
      if 0 < u < |s| && IsDigit(s[u]) {
        var k := DigitRun(s[u..]);
        RewriteIsSeparated(s[u + k..]);
        RewriteMatch(s, u, k);
      } else {
        RewriteIsSeparated(s[1..]);
        RewriteNoMatch(s, u);
      }
    }
  }

  /** A match of the pattern at the front: both sides emit the run, "_" and the digits, then agree on the rest. */
  lemma RewriteMatch(s: string, u: nat, k: nat)
    requires u == UpperRun(s) && 0 < u < |s| && IsDigit(s[u]) && k == DigitRun(s[u..])
    requires Rewrite(s[u + k..]) == Separated(s[u + k..])
    ensures Rewrite(s) == Separated(s)
  {
    var d := u + k;
    RewriteMatchEmits(s, u, k);
    SeparatedMatchEmits(s, u, k);
    Reassemble(Rewrite(s), s[..u] + "_" + s[u..d], Rewrite(s[d..]), s[..u] + "_" + s[u..d], Separated(s[d..]));
    Regroup(s[..u] + "_", s[u..d], Separated(s[d..]));
  }

  lemma FrontMatch(s: string, u: nat, k: nat)
    requires u == UpperRun(s) && 0 < u < |s| && IsDigit(s[u]) && k == DigitRun(s[u..])
    ensures Front(s) == (s[..u] + "_" + s[u..u + k], u + k)
  {
    var d := u + DigitRun(s[u..]);
    assert d == u + k;
    assert Front(s) == (s[..u] + "_" + s[u..d], d);
  }

  lemma RewriteMatchEmits(s: string, u: nat, k: nat)
    requires u == UpperRun(s) && 0 < u < |s| && IsDigit(s[u]) && k == DigitRun(s[u..])
    ensures Rewrite(s) == s[..u] + "_" + s[u..u + k] + Rewrite(s[u + k..])
  {
    FrontMatch(s, u, k);
    RewriteUnfold(s);
    Reassemble(Rewrite(s), Front(s).0, Rewrite(s[Front(s).1..]), s[..u] + "_" + s[u..u + k], Rewrite(s[u + k..]));
  }

  lemma SeparatedMatchEmits(s: string, u: nat, k: nat)
    requires u == UpperRun(s) && 0 < u < |s| && IsDigit(s[u]) && k == DigitRun(s[u..])
    ensures Separated(s) == s[..u] + "_" + (s[u..u + k] + Separated(s[u + k..]))
  {
    var t := s[u..];
    SeparatedAfterRun(s, u);
    SeparatedAfterDigits(t, k);
    assert t[..k] == s[u..u + k] && t[k..] == s[u + k..];
    Reassemble(Separated(t), t[..k], Separated(t[k..]), s[u..u + k], Separated(s[u + k..]));
    Reassemble(Separated(s), s[..u] + "_", Separated(t), s[..u] + "_", s[u..u + k] + Separated(s[u + k..]));
  }

  lemma SeparatedAfterRun(s: string, u: nat)
    requires u == UpperRun(s) && 0 < u < |s| && IsDigit(s[u])
    ensures Separated(s) == s[..u] + "_" + Separated(s[u..])
  {
    UpperRunSpec(s);
    SeparatedUpperRun(s, u);
  }

  lemma SeparatedAfterDigits(t: string, k: nat)
    requires k == DigitRun(t)
    ensures Separated(t) == t[..k] + Separated(t[k..])
  {
    DigitRunSpec(t);
    SeparatedDigitRun(t, k);
  }

  lemma RewriteUnfold(s: string)
    requires s != []
    ensures Rewrite(s) == Front(s).0 + Rewrite(s[Front(s).1..])
  {
  }

  /** No match at the front: both sides copy the first character. */
  lemma RewriteNoMatch(s: string, u: nat)
    requires s != [] && u == UpperRun(s) && !(0 < u < |s| && IsDigit(s[u]))
    requires Rewrite(s[1..]) == Separated(s[1..])
    ensures Rewrite(s) == Separated(s)
  {
    assert Front(s) == ([s[0]], 1);
    if |s| >= 2 {
      assert !(IsUpper(s[0]) && IsDigit(s[1]));
    } else {
      assert s[1..] == [] && [s[0]] == s;
    }
  }

  /** Equal pieces make equal concatenations. */
  lemma Reassemble<T>(whole: seq<T>, front: seq<T>, rest: seq<T>, x: seq<T>, y: seq<T>)
    requires whole == front + rest && front == x && rest == y
    ensures whole == x + y
  {
  }

  lemma {:induction false} SeparatedNoBoundary(s: string)
    ensures NoBoundary(Separated(s))
    decreases |s|
  {
    if |s| >= 2 {
      SeparatedNoBoundary(s[1..]);
      var rest := Separated(s[1..]);
      var r := Separated(s);
      if IsUpper(s[0]) && IsDigit(s[1]) {
        assert r == [s[0], '_'] + rest;
        forall i ensures !IsBoundary(r, i) {
          if 2 <= i < |r| - 1 { assert r[i] == rest[i - 2] && r[i + 1] == rest[i - 1]; assert !IsBoundary(rest, i - 2); }
        }
      } else {
        assert r == [s[0]] + rest;
        forall i ensures !IsBoundary(r, i) {
          if 1 <= i < |r| - 1 { assert r[i] == rest[i - 1] && r[i + 1] == rest[i]; assert !IsBoundary(rest, i - 1); }
        }
      }
    }
  }

  lemma {:induction false} SeparatedIdentity(s: string)
    requires NoBoundary(s)
    ensures Separated(s) == s
    decreases |s|
  {
    if |s| >= 2 {
      assert !IsBoundary(s, 0);
      forall i ensures !IsBoundary(s[1..], i) { assert !IsBoundary(s, i + 1); }
      SeparatedIdentity(s[1..]);
      assert [s[0]] + s[1..] == s;
    }
  }

  /** A label without an upper-case letter directly followed by a digit is left unchanged. */
  lemma RewriteUnchanged(s: string)
    requires NoBoundary(s)
    ensures Rewrite(s) == s
  {
    RewriteIsSeparated(s);
    SeparatedIdentity(s);
  }

  /** The rewrite leaves no letter-digit boundary behind, so applying it twice changes nothing more. */
  lemma RewriteIdempotent(s: string)
    ensures NoBoundary(Rewrite(s))
    ensures Rewrite(Rewrite(s)) == Rewrite(s)
  {
    RewriteIsSeparated(s);
    SeparatedNoBoundary(s);
    RewriteUnchanged(Rewrite(s));
  }

  lemma RewriteExampleLF()
    ensures Rewrite("LF1") == "LF_1"
  {
    RewriteIsSeparated("LF1");
    assert Separated("1") == "1";
    assert Separated("F1") == "F_1";
  }

  lemma RewriteExampleRH()
    ensures Rewrite("RH23") == "RH_23"
  {
    RewriteIsSeparated("RH23");
    assert Separated("3") == "3";
    assert Separated("23") == "23";
    assert Separated("H23") == "H_23";
  }

  lemma RewriteExampleUnchanged()
    ensures Rewrite("unrecognized") == "unrecognized"
  {
    RewriteUnchanged("unrecognized");
  }
}
