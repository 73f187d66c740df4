/**
 * String operations the ledger relies on: `String.prototype.trim`,
 * `Array.prototype.join`, and, as a reference for stating what a joined text
 * holds, splitting at a delimiter (`String.prototype.split` with a
 * one-character separator) and substring search.
 */
module Text {

  /** ECMAScript WhiteSpace and LineTerminator code points, which `trim` removes */
  predicate IsWhitespace(c: char)
  {
    || c == '\t' || c == '\n' || c == '\U{000B}' || c == '\U{000C}' || c == '\r'
    || c == ' ' || c == '\U{00A0}' || c == '\U{1680}'
    || ('\U{2000}' <= c <= '\U{200A}')
    || c == '\U{2028}' || c == '\U{2029}' || c == '\U{202F}' || c == '\U{205F}'
    || c == '\U{3000}' || c == '\U{FEFF}'
  }

  predicate AllWhitespace(s: string)
  {
    forall k :: 0 <= k < |s| ==> IsWhitespace(s[k])
  }

  /** Drops the leading whitespace: the result is a suffix of `s`, what was
      dropped is all whitespace, and the result does not start with whitespace. */
  function TrimStart(s: string): (r: string)
    ensures |r| <= |s| && r == s[|s| - |r|..]
    ensures AllWhitespace(s[..|s| - |r|])
    ensures r != [] ==> !IsWhitespace(r[0])
  {
    if s != [] && IsWhitespace(s[0]) then
      var r := TrimStart(s[1..]);
      assert s[..|s| - |r|] == [s[0]] + s[1..][..|s| - 1 - |r|];
      r
    else s
  }

  /** Drops the trailing whitespace: the result is a prefix of `s`, what was
      dropped is all whitespace, and the result does not end with whitespace. */
  function TrimEnd(s: string): (r: string)
    ensures |r| <= |s| && r == s[..|r|]
    ensures AllWhitespace(s[|r|..])
    ensures r != [] ==> !IsWhitespace(r[|r| - 1])
  {
    if s != [] && IsWhitespace(s[|s| - 1]) then TrimEnd(s[..|s| - 1]) else s
  }

  /** `s.trim()` */
  function Trim(s: string): string
  {
    TrimEnd(TrimStart(s))
  }

  /** The text that is left is empty exactly when the input was all whitespace. */
  lemma TrimEmptyIff(s: string)
    ensures Trim(s) == "" <==> AllWhitespace(s)
  {
    var t := TrimStart(s);
    if Trim(s) == "" {
      assert t[0..] == t;
      assert |t| == 0;
      assert s[..|s|] == s;
    }
  }

  lemma {:induction false} TrimStartSkips(w: string, t: string)
    requires AllWhitespace(w)
    requires t == [] || !IsWhitespace(t[0])
    ensures TrimStart(w + t) == t
  {
    if w == [] {
      assert w + t == t;
    } else {
      var s := w + t;
      assert s[0] == w[0] && IsWhitespace(w[0]);
      assert s[1..] == w[1..] + t;
      assert TrimStart(s) == TrimStart(s[1..]);
      assert AllWhitespace(w[1..]) by {
        forall k | 0 <= k < |w[1..]| ensures IsWhitespace(w[1..][k]) {
          assert w[1..][k] == w[k + 1];
        }
      }
      TrimStartSkips(w[1..], t);
    }
  }

  lemma {:induction false} TrimEndSkips(t: string, w: string)
    requires AllWhitespace(w)
    requires t == [] || !IsWhitespace(t[|t| - 1])
    ensures TrimEnd(t + w) == t
  {
    if w != [] {
      var w' := w[..|w| - 1];
      assert (t + w)[..|t + w| - 1] == t + w';
      assert AllWhitespace(w') by {
        forall k | 0 <= k < |w'| ensures IsWhitespace(w'[k]) {
          assert w'[k] == w[k];
        }
      }
      TrimEndSkips(t, w');
    } else {
      assert t + w == t;
    }
  }

  /** `trim` keeps exactly the text between the leading and the trailing whitespace. */
  lemma TrimKeepsCore(lead: string, core: string, trail: string)
    requires AllWhitespace(lead) && AllWhitespace(trail)
    requires core != [] ==> !IsWhitespace(core[0]) && !IsWhitespace(core[|core| - 1])
    ensures Trim(lead + core + trail) == core
  {
    if core == [] {
      assert AllWhitespace(lead + trail) by {
        forall k | 0 <= k < |lead + trail| ensures IsWhitespace((lead + trail)[k]) {
          if k < |lead| { assert (lead + trail)[k] == lead[k]; }
          else { assert (lead + trail)[k] == trail[k - |lead|]; }
        }
      }
      assert lead + core + trail == lead + trail;
      TrimEmptyIff(lead + trail);
    } else {
      assert lead + core + trail == lead + (core + trail);
      TrimStartSkips(lead, core + trail);
      TrimEndSkips(core, trail);
    }
  }

  /** Trimming twice is the same as trimming once. */
  lemma TrimIdempotent(s: string)
    ensures Trim(Trim(s)) == Trim(s)
  {
    var r := Trim(s);
    assert r == "" + r + "";
    TrimKeepsCore("", r, "");
  }

  /** `parts.join(sep)` */
  function Join(parts: seq<string>, sep: string): string
  {
    if |parts| == 0 then ""
    else if |parts| == 1 then parts[0]
    else parts[0] + sep + Join(parts[1..], sep)
  }

  /** `s.split(d)`: the pieces between occurrences of `d`, none of which holds `d` */
  function Split(s: string, d: char): (r: seq<string>)
    ensures |r| >= 1
    ensures forall k :: 0 <= k < |r| ==> d !in r[k]
  {
    if s == [] then [""]
    else
      var rest := Split(s[1..], d);
      if s[0] == d then [""] + rest else [[s[0]] + rest[0]] + rest[1..]
  }

  lemma {:induction false} SplitWithout(a: string, d: char)
    requires d !in a
    ensures Split(a, d) == [a]
  {
    if a != [] {
      SplitWithout(a[1..], d);
      assert [a[0]] + a[1..] == a;
    }
  }

  lemma {:induction false} SplitAtFirst(a: string, d: char, b: string)
    requires d !in a
    ensures Split(a + [d] + b, d) == [a] + Split(b, d)
  {
    var s := a + [d] + b;
    if a == [] {
      assert s[1..] == b;
    } else {
      assert s[1..] == a[1..] + [d] + b;
      SplitAtFirst(a[1..], d, b);
      assert [a[0]] + a[1..] == a;
    }
  }

  /** Splitting a joined text at its one-character separator gives the parts
      back, provided no part contains the separator. */
  lemma {:induction false} SplitJoin(parts: seq<string>, d: char)
    requires |parts| >= 1
    requires forall k :: 0 <= k < |parts| ==> d !in parts[k]
    ensures Split(Join(parts, [d]), d) == parts
  {
    if |parts| == 1 {
      SplitWithout(parts[0], d);
    } else {
      SplitJoin(parts[1..], d);
      SplitAtFirst(parts[0], d, Join(parts[1..], [d]));
      assert [parts[0]] + parts[1..] == parts;
    }
  }

  /** `t` occurs in `s` at offset `k` */
  predicate OccursAt(s: string, t: string, k: int)
  {
    0 <= k && k + |t| <= |s| && s[k..k + |t|] == t
  }

  /** `s.includes(t)` */
  predicate Contains(s: string, t: string)
  {
    exists k :: 0 <= k <= |s| && OccursAt(s, t, k)
  }

  /** Whatever is written between a prefix and a suffix occurs in the whole. */
  lemma ContainsMiddle(p: string, t: string, q: string)
    ensures Contains(p + t + q, t)
  {
    assert (p + t + q)[|p|..|p| + |t|] == t;
    assert OccursAt(p + t + q, t, |p|);
  }

  /** Whatever occurs in `s` also occurs in `w + s`. */
  lemma ContainsAfter(w: string, s: string, u: string)
    requires Contains(s, u)
    ensures Contains(w + s, u)
  {
    var k :| 0 <= k <= |s| && OccursAt(s, u, k);
    assert (w + s)[|w| + k..|w| + k + |u|] == s[k..k + |u|];
    assert OccursAt(w + s, u, |w| + k);
  }

  /** What occurs in a text that occurs in `s` also occurs in `s`. */
  lemma ContainsTransitive(s: string, t: string, u: string)
    requires Contains(s, t) && Contains(t, u)
    ensures Contains(s, u)
  {
    var i :| 0 <= i <= |s| && OccursAt(s, t, i);
    var j :| 0 <= j <= |t| && OccursAt(t, u, j);
    var inS, inT := s[i + j..i + j + |u|], t[j..j + |u|];
    assert inS == inT by {
      forall m | 0 <= m < |u| ensures inS[m] == inT[m] {
        assert inS[m] == s[i..i + |t|][j + m];
      }
    }
    assert OccursAt(s, u, i + j);
  }

  /** Every part occurs in the joined text. */
  lemma {:induction false} JoinContains(parts: seq<string>, sep: string, k: int)
    requires 0 <= k < |parts|
    ensures Contains(Join(parts, sep), parts[k])
  {
    if k == 0 {
      var j := Join(parts, sep);
      assert j[..|parts[0]|] == parts[0];
      assert OccursAt(j, parts[0], 0);
    } else {
      JoinContains(parts[1..], sep, k - 1);
      ContainsAfter(parts[0] + sep, Join(parts[1..], sep), parts[k]);
    }
  }
}
