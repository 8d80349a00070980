/**
 * The string operations of Python that the extractors, formatters and command-line
 * dispatchers rely on: `str.replace`, `str.split`, `str.join` and `str.strip`.
 */
module Text {

  /** True when `t` begins with `p`. */
  predicate StartsWith(t: string, p: string) {
    |p| <= |t| && t[..|p|] == p
  }

  /** True when `p` occurs somewhere in `t` (at an index `i` with `i + |p| <= |t|`). */
  predicate Occurs(p: string, t: string)
    decreases |t|
  {
    StartsWith(t, p) || (t != [] && Occurs(p, t[1..]))
  }

  /** No character of `a` appears in `b`. */
  predicate NoCommonChar(a: string, b: string) {
    forall c :: c in a ==> c !in b
  }

  // ---------------------------------------------------------------------------
  // str.replace
  // ---------------------------------------------------------------------------

  /** A rendered number shares no character with a text that has no digit and no `-`. */
  lemma DigitsForeign(q: string, digits: string)
    requires forall k :: 0 <= k < |digits| ==> ('0' <= digits[k] <= '9') || digits[k] == '-'
    requires forall k :: 0 <= k < |q| ==> !('0' <= q[k] <= '9') && q[k] != '-'
    ensures NoCommonChar(q, digits)
  {
    forall c | c in q ensures c !in digits {
      var i :| 0 <= i < |q| && q[i] == c;
    }
  }

  /**
   * Python's `s.replace(pat, rep)` for a non-empty `pat`: the string is scanned from
   * the left and every non-overlapping occurrence of `pat` is replaced by `rep`.
   */
  function Replace(s: string, pat: string, rep: string): string
    requires pat != []
    decreases |s|
  {
    if s == [] then []
    else if StartsWith(s, pat) then rep + Replace(s[|pat|..], pat, rep)
    else [s[0]] + Replace(s[1..], pat, rep)
  }

  /** A string in which `pat` does not occur is returned unchanged. */
  lemma {:induction false} ReplaceAbsent(s: string, pat: string, rep: string)
    requires pat != []
    requires !Occurs(pat, s)
    ensures Replace(s, pat, rep) == s
    decreases |s|
  {
    if s != [] {
      ReplaceAbsent(s[1..], pat, rep);
      assert [s[0]] + s[1..] == s;
    }
  }

  /** An occurrence in a suffix is an occurrence in the whole string. */
  lemma {:induction false} OccursInSuffix(q: string, s: string, k: nat)
    requires k <= |s|
    requires Occurs(q, s[k..])
    ensures Occurs(q, s)
    decreases k
  {
    if k > 0 {
      assert s[1..][k - 1..] == s[k..];
      OccursInSuffix(q, s[1..], k - 1);
    }
  }

  /**
   * When the first character of `q` is not in `a`, an occurrence of `q` in `a + b`
   * lies entirely inside `b`.
   */
  lemma {:induction false} OccursPastForeign(q: string, a: string, b: string)
    requires q != [] && q[0] !in a
    requires Occurs(q, a + b)
    ensures Occurs(q, b)
    decreases |a|
  {
    if a != [] {
      assert (a + b)[0] == a[0];
      assert !StartsWith(a + b, q);
      assert (a + b)[1..] == a[1..] + b;
      OccursPastForeign(q, a[1..], b);
    } else {
      assert a + b == b;
    }
  }

  /**
   * Where `pat` starts the input, the output starts with the replacement, so it does
   * not start with a string whose first character is foreign to the replacement.
   */
  lemma ReplacementLeads(s: string, pat: string, rep: string, u: string)
    requires pat != []
    ensures StartsWith(s, pat) && rep != [] && u != [] && u[0] !in rep
      ==> !StartsWith(Replace(s, pat, rep), u)
  {
    if StartsWith(s, pat) && rep != [] && u != [] && u[0] !in rep {
      var r := Replace(s, pat, rep);
      assert r[0] == rep[0];
    }
  }

  /**
   * A prefix `u` that shares no character with a non-empty replacement was not
   * produced by a replacement: it was already a prefix of the input.
   */
  lemma {:induction false} ReplacedPrefix(s: string, pat: string, rep: string, u: string)
    requires pat != [] && rep != [] && u != []
    requires NoCommonChar(u, rep)
    requires StartsWith(Replace(s, pat, rep), u)
    ensures StartsWith(s, u)
    decreases |s|
  {
    var r := Replace(s, pat, rep);
    if s == [] {
      assert false;
    } else if StartsWith(s, pat) {
      ReplacementLeads(s, pat, rep, u);
      assert false;
    } else {
      var rest := Replace(s[1..], pat, rep);
      assert r == [s[0]] + rest;
      assert u[0] == s[0];
      if |u| > 1 {
        assert rest[..|u| - 1] == r[1..|u|] == u[1..];
        assert NoCommonChar(u[1..], rep) by {
          forall c | c in u[1..] ensures c !in rep { assert c in u; }
        }
        ReplacedPrefix(s[1..], pat, rep, u[1..]);
        assert s[..|u|] == [s[0]] + s[1..][..|u| - 1];
      }
    }
  }

  /**
   * After `Replace(s, pat, rep)` with a non-empty replacement that shares no character
   * with `pat`, no occurrence of `pat` remains: every occurrence has been substituted.
   */
  lemma {:induction false} ReplaceRemovesAll(s: string, pat: string, rep: string)
    requires pat != [] && rep != []
    requires NoCommonChar(pat, rep)
    ensures !Occurs(pat, Replace(s, pat, rep))
    decreases |s|
  {
    var r := Replace(s, pat, rep);
    if s == [] {
      assert r == [];
    } else if StartsWith(s, pat) {
      var rest := Replace(s[|pat|..], pat, rep);
      ReplaceRemovesAll(s[|pat|..], pat, rep);
      if Occurs(pat, r) {
        assert r == rep + rest;
        OccursPastForeign(pat, rep, rest);
      }
    } else {
      var rest := Replace(s[1..], pat, rep);
      ReplaceRemovesAll(s[1..], pat, rep);
      assert r == [s[0]] + rest;
      assert r[1..] == rest;
      if StartsWith(r, pat) {
        ReplacedPrefix(s, pat, rep, pat);
      }
    }
  }

  /**
   * A later replacement with a non-empty replacement text sharing no character with
   * `q` cannot bring back `q`: absence of `q` is preserved.
   */
  lemma {:induction false} ReplaceKeepsAbsent(s: string, pat: string, rep: string, q: string)
    requires pat != [] && rep != [] && q != []
    requires NoCommonChar(q, rep)
    requires !Occurs(q, s)
    ensures !Occurs(q, Replace(s, pat, rep))
    decreases |s|
  {
    var r := Replace(s, pat, rep);
    if s == [] {
      assert r == [];
    } else if StartsWith(s, pat) {
      var rest := Replace(s[|pat|..], pat, rep);
      if Occurs(q, s[|pat|..]) {
        OccursInSuffix(q, s, |pat|);
      }
      ReplaceKeepsAbsent(s[|pat|..], pat, rep, q);
      if Occurs(q, r) {
        assert r == rep + rest;
        OccursPastForeign(q, rep, rest);
      }
    } else {
      var rest := Replace(s[1..], pat, rep);
      ReplaceKeepsAbsent(s[1..], pat, rep, q);
      assert r == [s[0]] + rest;
      assert r[1..] == rest;
      if StartsWith(r, q) {
        ReplacedPrefix(s, pat, rep, q);
      }
    }
  }

  // ---------------------------------------------------------------------------
  // str.split and str.join with a one-character separator
  // ---------------------------------------------------------------------------

  /** Number of occurrences of `c` in `s`. */
  function CountChar(s: string, c: char): nat
    decreases |s|
  {
    if s == [] then 0 else (if s[0] == c then 1 else 0) + CountChar(s[1..], c)
  }

  /**
   * Python's `s.split(sep)` for a one-character separator: the pieces between
   * separators, empty pieces included; `"".split(",")` is `[""]`.
   */
  function Split(s: string, sep: char): (r: seq<string>)
    ensures |r| == CountChar(s, sep) + 1
    ensures forall i :: 0 <= i < |r| ==> sep !in r[i]
    decreases |s|
  {
    if s == [] then [""]
    else
      var rest := Split(s[1..], sep);
      if s[0] == sep then [""] + rest
      else [[s[0]] + rest[0]] + rest[1..]
  }

  /** Python's `sep.join(xs)`; the empty list gives the empty string. */
  function Join(xs: seq<string>, sep: char): string
    decreases |xs|
  {
    if xs == [] then ""
    else if |xs| == 1 then xs[0]
    else xs[0] + [sep] + Join(xs[1..], sep)
  }

  /** Joining the pieces of a split gives back the original string. */
  lemma {:induction false} JoinSplit(s: string, sep: char)
    ensures Join(Split(s, sep), sep) == s
    decreases |s|
  {
    if s != [] {
      var rest := Split(s[1..], sep);
      JoinSplit(s[1..], sep);
      if s[0] != sep {
        if |rest| > 1 {
          assert Join(rest, sep) == rest[0] + [sep] + Join(rest[1..], sep);
          assert [[s[0]] + rest[0]] + rest[1..] == [[s[0]] + rest[0]] + rest[1..];
          assert ([[s[0]] + rest[0]] + rest[1..])[1..] == rest[1..];
        }
        assert [s[0]] + s[1..] == s;
      } else {
        assert ([""] + rest)[1..] == rest;
        assert [s[0]] + s[1..] == s;
      }
    }
  }

  /** A string without the separator splits into itself. */
  lemma {:induction false} SplitWithoutSeparator(s: string, sep: char)
    requires sep !in s
    ensures Split(s, sep) == [s]
    decreases |s|
  {
    if s != [] {
      assert sep !in s[1..];
      SplitWithoutSeparator(s[1..], sep);
      assert [s[0]] + s[1..] == s;
    }
  }

  /** Splitting `a + [sep] + t` with no separator in `a` peels off `a` as the first piece. */
  lemma {:induction false} SplitAfterPiece(a: string, t: string, sep: char)
    requires sep !in a
    ensures Split(a + [sep] + t, sep) == [a] + Split(t, sep)
    decreases |a|
  {
    var s := a + [sep] + t;
    if a == [] {
      assert s == [sep] + t;
      assert s[1..] == t;
    } else {
      assert s[1..] == a[1..] + [sep] + t;
      assert sep !in a[1..];
      SplitAfterPiece(a[1..], t, sep);
      assert [a[0]] + a[1..] == a;
    }
  }

  /**
   * Splitting a join gives back the list, provided the list is not empty and no
   * element contains the separator.
   */
  lemma {:induction false} SplitJoin(xs: seq<string>, sep: char)
    requires |xs| >= 1
    requires forall i :: 0 <= i < |xs| ==> sep !in xs[i]
    ensures Split(Join(xs, sep), sep) == xs
    decreases |xs|
  {
    if |xs| == 1 {
      SplitWithoutSeparator(xs[0], sep);
    } else {
      SplitJoin(xs[1..], sep);
      SplitAfterPiece(xs[0], Join(xs[1..], sep), sep);
      assert [xs[0]] + xs[1..] == xs;
    }
  }

  // ---------------------------------------------------------------------------
  // str.strip
  // ---------------------------------------------------------------------------

  /** Python's `str.isspace` on one character. */
  predicate IsSpace(c: char) {
    || ('\U{0009}' <= c <= '\U{000D}')
    || ('\U{001C}' <= c <= '\U{0020}')
    || c == '\U{0085}' || c == '\U{00A0}' || c == '\U{1680}'
    || ('\U{2000}' <= c <= '\U{200A}')
    || c == '\U{2028}' || c == '\U{2029}' || c == '\U{202F}' || c == '\U{205F}'
    || c == '\U{3000}'
  }

  /** The number of whitespace characters `s` starts with. */
  function LeadingSpace(s: string): (n: nat)
    ensures n <= |s|
    ensures forall k :: 0 <= k < n ==> IsSpace(s[k])
    ensures n < |s| ==> !IsSpace(s[n])
    decreases |s|
  {
    if s != [] && IsSpace(s[0]) then 1 + LeadingSpace(s[1..]) else 0
  }

  /** The number of whitespace characters `s` ends with. */
  function TrailingSpace(s: string): (n: nat)
    ensures n <= |s|
    ensures forall k :: |s| - n <= k < |s| ==> IsSpace(s[k])
    ensures n < |s| ==> !IsSpace(s[|s| - 1 - n])
    decreases |s|
  {
    if s != [] && IsSpace(s[|s| - 1]) then 1 + TrailingSpace(s[..|s| - 1]) else 0
  }

  /**
   * `s.strip()`: `s` without its leading and trailing whitespace. The result starts
   * right after the leading whitespace and is followed only by whitespace; it neither
   * starts nor ends with whitespace; it is empty exactly when `s` is all whitespace.
   */
  function Strip(s: string): (r: string)
    ensures LeadingSpace(s) + |r| <= |s| && r == s[LeadingSpace(s)..LeadingSpace(s) + |r|]
    ensures forall k :: LeadingSpace(s) + |r| <= k < |s| ==> IsSpace(s[k])
    ensures r == [] || (!IsSpace(r[0]) && !IsSpace(r[|r| - 1]))
    ensures r == [] <==> forall k :: 0 <= k < |s| ==> IsSpace(s[k])
  {
    var i := LeadingSpace(s);
    if i == |s| then []
    else
      var j := |s| - TrailingSpace(s);
      assert i < j by {
        assert !IsSpace(s[i]);
      }
      s[i..j]
  }

  /** A string that neither starts nor ends with whitespace is its own strip. */
  lemma StripClean(s: string)
    requires s == [] || (!IsSpace(s[0]) && !IsSpace(s[|s| - 1]))
    ensures Strip(s) == s
  {
  }

  /**
   * The variable-list parser of both command-line dispatchers:
   * `list(map(lambda name: name.strip(), text.split(",")))`.
   */
  function SplitAndStrip(text: string): (names: seq<string>)
    ensures |names| == CountChar(text, ',') + 1
  {
    var pieces := Split(text, ',');
    seq(|pieces|, i requires 0 <= i < |pieces| => Strip(pieces[i]))
  }

  /** Each parsed name is the stripped piece at the same position; order is kept. */
  lemma SplitAndStripPieces(text: string, i: nat)
    requires i < |Split(text, ',')|
    ensures i < |SplitAndStrip(text)| && SplitAndStrip(text)[i] == Strip(Split(text, ',')[i])
  {
  }

  /** The default `""` of `--variables` gives one empty variable name. */
  lemma SplitAndStripEmpty()
    ensures SplitAndStrip("") == [""]
  {
  }

  /**
   * A comma-joined list of names that contain no comma and carry no surrounding
   * whitespace parses back into the same list.
   */
  lemma SplitAndStripJoin(xs: seq<string>)
    requires |xs| >= 1
    requires forall i :: 0 <= i < |xs| ==> ',' !in xs[i]
    requires forall i :: 0 <= i < |xs| ==> xs[i] == [] || (!IsSpace(xs[i][0]) && !IsSpace(xs[i][|xs[i]| - 1]))
    ensures SplitAndStrip(Join(xs, ',')) == xs
  {
    SplitJoin(xs, ',');
    forall i | 0 <= i < |xs| ensures Strip(xs[i]) == xs[i] { StripClean(xs[i]); }
  }
}
