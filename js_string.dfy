/** The part of JavaScript's string library the to-do controller relies on:
    `String.prototype.trim`, which the submit handler applies to the input
    field before deciding whether the new task is blank. */
module JsString {

  /** The characters `trim` strips: ECMAScript's WhiteSpace (tab, vertical tab,
      form feed, zero-width no-break space and the Unicode Zs category) and
      LineTerminator (line feed, carriage return, line and paragraph
      separators). */
  predicate IsWhitespace(c: char) {
    c == '\t' || c == '\n' || c == '\U{000B}' || c == '\U{000C}' || c == '\r'
    || c == ' ' || c == '\U{00A0}' || c == '\U{1680}'
    || ('\U{2000}' <= c <= '\U{200A}')
    || c == '\U{2028}' || c == '\U{2029}' || c == '\U{202F}' || c == '\U{205F}'
    || c == '\U{3000}' || c == '\U{FEFF}'
  }

  /** Every character of `s` is whitespace. */
  predicate AllWhitespace(s: string) {
    forall k :: 0 <= k < |s| ==> IsWhitespace(s[k])
  }

  /** `s` neither starts nor ends with whitespace (vacuously true of ""). */
  predicate NoOuterWhitespace(s: string) {
    s != [] ==> !IsWhitespace(s[0]) && !IsWhitespace(s[|s| - 1])
  }

  /** Drops the leading whitespace. */
  function TrimStart(s: string): (r: string)
    ensures |r| <= |s|
  {
    if s != [] && IsWhitespace(s[0]) then TrimStart(s[1..]) else s
  }

  /** Drops the trailing whitespace. */
  function TrimEnd(s: string): (r: string)
    ensures |r| <= |s|
  {
    if s != [] && IsWhitespace(s[|s| - 1]) then TrimEnd(s[..|s| - 1]) else s
  }

  /** `TrimStart` keeps a suffix of `s`. */
  lemma {:induction false} TrimStartSuffix(s: string)
    ensures TrimStart(s) == s[|s| - |TrimStart(s)|..]
  {
    if s != [] && IsWhitespace(s[0]) {
      TrimStartSuffix(s[1..]);
    }
  }

  /** All that `TrimStart` cuts off is whitespace, and what it keeps does not
      start with whitespace. */
  lemma {:induction false} TrimStartCuts(s: string)
    ensures AllWhitespace(s[..|s| - |TrimStart(s)|])
    ensures TrimStart(s) != [] ==> !IsWhitespace(TrimStart(s)[0])
  {
    if s != [] && IsWhitespace(s[0]) {
      TrimStartCuts(s[1..]);
      var n := |s| - |TrimStart(s)|;
      assert s[..n] == [s[0]] + s[1..][..n - 1];
    }
  }

  /** `TrimEnd` keeps a prefix of `s`. */
  lemma {:induction false} TrimEndPrefix(s: string)
    ensures TrimEnd(s) == s[..|TrimEnd(s)|]
  {
    if s != [] && IsWhitespace(s[|s| - 1]) {
      TrimEndPrefix(s[..|s| - 1]);
    }
  }

  /** All that `TrimEnd` cuts off is whitespace, and what it keeps does not end
      with whitespace. */
  lemma {:induction false} TrimEndCuts(s: string)
    ensures AllWhitespace(s[|TrimEnd(s)|..])
    ensures TrimEnd(s) != [] ==> !IsWhitespace(TrimEnd(s)[|TrimEnd(s)| - 1])
  {
    if s != [] && IsWhitespace(s[|s| - 1]) {
      TrimEndCuts(s[..|s| - 1]);
      var n := |TrimEnd(s)|;
      assert s[n..] == s[..|s| - 1][n..] + [s[|s| - 1]];
    }
  }

  /** `String.prototype.trim`. */
  function Trim(s: string): (r: string) {
    TrimEnd(TrimStart(s))
  }

  /** The leading whitespace that `Trim` removes. */
  function Leading(s: string): (r: string) {
    s[..|s| - |TrimStart(s)|]
  }

  /** The trailing whitespace that `Trim` removes. */
  function Trailing(s: string): (r: string) {
    TrimStart(s)[|Trim(s)|..]
  }

  /** `Trim` cuts `s` into whitespace, a core with no whitespace at either end,
      and whitespace. */
  lemma TrimSplits(s: string)
    ensures s == Leading(s) + Trim(s) + Trailing(s)
    ensures AllWhitespace(Leading(s)) && AllWhitespace(Trailing(s))
    ensures NoOuterWhitespace(Trim(s))
  {
    TrimConcat(s);
    TrimStartCuts(s);
    TrimEndCuts(TrimStart(s));
    TrimCore(s);
  }

  /** The three pieces `Trim` cuts `s` into make up `s`. */
  lemma TrimConcat(s: string)
    ensures s == Leading(s) + Trim(s) + Trailing(s)
  {
    var t := TrimStart(s);
    TrimStartSuffix(s);
    TrimEndPrefix(t);
    assert t == TrimEnd(t) + t[|TrimEnd(t)|..];
    assert s == s[..|s| - |t|] + t;
  }

  /** The trimmed value neither starts nor ends with whitespace. */
  lemma TrimCore(s: string)
    ensures NoOuterWhitespace(Trim(s))
  {
    var t := TrimStart(s);
    TrimStartCuts(s);
    TrimEndCuts(t);
    if Trim(s) != [] {
      TrimEndPrefix(t);
      assert Trim(s)[0] == t[0];
    }
  }

  /** Conversely, any such cut of `s` has `Trim(s)` as its core: `Trim` is the
      unique way of removing outer whitespace. */
  lemma {:induction false} TrimUnique(pre: string, core: string, post: string)
    requires AllWhitespace(pre) && AllWhitespace(post) && NoOuterWhitespace(core)
    ensures Trim(pre + core + post) == core
  {
    var s := pre + core + post;
    if core == [] {
      assert AllWhitespace(s) by {
        forall k | 0 <= k < |s| ensures IsWhitespace(s[k]) {
          if k < |pre| { assert s[k] == pre[k]; } else { assert s[k] == post[k - |pre|]; }
        }
      }
      TrimOfWhitespace(s);
    } else {
      TrimStartSkips(pre, core + post);
      assert s == pre + (core + post);
      TrimEndSkips(core, post);
    }
  }

  /** `TrimStart` removes a whitespace prefix in front of a non-whitespace
      character and nothing more. */
  lemma {:induction false} TrimStartSkips(pre: string, rest: string)
    requires AllWhitespace(pre) && rest != [] && !IsWhitespace(rest[0])
    ensures TrimStart(pre + rest) == rest
  {
    if pre != [] {
      assert (pre + rest)[1..] == pre[1..] + rest;
      TrimStartSkips(pre[1..], rest);
    }
  }

  /** `TrimEnd` removes a whitespace suffix behind a non-whitespace character
      and nothing more. */
  lemma {:induction false} TrimEndSkips(rest: string, post: string)
    requires AllWhitespace(post) && rest != [] && !IsWhitespace(rest[|rest| - 1])
    ensures TrimEnd(rest + post) == rest
  {
    if post != [] {
      var s := rest + post;
      assert s[..|s| - 1] == rest + post[..|post| - 1];
      TrimEndSkips(rest, post[..|post| - 1]);
    }
  }

  /** A string made of whitespace only trims to "". */
  lemma TrimOfWhitespace(s: string)
    requires AllWhitespace(s)
    ensures Trim(s) == []
  {
    TrimStartSuffix(s);
    TrimStartCuts(s);
  }

  /** The submit handler's blank test: the trimmed input is empty exactly when
      every character of the input is whitespace. */
  lemma TrimBlankIff(s: string)
    ensures Trim(s) == [] <==> AllWhitespace(s)
  {
    if AllWhitespace(s) {
      TrimOfWhitespace(s);
    }
    if Trim(s) == [] {
      TrimSplits(s);
      TrimStartCuts(s);
      TrimEndCuts(TrimStart(s));
      assert s == Leading(s) + Trailing(s);
      assert Trailing(s) == [];
      assert s == Leading(s);
    }
  }

  /** Trimming an already trimmed string changes nothing. */
  lemma TrimIdempotent(s: string)
    ensures Trim(Trim(s)) == Trim(s)
  {
    TrimSplits(s);
    var t := Trim(s);
    assert t == [] + t + [];
    TrimUnique([], t, []);
  }
}
