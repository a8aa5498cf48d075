/**
 * The few Python string and path operations the tokenizer relies on:
 * `str.strip()`, `str.split(" ")` and `posixpath.join(a, b)`.
 */
module PyText {

  /** `c.isspace()`: the characters `str.strip()` removes when given no argument. */
  predicate IsSpace(c: char) {
    || ('\t' <= c <= '\r')              // tab, line feed, vertical tab, form feed, carriage return
    || ('\U{1C}' <= c <= '\U{1F}')      // file, group, record and unit separators
    || c == ' ' || c == '\U{85}' || c == '\U{A0}' || c == '\U{1680}'
    || ('\U{2000}' <= c <= '\U{200A}')
    || c == '\U{2028}' || c == '\U{2029}' || c == '\U{202F}' || c == '\U{205F}' || c == '\U{3000}'
  }

  predicate AllSpace(s: string) {
    forall i :: 0 <= i < |s| ==> IsSpace(s[i])
  }

  /** `s.lstrip()`: `s` without its leading whitespace. */
  function TrimStart(s: string): string {
    if |s| > 0 && IsSpace(s[0]) then TrimStart(s[1..]) else s
  }

  /** `s.rstrip()`: `s` without its trailing whitespace. */
  function TrimEnd(s: string): string {
    if |s| > 0 && IsSpace(s[|s| - 1]) then TrimEnd(s[..|s| - 1]) else s
  }

  /** `s.strip()`: `s` without leading and trailing whitespace. */
  function Strip(s: string): string {
    TrimEnd(TrimStart(s))
  }

  /** `lstrip` keeps a suffix, drops only whitespace, and leaves no whitespace in front. */
  lemma {:induction false} TrimStartSpec(s: string)
    ensures var r := TrimStart(s);
            && |r| <= |s| && r == s[|s| - |r|..]
            && AllSpace(s[..|s| - |r|])
            && (r == [] || !IsSpace(r[0]))
  {
    if |s| > 0 && IsSpace(s[0]) {
      TrimStartSpec(s[1..]);
      var r := TrimStart(s);
      assert s[..|s| - |r|] == [s[0]] + s[1..][..|s| - 1 - |r|];
    }
  }

  /** `rstrip` keeps a prefix, drops only whitespace, and leaves no whitespace at the end. */
  lemma {:induction false} TrimEndSpec(s: string)
    ensures var r := TrimEnd(s);
            && |r| <= |s| && r == s[..|r|]
            && AllSpace(s[|r|..])
            && (r == [] || !IsSpace(r[|r| - 1]))
  {
    if |s| > 0 && IsSpace(s[|s| - 1]) {
      var t := s[..|s| - 1];
      TrimEndSpec(t);
      var r := TrimEnd(s);
      assert s[|r|..] == t[|r|..] + [s[|s| - 1]];
    }
  }

  /**
   * What `strip` keeps is one contiguous slice of `s` that neither starts nor ends
   * with whitespace, and what it drops on either side is whitespace only.
   */
  lemma StripIsTrimmedSlice(s: string)
    ensures var r := Strip(s);
            r == [] || (!IsSpace(r[0]) && !IsSpace(r[|r| - 1]))
    ensures exists i, j :: 0 <= i <= j <= |s| && Strip(s) == s[i..j] && AllSpace(s[..i]) && AllSpace(s[j..])
  {
    var t := TrimStart(s);
    var r := TrimEnd(t);
    TrimStartSpec(s);
    TrimEndSpec(t);
    var i := |s| - |t|;
    var j := i + |r|;
    assert r == s[i..j] by {
      assert t == s[i..];
    }
    assert AllSpace(s[j..]) by {
      assert s[j..] == t[|r|..];
    }
    assert r != [] ==> r[0] == t[0];
  }

  /** Stripping twice removes nothing more than stripping once. */
  lemma StripIdempotent(s: string)
    ensures Strip(Strip(s)) == Strip(s)
  {
    var r := Strip(s);
    StripIsTrimmedSlice(s);
    assert TrimStart(r) == r;
    assert TrimEnd(r) == r;
  }

  /** A text made only of whitespace strips to the empty string. */
  lemma StripAllSpace(s: string)
    requires AllSpace(s)
    ensures Strip(s) == ""
  {
    TrimStartSpec(s);
  }

  /** `s.split(" ")`: the pieces of `s` between single spaces (always at least one). */
  function Split(s: string): (r: seq<string>)
    ensures |r| >= 1
  {
    if |s| == 0 then [""]
    else
      var rest := Split(s[1..]);
      if s[0] == ' ' then [""] + rest else [[s[0]] + rest[0]] + rest[1..]
  }

  /** A text without spaces is a single piece. */
  lemma {:induction false} SplitNoSpace(s: string)
    requires ' ' !in s
    ensures Split(s) == [s]
  {
    if |s| > 0 {
      assert s[0] != ' ' by { assert s[0] in s; }
      assert ' ' !in s[1..] by {
        forall k | 0 <= k < |s[1..]| ensures s[1..][k] != ' ' { assert s[1..][k] == s[k + 1]; }
      }
      SplitNoSpace(s[1..]);
      assert [s[0]] + s[1..] == s;
    }
  }

  /** Joining two texts with a space joins their pieces. */
  lemma {:induction false} SplitJoin(a: string, b: string)
    ensures Split(a + " " + b) == Split(a) + Split(b)
  {
    var s := a + " " + b;
    if |a| == 0 {
      assert s[1..] == b;
    } else {
      assert s[0] == a[0];
      assert s[1..] == a[1..] + " " + b;
      SplitJoin(a[1..], b);
    }
  }

  /** `" ".join(pieces)`. */
  function JoinSpace(pieces: seq<string>): string {
    if |pieces| <= 1 then (if |pieces| == 0 then "" else pieces[0])
    else pieces[0] + " " + JoinSpace(pieces[1..])
  }

  /** Joining two non-empty lists of pieces puts one space between their joins. */
  lemma {:induction false} JoinSpaceAppend(ps: seq<string>, qs: seq<string>)
    requires |ps| >= 1 && |qs| >= 1
    ensures JoinSpace(ps + qs) == JoinSpace(ps) + " " + JoinSpace(qs)
  {
    if |ps| > 1 {
      assert (ps + qs)[1..] == ps[1..] + qs;
      JoinSpaceAppend(ps[1..], qs);
    }
  }

  /** Splitting on spaces undoes joining with spaces, as long as no piece holds a space. */
  lemma {:induction false} SplitJoinSpace(pieces: seq<string>)
    requires |pieces| >= 1 && forall k :: 0 <= k < |pieces| ==> ' ' !in pieces[k]
    ensures Split(JoinSpace(pieces)) == pieces
  {
    SplitNoSpace(pieces[0]);
    if |pieces| > 1 {
      SplitJoinSpace(pieces[1..]);
      SplitJoin(pieces[0], JoinSpace(pieces[1..]));
    }
  }

  /** `posixpath.join(a, b)` for two components. */
  function PathJoin(a: string, b: string): (r: string)
    ensures |b| > 0 && b[0] == '/' ==> r == b
    ensures |r| >= |b| && r[|r| - |b|..] == b
    ensures !(|b| > 0 && b[0] == '/') && (|a| == 0 || a[|a| - 1] == '/') ==> r == a + b
    ensures !(|b| > 0 && b[0] == '/') && |a| > 0 && a[|a| - 1] != '/' ==> r == a + "/" + b
  {
    if |b| > 0 && b[0] == '/' then b
    else if |a| == 0 || a[|a| - 1] == '/' then a + b
    else a + "/" + b
  }
}
