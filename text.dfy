/**
 * The parts of Python's string library that the chatbot relies on:
 * `str.strip()`, `str.lower()`, `sep.join(parts)`, accumulation with `+=`,
 * and the leftmost-longest search for the regular expression `".*"`.
 */
module Text {

  datatype Option<T> = None | Some(value: T)

  /** Python's `str.isspace()` for one code point. */
  predicate IsSpace(c: char) {
    || c == ' '
    || '\t' <= c <= '\r'
    || '\U{1C}' <= c <= '\U{1F}'
    || c == '\U{85}' || c == '\U{A0}' || c == '\U{1680}'
    || '\U{2000}' <= c <= '\U{200A}'
    || c == '\U{2028}' || c == '\U{2029}' || c == '\U{202F}' || c == '\U{205F}' || c == '\U{3000}'
  }

  predicate AllSpace(s: string) {
    forall k :: 0 <= k < |s| ==> IsSpace(s[k])
  }

  /** Neither end of `s` is whitespace: what `strip()` leaves behind. */
  predicate Unpadded(s: string) {
    s == [] || (!IsSpace(s[0]) && !IsSpace(s[|s| - 1]))
  }

  lemma AllSpaceConcat(a: string, b: string)
    requires AllSpace(a) && AllSpace(b)
    ensures AllSpace(a + b) && AllSpace(b + a)
  {
  }

  /** `s.lstrip()`: drops the leading whitespace. */
  function TrimStart(s: string): (r: string)
    ensures |r| <= |s| && r == s[|s| - |r|..]
    ensures AllSpace(s[..|s| - |r|])
    ensures r == [] || !IsSpace(r[0])
  {
    if s != [] && IsSpace(s[0]) then
      var r := TrimStart(s[1..]);
      assert s[..|s| - |r|] == [s[0]] + s[1..][..|s| - 1 - |r|];
      AllSpaceConcat([s[0]], s[1..][..|s| - 1 - |r|]);
      r
    else s
  }

  /** `s.rstrip()`: drops the trailing whitespace. */
  function TrimEnd(s: string): (r: string)
    ensures |r| <= |s| && r == s[..|r|]
    ensures AllSpace(s[|r|..])
    ensures r == [] || !IsSpace(r[|r| - 1])
  {
    if s != [] && IsSpace(s[|s| - 1]) then
      var r := TrimEnd(s[..|s| - 1]);
      assert s[|r|..] == s[..|s| - 1][|r|..] + [s[|s| - 1]];
      AllSpaceConcat(s[..|s| - 1][|r|..], [s[|s| - 1]]);
      r
    else s
  }

  /** `s.strip()`. */
  function Strip(s: string): (r: string)
    ensures |r| <= |s| && Unpadded(r)
  {
    StripUnpadded(s);
    TrimEnd(TrimStart(s))
  }

  /** `s.strip()` is empty exactly when `s` is all whitespace. */
  lemma StripBlank(s: string)
    ensures Strip(s) == [] <==> AllSpace(s)
  {
    StripEmptyOnlyIfBlank(s);
    StripEmptyIfBlank(s);
  }

  lemma StripUnpadded(s: string)
    ensures Unpadded(TrimEnd(TrimStart(s)))
  {
    var t := TrimStart(s);
    var r := TrimEnd(t);
    if r != [] {
      assert r[0] == t[0];
    }
  }

  lemma StripEmptyOnlyIfBlank(s: string)
    ensures TrimEnd(TrimStart(s)) == [] ==> AllSpace(s)
  {
    var t := TrimStart(s);
    if TrimEnd(t) == [] {
      TrimStartSplit(s);
      TrimEndSplit(t);
      AllSpaceConcat(s[..|s| - |t|], t);
    }
  }

  lemma StripEmptyIfBlank(s: string)
    ensures AllSpace(s) ==> TrimEnd(TrimStart(s)) == []
  {
    var t := TrimStart(s);
    if t != [] {
      assert t[0] == s[|s| - |t|];
      assert !AllSpace(s);
    }
  }

  lemma {:induction false} TrimStartSkips(w: string, t: string)
    requires AllSpace(w) && (t == [] || !IsSpace(t[0]))
    ensures TrimStart(w + t) == t
  {
    if w != [] {
      assert (w + t)[1..] == w[1..] + t;
      TrimStartSkips(w[1..], t);
    }
  }

  lemma {:induction false} TrimEndSkips(t: string, w: string)
    requires AllSpace(w) && (t == [] || !IsSpace(t[|t| - 1]))
    ensures TrimEnd(t + w) == t
  {
    if w != [] {
      assert (t + w)[..|t + w| - 1] == t + w[..|w| - 1];
      TrimEndSkips(t, w[..|w| - 1]);
    }
  }

  /** `strip()` removes exactly surrounding whitespace: it returns the unpadded middle. */
  lemma StripOfPadded(w1: string, m: string, w2: string)
    requires AllSpace(w1) && AllSpace(w2) && Unpadded(m)
    ensures Strip(w1 + m + w2) == m
  {
    if m == [] {
      assert w1 + m + w2 == w1 + w2 + [];
      TrimStartSkips(w1 + w2, []);
    } else {
      assert w1 + m + w2 == w1 + (m + w2);
      TrimStartSkips(w1, m + w2);
      TrimEndSkips(m, w2);
    }
  }

  lemma TrimStartSplit(s: string)
    ensures s == s[..|s| - |TrimStart(s)|] + TrimStart(s)
  {
  }

  lemma TrimEndSplit(t: string)
    ensures t == TrimEnd(t) + t[|TrimEnd(t)|..]
  {
  }

  lemma Regroup(s: string, w1: string, t: string, r: string, w2: string)
    requires s == w1 + t && t == r + w2
    ensures s == w1 + r + w2
  {
  }

  lemma Surround(s: string, pre: string, w1: string, m: string, w2: string, post: string)
    requires s == w1 + m + w2
    ensures pre + s + post == (pre + w1) + m + (w2 + post)
  {
  }

  predicate PrefixOf(a: string, s: string) {
    |a| <= |s| && s[..|a|] == a
  }

  predicate SuffixOf(a: string, s: string) {
    |a| <= |s| && s[|s| - |a|..] == a
  }

  /** Every string is its stripped text surrounded by whitespace. */
  lemma StripSplit(s: string) returns (w1: string, w2: string)
    ensures s == w1 + Strip(s) + w2
    ensures AllSpace(w1) && AllSpace(w2)
  {
    var t := TrimStart(s);
    var r := TrimEnd(t);
    TrimStartSplit(s);
    TrimEndSplit(t);
    w1 := s[..|s| - |t|];
    w2 := t[|r|..];
    Regroup(s, w1, t, r, w2);
    assert Strip(s) == r;
  }

  lemma StripOfUnpadded(m: string)
    requires Unpadded(m)
    ensures Strip(m) == m
  {
    assert [] + m == m && m + [] == m;
    TrimStartSkips([], m);
    TrimEndSkips(m, []);
  }

  lemma StripIdempotent(s: string)
    ensures Strip(Strip(s)) == Strip(s)
  {
    StripOfUnpadded(Strip(s));
  }

  /** ASCII lower-casing of one character (see README for non-ASCII letters). */
  function LowerChar(c: char): char {
    if 'A' <= c <= 'Z' then (c as int + 32) as char else c
  }

  /** `s.lower()`. */
  function Lower(s: string): (r: string)
    ensures |r| == |s|
  {
    seq(|s|, k requires 0 <= k < |s| => LowerChar(s[k]))
  }

  lemma LowerConcat(a: string, b: string, c: string)
    ensures Lower(a + b + c) == Lower(a) + Lower(b) + Lower(c)
  {
    assert forall k :: 0 <= k < |a + b + c| ==> Lower(a + b + c)[k] == (Lower(a) + Lower(b) + Lower(c))[k];
  }

  lemma LowerKeepsSpace(w: string)
    requires AllSpace(w)
    ensures AllSpace(Lower(w))
  {
  }

  lemma LowerKeepsUnpadded(m: string)
    requires Unpadded(m)
    ensures Unpadded(Lower(m))
  {
  }

  /** Lower-casing keeps whitespace and non-whitespace apart, so it commutes with `strip()`. */
  lemma StripLowerCommute(s: string)
    ensures Strip(Lower(s)) == Lower(Strip(s))
  {
    var w1, w2 := StripSplit(s);
    var m := Strip(s);
    LowerConcat(w1, m, w2);
    LowerKeepsSpace(w1);
    LowerKeepsSpace(w2);
    LowerKeepsUnpadded(m);
    StripOfPadded(Lower(w1), Lower(m), Lower(w2));
  }

  lemma LowerIdempotent(s: string)
    ensures Lower(Lower(s)) == Lower(s)
  {
  }

  /** `sep.join(parts)`. */
  function Join(sep: string, parts: seq<string>): (r: string)
    ensures |parts| == 1 ==> r == parts[0]
    ensures |parts| == 0 ==> r == ""
  {
    if |parts| == 0 then ""
    else if |parts| == 1 then parts[0]
    else parts[0] + sep + Join(sep, parts[1..])
  }

  /** Joining one more part appends the separator and that part. */
  lemma {:induction false} JoinAppend(sep: string, parts: seq<string>, x: string)
    requires |parts| > 0
    ensures Join(sep, parts + [x]) == Join(sep, parts) + sep + x
  {
    if |parts| > 1 {
      assert (parts + [x])[1..] == parts[1..] + [x];
      JoinAppend(sep, parts[1..], x);
    }
  }

  /** The text that `text += chunk` over `chunks` builds, starting from `''`. */
  function Concat(chunks: seq<string>): string
  {
    if chunks == [] then "" else chunks[0] + Concat(chunks[1..])
  }

  lemma {:induction false} ConcatAppend(chunks: seq<string>, x: string)
    ensures Concat(chunks + [x]) == Concat(chunks) + x
  {
    if chunks != [] {
      assert (chunks + [x])[1..] == chunks[1..] + [x];
      ConcatAppend(chunks[1..], x);
    }
  }

  /** Accumulating chunks with `+=` gives the same text as `"".join(chunks)`. */
  lemma {:induction false} ConcatIsEmptyJoin(chunks: seq<string>)
    ensures Concat(chunks) == Join("", chunks)
  {
    if |chunks| > 1 {
      ConcatIsEmptyJoin(chunks[1..]);
    } else if |chunks| == 1 {
      assert Concat(chunks[1..]) == "";
    }
  }

  // ---------------------------------------------------------------------------
  // re.search('".*"', s): `.` matches any character but a newline and `*` is
  // greedy, so the match starts at the first quote that has a later quote on
  // its line and ends at the last quote of that line.
  // ---------------------------------------------------------------------------

  /** The regular expression `".*"` matches `s[i..j+1]`. */
  predicate IsQuoteMatch(s: string, i: int, j: int) {
    && 0 <= i < j < |s|
    && s[i] == '"' && s[j] == '"'
    && forall k :: i < k < j ==> s[k] != '\n'
  }

  /** `s[i..j+1]` is the match `re.search` reports: leftmost, then longest. */
  ghost predicate IsLeftmostLongest(s: string, i: int, j: int) {
    && IsQuoteMatch(s, i, j)
    && forall i', j' :: IsQuoteMatch(s, i', j') ==> i < i' || (i == i' && j' <= j)
  }

  /** The index of the first newline at or after `k`, or `|s|`. */
  function LineEnd(s: string, k: nat): (e: nat)
    requires k <= |s|
    ensures k <= e <= |s|
    ensures e < |s| ==> s[e] == '\n'
    ensures forall m :: k <= m < e ==> s[m] != '\n'
    decreases |s| - k
  {
    if k == |s| || s[k] == '\n' then k else LineEnd(s, k + 1)
  }

  /** The last quote between `k` and the end of its line. */
  function LastQuote(s: string, k: nat): (r: Option<nat>)
    requires k <= |s|
    ensures r.Some? ==> k <= r.value < LineEnd(s, k) && s[r.value] == '"'
    ensures r.Some? ==> forall m :: r.value < m < LineEnd(s, k) ==> s[m] != '"'
    ensures r.None? ==> forall m :: k <= m < LineEnd(s, k) ==> s[m] != '"'
    decreases |s| - k
  {
    if k == |s| || s[k] == '\n' then None
    else match LastQuote(s, k + 1)
      case Some(j) => Some(j)
      case None => if s[k] == '"' then Some(k) else None
  }

  /** The quoted span `re.search('".*"', s[i..])` would report, as the indices of its two quotes. */
  function FindQuoted(s: string, i: nat): (r: Option<(nat, nat)>)
    requires i <= |s|
    ensures r.Some? ==> i <= r.value.0 && IsQuoteMatch(s, r.value.0, r.value.1)
    ensures r.Some? ==> forall j' :: IsQuoteMatch(s, r.value.0, j') ==> j' <= r.value.1
    ensures r.Some? ==> forall i', j' :: i <= i' < r.value.0 ==> !IsQuoteMatch(s, i', j')
    ensures r.None? ==> forall i', j' :: i <= i' ==> !IsQuoteMatch(s, i', j')
    decreases |s| - i
  {
    if i == |s| then None
    else if s[i] == '"' && LastQuote(s, i + 1).Some? then
      var j := LastQuote(s, i + 1).value;
      assert forall j' :: IsQuoteMatch(s, i, j') ==> j' <= j by {
        forall j' | IsQuoteMatch(s, i, j') ensures j' <= j {
          QuoteBeforeLineEnd(s, i, j');
        }
      }
      Some((i, j))
    else
      assert forall j' :: !IsQuoteMatch(s, i, j') by {
        forall j' | IsQuoteMatch(s, i, j') ensures false {
          QuoteBeforeLineEnd(s, i, j');
        }
      }
      FindQuoted(s, i + 1)
  }

  /** A match that starts at `i` ends before the line of `i` does. */
  lemma QuoteBeforeLineEnd(s: string, i: nat, j: int)
    requires IsQuoteMatch(s, i, j)
    ensures i + 1 <= j < LineEnd(s, i + 1)
  {
    var e := LineEnd(s, i + 1);
    assert e < |s| ==> s[e] == '\n';
  }

  /** What `re.search('".*"', s).group()[1:-1]` returns, or None when there is no match. */
  function QuotedText(s: string): (r: Option<string>)
    ensures r.Some? <==> exists i, j :: IsQuoteMatch(s, i, j)
    ensures r.Some? ==> '\n' !in r.value
    ensures r.Some? ==> exists i, j :: IsLeftmostLongest(s, i, j) && r.value == s[i + 1..j]
  {
    match FindQuoted(s, 0)
    case None => None
    case Some((i, j)) =>
      assert IsLeftmostLongest(s, i, j);
      Some(s[i + 1..j])
  }
}
