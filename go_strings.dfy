/** The pieces of Go's `strings` and `fmt` packages that the storefront's
    boundary logic relies on: TrimSpace, TrimRight with the cutset "/",
    Split on a one-character separator, Join, HasPrefix and "%d". */
module GoStrings {

  /** unicode.IsSpace: the Latin-1 spaces and the other White_Space code points. */
  predicate IsSpace(c: char) {
    || c == ' ' || c == '\t' || c == '\n' || c == '\r' || c == '\U{0B}' || c == '\U{0C}'
    || c == '\U{85}' || c == '\U{A0}' || c == '\U{1680}'
    || ('\U{2000}' <= c <= '\U{200A}')
    || c == '\U{2028}' || c == '\U{2029}' || c == '\U{202F}' || c == '\U{205F}' || c == '\U{3000}'
  }

  ghost predicate AllSpace(s: string) {
    forall k :: 0 <= k < |s| ==> IsSpace(s[k])
  }

  /** strings.TrimLeftFunc(s, unicode.IsSpace): the suffix left after dropping leading spaces. */
  function TrimLeftSpace(s: string): (r: string)
    ensures |r| <= |s| && r == s[|s| - |r|..]
    ensures AllSpace(s[..|s| - |r|])
    ensures r == [] || !IsSpace(r[0])
    decreases |s|
  {
    if s != [] && IsSpace(s[0]) then
      var r := TrimLeftSpace(s[1..]);
      var k := |s| - |r|;
      assert s[k..] == s[1..][k - 1..];
      assert s[..k] == [s[0]] + s[1..][..k - 1];
      assert AllSpace([s[0]]);
      AllSpaceConcat([s[0]], s[1..][..k - 1]);
      r
    else s
  }

  /** strings.TrimRightFunc(s, unicode.IsSpace): the prefix left after dropping trailing spaces. */
  function TrimRightSpace(s: string): (r: string)
    ensures |r| <= |s| && r == s[..|r|]
    ensures AllSpace(s[|r|..])
    ensures r == [] || !IsSpace(r[|r| - 1])
    decreases |s|
  {
    if s != [] && IsSpace(s[|s| - 1]) then
      var r := TrimRightSpace(s[..|s| - 1]);
      assert s[..|r|] == s[..|s| - 1][..|r|];
      assert s[|r|..] == s[..|s| - 1][|r|..] + [s[|s| - 1]];
      assert AllSpace([s[|s| - 1]]);
      AllSpaceConcat(s[..|s| - 1][|r|..], [s[|s| - 1]]);
      r
    else s
  }

  /** strings.TrimSpace. The result is a slice of s with only spaces cut off either end,
      and it is empty exactly when s is blank (empty or all spaces). */
  function TrimSpace(s: string): (r: string)
    ensures |r| <= |s| && forall c :: c in r ==> c in s
    ensures r == [] || (!IsSpace(r[0]) && !IsSpace(r[|r| - 1]))
    ensures r == [] <==> AllSpace(s)
    ensures exists i, j :: 0 <= i <= j <= |s| && r == s[i..j] && AllSpace(s[..i]) && AllSpace(s[j..])
  {
    var left := TrimLeftSpace(s);
    var r := TrimRightSpace(left);
    TrimBothEndsSlice(s, |s| - |left|, left, r);
    TrimBothEndsKeepsChars(s, |s| - |left|, left, r);
    TrimBothEndsBlank(s, left, r);
    r
  }

  /** A slice of a slice of s holds only characters of s. */
  lemma TrimBothEndsKeepsChars(s: string, i: nat, left: string, r: string)
    requires i <= |s| && left == s[i..] && |r| <= |left| && r == left[..|r|]
    ensures forall c :: c in r ==> c in s
  {
    forall c | c in r
      ensures c in s
    {
      var k :| 0 <= k < |r| && r[k] == c;
      assert s[i + k] == c;
    }
  }

  /** What the two trims leave is the slice of s between the leading and the
      trailing spaces. */
  lemma TrimBothEndsSlice(s: string, i: nat, left: string, r: string)
    requires i <= |s| && left == s[i..] && AllSpace(s[..i])
    requires |r| <= |left| && r == left[..|r|] && AllSpace(left[|r|..])
    ensures exists i, j :: 0 <= i <= j <= |s| && r == s[i..j] && AllSpace(s[..i]) && AllSpace(s[j..])
  {
    var j := i + |r|;
    assert r == s[i..j];
    assert s[j..] == left[|r|..];
  }

  lemma TrimBothEndsBlank(s: string, left: string, r: string)
    requires left == TrimLeftSpace(s) && r == TrimRightSpace(left)
    ensures r == [] <==> AllSpace(s)
  {
    var i := |s| - |left|;
    if r == [] {
      assert AllSpace(s[..i]);
      assert left[|r|..] == left;
      assert AllSpace(left);
      forall k | 0 <= k < |s|
        ensures IsSpace(s[k])
      {
        if k < i {
          assert s[k] == s[..i][k];
        } else {
          assert s[k] == left[k - i];
        }
      }
    } else {
      assert s[i] == left[0];
    }
  }

  lemma AllSpaceConcat(a: string, b: string)
    ensures AllSpace(a + b) <==> AllSpace(a) && AllSpace(b)
  {
    if AllSpace(a) && AllSpace(b) {
      forall k | 0 <= k < |a + b| ensures IsSpace((a + b)[k]) {
        if k < |a| { assert (a + b)[k] == a[k]; } else { assert (a + b)[k] == b[k - |a|]; }
      }
    }
    if AllSpace(a + b) {
      forall k | 0 <= k < |b| ensures IsSpace(b[k]) {
        assert b[k] == (a + b)[k + |a|];
      }
      forall k | 0 <= k < |a| ensures IsSpace(a[k]) {
        assert a[k] == (a + b)[k];
      }
    }
  }

  /** strings.TrimRight(s, "/"): every trailing '/' is removed, and nothing else. */
  function TrimTrailingSlashes(s: string): (r: string)
    ensures |r| <= |s| && r == s[..|r|]
    ensures forall k :: |r| <= k < |s| ==> s[k] == '/'
    ensures r == [] || r[|r| - 1] != '/'
    decreases |s|
  {
    if s != [] && s[|s| - 1] == '/' then TrimTrailingSlashes(s[..|s| - 1]) else s
  }

  /** strings.HasPrefix: s is the prefix followed by the rest of s. */
  predicate HasPrefix(s: string, prefix: string): (b: bool)
    ensures b <==> |prefix| <= |s| && s == prefix + s[|prefix|..]
  {
    |prefix| <= |s| && s[..|prefix|] == prefix
  }

  /** strings.Split(s, string(sep)) (and strings.SplitSeq, which yields the same pieces):
      the pieces between the separators. There is always at least one piece, and no
      piece contains the separator; Join puts them back together (JoinSplit). */
  function Split(s: string, sep: char): (pieces: seq<string>)
    ensures |pieces| >= 1
    ensures forall p <- pieces :: sep !in p
    decreases |s|
  {
    if s == [] then [""]
    else
      var rest := Split(s[1..], sep);
      if s[0] == sep then [""] + rest
      else [[s[0]] + rest[0]] + rest[1..]
  }

  /** strings.Join: no parts give "", a single part is returned as it is, and
      otherwise the separator goes between each two parts. */
  function Join(parts: seq<string>, sep: string): (r: string)
    ensures parts == [] ==> r == ""
    ensures |parts| == 1 ==> r == parts[0]
    decreases |parts|
  {
    if parts == [] then ""
    else if |parts| == 1 then parts[0]
    else parts[0] + sep + Join(parts[1..], sep)
  }

  /** Where part k starts in Join(parts, sep): after the parts before it, each
      followed by one separator. */
  function JoinOffset(parts: seq<string>, sep: string, k: nat): nat
    requires k <= |parts|
    decreases k
  {
    if k == 0 then 0 else JoinOffset(parts, sep, k - 1) + |parts[k - 1]| + |sep|
  }

  /** Join lays the parts out in order: part k stands at JoinOffset(parts, sep, k). */
  lemma {:induction false} JoinPartAt(parts: seq<string>, sep: string, k: nat)
    requires k < |parts|
    ensures var o := JoinOffset(parts, sep, k); var joined := Join(parts, sep);
      o + |parts[k]| <= |joined| && joined[o..o + |parts[k]|] == parts[k]
    decreases k
  {
    var joined := Join(parts, sep);
    if k == 0 {
      if |parts| > 1 {
        assert joined == parts[0] + (sep + Join(parts[1..], sep));
      }
    } else {
      var rest := parts[1..];
      var head := parts[0] + sep;
      assert joined == head + Join(rest, sep);
      JoinPartAt(rest, sep, k - 1);
      JoinOffsetShift(parts, sep, k);
      assert rest[k - 1] == parts[k];
      SliceBehind(joined, head, Join(rest, sep), JoinOffset(rest, sep, k - 1), parts[k]);
    }
  }

  /** Every part but the last is followed by one separator. */
  lemma {:induction false} JoinSeparatorAfter(parts: seq<string>, sep: string, k: nat)
    requires k + 1 < |parts|
    ensures var e := JoinOffset(parts, sep, k) + |parts[k]|; var joined := Join(parts, sep);
      e + |sep| <= |joined| && joined[e..e + |sep|] == sep
    decreases k
  {
    var joined := Join(parts, sep);
    var rest := parts[1..];
    var tail := Join(rest, sep);
    if k == 0 {
      assert joined == parts[0] + (sep + tail);
      assert (sep + tail)[0..|sep|] == sep;
      SliceBehind(joined, parts[0], sep + tail, 0, sep);
    } else {
      var head := parts[0] + sep;
      assert joined == head + tail;
      JoinSeparatorAfter(rest, sep, k - 1);
      JoinOffsetShift(parts, sep, k);
      assert rest[k - 1] == parts[k];
      SliceBehind(joined, head, tail, JoinOffset(rest, sep, k - 1) + |parts[k]|, sep);
    }
  }

  /** Nothing follows the last part. */
  lemma {:induction false} JoinLength(parts: seq<string>, sep: string)
    requires parts != []
    ensures |Join(parts, sep)| == JoinOffset(parts, sep, |parts| - 1) + |parts[|parts| - 1]|
    decreases |parts|
  {
    if |parts| > 1 {
      var rest := parts[1..];
      JoinLength(rest, sep);
      JoinOffsetShift(parts, sep, |parts| - 1);
      assert rest[|rest| - 1] == parts[|parts| - 1];
    }
  }

  /** Behind a prefix, part k of a Join starts JoinOffset after the prefix. */
  lemma PrefixedJoinPart(prefix: string, parts: seq<string>, sep: string, k: nat)
    requires k < |parts|
    ensures var text := prefix + Join(parts, sep); var o := |prefix| + JoinOffset(parts, sep, k);
      o + |parts[k]| <= |text| && text[o..o + |parts[k]|] == parts[k]
  {
    JoinPartAt(parts, sep, k);
    SliceBehind(prefix + Join(parts, sep), prefix, Join(parts, sep), JoinOffset(parts, sep, k), parts[k]);
  }

  /** A piece at offset o of the tail stands at |head| + o of head + tail. */
  lemma SliceBehind<T>(whole: seq<T>, head: seq<T>, tail: seq<T>, o: nat, piece: seq<T>)
    requires whole == head + tail && o + |piece| <= |tail| && tail[o..o + |piece|] == piece
    ensures |head| + o + |piece| <= |whole| && whole[|head| + o..|head| + o + |piece|] == piece
  {
    assert whole[|head|..] == tail;
    assert whole[|head| + o..|head| + o + |piece|] == whole[|head|..][o..o + |piece|];
  }

  /** Dropping the first part moves every later offset back by that part and one separator. */
  lemma {:induction false} JoinOffsetShift(parts: seq<string>, sep: string, k: nat)
    requires 1 <= k <= |parts|
    ensures JoinOffset(parts, sep, k) == |parts[0]| + |sep| + JoinOffset(parts[1..], sep, k - 1)
    decreases k
  {
    if k > 1 {
      JoinOffsetShift(parts, sep, k - 1);
      assert parts[1..][k - 2] == parts[k - 1];
    }
  }

  /** Splitting and joining again with the same separator gives back the input. */
  lemma {:induction false} JoinSplit(s: string, sep: char)
    ensures Join(Split(s, sep), [sep]) == s
    decreases |s|
  {
    if s != [] {
      var rest := Split(s[1..], sep);
      JoinSplit(s[1..], sep);
      if s[0] == sep {
        assert Split(s, sep) == [""] + rest;
        assert Join([""] + rest, [sep]) == "" + [sep] + Join(rest, [sep]);
        assert s == [sep] + s[1..];
      } else if |rest| == 1 {
        assert Split(s, sep) == [[s[0]] + rest[0]];
        assert s == [s[0]] + s[1..];
      } else {
        var pieces := [[s[0]] + rest[0]] + rest[1..];
        assert Split(s, sep) == pieces;
        assert pieces[1..] == rest[1..];
        assert Join(rest, [sep]) == rest[0] + [sep] + Join(rest[1..], [sep]);
        assert s == [s[0]] + s[1..];
      }
    }
  }

  /** The number of pieces is one more than the number of separators. */
  lemma {:induction false} SplitCount(s: string, sep: char)
    ensures |Split(s, sep)| == Occurrences(s, sep) + 1
    decreases |s|
  {
    if s != [] {
      SplitCount(s[1..], sep);
    }
  }

  function Occurrences(s: string, c: char): nat
    decreases |s|
  {
    if s == [] then 0 else (if s[0] == c then 1 else 0) + Occurrences(s[1..], c)
  }

  function DigitChar(d: nat): (c: char)
    requires d < 10
    ensures '0' <= c <= '9'
  {
    "0123456789"[d]
  }

  function DigitValue(c: char): nat
    requires '0' <= c <= '9'
  {
    (c as int - '0' as int) as nat
  }

  /** The decimal digits of n, most significant first, without leading zeros. */
  function NatDigits(n: nat): (r: string)
    ensures |r| >= 1
    ensures forall k :: 0 <= k < |r| ==> '0' <= r[k] <= '9'
    ensures |r| > 1 ==> r[0] != '0'
    decreases n
  {
    if n < 10 then [DigitChar(n)] else NatDigits(n / 10) + [DigitChar(n % 10)]
  }

  /** The number a string of decimal digits denotes. */
  function DecimalValue(s: string): nat
    requires forall k :: 0 <= k < |s| ==> '0' <= s[k] <= '9'
    decreases |s|
  {
    if s == [] then 0 else DecimalValue(s[..|s| - 1]) * 10 + DigitValue(s[|s| - 1])
  }

  /** fmt's "%d" for a Go int: an optional '-' followed by the decimal digits. */
  function FormatInt(n: int): (r: string)
    ensures |r| >= 1
    ensures n < 0 <==> r[0] == '-'
  {
    if n < 0 then "-" + NatDigits(-n) else NatDigits(n)
  }

  /** One digit reads back as itself. */
  lemma DigitRoundTrip(d: nat)
    requires d < 10
    ensures DigitValue(DigitChar(d)) == d
  {
  }

  /** Reading the digits back gives the number. */
  lemma {:induction false} NatDigitsRoundTrip(n: nat)
    ensures DecimalValue(NatDigits(n)) == n
    decreases n
  {
    if n < 10 {
      DigitRoundTrip(n);
    } else {
      var d := NatDigits(n / 10) + [DigitChar(n % 10)];
      assert d[..|d| - 1] == NatDigits(n / 10);
      NatDigitsRoundTrip(n / 10);
      DigitRoundTrip(n % 10);
      assert DecimalValue(d) == DecimalValue(NatDigits(n / 10)) * 10 + DigitValue(d[|d| - 1]);
      assert (n / 10) * 10 + n % 10 == n;
    }
  }

  /** Different numbers are formatted differently, so an index or status code in a
      message identifies it. */
  lemma FormatIntInjective(m: int, n: int)
    requires FormatInt(m) == FormatInt(n)
    ensures m == n
  {
    var dm := if m < 0 then -m else m;
    var dn := if n < 0 then -n else n;
    assert (m < 0) == (n < 0);
    if m < 0 {
      assert NatDigits(dm) == FormatInt(m)[1..];
      assert NatDigits(dn) == FormatInt(n)[1..];
    }
    assert NatDigits(dm) == NatDigits(dn);
    NatDigitsRoundTrip(dm);
    NatDigitsRoundTrip(dn);
  }
}
