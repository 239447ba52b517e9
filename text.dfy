/** The few Python string operations the model needs: `startswith`,
    `endswith`, the `in` substring test, `find`, `split`, `join` and the
    decimal rendering of a non-negative integer. */
module Text {
  import opened Basics

  predicate StartsWith(s: string, p: string) {
    |p| <= |s| && s[..|p|] == p
  }

  predicate EndsWith(s: string, p: string) {
    |p| <= |s| && s[|s| - |p|..] == p
  }

  /** `m in t` */
  predicate Contains(t: string, m: string)
    decreases |t|
  {
    StartsWith(t, m) || (|t| > 0 && Contains(t[1..], m))
  }

  /** An occurrence at any position is found. */
  lemma {:induction false} ContainsAt(t: string, m: string, i: nat)
    requires i <= |t| && StartsWith(t[i..], m)
    ensures Contains(t, m)
  {
    if i > 0 {
      assert t[1..][i - 1..] == t[i..];
      ContainsAt(t[1..], m, i - 1);
    }
  }

  /** A text shorter than `m` does not contain it. */
  lemma {:induction false} TooShort(t: string, m: string)
    requires |t| < |m|
    ensures !Contains(t, m)
  {
    if |t| > 0 {
      TooShort(t[1..], m);
    }
  }

  /** A text always contains its own tail. */
  lemma {:induction false} ContainsSuffix(x: string, s: string)
    ensures Contains(x + s, s)
  {
    ContainsAt(x + s, s, |x|);
    assert (x + s)[|x|..] == s;
  }

  /** A text that lacks the first character of `m` does not contain `m`. */
  lemma {:induction false} MissingFirstChar(t: string, m: string)
    requires |m| > 0 && m[0] !in t
    ensures !Contains(t, m)
  {
    if |t| > 0 {
      assert t[0] != m[0];
      MissingFirstChar(t[1..], m);
    }
  }

  /** When no character of `m` after its first equals the first character of
      `s`, no occurrence of `m` can straddle the boundary of `x + s`. */
  lemma {:induction false} ContainsAppend(x: string, s: string, m: string)
    requires |s| > 0
    requires forall k :: 1 <= k < |m| ==> m[k] != s[0]
    ensures Contains(x + s, m) <==> Contains(x, m) || Contains(s, m)
  {
    if x == [] {
      assert x + s == s;
    } else {
      assert (x + s)[1..] == x[1..] + s;
      ContainsAppend(x[1..], s, m);
      if |m| <= |x| {
        assert (x + s)[..|m|] == x[..|m|];
      } else if |m| <= |x + s| {
        assert (x + s)[..|m|][|x|] == s[0] != m[|x|];
      }
    }
  }

  /** `s.find(sep)`, as `None` where Python returns -1. */
  function Find(s: string, sep: string): (r: Option<nat>)
    requires |sep| > 0
    ensures r.Some? ==> r.value + |sep| <= |s| && StartsWith(s[r.value..], sep)
    ensures r.Some? ==> forall i :: 0 <= i < r.value ==> !StartsWith(s[i..], sep)
    ensures r.None? ==> !Contains(s, sep)
    decreases |s|
  {
    if |s| < |sep| then TooShort(s, sep); None
    else if s[..|sep|] == sep then Some(0)
    else
      match Find(s[1..], sep)
      case None => None
      case Some(i) =>
        assert forall j :: 0 < j <= i ==> s[j..] == s[1..][j - 1..];
        Some(i + 1)
  }

  /** The first occurrence of `sep` comes right after a head that lacks the
      first character of `sep`. */
  lemma {:induction false} FindAfterHead(head: string, sep: string, rest: string)
    requires |sep| > 0 && sep[0] !in head
    ensures Find(head + sep + rest, sep) == Some(|head|)
  {
    var s := head + sep + rest;
    assert s[|head|..] == sep + rest;
    assert StartsWith(s[|head|..], sep);
    match Find(s, sep)
    case None =>
      ContainsAt(s, sep, |head|);
    case Some(i) =>
  }

  /** `s.split(sep)` for a non-empty separator. */
  function Split(s: string, sep: string): (parts: seq<string>)
    requires |sep| > 0
    ensures |parts| >= 1
    decreases |s|
  {
    match Find(s, sep)
    case None => [s]
    case Some(i) => [s[..i]] + Split(s[i + |sep|..], sep)
  }

  /** `sep.join(parts)` */
  function Join(parts: seq<string>, sep: string): string {
    if parts == [] then ""
    else if |parts| == 1 then parts[0]
    else parts[0] + sep + Join(parts[1..], sep)
  }

  /** Joining the pieces of a split gives back the text. */
  lemma {:induction false} JoinSplit(s: string, sep: string)
    requires |sep| > 0
    ensures Join(Split(s, sep), sep) == s
    decreases |s|
  {
    match Find(s, sep)
    case None =>
    case Some(i) =>
      var tail := s[i + |sep|..];
      var rest := Split(tail, sep);
      JoinSplit(tail, sep);
      assert Split(s, sep) == [s[..i]] + rest;
      assert ([s[..i]] + rest)[1..] == rest;
      assert Join(Split(s, sep), sep) == s[..i] + sep + tail;
      assert s[i..][..|sep|] == sep;
      assert s == s[..i] + s[i..][..|sep|] + tail;
  }

  /** Splitting on a separator that is one character no piece contains gives
      back the pieces. */
  lemma {:induction false} SplitJoin(parts: seq<string>, c: char)
    requires |parts| >= 1
    requires forall i :: 0 <= i < |parts| ==> c !in parts[i]
    ensures Split(Join(parts, [c]), [c]) == parts
  {
    if |parts| == 1 {
      MissingFirstChar(parts[0], [c]);
    } else {
      var rest := Join(parts[1..], [c]);
      FindAfterHead(parts[0], [c], rest);
      var s := parts[0] + [c] + rest;
      assert s[..|parts[0]|] == parts[0];
      assert s[|parts[0]| + 1..] == rest;
      SplitJoin(parts[1..], c);
    }
  }

  /** The value of a decimal digit character. */
  function DigitValue(d: char): nat {
    if '0' <= d <= '9' then (d as int - '0' as int) as nat else 0
  }

  /** `str(n)` for a non-negative integer. */
  function Decimal(n: nat): (s: string)
    ensures |s| >= 1
    ensures forall i :: 0 <= i < |s| ==> '0' <= s[i] <= '9'
  {
    var d := ('0' as int + n % 10) as char;
    if n < 10 then [d] else Decimal(n / 10) + [d]
  }

  /** `int(s)` for a string of decimal digits. */
  function DecimalValue(s: string): nat {
    if s == [] then 0 else DecimalValue(s[..|s| - 1]) * 10 + DigitValue(s[|s| - 1])
  }

  /** Rendering then reading a decimal gives back the number. */
  lemma {:induction false} DecimalRoundTrip(n: nat)
    ensures DecimalValue(Decimal(n)) == n
  {
    var s := Decimal(n);
    if n >= 10 {
      DecimalRoundTrip(n / 10);
      assert s[..|s| - 1] == Decimal(n / 10);
    }
  }

  /** Four-digit numbers render as four characters. */
  lemma {:induction false} DecimalLength4(n: nat)
    requires 1000 <= n <= 9999
    ensures |Decimal(n)| == 4
  {
    assert Decimal(n) == Decimal(n / 10) + [('0' as int + n % 10) as char];
    assert Decimal(n / 10) == Decimal(n / 100) + [('0' as int + (n / 10) % 10) as char];
    assert Decimal(n / 100) == Decimal(n / 1000) + [('0' as int + (n / 100) % 10) as char];
  }
}
