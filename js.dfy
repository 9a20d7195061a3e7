/** JavaScript value-level behaviour the three components rely on: values that may be
    `undefined`, the whitespace class of regular expressions and of `String.prototype.trim`,
    decimal rendering of numbers in template literals, and `Array.prototype.join`. */
module Js {

  /** A value that may be absent (`undefined`); a present `null` is not modelled. */
  datatype Option<T> = None | Some(value: T) {
    /** The value if present, otherwise the default. */
    function GetOr(default: T): T {
      match this
      case Some(v) => v
      case None => default
    }
  }

  /** How a possibly-undefined string prints when concatenated or interpolated. */
  function Show(s: Option<string>): string {
    match s
    case Some(v) => v
    case None => "undefined"
  }

  /** A JavaScript string is truthy when it is present and not empty. */
  predicate Truthy(s: Option<string>) {
    s.Some? && s.value != ""
  }

  /** Two strings with a common suffix are equal exactly when what precedes the suffix is. */
  lemma AppendCancelRight(a: string, b: string, q: string)
    ensures a + q == b + q <==> a == b
  {
    if a + q == b + q {
      assert a == (a + q)[..|a|];
      assert b == (b + q)[..|b|];
    }
  }

  /** Two strings with a common prefix are equal exactly when what follows the prefix is. */
  lemma AppendCancel(p: string, a: string, b: string)
    ensures p + a == p + b <==> a == b
  {
    if p + a == p + b {
      assert a == (p + a)[|p|..];
      assert b == (p + b)[|p|..];
    }
  }

  // ---------------------------------------------------------------------------
  // Whitespace

  /** The characters matched by the regular-expression class `\s`. They are exactly the
      WhiteSpace and LineTerminator characters that `String.prototype.trim` removes. */
  predicate IsWhitespace(c: char) {
    var n := c as int;
    n == 0x09 || n == 0x0A || n == 0x0B || n == 0x0C || n == 0x0D || n == 0x20
    || n == 0xA0 || n == 0x1680 || (0x2000 <= n <= 0x200A) || n == 0x2028 || n == 0x2029
    || n == 0x202F || n == 0x205F || n == 0x3000 || n == 0xFEFF
  }

  predicate NoWhitespace(s: string) {
    forall i :: 0 <= i < |s| ==> !IsWhitespace(s[i])
  }

  predicate AllWhitespace(s: string) {
    forall i :: 0 <= i < |s| ==> IsWhitespace(s[i])
  }

  /** Global removal of the whitespace class: the string with every whitespace character removed and every
      other character kept, as often as it occurs in `s`. */
  function StripWhitespace(s: string): (r: string)
    ensures NoWhitespace(r)
    ensures |r| <= |s|
    decreases |s|
  {
    if s == [] then []
    else if IsWhitespace(s[0]) then StripWhitespace(s[1..])
      else [s[0]] + StripWhitespace(s[1..])
  }

  /** Every character that is not whitespace survives stripping as often as it occurs. */
  lemma {:induction false} StripWhitespaceKeepsOthers(s: string, c: char)
    requires !IsWhitespace(c)
    ensures multiset(StripWhitespace(s))[c] == multiset(s)[c]
    decreases |s|
  {
    if s != [] {
      assert s == [s[0]] + s[1..];
      StripWhitespaceKeepsOthers(s[1..], c);
    }
  }

  /** Stripping distributes over concatenation, so it keeps the order of what it keeps. */
  lemma {:induction false} StripWhitespaceAppend(a: string, b: string)
    ensures StripWhitespace(a + b) == StripWhitespace(a) + StripWhitespace(b)
    decreases |a|
  {
    if a == [] {
      assert a + b == b;
    } else {
      var ab := a + b;
      assert ab[0] == a[0] && ab[1..] == a[1..] + b;
      StripWhitespaceAppend(a[1..], b);
      if IsWhitespace(a[0]) {
        assert StripWhitespace(ab) == StripWhitespace(a[1..] + b);
        assert StripWhitespace(a) == StripWhitespace(a[1..]);
      } else {
        assert StripWhitespace(ab) == [a[0]] + StripWhitespace(a[1..] + b);
        assert StripWhitespace(a) == [a[0]] + StripWhitespace(a[1..]);
      }
    }
  }

  /** A string without whitespace is left as it is. */
  lemma {:induction false} StripWhitespaceKeepsClean(s: string)
    requires NoWhitespace(s)
    ensures StripWhitespace(s) == s
    decreases |s|
  {
    if s != [] {
      assert !IsWhitespace(s[0]);
      assert NoWhitespace(s[1..]) by {
        forall i | 0 <= i < |s[1..]| ensures !IsWhitespace(s[1..][i]) {
          assert s[1..][i] == s[i + 1];
        }
      }
      StripWhitespaceKeepsClean(s[1..]);
      assert s == [s[0]] + s[1..];
    }
  }

  /** Stripping is the identity exactly on strings that hold no whitespace. */
  lemma StripWhitespaceFixedPoints(s: string)
    ensures StripWhitespace(s) == s <==> NoWhitespace(s)
  {
    if NoWhitespace(s) {
      StripWhitespaceKeepsClean(s);
    }
  }

  /** Stripping twice is stripping once. */
  lemma StripWhitespaceIdempotent(s: string)
    ensures StripWhitespace(StripWhitespace(s)) == StripWhitespace(s)
  {
    StripWhitespaceKeepsClean(StripWhitespace(s));
  }

  // ---------------------------------------------------------------------------
  // Trimming

  /** The longest suffix of `s` that does not start with whitespace. */
  function TrimStart(s: string): (r: string)
    ensures |r| <= |s| && r == s[|s| - |r|..]
    ensures forall i :: 0 <= i < |s| - |r| ==> IsWhitespace(s[i])
    ensures r == [] || !IsWhitespace(r[0])
    decreases |s|
  {
    if s != [] && IsWhitespace(s[0]) then
      var tail := s[1..];
      var r := TrimStart(tail);
      assert tail[|tail| - |r|..] == s[|s| - |r|..];
      assert forall i :: 0 <= i < |s| - |r| ==> IsWhitespace(s[i]) by {
        forall i | 0 <= i < |s| - |r| ensures IsWhitespace(s[i]) {
          if i > 0 { assert s[i] == tail[i - 1]; }
        }
      }
      r
    else s
  }

  /** The longest prefix of `s` that does not end with whitespace. */
  function TrimEnd(s: string): (r: string)
    ensures |r| <= |s| && r == s[..|r|]
    ensures forall i :: |r| <= i < |s| ==> IsWhitespace(s[i])
    ensures r == [] || !IsWhitespace(r[|r| - 1])
    decreases |s|
  {
    if s != [] && IsWhitespace(s[|s| - 1]) then
      var init := s[..|s| - 1];
      var r := TrimEnd(init);
      assert init[..|r|] == s[..|r|];
      assert forall i :: |r| <= i < |s| ==> IsWhitespace(s[i]) by {
        forall i | |r| <= i < |s| ensures IsWhitespace(s[i]) {
          if i < |s| - 1 { assert s[i] == init[i]; }
        }
      }
      r
    else s
  }

  /** Neither end of `s` is whitespace. */
  predicate IsTrimmed(s: string) {
    s == [] || (!IsWhitespace(s[0]) && !IsWhitespace(s[|s| - 1]))
  }

  /** `trim`: the infix of `s` left after removing the whitespace at both ends. */
  function Trim(s: string): (r: string)
    ensures IsTrimmed(r)
    ensures r == [] <==> AllWhitespace(s)
    ensures exists i, j :: 0 <= i <= j <= |s| && r == s[i..j]
                           && AllWhitespace(s[..i]) && AllWhitespace(s[j..])
  {
    var t := TrimStart(s);
    var r := TrimEnd(t);
    var i := |s| - |t|;
    assert r == s[i..i + |r|];
    assert AllWhitespace(s[..i]) by {
      forall k | 0 <= k < i ensures IsWhitespace(s[..i][k]) { assert s[..i][k] == s[k]; }
    }
    assert AllWhitespace(s[i + |r|..]) by {
      var tail := s[i + |r|..];
      forall k | 0 <= k < |tail| ensures IsWhitespace(tail[k]) {
        assert tail[k] == t[|r| + k];
      }
    }
    assert r == [] ==> AllWhitespace(s) by {
      if r == [] {
        forall k | 0 <= k < |s| ensures IsWhitespace(s[k]) { assert s[k] == s[..i][k]; }
      }
    }
    r
  }

  /** A trimmed string is its own trim. */
  lemma TrimKeepsTrimmed(s: string)
    requires IsTrimmed(s)
    ensures Trim(s) == s
  {
    assert TrimStart(s) == s;
    assert TrimEnd(s) == s;
  }

  /** Trimming twice is trimming once. */
  lemma TrimIdempotent(s: string)
    ensures Trim(Trim(s)) == Trim(s)
  {
    TrimKeepsTrimmed(Trim(s));
  }

  // ---------------------------------------------------------------------------
  // Numbers in template literals

  function DigitChar(d: nat): (c: char)
    requires d < 10
    ensures '0' <= c <= '9' && c as int - '0' as int == d
  {
    ('0' as int + d) as char
  }

  predicate IsDigits(s: string) {
    forall i :: 0 <= i < |s| ==> '0' <= s[i] <= '9'
  }

  /** The value of a string of decimal digits. */
  function DigitsValue(s: string): nat
    requires IsDigits(s)
    decreases |s|
  {
    if s == [] then 0
    else
      assert IsDigits(s[..|s| - 1]) by {
        var init := s[..|s| - 1];
        forall i | 0 <= i < |init| ensures '0' <= init[i] <= '9' {
          assert init[i] == s[i];
        }
      }
      10 * DigitsValue(s[..|s| - 1]) + (s[|s| - 1] as int - '0' as int)
  }

  /** A non-negative integer as a template literal renders it: its decimal digits, without
      leading zeros. */
  function NatToString(n: nat): (r: string)
    ensures |r| >= 1 && IsDigits(r)
    ensures r[0] == '0' ==> r == "0"
    decreases n
  {
    if n < 10 then [DigitChar(n)] else NatToString(n / 10) + [DigitChar(n % 10)]
  }

  /** Reading the digits back gives the number: the rendering loses nothing. */
  lemma {:induction false} NatToStringRoundTrip(n: nat)
    ensures DigitsValue(NatToString(n)) == n
    decreases n
  {
    var s := NatToString(n);
    if n >= 10 {
      NatToStringRoundTrip(n / 10);
      assert s[..|s| - 1] == NatToString(n / 10);
    }
  }

  /** Distinct numbers render as distinct strings. */
  lemma NatToStringInjective(m: nat, n: nat)
    ensures NatToString(m) == NatToString(n) ==> m == n
  {
    NatToStringRoundTrip(m);
    NatToStringRoundTrip(n);
  }

  /** Any integer as a template literal renders it, with a minus sign when negative. */
  function IntToString(i: int): string {
    if i < 0 then "-" + NatToString(-i) else NatToString(i)
  }

  /** Distinct integers render as distinct strings. */
  lemma IntToStringInjective(m: int, n: int)
    ensures IntToString(m) == IntToString(n) ==> m == n
  {
    if IntToString(m) == IntToString(n) {
      if m < 0 && n < 0 {
        assert NatToString(-m) == IntToString(m)[1..];
        NatToStringInjective(-m, -n);
      } else if m >= 0 && n >= 0 {
        NatToStringInjective(m, n);
      }
    }
  }

  // ---------------------------------------------------------------------------
  // Array.prototype.join

  function TotalLength(parts: seq<string>): nat {
    if parts == [] then 0 else |parts[0]| + TotalLength(parts[1..])
  }

  /** `join`: the parts in order with `sep` between neighbours. */
  function Join(parts: seq<string>, sep: string): (r: string)
    ensures |parts| == 0 ==> r == ""
    ensures |parts| == 1 ==> r == parts[0]
    ensures |parts| > 0 ==> parts[0] <= r
    ensures |parts| > 0 ==> |r| == TotalLength(parts) + (|parts| - 1) * |sep|
  {
    if |parts| == 0 then ""
    else if |parts| == 1 then parts[0]
    else
      var rest := Join(parts[1..], sep);
      assert (|parts| - 1) * |sep| == |sep| + (|parts| - 2) * |sep|;
      parts[0] + sep + rest
  }

  /** Joining one more part appends a separator and that part: together with the one-part
      case this fixes every part of the joined text, in order. */
  lemma {:induction false} JoinSnoc(parts: seq<string>, p: string, sep: string)
    requires |parts| > 0
    ensures Join(parts + [p], sep) == Join(parts, sep) + sep + p
    decreases |parts|
  {
    var all := parts + [p];
    assert all[0] == parts[0];
    if |parts| == 1 {
      assert all[1..] == [p];
    } else {
      assert all[1..] == parts[1..] + [p];
      JoinSnoc(parts[1..], p, sep);
    }
  }
}
