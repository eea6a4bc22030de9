/** String primitives the entry field and the receipt text are built from:
    ASCII decimal digits, integer-to-decimal and back, splitting on commas,
    and whitespace stripping with Python's notion of whitespace. */
module Text {

  datatype Option<T> = None | Some(value: T)

  /** Extending a prefix by one element. */
  lemma TakeOneMore<T>(s: seq<T>, i: nat)
    requires i < |s|
    ensures s[..i + 1] == s[..i] + [s[i]]
  {
  }

  lemma TakeAll<T>(s: seq<T>)
    ensures s[..|s|] == s
  {
  }

  /** An ASCII decimal digit. */
  predicate IsDigit(c: char)
  {
    '0' <= c <= '9'
  }

  /** Every character is a digit (the empty string included). */
  predicate AllDigits(s: string)
  {
    forall i :: 0 <= i < |s| ==> IsDigit(s[i])
  }

  /** `str.isdigit()` restricted to ASCII: non-empty and made of digits only. */
  predicate IsDigitString(s: string)
  {
    |s| > 0 && AllDigits(s)
  }

  function DigitValue(c: char): (d: nat)
    requires IsDigit(c)
    ensures d < 10
  {
    c as int - '0' as int
  }

  function DigitChar(d: nat): (c: char)
    requires d < 10
    ensures IsDigit(c) && DigitValue(c) == d
  {
    ('0' as int + d) as char
  }

  lemma DigitCharOfValue(c: char)
    requires IsDigit(c)
    ensures DigitChar(DigitValue(c)) == c
  {
  }

  /** The value of a string of decimal digits, most significant first; this is
      what `int()` gives for such a string (leading zeros are allowed). */
  function DigitsValue(s: string): nat
    requires AllDigits(s)
    decreases |s|
  {
    if s == [] then 0 else DigitsValue(s[..|s| - 1]) * 10 + DigitValue(s[|s| - 1])
  }

  lemma DigitsValueSnoc(s: string, c: char)
    requires AllDigits(s) && IsDigit(c)
    ensures AllDigits(s + [c])
    ensures DigitsValue(s + [c]) == DigitsValue(s) * 10 + DigitValue(c)
  {
    assert (s + [c])[..|s|] == s;
  }

  /** A digit string whose value is zero consists of zeros only; so a digit
      string that starts with a non-zero digit has a positive value. */
  lemma {:induction false} ZeroValueAllZeros(s: string)
    requires AllDigits(s) && DigitsValue(s) == 0
    ensures forall i :: 0 <= i < |s| ==> s[i] == '0'
  {
    if s != [] {
      var init := s[..|s| - 1];
      ZeroValueAllZeros(init);
      assert forall i :: 0 <= i < |init| ==> s[i] == init[i];
    }
  }

  function Pow10(n: nat): (p: nat)
    ensures p >= 1
  {
    if n == 0 then 1 else 10 * Pow10(n - 1)
  }

  /** `str(n)` for a non-negative integer: the shortest decimal numeral of `n`. */
  function Decimal(n: nat): (s: string)
    ensures IsDigitString(s)
    ensures DigitsValue(s) == n
    ensures |s| == 1 || s[0] != '0'
    decreases n
  {
    if n < 10 then [DigitChar(n)]
    else
      var init := Decimal(n / 10);
      DigitsValueSnoc(init, DigitChar(n % 10));
      init + [DigitChar(n % 10)]
  }

  /** The other direction of the round trip: a digit string without a leading
      zero is the numeral of its own value. */
  lemma {:induction false} DecimalOfValue(s: string)
    requires IsDigitString(s)
    requires |s| == 1 || s[0] != '0'
    ensures Decimal(DigitsValue(s)) == s
    decreases |s|
  {
    var init, last := s[..|s| - 1], s[|s| - 1];
    assert s == init + [last];
    if init == [] {
      DigitCharOfValue(last);
    } else {
      assert init[0] == s[0];
      if DigitsValue(init) == 0 {
        ZeroValueAllZeros(init);
        assert false;
      }
      DecimalOfValue(init);
      var n := DigitsValue(s);
      assert n == DigitsValue(init) * 10 + DigitValue(last);
      assert n / 10 == DigitsValue(init) && n % 10 == DigitValue(last);
      DigitCharOfValue(last);
    }
  }

  /** The `width` low-order decimal digits of `n`, zero-padded on the left:
      the `%02d`-style fields of `strftime`. */
  function PadDigits(n: nat, width: nat): (s: string)
    requires n < Pow10(width)
    ensures |s| == width && AllDigits(s)
    ensures DigitsValue(s) == n
    decreases width
  {
    if width == 0 then []
    else
      var init := PadDigits(n / 10, width - 1);
      DigitsValueSnoc(init, DigitChar(n % 10));
      init + [DigitChar(n % 10)]
  }

  /** Python's `str.isspace()`: the characters `str.strip()` removes. */
  predicate IsSpace(c: char)
  {
    var n := c as int;
    || 9 <= n <= 13 || 28 <= n <= 32 || n == 0x85 || n == 0xA0 || n == 0x1680
    || 0x2000 <= n <= 0x200A || n == 0x2028 || n == 0x2029 || n == 0x202F
    || n == 0x205F || n == 0x3000
  }

  predicate AllSpace(s: string)
  {
    forall i :: 0 <= i < |s| ==> IsSpace(s[i])
  }

  /** `str.lstrip()`: `s` without its leading whitespace (TrimStartShape). */
  function TrimStart(s: string): string
  {
    if s != [] && IsSpace(s[0]) then TrimStart(s[1..]) else s
  }

  /** `str.rstrip()`: `s` without its trailing whitespace (TrimEndShape). */
  function TrimEnd(s: string): string
  {
    if s != [] && IsSpace(s[|s| - 1]) then TrimEnd(s[..|s| - 1]) else s
  }

  /** `str.strip()`: `s` with its leading and trailing whitespace removed. */
  function Strip(s: string): string
  {
    TrimEnd(TrimStart(s))
  }

  /** What lstrip leaves is a suffix of `s` that is empty or starts with a
      non-space character, and what it removed is all whitespace. */
  lemma {:induction false} TrimStartShape(s: string)
    ensures var r := TrimStart(s);
      && |r| <= |s| && r == s[|s| - |r|..]
      && AllSpace(s[..|s| - |r|])
      && (r == [] || !IsSpace(r[0]))
    decreases |s|
  {
    if s != [] && IsSpace(s[0]) {
      TrimStartShape(s[1..]);
      var r := TrimStart(s[1..]);
      assert s[..|s| - |r|] == [s[0]] + s[1..][..|s| - 1 - |r|];
    }
  }

  /** What rstrip leaves is a prefix of `s` that is empty or ends with a
      non-space character, and what it removed is all whitespace. */
  lemma {:induction false} TrimEndShape(s: string)
    ensures var r := TrimEnd(s);
      && |r| <= |s| && r == s[..|r|]
      && AllSpace(s[|r|..])
      && (r == [] || !IsSpace(r[|r| - 1]))
    decreases |s|
  {
    if s != [] && IsSpace(s[|s| - 1]) {
      TrimEndShape(s[..|s| - 1]);
      var r := TrimEnd(s[..|s| - 1]);
      assert s[|r|..] == s[..|s| - 1][|r|..] + [s[|s| - 1]];
    }
  }

  /** What strip leaves is a slice of `s` with no whitespace at either end,
      and everything before and after it is whitespace. */
  lemma StripShape(s: string)
    ensures exists i, j :: (0 <= i <= j <= |s| && Strip(s) == s[i..j]
                            && AllSpace(s[..i]) && AllSpace(s[j..]))
    ensures Strip(s) == [] || (!IsSpace(Strip(s)[0]) && !IsSpace(Strip(s)[|Strip(s)| - 1]))
  {
    var t := TrimStart(s);
    TrimStartShape(s);
    TrimEndShape(t);
    var r := TrimEnd(t);
    var i := |s| - |t|;
    var j := i + |r|;
    assert r == s[i..j];
    assert s[j..] == t[|r|..];
    assert r != [] ==> r[0] == t[0];
  }

  lemma {:induction false} TrimStartSpaces(pre: string, x: string)
    requires AllSpace(pre) && (x == [] || !IsSpace(x[0]))
    ensures TrimStart(pre + x) == x
    decreases |pre|
  {
    if pre == [] {
      assert pre + x == x;
    } else {
      assert (pre + x)[1..] == pre[1..] + x;
      TrimStartSpaces(pre[1..], x);
    }
  }

  lemma {:induction false} TrimEndSpaces(x: string, post: string)
    requires AllSpace(post) && (x == [] || !IsSpace(x[|x| - 1]))
    ensures TrimEnd(x + post) == x
    decreases |post|
  {
    if post == [] {
      assert x + post == x;
    } else {
      var init := post[..|post| - 1];
      assert (x + post)[..|x + post| - 1] == x + init;
      TrimEndSpaces(x, init);
    }
  }

  /** Strip removes exactly the surrounding whitespace and nothing else: any
      core without whitespace at its ends comes back out unchanged. */
  lemma StripSurrounded(pre: string, core: string, post: string)
    requires AllSpace(pre) && AllSpace(post)
    requires core == [] || (!IsSpace(core[0]) && !IsSpace(core[|core| - 1]))
    ensures Strip(pre + core + post) == core
  {
    if core == [] {
      assert pre + core + post == (pre + post) + [];
      assert AllSpace(pre + post);
      TrimStartSpaces(pre + post, []);
    } else {
      assert pre + core + post == pre + (core + post);
      TrimStartSpaces(pre, core + post);
      TrimEndSpaces(core, post);
    }
  }

  lemma StripIdempotent(s: string)
    ensures Strip(Strip(s)) == Strip(s)
  {
    StripShape(s);
    StripSurrounded([], Strip(s), []);
    assert [] + Strip(s) + [] == Strip(s);
  }

  /** Joins pieces with a comma between neighbours: the inverse of `str.split(",")`. */
  function JoinWithCommas(pieces: seq<string>): string
    requires |pieces| >= 1
  {
    if |pieces| == 1 then pieces[0] else pieces[0] + "," + JoinWithCommas(pieces[1..])
  }

  predicate CommaFree(s: string)
  {
    forall i :: 0 <= i < |s| ==> s[i] != ','
  }

  /** `s.split(",")`: the maximal comma-free pieces of `s`, in order (SplitOnCommasShape). */
  function SplitOnCommas(s: string): (pieces: seq<string>)
    ensures |pieces| >= 1
  {
    if s == [] then [""]
    else
      var rest := SplitOnCommas(s[1..]);
      if s[0] == ',' then [""] + rest
      else [[s[0]] + rest[0]] + rest[1..]
  }

  /** There is always at least one piece, no piece contains a comma, and
      joining the pieces with commas gives `s` back. */
  lemma {:induction false} SplitOnCommasShape(s: string)
    ensures var pieces := SplitOnCommas(s);
      && (forall k :: 0 <= k < |pieces| ==> CommaFree(pieces[k]))
      && JoinWithCommas(pieces) == s
    decreases |s|
  {
    if s != [] {
      SplitOnCommasShape(s[1..]);
      var rest := SplitOnCommas(s[1..]);
      var pieces := SplitOnCommas(s);
      if s[0] == ',' {
        assert pieces[1..] == rest;
      } else {
        assert pieces[1..] == rest[1..];
        assert forall k :: 1 <= k < |pieces| ==> pieces[k] == rest[k];
      }
    }
  }

  lemma {:induction false} SplitCommaFree(p: string)
    requires CommaFree(p)
    ensures SplitOnCommas(p) == [p]
    decreases |p|
  {
    if p != [] {
      var rest := p[1..];
      assert forall i :: 0 <= i < |rest| ==> rest[i] == p[i + 1];
      SplitCommaFree(rest);
      assert [p[0]] + rest == p;
    }
  }

  lemma {:induction false} SplitAtFirstComma(p: string, t: string)
    requires CommaFree(p)
    ensures SplitOnCommas(p + "," + t) == [p] + SplitOnCommas(t)
    decreases |p|
  {
    if p == [] {
      assert p + "," + t == [','] + t;
      assert ([','] + t)[1..] == t;
    } else {
      SplitAtFirstComma(p[1..], t);
      assert (p + "," + t)[1..] == p[1..] + "," + t;
      assert [p[0]] + p[1..] == p;
    }
  }

  /** The other direction of the round trip: splitting comma-free pieces that
      were joined with commas gives those pieces back. */
  lemma {:induction false} SplitJoin(pieces: seq<string>)
    requires |pieces| >= 1
    requires forall k :: 0 <= k < |pieces| ==> CommaFree(pieces[k])
    ensures SplitOnCommas(JoinWithCommas(pieces)) == pieces
    decreases |pieces|
  {
    if |pieces| == 1 {
      SplitCommaFree(pieces[0]);
    } else {
      SplitJoin(pieces[1..]);
      SplitAtFirstComma(pieces[0], JoinWithCommas(pieces[1..]));
      assert [pieces[0]] + pieces[1..] == pieces;
    }
  }
}
