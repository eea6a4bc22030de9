/** Reading item numbers out of the entry field: the text is split on commas,
    each piece is stripped, and the pieces that are then non-empty strings of
    digits become their integer values, in input order; all other pieces are
    dropped without complaint. */
module Entry {
  import opened Text

  /** `t.strip().isdigit()`: whether a piece is kept. */
  predicate Kept(token: string)
  {
    IsDigitString(Strip(token))
  }

  /** What one piece contributes: its value if it is kept, nothing otherwise. */
  function NumberOf(token: string): (nums: seq<nat>)
    ensures |nums| <= 1
  {
    if Kept(token) then [DigitsValue(Strip(token))] else []
  }

  /** The pieces' contributions, one after the other. */
  function Concatenation(tokens: seq<string>, f: string -> seq<nat>): seq<nat>
  {
    if tokens == [] then [] else f(tokens[0]) + Concatenation(tokens[1..], f)
  }

  /** `[int(t.strip()) for t in tokens if t.strip().isdigit()]`. */
  function KeepNumbers(tokens: seq<string>): seq<nat>
  {
    Concatenation(tokens, NumberOf)
  }

  /** The item numbers of one entry text. */
  function ParseItemNumbers(entry: string): seq<nat>
  {
    KeepNumbers(SplitOnCommas(entry))
  }

  lemma {:induction false} ConcatenationAppend(a: seq<string>, b: seq<string>, f: string -> seq<nat>)
    ensures Concatenation(a + b, f) == Concatenation(a, f) + Concatenation(b, f)
    decreases |a|
  {
    if a == [] {
      assert a + b == b;
    } else {
      ConcatenationAppend(a[1..], b, f);
      assert (a + b)[0] == a[0] && (a + b)[1..] == a[1..] + b;
    }
  }

  /** Filtering works piece by piece: the numbers of two runs of pieces are
      the numbers of the first run followed by those of the second, so kept
      pieces keep their input order. */
  lemma KeepAppend(a: seq<string>, b: seq<string>)
    ensures KeepNumbers(a + b) == KeepNumbers(a) + KeepNumbers(b)
  {
    ConcatenationAppend(a, b, NumberOf);
  }

  lemma {:induction false} ConcatenationSource(tokens: seq<string>, f: string -> seq<nat>, k: nat)
    requires k < |Concatenation(tokens, f)|
    ensures exists j, m :: 0 <= j < |tokens| && 0 <= m < |f(tokens[j])| && Concatenation(tokens, f)[k] == f(tokens[j])[m]
    decreases |tokens|
  {
    var head := f(tokens[0]);
    if k < |head| {
      assert Concatenation(tokens, f)[k] == f(tokens[0])[k];
    } else {
      var rest := tokens[1..];
      ConcatenationSource(rest, f, k - |head|);
      var j, m :| 0 <= j < |rest| && 0 <= m < |f(rest[j])| && Concatenation(rest, f)[k - |head|] == f(rest[j])[m];
      assert tokens[j + 1] == rest[j];
    }
  }

  /** Every number that comes out was written as a digit string in some piece. */
  lemma KeptFromSomePiece(tokens: seq<string>, k: nat)
    requires k < |KeepNumbers(tokens)|
    ensures exists j :: 0 <= j < |tokens| && Kept(tokens[j]) && KeepNumbers(tokens)[k] == DigitsValue(Strip(tokens[j]))
  {
    ConcatenationSource(tokens, NumberOf, k);
    var j, m :| 0 <= j < |tokens| && 0 <= m < |NumberOf(tokens[j])| && KeepNumbers(tokens)[k] == NumberOf(tokens[j])[m];
    var token := tokens[j];
    NumberOfKept(token);
    var v := DigitsValue(Strip(token));
    assert NumberOf(token) == [v] && m == 0;
    assert KeepNumbers(tokens)[k] == v;
  }

  /** A piece that contributes a number is kept, and contributes its value. */
  lemma NumberOfKept(token: string)
    ensures NumberOf(token) != [] <==> Kept(token)
    ensures Kept(token) ==> NumberOf(token) == [DigitsValue(Strip(token))]
  {
  }

  /** `token[i..j]` is a digit string with only whitespace around it. */
  predicate DigitCore(token: string, i: int, j: int)
  {
    0 <= i <= j <= |token| && AllSpace(token[..i]) && AllSpace(token[j..]) && IsDigitString(token[i..j])
  }

  /** The filter without `strip()`: a piece is kept exactly when it is a
      non-empty run of digits with only whitespace around it, and then it
      gives the value of that run. */
  lemma KeptCore(token: string)
    ensures Kept(token) <==> exists i, j :: DigitCore(token, i, j)
    ensures forall i, j :: DigitCore(token, i, j) ==> NumberOf(token) == [DigitsValue(token[i..j])]
  {
    forall i, j | DigitCore(token, i, j)
      ensures NumberOf(token) == [DigitsValue(token[i..j])]
    {
      var core := token[i..j];
      assert token[..i] + core + token[j..] == token;
      assert IsDigit(core[0]) && IsDigit(core[|core| - 1]);
      NumberOfPadded(token[..i], core, token[j..]);
    }
    if Kept(token) {
      StripShape(token);
      var i, j :| 0 <= i <= j <= |token| && Strip(token) == token[i..j]
                   && AllSpace(token[..i]) && AllSpace(token[j..]);
      assert DigitCore(token, i, j);
    }
  }

  /** Entries written as comma-joined pieces are read piece by piece. */
  lemma ParseJoined(tokens: seq<string>)
    requires |tokens| >= 1
    requires forall k :: 0 <= k < |tokens| ==> CommaFree(tokens[k])
    ensures ParseItemNumbers(JoinWithCommas(tokens)) == KeepNumbers(tokens)
  {
    SplitJoin(tokens);
  }

  /** A piece is judged by its text without the surrounding whitespace. */
  lemma NumberOfPadded(pre: string, core: string, post: string)
    requires AllSpace(pre) && AllSpace(post)
    requires core == [] || (!IsSpace(core[0]) && !IsSpace(core[|core| - 1]))
    ensures NumberOf(pre + core + post) == if IsDigitString(core) then [DigitsValue(core)] else []
  {
    StripSurrounded(pre, core, post);
  }

  /** The entry " 3 ,x,-3,1.5,,007": padding is ignored, and negative signs,
      decimal points, letters and empty pieces are dropped, so only " 3 " and
      "007" survive, as 3 and 7. */
  lemma ParseExample()
    ensures ParseItemNumbers(" 3 ,x,-3,1.5,,007") == [3, 7]
  {
    var tokens := [" 3 ", "x", "-3", "1.5", "", "007"];
    ExampleJoin(tokens);
    ExampleCommaFree(tokens);
    ParseJoined(tokens);
    ExampleKept(tokens);
  }

  lemma ExampleJoin(tokens: seq<string>)
    requires tokens == [" 3 ", "x", "-3", "1.5", "", "007"]
    ensures JoinWithCommas(tokens) == " 3 ,x,-3,1.5,,007"
  {
    var t5 := ["007"];
    var t4, j4 := [""] + t5, ",007";
    JoinStep("", t5, "007", j4);
    var t3, j3 := ["1.5"] + t4, "1.5,,007";
    JoinStep("1.5", t4, j4, j3);
    var t2, j2 := ["-3"] + t3, "-3,1.5,,007";
    JoinStep("-3", t3, j3, j2);
    var t1, j1 := ["x"] + t2, "x,-3,1.5,,007";
    JoinStep("x", t2, j2, j1);
    JoinStep(" 3 ", t1, j1, " 3 ,x,-3,1.5,,007");
    assert tokens == [" 3 "] + t1;
  }

  /** One more piece in front of a comma-joined run. */
  lemma JoinStep(a: string, rest: seq<string>, joined: string, result: string)
    requires |rest| >= 1 && JoinWithCommas(rest) == joined && result == a + "," + joined
    ensures JoinWithCommas([a] + rest) == result
  {
    assert ([a] + rest)[1..] == rest;
  }

  lemma ExampleKept(tokens: seq<string>)
    requires tokens == [" 3 ", "x", "-3", "1.5", "", "007"]
    ensures KeepNumbers(tokens) == [3, 7]
  {
    PaddedKept();
    BareDropped("x", 0);
    BareDropped("-3", 0);
    BareDropped("1.5", 1);
    ZerosKept();
    SixPieces(tokens, NumberOf);
  }

  lemma ExampleCommaFree(tokens: seq<string>)
    requires tokens == [" 3 ", "x", "-3", "1.5", "", "007"]
    ensures forall k :: 0 <= k < |tokens| ==> CommaFree(tokens[k])
  {
    forall k | 0 <= k < |tokens|
      ensures CommaFree(tokens[k])
    {
      assert tokens[k] in {" 3 ", "x", "-3", "1.5", "", "007"};
    }
  }

  /** Six pieces of which the first gives 3, the last 7 and the rest nothing. */
  lemma SixPieces(t: seq<string>, f: string -> seq<nat>)
    requires |t| == 6
    requires f(t[0]) == [3] && f(t[5]) == [7]
    requires f(t[1]) == [] && f(t[2]) == []
    requires f(t[3]) == [] && f(t[4]) == []
    ensures Concatenation(t, f) == [3, 7]
  {
    assert t[5..][0] == t[5] && t[5..][1..] == [];
    assert Concatenation(t[5..], f) == [7];
    assert t[4..][0] == t[4] && t[4..][1..] == t[5..];
    assert Concatenation(t[4..], f) == [7];
    assert t[3..][0] == t[3] && t[3..][1..] == t[4..];
    assert Concatenation(t[3..], f) == [7];
    assert t[2..][0] == t[2] && t[2..][1..] == t[3..];
    assert Concatenation(t[2..], f) == [7];
    assert t[1..][0] == t[1] && t[1..][1..] == t[2..];
    assert Concatenation(t[1..], f) == [7];
  }

  /** A piece without surrounding whitespace is judged as it stands. */
  lemma NumberOfBare(core: string)
    requires core == [] || (!IsSpace(core[0]) && !IsSpace(core[|core| - 1]))
    ensures NumberOf(core) == if IsDigitString(core) then [DigitsValue(core)] else []
  {
    NumberOfPadded([], core, []);
    assert [] + core + [] == core;
  }

  /** A piece with a character that is not a digit between its first and
      last non-whitespace characters is dropped, whatever whitespace
      surrounds it. */
  lemma DroppedAt(pre: string, core: string, post: string, i: nat)
    requires AllSpace(pre) && AllSpace(post)
    requires i < |core| && !IsDigit(core[i])
    requires !IsSpace(core[0]) && !IsSpace(core[|core| - 1])
    ensures NumberOf(pre + core + post) == []
  {
    NumberOfPadded(pre, core, post);
  }

  /** DroppedAt for an unpadded piece. */
  lemma BareDropped(core: string, i: nat)
    requires i < |core| && !IsDigit(core[i])
    requires !IsSpace(core[0]) && !IsSpace(core[|core| - 1])
    ensures NumberOf(core) == []
  {
    NumberOfBare(core);
  }

  /** Leading zeros do not change the value `int()` gives. */
  lemma {:induction false} LeadingZeros(zeros: string, digits: string)
    requires forall i :: 0 <= i < |zeros| ==> zeros[i] == '0'
    requires AllDigits(digits)
    ensures AllDigits(zeros + digits) && DigitsValue(zeros + digits) == DigitsValue(digits)
    decreases |digits|
  {
    if digits == [] {
      assert zeros + digits == zeros;
      assert forall i :: 0 <= i < |zeros| ==> DigitValue(zeros[i]) == 0;
      ZerosValue(zeros);
    } else {
      var init, last := digits[..|digits| - 1], digits[|digits| - 1];
      LeadingZeros(zeros, init);
      assert zeros + digits == (zeros + init) + [last];
      assert digits == init + [last];
      DigitsValueSnoc(zeros + init, last);
      DigitsValueSnoc(init, last);
    }
  }

  lemma {:induction false} ZerosValue(zeros: string)
    requires forall i :: 0 <= i < |zeros| ==> zeros[i] == '0'
    ensures AllDigits(zeros) && DigitsValue(zeros) == 0
    decreases |zeros|
  {
    if zeros != [] {
      ZerosValue(zeros[..|zeros| - 1]);
    }
  }

  // Evaluation steps for ParseExample, one piece each.
  lemma PaddedKept()
    ensures NumberOf(" 3 ") == [3]
  {
    assert " " + "3" + " " == " 3 ";
    NumberOfPadded(" ", "3", " ");
    assert DigitsValue("3") == 3;
  }

  lemma ZerosKept()
    ensures NumberOf("007") == [7]
  {
    NumberOfBare("007");
    assert "00" + "7" == "007";
    LeadingZeros("00", "7");
    assert DigitsValue("7") == 7;
  }
}
