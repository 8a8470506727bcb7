/** Which texts are read as a time of day, and as which: two numbers around one colon. */
module SlotText {
  import opened Wrappers
  import opened Scheduling

  // Digits, with single underscores between them.
  ghost predicate IsNumeral(t: string) {
    && t != "" && '0' <= t[0] <= '9' && '0' <= t[|t| - 1] <= '9'
    && (forall i | 0 <= i < |t| :: '0' <= t[i] <= '9' || t[i] == '_')
    && (forall i | 0 <= i < |t| - 1 :: t[i] != '_' || t[i + 1] != '_')
  }

  // The decimal value of the digits, from the left.
  function Decimal(t: string, sofar: nat): nat {
    if t == "" then sofar
    else if '0' <= t[0] <= '9' then Decimal(t[1..], 10 * sofar + (t[0] as int - '0' as int))
    else Decimal(t[1..], sofar)
  }

  lemma {:induction false} DecimalLast(t: string, sofar: nat)
    requires t != ""
    ensures var n := |t| - 1;
            Decimal(t, sofar) == if '0' <= t[n] <= '9' then 10 * Decimal(t[..n], sofar) + (t[n] as int - '0' as int)
                                 else Decimal(t[..n], sofar)
  {
    var n := |t| - 1;
    if n == 0 {
      assert t[1..] == "" && t[..0] == "";
    } else {
      assert t[1..][..n - 1] == t[..n][1..] && t[1..][n - 1] == t[n];
      DecimalLast(t[1..], if '0' <= t[0] <= '9' then 10 * sofar + (t[0] as int - '0' as int) else sofar);
    }
  }

  lemma {:induction false} DigitsRead(t: string)
    ensures Digits(t).Some? <==> IsNumeral(t)
    ensures Digits(t).Some? ==> Digits(t).value == Decimal(t, 0)
  {
    if t != "" && IsDigit(t[|t| - 1]) && |t| > 1 {
      var n := |t| - 1;
      DecimalLast(t, 0);
      if t[n - 1] == '_' {
        DigitsRead(t[..n - 1]);
        DecimalLast(t[..n], 0);
        assert t[..n][..n - 1] == t[..n - 1];
        NumeralFront(t, t[..n - 1]);
      } else {
        DigitsRead(t[..n]);
        NumeralFront(t, t[..n]);
      }
    } else if |t| == 1 {
      assert t[1..] == "";
    }
  }

  lemma NumeralFront(t: string, front: string)
    requires |t| > 1 && IsDigit(t[|t| - 1])
    requires front == if t[|t| - 2] == '_' then t[..|t| - 2] else t[..|t| - 1]
    ensures IsNumeral(t) <==> IsNumeral(front)
  {
    var n := |t| - 1;
    if IsNumeral(front) {
      forall i | 0 <= i < |t| ensures '0' <= t[i] <= '9' || t[i] == '_' { if i < |front| { assert t[i] == front[i]; } }
      forall i | 0 <= i < n ensures t[i] != '_' || t[i + 1] != '_' {
        if i + 1 < |front| { assert t[i] == front[i] && t[i + 1] == front[i + 1]; }
        if i < |front| { assert t[i] == front[i]; }
      }
      assert t[0] == front[0];
    }
    if IsNumeral(t) {
      forall i | 0 <= i < |front| ensures front[i] == t[i] {}
    }
  }

  // The characters int() strips.
  predicate IsBlank(c: char) {
    c in " \t\n\U{b}\U{c}\r\U{1c}\U{1d}\U{1e}\U{1f}"
  }

  // Blanks, a sign or none, a numeral, blanks.
  ghost predicate Reads(s: string, v: int) {
    exists before, sign, t, after: string ::
      && s == before + sign + t + after && (forall c | c in before + after :: IsBlank(c))
      && (sign == "" || sign == "+" || sign == "-") && IsNumeral(t)
      && v == if sign == "-" then 0 - Decimal(t, 0) else Decimal(t, 0)
  }

  lemma BlankIsSpace(c: char)
    ensures IsBlank(c) <==> IsSpace(c)
  {
  }

  lemma {:induction false} LeftStripped(s: string) returns (before: string)
    ensures s == before + StripLeft(s) && (forall c | c in before :: IsSpace(c))
    ensures StripLeft(s) == "" || !IsSpace(StripLeft(s)[0])
  {
    if s != "" && IsSpace(s[0]) {
      var rest := LeftStripped(s[1..]);
      before := [s[0]] + rest;
    } else {
      before := "";
    }
  }

  lemma {:induction false} RightStripped(s: string) returns (after: string)
    ensures s == StripRight(s) + after && (forall c | c in after :: IsSpace(c))
    ensures StripRight(s) == "" || !IsSpace(StripRight(s)[|StripRight(s)| - 1])
    ensures |StripRight(s)| <= |s|
  {
    if s != "" && IsSpace(s[|s| - 1]) {
      var rest := RightStripped(s[..|s| - 1]);
      after := rest + [s[|s| - 1]];
    } else {
      after := "";
    }
  }

  lemma {:induction false} StripsLeft(before: string, t: string)
    requires (forall c | c in before :: IsSpace(c)) && t != "" && !IsSpace(t[0])
    ensures StripLeft(before + t) == t
  {
    if before == "" {
      assert before + t == t;
    } else {
      assert (before + t)[1..] == before[1..] + t;
      StripsLeft(before[1..], t);
    }
  }

  lemma {:induction false} StripsRight(t: string, after: string)
    requires (forall c | c in after :: IsSpace(c)) && t != "" && !IsSpace(t[|t| - 1])
    ensures StripRight(t + after) == t
  {
    if after == "" {
      assert t + after == t;
    } else {
      assert (t + after)[..|t + after| - 1] == t + after[..|after| - 1];
      assert (t + after)[|t + after| - 1] == after[|after| - 1] && after[|after| - 1] in after;
      StripsRight(t, after[..|after| - 1]);
    }
  }

  lemma SignedNumeral(sign: string, t: string)
    requires (sign == "" || sign == "+" || sign == "-") && IsNumeral(t)
    ensures var u := sign + t;
            && u != "" && !IsSpace(u[0]) && !IsSpace(u[|u| - 1])
            && (sign == "" ==> u == t && u[0] != '-' && u[0] != '+')
            && (sign != "" ==> u[0] == sign[0] && u[1..] == t)
  {
    var u := sign + t;
    assert u[|u| - 1] == t[|t| - 1];
  }

  lemma NumberIsRead(before: string, sign: string, t: string, after: string)
    requires (forall c | c in before + after :: IsBlank(c)) && IsNumeral(t)
    requires sign == "" || sign == "+" || sign == "-"
    ensures ParseInt(before + sign + t + after) == Some(if sign == "-" then 0 - Decimal(t, 0) else Decimal(t, 0))
  {
    hide IsNumeral, IsBlank, IsSpace, Digits, Decimal, StripLeft, StripRight;
    forall c: char ensures IsBlank(c) <==> IsSpace(c) { BlankIsSpace(c); }
    forall c | c in before || c in after ensures IsSpace(c) { assert c in before + after; }
    var u := sign + t;
    SignedNumeral(sign, t);
    assert before + sign + t + after == before + (u + after);
    StripsLeft(before, u + after);
    StripsRight(u, after);
    DigitsRead(t);
  }

  lemma ParsedNumberReads(s: string)
    requires ParseInt(s).Some?
    ensures Reads(s, ParseInt(s).value)
  {
    hide IsNumeral, IsBlank, IsSpace, Digits, Decimal, StripLeft, StripRight;
    forall c: char ensures IsBlank(c) <==> IsSpace(c) { BlankIsSpace(c); }
    var before := LeftStripped(s);
    var after := RightStripped(StripLeft(s));
    var u := StripRight(StripLeft(s));
    var signed := u != "" && (u[0] == '-' || u[0] == '+');
    var sign, t := if signed then [u[0]] else "", if signed then u[1..] else u;
    DigitsRead(t);
    assert u == sign + t && s == before + sign + t + after;
    assert forall c | c in before + after :: IsBlank(c);
  }

  /** Which texts int() reads, and as what. */
  lemma ParseIntReads(s: string, v: int)
    ensures ParseInt(s) == Some(v) <==> Reads(s, v)
  {
    hide IsNumeral, IsBlank, ParseInt, Decimal;
    if Reads(s, v) {
      var before, sign, t, after: string :|
        && s == before + sign + t + after && (forall c | c in before + after :: IsBlank(c))
        && (sign == "" || sign == "+" || sign == "-") && IsNumeral(t)
        && v == if sign == "-" then 0 - Decimal(t, 0) else Decimal(t, 0);
      NumberIsRead(before, sign, t, after);
    }
    hide Reads;
    if ParseInt(s) == Some(v) { ParsedNumberReads(s); }
  }

  /** Which slots of a profile are read, and as which minute of the day: an hour and a
      minute around one colon, both in range. */
  lemma ParseSlotReads(value: string, m: int)
    ensures ParseSlot(value) == Some(m) <==>
            exists a, b: string, hour, minute: int ::
              && value == a + ":" + b && ':' !in a && ':' !in b && Reads(a, hour) && Reads(b, minute)
              && 0 <= hour <= 23 && 0 <= minute <= 59 && m == 60 * hour + minute
  {
    hide ParseInt, Reads, Split;
    if ParseSlot(value) == Some(m) {
      var parts := Split(value, ':');
      TwoParts(value);
      ParseIntReads(parts[0], ParseInt(parts[0]).value);
      ParseIntReads(parts[1], ParseInt(parts[1]).value);
    }
    if a, b: string, hour, minute: int :|
      && value == a + ":" + b && ':' !in a && ':' !in b && Reads(a, hour) && Reads(b, minute)
      && 0 <= hour <= 23 && 0 <= minute <= 59 && m == 60 * hour + minute
    {
      SplitFirst(b, ':', "");
      SplitFirst(a, ':', b);
      ParseIntReads(a, hour);
      ParseIntReads(b, minute);
    }
  }

  // A text that splits in two is its parts around the one separator.
  lemma TwoParts(value: string)
    ensures |Split(value, ':')| == 2 ==>
              var parts := Split(value, ':');
              value == parts[0] + ":" + parts[1] && ':' !in parts[0] && ':' !in parts[1]
  {
    SplitJoins(value);
    if ':' in value {
      var a, b := FirstColon(value);
      SplitFirst(a, ':', b);
      SplitJoins(b);
      assert value == a + [':'] + b;
    }
  }

  lemma {:induction false} FirstColon(s: string) returns (a: string, b: string)
    requires ':' in s
    ensures s == a + ":" + b && ':' !in a
  {
    if s[0] == ':' {
      a, b := "", s[1..];
    } else {
      a, b := FirstColon(s[1..]);
      a := [s[0]] + a;
    }
  }

  lemma {:induction false} SplitJoins(s: string)
    ensures |Split(s, ':')| >= 1 && (':' !in s ==> Split(s, ':') == [s])
    ensures |Split(s, ':')| == 1 ==> ':' !in s
  {
    if s != "" {
      SplitJoins(s[1..]);
      assert s == [s[0]] + s[1..];
    }
  }
}
