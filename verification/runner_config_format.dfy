/** The configuration text in characters and numbers: what the reader takes, what it ignores and what it refuses. */
module RunnerConfigFormat {
  import opened RunnerConfig
  import opened RunnerConfigRoundTrip
  import opened Wrappers

  // ------------------------------------------------- the format, in full

  /** Written out: the five lines by their keys, for which the reader gives the configuration back. */
  lemma FormatIs(c: Config)
    requires Loadable(c)
    ensures Load("token=" + c.token + "\n"
                 + "input_vrs=" + Join(Decimals(c.inputs)) + "\n"
                 + "trace_names=" + Join(c.names) + "\n"
                 + "trace_vrs=" + Join(Decimals(c.traces)) + "\n"
                 + "odometry_vrs=" + Join(Decimals(c.odometry)) + "\n")
            == Some(c)
  {
    hide Load, Loadable, Join, Decimals, Write;
    ReadsBack(c);
    WriteIsFiveLines(c);
    Regrouped("token=" + c.token + "\n", "input_vrs=" + Join(Decimals(c.inputs)) + "\n",
              "trace_names=" + Join(c.names) + "\n", "trace_vrs=" + Join(Decimals(c.traces)) + "\n",
              "odometry_vrs=" + Join(Decimals(c.odometry)) + "\n");
    LinesRegroup("token=" + c.token + "\n", "input_vrs=", Join(Decimals(c.inputs)), "trace_names=", Join(c.names),
                 "trace_vrs=", Join(Decimals(c.traces)), "odometry_vrs=", Join(Decimals(c.odometry)));
    KeysAre();
  }

  lemma KeysAre()
    ensures "token=" == "token" + "=" && "input_vrs=" == "input_vrs" + "=" && "trace_names=" == NAMES_KEY + "="
    ensures "trace_vrs=" == "trace_vrs" + "=" && "odometry_vrs=" == "odometry_vrs" + "="
  {
  }

  lemma Regrouped(a: string, b: string, c: string, d: string, e: string)
    ensures a + b + c + d + e == a + (b + (c + (d + e)))
  {
  }

  lemma LinesRegroup(a: string, k: string, x: string, l: string, y: string, m: string, z: string, n: string, w: string)
    ensures a + k + x + "\n" + l + y + "\n" + m + z + "\n" + n + w + "\n"
            == a + (k + x + "\n") + (l + y + "\n") + (m + z + "\n") + (n + w + "\n")
    ensures n + w + "\n" + "" == n + w + "\n"
  {
    Appended(a, k, x);
    Appended(a + k + x + "\n", l, y);
    Appended(a + k + x + "\n" + l + y + "\n", m, z);
    Appended(a + k + x + "\n" + l + y + "\n" + m + z + "\n", n, w);
  }

  lemma Appended(a: string, k: string, x: string)
    ensures a + k + x + "\n" == a + (k + x + "\n")
  {
  }

  /** Nothing but characters that trim removes. */
  predicate Blanks(s: string) {
    forall i | 0 <= i < |s| :: s[i] == ' ' || s[i] == '\t' || s[i] == '\r' || s[i] == '\n'
  }

  /** No NUL, no newline, and something other than a blank at either end. */
  predicate Plain(s: string) {
    s != "" && !Blanks(s[..1]) && !Blanks(s[|s| - 1..]) && '\n' !in s && '\0' !in s
  }

  lemma PlainIsClean(s: string)
    ensures Plain(s) <==> Clean(s)
  {
    if s != "" {
      assert s[..1][0] == s[0] && s[|s| - 1..][0] == s[|s| - 1];
    }
  }

  /** The limits, in numbers. */
  lemma LimitsAre(c: Config)
    ensures Loadable(c)
            <==> && Plain(c.token) && |c.token| <= 255
                 && |c.inputs| == 9 && |c.odometry| == 18 && 1 <= |c.traces| <= 128 && |c.names| == |c.traces|
                 && (forall i | 0 <= i < 9 :: c.inputs[i] <= 4_294_967_295)
                 && (forall i | 0 <= i < 18 :: c.odometry[i] <= 4_294_967_295)
                 && (forall i | 0 <= i < |c.traces| :: c.traces[i] <= 4_294_967_295)
                 && (forall i | 0 <= i < |c.names| :: Plain(c.names[i]) && ',' !in c.names[i] && |c.names[i]| <= 127)
                 && |Join(c.names)| <= 16_371
  {
    forall s ensures Plain(s) <==> Clean(s) {
      PlainIsClean(s);
    }
    hide Join, Plain, Clean;
  }

  lemma {:induction false} TrimLeftCuts(s: string)
    ensures Blanks(s[..|s| - |TrimLeft(s)|])
  {
    if s != "" && IsBlank(s[0]) {
      TrimLeftCuts(s[1..]);
      var n := |s| - |TrimLeft(s)|;
      assert s[..n] == [s[0]] + s[1..][..n - 1];
    }
  }

  lemma {:induction false} TrimRightCuts(s: string)
    ensures Blanks(s[|TrimRight(s)|..])
  {
    if s != "" && IsBlank(s[|s| - 1]) {
      var t := s[..|s| - 1];
      TrimRightCuts(t);
      assert s[|TrimRight(s)|..] == t[|TrimRight(t)|..] + [s[|s| - 1]];
    }
  }

  /** trim cuts off blanks, tabs, returns and newlines at both ends, and leaves none there. */
  lemma TrimIs(s: string) returns (front: string, back: string)
    ensures s == front + Trim(s) + back && Blanks(front) && Blanks(back)
    ensures Trim(s) != "" ==> !Blanks(Trim(s)[..1]) && !Blanks(Trim(s)[|Trim(s)| - 1..])
  {
    var t, r := TrimLeft(s), Trim(s);
    TrimLeftCuts(s);
    TrimRightCuts(t);
    front, back := s[..|s| - |t|], t[|r|..];
    Cut(s, t, r);
    hide TrimLeft, TrimRight, Trim;
    if r != "" {
      assert r[..1][0] == r[0] && r[|r| - 1..][0] == r[|r| - 1];
    }
  }

  lemma Cut(s: string, t: string, r: string)
    requires |t| <= |s| && t == s[|s| - |t|..] && |r| <= |t| && r == t[..|r|]
    ensures s == s[..|s| - |t|] + r + t[|r|..]
  {
    assert t == r + t[|r|..];
  }

  lemma Signed(digits: string, sign: string)
    requires digits != "" && AllDigits(digits) && (sign == "" || sign == "+" || sign == "-")
    ensures Clean(sign + digits) && SkipSpace(sign + digits) == sign + digits
    ensures sign != "" ==> (sign + digits)[0] == sign[0] && (sign + digits)[1..] == digits
    ensures digits[0] != '+' && digits[0] != '-'
  {
    var s := sign + digits;
    assert IsDigit(digits[0]) && IsDigit(digits[|digits| - 1]) && s[|s| - 1] == digits[|digits| - 1];
    assert forall i | 0 <= i < |digits| :: IsDigit(digits[i]);
  }

  lemma StrtoulOfSigned(digits: string, sign: string)
    requires digits != "" && AllDigits(digits) && (sign == "" || sign == "+" || sign == "-")
    ensures var v := ValueOf(digits);
            Strtoul(sign + digits)
            == if v >= ULONG_RANGE then OutOfRange
               else Converted(if sign == "-" then (ULONG_RANGE - v) % ULONG_RANGE else v, "")
  {
    hide ValueOf, DigitRun, SkipSpace, Clean;
    Signed(digits, sign);
    DigitRunOfDigits(digits);
    assert digits[..|digits|] == digits && digits[|digits|..] == "";
    if sign == "" {
      assert sign + digits == digits;
    }
  }

  lemma Complement(v: nat)
    requires v < ULONG_RANGE
    ensures (ULONG_RANGE - v) % ULONG_RANGE == if v == 0 then 0 else ULONG_RANGE - v
  {
  }

  lemma SignedValue(digits: string, sign: string)
    requires digits != "" && AllDigits(digits) && (sign == "" || sign == "+" || sign == "-")
    ensures var v := ValueOf(digits);
            ItemValue(sign + digits)
            == if v >= ULONG_RANGE then None
               else
                 var w := if sign == "-" && v != 0 then ULONG_RANGE - v else v;
                 if w <= UINT32_MAX then Some(w) else None
  {
    hide ValueOf, Strtoul, Trim, Clean, SkipSpace;
    Signed(digits, sign);
    StrtoulOfSigned(digits, sign);
    TrimClean(sign + digits);
    TrimClean("");
    if ValueOf(digits) < ULONG_RANGE {
      Complement(ValueOf(digits));
    }
  }

  /** A reference may carry a sign, and a minus counts down from 2^64: of the negative numbers those from -(2^64 - 1) to
      -(2^64 - 2^32 + 1) are accepted too, as 1 to 2^32 - 1. */
  lemma SignedItem(digits: string)
    requires digits != "" && AllDigits(digits)
    ensures var v := ValueOf(digits);
            && ItemValue(digits) == ItemValue("+" + digits) == (if v <= 0xFFFF_FFFF then Some(v) else None)
            && ItemValue("-" + digits)
               == (if v == 0 then Some(0)
                   else if 0xFFFF_FFFF_0000_0001 <= v <= 0xFFFF_FFFF_FFFF_FFFF
                   then Some(0x1_0000_0000_0000_0000 - v)
                   else None)
  {
    SignedValue(digits, "");
    SignedValue(digits, "+");
    SignedValue(digits, "-");
    hide ValueOf, ItemValue;
    assert "" + digits == digits;
  }

  predicate OtherKey(key: string) {
    key != "token" && key != "input_vrs" && key != "trace_vrs" && key != "trace_names" && key != "odometry_vrs"
  }

  /** A line without an equals sign, or with another key, changes nothing. */
  lemma OtherLine(c: Config, line: string, rest: string)
    requires '\n' !in line && '\0' !in line && |line| <= 16_382
    requires '=' in line ==> OtherKey(Trim(line[..IndexOf(line, '=')]))
    ensures ReadLines(c, line + "\n" + rest) == ReadLines(c, rest)
  {
    hide Trim, ReadLine, OtherKey;
    var text, whole := line + "\n" + rest, line + "\n";
    IndexOfIs(line, '\n', "\n" + rest);
    assert text == line + ("\n" + rest);
    assert text[..|whole|] == whole && text[|whole|..] == rest;
    assert ChunkLength(text) == |whole|;
    IndexOfIs(whole, '\0', "");
    assert whole + "" == whole && whole[..|whole|] == whole;
    if '=' in line {
      ReadOtherKey(c, line);
    } else {
      ReadNoKey(c, whole);
    }
  }

  lemma ReadNoKey(c: Config, line: string)
    requires '=' !in line
    ensures ReadLine(c, line) == Some(c)
  {
    hide Trim, Assign;
    IndexOfIs(line, '=', "");
    assert line + "" == line;
  }

  lemma KeyIs(line: string)
    requires '=' in line
    ensures IndexOf(line + "\n", '=') == IndexOf(line, '=') < |line|
    ensures (line + "\n")[..IndexOf(line, '=')] == line[..IndexOf(line, '=')]
  {
    var n := IndexOf(line, '=');
    assert n < |line| && line[n] == '=' && forall i | 0 <= i < n :: line[i] != '=';
    var whole := line + "\n";
    assert forall i | 0 <= i < n :: whole[i] == line[i];
    assert whole[n] == '=';
  }

  lemma ReadOtherKey(c: Config, line: string)
    requires '=' in line && OtherKey(Trim(line[..IndexOf(line, '=')]))
    ensures ReadLine(c, line + "\n") == Some(c)
  {
    hide Trim, ParseVrs, ParseNames;
    KeyIs(line);
    hide IndexOf;
  }

  // ------------------------------------------------ blanks, junk and words

  lemma {:induction false} TrimLeftPadded(front: string, rest: string)
    requires Blanks(front) && (rest == "" || !IsBlank(rest[0]))
    ensures TrimLeft(front + rest) == rest
  {
    if front == "" {
      assert front + rest == rest;
    } else {
      var all := front + rest;
      assert all[0] == front[0] && all[1..] == front[1..] + rest;
      TrimLeftPadded(front[1..], rest);
    }
  }

  lemma {:induction false} TrimRightPadded(rest: string, back: string)
    requires Blanks(back) && (rest == "" || !IsBlank(rest[|rest| - 1]))
    ensures TrimRight(rest + back) == rest
  {
    if back == "" {
      assert rest + back == rest;
    } else {
      var all, n := rest + back, |back| - 1;
      assert all[|all| - 1] == back[n] && all[..|all| - 1] == rest + back[..n];
      TrimRightPadded(rest, back[..n]);
    }
  }

  lemma TrimPadded(front: string, s: string, back: string)
    requires Blanks(front) && Clean(s) && Blanks(back)
    ensures Trim(front + s + back) == s
  {
    hide TrimLeft, TrimRight;
    assert (s + back)[0] == s[0] && front + s + back == front + (s + back);
    TrimLeftPadded(front, s + back);
    TrimRightPadded(s, back);
  }

  /** Blanks around a key and its value do not matter, so neither does a return before the newline. */
  lemma PaddedLine(c: Config, a: string, key: string, b: string, d: string, value: string, e: string)
    requires Blanks(a) && Blanks(b) && Blanks(d) && Blanks(e) && Clean(key) && Clean(value) && '=' !in key
    ensures ReadLine(c, a + key + b + "=" + d + value + e) == Assign(c, key, value)
  {
    hide Assign, Trim;
    var front, back := a + key + b, d + value + e;
    var line := front + "=" + back;
    TrimPadded(a, key, b);
    TrimPadded(d, value, e);
    assert '=' !in front by { NoEquals(a, key, b); }
    assert a + key + b + "=" + d + value + e == line;
    IndexOfIs(front, '=', "=" + back);
    assert front + ("=" + back) == line && line[..|front|] == front && line[|front| + 1..] == back;
  }

  lemma NoEquals(a: string, key: string, b: string)
    requires Blanks(a) && Blanks(b) && '=' !in key
    ensures '=' !in a + key + b
  {
  }

  lemma {:induction false} SkipsAll(space: string, s: string)
    requires forall i | 0 <= i < |space| ::
               space[i] == ' ' || '\t' == space[i] || '\n' == space[i] || space[i] == '\U{000B}'
               || space[i] == '\U{000C}' || '\r' == space[i]
    ensures SkipSpace(space + s) == SkipSpace(s)
  {
    if space == "" {
      assert space + s == s;
    } else {
      var all := space + s;
      assert all[0] == space[0] && all[1..] == space[1..] + s;
      SkipsAll(space[1..], s);
    }
  }

  /** strtoul skips blanks, tabs, newlines, vertical tabs, form feeds and returns. */
  lemma SkipsSpace(space: string, s: string)
    requires forall i | 0 <= i < |space| ::
               space[i] == ' ' || '\t' == space[i] || '\n' == space[i] || space[i] == '\U{000B}'
               || space[i] == '\U{000C}' || '\r' == space[i]
    ensures Strtoul(space + s) == Strtoul(s)
  {
    SkipsAll(space, s);
  }

  lemma {:induction false} DigitRunStops(digits: string, junk: string)
    requires AllDigits(digits) && (junk == "" || !IsDigit(junk[0]))
    ensures DigitRun(digits + junk) == |digits|
  {
    if digits == "" {
      assert digits + junk == junk;
    } else {
      var all := digits + junk;
      assert all[0] == digits[0] && all[1..] == digits[1..] + junk;
      DigitRunStops(digits[1..], junk);
    }
  }

  lemma StrtoulOfRun(digits: string, junk: string)
    requires digits != "" && AllDigits(digits) && junk != "" && !IsDigit(junk[0])
    ensures Strtoul(digits + junk).OutOfRange? || Strtoul(digits + junk) == Converted(ValueOf(digits), junk)
  {
    hide ValueOf, DigitRun;
    var item := digits + junk;
    assert item[0] == digits[0] && IsDigit(digits[0]);
    DigitRunStops(digits, junk);
    assert item[..|digits|] == digits && item[|digits|..] == junk;
  }

  lemma KeepsEnds(s: string)
    requires s != "" && !IsBlank(s[0]) && !IsBlank(s[|s| - 1])
    ensures Trim(s) == s
  {
  }

  /** Digits with anything but blanks after them are refused, */
  lemma JunkIsRefused(digits: string, junk: string)
    requires digits != "" && AllDigits(digits) && junk != "" && !IsDigit(junk[0]) && !IsBlank(junk[|junk| - 1])
    ensures ItemValue(digits + junk) == None
  {
    hide Strtoul, Trim, ValueOf;
    var item := digits + junk;
    assert item[0] == digits[0] && IsDigit(digits[0]) && item[|item| - 1] == junk[|junk| - 1];
    KeepsEnds(item);
    StrtoulOfRun(digits, junk);
    TrimIsSome(junk);
  }

  lemma TrimIsSome(s: string)
    requires s != "" && !IsBlank(s[|s| - 1])
    ensures Trim(s) != ""
  {
    NotAllBlank(s);
  }

  lemma {:induction false} NotAllBlank(s: string)
    requires s != "" && !IsBlank(s[|s| - 1])
    ensures TrimLeft(s) != "" && TrimRight(TrimLeft(s)) == TrimLeft(s)
  {
    if IsBlank(s[0]) {
      NotAllBlank(s[1..]);
    }
  }

  /** and so is whatever starts, after blanks, with anything but a digit, a sign or space. */
  lemma WordIsRefused(front: string, word: string)
    requires Blanks(front) && word != "" && !IsBlank(word[|word| - 1])
    requires !IsDigit(word[0]) && word[0] != '+' && word[0] != '-' && !IsSpace(word[0])
    ensures ItemValue(front + word) == None
  {
    hide Strtoul, TrimLeft, TrimRight;
    TrimLeftPadded(front, word);
    TrimRightPadded(word, "");
    assert word + "" == word;
    NoDigitsIn(word);
  }

  lemma NoDigitsIn(word: string)
    requires word != "" && !IsDigit(word[0]) && word[0] != '+' && word[0] != '-' && !IsSpace(word[0])
    ensures Strtoul(word) == NoDigits
  {
    hide ValueOf;
    assert DigitRun(word) == 0;
  }
}
