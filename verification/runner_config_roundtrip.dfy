/** Reading back what was written: a configuration survives exactly when it lies within the limits of the reader. */
module RunnerConfigRoundTrip {
  import opened RunnerConfig
  import opened Wrappers

  const NAMES_KEY := "trace_names"
  const NAMES_ROOM := LINE_SIZE - 2 - |NAMES_KEY|

  /** Text that a line, a trim and a C string all leave alone. */
  predicate Clean(s: string) {
    s != "" && !IsBlank(s[0]) && !IsBlank(s[|s| - 1]) && '\n' !in s && '\0' !in s
  }

  predicate Name(s: string) {
    Clean(s) && ',' !in s && |s| < MAX_NAME_LEN
  }

  predicate References(vrs: seq<nat>) {
    |vrs| <= MAX_FMI_VALUES && forall i | 0 <= i < |vrs| :: vrs[i] <= UINT32_MAX
  }

  predicate Names(names: seq<string>) {
    forall i | 0 <= i < |names| :: Name(names[i])
  }

  predicate NameList(names: seq<string>) {
    |names| <= MAX_FMI_VALUES && Names(names) && |Join(names)| <= NAMES_ROOM
  }

  /** The configurations that load_config can produce. */
  predicate Loadable(c: Config) {
    Consistent(c) && Within(c)
  }

  predicate Within(c: Config) {
    (c.token == "" || Clean(c.token)) && |c.token| < TOKEN_SIZE
    && References(c.inputs) && References(c.traces) && References(c.odometry) && NameList(c.names)
  }

  // ---------------------------------------------------------------- numbers

  predicate AllDigits(s: string) {
    forall i | 0 <= i < |s| :: IsDigit(s[i])
  }

  lemma ValueOfMore(s: string, d: nat)
    requires AllDigits(s) && d < 10
    ensures AllDigits(s + [Digit(d)]) && ValueOf(s + [Digit(d)]) == 10 * ValueOf(s) + d
  {
    DigitIs(d);
    hide Digit;
    assert (s + [Digit(d)])[..|s|] == s;
  }

  lemma DigitIs(d: nat)
    requires d < 10
    ensures IsDigit(Digit(d)) && DigitValue(Digit(d)) == d
  {
  }

  /** str and the digits of strtoul are inverse. */
  lemma {:induction false} DecimalValue(n: nat)
    ensures AllDigits(Decimal(n)) && ValueOf(Decimal(n)) == n
  {
    hide Digit, ValueOf;
    ValueOfNone();
    if n >= 10 {
      DecimalValue(n / 10);
      ValueOfMore(Decimal(n / 10), n % 10);
    } else {
      ValueOfMore("", n);
      assert "" + [Digit(n)] == [Digit(n)];
    }
  }

  lemma ValueOfNone()
    ensures ValueOf("") == 0
  {
  }

  function PowerOfTen(k: nat): nat {
    if k == 0 then 1 else 10 * PowerOfTen(k - 1)
  }

  lemma {:induction false} DecimalLength(n: nat, k: nat)
    requires 0 < k && n < PowerOfTen(k)
    ensures |Decimal(n)| <= k
  {
    if n >= 10 {
      assert PowerOfTen(1) == 10;
      DecimalLength(n / 10, k - 1);
    }
  }

  lemma {:induction false} DigitRunOfDigits(s: string)
    requires AllDigits(s)
    ensures DigitRun(s) == |s|
  {
    if s != [] {
      DigitRunOfDigits(s[1..]);
    }
  }

  lemma DecimalIsClean(n: nat)
    requires n <= UINT32_MAX
    ensures Name(Decimal(n)) && |Decimal(n)| <= 10
  {
    DecimalValue(n);
    assert PowerOfTen(10) == 10_000_000_000;
    DecimalLength(n, 10);
  }

  lemma TrimClean(s: string)
    requires Clean(s) || s == ""
    ensures Trim(s) == s
  {
  }

  lemma StrtoulOfDigits(s: string)
    requires s != "" && AllDigits(s) && ValueOf(s) < ULONG_RANGE
    ensures Strtoul(s) == Converted(ValueOf(s), "")
  {
    assert IsDigit(s[0]);
    DigitRunOfDigits(s);
    assert s[..|s|] == s && s[|s|..] == "";
  }

  /** strtoul reads back what str printed. */
  lemma ItemRoundTrip(n: nat)
    requires n <= UINT32_MAX
    ensures ItemValue(Decimal(n)) == Some(n)
  {
    hide Decimal, Trim, ValueOf, DigitRun, TrimLeft, TrimRight;
    var s := Decimal(n);
    DecimalIsClean(n);
    DecimalValue(n);
    TrimClean(s);
    TrimClean("");
    StrtoulOfDigits(s);
  }

  lemma {:induction false} ValuesRoundTrip(ns: seq<nat>)
    requires forall i | 0 <= i < |ns| :: ns[i] <= UINT32_MAX
    ensures Values(Decimals(ns)) == Some(ns)
  {
    hide ItemValue, Decimal;
    if ns != [] {
      ItemRoundTrip(ns[0]);
      ValuesRoundTrip(ns[1..]);
      assert Decimals(ns)[1..] == Decimals(ns[1..]);
      assert [ns[0]] + ns[1..] == ns;
    }
  }

  // ------------------------------------------------------------------ lists

  lemma IndexOfIs(a: string, c: char, b: string)
    requires c !in a && (b == "" || b[0] == c)
    ensures IndexOf(a + b, c) == |a|
  {
    assert forall i | 0 <= i < |a| :: (a + b)[i] in a;
    assert b != "" ==> (a + b)[|a|] == c;
  }

  lemma {:induction false} JoinClean(items: seq<string>)
    requires items != [] && Names(items)
    ensures Clean(Join(items))
  {
    var a := items[0];
    assert Name(a);
    if |items| > 1 {
      var tail := Join(items[1..]);
      JoinClean(items[1..]);
      var all := a + "," + tail;
      assert all[0] == a[0] && all[|all| - 1] == tail[|tail| - 1];
    }
  }

  /** Splitting at commas undoes joining with commas. */
  lemma {:induction false} TokensOfJoin(items: seq<string>)
    requires Names(items)
    ensures Tokens(Join(items)) == items
  {
    if |items| == 1 {
      assert Name(items[0]);
      IndexOfIs(items[0], ',', "");
      assert items[0] + "" == items[0];
      assert items[0][|items[0]|..] == "";
    } else if items != [] {
      var a, tail := items[0], Join(items[1..]);
      assert Name(a);
      TokensOfJoin(items[1..]);
      IndexOfIs(a, ',', "," + tail);
      assert a + "," + tail == a + ("," + tail);
      assert Join(items)[..|a|] == a && Join(items)[|a|..] == "," + tail;
      assert ("," + tail)[1..] == tail;
      assert [a] + items[1..] == items;
    }
  }

  /** Strings without commas: the items of a list. */
  predicate CommaFree(items: seq<string>) {
    forall i | 0 <= i < |items| :: ',' !in items[i]
  }

  function NonEmpty(items: seq<string>): seq<string> {
    if items == [] then [] else (if items[0] == "" then [] else [items[0]]) + NonEmpty(items[1..])
  }

  /** Splitting any list at commas gives its items in order, but the empty ones vanish. */
  lemma {:induction false} TokensOfAnyJoin(items: seq<string>)
    requires CommaFree(items)
    ensures Tokens(Join(items)) == NonEmpty(items)
  {
    if items == [] {
    } else if |items| == 1 {
      OneToken(items[0], "");
      assert items[0] + "" == items[0] && items[1..] == [];
    } else {
      var a, tail := items[0], Join(items[1..]);
      TokensOfAnyJoin(items[1..]);
      OneToken(a, "," + tail);
      assert a + "," + tail == a + ("," + tail);
      assert ("," + tail)[1..] == tail;
    }
  }

  lemma OneToken(item: string, rest: string)
    requires ',' !in item && (rest == "" || rest[0] == ',')
    ensures Tokens(item + rest) == (if item == "" then [] else [item]) + Tokens(rest)
  {
    var all := item + rest;
    IndexOfIs(item, ',', rest);
    assert all[..|item|] == item && all[|item|..] == rest;
    if item == "" {
      assert all == rest;
    } else {
      assert all[0] == item[0];
    }
  }

  lemma {:induction false} JoinLength(items: seq<string>, most: nat)
    requires forall i | 0 <= i < |items| :: |items[i]| <= most
    ensures |Join(items)| <= |items| * (most + 1)
  {
    if items != [] {
      JoinLength(items[1..], most);
      assert |items| * (most + 1) == (most + 1) + (|items| - 1) * (most + 1);
    }
  }

  lemma VrsRoundTrip(ns: seq<nat>)
    requires References(ns) && ns != []
    ensures ParseVrs(Join(Decimals(ns))) == Some(ns)
    ensures Clean(Join(Decimals(ns))) && |Join(Decimals(ns))| <= 1408
  {
    hide ItemValue, Values, Decimal, Tokens;
    var items := Decimals(ns);
    forall i | 0 <= i < |items|
      ensures Name(items[i]) && |items[i]| <= 10
    {
      DecimalIsClean(ns[i]);
    }
    TokensOfJoin(items);
    ValuesRoundTrip(ns);
    JoinClean(items);
    JoinLength(items, 10);
  }

  lemma NamesRoundTrip(names: seq<string>)
    requires names != [] && |names| <= MAX_FMI_VALUES && Names(names)
    ensures ParseNames(Join(names)) == Some(names) && Clean(Join(names))
  {
    hide Tokens, Trim, Join;
    TokensOfJoin(names);
    JoinClean(names);
    forall i | 0 <= i < |names|
      ensures Trim(names[i]) == names[i] && NameFits(names[i])
    {
      assert Name(names[i]);
      TrimClean(names[i]);
    }
    assert Trimmed(names) == names;
  }

  // ------------------------------------------------------------------ lines

  lemma TrimBeforeNewline(s: string)
    requires Clean(s)
    ensures Trim(s + "\n") == s
  {
    var line := s + "\n";
    assert line[0] == s[0] && TrimLeft(line) == line;
    assert line[..|s|] == s && line[|line| - 1] == '\n';
    assert TrimRight(line) == TrimRight(s);
  }

  /** A written line is taken apart into the key and the value it was made of. */
  lemma LineParts(c: Config, key: string, value: string, end: string)
    requires Clean(key) && '=' !in key && Clean(value) && (end == "" || end == "\n")
    ensures ReadLine(c, CString(key + "=" + value + end)) == Assign(c, key, value)
  {
    hide Assign, Trim, Tokens;
    var line := key + "=" + value + end;
    IndexOfIs(line, '\0', "");
    assert line + "" == line && line[..|line|] == line;
    IndexOfIs(key, '=', "=" + value + end);
    assert key + ("=" + value + end) == line;
    assert line[..|key|] == key && line[|key| + 1..] == value + end;
    TrimClean(key);
    if end == "" {
      assert value + "" == value;
      TrimClean(value);
    } else {
      TrimBeforeNewline(value);
    }
  }

  /** fgets takes a line that fits its buffer whole, or all but its newline. */
  lemma OneLine(c: Config, key: string, value: string, rest: string)
    requires Clean(key) && '=' !in key && Clean(value) && |key| + 1 + |value| < LINE_SIZE
    ensures var next := Assign(c, key, value);
            ReadLines(c, key + "=" + value + "\n" + rest) == if next.None? then None else ReadLines(next.value, rest)
  {
    hide Assign, Trim, ReadLine;
    var line := key + "=" + value;
    var text := line + "\n" + rest;
    assert key + "=" + value + "\n" + rest == text;
    assert '\n' !in line;
    IndexOfIs(line, '\n', "\n" + rest);
    assert line + ("\n" + rest) == text;
    if |line| + 1 < LINE_SIZE {
      assert ChunkLength(text) == |line| + 1;
      assert text[..|line| + 1] == line + "\n" && text[|line| + 1..] == rest;
      LineParts(c, key, value, "\n");
    } else {
      assert ChunkLength(text) == |line|;
      assert text[..|line|] == line && text[|line|..] == "\n" + rest;
      assert line + "" == line;
      LineParts(c, key, value, "");
      var next := Assign(c, key, value);
      if next.Some? {
        LoneNewline(next.value, rest);
      }
    }
  }

  lemma LoneNewline(c: Config, rest: string)
    ensures ReadLines(c, "\n" + rest) == ReadLines(c, rest)
  {
    var text := "\n" + rest;
    assert text[..1] == "\n" && text[1..] == rest;
    assert ChunkLength(text) == 1;
  }

  /** Every configuration within the limits is read back as it was written. */
  lemma ReadsBack(c: Config)
    requires Loadable(c)
    ensures Load(Write(c)) == Some(c)
  {
    hide Join, ParseVrs, ParseNames, ReadLines, Decimal, Decimals;
    var inputs, traces := Join(Decimals(c.inputs)), Join(Decimals(c.traces));
    var names, odometry := Join(c.names), Join(Decimals(c.odometry));
    VrsRoundTrip(c.inputs);
    VrsRoundTrip(c.traces);
    VrsRoundTrip(c.odometry);
    NamesRoundTrip(c.names);
    WriteIsFiveLines(c);
    var t5 := "";
    var t4 := "odometry_vrs" + "=" + odometry + "\n" + t5;
    var t3 := "trace_vrs" + "=" + traces + "\n" + t4;
    var t2 := NAMES_KEY + "=" + names + "\n" + t3;
    var t1 := "input_vrs" + "=" + inputs + "\n" + t2;
    var c1 := Empty().(token := c.token);
    var c2 := c1.(inputs := c.inputs);
    var c3 := c2.(names := c.names);
    var c4 := c3.(traces := c.traces);
    OneLine(Empty(), "token", c.token, t1);
    OneLine(c1, "input_vrs", inputs, t2);
    OneLine(c2, NAMES_KEY, names, t3);
    OneLine(c3, "trace_vrs", traces, t4);
    OneLine(c4, "odometry_vrs", odometry, t5);
    NothingLeft(c);
  }

  lemma NothingLeft(c: Config)
    ensures ReadLines(c, "") == Some(c)
  {
  }

  lemma WriteIsFiveLines(c: Config)
    ensures Write(c)
            == "token" + "=" + c.token + "\n" + ("input_vrs" + "=" + Join(Decimals(c.inputs)) + "\n"
            + (NAMES_KEY + "=" + Join(c.names) + "\n" + ("trace_vrs" + "=" + Join(Decimals(c.traces)) + "\n"
            + ("odometry_vrs" + "=" + Join(Decimals(c.odometry)) + "\n" + ""))))
  {
    hide Join, Decimals;
    var l := LinesOf(c);
    assert TextOf(l[5..]) == "";
    assert l[4..][1..] == l[5..] && l[3..][1..] == l[4..] && l[2..][1..] == l[3..] && l[1..][1..] == l[2..];
    assert TextOf(l[4..]) == l[4] + "\n" + TextOf(l[5..]);
    assert TextOf(l[3..]) == l[3] + "\n" + TextOf(l[4..]);
    assert TextOf(l[2..]) == l[2] + "\n" + TextOf(l[3..]);
    assert TextOf(l[1..]) == l[1] + "\n" + TextOf(l[2..]);
    assert "token=" == "token" + "=" && "input_vrs=" == "input_vrs" + "=" && "trace_names=" == NAMES_KEY + "=";
    assert "trace_vrs=" == "trace_vrs" + "=" && "odometry_vrs=" == "odometry_vrs" + "=";
  }

  // ------------------------------------------- nothing else is ever loaded

  lemma {:induction false} TokensAreSlices(s: string)
    ensures |Join(Tokens(s))| <= |s|
    ensures forall i | 0 <= i < |Tokens(s)| :: ',' !in Tokens(s)[i] && forall c | c in Tokens(s)[i] :: c in s
    decreases |s|
  {
    if s != [] {
      if s[0] == ',' {
        TokensAreSlices(s[1..]);
      } else {
        var n := IndexOf(s, ',');
        var item, rest := s[..n], Tokens(s[n..]);
        TokensAreSlices(s[n..]);
        assert Tokens(s) == [item] + rest && Tokens(s)[1..] == rest;
        if n < |s| {
          assert Tokens(s[n..]) == Tokens(s[n..][1..]);
          assert s[n..][1..] == s[n + 1..];
          TokensAreSlices(s[n + 1..]);
        } else {
          assert rest == [];
        }
      }
    }
  }

  lemma {:induction false} TrimmingShortens(items: seq<string>)
    ensures |Join(Trimmed(items))| <= |Join(items)|
  {
    hide Trim;
    if items != [] {
      TrimmingShortens(items[1..]);
      assert Trimmed(items)[1..] == Trimmed(items[1..]);
    }
  }

  lemma {:induction false} ValuesInRange(items: seq<string>)
    requires Values(items).Some?
    ensures |Values(items).value| == |items|
    ensures forall i | 0 <= i < |items| :: Values(items).value[i] <= UINT32_MAX
  {
    hide Strtoul, Trim;
    if items != [] {
      ValuesInRange(items[1..]);
    }
  }

  lemma TrimKeeps(s: string)
    ensures forall c | c in Trim(s) :: c in s
  {
    assert forall c | c in Trim(s) :: c in TrimLeft(s);
  }

  lemma NamesInRange(text: string)
    requires text == "" || Clean(text)
    requires |text| <= NAMES_ROOM && ParseNames(text).Some?
    ensures NameList(ParseNames(text).value)
  {
    hide Tokens, Join, TrimLeft, TrimRight;
    var items := Tokens(text);
    var names := ParseNames(text).value;
    TokensAreSlices(text);
    TrimmingShortens(items);
    forall i | 0 <= i < |names|
      ensures Name(names[i])
    {
      assert NameFits(items[i]) && names[i] == Trim(items[i]);
      TrimKeeps(items[i]);
    }
  }

  lemma AssignKeeps(c: Config, key: string, value: string)
    requires Within(c) && Assign(c, key, value).Some?
    requires value == "" || Clean(value)
    requires key == NAMES_KEY ==> |value| <= NAMES_ROOM
    ensures Within(Assign(c, key, value).value)
  {
    hide Tokens, Values, ParseNames, Clean, NameList;
    if key in ["input_vrs", "trace_vrs", "odometry_vrs"] {
      ValuesInRange(Tokens(value));
    } else if key == NAMES_KEY {
      NamesInRange(value);
    }
  }

  /** At most one newline, at the very end. */
  predicate Line(s: string) {
    |s| < LINE_SIZE && forall i | 0 <= i < |s| - 1 :: s[i] != '\n'
  }

  lemma TrimmedIsClean(s: string)
    requires '\0' !in s && forall i | 0 <= i < |s| - 1 :: s[i] != '\n'
    ensures Trim(s) == "" || Clean(Trim(s))
  {
    hide TrimLeft, TrimRight;
    var l := TrimLeft(s);
    var t := TrimRight(l);
    var d := |s| - |l|;
    forall i | 0 <= i < |t|
      ensures t[i] != '\n' && t[i] != '\0'
    {
      assert t[i] == l[i] == s[d + i];
      assert d + i == |s| - 1 ==> i == |t| - 1;
    }
  }

  lemma ReadLineKeeps(c: Config, line: string)
    requires Within(c) && Line(line) && '\0' !in line && ReadLine(c, line).Some?
    ensures Within(ReadLine(c, line).value)
  {
    hide Assign, Within, TrimLeft, TrimRight, Trim;
    var n := IndexOf(line, '=');
    if n < |line| {
      TrimmedIsClean(line[n + 1..]);
      AssignKeeps(c, Trim(line[..n]), Trim(line[n + 1..]));
    }
  }

  lemma {:induction false} ReadLinesKeep(c: Config, text: string)
    requires Within(c) && ReadLines(c, text).Some?
    ensures Within(ReadLines(c, text).value)
    decreases |text|
  {
    hide ReadLine, Within;
    if text != [] {
      var n := ChunkLength(text);
      var line := CString(text[..n]);
      ReadLineKeeps(c, line);
      ReadLinesKeep(ReadLine(c, line).value, text[n..]);
    }
  }

  /** Whatever file load_config accepts, the result lies within the limits. */
  lemma LoadsOnlyLoadable(text: string)
    requires Load(text).Some?
    ensures Loadable(Load(text).value)
  {
    hide ReadLines;
    ReadLinesKeep(Empty(), text);
  }

  /**
   * Writing and then reading gives a configuration back exactly when it is Loadable.  The length of
   * the joined names is part of that: names that satisfy every limit one by one can still overrun the line buffer.
   */
  lemma RoundTrip(c: Config)
    ensures Load(Write(c)) == Some(c) <==> Loadable(c)
  {
    hide Load, Write, Loadable;
    if Loadable(c) {
      ReadsBack(c);
    }
    if Load(Write(c)) == Some(c) {
      LoadsOnlyLoadable(Write(c));
    }
  }

  /** What was accepted once is accepted again after it is written out. */
  lemma LoadedIsStable(text: string)
    requires Load(text).Some?
    ensures Load(Write(Load(text).value)) == Load(text)
  {
    hide Load, Write, Loadable;
    LoadsOnlyLoadable(text);
    ReadsBack(Load(text).value);
  }

  lemma {:induction false} JoinOfEqualLengths(items: seq<string>, n: nat)
    requires items != [] && forall i | 0 <= i < |items| :: |items[i]| == n
    ensures |Join(items)| == |items| * (n + 1) - 1
  {
    if |items| > 1 {
      JoinOfEqualLengths(items[1..], n);
      assert |items| * (n + 1) == (n + 1) + (|items| - 1) * (n + 1);
    }
  }

  /** The array limits alone are not enough: 128 names of 127 characters, each accepted by itself, never come back. */
  lemma FullNameTableIsLost(c: Config)
    requires |c.names| == MAX_FMI_VALUES && Names(c.names)
    requires forall i | 0 <= i < |c.names| :: |c.names[i]| == MAX_NAME_LEN - 1
    ensures Load(Write(c)) != Some(c)
  {
    hide Load, Write;
    JoinOfEqualLengths(c.names, MAX_NAME_LEN - 1);
    RoundTrip(c);
  }

  lemma {:induction false} TrimLeftOfBlanks(s: string)
    requires forall i | 0 <= i < |s| :: IsBlank(s[i])
    ensures TrimLeft(s) == ""
  {
    if s != "" {
      TrimLeftOfBlanks(s[1..]);
    }
  }

  /** A value reference made of blanks only is accepted, and reads as 0. */
  lemma {:induction false} BlankReadsAsZero(item: string)
    requires item != "" && forall i | 0 <= i < |item| :: IsBlank(item[i])
    ensures ItemValue(item) == Some(0)
  {
    TrimLeftOfBlanks(item);
    assert Trim(item) == "";
  }
}
