/** The text a Python script writes for the lockstep runner, and the C code that reads it back. */
module RunnerConfig {
  import opened Wrappers

  const MAX_FMI_VALUES := 128
  const MAX_NAME_LEN := 128
  const TOKEN_SIZE := 256
  const LINE_SIZE := 16384
  const INPUT_COUNT := 9
  const ODOMETRY_COUNT := 18
  const UINT32_MAX := 0xFFFF_FFFF
  const ULONG_RANGE := 0x1_0000_0000_0000_0000

  datatype Config = Config(token: string, inputs: seq<nat>, traces: seq<nat>, names: seq<string>, odometry: seq<nat>)

  // ------------------------------------------------------------- the writer

  function Digit(d: nat): char
    requires d < 10
  {
    "0123456789"[d]
  }

  /** str(n) */
  function Decimal(n: nat): (s: string)
    ensures s != []
  {
    if n < 10 then [Digit(n)] else Decimal(n / 10) + [Digit(n % 10)]
  }

  function Decimals(ns: seq<nat>): (ss: seq<string>)
    ensures |ss| == |ns|
  {
    seq(|ns|, i requires 0 <= i < |ns| => Decimal(ns[i]))
  }

  /** ",".join(items) */
  function Join(items: seq<string>): string {
    if items == [] then ""
    else if |items| == 1 then items[0]
    else items[0] + "," + Join(items[1..])
  }

  /** The lines of write_fmi3_runner_config. */
  function LinesOf(c: Config): seq<string> {
    ["token=" + c.token,
     "input_vrs=" + Join(Decimals(c.inputs)),
     "trace_names=" + Join(c.names),
     "trace_vrs=" + Join(Decimals(c.traces)),
     "odometry_vrs=" + Join(Decimals(c.odometry))]
  }

  /** "\n".join(lines) + "\n" */
  function TextOf(lines: seq<string>): string {
    if lines == [] then "" else lines[0] + "\n" + TextOf(lines[1..])
  }

  function Write(c: Config): string {
    TextOf(LinesOf(c))
  }

  // ------------------------------------------------------------- the reader

  predicate IsBlank(c: char) {
    c == ' ' || c == '\t' || c == '\r' || c == '\n'
  }

  function TrimLeft(s: string): (r: string)
    ensures |r| <= |s| && r == s[|s| - |r|..] && (r != "" ==> !IsBlank(r[0]))
  {
    if s != [] && IsBlank(s[0]) then TrimLeft(s[1..]) else s
  }

  function TrimRight(s: string): (r: string)
    ensures |r| <= |s| && r == s[..|r|] && (r != "" ==> !IsBlank(r[|r| - 1]))
  {
    if s != [] && IsBlank(s[|s| - 1]) then TrimRight(s[..|s| - 1]) else s
  }

  /** trim: what is left starts and ends with a character that is not blank. */
  function Trim(s: string): (r: string)
    ensures |r| <= |s|
    ensures r != "" ==> !IsBlank(r[0]) && !IsBlank(r[|r| - 1])
  {
    TrimRight(TrimLeft(s))
  }

  /** Where c first occurs, or the length. */
  function IndexOf(s: string, c: char): (n: nat)
    ensures n <= |s| && (n < |s| ==> s[n] == c) && forall i | 0 <= i < n :: s[i] != c
  {
    if s == [] || s[0] == c then 0 else IndexOf(s[1..], c) + 1
  }

  /** The items strtok_r(text, ",") gives: maximal runs without a comma. */
  function Tokens(s: string): seq<string>
    decreases |s|
  {
    if s == [] then []
    else if s[0] == ',' then Tokens(s[1..])
    else [s[..IndexOf(s, ',')]] + Tokens(s[IndexOf(s, ',')..])
  }

  predicate IsDigit(c: char) {
    '0' <= c <= '9'
  }

  predicate IsSpace(c: char) {
    IsBlank(c) || c == '\U{000B}' || c == '\U{000C}'
  }

  function SkipSpace(s: string): string {
    if s != [] && IsSpace(s[0]) then SkipSpace(s[1..]) else s
  }

  function DigitRun(s: string): (n: nat)
    ensures n <= |s| && forall i | 0 <= i < n :: IsDigit(s[i])
  {
    if s != [] && IsDigit(s[0]) then DigitRun(s[1..]) + 1 else 0
  }

  function DigitValue(c: char): nat
    requires IsDigit(c)
  {
    (c as int) - ('0' as int)
  }

  function ValueOf(s: string): nat
    requires forall i | 0 <= i < |s| :: IsDigit(s[i])
  {
    if s == [] then 0 else 10 * ValueOf(s[..|s| - 1]) + DigitValue(s[|s| - 1])
  }

  /** strtoul(s, &end, 10): the value and what follows, or nothing converted, or a range error. */
  datatype Conversion = Converted(value: nat, rest: string) | NoDigits | OutOfRange

  function Strtoul(s: string): Conversion {
    var t := SkipSpace(s);
    var signed := t != [] && (t[0] == '+' || t[0] == '-');
    var digits := if signed then t[1..] else t;
    var n := DigitRun(digits);
    if n == 0 then NoDigits
    else
      var magnitude := ValueOf(digits[..n]);
      if magnitude >= ULONG_RANGE then OutOfRange
      else Converted(if signed && t[0] == '-' then (ULONG_RANGE - magnitude) % ULONG_RANGE else magnitude, digits[n..])
  }

  /** One item of parse_vrs.  Where nothing converts, the end pointer is compared with the untrimmed item, so an
      item of blanks reads as 0. */
  function ItemValue(item: string): Option<nat> {
    var trimmed := Trim(item);
    match Strtoul(trimmed)
    case Converted(v, rest) => if Trim(rest) == "" && v <= UINT32_MAX then Some(v) else None
    case NoDigits => if trimmed == "" && item != "" && IsBlank(item[0]) then Some(0) else None
    case OutOfRange => None
  }

  function Values(items: seq<string>): Option<seq<nat>> {
    if items == [] then Some([])
    else
      var head, tail := ItemValue(items[0]), Values(items[1..]);
      if head.Some? && tail.Some? then Some([head.value] + tail.value) else None
  }

  function ParseVrs(text: string): Option<seq<nat>> {
    if |Tokens(text)| > MAX_FMI_VALUES then None else Values(Tokens(text))
  }

  predicate NameFits(item: string) {
    0 < |Trim(item)| < MAX_NAME_LEN
  }

  function Trimmed(items: seq<string>): (r: seq<string>)
    ensures |r| == |items|
  {
    seq(|items|, i requires 0 <= i < |items| => Trim(items[i]))
  }

  function ParseNames(text: string): Option<seq<string>> {
    var items := Tokens(text);
    if |items| > MAX_FMI_VALUES || exists i :: 0 <= i < |items| && !NameFits(items[i]) then None
    else Some(Trimmed(items))
  }

  /** What one key and value do to the configuration; None is the failing return. */
  function Assign(c: Config, key: string, value: string): Option<Config> {
    if key == "token" then
      if |value| >= TOKEN_SIZE then None else Some(c.(token := value))
    else if key == "input_vrs" then
      var v := ParseVrs(value);
      if v.None? then None else Some(c.(inputs := v.value))
    else if key == "trace_vrs" then
      var v := ParseVrs(value);
      if v.None? then None else Some(c.(traces := v.value))
    else if key == "trace_names" then
      var v := ParseNames(value);
      if v.None? then None else Some(c.(names := v.value))
    else if key == "odometry_vrs" then
      var v := ParseVrs(value);
      if v.None? then None else Some(c.(odometry := v.value))
    else Some(c)
  }

  /** The body of the line loop of load_config. */
  function ReadLine(c: Config, line: string): Option<Config> {
    var n := IndexOf(line, '=');
    if n == |line| then Some(c) else Assign(c, Trim(line[..n]), Trim(line[n + 1..]))
  }

  /** How much of the text the next fgets takes: through the newline, but at most LINE_SIZE - 1 characters. */
  function ChunkLength(text: string): (n: nat)
    requires text != []
    ensures 0 < n <= |text|
  {
    var newline := IndexOf(text, '\n');
    var whole := if newline < |text| then newline + 1 else newline;
    if whole < LINE_SIZE then whole else LINE_SIZE - 1
  }

  /** A C string ends at its first NUL. */
  function CString(s: string): string {
    s[..IndexOf(s, '\0')]
  }

  function ReadLines(c: Config, text: string): Option<Config>
    decreases |text|
  {
    if text == [] then Some(c)
    else
      var n := ChunkLength(text);
      var next := ReadLine(c, CString(text[..n]));
      if next.None? then None else ReadLines(next.value, text[n..])
  }

  function Empty(): Config {
    Config("", [], [], [], [])
  }

  predicate Consistent(c: Config) {
    c.token != "" && |c.inputs| == INPUT_COUNT && |c.traces| != 0 && |c.names| == |c.traces|
    && |c.odometry| == ODOMETRY_COUNT
  }

  /** load_config */
  function Load(text: string): Option<Config> {
    var c := ReadLines(Empty(), text);
    if c.Some? && Consistent(c.value) then c else None
  }

  // ---------------------------------------------- the loops of the C functions

  /** trim: first the front, then the back */
  method TrimLoop(text: string) returns (r: string)
    ensures r == Trim(text)
  {
    var start := text;
    while start != "" && IsBlank(start[0])
      invariant TrimLeft(start) == TrimLeft(text)
      decreases |start|
    {
      start := start[1..];
    }
    r := start;
    while r != "" && IsBlank(r[|r| - 1])
      invariant TrimRight(r) == TrimRight(start)
      decreases |r|
    {
      r := r[..|r| - 1];
    }
  }

  /** parse_vrs: one item after the other */
  method ParseVrsLoop(text: string) returns (r: Option<seq<nat>>)
    ensures r == ParseVrs(text)
  {
    var rest, values := text, [];
    ghost var done: seq<string> := [];
    while true
      invariant Tokens(text) == done + Tokens(rest)
      invariant |done| == |values| <= MAX_FMI_VALUES && Values(done) == Some(values)
      decreases |rest|
    {
      while rest != [] && rest[0] == ','
        invariant Tokens(text) == done + Tokens(rest)
        decreases |rest|
      {
        rest := rest[1..];
      }
      if rest == [] {
        assert done + [] == done;
        return Some(values);
      }
      var n := IndexOf(rest, ',');
      var item := rest[..n];
      ghost var before := rest;
      rest := rest[n..];
      assert Tokens(before) == [item] + Tokens(rest);
      assert done + Tokens(before) == done + [item] + Tokens(rest);
      if |values| >= MAX_FMI_VALUES {
        return None;
      }
      var v := ItemValue(item);
      ValuesAppend(done, item);
      if v.None? {
        ValuesPrefix(done + [item], Tokens(rest));
        return None;
      }
      values := values + [v.value];
      done := done + [item];
    }
  }

  lemma {:induction false} ValuesAppend(items: seq<string>, item: string)
    ensures Values(items + [item])
            == if Values(items).Some? && ItemValue(item).Some?
               then Some(Values(items).value + [ItemValue(item).value])
               else None
  {
    hide ItemValue;
    if items == [] {
      assert items + [item] == [item] && [item][1..] == [];
      if ItemValue(item).Some? {
        var v := ItemValue(item).value;
        assert [v] + [] == [] + [v];
      }
    } else {
      var tail := items[1..];
      ValuesAppend(tail, item);
      assert (items + [item])[1..] == tail + [item] && (items + [item])[0] == items[0];
      if Values(items + [item]).Some? {
        var h, v := ItemValue(items[0]).value, ItemValue(item).value;
        assert [h] + (Values(tail).value + [v]) == ([h] + Values(tail).value) + [v];
      }
    }
  }

  lemma {:induction false} ValuesPrefix(a: seq<string>, b: seq<string>)
    requires Values(a) == None
    ensures Values(a + b) == None
  {
    hide ItemValue;
    if a != [] {
      assert (a + b)[1..] == a[1..] + b;
      if ItemValue(a[0]).Some? {
        ValuesPrefix(a[1..], b);
      }
    }
  }

  lemma NextToken(rest: string)
    requires rest != ""
    ensures rest[0] == ',' ==> Tokens(rest) == Tokens(rest[1..])
    ensures rest[0] != ','
            ==> var n := IndexOf(rest, ','); n > 0 && Tokens(rest) == [rest[..n]] + Tokens(rest[n..])
  {
  }

  lemma NameRefused(text: string, done: seq<string>, item: string, more: seq<string>)
    requires Tokens(text) == done + [item] + more
    requires |done| >= MAX_FMI_VALUES || Trim(item) == "" || |Trim(item)| >= MAX_NAME_LEN
    ensures ParseNames(text) == None
  {
    hide Tokens, Trim;
    assert Tokens(text)[|done|] == item;
    assert |done| < MAX_FMI_VALUES ==> !NameFits(item);
  }

  lemma NamesTaken(text: string)
    requires |Tokens(text)| <= MAX_FMI_VALUES && forall i | 0 <= i < |Tokens(text)| :: NameFits(Tokens(text)[i])
    ensures ParseNames(text) == Some(Trimmed(Tokens(text)))
  {
  }

  /** parse_names: one item after the other */
  method ParseNamesLoop(text: string) returns (r: Option<seq<string>>)
    ensures r == ParseNames(text)
  {
    hide Trim, Tokens, ParseNames;
    var rest, names := text, [];
    ghost var done: seq<string> := [];
    while true
      invariant Tokens(text) == done + Tokens(rest)
      invariant |done| <= MAX_FMI_VALUES && names == Trimmed(done)
      invariant forall i | 0 <= i < |done| :: NameFits(done[i])
      decreases |rest|
    {
      while rest != [] && rest[0] == ','
        invariant Tokens(text) == done + Tokens(rest)
        decreases |rest|
      {
        NextToken(rest);
        rest := rest[1..];
      }
      if rest == [] {
        assert Tokens(text) == done by { NoToken(); }
        NamesTaken(text);
        return Some(names);
      }
      NextToken(rest);
      var n := IndexOf(rest, ',');
      var raw := rest[..n];
      rest := rest[n..];
      assert Tokens(text) == done + [raw] + Tokens(rest);
      var item := Trim(raw);
      if |names| >= MAX_FMI_VALUES || item == "" || |item| >= MAX_NAME_LEN {
        NameRefused(text, done, raw, Tokens(rest));
        return None;
      }
      assert Trimmed(done + [raw]) == Trimmed(done) + [item];
      names := names + [item];
      done := done + [raw];
    }
  }

  lemma NoToken()
    ensures Tokens("") == []
  {
  }

  /** load_config: one line after the other */
  method LoadLoop(text: string) returns (r: Option<Config>)
    ensures r == Load(text)
  {
    var rest, config := text, Empty();
    while rest != []
      invariant ReadLines(Empty(), text) == ReadLines(config, rest)
      decreases |rest|
    {
      var n := ChunkLength(rest);
      var next := ReadLine(config, CString(rest[..n]));
      if next.None? {
        return None;
      }
      rest, config := rest[n..], next.value;
    }
    return if Consistent(config) then Some(config) else None;
  }
}
