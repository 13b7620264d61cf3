/** The scanner for one row of an INSERT statement (scripts/generate_metric_catalog.py), and the rows it reads
    back: NULLs, integers, and strings quoted with doubled quotes or backslashes. */
module SqlLiterals {
  import opened Wrappers

  datatype Field = Null | Int(n: int) | Str(text: string)

  datatype Error = Unterminated | ExpectedComma | BadInteger

  datatype Result<+T> = Ok(value: T) | Err(error: Error)

  predicate AllBlank(s: string) { forall i :: 0 <= i < |s| ==> Blank(s[i]) }

  /** How many characters to skip to reach the first that is not blank. */
  function Blanks(s: string): (n: nat)
    ensures n <= |s| && (n < |s| ==> !Blank(s[n])) && AllBlank(s[..n])
  {
    if s != "" && Blank(s[0]) then
      assert s[..1 + Blanks(s[1..])] == [s[0]] + s[1..][..Blanks(s[1..])];
      1 + Blanks(s[1..])
    else 0
  }

  function StripRight(s: string): string
  {
    if s != "" && Blank(s[|s| - 1]) then StripRight(s[..|s| - 1]) else s
  }

  function Strip(s: string): string { StripRight(s[Blanks(s)..]) }

  function Comma(s: string): (k: nat)
    ensures k <= |s| && (k < |s| ==> s[k] == ',') && forall j :: 0 <= j < k ==> s[j] != ','
  {
    if s == "" || s[0] == ',' then 0 else 1 + Comma(s[1..])
  }

  // ---------------------------------------------------------------- integers

  predicate Digit(c: char) { '0' <= c <= '9' }

  function DigitValue(c: char): nat
    requires Digit(c)
  {
    c as int - '0' as int
  }

  /** The digits of a number, with single underscores allowed in between. */
  function ParseDigits(s: string): Option<nat>
  {
    if s == "" || !Digit(s[|s| - 1]) then None
    else
      var d, rest := DigitValue(s[|s| - 1]), s[..|s| - 1];
      if rest == "" then Some(d)
      else
        var before := ParseDigits(if rest[|rest| - 1] == '_' then rest[..|rest| - 1] else rest);
        if before.None? then None else Some(10 * before.value + d)
  }

  function ParseInt(s: string): Option<int>
  {
    var negative := s != "" && s[0] == '-';
    var n := ParseDigits(if s != "" && (s[0] == '-' || s[0] == '+') then s[1..] else s);
    if n.None? then None
    else
      var value: int := n.value;
      Some(if negative then -value else value)
  }

  predicate IsNull(token: string)
  {
    |token| == 4 && token[0] in "Nn" && token[1] in "Uu" && token[2] in "Ll" && token[3] in "Ll"
  }

  // ---------------------------------------------------------------- what is read

  /** The string that starts just after an opening quote, and how far its closing quote reaches. */
  function ScanString(s: string): (r: Option<(string, nat)>)
    ensures r.Some? ==> 0 < r.value.1 <= |s| && s[r.value.1 - 1] == '\''
  {
    if s == "" then None
    else if s[0] == '\\' && |s| > 1 then
      var rest := ScanString(s[2..]);
      if rest.None? then None else Some(([s[1]] + rest.value.0, rest.value.1 + 2))
    else if s[0] == '\'' then
      if |s| > 1 && s[1] == '\'' then
        var rest := ScanString(s[2..]);
        if rest.None? then None else Some(("'" + rest.value.0, rest.value.1 + 2))
      else Some(("", 1))
    else
      var rest := ScanString(s[1..]);
      if rest.None? then None else Some(([s[0]] + rest.value.0, rest.value.1 + 1))
  }

  /** One field at the start of the text, which is not blank, and how many characters it takes. */
  function ScanField(s: string): (r: Result<(Field, nat)>)
    requires s != "" && !Blank(s[0])
    ensures r.Ok? ==> r.value.1 <= |s|
  {
    if s[0] == '\'' then
      var quoted := ScanString(s[1..]);
      if quoted.None? then Err(Unterminated) else Ok((Str(quoted.value.0), quoted.value.1 + 1))
    else
      var k := Comma(s);
      var token := Strip(s[..k]);
      if IsNull(token) then Ok((Null, k))
      else
        var n := ParseInt(token);
        if n.None? then Err(BadInteger) else Ok((Int(n.value), k))
  }

  /** What `parse_values` returns for the text, field by field. */
  function Fields(values: string): Result<seq<Field>>
    decreases |values|
  {
    var s := values[Blanks(values)..];
    if s == "" then Ok([])
    else
      var first := ScanField(s);
      if first.Err? then Err(first.error)
      else
        var rest := s[first.value.1..];
        var after := rest[Blanks(rest)..];
        if after == "" then Ok([first.value.0])
        else if after[0] != ',' then Err(ExpectedComma)
        else
          var more := Fields(after[1..]);
          if more.Err? then more else Ok([first.value.0] + more.value)
  }

  // ---------------------------------------------------------------- the scanner

  lemma DropDrop(s: string, i: nat, k: nat)
    requires i + k <= |s|
    ensures s[i..][k..] == s[i + k..]
  {
  }

  function Prepend(chars: string, r: Option<(string, nat)>, n: nat): Option<(string, nat)>
  {
    if r.None? then None else Some((chars + r.value.0, r.value.1 + n))
  }

  lemma PrependNothing(r: Option<(string, nat)>)
    ensures Prepend("", r, 0) == r
  {
    if r.Some? {
      assert "" + r.value.0 == r.value.0;
    }
  }

  lemma PrependMore(chars: string, c: char, r: Option<(string, nat)>, n: nat, k: nat)
    ensures Prepend(chars + [c], r, n + k) == Prepend(chars, Prepend([c], r, k), n)
  {
    if r.Some? {
      assert chars + [c] + r.value.0 == chars + ([c] + r.value.0);
    }
  }

  /** One turn of the scanner's loop: what it takes from the front, unless the string ends here. */
  lemma ScanOne(s: string)
    requires s != ""
    ensures s[0] == '\\' && |s| > 1 ==> ScanString(s) == Prepend([s[1]], ScanString(s[2..]), 2)
    ensures s[0] == '\'' && |s| > 1 && s[1] == '\'' ==> ScanString(s) == Prepend("'", ScanString(s[2..]), 2)
    ensures s[0] != '\'' && !(s[0] == '\\' && |s| > 1) ==> ScanString(s) == Prepend([s[0]], ScanString(s[1..]), 1)
    ensures s[0] == '\'' && !(|s| > 1 && s[1] == '\'') ==> ScanString(s) == Some(("", 1))
  {
  }

  /** `parse_sql_string`: index is that of the opening quote; the index returned is just past the closing one. */
  method ParseSqlString(values: string, index: nat) returns (r: Result<(string, nat)>)
    requires index < |values| && values[index] == '\''
    ensures r == match ScanString(values[index + 1..])
                 case None => Err(Unterminated)
                 case Some((text, n)) => Ok((text, index + 1 + n))
  {
    hide ScanString, Prepend;
    var chars := "";
    var i := index + 1;
    PrependNothing(ScanString(values[i..]));
    while i < |values|
      invariant index < i <= |values|
      invariant ScanString(values[index + 1..]) == Prepend(chars, ScanString(values[i..]), i - index - 1)
    {
      ScanAt(values, i);
      var c := values[i];
      if c == '\\' && i + 1 < |values| {
        PrependMore(chars, values[i + 1], ScanString(values[i + 2..]), i - index - 1, 2);
        chars := chars + [values[i + 1]];
        i := i + 2;
        continue;
      }
      if c == '\'' {
        if i + 1 < |values| && values[i + 1] == '\'' {
          PrependMore(chars, '\'', ScanString(values[i + 2..]), i - index - 1, 2);
          chars := chars + ['\''];
          i := i + 2;
          continue;
        }
        PrependEnd(chars, i - index - 1);
        return Ok((chars, i + 1));
      }
      PrependMore(chars, c, ScanString(values[i + 1..]), i - index - 1, 1);
      chars := chars + [c];
      i := i + 1;
    }
    NoString(chars, values[i..], i - index - 1);
    return Err(Unterminated);
  }

  /** The same turn, at a position of the whole text. */
  lemma ScanAt(values: string, i: nat)
    requires i < |values|
    ensures values[i] == '\\' && i + 1 < |values| ==>
              ScanString(values[i..]) == Prepend([values[i + 1]], ScanString(values[i + 2..]), 2)
    ensures values[i] == '\'' && i + 1 < |values| && values[i + 1] == '\'' ==>
              ScanString(values[i..]) == Prepend(['\''], ScanString(values[i + 2..]), 2)
    ensures values[i] != '\'' && !(values[i] == '\\' && i + 1 < |values|) ==>
              ScanString(values[i..]) == Prepend([values[i]], ScanString(values[i + 1..]), 1)
    ensures values[i] == '\'' && !(i + 1 < |values| && values[i + 1] == '\'') ==>
                      ScanString(values[i..]) == Some(("", 1))
  {
    hide ScanString, Prepend;
    ScanOne(values[i..]);
    DropDrop(values, i, 1);
    if i + 1 < |values| {
      DropDrop(values, i, 2);
    }
  }

  lemma PrependEnd(chars: string, n: nat)
    ensures Prepend(chars, Some(("", 1)), n) == Some((chars, 1 + n))
  {
    assert chars + "" == chars;
  }

  lemma NoString(chars: string, s: string, n: nat)
    requires s == ""
    ensures Prepend(chars, ScanString(s), n) == None
  {
  }

  method SkipBlanks(values: string, start: nat) returns (i: nat)
    requires start <= |values|
    ensures i == start + Blanks(values[start..])
  {
    i := start;
    while i < |values| && Blank(values[i])
      invariant start <= i <= |values|
      invariant start + Blanks(values[start..]) == i + Blanks(values[i..])
    {
      DropDrop(values, i, 1);
      i := i + 1;
    }
  }

  method ToComma(values: string, start: nat) returns (i: nat)
    requires start <= |values|
    ensures i == start + Comma(values[start..])
  {
    i := start;
    while i < |values| && values[i] != ','
      invariant start <= i <= |values|
      invariant start + Comma(values[start..]) == i + Comma(values[i..])
    {
      DropDrop(values, i, 1);
      i := i + 1;
    }
  }

  /** The branch of `parse_values` that reads one field. */
  method ParseField(values: string, start: nat) returns (r: Result<(Field, nat)>)
    requires start < |values| && !Blank(values[start])
    ensures r == match ScanField(values[start..])
                 case Err(e) => Err(e)
                 case Ok((f, n)) => Ok((f, start + n))
  {
    ghost var s := values[start..];
    if values[start] == '\'' {
      DropDrop(values, start, 1);
      var quoted := ParseSqlString(values, start);
      if quoted.Err? {
        return Err(quoted.error);
      }
      return Ok((Str(quoted.value.0), quoted.value.1));
    }
    var i := ToComma(values, start);
    assert s[..Comma(s)] == values[start..i];
    var token := Strip(values[start..i]);
    if IsNull(token) {
      return Ok((Null, i));
    }
    var n := ParseInt(token);
    if n.None? {
      return Err(BadInteger);
    }
    return Ok((Int(n.value), i));
  }

  function Onto(fields: seq<Field>, r: Result<seq<Field>>): Result<seq<Field>>
  {
    if r.Err? then r else Ok(fields + r.value)
  }

  lemma Unfold(values: string, b: nat, first: (Field, nat), c: nat)
    requires b == Blanks(values) < |values| && ScanField(values[b..]) == Ok(first)
    requires c == b + first.1 + Blanks(values[b + first.1..])
    ensures c <= |values|
    ensures c == |values| ==> Fields(values) == Ok([first.0])
    ensures c < |values| && values[c] != ',' ==> Fields(values) == Err(ExpectedComma)
    ensures c < |values| && values[c] == ',' ==> Fields(values) == Onto([first.0], Fields(values[c + 1..]))
  {
    var s := values[b..];
    var rest := s[first.1..];
    assert rest == values[b + first.1..];
    var after := rest[Blanks(rest)..];
    assert after == values[c..];
    if c < |values| {
      assert after[1..] == values[c + 1..];
    }
  }

  /** One turn of the loop of `parse_values`; None if only blanks are left. */
  method NextField(values: string, start: nat) returns (r: Result<Option<(Field, nat)>>)
    requires start < |values|
    ensures r.Err? ==> Fields(values[start..]) == Err(r.error)
    ensures r.Ok? && r.value.None? ==> Fields(values[start..]) == Ok([])
    ensures r.Ok? && r.value.Some? ==>
              var (f, i) := r.value.value;
              start < i <= |values| && Fields(values[start..]) == Onto([f], Fields(values[i..]))
  {
    hide Fields, ScanField, Blanks, AllBlank;
    ghost var s := values[start..];
    var i := SkipBlanks(values, start);
    if i >= |values| {
      OnlyBlanks(s);
      return Ok(None);
    }
    DropDrop(values, start, i - start);
    var first := ParseField(values, i);
    if first.Err? {
      BadField(s);
      return Err(first.error);
    }
    var end := SkipBlanks(values, first.value.1);
    DropDrop(values, start, first.value.1 - start);
    Unfold(s, i - start, (first.value.0, first.value.1 - i), end - start);
    FieldsAdvance(values[i..]);
    if end == |values| {
      NothingMore(values, end);
      OntoNothing([first.value.0]);
      return Ok(Some((first.value.0, end)));
    }
    if values[end] != ',' {
      return Err(ExpectedComma);
    }
    DropDrop(values, start, end + 1 - start);
    return Ok(Some((first.value.0, end + 1)));
  }

  /** A field takes at least one character. */
  lemma FieldsAdvance(s: string)
    requires s != "" && !Blank(s[0])
    ensures ScanField(s).Ok? ==> ScanField(s).value.1 > 0 || s[0] == ','
  {
  }

  /** `parse_values`. */
  method ParseValues(values: string) returns (r: Result<seq<Field>>)
    ensures r == Fields(values)
  {
    hide Fields;
    var fields: seq<Field> := [];
    var i := 0;
    WholeText(values);
    while i < |values|
      invariant i <= |values| && Fields(values) == Onto(fields, Fields(values[i..]))
    {
      var next := NextField(values, i);
      if next.Err? {
        return Err(next.error);
      }
      if next.value.None? {
        OntoNothing(fields);
        return Ok(fields);
      }
      var (f, end) := next.value.value;
      OntoMore(fields, f, Fields(values[end..]));
      fields, i := fields + [f], end;
    }
    NothingMore(values, i);
    OntoNothing(fields);
    r := Ok(fields);
  }

  lemma WholeText(values: string)
    ensures values[0..] == values && Onto([], Fields(values)) == Fields(values)
  {
    if Fields(values).Ok? {
      assert [] + Fields(values).value == Fields(values).value;
    }
  }

  lemma NothingMore(values: string, i: nat)
    requires i == |values|
    ensures values[i..] == "" && Fields("") == Ok([])
  {
  }

  lemma OntoNothing(fields: seq<Field>)
    ensures Onto(fields, Ok([])) == Ok(fields)
  {
    assert fields + [] == fields;
  }

  lemma OntoMore(fields: seq<Field>, f: Field, r: Result<seq<Field>>)
    ensures Onto(fields + [f], r) == Onto(fields, Onto([f], r))
  {
    if r.Ok? {
      assert fields + [f] + r.value == fields + ([f] + r.value);
    }
  }

  lemma OnlyBlanks(s: string)
    requires Blanks(s) == |s|
    ensures Fields(s) == Ok([])
  {
  }

  lemma BadField(s: string)
    requires Blanks(s) < |s| && ScanField(s[Blanks(s)..]).Err?
    ensures Fields(s) == Err(ScanField(s[Blanks(s)..]).error)
  {
  }

  // ---------------------------------------------------------------- writing rows

  datatype Style = Plain | Doubled | Escaped

  datatype Char = Char(c: char, style: Style)

  /** A quote must be doubled or escaped and a backslash escaped; anything may be escaped. */
  predicate Writable(x: Char)
  {
    match x.style
    case Plain => x.c != '\'' && x.c != '\\'
    case Doubled => x.c == '\''
    case Escaped => true
  }

  function Written(x: Char): string
  {
    match x.style case Plain => [x.c] case Doubled => "''" case Escaped => ['\\', x.c]
  }

  function Encode(chars: seq<Char>): string
  {
    if chars == [] then "" else Written(chars[0]) + Encode(chars[1..])
  }

  function Meant(chars: seq<Char>): string { seq(|chars|, i requires 0 <= i < |chars| => chars[i].c) }

  function Decimal(n: nat): (r: string)
    ensures r != "" && forall i :: 0 <= i < |r| ==> Digit(r[i])
  {
    var digit := ('0' as int + n % 10) as char;
    if n < 10 then [digit] else Decimal(n / 10) + [digit]
  }

  function IntText(n: int): string { if n < 0 then "-" + Decimal(-n) else Decimal(n) }

  datatype Body = NullWord(text: string) | Number(n: int) | Quoted(chars: seq<Char>)

  datatype Item = Item(before: string, body: Body, after: string)

  predicate ItemOk(item: Item)
  {
    && AllBlank(item.before) && AllBlank(item.after)
    && (item.body.NullWord? ==> IsNull(item.body.text))
    && (item.body.Quoted? ==> forall i :: 0 <= i < |item.body.chars| ==> Writable(item.body.chars[i]))
  }

  function BodyText(b: Body): string
  {
    match b
    case NullWord(text) => text
    case Number(n) => IntText(n)
    case Quoted(chars) => "'" + Encode(chars) + "'"
  }

  function FieldOf(b: Body): Field
  {
    match b case NullWord(_) => Null case Number(n) => Int(n) case Quoted(chars) => Str(Meant(chars))
  }

  function ItemText(item: Item): string { item.before + (BodyText(item.body) + item.after) }

  function Row(items: seq<Item>): string
  {
    if items == [] then ""
    else
      if |items| == 1 then ItemText(items[0]) else ItemText(items[0]) + ("," + Row(items[1..]))
  }

  function FieldsOf(items: seq<Item>): seq<Field>
  {
    seq(|items|, i requires 0 <= i < |items| => FieldOf(items[i].body))
  }

  // ---------------------------------------------------------------- and reading them back

  lemma MeantMore(chars: seq<Char>)
    requires chars != []
    ensures Meant(chars) == [chars[0].c] + Meant(chars[1..])
  {
  }

  lemma ScanWritten(x: Char, s: string)
    requires Writable(x) && s != ""
    ensures ScanString(Written(x) + s) == Prepend([x.c], ScanString(s), |Written(x)|)
  {
    var t := Written(x) + s;
    ScanOne(t);
    assert t[|Written(x)|..] == s;
    hide ScanString;
  }

  lemma ClosingQuote(rest: string)
    requires rest == "" || rest[0] != '\''
    ensures ScanString("'" + rest) == Some(("", 1))
  {
    var s := "'" + rest;
    assert |s| > 1 ==> s[1] == rest[0];
    ScanOne(s);
  }

  lemma EncodeMore(chars: seq<Char>, rest: string)
    requires chars != []
    ensures Encode(chars) + "'" + rest == Written(chars[0]) + (Encode(chars[1..]) + "'" + rest)
    ensures |Encode(chars)| == |Written(chars[0])| + |Encode(chars[1..])|
  {
  }

  lemma EncodeNothing(rest: string)
    ensures Encode([]) + "'" + rest == "'" + rest && Meant([]) == "" && |Encode([])| == 0
  {
  }

  /** Whatever styles were chosen, the string is read back, and the scan stops just past its closing quote. */
  lemma {:induction false} StringRoundTrip(chars: seq<Char>, rest: string)
    requires forall i :: 0 <= i < |chars| ==> Writable(chars[i])
    requires rest == "" || rest[0] != '\''
    ensures ScanString(Encode(chars) + "'" + rest) == Some((Meant(chars), |Encode(chars)| + 1))
  {
    hide ScanString, Written, Encode, Meant;
    if chars == [] {
      EncodeNothing(rest);
      ClosingQuote(rest);
    } else {
      StringRoundTrip(chars[1..], rest);
      MeantMore(chars);
      EncodeMore(chars, rest);
      ScanWritten(chars[0], Encode(chars[1..]) + "'" + rest);
    }
  }

  lemma {:induction false} BlanksOf(b: string, s: string)
    requires AllBlank(b) && (s == "" || !Blank(s[0]))
    ensures Blanks(b + s) == |b|
  {
    if b == "" {
      assert b + s == s;
    } else {
      assert (b + s)[1..] == b[1..] + s;
      BlanksOf(b[1..], s);
    }
  }

  lemma {:induction false} StripRightOf(s: string, b: string)
    requires AllBlank(b) && (s == "" || !Blank(s[|s| - 1]))
    ensures StripRight(s + b) == s
    decreases |b|
  {
    if b == "" {
      assert s + b == s;
    } else {
      var n := |b| - 1;
      assert (s + b)[..|s + b| - 1] == s + b[..n] && (s + b)[|s + b| - 1] == b[n];
      StripRightOf(s, b[..n]);
    }
  }

  lemma StripOf(s: string, b: string)
    requires AllBlank(b) && s != "" && !Blank(s[0]) && !Blank(s[|s| - 1])
    ensures Strip(s + b) == s
  {
    assert Blanks(s + b) == 0;
    assert (s + b)[0..] == s + b;
    StripRightOf(s, b);
  }

  lemma {:induction false} DecimalParsed(n: nat)
    ensures ParseDigits(Decimal(n)) == Some(n)
  {
    var s := Decimal(n);
    var digit := ('0' as int + n % 10) as char;
    assert Digit(digit) && DigitValue(digit) == n % 10;
    if n >= 10 {
      DecimalParsed(n / 10);
      var rest := Decimal(n / 10);
      assert s[|s| - 1] == digit && s[..|s| - 1] == rest;
      assert Digit(rest[|rest| - 1]);
    }
  }

  lemma IntParsed(n: int)
    ensures ParseInt(IntText(n)) == Some(n)
  {
    var s := IntText(n);
    if n < 0 {
      DecimalParsed(-n);
      assert s[0] == '-' && s[1..] == Decimal(-n);
    } else {
      DecimalParsed(n);
      assert Digit(s[0]);
    }
  }

  /** Text that neither starts nor ends blank and holds no comma. */
  predicate Word(s: string)
  {
    s != "" && !Blank(s[0]) && !Blank(s[|s| - 1]) && forall i :: 0 <= i < |s| ==> s[i] != ','
  }

  lemma NumberWord(n: int)
    ensures Word(IntText(n)) && IntText(n)[0] != '\'' && !IsNull(IntText(n))
  {
    var s := IntText(n);
    forall i | 0 <= i < |s| ensures Digit(s[i]) || s[i] == '-' {
    }
  }

  lemma CommaAt(w: string, b: string, rest: string)
    requires Word(w) && AllBlank(b) && (rest == "" || rest[0] == ',')
    ensures Comma(w + b + rest) == |w + b|
  {
    var s := w + b + rest;
    forall i | 0 <= i < |w + b| ensures s[i] != ',' {
      if i < |w| {
        assert s[i] == w[i];
      } else {
        assert s[i] == b[i - |w|] && Blank(b[i - |w|]);
      }
    }
    assert rest != "" ==> s[|w + b|] == ',';
  }

  /** The scan of s reads this field, and of the first k characters leaves blanks at most. */
  predicate Reads(s: string, f: Field, k: nat)
  {
    && s != "" && !Blank(s[0]) && ScanField(s).Ok? && ScanField(s).value.0 == f
    && ScanField(s).value.1 <= k <= |s| && AllBlank(s[ScanField(s).value.1..k])
  }

  lemma QuotedRead(chars: seq<Char>, after: string, rest: string)
    requires (forall i :: 0 <= i < |chars| ==> Writable(chars[i])) && AllBlank(after) && (rest == "" || rest[0] == ',')
    ensures var text := "'" + Encode(chars) + "'"; Reads(text + after + rest, Str(Meant(chars)), |text + after|)
  {
    hide ScanString, Encode, Meant;
    var text := "'" + Encode(chars) + "'";
    var s := text + after + rest;
    assert s[1..] == Encode(chars) + "'" + (after + rest);
    assert after != "" ==> Blank(after[0]);
    StringRoundTrip(chars, after + rest);
    assert s[|text|..|text + after|] == after;
  }

  lemma WordRead(w: string, f: Field, after: string, rest: string)
    requires Word(w) && w[0] != '\'' && AllBlank(after) && (rest == "" || rest[0] == ',')
    requires if IsNull(w) then f == Null else ParseInt(w).Some? && f == Int(ParseInt(w).value)
    ensures Reads(w + after + rest, f, |w + after|)
  {
    hide ParseInt, Strip;
    var s := w + after + rest;
    CommaAt(w, after, rest);
    assert s[..|w + after|] == w + after;
    StripOf(w, after);
    assert s[|w + after|..|w + after|] == "";
  }

  lemma BodyRead(body: Body, after: string, rest: string)
    requires ItemOk(Item("", body, after)) && (rest == "" || rest[0] == ',')
    ensures Reads(BodyText(body) + after + rest, FieldOf(body), |BodyText(body) + after|)
  {
    hide Reads, Encode, Meant, IntText, ParseInt;
    match body
    case Quoted(chars) => QuotedRead(chars, after, rest);
    case NullWord(text) => WordRead(text, Null, after, rest);
    case Number(n) =>
      NumberWord(n);
      IntParsed(n);
      WordRead(IntText(n), Int(n), after, rest);
  }

  /** Where the pieces of the text lie. */
  lemma Pieces(before: string, text: string, rest: string, n: nat)
    requires n <= |text|
    ensures var s := before + (text + rest);
            && s[|before|..] == text + rest && s[|before| + n..] == text[n..] + rest
            && (rest != "" ==> s[|before| + |text|] == rest[0] && s[|before| + |text| + 1..] == rest[1..])
            && |s| == |before| + |text| + |rest| && (text + rest)[n..|text|] == text[n..]
  {
  }

  lemma ReadsMeans(s: string, f: Field, k: nat)
    requires Reads(s, f, k)
    ensures s != "" && !Blank(s[0]) && ScanField(s).Ok? && ScanField(s).value.0 == f
    ensures ScanField(s).value.1 <= k <= |s| && AllBlank(s[ScanField(s).value.1..k])
  {
  }

  /** Where the field and the comma after it lie. */
  lemma TextPlaces(before: string, text: string, rest: string, n: nat)
    requires AllBlank(before) && n <= |text| && AllBlank(text[n..]) && (rest == "" || !Blank(rest[0]))
    requires text + rest != "" && !Blank((text + rest)[0])
    ensures var s := before + (text + rest);
            && Blanks(s) == |before| < |s| && Blanks(s[|before| + n..]) == |text| - n
  {
    hide AllBlank, Blanks, Blank;
    Pieces(before, text, rest, n);
    BlanksOf(before, text + rest);
    BlanksOf(text[n..], rest);
  }

  lemma TextRead(before: string, text: string, rest: string, f: Field)
    requires AllBlank(before) && Reads(text + rest, f, |text|) && (rest == "" || (rest[0] == ',' && !Blank(rest[0])))
    ensures Fields(before + (text + rest)) == if rest == "" then Ok([f]) else Onto([f], Fields(rest[1..]))
  {
    hide *;
    var t := text + rest;
    ReadsMeans(t, f, |text|);
    var n := ScanField(t).value.1;
    Pieces(before, text, rest, n);
    TextPlaces(before, text, rest, n);
    Unfold(before + t, |before|, ScanField(t).value, |before| + |text|);
  }

  /** One item at the start of the text, followed by nothing or by a comma. */
  lemma ItemRead(item: Item, rest: string)
    requires ItemOk(item) && (rest == "" || rest[0] == ',')
    ensures Fields(ItemText(item) + rest)
            == if rest == "" then Ok([FieldOf(item.body)]) else Onto([FieldOf(item.body)], Fields(rest[1..]))
  {
    hide Fields, Reads, BodyText, FieldOf, Onto;
    var text := BodyText(item.body) + item.after;
    BodyRead(item.body, item.after, rest);
    TextRead(item.before, text, rest, FieldOf(item.body));
    assert ItemText(item) + rest == item.before + (text + rest);
  }

  lemma FieldsOfMore(items: seq<Item>)
    requires items != []
    ensures FieldsOf(items) == [FieldOf(items[0].body)] + FieldsOf(items[1..])
  {
    hide FieldOf;
  }

  /** Rows are read back as they were meant, whatever the styles of quoting, the case of NULL and the blanks
      around the commas. */
  lemma {:induction false} RowRoundTrip(items: seq<Item>)
    requires forall i :: 0 <= i < |items| ==> ItemOk(items[i])
    ensures Fields(Row(items)) == Ok(FieldsOf(items))
  {
    hide Fields, FieldOf, ItemText, ItemOk, FieldsOf;
    if items == [] {
      NothingMore("", 0);
      NoFields();
    } else {
      FieldsOfMore(items);
      if |items| == 1 {
        ItemRead(items[0], "");
        assert Row(items) == ItemText(items[0]) + "";
        NoFields();
        assert items[1..] == [];
        assert [FieldOf(items[0].body)] + [] == [FieldOf(items[0].body)];
      } else {
        var rest := "," + Row(items[1..]);
        RowRoundTrip(items[1..]);
        ItemRead(items[0], rest);
        assert rest[1..] == Row(items[1..]);
      }
    }
  }

  lemma NoFields()
    ensures FieldsOf([]) == []
  {
  }
}
