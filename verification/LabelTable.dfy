/** The label-table reader of the application (oma/app/core.py:66-76): every
    line of a colour-table file holds `value title r g b`, split on
    whitespace, and becomes one label record. */
module LabelTable {
  import opened Results

  /** One selectable region: the dictionary `{"title", "value", "rgb"}`. */
  datatype Label = Label(title: string, value: int, rgb: seq<int>)

  /** The exception a line raises: `split_line[index]` past the end
      (IndexError) or `int(split_line[index])` on a non-integer (ValueError). */
  datatype LineError = MissingField(index: nat) | NotAnInteger(index: nat)

  /** The first failing line of a file, with its exception. */
  datatype ParseError = ParseError(line: nat, error: LineError)

  /** The characters `str.split()` treats as whitespace. */
  predicate IsSpace(c: char) {
    || c == ' '
    || '\t' <= c <= '\r'
    || '\U{1C}' <= c <= '\U{1F}'
    || c == '\U{85}' || c == '\U{A0}' || c == '\U{1680}'
    || '\U{2000}' <= c <= '\U{200A}'
    || c == '\U{2028}' || c == '\U{2029}' || c == '\U{202F}' || c == '\U{205F}' || c == '\U{3000}'
  }

  /** A field of a split line: non-empty, without whitespace. */
  predicate IsWord(w: string) {
    w != [] && forall i :: 0 <= i < |w| ==> !IsSpace(w[i])
  }

  /** Length of the run of non-space characters that starts the string. */
  function WordLength(s: string): (n: nat)
    ensures n <= |s|
    ensures forall i :: 0 <= i < n ==> !IsSpace(s[i])
    ensures n < |s| ==> IsSpace(s[n])
  {
    if s == [] || IsSpace(s[0]) then 0 else 1 + WordLength(s[1..])
  }

  /** `s.split()`: the maximal runs of non-space characters, in order. */
  function Words(s: string): (words: seq<string>)
    ensures forall k :: 0 <= k < |words| ==> IsWord(words[k])
    decreases |s|
  {
    if s == [] then []
    else if IsSpace(s[0]) then Words(s[1..])
    else
      var n := WordLength(s);
      [s[..n]] + Words(s[n..])
  }

  /** The fields joined by single spaces. */
  function Join(words: seq<string>): string {
    if words == [] then []
    else if |words| == 1 then words[0]
    else words[0] + " " + Join(words[1..])
  }

  lemma {:induction false} WordLengthOfWord(w: string, rest: string)
    requires IsWord(w)
    requires rest == [] || IsSpace(rest[0])
    ensures WordLength(w + rest) == |w|
  {
    if |w| > 1 {
      assert (w + rest)[1..] == w[1..] + rest;
      WordLengthOfWord(w[1..], rest);
    } else {
      assert (w + rest)[1..] == rest;
    }
  }

  /** Splitting a string of fields joined by spaces gives the fields back. */
  lemma {:induction false} SplitJoin(words: seq<string>)
    requires forall k :: 0 <= k < |words| ==> IsWord(words[k])
    ensures Words(Join(words)) == words
  {
    if words == [] {
    } else if |words| == 1 {
      var w := words[0];
      WordLengthOfWord(w, []);
      assert w + [] == w;
      assert w[|w|..] == [];
    } else {
      var w, rest := words[0], Join(words[1..]);
      var s := w + " " + rest;
      assert s == w + (" " + rest);
      WordLengthOfWord(w, " " + rest);
      assert s[..|w|] == w;
      assert s[|w|..] == " " + rest;
      assert (" " + rest)[1..] == rest;
      SplitJoin(words[1..]);
    }
  }

  /** A stretch between fields: whitespace only, possibly empty. */
  predicate IsGap(g: string) {
    forall i :: 0 <= i < |g| ==> IsSpace(g[i])
  }

  /** gaps[0] + words[0] + gaps[1] + ... + words[n-1] + gaps[n]. */
  function Interleave(gaps: seq<string>, words: seq<string>): string
    requires |gaps| == |words| + 1
    decreases |words|
  {
    if words == [] then gaps[0]
    else gaps[0] + words[0] + Interleave(gaps[1..], words[1..])
  }

  /** `s` is its fields separated by whitespace gaps, every inner gap
      non-empty: the fields are the maximal non-space runs of `s`, in order. */
  ghost predicate SplitsInto(s: string, gaps: seq<string>, words: seq<string>) {
    && |gaps| == |words| + 1
    && (forall k :: 0 <= k < |words| ==> IsWord(words[k]))
    && (forall k :: 0 <= k < |gaps| ==> IsGap(gaps[k]))
    && (forall k :: 0 < k < |words| ==> gaps[k] != [])
    && s == Interleave(gaps, words)
  }

  /** The whitespace around and between the fields of `s`. */
  function Gaps(s: string): (gaps: seq<string>)
    ensures |gaps| == |Words(s)| + 1
    decreases |s|
  {
    if s == [] then [[]]
    else if IsSpace(s[0]) then
      var rest := Gaps(s[1..]);
      [[s[0]] + rest[0]] + rest[1..]
    else [[]] + Gaps(s[WordLength(s)..])
  }

  lemma {:induction false} GapsSplit(s: string)
    ensures SplitsInto(s, Gaps(s), Words(s))
    ensures s != [] && IsSpace(s[0]) ==> Gaps(s)[0] != []
    decreases |s|
  {
    if s == [] {
    } else if IsSpace(s[0]) {
      var t := s[1..];
      GapsSplit(t);
      assert s == [s[0]] + t;
      ConsGap(s[0], t, Gaps(t), Words(t));
    } else {
      var n := WordLength(s);
      var t := s[n..];
      GapsSplit(t);
      assert s == s[..n] + t;
      ConsWord(s[..n], t, Gaps(t), Words(t));
    }
  }

  /** A leading space joins the first gap. */
  lemma ConsGap(c: char, t: string, gaps: seq<string>, words: seq<string>)
    requires IsSpace(c) && SplitsInto(t, gaps, words)
    ensures SplitsInto([c] + t, [[c] + gaps[0]] + gaps[1..], words)
  {
    var g := [[c] + gaps[0]] + gaps[1..];
    assert IsGap(g[0]) by {
      assert forall i :: 1 <= i < |g[0]| ==> g[0][i] == gaps[0][i - 1];
    }
    assert forall k :: 1 <= k < |g| ==> g[k] == gaps[k];
    if words != [] {
      assert Interleave(g, words) == g[0] + words[0] + Interleave(gaps[1..], words[1..]);
    }
  }

  /** A leading field, then the rest, whose first gap is non-empty
      whenever another field follows. */
  lemma ConsWord(word: string, t: string, gaps: seq<string>, words: seq<string>)
    requires IsWord(word) && SplitsInto(t, gaps, words)
    requires words != [] ==> gaps[0] != []
    ensures SplitsInto(word + t, [[]] + gaps, [word] + words)
  {
    var g, w := [[]] + gaps, [word] + words;
    assert g[1..] == gaps && w[1..] == words;
    assert forall k :: 1 <= k < |g| ==> g[k] == gaps[k - 1];
    assert forall k :: 1 <= k < |w| ==> w[k] == words[k - 1];
  }

  /** `s.split()` yields exactly the maximal non-space runs of `s`, in
      order: putting back some whitespace gaps, non-empty between fields,
      gives `s` again. */
  lemma WordsAreRuns(s: string)
    ensures exists gaps :: SplitsInto(s, gaps, Words(s))
  {
    GapsSplit(s);
  }

  predicate IsDigit(c: char) {
    '0' <= c <= '9'
  }

  /** What follows the first digit of an integer literal: digits, each `_`
      followed by a digit. */
  predicate DigitTail(d: string)
    decreases |d|
  {
    if d == [] then true
    else if d[0] == '_' then |d| >= 2 && IsDigit(d[1]) && DigitTail(d[2..])
    else IsDigit(d[0]) && DigitTail(d[1..])
  }

  /** The digit strings `int()` accepts: digits with single underscores between them. */
  predicate IsDigitString(d: string) {
    |d| > 0 && IsDigit(d[0]) && DigitTail(d[1..])
  }

  /** Decimal value of a digit string; underscores carry no digit. */
  function Value(d: string): nat {
    if d == [] then 0
    else
      var c := d[|d| - 1];
      if IsDigit(c) then 10 * Value(d[..|d| - 1]) + (c as int - '0' as int)
      else Value(d[..|d| - 1])
  }

  /** `int(s)` on one field: an optional sign, then a digit string. */
  function ParseInt(s: string): Option<int> {
    if |s| > 0 && (s[0] == '-' || s[0] == '+') then
      if IsDigitString(s[1..]) then
        Some(if s[0] == '-' then 0 - Value(s[1..]) else Value(s[1..]))
      else None
    else if IsDigitString(s) then Some(Value(s))
    else None
  }

  function DigitChar(n: nat): (c: char)
    requires n < 10
    ensures IsDigit(c) && c as int - '0' as int == n
  {
    ('0' as int + n) as char
  }

  /** Decimal form of a natural number. */
  function ShowNat(n: nat): (s: string)
    ensures |s| > 0 && forall i :: 0 <= i < |s| ==> IsDigit(s[i])
  {
    if n < 10 then [DigitChar(n)] else ShowNat(n / 10) + [DigitChar(n % 10)]
  }

  /** `str(n)` for an integer. */
  function Show(n: int): string {
    if n < 0 then "-" + ShowNat(-n) else ShowNat(n)
  }

  lemma {:induction false} AllDigitsTail(d: string)
    requires forall i :: 0 <= i < |d| ==> IsDigit(d[i])
    ensures DigitTail(d)
  {
    if d != [] {
      AllDigitsTail(d[1..]);
    }
  }

  lemma {:induction false} ValueOfShow(n: nat)
    ensures Value(ShowNat(n)) == n
  {
    if n >= 10 {
      var s := ShowNat(n);
      assert s[..|s| - 1] == ShowNat(n / 10);
      ValueOfShow(n / 10);
    }
  }

  /** `int(str(n)) == n`: the field parser reads back every printed integer. */
  lemma ParseShow(n: int)
    ensures ParseInt(Show(n)) == Some(n)
  {
    var m := if n < 0 then -n else n;
    var d := ShowNat(m);
    AllDigitsTail(d[1..]);
    ValueOfShow(m);
    if n < 0 {
      assert Show(n)[1..] == d;
    }
  }

  /** `int(field)` of a split line, or the exception it raises. */
  function IntField(fields: seq<string>, i: nat): Result<int, LineError> {
    if i >= |fields| then Err(MissingField(i))
    else match ParseInt(fields[i])
      case None => Err(NotAnInteger(i))
      case Some(v) => Ok(v)
  }

  /** One iteration of the parse loop, in the order the source evaluates
      the fields: the title (field 1), the value (field 0), then the colour
      components (fields 2, 3, 4). Fields past the fifth are ignored. */
  function ParseLine(line: string): Result<Label, LineError> {
    var fields := Words(line);
    if |fields| < 2 then Err(MissingField(1))
    else
      var title := fields[1];
      match IntField(fields, 0)
      case Err(e) => Err(e)
      case Ok(value) =>
        match IntField(fields, 2)
        case Err(e) => Err(e)
        case Ok(r) =>
          match IntField(fields, 3)
          case Err(e) => Err(e)
          case Ok(g) =>
            match IntField(fields, 4)
            case Err(e) => Err(e)
            case Ok(b) => Ok(Label(title, value, [r, g, b]))
  }

  /** A line is accepted exactly when it has at least five fields and fields
      0, 2, 3 and 4 are integers; the record then holds those fields. */
  lemma ParseLineAccepts(line: string)
    ensures var fields := Words(line);
      ParseLine(line).Ok? <==>
        |fields| >= 5 && ParseInt(fields[0]).Some? && ParseInt(fields[2]).Some?
        && ParseInt(fields[3]).Some? && ParseInt(fields[4]).Some?
    ensures var fields := Words(line);
      ParseLine(line).Ok? ==>
        ParseLine(line).value == Label(fields[1], ParseInt(fields[0]).value,
          [ParseInt(fields[2]).value, ParseInt(fields[3]).value, ParseInt(fields[4]).value])
  {
  }

  /** The line a label table holds for a record. */
  function FormatLine(l: Label): string
    requires |l.rgb| == 3
  {
    Join([Show(l.value), l.title, Show(l.rgb[0]), Show(l.rgb[1]), Show(l.rgb[2])])
  }

  lemma ShowIsWord(n: int)
    ensures IsWord(Show(n))
  {
    var d := ShowNat(if n < 0 then -n else n);
    if n < 0 {
      assert Show(n) == "-" + d;
      assert forall i :: 1 <= i < |Show(n)| ==> Show(n)[i] == d[i - 1];
    }
  }

  /** Reading back the line written for a record gives the record: the
      parser loses nothing of a title without whitespace and three colour
      components. */
  lemma FormatParse(l: Label)
    requires IsWord(l.title) && |l.rgb| == 3
    ensures ParseLine(FormatLine(l)) == Ok(l)
  {
    var fields := [Show(l.value), l.title, Show(l.rgb[0]), Show(l.rgb[1]), Show(l.rgb[2])];
    ShowIsWord(l.value);
    ShowIsWord(l.rgb[0]);
    ShowIsWord(l.rgb[1]);
    ShowIsWord(l.rgb[2]);
    SplitJoin(fields);
    ParseShow(l.value);
    ParseShow(l.rgb[0]);
    ParseShow(l.rgb[1]);
    ParseShow(l.rgb[2]);
    assert l.rgb == [l.rgb[0], l.rgb[1], l.rgb[2]];
  }

  /** `parse_file` over the lines of a file: one record per line in line
      order, or the exception of the first line that fails (no line is
      skipped). */
  method ParseFile(lines: seq<string>) returns (r: Result<seq<Label>, ParseError>)
    ensures r.Ok? <==> forall k :: 0 <= k < |lines| ==> ParseLine(lines[k]).Ok?
    ensures r.Ok? ==> |r.value| == |lines|
    ensures r.Ok? ==> forall k :: 0 <= k < |lines| ==> ParseLine(lines[k]) == Ok(r.value[k])
    ensures r.Err? ==> r.error.line < |lines| && ParseLine(lines[r.error.line]) == Err(r.error.error)
    ensures r.Err? ==> forall k :: 0 <= k < r.error.line ==> ParseLine(lines[k]).Ok?
  {
    var dictList: seq<Label> := [];
    for i := 0 to |lines|
      invariant |dictList| == i
      invariant forall k :: 0 <= k < i ==> ParseLine(lines[k]) == Ok(dictList[k])
    {
      var parsed := ParseLine(lines[i]);
      if parsed.Err? {
        return Err(ParseError(i, parsed.error));
      }
      dictList := dictList + [parsed.value];
    }
    return Ok(dictList);
  }
}
