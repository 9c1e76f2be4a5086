/** The text of a cron expression: splitting it into fields and parts, reading numbers and names, refusing the
  letters other dialects use. Every list of parts can be written down and is read back as it was; names are
  another matter. */
module CronText {
  import opened Rows
  import opened Machine
  import opened Cron
  import opened CronParse

  // ----- splitting -----------------------------------------------------------------------

  predicate IsSpace(c: char) {
    || '\t' <= c <= '\r' || c == ' ' || c == '\U{85}' || c == '\U{A0}' || c == '\U{1680}'
    || '\U{2000}' <= c <= '\U{200A}'
    || c == '\U{2028}' || c == '\U{2029}' || c == '\U{202F}' || c == '\U{205F}' || c == '\U{3000}'
  }

  /** How many characters precede the first space. */
  function WordLength(s: string): (n: nat)
    ensures n <= |s| && (n < |s| ==> IsSpace(s[n])) && forall i :: 0 <= i < n ==> !IsSpace(s[i])
  {
    if s == [] || IsSpace(s[0]) then 0 else 1 + WordLength(s[1..])
  }

  /** The words of a text, in order. */
  function Words(s: string): seq<string>
    decreases |s|
  {
    if s == [] then []
    else if IsSpace(s[0]) then Words(s[1..])
    else [s[..WordLength(s)]] + Words(s[WordLength(s)..])
  }

  /** Where a character first occurs, or the length of the text. */
  function Index(s: string, c: char): (n: nat)
    ensures n <= |s| && (n < |s| ==> s[n] == c) && forall i :: 0 <= i < n ==> s[i] != c
  {
    if s == [] || s[0] == c then 0 else 1 + Index(s[1..], c)
  }

  function Split(s: string, sep: char): seq<string>
    decreases |s|
  {
    var k := Index(s, sep);
    if k == |s| then [s] else [s[..k]] + Split(s[k + 1..], sep)
  }

  // ----- numbers and names ---------------------------------------------------------------

  predicate IsDigit(c: char) {
    '0' <= c <= '9'
  }

  predicate AllDigits(s: string) {
    0 < |s| && forall i :: 0 <= i < |s| ==> IsDigit(s[i])
  }

  function Value(s: string): nat
    requires forall i :: 0 <= i < |s| ==> IsDigit(s[i])
  {
    if s == [] then 0
    else
      assert IsDigit(s[|s| - 1]);
      10 * Value(s[..|s| - 1]) + (s[|s| - 1] as int - '0' as int)
  }

  /** A decimal number with an optional sign, if it fits a signed word. */
  function Atoi(s: string): Option<int> {
    var negative := s != [] && s[0] == '-';
    var digits := if s != [] && (s[0] == '-' || s[0] == '+') then s[1..] else s;
    if !AllDigits(digits) then None
    else
      var v: int := Value(digits);
      if negative then (if v <= WORD_LIMIT then Some(-v) else None) else (if v < WORD_LIMIT then Some(v) else None)
  }

  /** Upper case, as far as it can meet a letter from A to Z. */
  function Upper(c: char): char {
    if 'a' <= c <= 'z' then 'A' + (c - 'a')
    else if c == '\U{131}' then 'I'
    else if c == '\U{17F}' then 'S'
    else c
  }

  function ToUpper(s: string): string {
    seq(|s|, i requires 0 <= i < |s| => Upper(s[i]))
  }

  /** Which names a field knows. */
  datatype Names = NoNames | MonthNames | DayNames

  predicate Spells(s: string, a: char, b: char, c: char) {
    |s| == 3 && s[0] == a && s[1] == b && s[2] == c
  }

  function Month(s: string): Option<int> {
    if Spells(s, 'J', 'A', 'N') then Some(1)
    else if Spells(s, 'F', 'E', 'B') then Some(2)
    else if Spells(s, 'M', 'A', 'R') then Some(3)
    else if Spells(s, 'A', 'P', 'R') then Some(4)
    else if Spells(s, 'M', 'A', 'Y') then Some(5)
    else if Spells(s, 'J', 'U', 'N') then Some(6)
    else if Spells(s, 'J', 'U', 'L') then Some(7)
    else if Spells(s, 'A', 'U', 'G') then Some(8)
    else if Spells(s, 'S', 'E', 'P') then Some(9)
    else if Spells(s, 'O', 'C', 'T') then Some(10)
    else if Spells(s, 'N', 'O', 'V') then Some(11)
    else if Spells(s, 'D', 'E', 'C') then Some(12)
    else None
  }

  function Day(s: string): Option<int> {
    if Spells(s, 'S', 'U', 'N') then Some(0)
    else if Spells(s, 'M', 'O', 'N') then Some(1)
    else if Spells(s, 'T', 'U', 'E') then Some(2)
    else if Spells(s, 'W', 'E', 'D') then Some(3)
    else if Spells(s, 'T', 'H', 'U') then Some(4)
    else if Spells(s, 'F', 'R', 'I') then Some(5)
    else if Spells(s, 'S', 'A', 'T') then Some(6)
    else None
  }

  function Named(s: string, names: Names): Option<int> {
    match names
    case NoNames => None
    case MonthNames => Month(s)
    case DayNames => Day(s)
  }

  function Atom(s: string, names: Names): Option<int> {
    var v := Named(ToUpper(s), names);
    if v.Some? then v else Atoi(s)
  }

  // ----- parts, fields, expressions ------------------------------------------------------

  function ReadBody(s: string, names: Names): Body {
    if s == "*" then Star
    else if '-' in s then
      var k := Index(s, '-');
      var a, b := Atom(s[..k], names), Atom(if k < |s| then s[k + 1..] else [], names);
      if a.Some? && b.Some? then Range(a.value, b.value) else Garbled
    else
      var v := Atom(s, names);
      if v.Some? then Single(v.value) else Garbled
  }

  function ReadPart(s: string, names: Names): Part {
    var k := Index(s, '/');
    var body := ReadBody(s[..k], names);
    if k == |s| then Part(body, None)
    else
      var step := Atoi(s[k + 1..]);
      if step.None? then Part(Garbled, None) else Part(body, step)
  }

  function ReadField(s: string, names: Names): seq<Part> {
    var texts := Split(s, ',');
    seq(|texts|, i requires 0 <= i < |texts| => ReadPart(texts[i], names))
  }

  /** A letter of another dialect. */
  predicate Foreign(c: char) {
    c == 'L' || c == 'W' || c == '#' || c == '?'
  }

  predicate Speaks(word: string) {
    forall i :: 0 <= i < |word| ==> !Foreign(word[i])
  }

  /** The fifth field may name months, the sixth weekdays. */
  function NamesAt(k: int): Names {
    if k == 4 then MonthNames else if k == 5 then DayNames else NoNames
  }

  function ReadWords(w: seq<string>): Option<Fields> {
    if |w| != 6 || !(forall i :: 0 <= i < 6 ==> Speaks(w[i])) then None
    else Some(Fields(ReadField(w[0], NoNames), ReadField(w[1], NoNames), ReadField(w[2], NoNames),
                     ReadField(w[3], NoNames), ReadField(w[4], MonthNames), ReadField(w[5], DayNames)))
  }

  /** The fields of a text, if it has six words and no foreign letter; what cannot be read is garbled. */
  function Read(text: string): Option<Fields> {
    ReadWords(Words(text))
  }

  // ----- writing -------------------------------------------------------------------------

  function Digit(d: int): char
    requires 0 <= d <= 9
  {
    ('0' as int + d) as char
  }

  function Number(n: nat): (s: string)
    ensures AllDigits(s)
  {
    if n < 10 then [Digit(n)] else Number(n / 10) + [Digit(n % 10)]
  }

  function WriteBody(b: Body): string
    requires BodyWritable(b)
  {
    match b
    case Star => "*"
    case Range(low, high) => Number(low) + "-" + Number(high)
    case Single(v) => Number(v)
  }

  function WritePart(p: Part): string
    requires PartWritable(p)
  {
    if p.slash.None? then WriteBody(p.body) else WriteBody(p.body) + "/" + Number(p.slash.value)
  }

  /** Texts joined by a separator. */
  function Join(texts: seq<string>, sep: char): string
    requires texts != []
  {
    if |texts| == 1 then texts[0] else texts[0] + [sep] + Join(texts[1..], sep)
  }

  function WriteParts(parts: seq<Part>): seq<string>
    requires FieldWritable(parts)
  {
    seq(|parts|, i requires 0 <= i < |parts| => WritePart(parts[i]))
  }

  function WriteField(parts: seq<Part>): string
    requires parts != [] && FieldWritable(parts)
  {
    Join(WriteParts(parts), ',')
  }

  predicate Word(n: int) {
    0 <= n < WORD_LIMIT
  }

  predicate BodyWritable(b: Body) {
    match b
    case Star => true
    case Range(low, high) => Word(low) && Word(high)
    case Single(v) => Word(v)
    case Garbled => false
  }

  predicate PartWritable(p: Part) {
    BodyWritable(p.body) && (p.slash.Some? ==> Word(p.slash.value))
  }

  predicate FieldWritable(parts: seq<Part>) {
    forall i :: 0 <= i < |parts| ==> PartWritable(parts[i])
  }

  /** Fields of at least one part each, with numbers that fit a word. */
  predicate Writable(f: Fields) {
    && f.second != [] && FieldWritable(f.second) && f.minute != [] && FieldWritable(f.minute)
    && f.hour != [] && FieldWritable(f.hour) && f.dom != [] && FieldWritable(f.dom)
    && f.month != [] && FieldWritable(f.month) && f.dow != [] && FieldWritable(f.dow)
  }

  function Write(f: Fields): string
    requires Writable(f)
  {
    Join(WriteWords(f), ' ')
  }

  // ----- reading back --------------------------------------------------------------------

  lemma {:induction false} NumberReads(n: nat)
    ensures Value(Number(n)) == n
  {
    if n >= 10 {
      NumberReads(n / 10);
      var s := Number(n);
      assert s[..|s| - 1] == Number(n / 10);
    }
  }

  /** A number is no name, and is read as itself. */
  lemma NumberIsAtom(n: int, names: Names)
    requires Word(n)
    ensures Atom(Number(n), names) == Some(n) && Atoi(Number(n)) == Some(n)
  {
    NumberReads(n);
    var s := Number(n);
    assert IsDigit(s[0]) && ToUpper(s)[0] == s[0];
    NotNamed(ToUpper(s), names);
  }

  lemma NotNamed(s: string, names: Names)
    requires s != [] && IsDigit(s[0])
    ensures Named(s, names).None?
  {
  }

  /** What a written text is made of: digits and the three marks inside a part. */
  predicate Plain(c: char) {
    IsDigit(c) || c == '*' || c == '-' || c == '/'
  }

  predicate AllPlain(s: string) {
    0 < |s| && forall i :: 0 <= i < |s| ==> Plain(s[i])
  }

  lemma IndexOfMark(a: string, b: string, c: char)
    requires forall i :: 0 <= i < |a| ==> a[i] != c
    ensures Index(a + [c] + b, c) == |a|
  {
    var s := a + [c] + b;
    assert s[|a|] == c;
    assert forall i :: 0 <= i < |a| ==> s[i] == a[i];
  }

  lemma NoMark(a: string, c: char)
    requires forall i :: 0 <= i < |a| ==> a[i] != c
    ensures Index(a, c) == |a|
  {
  }

  lemma DashReads(a: string, z: string, low: int, high: int, names: Names)
    requires AllDigits(a) && a != [] && Atom(a, names) == Some(low) && Atom(z, names) == Some(high)
    ensures ReadBody(a + "-" + z, names) == Range(low, high)
  {
    var s := a + ['-'] + z;
    IndexOfMark(a, z, '-');
    assert s[|a|] == '-' && s[0] == a[0];
    assert s[..|a|] == a;
    assert s[|a| + 1..] == z;
  }

  lemma DashPlain(a: string, z: string)
    requires AllDigits(a) && AllDigits(z)
    ensures AllPlain(a + "-" + z) && '/' !in a + "-" + z
  {
  }

  lemma RangeReads(low: int, high: int, names: Names)
    requires Word(low) && Word(high)
    ensures var s := Number(low) + "-" + Number(high);
            ReadBody(s, names) == Range(low, high) && AllPlain(s) && '/' !in s
  {
    NumberIsAtom(low, names);
    NumberIsAtom(high, names);
    DashReads(Number(low), Number(high), low, high, names);
    DashPlain(Number(low), Number(high));
  }

  lemma BodyReads(b: Body, names: Names)
    requires BodyWritable(b)
    ensures ReadBody(WriteBody(b), names) == b && AllPlain(WriteBody(b)) && '/' !in WriteBody(b)
  {
    match b
    case Star =>
    case Single(v) =>
      NumberIsAtom(v, names);
      assert IsDigit(Number(v)[0]);
    case Range(low, high) =>
      RangeReads(low, high, names);
  }

  lemma SlashReads(b: string, n: string, body: Body, step: int, names: Names)
    requires '/' !in b && ReadBody(b, names) == body && Atoi(n) == Some(step)
    ensures ReadPart(b + "/" + n, names) == Part(body, Some(step))
  {
    var s := b + ['/'] + n;
    IndexOfMark(b, n, '/');
    assert s[..|b|] == b && s[|b| + 1..] == n;
  }

  lemma BareReads(b: string, body: Body, names: Names)
    requires '/' !in b && ReadBody(b, names) == body
    ensures ReadPart(b, names) == Part(body, None)
  {
    NoMark(b, '/');
    assert b[..|b|] == b;
  }

  lemma PartReads(p: Part, names: Names)
    requires PartWritable(p)
    ensures ReadPart(WritePart(p), names) == p && AllPlain(WritePart(p))
  {
    BodyReads(p.body, names);
    if p.slash.None? {
      BareReads(WriteBody(p.body), p.body, names);
    } else {
      NumberIsAtom(p.slash.value, names);
      SlashReads(WriteBody(p.body), Number(p.slash.value), p.body, p.slash.value, names);
      StaysPlain(WriteBody(p.body), Number(p.slash.value));
    }
  }

  lemma StaysPlain(b: string, n: string)
    requires AllPlain(b) && AllDigits(n)
    ensures AllPlain(b + "/" + n)
  {
  }

  lemma {:induction false} SplitJoined(texts: seq<string>, sep: char)
    requires texts != [] && forall k, i :: 0 <= k < |texts| && 0 <= i < |texts[k]| ==> texts[k][i] != sep
    ensures Split(Join(texts, sep), sep) == texts
    decreases |texts|
  {
    var s := Join(texts, sep);
    if |texts| == 1 {
      NoMark(texts[0], sep);
    } else {
      var rest := Join(texts[1..], sep);
      assert s == texts[0] + [sep] + rest;
      IndexOfMark(texts[0], rest, sep);
      assert s[..|texts[0]|] == texts[0] && s[|texts[0]| + 1..] == rest;
      forall k, i | 0 <= k < |texts[1..]| && 0 <= i < |texts[1..][k]|
        ensures texts[1..][k][i] != sep
      {
        assert texts[1..][k] == texts[k + 1];
      }
      SplitJoined(texts[1..], sep);
    }
  }

  predicate Clean(s: string) {
    0 < |s| && forall i :: 0 <= i < |s| ==> Plain(s[i]) || s[i] == ','
  }

  lemma {:induction false} JoinedIsClean(texts: seq<string>)
    requires texts != [] && forall k :: 0 <= k < |texts| ==> AllPlain(texts[k])
    ensures Clean(Join(texts, ','))
    decreases |texts|
  {
    assert AllPlain(texts[0]);
    if |texts| > 1 {
      forall k | 0 <= k < |texts[1..]|
        ensures AllPlain(texts[1..][k])
      {
        assert texts[1..][k] == texts[k + 1];
      }
      JoinedIsClean(texts[1..]);
    }
  }

  /** A field that is written is read back. */
  lemma FieldReads(parts: seq<Part>, names: Names)
    requires parts != [] && FieldWritable(parts)
    ensures ReadField(WriteField(parts), names) == parts && Clean(WriteField(parts))
  {
    var texts := WriteParts(parts);
    forall k | 0 <= k < |texts|
      ensures AllPlain(texts[k]) && ReadPart(texts[k], names) == parts[k]
    {
      PartReads(parts[k], names);
    }
    SplitJoined(texts, ',');
    JoinedIsClean(texts);
  }

  lemma WordEnds(a: string, b: string)
    requires forall i :: 0 <= i < |a| ==> !IsSpace(a[i])
    ensures WordLength(a + [' '] + b) == |a| && WordLength(a) == |a|
  {
    var s := a + [' '] + b;
    assert s[|a|] == ' ';
    assert forall i :: 0 <= i < |a| ==> s[i] == a[i];
  }

  /** A word: something, without a space. */
  predicate Solid(s: string) {
    0 < |s| && forall i :: 0 <= i < |s| ==> !IsSpace(s[i])
  }

  lemma {:induction false} WordsJoined(texts: seq<string>)
    requires texts != [] && forall k :: 0 <= k < |texts| ==> Solid(texts[k])
    ensures Words(Join(texts, ' ')) == texts
    decreases |texts|
  {
    var s, first := Join(texts, ' '), texts[0];
    assert Solid(first);
    if |texts| == 1 {
      WordEnds(first, "");
      assert first[..|first|] == first && first[|first|..] == [];
    } else {
      var rest := Join(texts[1..], ' ');
      assert s == first + [' '] + rest;
      WordEnds(first, rest);
      assert s[..|first|] == first && s[|first|..] == [' '] + rest && ([' '] + rest)[1..] == rest;
      forall k | 0 <= k < |texts[1..]|
        ensures Solid(texts[1..][k])
      {
        assert texts[1..][k] == texts[k + 1];
      }
      WordsJoined(texts[1..]);
    }
  }

  lemma CleanSpeaks(s: string)
    requires Clean(s)
    ensures Speaks(s) && Solid(s)
  {
  }

  function WriteWords(f: Fields): seq<string>
    requires Writable(f)
  {
    [WriteField(f.second), WriteField(f.minute), WriteField(f.hour), WriteField(f.dom), WriteField(f.month),
     WriteField(f.dow)]
  }

  /** Word `k` is the text of field `k`, and speaks this dialect. */
  predicate ReadsAt(w: seq<string>, f: Fields, k: int)
    requires |w| == 6 && 0 <= k < 6
  {
    ReadField(w[k], NamesAt(k)) == FieldAt(f, k) && Speaks(w[k])
  }

  lemma ReadWordsOf(w: seq<string>, f: Fields)
    requires |w| == 6 && forall k :: 0 <= k < 6 ==> ReadsAt(w, f, k)
    ensures ReadWords(w) == Some(f)
  {
    assert ReadsAt(w, f, 0) && ReadsAt(w, f, 1) && ReadsAt(w, f, 2) && ReadsAt(w, f, 3) && ReadsAt(w, f, 4)
      && ReadsAt(w, f, 5);
  }

  lemma WrittenAt(f: Fields, k: int)
    requires Writable(f) && 0 <= k < 6
    ensures Solid(WriteWords(f)[k]) && ReadsAt(WriteWords(f), f, k)
  {
    var parts := FieldAt(f, k);
    FieldReads(parts, NamesAt(k));
    assert WriteWords(f)[k] == WriteField(parts);
    CleanSpeaks(WriteField(parts));
  }

  /** Round trip: every expression made of numbers can be written down, and reads back as it was. */
  lemma RoundTrip(f: Fields)
    requires Writable(f)
    ensures Read(Write(f)) == Some(f)
  {
    var w := WriteWords(f);
    forall k | 0 <= k < 6
      ensures Solid(w[k]) && ReadsAt(w, f, k)
    {
      WrittenAt(f, k);
    }
    ReadWordsOf(w, f);
    WordsJoined(w);
  }

  // ----- names ---------------------------------------------------------------------------

  predicate IsLetter(c: char) {
    'A' <= c <= 'Z'
  }

  /** The names, January and Sunday first. */
  const MONTHS := ["JAN", "FEB", "MAR", "APR", "MAY", "JUN", "JUL", "AUG", "SEP", "OCT", "NOV", "DEC"]
  const DAYS := ["SUN", "MON", "TUE", "WED", "THU", "FRI", "SAT"]

  /** `s` spells the name of `v`, in whatever case. */
  predicate SpellsName(s: string, names: Names, v: int) {
    match names
    case NoNames => false
    case MonthNames => 1 <= v <= 12 && ToUpper(s) == MONTHS[v - 1]
    case DayNames => 0 <= v <= 6 && ToUpper(s) == DAYS[v]
  }

  lemma MonthsNamed(u: string, v: int)
    ensures Month(u) == Some(v) <==> 1 <= v <= 12 && u == MONTHS[v - 1]
  {
    if Month(u).Some? { assert u == [u[0], u[1], u[2]]; }
  }

  lemma DaysNamed(u: string, v: int)
    ensures Day(u) == Some(v) <==> 0 <= v <= 6 && u == DAYS[v]
  {
    if Day(u).Some? { assert u == [u[0], u[1], u[2]]; }
  }

  /** Looking a name up finds its place in the list. */
  lemma NamedIff(s: string, names: Names, v: int)
    ensures Named(ToUpper(s), names) == Some(v) <==> SpellsName(s, names, v)
  {
    MonthsNamed(ToUpper(s), v);
    DaysNamed(ToUpper(s), v);
  }

  lemma NameIsLetters(s: string, names: Names, v: int)
    requires SpellsName(s, names, v)
    ensures |s| == 3 && forall i :: 0 <= i < 3 ==> IsLetter(Upper(s[i]))
  {
    var u := ToUpper(s);
    assert |u| == 3 && IsLetter(u[0]) && IsLetter(u[1]) && IsLetter(u[2]);
  }

  lemma LetterIsNoMark(c: char)
    requires IsLetter(Upper(c))
    ensures c != ',' && c != '/' && c != '-' && c != '*' && !IsSpace(c)
  {
  }

  /** A name standing alone is read as its value. */
  lemma NameReads(s: string, names: Names, v: int)
    requires SpellsName(s, names, v)
    ensures ReadField(s, names) == [Part(Single(v), None)] && Solid(s)
  {
    NameIsLetters(s, names, v);
    forall i | 0 <= i < 3
      ensures s[i] != ',' && s[i] != '/' && s[i] != '-' && s[i] != '*' && !IsSpace(s[i])
    {
      LetterIsNoMark(s[i]);
    }
    NoMark(s, ',');
    NameBodyReads(s, names, v);
    BareReads(s, Single(v), names);
    assert Split(s, ',') == [s];
  }

  lemma NamedBodyReads(s: string, names: Names, v: int)
    requires Named(ToUpper(s), names) == Some(v) && |s| == 3 && '-' !in s
    ensures ReadBody(s, names) == Single(v)
  {
  }

  lemma NameBodyReads(s: string, names: Names, v: int)
    requires SpellsName(s, names, v) && |s| == 3 && '-' !in s
    ensures ReadBody(s, names) == Single(v)
  {
    NamedIff(s, names, v);
    NamedBodyReads(s, names, v);
  }

  /** The two names a capital letter of another dialect hides in. */
  predicate Shadowed(s: string, names: Names, v: int)
    requires |s| == 3
  {
    (names.DayNames? && v == 3 && s[0] == 'W') || (names.MonthNames? && v == 7 && s[2] == 'L')
  }

  lemma NameSpeaksIff(s: string, names: Names, v: int)
    requires SpellsName(s, names, v) && |s| == 3
    ensures Speaks(s) <==> !Shadowed(s, names, v)
  {
    var u := ToUpper(s);
    assert u[0] == Upper(s[0]) && u[1] == Upper(s[1]) && u[2] == Upper(s[2]);
    if Shadowed(s, names, v) {
      assert Foreign(s[0]) || Foreign(s[2]);
    }
  }

  /** Fields with one of them replaced by a single value. */
  function WithName(f: Fields, names: Names, v: int): Fields {
    match names
    case NoNames => f
    case MonthNames => f.(month := [Part(Single(v), None)])
    case DayNames => f.(dow := [Part(Single(v), None)])
  }

  /** The text of `f` with a name in the field that may hold one. */
  function Naming(f: Fields, names: Names, s: string): seq<string>
    requires Writable(f)
  {
    match names
    case NoNames => WriteWords(f)
    case MonthNames => WriteWords(f)[4 := s]
    case DayNames => WriteWords(f)[5 := s]
  }

  lemma NamingReads(f: Fields, names: Names, s: string, v: int, k: int)
    requires Writable(f) && !names.NoNames? && SpellsName(s, names, v) && 0 <= k < 6
    ensures var w := Naming(f, names, s);
            Solid(w[k]) && ReadField(w[k], NamesAt(k)) == FieldAt(WithName(f, names, v), k)
    ensures NamesAt(k) != names ==> Speaks(Naming(f, names, s)[k])
    ensures NamesAt(k) == names ==> Naming(f, names, s)[k] == s
  {
    WrittenAt(f, k);
    NameReads(s, names, v);
  }

  /** Named months and weekdays are read in any spelling, except that an upper-case W refuses Wednesday and an
      upper-case L refuses July: the letters another dialect uses are refused wherever they occur. */
  lemma NamesAreReadIff(f: Fields, names: Names, s: string, v: int)
    requires Writable(f) && !names.NoNames? && SpellsName(s, names, v) && |s| == 3
    ensures Read(Join(Naming(f, names, s), ' ')) == if Shadowed(s, names, v) then None else Some(WithName(f, names, v))
  {
    var w := Naming(f, names, s);
    forall k | 0 <= k < 6
      ensures Solid(w[k]) && ReadField(w[k], NamesAt(k)) == FieldAt(WithName(f, names, v), k)
      ensures NamesAt(k) != names ==> Speaks(w[k])
      ensures NamesAt(k) == names ==> w[k] == s
    {
      NamingReads(f, names, s, v, k);
    }
    WordsJoined(w);
    NameSpeaksIff(s, names, v);
    if Shadowed(s, names, v) {
      assert !Speaks(w[if names.MonthNames? then 4 else 5]);
    } else {
      forall k | 0 <= k < 6
        ensures ReadsAt(w, WithName(f, names, v), k)
      {
      }
      ReadWordsOf(w, WithName(f, names, v));
    }
  }

  // ----- parsing -------------------------------------------------------------------------

  /** Whatever is read, its steps are words. */
  lemma ReadPartIsWord(s: string, names: Names)
    ensures PartIsWord(ReadPart(s, names))
  {
  }

  lemma FieldReadIsWords(word: string, names: Names)
    ensures FieldIsWords(ReadField(word, names)) && 0 < |ReadField(word, names)|
  {
    var texts := Split(word, ',');
    forall i | 0 <= i < |texts|
      ensures PartIsWord(ReadField(word, names)[i])
    {
      ReadPartIsWord(texts[i], names);
    }
  }

  lemma FieldOfWords(w: seq<string>, k: int)
    requires ReadWords(w).Some? && 0 <= k < 6
    ensures |w| == 6 && FieldAt(ReadWords(w).value, k) == ReadField(w[k], NamesAt(k))
  {
  }

  lemma ReadIsWords(text: string)
    requires Read(text).Some?
    ensures FieldsAreWords(Read(text).value) && 0 < |Read(text).value.dow|
  {
    var f := Read(text).value;
    forall k | 0 <= k < 6
      ensures FieldIsWords(FieldAt(f, k)) && 0 < |FieldAt(f, k)|
    {
      FieldOfWords(Words(text), k);
      FieldReadIsWords(Words(text)[k], NamesAt(k));
    }
    assert 0 < |FieldAt(f, 5)|;
  }

  /** The texts that are expressions: six words of this dialect, fine in every part, matched by something. */
  ghost predicate Accepts(text: string) {
    Read(text).Some? && FineBefore(Read(text).value, 6) && Satisfiable(Denoted(Read(text).value))
  }

  /** The texts that send the parser outside a table: before anything else is wrong, some step overruns. */
  predicate Crashes(text: string) {
    Read(text).Some? && ExpressionCrashes(Read(text).value)
  }

  ghost predicate Refuses(text: string) {
    || Read(text).None?
    || ExpressionRefused(Read(text).value)
    || (FineBefore(Read(text).value, 6) && !Satisfiable(Denoted(Read(text).value)))
  }

  /** Accepts, refuses and crashes on exactly those texts; what it accepts becomes the tables it denotes. */
  method ParseText(text: string) returns (r: Outcome<Expression>)
    ensures r.Accepted? <==> Accepts(text)
    ensures r.Refused? <==> Refuses(text)
    ensures r.Crashed? <==> Crashes(text)
    ensures r.Accepted? ==> r.value == Denoted(Read(text).value)
  {
    var f := Read(text);
    if f.None? {
      return Refused;
    }
    ReadIsWords(text);
    r := Parse(f.value);
  }

  // ----- a text on which it crashes ------------------------------------------------------

  const ZERO := [Part(Single(0), None)]
  const ANY := [Part(Star, None)]

  /** Midnight, every so many days. */
  function EveryDays(step: int): Fields {
    Fields(ZERO, ZERO, ZERO, [Part(Star, Some(step))], ANY, ANY)
  }

  lemma EveryDaysFine(step: int, k: int)
    requires 0 <= k < 6 && k != 3
    ensures FieldFine(FieldAt(EveryDays(step), k), Lo(k), Hi(k))
  {
  }

  lemma EveryDaysOverrunsIff(step: int)
    requires Word(step)
    ensures ExpressionCrashes(EveryDays(step)) <==> step == WORD_LIMIT - 1
  {
    var f := EveryDays(step);
    forall k | 0 <= k < 6 && k != 3
      ensures FieldFine(FieldAt(f, k), Lo(k), Hi(k)) && !FieldCrashes(FieldAt(f, k), Lo(k), Hi(k))
    {
      EveryDaysFine(step, k);
      OneFateOfField(FieldAt(f, k), Lo(k), Hi(k));
    }
    var p := FieldAt(f, 3)[0];
    assert Overruns(p, 1) <==> step == WORD_LIMIT - 1;
    if step == WORD_LIMIT - 1 {
      assert FineUpTo(FieldAt(f, 3), 1, 31, 0) && PartOk(p, 1, 31);
      assert FineBefore(f, 3) && FieldCrashes(FieldAt(f, 3), Lo(3), Hi(3));
    }
  }

  /** Of all the steps a text can hold, the greatest crashes the parser, and no other. */
  lemma EveryDaysCrashesIff(step: int)
    requires Word(step)
    ensures Writable(EveryDays(step)) && (Crashes(Write(EveryDays(step))) <==> step == WORD_LIMIT - 1)
  {
    RoundTrip(EveryDays(step));
    EveryDaysOverrunsIff(step);
  }

  lemma Appended(n: nat, d: int, s: string)
    requires 1 <= n && 0 <= d <= 9 && Number(n) == s
    ensures Number(10 * n + d) == s + [Digit(d)]
  {
  }

  lemma FirstDigits()
    ensures Number(9223372) == "9223372"
  {
    Appended(9, 2, "9");
    Appended(92, 2, "92");
    Appended(922, 3, "922");
    Appended(9223, 3, "9223");
    Appended(92233, 7, "92233");
    Appended(922337, 2, "922337");
  }

  lemma MoreDigits()
    ensures Number(9223372036854) == "9223372036854"
  {
    FirstDigits();
    Appended(9223372, 0, "9223372");
    Appended(92233720, 3, "92233720");
    Appended(922337203, 6, "922337203");
    Appended(9223372036, 8, "9223372036");
    Appended(92233720368, 5, "92233720368");
    Appended(922337203685, 4, "922337203685");
  }

  lemma GreatestStep()
    ensures Number(WORD_LIMIT - 1) == "9223372036854775807"
  {
    MoreDigits();
    Appended(9223372036854, 7, "9223372036854");
    Appended(92233720368547, 7, "92233720368547");
    Appended(922337203685477, 5, "922337203685477");
    Appended(9223372036854775, 8, "9223372036854775");
    Appended(92233720368547758, 0, "92233720368547758");
    Appended(922337203685477580, 7, "922337203685477580");
  }

  lemma JoinedSix(w: seq<string>)
    requires |w| == 6
    ensures Join(w, ' ') == w[0] + " " + (w[1] + " " + (w[2] + " " + (w[3] + " " + (w[4] + " " + w[5]))))
  {
    assert Join(w[5..], ' ') == w[5];
    assert Join(w[4..], ' ') == w[4] + " " + w[5] by { assert w[4..][1..] == w[5..]; }
    assert Join(w[3..], ' ') == w[3] + " " + Join(w[4..], ' ') by { assert w[3..][1..] == w[4..]; }
    assert Join(w[2..], ' ') == w[2] + " " + Join(w[3..], ' ') by { assert w[2..][1..] == w[3..]; }
    assert Join(w[1..], ' ') == w[1] + " " + Join(w[2..], ' ') by { assert w[1..][1..] == w[2..]; }
  }

  lemma LonePart(p: Part)
    requires PartWritable(p)
    ensures WriteField([p]) == WritePart(p)
  {
    assert WriteParts([p]) == [WritePart(p)];
  }

  lemma EveryDaysText(step: int)
    requires Word(step)
    ensures Writable(EveryDays(step))
    ensures Write(EveryDays(step)) ==
            "0" + " " + ("0" + " " + ("0" + " " + ("*" + "/" + Number(step) + " " + ("*" + " " + "*"))))
  {
    LonePart(Part(Single(0), None));
    LonePart(Part(Star, None));
    LonePart(Part(Star, Some(step)));
    JoinedSix(WriteWords(EveryDays(step)));
  }

  lemma Regrouped(n: string)
    ensures "0" + " " + ("0" + " " + ("0" + " " + ("*" + "/" + n + " " + ("*" + " " + "*")))) == "0 0 0 */" + n + " * *"
  {
    var tail := n + " * *";
    assert "*" + "/" + n + " " + ("*" + " " + "*") == "*/" + tail;
    assert "0" + " " + ("*/" + tail) == "0 */" + tail;
    assert "0" + " " + ("0 */" + tail) == "0 0 */" + tail;
    assert "0" + " " + ("0 0 */" + tail) == "0 0 0 */" + tail;
  }

  /** A text an operator can send. */
  lemma GreatestStepCrashes(text: string)
    requires text == "0 0 0 */" + "9223372036854775807" + " * *"
    ensures Crashes(text)
  {
    var step := WORD_LIMIT - 1;
    GreatestStep();
    Regrouped(Number(step));
    EveryDaysText(step);
    EveryDaysCrashesIff(step);
  }
}
