/** From the parts of a six-field expression to its tables, and the refusal of expressions that can never
  fire. A field arrives as its list of parts, each of them read or garbled; one part with an enormous step
  sends the parser outside its table. */
module CronParse {
  import opened Rows
  import opened Machine
  import opened Calendar
  import opened Cron

  datatype Body = Star | Range(low: int, high: int) | Single(value: int) | Garbled

  /** One element of a comma-separated list: a body, and what follows its slash. */
  datatype Part = Part(body: Body, slash: Option<int>)

  datatype Fields = Fields(
    second: seq<Part>, minute: seq<Part>, hour: seq<Part>, dom: seq<Part>, month: seq<Part>, dow: seq<Part>)

  /** The six fields in the order they are read. */
  function FieldAt(f: Fields, k: int): seq<Part>
    requires 0 <= k < 6
  {
    [f.second, f.minute, f.hour, f.dom, f.month, f.dow][k]
  }

  function Lo(k: int): int {
    if k == 3 || k == 4 then 1 else 0
  }

  function Hi(k: int): (hi: int)
    ensures Lo(k) <= hi <= 59
  {
    if k == 0 || k == 1 then 59 else if k == 2 then 23 else if k == 3 then 31 else if k == 4 then 12 else 7
  }

  predicate InBounds(v: int, lo: int, hi: int) {
    lo <= v <= hi
  }

  predicate PartOk(p: Part, lo: int, hi: int) {
    && (p.slash.Some? ==> 1 <= p.slash.value)
    && match p.body
       case Star => true
       case Range(a, b) => InBounds(a, lo, hi) && InBounds(b, lo, hi) && a <= b
       case Single(v) => InBounds(v, lo, hi)
       case Garbled => false
  }

  function Stride(p: Part): int {
    if p.slash.Some? then p.slash.value else 1
  }

  function From(p: Part, lo: int): int {
    match p.body
    case Star => lo
    case Range(a, _) => a
    case Single(v) => v
    case Garbled => lo
  }

  /** A single value with a step runs to the end of its field. */
  function To(p: Part, hi: int): int {
    match p.body
    case Star => hi
    case Range(_, b) => b
    case Single(v) => if Stride(p) > 1 then hi else v
    case Garbled => hi
  }

  /** `v` is `j` strides into the part. */
  predicate Hit(p: Part, lo: int, hi: int, v: int, j: int) {
    0 <= j && v == From(p, lo) + j * Stride(p) && v <= To(p, hi)
  }

  ghost predicate Denotes(p: Part, lo: int, hi: int, v: int) {
    exists j :: Hit(p, lo, hi, v, j)
  }

  ghost predicate FieldDenotes(parts: seq<Part>, lo: int, hi: int, v: int) {
    exists i :: 0 <= i < |parts| && Denotes(parts[i], lo, hi, v)
  }

  predicate FieldOk(parts: seq<Part>, lo: int, hi: int) {
    forall i :: 0 <= i < |parts| ==> PartOk(parts[i], lo, hi)
  }

  // ----- what becomes of a field ---------------------------------------------------------

  /** Steps are read as words. */
  predicate PartIsWord(p: Part) {
    p.slash.Some? ==> IsWord(p.slash.value)
  }

  predicate FieldIsWords(parts: seq<Part>) {
    forall i :: 0 <= i < |parts| ==> PartIsWord(parts[i])
  }

  /** The first step leaves the word. */
  predicate Overruns(p: Part, lo: int) {
    WORD_LIMIT <= From(p, lo) + Stride(p)
  }

  predicate PartFine(p: Part, lo: int, hi: int) {
    PartOk(p, lo, hi) && !Overruns(p, lo)
  }

  predicate FieldFine(parts: seq<Part>, lo: int, hi: int) {
    forall i :: 0 <= i < |parts| ==> PartFine(parts[i], lo, hi)
  }

  /** Everything before part `i` is fine. */
  predicate FineUpTo(parts: seq<Part>, lo: int, hi: int, i: int)
    requires 0 <= i <= |parts|
  {
    forall k :: 0 <= k < i ==> PartFine(parts[k], lo, hi)
  }

  /** The first part that is not fine is well formed, and overruns. */
  predicate FieldCrashes(parts: seq<Part>, lo: int, hi: int) {
    exists i :: 0 <= i < |parts| && FineUpTo(parts, lo, hi, i) && PartOk(parts[i], lo, hi) && Overruns(parts[i], lo)
  }

  /** The first part that is not fine is ill formed. */
  predicate FieldRefused(parts: seq<Part>, lo: int, hi: int) {
    exists i :: 0 <= i < |parts| && FineUpTo(parts, lo, hi, i) && !PartOk(parts[i], lo, hi)
  }

  predicate FineBefore(f: Fields, k: int)
    requires 0 <= k <= 6
  {
    forall j :: 0 <= j < k ==> FieldFine(FieldAt(f, j), Lo(j), Hi(j))
  }

  /** The whole expression: the first field that is not fine decides. */
  predicate ExpressionCrashes(f: Fields) {
    exists k :: 0 <= k < 6 && FineBefore(f, k) && FieldCrashes(FieldAt(f, k), Lo(k), Hi(k))
  }

  predicate ExpressionRefused(f: Fields) {
    exists k :: 0 <= k < 6 && FineBefore(f, k) && FieldRefused(FieldAt(f, k), Lo(k), Hi(k))
  }

  lemma {:induction false} FirstBadPart(parts: seq<Part>, lo: int, hi: int, n: nat)
    requires n <= |parts|
    ensures FineUpTo(parts, lo, hi, n) || FieldCrashes(parts, lo, hi) || FieldRefused(parts, lo, hi)
  {
    if n > 0 {
      FirstBadPart(parts, lo, hi, n - 1);
      if FineUpTo(parts, lo, hi, n - 1) && PartOk(parts[n - 1], lo, hi) {
        assert PartFine(parts[n - 1], lo, hi) || Overruns(parts[n - 1], lo);
      }
    }
  }

  lemma OneFateOfField(parts: seq<Part>, lo: int, hi: int)
    ensures FieldFine(parts, lo, hi) || FieldCrashes(parts, lo, hi) || FieldRefused(parts, lo, hi)
    ensures !(FieldFine(parts, lo, hi) && FieldCrashes(parts, lo, hi))
    ensures !(FieldFine(parts, lo, hi) && FieldRefused(parts, lo, hi))
    ensures !(FieldCrashes(parts, lo, hi) && FieldRefused(parts, lo, hi))
  {
    FirstBadPart(parts, lo, hi, |parts|);
  }

  lemma {:induction false} FirstBadField(f: Fields, n: nat)
    requires n <= 6
    ensures FineBefore(f, n) || ExpressionCrashes(f) || ExpressionRefused(f)
  {
    if n > 0 {
      FirstBadField(f, n - 1);
      OneFateOfField(FieldAt(f, n - 1), Lo(n - 1), Hi(n - 1));
    }
  }

  /** Every expression has exactly one of the three fates. */
  lemma OneFate(f: Fields)
    ensures FineBefore(f, 6) || ExpressionCrashes(f) || ExpressionRefused(f)
    ensures !(FineBefore(f, 6) && ExpressionCrashes(f)) && !(FineBefore(f, 6) && ExpressionRefused(f))
    ensures !(ExpressionCrashes(f) && ExpressionRefused(f))
  {
    FirstBadField(f, 6);
    forall k | 0 <= k < 6
      ensures !(FieldFine(FieldAt(f, k), Lo(k), Hi(k)) && FieldCrashes(FieldAt(f, k), Lo(k), Hi(k)))
      ensures !(FieldFine(FieldAt(f, k), Lo(k), Hi(k)) && FieldRefused(FieldAt(f, k), Lo(k), Hi(k)))
      ensures !(FieldCrashes(FieldAt(f, k), Lo(k), Hi(k)) && FieldRefused(FieldAt(f, k), Lo(k), Hi(k)))
    {
      OneFateOfField(FieldAt(f, k), Lo(k), Hi(k));
    }
  }

  // ----- one field -----------------------------------------------------------------------

  lemma StridesGrow(stride: int, i: int, j: int)
    requires 1 <= stride && i <= j
    ensures i * stride <= j * stride && (i < j ==> i * stride < j * stride) && (j + 1) * stride == j * stride + stride
  {
  }

  lemma PartHits(p: Part, lo: int, hi: int, v: int, j: int)
    requires PartOk(p, lo, hi) && Hit(p, lo, hi, v, j)
    ensures lo <= v <= hi
  {
  }

  /** Marks what one part denotes and nothing else. The cursor is a machine word: it leaves the table, and the
      parser crashes, exactly when the first step overruns the word. */
  method MarkPart(p: Part, lo: int, hi: int, table: array<bool>) returns (crashed: bool)
    requires 0 <= lo <= hi < table.Length && hi <= 59 && PartOk(p, lo, hi) && PartIsWord(p)
    modifies table
    ensures crashed <==> Overruns(p, lo)
    ensures !crashed ==>
              forall v :: 0 <= v < table.Length ==> (table[v] <==> old(table[v]) || Denotes(p, lo, hi, v))
  {
    var v, step := From(p, lo), Stride(p);
    ghost var k := 0;
    while v <= To(p, hi)
      invariant 0 <= k && (v < 0 ==> Overruns(p, lo))
      invariant 0 <= v ==> v == From(p, lo) + k * step && lo <= v && (0 < k ==> !Overruns(p, lo))
      invariant 0 <= v ==> forall w :: 0 <= w < table.Length ==>
                (table[w] <==> old(table[w]) || HitBefore(p, lo, hi, w, k))
      decreases if v < 0 then 0 else To(p, hi) - v + 1
    {
      if v < 0 || table.Length <= v {
        return true;
      }
      assert Hit(p, lo, hi, v, k);
      PartHits(p, lo, hi, v, k);
      ghost var was := table[..];
      table[v] := true;
      forall w | 0 <= w < table.Length
        ensures table[w] <==> old(table[w]) || HitBefore(p, lo, hi, w, k + 1)
      {
        assert table[w] <==> was[w] || w == v;
        assert Hit(p, lo, hi, w, k) <==> w == v;
      }
      StepStaysOrOverruns(p, lo, hi, v, k);
      v := Wrapped(v + step);
      k := k + 1;
    }
    forall w | 0 <= w < table.Length
      ensures Denotes(p, lo, hi, w) <==> HitBefore(p, lo, hi, w, k)
    {
      AllHitBefore(p, lo, hi, w, k, v);
    }
    return false;
  }

  ghost predicate HitBefore(p: Part, lo: int, hi: int, v: int, k: int) {
    exists j :: 0 <= j < k && Hit(p, lo, hi, v, j)
  }

  lemma AllHitBefore(p: Part, lo: int, hi: int, w: int, k: int, v: int)
    requires PartOk(p, lo, hi) && v == From(p, lo) + k * Stride(p) && To(p, hi) < v
    ensures Denotes(p, lo, hi, w) <==> HitBefore(p, lo, hi, w, k)
  {
    if Denotes(p, lo, hi, w) {
      var j :| Hit(p, lo, hi, w, j);
      if k <= j { StridesGrow(Stride(p), k, j); }
    }
  }

  /** Only the first step can overrun: one that stayed in the field once is short. */
  lemma StepStaysOrOverruns(p: Part, lo: int, hi: int, v: int, k: int)
    requires 0 <= lo <= hi <= 59 && PartOk(p, lo, hi) && PartIsWord(p) && Hit(p, lo, hi, v, k)
    requires 0 < k ==> !Overruns(p, lo)
    ensures if Overruns(p, lo) then Wrapped(v + Stride(p)) < 0
            else Wrapped(v + Stride(p)) == From(p, lo) + (k + 1) * Stride(p)
  {
    PartHits(p, lo, hi, v, k);
    StridesGrow(Stride(p), k, k);
    if 0 < k { StridesGrow(Stride(p), 1, k); }
  }

  /** What becomes of a field, or of a whole expression. */
  datatype Outcome<T> = Accepted(value: T) | Refused | Crashed

  /** Reads one field into its table; the first part that is not fine refuses the field or crashes. */
  method ParseInto(parts: seq<Part>, lo: int, hi: int, table: array<bool>) returns (r: Outcome<()>)
    requires 0 <= lo <= hi < table.Length && hi <= 59 && forall v :: 0 <= v < table.Length ==> !table[v]
    requires FieldIsWords(parts)
    modifies table
    ensures r.Accepted? <==> FieldFine(parts, lo, hi)
    ensures r.Refused? <==> FieldRefused(parts, lo, hi)
    ensures r.Crashed? <==> FieldCrashes(parts, lo, hi)
    ensures r.Accepted? ==> table[..] == Table(parts, lo, hi, table.Length)
  {
    OneFateOfField(parts, lo, hi);
    for i := 0 to |parts|
      invariant FineUpTo(parts, lo, hi, i)
      invariant forall v :: 0 <= v < table.Length ==>
                  (table[v] <==> exists k :: 0 <= k < i && Denotes(parts[k], lo, hi, v))
    {
      if !PartOk(parts[i], lo, hi) {
        return Refused;
      }
      var crashed := MarkPart(parts[i], lo, hi, table);
      if crashed {
        return Crashed;
      }
    }
    return Accepted(());
  }

  /** The table a field denotes. */
  ghost function Table(parts: seq<Part>, lo: int, hi: int, n: nat): seq<bool> {
    seq(n, v requires 0 <= v < n => FieldDenotes(parts, lo, hi, v))
  }

  // ----- the whole expression ------------------------------------------------------------

  method AllSet(s: seq<bool>) returns (all: bool)
    ensures all <==> forall i :: 0 <= i < |s| ==> s[i]
  {
    for i := 0 to |s|
      invariant forall k :: 0 <= k < i ==> s[k]
    {
      if !s[i] { return false; }
    }
    return true;
  }

  method AnySet(s: seq<bool>) returns (any: bool)
    ensures any <==> exists i :: 0 <= i < |s| && s[i]
  {
    for i := 0 to |s|
      invariant forall k :: 0 <= k < i ==> !s[k]
    {
      if s[i] { return true; }
    }
    return false;
  }

  predicate Any(s: seq<bool>) {
    exists i :: 0 <= i < |s| && s[i]
  }

  predicate All(s: seq<bool>) {
    forall i :: 0 <= i < |s| ==> s[i]
  }

  /** Restricted means: excludes something it could have matched. */
  predicate Flagged(e: Expression)
    requires Shaped(e)
  {
    && (e.domRestricted <==> !All(e.dom[1..]))
    && (e.dowRestricted <==> !All(e.dow))
    && !e.month[0]
  }

  predicate SomeDate(e: Expression)
    requires Shaped(e)
  {
    exists m, d :: 1 <= m <= 12 && e.month[m] && 1 <= d <= DaysIn(m, 2024) && e.dom[d]
  }

  /** What can match, in terms of the tables alone. */
  predicate Possible(e: Expression)
    requires Shaped(e)
  {
    && Any(e.second) && Any(e.minute) && Any(e.hour) && Any(e.month)
    && (!e.domRestricted || e.dowRestricted || SomeDate(e))
  }

  lemma SatisfiableIsPossible(e: Expression, c: Civil)
    requires Shaped(e) && Flagged(e) && Valid(c) && Matches(e, c)
    ensures Possible(e)
  {
  }

  lemma PossibleIsSatisfiable(e: Expression)
    requires Shaped(e) && Flagged(e) && Any(e.dow) && Possible(e)
    ensures Satisfiable(e)
  {
    var s :| 0 <= s < 60 && e.second[s];
    var mi :| 0 <= mi < 60 && e.minute[mi];
    var h :| 0 <= h < 24 && e.hour[h];
    var m :| 0 <= m < 13 && e.month[m];
    var c := Civil(2024, m, 1, h, mi, s);
    if e.dowRestricted {
      var wd :| 0 <= wd < 7 && e.dow[wd];
      c := c.(day := FirstDay(2024, m, wd));
    } else if e.domRestricted {
      var m', d :| 1 <= m' <= 12 && e.month[m'] && 1 <= d <= DaysIn(m', 2024) && e.dom[d];
      c := c.(month := m', day := d);
    }
    assert Valid(c) && Matches(e, c);
  }

  /** The one table accepted although nothing matches it: every day of the month, no weekday. No field list
      denotes it, since a weekday field that is well formed sets some weekday. */
  predicate Weekless(e: Expression)
    requires Shaped(e)
  {
    Any(e.second) && Any(e.minute) && Any(e.hour) && Any(e.month) && !e.domRestricted && !Any(e.dow)
  }

  lemma WeeklessIsBarren(e: Expression)
    requires Shaped(e) && Flagged(e) && Weekless(e)
    ensures !Satisfiable(e)
  {
    NoWeekdayNoRescue(e);
    forall c | Valid(c)
      ensures !Matches(e, c)
    {
      assert !e.dow[Weekday(c.year, c.month, c.day)];
    }
  }

  lemma NoWeekdayNoRescue(e: Expression)
    requires Shaped(e) && Flagged(e) && !Any(e.dow)
    ensures e.dowRestricted
  {
    assert !e.dow[0];
  }

  /** A month and a day that some year has. */
  lemma DatedIsSatisfiable(e: Expression)
    requires Shaped(e) && Flagged(e) && e.domRestricted && SomeDate(e)
    requires Any(e.second) && Any(e.minute) && Any(e.hour)
    ensures Satisfiable(e)
  {
    var s :| 0 <= s < 60 && e.second[s];
    var mi :| 0 <= mi < 60 && e.minute[mi];
    var h :| 0 <= h < 24 && e.hour[h];
    var m, d :| 1 <= m <= 12 && e.month[m] && 1 <= d <= DaysIn(m, 2024) && e.dom[d];
    assert Valid(Civil(2024, m, d, h, mi, s)) && Matches(e, Civil(2024, m, d, h, mi, s));
  }

  /** Without weekdays only dates can match. */
  lemma WeekdaylessNeedsDate(e: Expression, c: Civil)
    requires Shaped(e) && Flagged(e) && !Any(e.dow) && Valid(c) && Matches(e, c)
    ensures e.domRestricted && SomeDate(e)
  {
    NoWeekdayNoRescue(e);
    assert !e.dow[Weekday(c.year, c.month, c.day)];
    assert 1 <= c.month <= 12 && e.month[c.month] && 1 <= c.day <= DaysIn(c.month, 2024) && e.dom[c.day];
  }

  /** What the tests below decide, for every table. */
  predicate TablesPass(e: Expression)
    requires Shaped(e)
  {
    && Any(e.second) && Any(e.minute) && Any(e.hour) && Any(e.month)
    && (Any(e.dom[1..]) || Any(e.dow))
    && (!e.domRestricted || (e.dowRestricted && Any(e.dow)) || SomeDate(e))
  }

  lemma TablesPassIff(e: Expression)
    requires Shaped(e) && Flagged(e)
    ensures TablesPass(e) <==> Satisfiable(e) || Weekless(e)
    ensures Weekless(e) ==> !Satisfiable(e)
  {
    if Satisfiable(e) {
      var c :| Valid(c) && Matches(e, c);
      SatisfiableIsPossible(e, c);
      if !Any(e.dow) {
        WeekdaylessNeedsDate(e, c);
        var m, d :| 1 <= m <= 12 && e.month[m] && 1 <= d <= DaysIn(m, 2024) && e.dom[d];
        assert e.dom[1..][d - 1];
      }
    } else if Weekless(e) {
      assert All(e.dom[1..]);
      assert e.dom[1..][0];
    } else if TablesPass(e) && Any(e.dow) {
      PossibleIsSatisfiable(e);
    } else if TablesPass(e) {
      DatedIsSatisfiable(e);
    }
    if Weekless(e) { WeeklessIsBarren(e); }
  }

  /** Accepts an expression exactly when some wall-clock value matches it, the one weekless table apart. */
  method RejectUnsatisfiable(e: Expression) returns (ok: bool)
    requires Shaped(e) && Flagged(e)
    ensures ok <==> Satisfiable(e) || Weekless(e)
    ensures Weekless(e) ==> !Satisfiable(e)
  {
    TablesPassIff(e);
    var second := AnySet(e.second);
    var minute := AnySet(e.minute);
    var hour := AnySet(e.hour);
    var month := AnySet(e.month);
    if !second || !minute || !hour || !month {
      return false;
    }
    var dom := AnySet(e.dom[1..]);
    var dow := AnySet(e.dow);
    if !dom && !dow {
      return false;
    }
    if !e.domRestricted || (e.dowRestricted && dow) {
      return true;
    }
    for m := 1 to 13
      invariant forall k, d :: 1 <= k < m && e.month[k] && 1 <= d <= DaysIn(k, 2024) ==> !e.dom[d]
    {
      if e.month[m] {
        for d := 1 to DaysIn(m, 2024) + 1
          invariant forall k :: 1 <= k < d ==> !e.dom[k]
        {
          if e.dom[d] {
            return true;
          }
        }
      }
    }
    return false;
  }

  /** The tables an expression denotes: 7 is Sunday too. */
  ghost function Denoted(f: Fields): (e: Expression)
    ensures Shaped(e)
  {
    var dow8 := Table(f.dow, 0, 7, 8);
    var dow := if dow8[7] then dow8[..7][0 := true] else dow8[..7];
    var dom := Table(f.dom, 1, 31, 32);
    Expression(Table(f.second, 0, 59, 60), Table(f.minute, 0, 59, 60), Table(f.hour, 0, 23, 24),
               dom, Table(f.month, 1, 12, 13), dow, !All(dom[1..]), !All(dow))
  }

  predicate FieldsOk(f: Fields) {
    && FieldOk(f.second, 0, 59) && FieldOk(f.minute, 0, 59) && FieldOk(f.hour, 0, 23)
    && FieldOk(f.dom, 1, 31) && FieldOk(f.month, 1, 12) && FieldOk(f.dow, 0, 7)
  }

  predicate FieldsAreWords(f: Fields) {
    forall k :: 0 <= k < 6 ==> FieldIsWords(FieldAt(f, k))
  }

  lemma FineIsOk(f: Fields)
    requires FineBefore(f, 6)
    ensures FieldsOk(f)
  {
    forall k | 0 <= k < 6
      ensures FieldOk(FieldAt(f, k), Lo(k), Hi(k))
    {
      assert FieldFine(FieldAt(f, k), Lo(k), Hi(k));
    }
    assert FieldOk(FieldAt(f, 0), 0, 59) && FieldOk(FieldAt(f, 1), 0, 59) && FieldOk(FieldAt(f, 2), 0, 23);
    assert FieldOk(FieldAt(f, 3), 1, 31) && FieldOk(FieldAt(f, 4), 1, 12) && FieldOk(FieldAt(f, 5), 0, 7);
  }

  lemma FirstValueDenoted(parts: seq<Part>, lo: int, hi: int)
    requires 0 < |parts| && FieldOk(parts, lo, hi) && lo <= hi
    ensures FieldDenotes(parts, lo, hi, From(parts[0], lo)) && lo <= From(parts[0], lo) <= hi
  {
    var p := parts[0];
    assert Hit(p, lo, hi, From(p, lo), 0);
    assert Denotes(p, lo, hi, From(p, lo));
  }

  lemma NothingBelow(parts: seq<Part>, lo: int, hi: int, v: int)
    requires FieldOk(parts, lo, hi) && v < lo
    ensures !FieldDenotes(parts, lo, hi, v)
  {
  }

  lemma DenotedIsFlagged(f: Fields)
    requires FieldsOk(f) && 0 < |f.dow|
    ensures Flagged(Denoted(f)) && Any(Denoted(f).dow)
  {
    NothingBelow(f.month, 1, 12, 0);
    FirstValueDenoted(f.dow, 0, 7);
    var v, dow8 := From(f.dow[0], 0), Table(f.dow, 0, 7, 8);
    assert dow8[v];
    assert Denoted(f).dow[if v == 7 then 0 else v];
  }

  method ParseTable(f: Fields, k: int) returns (r: Outcome<seq<bool>>)
    requires 0 <= k < 6 && FieldsAreWords(f)
    ensures r.Accepted? <==> FieldFine(FieldAt(f, k), Lo(k), Hi(k))
    ensures r.Refused? <==> FieldRefused(FieldAt(f, k), Lo(k), Hi(k))
    ensures r.Crashed? <==> FieldCrashes(FieldAt(f, k), Lo(k), Hi(k))
    ensures r.Accepted? ==> r.value == Table(FieldAt(f, k), Lo(k), Hi(k), Hi(k) + 1)
  {
    var a := new bool[Hi(k) + 1](_ => false);
    var read := ParseInto(FieldAt(f, k), Lo(k), Hi(k), a);
    match read
    case Accepted(_) => return Accepted(a[..]);
    case Refused => return Refused;
    case Crashed => return Crashed;
  }

  /** Reads the six tables in order. */
  method ParseTables(f: Fields) returns (r: Outcome<seq<seq<bool>>>)
    requires FieldsAreWords(f)
    ensures r.Accepted? <==> FineBefore(f, 6)
    ensures r.Refused? <==> ExpressionRefused(f)
    ensures r.Crashed? <==> ExpressionCrashes(f)
    ensures r.Accepted? ==>
              |r.value| == 6 && forall k :: 0 <= k < 6 ==> r.value[k] == Table(FieldAt(f, k), Lo(k), Hi(k), Hi(k) + 1)
  {
    OneFate(f);
    var tables := [];
    for k := 0 to 6
      invariant FineBefore(f, k) && |tables| == k
      invariant forall j :: 0 <= j < k ==> tables[j] == Table(FieldAt(f, j), Lo(j), Hi(j), Hi(j) + 1)
    {
      var table := ParseTable(f, k);
      match table
      case Accepted(t) => tables := tables + [t];
      case Refused => return Refused;
      case Crashed => return Crashed;
    }
    return Accepted(tables);
  }

  /** Parses exactly the expressions that are fine in every part and that some wall-clock value matches, into
      the tables they denote; refuses those whose first part that is not fine is ill formed, and those that
      nothing matches; and crashes on the others. */
  method Parse(f: Fields) returns (r: Outcome<Expression>)
    requires 0 < |f.dow| && FieldsAreWords(f)
    ensures r.Accepted? <==> FineBefore(f, 6) && Satisfiable(Denoted(f))
    ensures r.Refused? <==> ExpressionRefused(f) || (FineBefore(f, 6) && !Satisfiable(Denoted(f)))
    ensures r.Crashed? <==> ExpressionCrashes(f)
    ensures r.Accepted? ==> r.value == Denoted(f)
  {
    OneFate(f);
    var read := ParseTables(f);
    match read
    case Refused => return Refused;
    case Crashed => return Crashed;
    case Accepted(t) =>
      FineIsOk(f);
      var dow := t[5][..7];
      if t[5][7] { dow := dow[0 := true]; }
      var allDom := AllSet(t[3][1..]);
      var allDow := AllSet(dow);
      var e := Expression(t[0], t[1], t[2], t[3], t[4], dow, !allDom, !allDow);
      assert e == Denoted(f);
      DenotedIsFlagged(f);
      var ok := RejectUnsatisfiable(e);
      return if ok then Accepted(e) else Refused;
  }
}
