/** What an expression says, in its own terms: which values its parts name, which field is about what, and the rule
  for days. The tables the parser fills match exactly that. */
module CronMeaning {
  import opened Rows
  import opened Machine
  import opened Calendar
  import opened Cron
  import opened CronParse
  import opened CronText

  // ----- parts ---------------------------------------------------------------------------

  /** From `a` to `b`, every so many. */
  predicate Every(a: int, b: int, step: int, v: int)
    requires 1 <= step
  {
    a <= v <= b && (v - a) % step == 0
  }

  /** A part is well formed if it can be read, its step is positive, its ends lie in the field, and the first does not
      lie after the last. */
  lemma WellFormedIff(p: Part, lo: int, hi: int)
    ensures PartOk(p, lo, hi) <==>
              && p.body != Garbled && p.slash != Some(0) && (p.slash.Some? ==> 0 < p.slash.value)
              && (p.body.Range? ==> lo <= p.body.low <= p.body.high <= hi)
              && (p.body.Single? ==> lo <= p.body.value <= hi)
  {
  }

  /** The values a part names in a field from `lo` to `hi`. */
  predicate PartNames(p: Part, lo: int, hi: int, v: int)
    requires PartOk(p, lo, hi)
  {
    match p.body
    case Star => Every(lo, hi, if p.slash.Some? then p.slash.value else 1, v)
    case Range(a, b) => Every(a, b, if p.slash.Some? then p.slash.value else 1, v)
    case Single(a) => if p.slash.Some? && p.slash.value > 1 then Every(a, hi, p.slash.value, v) else v == a
  }

  lemma Multiple(d: int, step: int)
    requires 1 <= step
    ensures d % step == 0 <==> d == d / step * step
  {
  }

  /** There is one way to divide. */
  lemma Remainder(x: int, step: int, q: int, r: int)
    requires 1 <= step && x == q * step + r && 0 <= r < step
    ensures x % step == r
  {
    var q' := x / step;
    assert x == q' * step + x % step;
    if q < q' {
      StridesGrow(step, q + 1, q');
      StridesGrow(step, q, q);
    } else if q' < q {
      StridesGrow(step, q' + 1, q);
      StridesGrow(step, q', q');
    }
  }

  lemma Strides(j: int, step: int)
    requires 1 <= step && 0 <= j
    ensures j * step % step == 0 && 0 <= j * step
  {
    Remainder(j * step, step, j, 0);
    StridesGrow(step, 0, j);
  }

  lemma Quotient(d: int, step: int)
    requires 1 <= step && 0 <= d && d % step == 0
    ensures 0 <= d / step && d == d / step * step
  {
    Multiple(d, step);
  }

  /** Stepping through a part names what it says. */
  lemma PartMeans(p: Part, lo: int, hi: int, v: int)
    requires PartOk(p, lo, hi)
    ensures Denotes(p, lo, hi, v) <==> PartNames(p, lo, hi, v)
  {
    var a, b, step := From(p, lo), To(p, hi), Stride(p);
    if Denotes(p, lo, hi, v) {
      var j :| Hit(p, lo, hi, v, j);
      Strides(j, step);
      assert Every(a, b, step, v);
    }
    if Every(a, b, step, v) {
      Quotient(v - a, step);
      assert Hit(p, lo, hi, v, (v - a) / step);
    }
  }

  ghost predicate FieldNames(parts: seq<Part>, lo: int, hi: int, v: int)
    requires FieldOk(parts, lo, hi)
  {
    exists i :: 0 <= i < |parts| && PartNames(parts[i], lo, hi, v)
  }

  lemma FieldMeans(parts: seq<Part>, lo: int, hi: int, v: int)
    requires FieldOk(parts, lo, hi)
    ensures FieldDenotes(parts, lo, hi, v) <==> FieldNames(parts, lo, hi, v)
  {
    forall i | 0 <= i < |parts|
      ensures Denotes(parts[i], lo, hi, v) <==> PartNames(parts[i], lo, hi, v)
    {
      PartMeans(parts[i], lo, hi, v);
    }
  }

  // ----- expressions ---------------------------------------------------------------------

  /** The weekday field names the day; seven is Sunday too. */
  ghost predicate WeekdayNamed(f: Fields, wd: int)
    requires FieldsOk(f)
  {
    FieldNames(f.dow, 0, 7, wd) || (wd == 0 && FieldNames(f.dow, 0, 7, 7))
  }

  /** A day field that leaves something out has a say; two of them have it together, either being enough. */
  ghost predicate DaySaid(f: Fields, day: int, wd: int)
    requires FieldsOk(f)
  {
    var everyDate := forall d :: 1 <= d <= 31 ==> FieldNames(f.dom, 1, 31, d);
    var everyWeekday := forall w :: 0 <= w <= 6 ==> WeekdayNamed(f, w);
    if everyDate && everyWeekday then true
    else if everyDate then WeekdayNamed(f, wd)
    else if everyWeekday then FieldNames(f.dom, 1, 31, day)
    else FieldNames(f.dom, 1, 31, day) || WeekdayNamed(f, wd)
  }

  /** Second, minute, hour, day, month, weekday: the six fields in this order, and what they say of a date and time. */
  ghost predicate Says(f: Fields, c: Civil)
    requires FieldsOk(f) && Valid(c)
  {
    && FieldNames(f.second, 0, 59, c.sec) && FieldNames(f.minute, 0, 59, c.min) && FieldNames(f.hour, 0, 23, c.hour)
    && FieldNames(f.month, 1, 12, c.month) && DaySaid(f, c.day, Weekday(c.year, c.month, c.day))
  }

  lemma EveryDate(f: Fields)
    requires FieldsOk(f)
    ensures Denoted(f).domRestricted <==> !forall d :: 1 <= d <= 31 ==> FieldNames(f.dom, 1, 31, d)
  {
    var dom := Denoted(f).dom;
    forall d | 1 <= d <= 31
      ensures dom[1..][d - 1] <==> FieldNames(f.dom, 1, 31, d)
    {
      FieldMeans(f.dom, 1, 31, d);
    }
    if All(dom[1..]) {
      forall d | 1 <= d <= 31
        ensures FieldNames(f.dom, 1, 31, d)
      {
        assert dom[1..][d - 1];
      }
    } else {
      var i :| 0 <= i < |dom[1..]| && !dom[1..][i];
      assert !FieldNames(f.dom, 1, 31, i + 1);
    }
  }

  lemma WeekdayTable(f: Fields, wd: int)
    requires FieldsOk(f) && 0 <= wd <= 6
    ensures Denoted(f).dow[wd] <==> WeekdayNamed(f, wd)
  {
    FieldMeans(f.dow, 0, 7, wd);
    FieldMeans(f.dow, 0, 7, 7);
  }

  lemma EveryWeekday(f: Fields)
    requires FieldsOk(f)
    ensures Denoted(f).dowRestricted <==> !forall w :: 0 <= w <= 6 ==> WeekdayNamed(f, w)
  {
    forall w | 0 <= w <= 6
      ensures Denoted(f).dow[w] <==> WeekdayNamed(f, w)
    {
      WeekdayTable(f, w);
    }
  }

  lemma DayMeans(f: Fields, c: Civil)
    requires FieldsOk(f) && Valid(c)
    ensures MatchesDay(Denoted(f), c.year, c.month, c.day) <==> DaySaid(f, c.day, Weekday(c.year, c.month, c.day))
  {
    EveryDate(f);
    EveryWeekday(f);
    FieldMeans(f.dom, 1, 31, c.day);
    WeekdayTable(f, Weekday(c.year, c.month, c.day));
  }

  /** The tables of well-formed fields match exactly what the fields say. */
  lemma TablesMean(f: Fields, c: Civil)
    requires FieldsOk(f) && Valid(c)
    ensures Matches(Denoted(f), c) <==> Says(f, c)
  {
    DayMeans(f, c);
    FieldMeans(f.second, 0, 59, c.sec);
    FieldMeans(f.minute, 0, 59, c.min);
    FieldMeans(f.hour, 0, 23, c.hour);
    FieldMeans(f.month, 1, 12, c.month);
  }

  // ----- texts ---------------------------------------------------------------------------

  /** The first word of an accepted text is the seconds, the second the minutes, and so on. */
  ghost predicate TextSays(text: string, c: Civil)
    requires Accepts(text) && Valid(c)
  {
    var w := Words(text);
    var f := Fields(ReadField(w[0], NoNames), ReadField(w[1], NoNames), ReadField(w[2], NoNames),
                    ReadField(w[3], NoNames), ReadField(w[4], MonthNames), ReadField(w[5], DayNames));
    FieldsOk(f) && Says(f, c)
  }

  /** Parses a text, and what it accepts matches exactly the dates and times the text says. */
  method ParseMeaning(text: string) returns (r: Outcome<Expression>)
    ensures r.Accepted? <==> Accepts(text)
    ensures r.Accepted? ==> Shaped(r.value) && forall c :: Valid(c) ==> (Matches(r.value, c) <==> TextSays(text, c))
  {
    r := ParseText(text);
    if r.Accepted? {
      FineIsOk(Read(text).value);
      forall c | Valid(c)
        ensures Matches(r.value, c) <==> TextSays(text, c)
      {
        TablesMean(Read(text).value, c);
      }
    }
  }

  lemma SingleNames(a: int, lo: int, hi: int, v: int)
    requires lo <= a <= hi
    ensures FieldOk([Part(Single(a), None)], lo, hi) && (FieldNames([Part(Single(a), None)], lo, hi, v) <==> v == a)
  {
    assert v == a ==> PartNames([Part(Single(a), None)][0], lo, hi, v);
  }

  lemma StarNames(lo: int, hi: int, v: int)
    requires lo <= v <= hi
    ensures FieldOk(ANY, lo, hi) && FieldNames(ANY, lo, hi, v)
  {
    assert PartNames(ANY[0], lo, hi, v);
  }

  lemma AnyDay(f: Fields, day: int, wd: int)
    requires FieldsOk(f) && f.dom == ANY && f.dow == ANY
    ensures DaySaid(f, day, wd)
  {
    forall d | 1 <= d <= 31
      ensures FieldNames(f.dom, 1, 31, d)
    {
      StarNames(1, 31, d);
    }
    forall w | 0 <= w <= 6
      ensures WeekdayNamed(f, w)
    {
      StarNames(0, 7, w);
    }
  }

  /** Half past two, every night: not two o'clock and thirty seconds. */
  lemma HalfPastTwo(f: Fields, c: Civil)
    requires f == Fields([Part(Single(0), None)], [Part(Single(30), None)], [Part(Single(2), None)], ANY, ANY, ANY)
    requires Valid(c)
    ensures FieldsOk(f) && (Matches(Denoted(f), c) <==> c.hour == 2 && c.min == 30 && c.sec == 0)
  {
    SingleNames(0, 0, 59, c.sec);
    SingleNames(30, 0, 59, c.min);
    SingleNames(2, 0, 23, c.hour);
    StarNames(1, 12, c.month);
    TablesMean(f, c);
    AnyDay(f, c.day, Weekday(c.year, c.month, c.day));
  }
}
