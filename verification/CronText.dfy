// Schedule expressions written out: what the parser must read back.
//
// A printer for items, fields, five-field expressions and @every intervals,
// and the round trips through Parse's meaning.

module CronText {
  import opened Options
  import opened Text
  import opened Cron
  import opened CronParser

  /** A field as an operator writes it: a star, or a list of values, ranges and stepped ranges. */
  datatype FieldText = Star | Items(items: seq<Item>)

  predicate ValidItem(it: Item, lo: int, hi: int) {
    lo <= it.start <= it.end <= hi && 1 <= it.step && it.start + it.step <= MAX_INT64
  }

  predicate ValidField(f: FieldText, lo: int, hi: int) {
    f.Items? ==> f.items != [] && forall i :: 0 <= i < |f.items| ==> ValidItem(f.items[i], lo, hi)
  }

  function PrintBounds(a: nat, b: nat): string {
    if a == b then Decimal(a) else Decimal(a) + "-" + Decimal(b)
  }

  function PrintItem(it: Item): string
    requires it.start >= 0 && it.end >= 0 && it.step >= 0
  {
    PrintBounds(it.start, it.end) + if it.step == 1 then "" else "/" + Decimal(it.step)
  }

  function PrintItems(items: seq<Item>): seq<string>
    requires forall i :: 0 <= i < |items| ==> ValidItem(items[i], 0, 59)
  {
    seq(|items|, i requires 0 <= i < |items| && ValidItem(items[i], 0, 59) => PrintItem(items[i]))
  }

  function PrintField(f: FieldText): string
    requires ValidField(f, 0, 59)
  {
    match f
    case Star => "*"
    case Items(items) => Join(PrintItems(items), ',')
  }

  predicate Between(v: int, lo: int, hi: int) {
    lo <= v <= hi
  }

  /** The values a field allows. */
  ghost function FieldSet(f: FieldText, lo: int, hi: int): set<int>
    requires ValidField(f, lo, hi)
  {
    match f
    case Star => set v | lo <= v <= hi && Between(v, lo, hi)
    case Items(items) => set v, i | lo <= v <= hi && 0 <= i < |items| && v in Denotes(items[i]) :: v
  }

  // ----- items --------------------------------------------------------------

  lemma DigitsAvoid(s: string, c: char)
    requires AllDigits(s) && !IsDigit(c)
    ensures c !in s && IndexOf(s, c) == |s|
  {
  }

  lemma DecimalValue(v: nat, lo: int, hi: int, names: map<string, int>)
    requires FieldRange(lo, hi) && NameTable(names, lo, hi) && lo <= v <= hi
    ensures FieldValue(Decimal(v), lo, hi, names) == Ok(v)
  {
    hide Decimal;
    var s := Decimal(v);
    AtoiDecimal(v);
    assert ToLower(s)[0] == s[0];
  }

  /** The characters of a printed item. */
  predicate Plain(s: string) {
    forall i :: 0 <= i < |s| ==> IsDigit(s[i]) || s[i] == '-' || s[i] == '/'
  }

  lemma PrintedItem(it: Item)
    requires ValidItem(it, 0, 59)
    ensures PrintItem(it) != "" && IsDigit(PrintItem(it)[0]) && Plain(PrintItem(it))
  {
    hide Decimal;
  }

  lemma BoundsRoundTrip(a: nat, b: nat, lo: int, hi: int, names: map<string, int>)
    requires FieldRange(lo, hi) && NameTable(names, lo, hi) && lo <= a <= b <= hi
    ensures FieldBounds(PrintBounds(a, b), lo, hi, names) == Ok((a, b))
  {
    hide Decimal, FieldValue;
    var s := PrintBounds(a, b);
    DecimalValue(a, lo, hi, names);
    DecimalValue(b, lo, hi, names);
    DigitsAvoid(Decimal(a), '-');
    assert s[0] != '*';
    if a != b {
      IndexOfFirst(Decimal(a), '-', Decimal(b));
      assert s == Decimal(a) + ['-'] + Decimal(b);
      assert s[..|Decimal(a)|] == Decimal(a) && s[|Decimal(a)| + 1..] == Decimal(b);
    }
  }

  lemma BoundsHaveNoSlash(a: nat, b: nat)
    ensures '/' !in PrintBounds(a, b)
  {
    hide Decimal;
    DigitsAvoid(Decimal(a), '/');
    DigitsAvoid(Decimal(b), '/');
  }

  lemma NoIndex(s: string, c: char)
    requires c !in s
    ensures IndexOf(s, c) == |s|
  {
  }

  lemma DigitIsVisible(c: char)
    requires IsDigit(c)
    ensures !IsSpace(c)
  {
  }

  /** Any item reads back from its text: single values, ranges and steps. */
  lemma ItemRoundTrip(it: Item, lo: int, hi: int, names: map<string, int>)
    requires FieldRange(lo, hi) && NameTable(names, lo, hi) && ValidItem(it, lo, hi)
    ensures ItemOf(PrintItem(it), lo, hi, names) == Ok(it) && !StepOverflows(it)
  {
    hide Decimal, PrintBounds, FieldBounds, Atoi, Blank, IsSpace, Plain, IsDigit;
    var s, bounds := PrintItem(it), PrintBounds(it.start, it.end);
    PrintedItem(it);
    DigitIsVisible(s[0]);
    VisibleIsNotBlank(s, 0);
    BoundsHaveNoSlash(it.start, it.end);
    if it.step == 1 {
      assert s == bounds;
      NoIndex(s, '/');
    } else {
      IndexOfFirst(bounds, '/', Decimal(it.step));
      assert s == bounds + ['/'] + Decimal(it.step);
      assert s[..|bounds|] == bounds && s[|bounds| + 1..] == Decimal(it.step);
      AtoiDecimal(it.step);
    }
    BoundsRoundTrip(it.start, it.end, lo, hi, names);
  }

  // ----- fields -------------------------------------------------------------

  lemma StarRoundTrip(lo: int, hi: int, names: map<string, int>)
    requires FieldRange(lo, hi) && NameTable(names, lo, hi)
    ensures FieldMeaning("*", lo, hi, names) == Ok(FieldSet(Star, lo, hi))
  {
    assert Split("*", ',') == ["*"];
    assert ItemOf("*", lo, hi, names) == Ok(Item(lo, hi, 1)) by {
      assert "*"[0] in "*";
    }
    var parts := ["*"];
    FirstErrorExists(parts, lo, hi, names);
    forall v | v in FieldSet(Star, lo, hi)
      ensures v in Union(parts, lo, hi, names)
    {
      InItemIs(Item(lo, hi, 1), v);
      assert v in Denotes(ItemOf(parts[0], lo, hi, names).value);
    }
    assert Union(parts, lo, hi, names) == FieldSet(Star, lo, hi);
  }

  lemma NoComma(s: string)
    requires Plain(s)
    ensures ',' !in s
  {
  }

  lemma ItemsRoundTrip(items: seq<Item>, lo: int, hi: int, names: map<string, int>)
    requires FieldRange(lo, hi) && NameTable(names, lo, hi) && ValidField(Items(items), lo, hi)
    ensures FieldMeaning(Join(PrintItems(items), ','), lo, hi, names) == Ok(FieldSet(Items(items), lo, hi))
  {
    hide PrintItem, ItemOf, Denotes, Split, Join, FirstError;
    var parts := PrintItems(items);
    forall i | 0 <= i < |items|
      ensures ItemOf(parts[i], lo, hi, names) == Ok(items[i]) && ItemError(parts[i], lo, hi, names).None?
      ensures ',' !in parts[i]
    {
      ItemRoundTrip(items[i], lo, hi, names);
      PrintedItem(items[i]);
      NoComma(parts[i]);
    }
    SplitJoin(parts, ',');
    FirstErrorExists(parts, lo, hi, names);
    forall v | v in FieldSet(Items(items), lo, hi)
      ensures v in Union(parts, lo, hi, names)
    {
      var i :| 0 <= i < |items| && v in Denotes(items[i]);
      assert v in Denotes(ItemOf(parts[i], lo, hi, names).value);
    }
    forall v | v in Union(parts, lo, hi, names)
      ensures v in FieldSet(Items(items), lo, hi)
    {
      var i :| 0 <= i < |parts| && ItemOf(parts[i], lo, hi, names).Ok?
               && v in Denotes(ItemOf(parts[i], lo, hi, names).value);
      assert v in Denotes(items[i]);
    }
    assert Union(parts, lo, hi, names) == FieldSet(Items(items), lo, hi);
  }

  /** A field means exactly the set its items describe. */
  lemma FieldRoundTrip(f: FieldText, lo: int, hi: int, names: map<string, int>)
    requires FieldRange(lo, hi) && NameTable(names, lo, hi) && ValidField(f, lo, hi)
    ensures FieldMeaning(PrintField(f), lo, hi, names) == Ok(FieldSet(f, lo, hi))
  {
    hide FieldMeaning, FieldSet;
    match f
    case Star => StarRoundTrip(lo, hi, names);
    case Items(items) => ItemsRoundTrip(items, lo, hi, names);
  }

  // ----- expressions --------------------------------------------------------

  /** A word: not empty, and without white space. */
  predicate IsWord(s: string) {
    |s| > 0 && forall i :: 0 <= i < |s| ==> !IsSpace(s[i])
  }

  lemma {:induction false} JoinPlain(parts: seq<string>)
    requires |parts| >= 1
    requires forall i :: 0 <= i < |parts| ==> parts[i] != "" && IsDigit(parts[i][0]) && Plain(parts[i])
    ensures IsWord(Join(parts, ',')) && IsDigit(Join(parts, ',')[0])
  {
    if |parts| > 1 {
      JoinPlain(parts[1..]);
    }
  }

  /** A printed field is a word, and is a star only when it says so. */
  lemma PrintedField(f: FieldText)
    requires ValidField(f, 0, 59)
    ensures IsWord(PrintField(f)) && PrintField(f)[0] != '@'
    ensures PrintField(f) == "*" <==> f.Star?
  {
    hide PrintItem, Join;
    if f.Items? {
      var parts := PrintItems(f.items);
      forall i | 0 <= i < |parts|
        ensures parts[i] != "" && IsDigit(parts[i][0]) && Plain(parts[i])
      {
        PrintedItem(f.items[i]);
      }
      JoinPlain(parts);
    }
  }

  lemma {:induction false} WordEnds(w: string, rest: string)
    requires (forall i :: 0 <= i < |w| ==> !IsSpace(w[i])) && (rest != "" ==> IsSpace(rest[0]))
    ensures WordLength(w + rest) == |w|
  {
    if w == "" {
      assert w + rest == rest;
    } else {
      WordEnds(w[1..], rest);
      assert (w + rest)[1..] == w[1..] + rest;
    }
  }

  lemma FieldsStep(w: string, rest: string)
    requires IsWord(w) && (rest != "" ==> IsSpace(rest[0]))
    ensures Fields(w + rest) == [w] + Fields(rest)
  {
    WordEnds(w, rest);
    assert (w + rest)[0] == w[0];
    assert (w + rest)[..|w|] == w && (w + rest)[|w|..] == rest;
  }

  lemma FieldsSpace(rest: string)
    ensures Fields([' '] + rest) == Fields(rest)
  {
    assert ([' '] + rest)[1..] == rest;
  }

  /** Words joined by single spaces are found again, and the joined text needs no trimming. */
  lemma {:induction false} FieldsJoin(words: seq<string>)
    requires |words| >= 1 && forall i :: 0 <= i < |words| ==> IsWord(words[i])
    ensures Fields(Join(words, ' ')) == words
    ensures var s := Join(words, ' ');
      IsWord(words[0]) && |s| > 0 && s[0] == words[0][0] && !IsSpace(s[|s| - 1])
  {
    hide Fields, IsSpace;
    var s, w := Join(words, ' '), words[0];
    if |words| == 1 {
      FieldsStep(w, "");
      NoFields();
      assert w + "" == w;
    } else {
      var rest := Join(words[1..], ' ');
      FieldsJoin(words[1..]);
      SpaceIsSpace();
      FieldsStep(w, [' '] + rest);
      FieldsSpace(rest);
      assert s == w + ([' '] + rest);
      assert words == [w] + words[1..];
    }
  }

  lemma NoFields()
    ensures Fields("") == []
  {
  }

  lemma SpaceIsSpace()
    ensures IsSpace(' ')
  {
  }

  /** The five fields of an expression. */
  datatype ExprText = ExprText(minutes: FieldText, hours: FieldText, days: FieldText, months: FieldText, weekdays: FieldText)

  predicate ValidExpr(e: ExprText) {
    && ValidField(e.minutes, 0, 59) && ValidField(e.hours, 0, 23) && ValidField(e.days, 1, 31)
    && ValidField(e.months, 1, 12) && ValidField(e.weekdays, 0, 7)
  }

  lemma WiderRange(f: FieldText, lo: int, hi: int)
    requires FieldRange(lo, hi) && ValidField(f, lo, hi)
    ensures ValidField(f, 0, 59)
  {
  }

  lemma ValidFields(e: ExprText)
    requires ValidExpr(e)
    ensures ValidField(e.minutes, 0, 59) && ValidField(e.hours, 0, 59) && ValidField(e.days, 0, 59)
    ensures ValidField(e.months, 0, 59) && ValidField(e.weekdays, 0, 59)
  {
    hide ValidField;
    WiderRange(e.hours, 0, 23);
    WiderRange(e.days, 1, 31);
    WiderRange(e.months, 1, 12);
    WiderRange(e.weekdays, 0, 7);
  }

  function PrintFields(e: ExprText): seq<string>
    requires ValidExpr(e)
  {
    ValidFields(e);
    [PrintField(e.minutes), PrintField(e.hours), PrintField(e.days), PrintField(e.months), PrintField(e.weekdays)]
  }

  /** What the expression stands for; Sunday may be 0 or 7. */
  ghost function SpecOf(e: ExprText): Spec
    requires ValidExpr(e)
  {
    Clock(FieldSet(e.minutes, 0, 59), FieldSet(e.hours, 0, 23), FieldSet(e.days, 1, 31), FieldSet(e.months, 1, 12),
          set v | v in FieldSet(e.weekdays, 0, 7) :: v % 7, e.days.Star?, e.weekdays.Star?)
  }

  lemma PrintedFields(e: ExprText)
    requires ValidExpr(e)
    ensures forall i :: 0 <= i < 5 ==> IsWord(PrintFields(e)[i])
    ensures PrintFields(e)[0][0] != '@'
    ensures PrintFields(e)[2] == "*" <==> e.days.Star?
    ensures PrintFields(e)[4] == "*" <==> e.weekdays.Star?
  {
    hide ValidField, ValidExpr, PrintField, IsWord;
    ValidFields(e);
    PrintedField(e.minutes);
    PrintedField(e.hours);
    PrintedField(e.days);
    PrintedField(e.months);
    PrintedField(e.weekdays);
  }

  lemma WeekdaySet(f: FieldText)
    requires ValidField(f, 0, 7)
    ensures FieldSet(f, 0, 7) != {} && forall v | v in FieldSet(f, 0, 7) :: 0 <= v <= 7
  {
    match f
    case Star => assert 0 in FieldSet(f, 0, 7);
    case Items(items) =>
      StartIsDenoted(items[0]);
      assert items[0].start in FieldSet(f, 0, 7);
  }

  lemma FieldsRoundTrip(e: ExprText)
    requires ValidExpr(e)
    ensures FieldsMeaning(PrintFields(e)) == Ok(SpecOf(e))
  {
    hide FieldMeaning, FieldSet, PrintField, NormaliseWeekdays, ValidField, NAME_MONTHS, NAME_WEEKDAYS;
    NameTables();
    ValidFields(e);
    PrintedFields(e);
    FieldRoundTrip(e.minutes, 0, 59, map[]);
    FieldRoundTrip(e.hours, 0, 23, map[]);
    FieldRoundTrip(e.days, 1, 31, map[]);
    FieldRoundTrip(e.months, 1, 12, NAME_MONTHS);
    FieldRoundTrip(e.weekdays, 0, 7, NAME_WEEKDAYS);
    WeekdaySet(e.weekdays);
    NormaliseKeepsRange(FieldSet(e.weekdays, 0, 7));
  }

  lemma NoTrim(s: string)
    requires s != "" && !IsSpace(s[0]) && !IsSpace(s[|s| - 1])
    ensures TrimSpace(s) == s
  {
  }

  lemma NoShorthand(s: string)
    requires s != "" && s[0] != '@'
    ensures Expand(s) == s && EveryParts(s).None?
  {
    assert ToLower(s)[0] != '@';
    if |s| >= 7 {
      assert s[..6][0] == s[0];
    }
  }

  lemma FiveFields(e: ExprText)
    requires ValidExpr(e)
    ensures |PrintFields(e)| == 5
  {
  }

  lemma PrintedExpr(x: ExprText)
    requires ValidExpr(x)
    ensures var s := Join(PrintFields(x), ' ');
      s != "" && TrimSpace(s) == s && Expand(s) == s && EveryParts(s).None?
  {
    hide Fields, Join, TrimSpace, Expand, EveryParts, PrintFields;
    FiveFields(x);
    PrintedFields(x);
    FieldsJoin(PrintFields(x));
    var s := Join(PrintFields(x), ' ');
    NoTrim(s);
    NoShorthand(s);
  }

  /** Every five-field expression of stars, values, ranges and steps means what it says. */
  lemma ExpressionRoundTrip(e: ExprText)
    requires ValidExpr(e)
    ensures Meaning(Join(PrintFields(e), ' ')) == Ok(SpecOf(e))
  {
    hide Fields, Join, TrimSpace, Expand, EveryParts, FieldsMeaning, PrintFields, SpecOf, ParseEvery;
    PrintedExpr(e);
    FiveFields(e);
    PrintedFields(e);
    FieldsJoin(PrintFields(e));
    FieldsRoundTrip(e);
  }

  // ----- intervals ----------------------------------------------------------

  /** The units are words in letters. */
  lemma UnitIsWord(u: string)
    requires EveryUnit(u).Some?
    ensures u != "" && !IsDigit(u[0]) && !IsSpace(u[|u| - 1]) && EveryUnit(u).value >= 1
  {
  }

  lemma EveryPartsOf(n: nat, u: string)
    requires EveryUnit(u).Some?
    ensures EveryParts("@every " + (Decimal(n) + u)) == Some((Decimal(n), EveryUnit(u).value))
  {
    hide Decimal, EveryUnit, EveryParts;
    var d := Decimal(n);
    var e := "@every " + (d + u);
    assert e[7..7 + |d|] == d && e[7 + |d|..] == u && e[..6] == "@every";
    EveryReads(e, 7, 7 + |d|);
  }

  lemma EveryIsNoShorthand(tail: string)
    ensures Expand("@every " + tail) == "@every " + tail
  {
    var e := ToLower("@every " + tail);
    assert e[1] == 'e';
  }

  function PrintEvery(n: nat, u: string): string {
    "@every " + (Decimal(n) + u)
  }

  /** What `@every` with n units means: the product in the 64-bit arithmetic of durations. */
  lemma EveryMeaning(n: nat, u: string)
    requires EveryUnit(u).Some? && n <= MAX_INT64
    ensures Meaning(PrintEvery(n, u)) == if n == 0 then Err(InvalidEvery) else EveryInterval(n, EveryUnit(u).value)
  {
    hide Decimal, EveryUnit, EveryParts, Expand, TrimSpace, Atoi, IsSpace, EveryInterval;
    var s := PrintEvery(n, u);
    UnitIsWord(u);
    AtIsNoSpace();
    NoTrim(s);
    EveryIsNoShorthand(Decimal(n) + u);
    EveryPartsOf(n, u);
    AtoiDecimal(n);
  }

  /** It means exactly that interval when it is at least a minute and fits in 64 bits of nanoseconds, and is
      refused when it is shorter. */
  lemma EveryRoundTrip(n: nat, u: string)
    requires EveryUnit(u).Some? && n <= MAX_INT64
    ensures var length := n * EveryUnit(u).value;
      && (n == 0 ==> Meaning(PrintEvery(n, u)) == Err(InvalidEvery))
      && (n > 0 && length < MINUTE ==> Meaning(PrintEvery(n, u)) == Err(EveryTooShort))
      && (MINUTE <= length <= MAX_INT64 ==> Meaning(PrintEvery(n, u)) == Ok(Interval(length)))
  {
    hide Meaning, PrintEvery, EveryUnit;
    EveryMeaning(n, u);
    UnitIsWord(u);
  }

  /** It need not fit: 18446744134 seconds, some 585 years, are accepted as an interval of 60.29 seconds. */
  lemma EveryWrapsAround()
    ensures Meaning("@every 18446744134s") == Ok(Interval(60_290_448_384))
  {
    hide Meaning, PrintEvery, Decimal, EveryUnit, EveryInterval;
    SecondsWrap();
    EveryMeaning(18446744134, "s");
    WrittenOut();
  }

  lemma SecondsWrap()
    ensures EveryUnit("s").Some? && EveryInterval(18446744134, EveryUnit("s").value) == Ok(Interval(60_290_448_384))
  {
  }

  lemma NextDigit(n: nat, d: nat)
    requires n > 0 && d < 10
    ensures Decimal(10 * n + d) == Decimal(n) + ['0' + d as char]
  {
    LastDigit(n, d);
  }

  lemma LastDigit(n: nat, d: nat)
    requires d < 10
    ensures (10 * n + d) / 10 == n && (10 * n + d) % 10 == d
  {
  }

  lemma WrittenOut()
    ensures PrintEvery(18446744134, "s") == "@every 18446744134s"
  {
    hide Decimal;
    FirstDigit();
    NextDigit(1, 8);
    NextDigit(18, 4);
    NextDigit(184, 4);
    NextDigit(1844, 6);
    NextDigit(18446, 7);
    NextDigit(184467, 4);
    NextDigit(1844674, 4);
    NextDigit(18446744, 1);
    NextDigit(184467441, 3);
    NextDigit(1844674413, 4);
  }

  lemma FirstDigit()
    ensures Decimal(1) == "1"
  {
  }

  /** A unit is worth k of another: the two ways to write an interval mean the same. */
  predicate Worth(u: string, k: nat, v: string) {
    || (u == "s" && k == 1000 && v == "ms") || (u == "m" && k == 60 && v == "s")
    || (u == "h" && k == 60 && v == "m") || (u == "d" && k == 24 && v == "h")
    || (u == "w" && k == 7 && v == "d") || (u == "mo" && k == 30 && v == "d") || (u == "y" && k == 365 && v == "d")
  }

  /** A minute is sixty seconds and so on up to a year of 365 days: n of the larger unit mean what k times n
      of the smaller one do, the refusals included. */
  lemma UnitsAgree(n: nat, u: string, k: nat, v: string)
    requires Worth(u, k, v) && n * k <= MAX_INT64
    ensures Meaning(PrintEvery(n, u)) == Meaning(PrintEvery(n * k, v))
  {
    hide Meaning, PrintEvery;
    UnitWorth(u, k, v);
    SmallFactor(n, k);
    EveryMeaning(n, u);
    EveryMeaning(n * k, v);
    Associate(n, k, EveryUnit(v).value);
  }

  lemma UnitWorth(u: string, k: nat, v: string)
    requires Worth(u, k, v)
    ensures k > 0 && EveryUnit(u).Some? && EveryUnit(v).Some? && EveryUnit(u).value == k * EveryUnit(v).value
  {
  }

  lemma SmallFactor(n: nat, k: nat)
    requires k > 0
    ensures n <= n * k && (n > 0 ==> n * k > 0)
  {
  }

  lemma Associate(a: int, b: int, c: int)
    ensures a * (b * c) == (a * b) * c
  {
  }

  lemma AtIsNoSpace()
    ensures !IsSpace('@')
  {
  }

  // ----- shorthands ---------------------------------------------------------

  function Only(v: int): FieldText
    requires v >= 0
  {
    Items([Item(v, v, 1)])
  }

  lemma PrintsDigit(v: nat)
    requires v <= 9
    ensures ValidField(Only(v), 0, 59) && PrintField(Only(v)) == ['0' + v as char]
  {
    var it := Item(v, v, 1);
    assert PrintItem(it) == Decimal(v) == ['0' + v as char];
    assert PrintItems([it]) == [PrintItem(it)];
  }

  /** The five fields a shorthand stands for. */
  function ShorthandOf(name: string): Option<ExprText> {
    if name == "@yearly" || name == "@annually" then Some(ExprText(Only(0), Only(0), Only(1), Only(1), Star))
    else if name == "@monthly" then Some(ExprText(Only(0), Only(0), Only(1), Star, Star))
    else if name == "@weekly" then Some(ExprText(Only(0), Only(0), Star, Star, Only(0)))
    else if name == "@daily" || name == "@midnight" then Some(ExprText(Only(0), Only(0), Star, Star, Star))
    else if name == "@hourly" then Some(ExprText(Only(0), Star, Star, Star, Star))
    else None
  }

  function Five(a: char, b: char, c: char, d: char, e: char): string {
    [a, ' ', b, ' ', c, ' ', d, ' ', e]
  }

  lemma JoinFive(words: seq<string>)
    requires |words| == 5 && forall i :: 0 <= i < 5 ==> |words[i]| == 1
    ensures Join(words, ' ') == Five(words[0][0], words[1][0], words[2][0], words[3][0], words[4][0])
  {
    var w4 := words[4..];
    var w3 := words[3..];
    var w2 := words[2..];
    var w1 := words[1..];
    assert w1[1..] == w2 && w2[1..] == w3 && w3[1..] == w4;
    assert Join(w4, ' ') == words[4];
    assert Join(w3, ' ') == words[3] + " " + Join(w4, ' ');
    assert Join(w2, ' ') == words[2] + " " + Join(w3, ' ');
    assert Join(w1, ' ') == words[1] + " " + Join(w2, ' ');
  }

  /** A shorthand's expansion is the text of its five fields. */
  lemma ShorthandText(e: string)
    requires ShorthandOf(ToLower(e)).Some?
    ensures var x := ShorthandOf(ToLower(e)).value;
      ValidExpr(x) && Expand(e) == Join(PrintFields(x), ' ')
  {
    hide Decimal, ToLower, PrintField, ValidField;
    PrintsDigit(0);
    PrintsDigit(1);
    PrintsStar();
    var x := ShorthandOf(ToLower(e)).value;
    ValidShorthand(x);
    JoinFive(PrintFields(x));
  }

  lemma PrintsStar()
    ensures ValidField(Star, 0, 59) && PrintField(Star) == "*"
  {
  }

  lemma ValidShorthand(x: ExprText)
    requires x.minutes == Only(0) && (x.hours == Only(0) || x.hours.Star?) && (x.days == Only(1) || x.days.Star?)
    requires (x.months == Only(1) || x.months.Star?) && (x.weekdays == Only(0) || x.weekdays.Star?)
    ensures ValidExpr(x)
  {
  }

  lemma ShorthandEnds(e: string)
    requires ShorthandOf(ToLower(e)).Some?
    ensures e != "" && !IsSpace(e[0]) && !IsSpace(e[|e| - 1])
  {
    var t := ToLower(e);
    assert |t| > 0 && t[0] == '@' && 'a' <= t[|t| - 1] <= 'z';
  }

  /** Each shorthand, in any letter case, means its five fields. */
  lemma ShorthandRoundTrip(e: string)
    requires ShorthandOf(ToLower(e)).Some?
    ensures var x := ShorthandOf(ToLower(e)).value;
      ValidExpr(x) && Meaning(e) == Ok(SpecOf(x))
  {
    hide ToLower, Expand, ShorthandOf, ValidExpr, PrintFields, SpecOf, Fields, FieldsMeaning, EveryParts, TrimSpace, IsSpace, Join;
    var x := ShorthandOf(ToLower(e)).value;
    ShorthandEnds(e);
    NoTrim(e);
    ShorthandText(e);
    PrintedExpr(x);
    ExpressionRoundTrip(x);
  }
}
