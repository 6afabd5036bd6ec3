// The schedule expression parser: the five cron fields, the @every form and the
// named shorthands.

module CronParser {
  import opened Options
  import opened Text
  import opened Cron

  datatype Error =
    | EmptyItem
    | InvalidStep
    | InvalidValue
    | OutOfRange
    | EmptyRange
    | EmptyExpression
    | InvalidEvery
    | EveryTooShort
    | FieldCount
    | InField(index: nat, error: Error)

  datatype Result<+T> = Ok(value: T) | Err(error: Error)

  const NAME_MONTHS: map<string, int> :=
    map["jan" := 1, "feb" := 2, "mar" := 3, "apr" := 4, "may" := 5, "jun" := 6,
        "jul" := 7, "aug" := 8, "sep" := 9, "oct" := 10, "nov" := 11, "dec" := 12]

  const NAME_WEEKDAYS: map<string, int> :=
    map["sun" := 0, "mon" := 1, "tue" := 2, "wed" := 3, "thu" := 4, "fri" := 5, "sat" := 6]

  predicate IsName(k: string) {
    |k| > 0 && forall i :: 0 <= i < |k| ==> 'a' <= k[i] <= 'z'
  }

  /** The names a field accepts: words in lower-case letters that stand for values of the field. */
  predicate NameTable(names: map<string, int>, lo: int, hi: int) {
    forall k | k in names :: lo <= names[k] <= hi && IsName(k)
  }

  lemma NameTables()
    ensures NameTable(map[], 0, 59) && NameTable(map[], 0, 23) && NameTable(map[], 1, 31)
    ensures NameTable(NAME_MONTHS, 1, 12) && NameTable(NAME_WEEKDAYS, 0, 7)
  {
    hide NAME_MONTHS, NAME_WEEKDAYS;
    MonthNames();
    WeekdayNames();
  }

  /** The names stand for the months from January on, and for the days from Sunday on. */
  lemma NamesCount()
    ensures var months := ["jan", "feb", "mar", "apr", "may", "jun", "jul", "aug", "sep", "oct", "nov", "dec"];
      && (forall k :: 0 <= k < 12 ==> months[k] in NAME_MONTHS && NAME_MONTHS[months[k]] == k + 1)
      && forall name :: name in NAME_MONTHS ==> name in months
    ensures var days := ["sun", "mon", "tue", "wed", "thu", "fri", "sat"];
      && (forall k :: 0 <= k < 7 ==> days[k] in NAME_WEEKDAYS && NAME_WEEKDAYS[days[k]] == k)
      && forall name :: name in NAME_WEEKDAYS ==> name in days
  {
  }

  lemma MonthNames()
    ensures NameTable(NAME_MONTHS, 1, 12)
  {
    hide NAME_WEEKDAYS;
  }

  lemma WeekdayNames()
    ensures NameTable(NAME_WEEKDAYS, 0, 7)
  {
    hide NAME_MONTHS;
  }

  predicate FieldRange(lo: int, hi: int) {
    0 <= lo <= hi <= 59
  }

  // ----- what an operator may write -----------------------------------------

  /** A number: decimal digits with any leading zeros, after a sign or none, within 64 bits. */
  predicate WritesNumber(text: string, v: int) {
    && -MAX_INT64 - 1 <= v <= MAX_INT64
    && (|| (text != "" && AllDigits(text) && v == DigitsValue(text))
        || (|text| > 1 && text[0] == '+' && AllDigits(text[1..]) && v == DigitsValue(text[1..]))
        || (|text| > 1 && text[0] == '-' && AllDigits(text[1..]) && -v == DigitsValue(text[1..])))
  }

  /** A word in any letter case. */
  predicate Spells(text: string, word: string) {
    && |text| == |word|
    && forall i :: 0 <= i < |word| ==> text[i] == word[i] || ('A' <= text[i] <= 'Z' && text[i] + 32 as char == word[i])
  }

  /** A value of the field: a name or a number in range. */
  ghost predicate WritesValue(text: string, lo: int, hi: int, names: map<string, int>, v: int) {
    && lo <= v <= hi
    && ((exists k :: k in names && Spells(text, k) && names[k] == v) || WritesNumber(text, v))
  }

  predicate FirstAt(text: string, c: char, k: nat) {
    k < |text| && text[k] == c && c !in text[..k]
  }

  /** The bounds of an item: a star, one value, or two values around a dash. */
  ghost predicate WritesBounds(text: string, lo: int, hi: int, names: map<string, int>, a: int, b: int) {
    || (text == "*" && a == lo && b == hi)
    || (text != "*" && '-' !in text && a == b && WritesValue(text, lo, hi, names, a))
    || (a <= b
        && exists k: nat :: FirstAt(text, '-', k) && WritesValue(text[..k], lo, hi, names, a)
                            && WritesValue(text[k + 1..], lo, hi, names, b))
  }

  /** An item: bounds, and a positive step after a slash or a step of one without it. */
  ghost predicate Writes(text: string, lo: int, hi: int, names: map<string, int>, it: Item) {
    || ('/' !in text && it.step == 1 && WritesBounds(text, lo, hi, names, it.start, it.end))
    || (it.step >= 1
        && exists k: nat :: FirstAt(text, '/', k) && WritesNumber(text[k + 1..], it.step)
                            && WritesBounds(text[..k], lo, hi, names, it.start, it.end))
  }

  // ----- one list item ------------------------------------------------------

  /** A resolved item: every step-th value from start to end. */
  datatype Item = Item(start: int, end: int, step: int)

  function FieldValue(tok: string, lo: int, hi: int, names: map<string, int>): Result<int> {
    if ToLower(tok) in names then Ok(names[ToLower(tok)])
    else match Atoi(tok)
      case None => Err(InvalidValue)
      case Some(v) => if v < lo || v > hi then Err(OutOfRange) else Ok(v)
  }

  function FieldBounds(part: string, lo: int, hi: int, names: map<string, int>): (r: Result<(int, int)>)
    requires FieldRange(lo, hi) && NameTable(names, lo, hi)
    ensures r.Ok? ==> lo <= r.value.0 <= r.value.1 <= hi
  {
    if part == "*" then Ok((lo, hi))
    else
      var dash := IndexOf(part, '-');
      if dash < |part| then
        match FieldValue(part[..dash], lo, hi, names)
        case Err(e) => Err(e)
        case Ok(a) =>
          match FieldValue(part[dash + 1..], lo, hi, names)
          case Err(e) => Err(e)
          case Ok(b) => if a > b then Err(EmptyRange) else Ok((a, b))
      else
        match FieldValue(part, lo, hi, names)
        case Err(e) => Err(e)
        case Ok(v) => Ok((v, v))
  }

  /** The step of an item and what stands before its slash. */
  function StepOf(part: string): (r: Result<(int, string)>)
    ensures r.Ok? ==> 1 <= r.value.0 <= MAX_INT64
  {
    var slash := IndexOf(part, '/');
    if slash == |part| then Ok((1, part))
    else match Atoi(part[slash + 1..])
      case None => Err(InvalidStep)
      case Some(n) => if n < 1 then Err(InvalidStep) else Ok((n, part[..slash]))
  }

  function ItemOf(part: string, lo: int, hi: int, names: map<string, int>): (r: Result<Item>)
    requires FieldRange(lo, hi) && NameTable(names, lo, hi)
    ensures r.Ok? ==> lo <= r.value.start <= r.value.end <= hi && 1 <= r.value.step <= MAX_INT64
  {
    if Blank(part) then Err(EmptyItem)
    else match StepOf(part)
      case Err(e) => Err(e)
      case Ok((step, rest)) =>
        match FieldBounds(rest, lo, hi, names)
        case Err(e) => Err(e)
        case Ok((a, b)) => Ok(Item(a, b, step))
  }

  lemma AtoiReads(text: string, v: int)
    ensures Atoi(text) == Some(v) <==> WritesNumber(text, v)
  {
    if text != "" && (text[0] == '-' || text[0] == '+') {
      assert !AllDigits(text);
    }
  }

  lemma LowerSpells(text: string, word: string)
    requires IsName(word)
    ensures ToLower(text) == word <==> Spells(text, word)
  {
    if ToLower(text) == word {
      forall i | 0 <= i < |word|
        ensures text[i] == word[i] || ('A' <= text[i] <= 'Z' && text[i] + 32 as char == word[i])
      {
        assert ToLower(text)[i] == word[i];
      }
    }
  }

  lemma NameIsNoNumber(text: string, word: string, v: int)
    requires IsName(word) && Spells(text, word)
    ensures !WritesNumber(text, v)
  {
    assert text[0] == word[0] || text[0] + 32 as char == word[0];
  }

  lemma ValueReads(text: string, lo: int, hi: int, names: map<string, int>, v: int)
    requires FieldRange(lo, hi) && NameTable(names, lo, hi)
    ensures FieldValue(text, lo, hi, names) == Ok(v) <==> WritesValue(text, lo, hi, names, v)
  {
    hide ToLower, Atoi, WritesNumber, Spells, IsName;
    var word := ToLower(text);
    AtoiReads(text, v);
    forall k | k in names
      ensures Spells(text, k) <==> k == word
    {
      LowerSpells(text, k);
    }
    if word in names {
      NameIsNoNumber(text, word, v);
    }
  }

  lemma FirstIndex(text: string, c: char)
    ensures c in text <==> IndexOf(text, c) < |text|
    ensures forall k: nat :: FirstAt(text, c, k) <==> c in text && k == IndexOf(text, c)
  {
    var first := IndexOf(text, c);
    assert first < |text| ==> text[first] in text;
    forall k: nat | k < |text| && text[k] == c && k != first
      ensures c in text[..k]
    {
      assert text[..k][first] == c;
    }
  }

  lemma RangeReads(text: string, lo: int, hi: int, names: map<string, int>, a: int, b: int)
    requires FieldRange(lo, hi) && NameTable(names, lo, hi) && '-' in text
    ensures FieldBounds(text, lo, hi, names) == Ok((a, b)) <==> WritesBounds(text, lo, hi, names, a, b)
  {
    hide FieldValue, WritesValue, NameTable, FirstAt;
    FirstIndex(text, '-');
    var dash := IndexOf(text, '-');
    ValueReads(text[..dash], lo, hi, names, a);
    ValueReads(text[dash + 1..], lo, hi, names, b);
  }

  lemma BoundsRead(text: string, lo: int, hi: int, names: map<string, int>, a: int, b: int)
    requires FieldRange(lo, hi) && NameTable(names, lo, hi)
    ensures FieldBounds(text, lo, hi, names) == Ok((a, b)) <==> WritesBounds(text, lo, hi, names, a, b)
  {
    hide FieldValue, WritesValue, NameTable;
    if '-' in text {
      RangeReads(text, lo, hi, names, a, b);
    } else {
      assert IndexOf(text, '-') == |text|;
      ValueReads(text, lo, hi, names, a);
    }
  }

  lemma VisibleIsNotBlank(text: string, i: nat)
    requires i < |text| && !IsSpace(text[i])
    ensures !Blank(text)
  {
    assert text[i] in text;
  }

  lemma ValueNotBlank(text: string, lo: int, hi: int, names: map<string, int>, v: int)
    requires NameTable(names, lo, hi) && WritesValue(text, lo, hi, names, v)
    ensures !Blank(text)
  {
    if k :| k in names && Spells(text, k) && names[k] == v {
      assert text[0] == k[0] || text[0] + 32 as char == k[0];
    }
    VisibleIsNotBlank(text, 0);
  }

  lemma BoundsNotBlank(text: string, lo: int, hi: int, names: map<string, int>, a: int, b: int)
    requires NameTable(names, lo, hi) && WritesBounds(text, lo, hi, names, a, b)
    ensures !Blank(text)
  {
    hide WritesValue, NameTable, Blank;
    if text == "*" {
      VisibleIsNotBlank(text, 0);
    } else if '-' !in text {
      ValueNotBlank(text, lo, hi, names, a);
    } else {
      var k :| 0 <= k < |text| && text[k] == '-';
      VisibleIsNotBlank(text, k);
    }
  }

  lemma SteppedReads(text: string, lo: int, hi: int, names: map<string, int>, it: Item)
    requires FieldRange(lo, hi) && NameTable(names, lo, hi) && '/' in text
    ensures ItemOf(text, lo, hi, names) == Ok(it) <==> Writes(text, lo, hi, names, it)
  {
    hide FieldBounds, WritesBounds, NameTable, Atoi, WritesNumber, Blank, IsSpace, FirstAt;
    var slash := IndexOf(text, '/');
    FirstIndex(text, '/');
    var head, step := text[..slash], text[slash + 1..];
    SlashIsNoSpace();
    VisibleIsNotBlank(text, slash);
    AtoiReads(step, it.step);
    BoundsRead(head, lo, hi, names, it.start, it.end);
  }

  /** An item is read exactly when it is written as described. */
  lemma ItemReads(text: string, lo: int, hi: int, names: map<string, int>, it: Item)
    requires FieldRange(lo, hi) && NameTable(names, lo, hi)
    ensures ItemOf(text, lo, hi, names) == Ok(it) <==> Writes(text, lo, hi, names, it)
  {
    hide FieldBounds, WritesBounds, NameTable, Atoi, WritesNumber, Blank, IsSpace;
    if '/' in text {
      SteppedReads(text, lo, hi, names, it);
    } else {
      assert IndexOf(text, '/') == |text|;
      BoundsRead(text, lo, hi, names, it.start, it.end);
      if WritesBounds(text, lo, hi, names, it.start, it.end) {
        BoundsNotBlank(text, lo, hi, names, it.start, it.end);
      }
    }
  }

  lemma SlashIsNoSpace()
    ensures !IsSpace('/')
  {
  }

  predicate InItem(it: Item, v: int)
    requires it.step >= 1
  {
    it.start <= v <= it.end && (v - it.start) % it.step == 0
  }

  /** The values an item stands for. */
  ghost function Denotes(it: Item): set<int>
    requires it.step >= 1
  {
    set v | it.start <= v <= it.end && InItem(it, v)
  }

  /** A step so large that the loop variable wraps around makes the item fail the range check. */
  predicate StepOverflows(it: Item) {
    it.start + it.step > MAX_INT64
  }

  function ItemError(part: string, lo: int, hi: int, names: map<string, int>): Option<Error>
    requires FieldRange(lo, hi) && NameTable(names, lo, hi)
  {
    match ItemOf(part, lo, hi, names)
    case Err(e) => Some(e)
    case Ok(it) => if StepOverflows(it) then Some(OutOfRange) else None
  }

  // ----- a whole field ------------------------------------------------------

  /** The error of the first bad item. */
  function FirstError(parts: seq<string>, lo: int, hi: int, names: map<string, int>): Option<Error>
    requires FieldRange(lo, hi) && NameTable(names, lo, hi)
  {
    if parts == [] then None
    else match ItemError(parts[0], lo, hi, names)
      case Some(e) => Some(e)
      case None => FirstError(parts[1..], lo, hi, names)
  }

  /** The union of what the items stand for. */
  ghost function Union(parts: seq<string>, lo: int, hi: int, names: map<string, int>): set<int>
    requires FieldRange(lo, hi) && NameTable(names, lo, hi)
  {
    set v, i | lo <= v <= hi && 0 <= i < |parts| && ItemOf(parts[i], lo, hi, names).Ok?
               && v in Denotes(ItemOf(parts[i], lo, hi, names).value) :: v
  }

  /** What a field means: the first error of its items, or else the union of their ranges. */
  ghost function FieldMeaning(field: string, lo: int, hi: int, names: map<string, int>): Result<set<int>>
    requires FieldRange(lo, hi) && NameTable(names, lo, hi)
  {
    var parts := Split(field, ',');
    match FirstError(parts, lo, hi, names)
    case Some(e) => Err(e)
    case None => Ok(Union(parts, lo, hi, names))
  }

  /** A list item that is written as described, with a step that cannot overflow. */
  ghost predicate WellWritten(text: string, lo: int, hi: int, names: map<string, int>) {
    exists it :: Writes(text, lo, hi, names, it) && it.start + it.step <= MAX_INT64
  }

  /** Some item of the comma list allows v. */
  ghost predicate Allows(field: string, lo: int, hi: int, names: map<string, int>, v: int) {
    exists part, it ::
      && part in Split(field, ',') && Writes(part, lo, hi, names, it)
      && it.step >= 1 && it.start <= v <= it.end && (v - it.start) % it.step == 0
  }

  /** A result follows what is written: it is an error exactly when some item of the comma list is not well
      written, and otherwise allows exactly what some item allows. */
  ghost predicate FollowsText(field: string, lo: int, hi: int, names: map<string, int>, r: Result<set<int>>) {
    && (r.Ok? <==> forall part | part in Split(field, ',') :: WellWritten(part, lo, hi, names))
    && (r.Ok? ==> forall v :: v in r.value <==> Allows(field, lo, hi, names, v))
  }

  lemma ErrorIffMiswritten(text: string, lo: int, hi: int, names: map<string, int>)
    requires FieldRange(lo, hi) && NameTable(names, lo, hi)
    ensures ItemError(text, lo, hi, names).None? <==> WellWritten(text, lo, hi, names)
  {
    hide ItemOf, Writes;
    forall it
      ensures ItemOf(text, lo, hi, names) == Ok(it) <==> Writes(text, lo, hi, names, it)
    {
      ItemReads(text, lo, hi, names, it);
    }
  }

  /** A field is accepted exactly when every item of its comma list is a star, a value or a range, with or
      without a step, and in range. */
  lemma RejectsIffBadItem(field: string, lo: int, hi: int, names: map<string, int>)
    requires FieldRange(lo, hi) && NameTable(names, lo, hi)
    ensures FieldMeaning(field, lo, hi, names).Ok? <==>
            forall part | part in Split(field, ',') :: WellWritten(part, lo, hi, names)
  {
    hide ItemError, WellWritten, Split;
    FirstErrorExists(Split(field, ','), lo, hi, names);
    forall part | part in Split(field, ',')
      ensures ItemError(part, lo, hi, names).None? <==> WellWritten(part, lo, hi, names)
    {
      ErrorIffMiswritten(part, lo, hi, names);
    }
  }

  lemma WrittenInRange(text: string, lo: int, hi: int, names: map<string, int>, it: Item)
    requires FieldRange(lo, hi) && Writes(text, lo, hi, names, it)
    ensures lo <= it.start <= it.end <= hi && it.step >= 1
  {
  }

  /** An accepted field means exactly the union of the stepped ranges its items describe. */
  lemma MeansWhatItems(field: string, lo: int, hi: int, names: map<string, int>, v: int)
    requires FieldRange(lo, hi) && NameTable(names, lo, hi) && FieldMeaning(field, lo, hi, names).Ok?
    ensures v in FieldMeaning(field, lo, hi, names).value <==> Allows(field, lo, hi, names, v)
  {
    hide ItemOf, Writes, Split, FirstError, NameTable;
    var parts := Split(field, ',');
    if v in Union(parts, lo, hi, names) {
      var i :| 0 <= i < |parts| && ItemOf(parts[i], lo, hi, names).Ok? && v in Denotes(ItemOf(parts[i], lo, hi, names).value);
      ItemReads(parts[i], lo, hi, names, ItemOf(parts[i], lo, hi, names).value);
    }
    if Allows(field, lo, hi, names, v) {
      var part, it :|
        && part in parts && Writes(part, lo, hi, names, it)
        && it.step >= 1 && it.start <= v <= it.end && (v - it.start) % it.step == 0;
      ItemReads(part, lo, hi, names, it);
      WrittenInRange(part, lo, hi, names, it);
      InItemIs(it, v);
      var i :| 0 <= i < |parts| && parts[i] == part;
      assert v in Denotes(ItemOf(parts[i], lo, hi, names).value);
    }
  }

  lemma SmallMultiple(k: int, step: int, d: int)
    requires k * step == d && -step < d < step
    ensures k == 0
  {
  }

  lemma ModUnique(x: int, q: int, step: int, r: int)
    requires 0 <= r < step && x == q * step + r
    ensures x % step == r
  {
    var k := q - x / step;
    assert k * step == x % step - r;
    SmallMultiple(k, step, x % step - r);
  }

  /** After a value of an item the next one is one step further. */
  lemma NextValue(it: Item, v: int)
    requires it.step >= 1 && it.start <= v && (v - it.start) % it.step == 0
    ensures (v + it.step - it.start) % it.step == 0
    ensures forall u :: v < u < v + it.step ==> !InItem(it, u)
  {
    var q := (v - it.start) / it.step;
    assert v - it.start == q * it.step;
    assert v + it.step - it.start == (q + 1) * it.step;
    ModUnique(v + it.step - it.start, q + 1, it.step, 0);
    forall u | v < u < v + it.step
      ensures !InItem(it, u)
    {
      ModUnique(u - it.start, q, it.step, u - v);
    }
  }

  /** The values of an item below v. */
  ghost function Below(it: Item, v: int): set<int>
    requires it.step >= 1
  {
    set u | it.start <= u < v && InItem(it, u)
  }

  lemma BelowStep(it: Item, v: int)
    requires it.step >= 1 && InItem(it, v)
    ensures Below(it, v + it.step) == Below(it, v) + {v}
    ensures v + it.step > it.end ==> Below(it, v + it.step) == Denotes(it)
  {
    hide InItem;
    assert (v - it.start) % it.step == 0 && it.start <= v by {
      InItemIs(it, v);
    }
    NextValue(it, v);
    forall u | InItem(it, u)
      ensures it.start <= u <= it.end
    {
      InItemIs(it, u);
    }
  }

  lemma InItemIs(it: Item, v: int)
    requires it.step >= 1
    ensures InItem(it, v) <==> it.start <= v <= it.end && (v - it.start) % it.step == 0
  {
  }

  lemma WrapStep(v: int, step: int)
    requires 0 <= v <= 59 && 1 <= step <= MAX_INT64
    ensures Wrap64(v + step) == v + step <==> v + step <= MAX_INT64
    ensures Wrap64(v + step) != v + step ==> Wrap64(v + step) < 0
  {
  }

  lemma FirstValue(it: Item)
    requires it.step >= 1 && it.start <= it.end
    ensures InItem(it, it.start) && Below(it, it.start) == {}
  {
  }

  /** The values of one item, stepping a 64-bit variable; an error when a value leaves the range. */
  method ExpandItem(it: Item, lo: int, hi: int, out: set<int>) returns (r: Result<set<int>>)
    requires FieldRange(lo, hi) && lo <= it.start <= it.end <= hi && 1 <= it.step <= MAX_INT64
    ensures r == if StepOverflows(it) then Err(OutOfRange) else Ok(out + Denotes(it))
  {
    hide InItem, Below, Denotes, Wrap64;
    FirstValue(it);
    var values := out;
    var v := it.start;
    while v <= it.end
      invariant it.start <= v || (v < lo && StepOverflows(it))
      invariant it.start <= v <= it.end ==> InItem(it, v)
      invariant it.start < v ==> !StepOverflows(it) && (v <= it.end ==> it.step <= 59)
      invariant it.start <= v ==> values == out + Below(it, v)
      invariant v > it.end ==> Below(it, v) == Denotes(it)
      decreases if v < lo then 0 else it.end - v + 1
    {
      if v < lo || v > hi {
        return Err(OutOfRange);
      }
      values := values + {v};
      BelowStep(it, v);
      WrapStep(v, it.step);
      NextIsInItem(it, v);
      v := Wrap64(v + it.step);
    }
    return Ok(values);
  }

  lemma NextIsInItem(it: Item, v: int)
    requires it.step >= 1 && InItem(it, v)
    ensures v + it.step <= it.end ==> InItem(it, v + it.step)
  {
    NextValue(it, v);
  }

  lemma FieldReads(field: string, lo: int, hi: int, names: map<string, int>)
    requires FieldRange(lo, hi) && NameTable(names, lo, hi)
    ensures FollowsText(field, lo, hi, names, FieldMeaning(field, lo, hi, names))
  {
    hide FieldMeaning, Allows, WellWritten, Split;
    RejectsIffBadItem(field, lo, hi, names);
    if FieldMeaning(field, lo, hi, names).Ok? {
      forall v
        ensures v in FieldMeaning(field, lo, hi, names).value <==> Allows(field, lo, hi, names, v)
      {
        MeansWhatItems(field, lo, hi, names, v);
      }
    }
  }

  /** Expands one cron field into the set of allowed values: it accepts the fields whose items are well
      written, and then allows what some item allows. */
  method ParseField(field: string, lo: int, hi: int, names: map<string, int>) returns (r: Result<set<int>>)
    requires FieldRange(lo, hi) && NameTable(names, lo, hi)
    ensures r == FieldMeaning(field, lo, hi, names)
    ensures FollowsText(field, lo, hi, names, r)
    ensures r.Ok? ==> r.value != {} && forall v | v in r.value :: lo <= v <= hi
  {
    hide ItemOf, Union, Denotes, StepOverflows, FollowsText;
    FieldReads(field, lo, hi, names);
    var out: set<int> := {};
    var parts := Split(field, ',');
    var i := 0;
    assert parts[0..] == parts;
    UnionInRange(parts, lo, hi, names);
    UnionEmpty(lo, hi, names);
    while i < |parts|
      invariant 0 <= i <= |parts|
      invariant FirstError(parts, lo, hi, names) == FirstError(parts[i..], lo, hi, names)
      invariant out == Union(parts[..i], lo, hi, names)
      invariant i > 0 ==> out != {}
    {
      var item := ItemOf(parts[i], lo, hi, names);
      assert parts[i..][0] == parts[i] && parts[i..][1..] == parts[i + 1..];
      if item.Err? {
        return Err(item.error);
      }
      var expanded := ExpandItem(item.value, lo, hi, out);
      if expanded.Err? {
        return expanded;
      }
      UnionStep(parts, i, lo, hi, names);
      StartIsDenoted(item.value);
      out := expanded.value;
      i := i + 1;
    }
    assert parts[..i] == parts;
    return Ok(out);
  }

  lemma StartIsDenoted(it: Item)
    requires it.step >= 1 && it.start <= it.end
    ensures it.start in Denotes(it)
  {
    assert InItem(it, it.start);
  }

  lemma UnionInRange(parts: seq<string>, lo: int, hi: int, names: map<string, int>)
    requires FieldRange(lo, hi) && NameTable(names, lo, hi)
    ensures forall v | v in Union(parts, lo, hi, names) :: lo <= v <= hi
  {
    hide ItemOf, Denotes;
  }

  lemma UnionEmpty(lo: int, hi: int, names: map<string, int>)
    requires FieldRange(lo, hi) && NameTable(names, lo, hi)
    ensures Union([], lo, hi, names) == {}
  {
    hide ItemOf, Denotes;
  }

  lemma UnionStep(parts: seq<string>, i: nat, lo: int, hi: int, names: map<string, int>)
    requires FieldRange(lo, hi) && NameTable(names, lo, hi)
    requires i < |parts| && ItemOf(parts[i], lo, hi, names).Ok?
    ensures Union(parts[..i + 1], lo, hi, names)
         == Union(parts[..i], lo, hi, names) + Denotes(ItemOf(parts[i], lo, hi, names).value)
  {
    hide ItemOf;
    var a, b := parts[..i + 1], parts[..i];
    forall v | v in Union(b, lo, hi, names)
      ensures v in Union(a, lo, hi, names)
    {
      var k :| 0 <= k < |b| && ItemOf(b[k], lo, hi, names).Ok? && v in Denotes(ItemOf(b[k], lo, hi, names).value);
      assert a[k] == b[k];
    }
    assert a[i] == parts[i];
    forall v | v in Union(a, lo, hi, names) && v !in Denotes(ItemOf(parts[i], lo, hi, names).value)
      ensures v in Union(b, lo, hi, names)
    {
      var k :| 0 <= k < |a| && ItemOf(a[k], lo, hi, names).Ok? && v in Denotes(ItemOf(a[k], lo, hi, names).value);
      assert a[k] == b[k];
    }
  }

  lemma {:induction false} FirstErrorExists(parts: seq<string>, lo: int, hi: int, names: map<string, int>)
    requires FieldRange(lo, hi) && NameTable(names, lo, hi)
    ensures FirstError(parts, lo, hi, names).Some? <==> exists p | p in parts :: ItemError(p, lo, hi, names).Some?
  {
    hide ItemError;
    if parts != [] {
      FirstErrorExists(parts[1..], lo, hi, names);
      assert parts == [parts[0]] + parts[1..];
    }
  }

  // ----- canonical lists ----------------------------------------------------

  /** The comma list that names each value in decimal. */
  function CanonicalParts(values: seq<nat>): seq<string> {
    seq(|values|, i requires 0 <= i < |values| => Decimal(values[i]))
  }

  ghost function Values(values: seq<nat>): set<int> {
    set i | 0 <= i < |values| :: values[i] as int
  }

  function CanonicalList(values: seq<nat>): string
    requires values != []
  {
    Join(CanonicalParts(values), ',')
  }

  lemma DecimalItem(v: nat, lo: int, hi: int, names: map<string, int>)
    requires FieldRange(lo, hi) && NameTable(names, lo, hi) && lo <= v <= hi
    ensures ItemOf(Decimal(v), lo, hi, names) == Ok(Item(v, v, 1))
    ensures Denotes(Item(v, v, 1)) == {v}
    ensures ',' !in Decimal(v)
  {
    hide Decimal;
    var s := Decimal(v);
    assert s[0] in s;
    AtoiDecimal(v);
    assert ToLower(s)[0] == s[0];
    assert IndexOf(s, '/') == |s| && IndexOf(s, '-') == |s|;
    assert s != "*";
  }

  lemma CanonicalUnion(parts: seq<string>, values: seq<nat>, lo: int, hi: int, names: map<string, int>)
    requires FieldRange(lo, hi) && NameTable(names, lo, hi)
    requires |parts| == |values| && forall i :: 0 <= i < |values| ==> lo <= values[i] <= hi
    requires forall i :: 0 <= i < |parts| ==> ItemOf(parts[i], lo, hi, names).Ok?
                                               && Denotes(ItemOf(parts[i], lo, hi, names).value) == {values[i] as int}
    ensures Union(parts, lo, hi, names) == Values(values)
  {
    hide ItemOf, Denotes;
    forall i | 0 <= i < |values|
      ensures values[i] as int in Union(parts, lo, hi, names)
    {
      assert values[i] as int in Denotes(ItemOf(parts[i], lo, hi, names).value);
    }
    forall v | v in Union(parts, lo, hi, names)
      ensures exists i :: 0 <= i < |values| && values[i] as int == v
    {
      var i :| 0 <= i < |parts| && v in Denotes(ItemOf(parts[i], lo, hi, names).value);
    }
  }

  /** Any non-empty list of values in range parses back to exactly its set of values. */
  lemma CanonicalRoundTrip(values: seq<nat>, lo: int, hi: int, names: map<string, int>)
    requires FieldRange(lo, hi) && NameTable(names, lo, hi)
    requires values != [] && forall i :: 0 <= i < |values| ==> lo <= values[i] <= hi
    ensures FieldMeaning(CanonicalList(values), lo, hi, names) == Ok(Values(values))
  {
    hide ItemOf, Decimal, Denotes, Union, Split, Join, FirstError;
    var parts := CanonicalParts(values);
    forall i | 0 <= i < |values|
      ensures ItemOf(parts[i], lo, hi, names) == Ok(Item(values[i], values[i], 1))
      ensures Denotes(Item(values[i], values[i], 1)) == {values[i] as int} && ',' !in parts[i]
    {
      DecimalItem(values[i], lo, hi, names);
    }
    SplitJoin(parts, ',');
    FirstErrorExists(parts, lo, hi, names);
    CanonicalUnion(parts, values, lo, hi, names);
  }

  // ----- expressions --------------------------------------------------------

  function Expand(expr: string): string {
    var e := ToLower(expr);
    if e == "@yearly" || e == "@annually" then "0 0 1 1 *"
    else if e == "@monthly" then "0 0 1 * *"
    else if e == "@weekly" then "0 0 * * 0"
    else if e == "@daily" || e == "@midnight" then "0 0 * * *"
    else if e == "@hourly" then "0 * * * *"
    else expr
  }

  function EveryUnit(u: string): Option<int> {
    if u == "ms" then Some(1_000_000)
    else if u == "s" then Some(1_000_000_000)
    else if u == "m" then Some(MINUTE)
    else if u == "h" then Some(60 * MINUTE)
    else if u == "d" then Some(1440 * MINUTE)
    else if u == "w" then Some(7 * 1440 * MINUTE)
    else if u == "mo" then Some(30 * 1440 * MINUTE)
    else if u == "y" then Some(365 * 1440 * MINUTE)
    else None
  }

  predicate RegexpSpace(c: char) {
    c == '\t' || c == '\n' || c == '\U{000C}' || c == '\r' || c == ' '
  }

  function SkipSpaces(s: string): string {
    if s != "" && RegexpSpace(s[0]) then SkipSpaces(s[1..]) else s
  }

  function DigitsPrefix(s: string): (n: nat)
    ensures n <= |s| && AllDigits(s[..n])
  {
    if s != "" && '0' <= s[0] <= '9' then
      var n := DigitsPrefix(s[1..]);
      assert s[..n + 1] == [s[0]] + s[1..][..n];
      n + 1
    else 0
  }

  /** The @every pattern: at least one space, at least one digit, then exactly one of the units. */
  function EveryParts(e: string): Option<(string, int)> {
    if |e| < 7 || e[..6] != "@every" || !RegexpSpace(e[6]) then None
    else
      var s := SkipSpaces(e[6..]);
      var n := DigitsPrefix(s);
      if n == 0 then None
      else match EveryUnit(s[n..])
        case None => None
        case Some(unit) => Some((s[..n], unit))
  }

  /** The interval of n units, in the 64-bit arithmetic of time.Duration. */
  function EveryInterval(n: int, unit: int): Result<Spec> {
    var every := Wrap64(n * unit);
    if every < MINUTE then Err(EveryTooShort) else Ok(Interval(every))
  }

  function ParseEvery(digits: string, unit: int): Result<Spec> {
    match Atoi(digits)
    case None => Err(InvalidEvery)
    case Some(n) => if n < 1 then Err(InvalidEvery) else EveryInterval(n, unit)
  }

  lemma EveryIsLong(digits: string, unit: int)
    ensures match ParseEvery(digits, unit)
      case Err(e) => true
      case Ok(s) => s.Interval? && MINUTE <= s.every <= MAX_INT64
  {
    hide Atoi;
  }

  /** Sunday may be written 7. */
  function NormaliseWeekdays(ws: set<int>): set<int> {
    if 0 in ws || 7 in ws then ws + {0} - {7} else ws
  }

  ghost function FieldsMeaning(fields: seq<string>): Result<Spec>
    requires |fields| == 5
  {
    NameTables();
    match FieldMeaning(fields[0], 0, 59, map[])
    case Err(e) => Err(InField(0, e))
    case Ok(minutes) =>
    match FieldMeaning(fields[1], 0, 23, map[])
    case Err(e) => Err(InField(1, e))
    case Ok(hours) =>
    match FieldMeaning(fields[2], 1, 31, map[])
    case Err(e) => Err(InField(2, e))
    case Ok(days) =>
    match FieldMeaning(fields[3], 1, 12, NAME_MONTHS)
    case Err(e) => Err(InField(3, e))
    case Ok(months) =>
    match FieldMeaning(fields[4], 0, 7, NAME_WEEKDAYS)
    case Err(e) => Err(InField(4, e))
    case Ok(weekdays) =>
      Ok(Clock(minutes, hours, days, months, NormaliseWeekdays(weekdays), fields[2] == "*", fields[4] == "*"))
  }

  ghost function Meaning(expr: string): Result<Spec> {
    var trimmed := TrimSpace(expr);
    if trimmed == "" then Err(EmptyExpression)
    else
      var e := Expand(trimmed);
      match EveryParts(e)
      case Some((digits, unit)) => ParseEvery(digits, unit)
      case None => if |Fields(e)| != 5 then Err(FieldCount) else FieldsMeaning(Fields(e))
  }

  /** Parse turns an expression into a specification; what it accepts is well formed, and an accepted
      interval is at least one minute long. */
  method Parse(expr: string) returns (r: Result<Spec>)
    ensures r == Meaning(expr)
    ensures r.Ok? ==> WellFormed(r.value) && (r.value.Interval? ==> MINUTE <= r.value.every <= MAX_INT64)
  {
    hide FollowsText, FieldMeaning, NAME_MONTHS, NAME_WEEKDAYS, TrimSpace, Expand, EveryParts, Fields, ParseEvery, NameTable;
    NameTables();
    var e := TrimSpace(expr);
    if e == "" {
      return Err(EmptyExpression);
    }
    e := Expand(e);
    var every := EveryParts(e);
    if every.Some? {
      EveryIsLong(every.value.0, every.value.1);
      return ParseEvery(every.value.0, every.value.1);
    }
    var fields := Fields(e);
    if |fields| != 5 {
      return Err(FieldCount);
    }
    var minutes := ParseField(fields[0], 0, 59, map[]);
    if minutes.Err? {
      return Err(InField(0, minutes.error));
    }
    var hours := ParseField(fields[1], 0, 23, map[]);
    if hours.Err? {
      return Err(InField(1, hours.error));
    }
    var days := ParseField(fields[2], 1, 31, map[]);
    if days.Err? {
      return Err(InField(2, days.error));
    }
    var months := ParseField(fields[3], 1, 12, NAME_MONTHS);
    if months.Err? {
      return Err(InField(3, months.error));
    }
    var weekdays := ParseField(fields[4], 0, 7, NAME_WEEKDAYS);
    if weekdays.Err? {
      return Err(InField(4, weekdays.error));
    }
    // A 7 stands for the same day as a 0.
    var ws := weekdays.value;
    if 0 in ws || 7 in ws {
      ws := ws + {0};
    }
    ws := ws - {7};
    NormaliseKeepsRange(weekdays.value);
    assert ws == NormaliseWeekdays(weekdays.value);
    r := Ok(Clock(minutes.value, hours.value, days.value, months.value, ws, fields[2] == "*", fields[4] == "*"));
  }

  lemma NormaliseKeepsRange(ws: set<int>)
    requires ws != {} && forall v | v in ws :: 0 <= v <= 7
    ensures NormaliseWeekdays(ws) != {} && forall v | v in NormaliseWeekdays(ws) :: 0 <= v <= 6
    ensures NormaliseWeekdays(ws) == set v | v in ws :: v % 7
  {
    if 0 in ws || 7 in ws {
      assert 0 in NormaliseWeekdays(ws);
    }
  }

  /** Weekday 7 cannot be told from 0: writing one for the other changes no match. */
  lemma SundaySynonym(s: Spec, ws: set<int>, t: int)
    requires s.Clock? && ws != {} && forall v | v in ws :: 0 <= v <= 7
    requires 7 in ws
    ensures Match(s.(weekdays := NormaliseWeekdays(ws)), t)
       <==> Match(s.(weekdays := NormaliseWeekdays(ws - {7} + {0})), t)
    ensures NormaliseWeekdays(ws) == NormaliseWeekdays(ws + {0})
  {
    assert NormaliseWeekdays(ws) == NormaliseWeekdays(ws - {7} + {0});
    assert NormaliseWeekdays(ws) == NormaliseWeekdays(ws + {0});
  }

  /** An accepted @every interval is the requested one exactly when the product fits in 64 bits. */
  lemma EveryIsExactIffItFits(n: int, unit: int)
    requires n >= 1 && unit >= 1 && EveryInterval(n, unit).Ok?
    ensures EveryInterval(n, unit).value == Interval(n * unit) <==> n * unit <= MAX_INT64
  {
  }

  /** Every item of the field is well written. */
  ghost predicate WellWrittenField(field: string, lo: int, hi: int, names: map<string, int>) {
    forall part | part in Split(field, ',') :: WellWritten(part, lo, hi, names)
  }

  predicate IsDigit(c: char) {
    '0' <= c <= '9'
  }

  /** An interval as an operator writes it: the word, white space, a number from i to j, and one of the units. */
  predicate EveryAt(e: string, i: nat, j: nat) {
    && 6 < i < j <= |e| && e[..6] == "@every"
    && (forall k :: 6 <= k < i ==> RegexpSpace(e[k]))
    && (forall k :: i <= k < j ==> IsDigit(e[k]))
    && EveryUnit(e[j..]).Some?
  }

  lemma {:induction false} SpacesSkipped(t: string)
    ensures var s := SkipSpaces(t); var m := |t| - |s|;
      && m >= 0 && t[m..] == s && (forall k :: 0 <= k < m ==> RegexpSpace(t[k]))
      && (s != "" ==> !RegexpSpace(s[0]))
  {
    if t != "" && RegexpSpace(t[0]) {
      SpacesSkipped(t[1..]);
      assert forall k :: 1 <= k < |t| ==> t[k] == t[1..][k - 1];
    }
  }

  lemma {:induction false} SkipsTo(t: string, m: nat)
    requires m < |t| && (forall k :: 0 <= k < m ==> RegexpSpace(t[k])) && !RegexpSpace(t[m])
    ensures SkipSpaces(t) == t[m..]
  {
    if m > 0 {
      SkipsTo(t[1..], m - 1);
    }
  }

  lemma {:induction false} DigitsTo(t: string, n: nat)
    requires n <= |t| && (forall k :: 0 <= k < n ==> IsDigit(t[k])) && (n < |t| ==> !IsDigit(t[n]))
    ensures DigitsPrefix(t) == n
  {
    if n > 0 {
      DigitsTo(t[1..], n - 1);
    }
  }

  lemma UnitStarts(u: string)
    requires EveryUnit(u).Some?
    ensures u != "" && !IsDigit(u[0])
  {
  }

  lemma DigitIsNoSpace(c: char)
    requires IsDigit(c)
    ensures !RegexpSpace(c)
  {
  }

  /** The pattern matches exactly the texts that are written that way, and takes them apart there. */
  lemma EveryReads(e: string, i: nat, j: nat)
    requires EveryAt(e, i, j)
    ensures EveryParts(e) == Some((e[i..j], EveryUnit(e[j..]).value))
  {
    hide EveryUnit, RegexpSpace, IsDigit;
    var t, s := e[6..], e[i..];
    DigitIsNoSpace(e[i]);
    assert RegexpSpace(e[6]);
    SkipsTo(t, i - 6);
    assert t[i - 6..] == s;
    UnitStarts(e[j..]);
    DigitsTo(s, j - i);
    assert s[..j - i] == e[i..j] && s[j - i..] == e[j..];
  }

  lemma EveryIsWritten(e: string) returns (i: nat, j: nat)
    requires EveryParts(e).Some?
    ensures EveryAt(e, i, j)
  {
    hide EveryUnit, RegexpSpace;
    SpacesSkipped(e[6..]);
    var s := SkipSpaces(e[6..]);
    i := |e| - |s|;
    j := i + DigitsPrefix(s);
    assert e[i..] == s && e[j..] == s[j - i..];
    assert forall k :: i <= k < j ==> e[k] == s[..j - i][k - i];
    assert forall k :: 6 <= k < i ==> e[k] == e[6..][k - 6];
  }

  /** What an interval text means, however it is spaced and padded with zeros: its number of units in 64-bit
      nanoseconds, if the number is positive and fits and the product is at least a minute. */
  lemma EveryTextMeaning(expr: string, i: nat, j: nat)
    requires EveryAt(Expand(TrimSpace(expr)), i, j)
    ensures var e := Expand(TrimSpace(expr)); var n := DigitsValue(e[i..j]);
      Meaning(expr) == if 1 <= n <= MAX_INT64 then EveryInterval(n, EveryUnit(e[j..]).value) else Err(InvalidEvery)
  {
    hide TrimSpace, Expand, EveryParts, EveryUnit, EveryInterval, Fields, FieldsMeaning;
    var e := Expand(TrimSpace(expr));
    EveryReads(e, i, j);
    var d := e[i..j];
    assert d[0] == e[i] && IsDigit(d[0]);
    assert AllDigits(d);
    NotEmptyIfExpanded(expr);
  }

  lemma NotEmptyIfExpanded(expr: string)
    ensures TrimSpace(expr) == "" ==> Expand(TrimSpace(expr)) == ""
  {
    hide TrimSpace;
    assert ToLower("") == "";
  }

  predicate LongEnough(digits: string, unit: int)
    requires AllDigits(digits)
  {
    1 <= DigitsValue(digits) <= MAX_INT64 && Wrap64(DigitsValue(digits) * unit) >= MINUTE
  }

  ghost predicate IsInterval(e: string) {
    exists i: nat, j: nat :: EveryAt(e, i, j)
  }

  ghost predicate IsLongInterval(e: string) {
    exists i: nat, j: nat :: EveryAt(e, i, j) && LongEnough(e[i..j], EveryUnit(e[j..]).value)
  }

  /** Exactly what is accepted: an interval text when it is long enough, and any other text when it has five
      fields, each well written for its range and its names. */
  lemma AcceptsIffWellWritten(expr: string)
    ensures var e := Expand(TrimSpace(expr)); var fields := Fields(e);
      Meaning(expr).Ok? <==>
        if IsInterval(e) then IsLongInterval(e)
        else
          && |fields| == 5
          && WellWrittenField(fields[0], 0, 59, map[]) && WellWrittenField(fields[1], 0, 23, map[])
          && WellWrittenField(fields[2], 1, 31, map[]) && WellWrittenField(fields[3], 1, 12, NAME_MONTHS)
          && WellWrittenField(fields[4], 0, 7, NAME_WEEKDAYS)
  {
    hide Meaning, EveryAt, TrimSpace, Expand, WellWrittenField, NAME_MONTHS, NAME_WEEKDAYS, EveryUnit, LongEnough, Fields, EveryParts;
    var e := Expand(TrimSpace(expr));
    if EveryParts(e).Some? {
      var i, j := EveryIsWritten(e);
      IntervalAccepted(expr, i, j);
    } else {
      forall i: nat, j: nat
        ensures !EveryAt(e, i, j)
      {
        if EveryAt(e, i, j) {
          EveryReads(e, i, j);
        }
      }
      FieldsAccepted(expr);
    }
  }

  lemma IntervalAccepted(expr: string, i: nat, j: nat)
    requires EveryAt(Expand(TrimSpace(expr)), i, j)
    ensures Meaning(expr).Ok? <==> IsLongInterval(Expand(TrimSpace(expr)))
  {
    hide Meaning, EveryUnit, TrimSpace, Expand, EveryParts;
    var e := Expand(TrimSpace(expr));
    EveryTextMeaning(expr, i, j);
    EveryReads(e, i, j);
    if k: nat, l: nat :| EveryAt(e, k, l) && LongEnough(e[k..l], EveryUnit(e[l..]).value) {
      EveryReads(e, k, l);
    }
  }

  lemma FieldsAccepted(expr: string)
    requires EveryParts(Expand(TrimSpace(expr))).None?
    ensures var fields := Fields(Expand(TrimSpace(expr)));
      Meaning(expr).Ok? <==>
        && |fields| == 5
        && WellWrittenField(fields[0], 0, 59, map[]) && WellWrittenField(fields[1], 0, 23, map[])
        && WellWrittenField(fields[2], 1, 31, map[]) && WellWrittenField(fields[3], 1, 12, NAME_MONTHS)
        && WellWrittenField(fields[4], 0, 7, NAME_WEEKDAYS)
  {
    hide FieldMeaning, WellWritten, EveryParts, TrimSpace, NAME_MONTHS, NAME_WEEKDAYS, NameTable;
    NameTables();
    var fields := Fields(Expand(TrimSpace(expr)));
    if |fields| == 5 {
      RejectsIffBadItem(fields[0], 0, 59, map[]);
      RejectsIffBadItem(fields[1], 0, 23, map[]);
      RejectsIffBadItem(fields[2], 1, 31, map[]);
      RejectsIffBadItem(fields[3], 1, 12, NAME_MONTHS);
      RejectsIffBadItem(fields[4], 0, 7, NAME_WEEKDAYS);
    }
  }

  /** The bounds and the names of the five fields. */
  function FieldAt(k: nat): (int, int, map<string, int>)
    requires k < 5
  {
    match k
    case 0 => (0, 59, map[])
    case 1 => (0, 23, map[])
    case 2 => (1, 31, map[])
    case 3 => (1, 12, NAME_MONTHS)
    case 4 => (0, 7, NAME_WEEKDAYS)
  }

  /** The value v is written in field k. */
  ghost predicate AllowsAt(fields: seq<string>, k: nat, v: int)
    requires k < 5 == |fields|
  {
    Allows(fields[k], FieldAt(k).0, FieldAt(k).1, FieldAt(k).2, v)
  }

  /** An accepted expression of five fields: each set holds exactly what its field writes, with Sunday written 0
      or 7, and a day field is free exactly when it is a bare star. */
  lemma ClockIsAsWritten(expr: string)
    requires Meaning(expr).Ok? && !IsInterval(Expand(TrimSpace(expr)))
    ensures var fields := Fields(Expand(TrimSpace(expr))); var s := Meaning(expr).value;
      && |fields| == 5 && s.Clock?
      && (forall v :: v in s.minutes <==> AllowsAt(fields, 0, v))
      && (forall v :: v in s.hours <==> AllowsAt(fields, 1, v))
      && (forall v :: v in s.days <==> AllowsAt(fields, 2, v))
      && (forall v :: v in s.months <==> AllowsAt(fields, 3, v))
      && (forall v :: v in s.weekdays <==> v != 7 && (AllowsAt(fields, 4, v) || (v == 0 && AllowsAt(fields, 4, 7))))
      && (s.daysFree <==> fields[2] == "*") && (s.weekFree <==> fields[4] == "*")
  {
    hide FieldMeaning, Allows, WellWritten, TrimSpace, Expand, NAME_MONTHS, NAME_WEEKDAYS, NameTable, EveryAt, EveryParts, Fields;
    var e := Expand(TrimSpace(expr));
    if EveryParts(e).Some? {
      var i, j := EveryIsWritten(e);
      assert false;
    } else {
      NameTables();
      var fields := Fields(e);
      FieldReads(fields[0], 0, 59, map[]);
      FieldReads(fields[1], 0, 23, map[]);
      FieldReads(fields[2], 1, 31, map[]);
      FieldReads(fields[3], 1, 12, NAME_MONTHS);
      FieldReads(fields[4], 0, 7, NAME_WEEKDAYS);
    }
  }

  // ----- why a field is refused ---------------------------------------------

  ghost predicate IsNumber(text: string) {
    exists v :: WritesNumber(text, v)
  }

  ghost predicate IsValue(text: string, lo: int, hi: int, names: map<string, int>) {
    exists v :: WritesValue(text, lo, hi, names, v)
  }

  /** The end of the bounds that is no value of the field, the left one first. */
  ghost predicate BadEnd(bounds: string, lo: int, hi: int, names: map<string, int>, end: string) {
    && bounds != "*" && !IsValue(end, lo, hi, names)
    && (|| ('-' !in bounds && end == bounds)
        || exists k: nat :: FirstAt(bounds, '-', k)
             && (end == bounds[..k] || (IsValue(bounds[..k], lo, hi, names) && end == bounds[k + 1..])))
  }

  /** Two values in the wrong order. */
  ghost predicate Descends(left: string, right: string, lo: int, hi: int, names: map<string, int>) {
    exists a, b :: a > b && WritesValue(left, lo, hi, names, a) && WritesValue(right, lo, hi, names, b)
  }

  ghost predicate BoundsRefused(bounds: string, lo: int, hi: int, names: map<string, int>, e: Error) {
    || (e == EmptyRange && exists k: nat :: FirstAt(bounds, '-', k) && Descends(bounds[..k], bounds[k + 1..], lo, hi, names))
    || exists end :: BadEnd(bounds, lo, hi, names, end) && e == if IsNumber(end) then OutOfRange else InvalidValue
  }

  ghost predicate IsPositive(text: string) {
    exists n :: n >= 1 && WritesNumber(text, n)
  }

  /** A positive number stands after the first slash, if there is one. */
  ghost predicate StepWritten(text: string) {
    '/' in text ==> exists k: nat :: FirstAt(text, '/', k) && IsPositive(text[k + 1..])
  }

  /** Why an item is refused: it is blank, its step is no positive number, an end of its bounds is no number or
      one that is out of range, its bounds descend, or its step wraps around. */
  ghost predicate Refused(text: string, lo: int, hi: int, names: map<string, int>, e: Error) {
    if Blank(text) then e == EmptyItem
    else if !StepWritten(text) then e == InvalidStep
    else
      || BoundsRefused(if '/' in text then text[..IndexOf(text, '/')] else text, lo, hi, names, e)
      || (e == OutOfRange && exists it :: Writes(text, lo, hi, names, it) && it.start + it.step > MAX_INT64)
  }

  lemma ValueRefused(text: string, lo: int, hi: int, names: map<string, int>)
    requires FieldRange(lo, hi) && NameTable(names, lo, hi)
    ensures match FieldValue(text, lo, hi, names)
      case Ok(v) => WritesValue(text, lo, hi, names, v)
      case Err(e) => !IsValue(text, lo, hi, names) && e == if IsNumber(text) then OutOfRange else InvalidValue
  {
    hide WritesValue, WritesNumber, Atoi, NameTable;
    forall v
      ensures FieldValue(text, lo, hi, names) == Ok(v) <==> WritesValue(text, lo, hi, names, v)
      ensures Atoi(text) == Some(v) <==> WritesNumber(text, v)
    {
      ValueReads(text, lo, hi, names, v);
      AtoiReads(text, v);
    }
  }

  lemma BoundsRefusal(bounds: string, lo: int, hi: int, names: map<string, int>)
    requires FieldRange(lo, hi) && NameTable(names, lo, hi) && FieldBounds(bounds, lo, hi, names).Err?
    ensures BoundsRefused(bounds, lo, hi, names, FieldBounds(bounds, lo, hi, names).error)
  {
    hide FieldValue, WritesValue, IsValue, IsNumber, NameTable, FirstAt;
    FirstIndex(bounds, '-');
    var k := IndexOf(bounds, '-');
    if k < |bounds| {
      ValueRefused(bounds[..k], lo, hi, names);
      ValueRefused(bounds[k + 1..], lo, hi, names);
      if FieldValue(bounds[..k], lo, hi, names).Err? {
        assert BadEnd(bounds, lo, hi, names, bounds[..k]);
      } else if FieldValue(bounds[k + 1..], lo, hi, names).Err? {
        assert IsValue(bounds[..k], lo, hi, names) by {
          IsOne(bounds[..k], lo, hi, names, FieldValue(bounds[..k], lo, hi, names).value);
        }
        assert BadEnd(bounds, lo, hi, names, bounds[k + 1..]);
      }
    } else {
      ValueRefused(bounds, lo, hi, names);
      assert BadEnd(bounds, lo, hi, names, bounds);
    }
  }

  lemma IsOne(text: string, lo: int, hi: int, names: map<string, int>, v: int)
    requires WritesValue(text, lo, hi, names, v)
    ensures IsValue(text, lo, hi, names)
  {
  }

  lemma PositiveReads(text: string)
    ensures IsPositive(text) <==> Atoi(text).Some? && Atoi(text).value >= 1
  {
    hide Atoi, WritesNumber;
    forall n
      ensures Atoi(text) == Some(n) <==> WritesNumber(text, n)
    {
      AtoiReads(text, n);
    }
  }

  lemma StepReads(text: string)
    ensures StepOf(text).Ok? <==> StepWritten(text)
    ensures StepOf(text).Ok? ==> StepOf(text).value.1 == if '/' in text then text[..IndexOf(text, '/')] else text
    ensures StepOf(text).Err? ==> StepOf(text).error == InvalidStep
  {
    hide Atoi, IsPositive, FirstAt;
    FirstIndex(text, '/');
    if '/' in text {
      assert FirstAt(text, '/', IndexOf(text, '/'));
      PositiveReads(text[IndexOf(text, '/') + 1..]);
    }
  }

  lemma ItemRefusal(text: string, lo: int, hi: int, names: map<string, int>)
    requires FieldRange(lo, hi) && NameTable(names, lo, hi) && ItemError(text, lo, hi, names).Some?
    ensures Refused(text, lo, hi, names, ItemError(text, lo, hi, names).value)
  {
    hide Blank, StepOf, StepWritten, FieldBounds, BoundsRefused, Writes, NameTable;
    StepReads(text);
    if ItemOf(text, lo, hi, names).Ok? {
      ItemReads(text, lo, hi, names, ItemOf(text, lo, hi, names).value);
    } else if !Blank(text) && StepOf(text).Ok? && FieldBounds(StepOf(text).value.1, lo, hi, names).Err? {
      BoundsRefusal(StepOf(text).value.1, lo, hi, names);
    }
  }

  lemma {:induction false} FirstErrorIsFirst(parts: seq<string>, lo: int, hi: int, names: map<string, int>) returns (i: nat)
    requires FieldRange(lo, hi) && NameTable(names, lo, hi) && FirstError(parts, lo, hi, names).Some?
    ensures i < |parts| && ItemError(parts[i], lo, hi, names) == FirstError(parts, lo, hi, names)
    ensures forall j :: 0 <= j < i ==> ItemError(parts[j], lo, hi, names).None?
  {
    hide ItemError;
    if ItemError(parts[0], lo, hi, names).Some? {
      i := 0;
    } else {
      var k := FirstErrorIsFirst(parts[1..], lo, hi, names);
      i := k + 1;
      assert forall j :: 1 <= j <= k + 1 ==> parts[j] == parts[1..][j - 1];
    }
  }

  /** The error is that of item i, and the items before it are well written. */
  ghost predicate RefusedAt(parts: seq<string>, i: nat, lo: int, hi: int, names: map<string, int>, e: Error) {
    && i < |parts| && Refused(parts[i], lo, hi, names, e) && !WellWritten(parts[i], lo, hi, names)
    && forall j :: 0 <= j < i ==> WellWritten(parts[j], lo, hi, names)
  }

  /** A refused field reports what is wrong with the first item that is not well written. */
  lemma FieldRefusal(field: string, lo: int, hi: int, names: map<string, int>)
    requires FieldRange(lo, hi) && NameTable(names, lo, hi) && FieldMeaning(field, lo, hi, names).Err?
    ensures exists i: nat :: RefusedAt(Split(field, ','), i, lo, hi, names, FieldMeaning(field, lo, hi, names).error)
  {
    hide ItemError, Refused, WellWritten, Split, NameTable;
    var parts := Split(field, ',');
    var i := FirstErrorIsFirst(parts, lo, hi, names);
    ItemRefusal(parts[i], lo, hi, names);
    forall part
      ensures ItemError(part, lo, hi, names).None? <==> WellWritten(part, lo, hi, names)
    {
      ErrorIffMiswritten(part, lo, hi, names);
    }
    assert RefusedAt(parts, i, lo, hi, names, FieldMeaning(field, lo, hi, names).error);
  }

  ghost predicate WellWrittenAt(fields: seq<string>, k: nat)
    requires k < 5 == |fields|
  {
    WellWrittenField(fields[k], FieldAt(k).0, FieldAt(k).1, FieldAt(k).2)
  }

  ghost predicate FieldRefusedAt(fields: seq<string>, k: nat, i: nat, e: Error)
    requires k < 5 == |fields|
  {
    RefusedAt(Split(fields[k], ','), i, FieldAt(k).0, FieldAt(k).1, FieldAt(k).2, e)
  }

  /** What Parse reports for a text that is no interval: that it is empty, that it has not five fields, or the
      first field that is not well written and what is wrong with the first such item of it. */
  lemma ErrorNamesFirstBadField(expr: string)
    requires Meaning(expr).Err? && !IsInterval(Expand(TrimSpace(expr)))
    ensures var fields := Fields(Expand(TrimSpace(expr))); var e := Meaning(expr).error;
      if TrimSpace(expr) == "" then e == EmptyExpression
      else if |fields| != 5 then e == FieldCount
      else
        && e.InField? && e.index < 5
        && (forall k: nat :: k < e.index ==> WellWrittenAt(fields, k))
        && exists i: nat :: FieldRefusedAt(fields, e.index, i, e.error)
  {
    hide FieldMeaning, WellWrittenField, RefusedAt, TrimSpace, Expand, NAME_MONTHS, NAME_WEEKDAYS, NameTable, EveryAt, EveryParts, Fields, Split;
    var e := Expand(TrimSpace(expr));
    if EveryParts(e).Some? {
      var i, j := EveryIsWritten(e);
      assert false;
    } else {
      var fields := Fields(e);
      if TrimSpace(expr) != "" && |fields| == 5 {
        FieldsRefused(fields);
      }
    }
  }

  lemma FieldsRefused(fields: seq<string>)
    requires |fields| == 5 && FieldsMeaning(fields).Err?
    ensures var e := FieldsMeaning(fields).error;
      && e.InField? && e.index < 5
      && (forall k: nat :: k < e.index ==> WellWrittenAt(fields, k))
      && exists i: nat :: FieldRefusedAt(fields, e.index, i, e.error)
  {
    hide FieldMeaning, WellWritten, RefusedAt, NAME_MONTHS, NAME_WEEKDAYS, NameTable, Split;
    NameTables();
    var last := FieldsMeaning(fields).error.index;
    forall k: nat | k < 5
      ensures var f := FieldAt(k); FieldRange(f.0, f.1) && NameTable(f.2, f.0, f.1)
    {
    }
    forall k: nat | k < last
      ensures WellWrittenAt(fields, k)
    {
      RejectsIffBadItem(fields[k], FieldAt(k).0, FieldAt(k).1, FieldAt(k).2);
    }
    FieldRefusal(fields[last], FieldAt(last).0, FieldAt(last).1, FieldAt(last).2);
    var i: nat :| RefusedAt(Split(fields[last], ','), i, FieldAt(last).0, FieldAt(last).1, FieldAt(last).2,
                            FieldMeaning(fields[last], FieldAt(last).0, FieldAt(last).1, FieldAt(last).2).error);
    assert FieldRefusedAt(fields, last, i, FieldsMeaning(fields).error.error);
  }
}
