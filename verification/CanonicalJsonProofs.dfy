/** The printer is invertible up to key order, and prints alike exactly what means alike. */
module CanonicalJsonProofs {
  import opened Common
  import opened Text
  import opened CanonicalJson

  // ------------------------------------------------------------------ strings

  lemma HexRoundTrip(d: int)
    requires 0 <= d < 16
    ensures HexValue(HexDigit(d)) == Some(d)
  {
  }

  lemma Hex4RoundTrip(u: CodeUnit)
    ensures ParseHex4(Hex4(u)) == Some(u)
  {
    hide HexDigit, HexValue;
    HexRoundTrip(u / 4096);
    HexRoundTrip(u / 256 % 16);
    HexRoundTrip(u / 16 % 16);
    HexRoundTrip(u % 16);
    assert u / 16 == (u / 256) * 16 + u / 16 % 16 && u / 256 == (u / 4096) * 16 + u / 256 % 16;
  }

  lemma ShortEscapeRoundTrip(u: CodeUnit)
    ensures ShortEscape(u).Some? ==> Unescape(ShortEscape(u).value) == Some(u) && ShortEscape(u).value != LOWER_U
    ensures Unescape(LOWER_U).None?
  {
  }

  /** Reading one escaped unit gives it back. */
  lemma UnitRoundTrip(u: CodeUnit, more: Utf16)
    ensures ParseChars(EscapeUnit(u) + more) == Prepend(u, ParseChars(more))
  {
    hide Hex4, ParseHex4, Unescape, ShortEscape;
    ShortEscapeRoundTrip(u);
    var t := EscapeUnit(u) + more;
    match ShortEscape(u)
    case Some(letter) =>
      assert t[0] == BACKSLASH && t[1] == letter && t[2..] == more;
    case None =>
      QuotesAreShort(u);
      if u < 32 || High(u) || Low(u) {
        Hex4RoundTrip(u);
        assert |Hex4(u)| == 4 by { HexLength(u); }
        assert t == [BACKSLASH, LOWER_U] + Hex4(u) + more;
        assert t[0] == BACKSLASH && t[1] == LOWER_U && t[2..6] == Hex4(u) && t[6..] == more;
      } else {
        assert t[0] == u && t[1..] == more;
      }
  }

  lemma HexLength(u: CodeUnit)
    ensures |Hex4(u)| == 4
  {
  }

  lemma QuotesAreShort(u: CodeUnit)
    ensures ShortEscape(u).None? ==> u != QUOTE && u != BACKSLASH
  {
  }

  /** A raw unit other than a quote or a backslash stands for itself. */
  lemma RawUnit(u: CodeUnit, more: Utf16)
    requires u != QUOTE && u != BACKSLASH
    ensures ParseChars([u] + more) == Prepend(u, ParseChars(more))
  {
    assert ([u] + more)[1..] == more;
  }

  lemma EndOfString(rest: Utf16)
    ensures ParseChars([QUOTE] + rest) == Some(([], rest))
  {
    assert ([QUOTE] + rest)[1..] == rest;
  }

  lemma Regroup(a: Utf16, b: Utf16, c: Utf16)
    ensures (a + b) + c == a + (b + c)
  {
  }

  lemma Pair(a: CodeUnit, b: CodeUnit, more: Utf16)
    ensures [a, b] + more == [a] + ([b] + more)
  {
  }

  predicate Paired(s: Utf16) {
    |s| > 1 && High(s[0]) && Low(s[1])
  }

  lemma EscapePair(s: Utf16)
    requires Paired(s)
    ensures Escape(s) == [s[0], s[1]] + Escape(s[2..])
  {
    assert s[..2] == [s[0], s[1]];
  }

  lemma EscapeOne(s: Utf16)
    requires |s| > 0 && !Paired(s)
    ensures Escape(s) == EscapeUnit(s[0]) + Escape(s[1..])
  {
    hide EscapeUnit;
  }

  /** How an escaped text starts, before an arbitrary continuation. */
  lemma EscapeStep(s: Utf16, more: Utf16)
    requires |s| > 0
    ensures if Paired(s) then Escape(s) + more == [s[0]] + ([s[1]] + (Escape(s[2..]) + more))
            else Escape(s) + more == EscapeUnit(s[0]) + (Escape(s[1..]) + more)
  {
    hide Escape, EscapeUnit, High, Low;
    if Paired(s) {
      EscapePair(s);
      Regroup([s[0], s[1]], Escape(s[2..]), more);
      Pair(s[0], s[1], Escape(s[2..]) + more);
    } else {
      EscapeOne(s);
      Regroup(EscapeUnit(s[0]), Escape(s[1..]), more);
    }
  }

  lemma {:induction false} StringRoundTrip(s: Utf16, rest: Utf16)
    ensures ParseChars(Escape(s) + ([QUOTE] + rest)) == Some((s, rest))
    decreases |s|
  {
    hide EscapeUnit, ParseChars;
    if |s| == 0 {
      EndOfString(rest);
      assert Escape(s) + ([QUOTE] + rest) == [QUOTE] + rest;
    } else {
      EscapeStep(s, [QUOTE] + rest);
      hide Escape;
      if Paired(s) {
        var more := Escape(s[2..]) + ([QUOTE] + rest);
        StringRoundTrip(s[2..], rest);
        RawUnit(s[1], more);
        RawUnit(s[0], [s[1]] + more);
        assert s == [s[0]] + ([s[1]] + s[2..]);
      } else {
        StringRoundTrip(s[1..], rest);
        UnitRoundTrip(s[0], Escape(s[1..]) + ([QUOTE] + rest));
        assert s == [s[0]] + s[1..];
      }
    }
  }

  // ------------------------------------------------------------------ numbers

  predicate NoDigitFirst(t: Utf16) {
    |t| > 0 ==> !IsDigit(t[0])
  }

  lemma {:induction false} RunOfDigits(ds: Utf16, rest: Utf16)
    requires (forall i :: 0 <= i < |ds| ==> IsDigit(ds[i])) && NoDigitFirst(rest)
    ensures DigitRun(ds + rest) == |ds|
    decreases |ds|
  {
    if |ds| == 0 {
      assert ds + rest == rest;
    } else {
      assert (ds + rest)[1..] == ds[1..] + rest;
      RunOfDigits(ds[1..], rest);
    }
  }

  lemma {:induction false} DigitsMeaning(n: nat)
    ensures DigitsValue(Digits(n)) == n && |Digits(n)| > 0
    ensures forall i :: 0 <= i < |Digits(n)| ==> IsDigit(Digits(n)[i])
  {
    if n >= 10 {
      DigitsMeaning(n / 10);
      var ds := Digits(n);
      assert ds[..|ds| - 1] == Digits(n / 10);
    } else {
      assert Digits(n)[..0] == [];
    }
  }

  lemma NatRoundTrip(n: nat, rest: Utf16)
    requires NoDigitFirst(rest)
    ensures ParseNat(Digits(n) + rest) == Some((n, rest))
  {
    hide Digits, DigitsValue, DigitRun;
    DigitsMeaning(n);
    RunOfDigits(Digits(n), rest);
    assert (Digits(n) + rest)[..|Digits(n)|] == Digits(n) && (Digits(n) + rest)[|Digits(n)|..] == rest;
  }

  // ------------------------------------------------------------- whole values

  /** The printer without the sorting. */
  function Raw(v: Json): Utf16 {
    match v
    case Null => NULL_TEXT
    case Bool(b) => if b then TRUE_TEXT else FALSE_TEXT
    case Num(n) => PrintNumber(n)
    case Str(s) => Quote(s)
    case Arr(items) => [OPEN_LIST] + RawItems(items) + [CLOSE_LIST]
    case Obj(fields) => [OPEN_OBJECT] + RawFields(fields) + [CLOSE_OBJECT]
  }

  function RawItems(items: Items): Utf16 {
    match items
    case NoItems => []
    case Item(head, NoItems) => Raw(head)
    case Item(head, tail) => Raw(head) + [COMMA] + RawItems(tail)
  }

  function RawFields(fields: Fields): Utf16 {
    match fields
    case NoFields => []
    case Field(key, value, NoFields) => Quote(key) + [COLON] + Raw(value)
    case Field(key, value, rest) => Quote(key) + [COLON] + Raw(value) + [COMMA] + RawFields(rest)
  }

  /** What may follow a value: nothing, or a separator. */
  predicate Ends(t: Utf16) {
    |t| > 0 ==> t[0] == COMMA || t[0] == CLOSE_LIST || t[0] == CLOSE_OBJECT
  }

  /** The first unit of a printed value tells which kind it is. */
  lemma FirstUnit(v: Json)
    ensures |Raw(v)| > 0
    ensures match v
            case Null => Raw(v)[0] == 'n' as int
            case Bool(b) => Raw(v)[0] == if b then 't' as int else 'f' as int
            case Num(n) => if n < 0 then Raw(v)[0] == MINUS else IsDigit(Raw(v)[0])
            case Str(_) => Raw(v)[0] == QUOTE
            case Arr(_) => Raw(v)[0] == OPEN_LIST
            case Obj(_) => Raw(v)[0] == OPEN_OBJECT
  {
    if v.Num? && v.n >= 0 {
      DigitsMeaning(v.n);
    }
  }

  lemma NumberRoundTrip(n: int, rest: Utf16)
    requires Ends(rest)
    ensures ParseValue(PrintNumber(n) + rest) == Some((Num(n), rest))
  {
    hide ParseNat, Digits;
    var t := PrintNumber(n) + rest;
    if n < 0 {
      NatRoundTrip(-n, rest);
      assert t[1..] == Digits(-n) + rest && t[0] == MINUS;
    } else {
      DigitsMeaning(n);
      NatRoundTrip(n, rest);
      assert t[0] == Digits(n)[0];
    }
  }

  lemma QuotedRoundTrip(s: Utf16, rest: Utf16)
    ensures (Quote(s) + rest)[0] == QUOTE
    ensures ParseChars((Quote(s) + rest)[1..]) == Some((s, rest))
  {
    hide Escape, ParseChars;
    StringRoundTrip(s, rest);
    assert (Quote(s) + rest)[1..] == Escape(s) + ([QUOTE] + rest);
  }

  lemma {:induction false} ValueRoundTrip(v: Json, rest: Utf16)
    requires Ends(rest)
    ensures ParseValue(Raw(v) + rest) == Some((v, rest))
    decreases v, 1
  {
    var t := Raw(v) + rest;
    match v
    case Null => assert t[..4] == NULL_TEXT && t[4..] == rest;
    case Bool(b) =>
      if b {
        assert t[0] == 't' as int && t[..4] == TRUE_TEXT && t[4..] == rest;
      } else {
        assert t[0] == 'f' as int && t[..5] == FALSE_TEXT && t[5..] == rest;
      }
    case Num(n) => NumberRoundTrip(n, rest);
    case Str(s) => QuotedRoundTrip(s, rest);
    case Arr(items) => ListRoundTrip(items, rest);
    case Obj(fields) => ObjectRoundTrip(fields, rest);
  }

  lemma {:induction false} ListRoundTrip(items: Items, rest: Utf16)
    requires Ends(rest)
    ensures ParseValue(Raw(Arr(items)) + rest) == Some((Arr(items), rest))
    decreases items, 3
  {
    hide ParseItems, ParseValue;
    if items == NoItems {
      EmptyListRoundTrip(rest);
    } else {
      ItemsRoundTrip(items, rest);
      FirstUnit(items.head);
      assert RawItems(items)[0] == Raw(items.head)[0];
      OpenList(RawItems(items) + [CLOSE_LIST] + rest);
      assert Raw(Arr(items)) + rest == [OPEN_LIST] + (RawItems(items) + [CLOSE_LIST] + rest);
    }
  }

  lemma EmptyListRoundTrip(rest: Utf16)
    ensures ParseValue(Raw(Arr(NoItems)) + rest) == Some((Arr(NoItems), rest))
  {
    var t := Raw(Arr(NoItems)) + rest;
    assert t == [OPEN_LIST, CLOSE_LIST] + rest;
    assert t[2..] == rest;
  }

  /** After an opening bracket that is not closed at once, items are read. */
  lemma OpenList(more: Utf16)
    requires |more| > 0 && more[0] != CLOSE_LIST && ParseItems(more).Some?
    ensures ParseValue([OPEN_LIST] + more) == Some((Arr(ParseItems(more).value.0), ParseItems(more).value.1))
  {
    hide ParseItems, ParseFields, ParseChars, ParseNat;
    var t := [OPEN_LIST] + more;
    assert t[1..] == more && t[0] == OPEN_LIST && t[1] == more[0];
    assert !(NULL_TEXT <= t) && !(TRUE_TEXT <= t) && !(FALSE_TEXT <= t) by {
      assert NULL_TEXT[0] != t[0] && TRUE_TEXT[0] != t[0] && FALSE_TEXT[0] != t[0];
    }
  }

  lemma {:induction false} ItemsRoundTrip(items: Items, rest: Utf16)
    requires items.Item?
    ensures ParseItems(RawItems(items) + [CLOSE_LIST] + rest) == Some((items, rest))
    decreases items, 2
  {
    hide ParseValue;
    var t := RawItems(items) + [CLOSE_LIST] + rest;
    if items.tail == NoItems {
      var after := [CLOSE_LIST] + rest;
      ValueRoundTrip(items.head, after);
      assert t == Raw(items.head) + after;
      assert after[1..] == rest;
    } else {
      var after := [COMMA] + (RawItems(items.tail) + [CLOSE_LIST] + rest);
      ValueRoundTrip(items.head, after);
      assert t == Raw(items.head) + after;
      assert after[1..] == RawItems(items.tail) + [CLOSE_LIST] + rest;
      ItemsRoundTrip(items.tail, rest);
    }
  }

  lemma {:induction false} ObjectRoundTrip(fields: Fields, rest: Utf16)
    requires Ends(rest)
    ensures ParseValue(Raw(Obj(fields)) + rest) == Some((Obj(fields), rest))
    decreases fields, 3
  {
    hide ParseFields, ParseValue, Escape;
    if fields == NoFields {
      EmptyObjectRoundTrip(rest);
    } else {
      FieldsRoundTrip(fields, rest);
      assert RawFields(fields)[0] == QUOTE;
      OpenObject(RawFields(fields) + [CLOSE_OBJECT] + rest);
      assert Raw(Obj(fields)) + rest == [OPEN_OBJECT] + (RawFields(fields) + [CLOSE_OBJECT] + rest);
    }
  }

  lemma EmptyObjectRoundTrip(rest: Utf16)
    ensures ParseValue(Raw(Obj(NoFields)) + rest) == Some((Obj(NoFields), rest))
  {
    var t := Raw(Obj(NoFields)) + rest;
    assert t == [OPEN_OBJECT, CLOSE_OBJECT] + rest;
    assert t[2..] == rest;
  }

  /** After an opening brace that is not closed at once, fields are read. */
  lemma OpenObject(more: Utf16)
    requires |more| > 0 && more[0] != CLOSE_OBJECT && ParseFields(more).Some?
    ensures ParseValue([OPEN_OBJECT] + more) == Some((Obj(ParseFields(more).value.0), ParseFields(more).value.1))
  {
    hide ParseItems, ParseFields, ParseChars, ParseNat;
    var t := [OPEN_OBJECT] + more;
    assert t[1..] == more && t[0] == OPEN_OBJECT && t[1] == more[0];
    assert !(NULL_TEXT <= t) && !(TRUE_TEXT <= t) && !(FALSE_TEXT <= t) by {
      assert NULL_TEXT[0] != t[0] && TRUE_TEXT[0] != t[0] && FALSE_TEXT[0] != t[0];
    }
  }

  lemma {:induction false} FieldsRoundTrip(fields: Fields, rest: Utf16)
    requires fields.Field?
    ensures ParseFields(RawFields(fields) + [CLOSE_OBJECT] + rest) == Some((fields, rest))
    decreases fields, 2
  {
    hide ParseValue, ParseChars, Quote;
    var t := RawFields(fields) + [CLOSE_OBJECT] + rest;
    var after := if fields.rest == NoFields then [CLOSE_OBJECT] + rest
                 else [COMMA] + (RawFields(fields.rest) + [CLOSE_OBJECT] + rest);
    assert t == Quote(fields.key) + ([COLON] + (Raw(fields.value) + after));
    QuotedRoundTrip(fields.key, [COLON] + (Raw(fields.value) + after));
    assert ([COLON] + (Raw(fields.value) + after))[1..] == Raw(fields.value) + after;
    ValueRoundTrip(fields.value, after);
    if fields.rest == NoFields {
      assert after[1..] == rest;
    } else {
      assert after[1..] == RawFields(fields.rest) + [CLOSE_OBJECT] + rest;
      FieldsRoundTrip(fields.rest, rest);
    }
  }

  // -------------------------------------------------------------- sorted by key

  /** The same value with its keys sorted at every depth. */
  function Canon(v: Json): Json
    decreases Size(v)
  {
    match v
    case Arr(items) => Arr(CanonItems(items))
    case Obj(fields) => Obj(CanonFields(SortFields(fields)))
    case _ => v
  }

  function CanonItems(items: Items): Items
    decreases ItemsSize(items)
  {
    match items
    case NoItems => NoItems
    case Item(head, tail) => Item(Canon(head), CanonItems(tail))
  }

  function CanonFields(fields: Fields): Fields
    decreases FieldsSize(fields)
  {
    match fields
    case NoFields => NoFields
    case Field(key, value, rest) => Field(key, Canon(value), CanonFields(rest))
  }

  lemma {:induction false} PrintIsRaw(v: Json)
    ensures Print(v) == Raw(Canon(v))
    decreases Size(v)
  {
    hide Quote;
    match v
    case Arr(items) => PrintItemsIsRaw(items);
    case Obj(fields) => PrintFieldsIsRaw(SortFields(fields));
    case _ =>
  }

  lemma {:induction false} PrintItemsIsRaw(items: Items)
    ensures PrintItems(items) == RawItems(CanonItems(items))
    decreases ItemsSize(items)
  {
    if items.Item? {
      PrintIsRaw(items.head);
      PrintItemsIsRaw(items.tail);
    }
  }

  lemma {:induction false} PrintFieldsIsRaw(fields: Fields)
    ensures PrintFields(fields) == RawFields(CanonFields(fields))
    decreases FieldsSize(fields)
  {
    hide Quote;
    if fields.Field? {
      PrintIsRaw(fields.value);
      PrintFieldsIsRaw(fields.rest);
    }
  }

  /** Parsing what was printed gives the value back with its keys sorted at every depth. */
  lemma ParsePrint(v: Json)
    ensures Parse(Print(v)) == Some(Canon(v))
  {
    hide Raw, Canon, ParseValue, Print;
    PrintIsRaw(v);
    ValueRoundTrip(Canon(v), []);
    assert Raw(Canon(v)) + [] == Raw(Canon(v));
  }

  /** So two values print alike exactly when their sorted forms are equal. */
  lemma PrintInjective(v: Json, w: Json)
    ensures Print(v) == Print(w) <==> Canon(v) == Canon(w)
  {
    PrintIsRaw(v);
    PrintIsRaw(w);
    ParsePrint(v);
    ParsePrint(w);
  }

  // ------------------------------------------------------------------- meaning

  /** What a JSON value is, with an object as the map of its members. */
  datatype Value =
    | NullValue | BoolValue(b: bool) | NumValue(n: int) | StrValue(s: Utf16)
    | ListValue(items: Values) | MapValue(members: map<Utf16, Value>)
  datatype Values = NoValues | AddValue(head: Value, tail: Values)

  function Meaning(v: Json): Value {
    match v
    case Null => NullValue
    case Bool(b) => BoolValue(b)
    case Num(n) => NumValue(n)
    case Str(s) => StrValue(s)
    case Arr(items) => ListValue(ItemsMeaning(items))
    case Obj(fields) => MapValue(FieldsMeaning(fields))
  }

  function ItemsMeaning(items: Items): Values {
    match items
    case NoItems => NoValues
    case Item(head, tail) => AddValue(Meaning(head), ItemsMeaning(tail))
  }

  function FieldsMeaning(fields: Fields): map<Utf16, Value> {
    match fields
    case NoFields => map[]
    case Field(key, value, rest) => FieldsMeaning(rest)[key := Meaning(value)]
  }

  function Keys(fields: Fields): set<Utf16> {
    match fields
    case NoFields => {}
    case Field(key, _, rest) => {key} + Keys(rest)
  }

  /** A JavaScript object has each key once. */
  predicate WellFormed(v: Json) {
    match v
    case Arr(items) => WellFormedItems(items)
    case Obj(fields) => WellFormedFields(fields)
    case _ => true
  }

  predicate WellFormedItems(items: Items) {
    match items
    case NoItems => true
    case Item(head, tail) => WellFormed(head) && WellFormedItems(tail)
  }

  predicate WellFormedFields(fields: Fields) {
    match fields
    case NoFields => true
    case Field(key, value, rest) => WellFormed(value) && key !in Keys(rest) && WellFormedFields(rest)
  }

  /** Keys rise from each member to the next. */
  predicate KeysRise(fields: Fields) {
    match fields
    case NoFields => true
    case Field(key, _, rest) => (rest.Field? ==> LeqUnits(key, rest.key)) && KeysRise(rest)
  }

  lemma {:induction false} InsertKeys(key: Utf16, value: Json, fields: Fields)
    requires WellFormed(value) && WellFormedFields(fields) && key !in Keys(fields)
    ensures var r := InsertField(key, value, fields); Keys(r) == Keys(fields) + {key} && WellFormedFields(r)
    ensures FieldsMeaning(InsertField(key, value, fields)) == FieldsMeaning(fields)[key := Meaning(value)]
    decreases fields
  {
    hide WellFormed, Meaning, LeqUnits;
    if fields.Field? && !LeqUnits(key, fields.key) {
      InsertKeys(key, value, fields.rest);
    }
  }

  lemma {:induction false} InsertRises(key: Utf16, value: Json, fields: Fields)
    requires KeysRise(fields)
    ensures KeysRise(InsertField(key, value, fields))
    decreases fields
  {
    hide LeqUnits;
    if fields.Field? {
      UnitsTotal(key, fields.key);
      if !LeqUnits(key, fields.key) {
        InsertRises(key, value, fields.rest);
      }
    }
  }

  lemma {:induction false} SortMeaning(fields: Fields)
    requires WellFormedFields(fields)
    ensures var r := SortFields(fields);
            Keys(r) == Keys(fields) && WellFormedFields(r) && KeysRise(r) && FieldsMeaning(r) == FieldsMeaning(fields)
    decreases fields
  {
    if fields.Field? {
      SortMeaning(fields.rest);
      InsertKeys(fields.key, fields.value, SortFields(fields.rest));
      InsertRises(fields.key, fields.value, SortFields(fields.rest));
    }
  }

  /** Sorted at every depth. */
  predicate SortedDeep(v: Json) {
    match v
    case Arr(items) => SortedItems(items)
    case Obj(fields) => KeysRise(fields) && SortedFields(fields)
    case _ => true
  }

  predicate SortedItems(items: Items) {
    match items
    case NoItems => true
    case Item(head, tail) => SortedDeep(head) && SortedItems(tail)
  }

  predicate SortedFields(fields: Fields) {
    match fields
    case NoFields => true
    case Field(_, value, rest) => SortedDeep(value) && SortedFields(rest)
  }

  /** Sorting keys keeps the meaning, and sorts at every depth. */
  lemma {:induction false} CanonMeaning(v: Json)
    requires WellFormed(v)
    ensures Meaning(Canon(v)) == Meaning(v) && SortedDeep(Canon(v)) && WellFormed(Canon(v))
    decreases Size(v)
  {
    match v
    case Arr(items) => CanonItemsMeaning(items);
    case Obj(fields) =>
      SortMeaning(fields);
      CanonFieldsMeaning(SortFields(fields));
    case _ =>
  }

  lemma {:induction false} CanonItemsMeaning(items: Items)
    requires WellFormedItems(items)
    ensures ItemsMeaning(CanonItems(items)) == ItemsMeaning(items)
    ensures SortedItems(CanonItems(items)) && WellFormedItems(CanonItems(items))
    decreases ItemsSize(items)
  {
    if items.Item? {
      CanonMeaning(items.head);
      CanonItemsMeaning(items.tail);
    }
  }

  lemma {:induction false} CanonFieldsMeaning(fields: Fields)
    requires WellFormedFields(fields) && KeysRise(fields)
    ensures var r := CanonFields(fields);
            && FieldsMeaning(r) == FieldsMeaning(fields) && SortedFields(r) && KeysRise(r)
            && WellFormedFields(r) && Keys(r) == Keys(fields)
    decreases FieldsSize(fields)
  {
    if fields.Field? {
      CanonMeaning(fields.value);
      CanonFieldsMeaning(fields.rest);
    }
  }

  lemma {:induction false} MeaningKeys(fields: Fields)
    ensures FieldsMeaning(fields).Keys == Keys(fields)
    decreases fields
  {
    if fields.Field? {
      MeaningKeys(fields.rest);
    }
  }

  lemma {:induction false} FirstKeyLeast(fields: Fields, k: Utf16)
    requires fields.Field? && KeysRise(fields) && k in Keys(fields)
    ensures LeqUnits(fields.key, k)
    decreases fields
  {
    if k == fields.key {
      UnitsTotal(k, k);
    } else {
      FirstKeyLeast(fields.rest, k);
      UnitsTransitive(fields.key, fields.rest.key, k);
    }
  }

  /** Sorted values that mean the same are the same. */
  lemma {:induction false} SortedUniqueValue(v: Json, w: Json)
    requires WellFormed(v) && WellFormed(w) && SortedDeep(v) && SortedDeep(w) && Meaning(v) == Meaning(w)
    ensures v == w
    decreases v
  {
    match v
    case Arr(items) => SortedUniqueItems(items, w.items);
    case Obj(fields) => SortedUniqueFields(fields, w.fields);
    case _ =>
  }

  lemma {:induction false} SortedUniqueItems(xs: Items, ys: Items)
    requires WellFormedItems(xs) && WellFormedItems(ys) && SortedItems(xs) && SortedItems(ys)
    requires ItemsMeaning(xs) == ItemsMeaning(ys)
    ensures xs == ys
    decreases xs
  {
    if xs.Item? {
      SortedUniqueValue(xs.head, ys.head);
      SortedUniqueItems(xs.tail, ys.tail);
    }
  }

  lemma SameFirstKey(xs: Fields, ys: Fields)
    requires xs.Field? && ys.Field? && KeysRise(xs) && KeysRise(ys) && Keys(xs) == Keys(ys)
    ensures xs.key == ys.key
  {
    FirstKeyLeast(xs, ys.key);
    FirstKeyLeast(ys, xs.key);
    UnitsAntisymmetric(xs.key, ys.key);
  }

  lemma {:induction false} SortedUniqueFields(xs: Fields, ys: Fields)
    requires WellFormedFields(xs) && WellFormedFields(ys) && SortedFields(xs) && SortedFields(ys)
    requires KeysRise(xs) && KeysRise(ys) && FieldsMeaning(xs) == FieldsMeaning(ys)
    ensures xs == ys
    decreases xs
  {
    MeaningKeys(xs);
    MeaningKeys(ys);
    if xs.Field? {
      assert xs.key in Keys(ys);
      SameFirstKey(xs, ys);
      assert FieldsMeaning(xs)[xs.key] == Meaning(xs.value) && FieldsMeaning(ys)[xs.key] == Meaning(ys.value);
      SortedUniqueValue(xs.value, ys.value);
      MeaningKeys(xs.rest);
      MeaningKeys(ys.rest);
      assert FieldsMeaning(xs.rest) == FieldsMeaning(xs) - {xs.key};
      assert FieldsMeaning(ys.rest) == FieldsMeaning(ys) - {xs.key};
      SortedUniqueFields(xs.rest, ys.rest);
    }
  }

  /** Two values print alike exactly when they mean the same: they differ in key order at most. */
  lemma PrintsAlikeIffMeansAlike(v: Json, w: Json)
    requires WellFormed(v) && WellFormed(w)
    ensures Print(v) == Print(w) <==> Meaning(v) == Meaning(w)
  {
    hide Print, Canon, Meaning, SortedDeep, WellFormed;
    PrintInjective(v, w);
    CanonMeaning(v);
    CanonMeaning(w);
    if Meaning(v) == Meaning(w) {
      SortedUniqueValue(Canon(v), Canon(w));
    }
  }

  /** What the parser gets back means what was printed, with its keys sorted at every depth. */
  lemma PrintRoundTrip(v: Json)
    requires WellFormed(v)
    ensures Parse(Print(v)).Some?
    ensures Meaning(Parse(Print(v)).value) == Meaning(v) && SortedDeep(Parse(Print(v)).value)
  {
    hide Print, Canon, Meaning, SortedDeep, WellFormed, Parse;
    ParsePrint(v);
    CanonMeaning(v);
  }

  // ------------------------------------------------------------- the text, unit by unit

  /** The unit of a hexadecimal digit. */
  function HexUnit(d: int): int
    requires 0 <= d < 16
  {
    if d < 10 then 48 + d else 87 + d
  }

  /** A unit that is not half of a pair, as JSON.stringify quotes it. */
  function SpelledUnit(u: int): seq<int>
    requires 0 <= u < 0x1_0000
  {
    if u == 34 then [92, 34]
    else if u == 92 then [92, 92]
    else if u == 8 then [92, 98]
    else if u == 9 then [92, 116]
    else if u == 10 then [92, 110]
    else if u == 12 then [92, 102]
    else if u == 13 then [92, 114]
    else if u < 32 || 0xD800 <= u <= 0xDFFF then
      [92, 117, HexUnit(u / 4096), HexUnit(u / 256 % 16), HexUnit(u / 16 % 16), HexUnit(u % 16)]
    else [u]
  }

  function Spelled(s: Utf16): seq<int> {
    if |s| == 0 then []
    else if |s| > 1 && 0xD800 <= s[0] <= 0xDBFF && 0xDC00 <= s[1] <= 0xDFFF then [s[0], s[1]] + Spelled(s[2..])
    else SpelledUnit(s[0]) + Spelled(s[1..])
  }

  lemma UnitSpelled(u: CodeUnit)
    ensures EscapeUnit(u) == SpelledUnit(u)
  {
    forall d | 0 <= d < 16 ensures HexDigit(d) == HexUnit(d) {
    }
    hide HexDigit, HexUnit;
  }

  lemma {:induction false} EscapeSpelled(s: Utf16)
    ensures Escape(s) == Spelled(s)
  {
    hide EscapeUnit, SpelledUnit;
    if |s| == 0 {
    } else if |s| > 1 && High(s[0]) && Low(s[1]) {
      assert s[..2] == [s[0], s[1]];
      EscapeSpelled(s[2..]);
    } else {
      UnitSpelled(s[0]);
      EscapeSpelled(s[1..]);
    }
  }

  /** Parts with commas between them. */
  function Joined(parts: seq<seq<int>>): seq<int> {
    if |parts| == 0 then [] else if |parts| == 1 then parts[0] else parts[0] + [44] + Joined(parts[1..])
  }

  function ItemTexts(items: Items): seq<seq<int>> {
    match items
    case NoItems => []
    case Item(head, tail) => [Print(head)] + ItemTexts(tail)
  }

  function MemberText(key: Utf16, value: Json): seq<int> {
    [34] + Spelled(key) + [34, 58] + Print(value)
  }

  function MemberTexts(fields: Fields): seq<seq<int>> {
    match fields
    case NoFields => []
    case Field(key, value, rest) => [MemberText(key, value)] + MemberTexts(rest)
  }

  lemma {:induction false} ItemsJoined(items: Items)
    ensures PrintItems(items) == Joined(ItemTexts(items))
    decreases items
  {
    if items.Item? {
      ItemsJoined(items.tail);
      assert ItemTexts(items)[1..] == ItemTexts(items.tail);
    }
  }

  lemma MemberSpelled(key: Utf16, value: Json)
    ensures PrintField(key, value) == MemberText(key, value)
  {
    hide Escape, Spelled, Print;
    EscapeSpelled(key);
    var t := Print(value);
    assert [34] + Spelled(key) + [34] + [58] + t == [34] + Spelled(key) + [34, 58] + t;
  }

  lemma {:induction false} MembersJoined(fields: Fields)
    ensures PrintFields(fields) == Joined(MemberTexts(fields))
    decreases fields
  {
    hide PrintField, MemberText, Print;
    if fields.Field? {
      MembersJoined(fields.rest);
      MemberSpelled(fields.key, fields.value);
      assert MemberTexts(fields)[1..] == MemberTexts(fields.rest);
    }
  }

  /** What is printed for each kind of value, in code units. */
  lemma PrintedText(v: Json)
    ensures match v
            case Null => Print(v) == [110, 117, 108, 108]
            case Bool(b) => Print(v) == if b then [116, 114, 117, 101] else [102, 97, 108, 115, 101]
            case Num(n) =>
              if n < 0 then Print(v) == [45] + Print(Num(-n))
              else if n < 10 then Print(v) == [48 + n]
              else Print(v) == Print(Num(n / 10)) + [48 + n % 10]
            case Str(s) => Print(v) == [34] + Spelled(s) + [34]
            case Arr(items) => Print(v) == [91] + Joined(ItemTexts(items)) + [93]
            case Obj(_) => true
  {
    hide Escape, Spelled, PrintItems, PrintFields, ItemTexts, Joined;
    match v
    case Str(s) => EscapeSpelled(s);
    case Arr(items) => ItemsJoined(items);
    case _ =>
  }

  /** An object prints its members between braces, by rising keys. */
  lemma PrintedObject(fields: Fields) returns (sorted: Fields)
    requires WellFormedFields(fields)
    ensures Print(Obj(fields)) == [123] + Joined(MemberTexts(sorted)) + [125]
    ensures KeysRise(sorted) && WellFormedFields(sorted) && FieldsMeaning(sorted) == FieldsMeaning(fields)
  {
    hide WellFormedFields, FieldsMeaning, KeysRise, MemberTexts, Joined, PrintFields;
    sorted := SortFields(fields);
    SortMeaning(fields);
    MembersJoined(sorted);
  }
}
