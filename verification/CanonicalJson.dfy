/**
 The canonical JSON printer behind GitHub fingerprints (packages/github/src/hash.ts), and a
 parser that undoes it. Text is UTF-16 code units; numbers are integers.
 */
module CanonicalJson {
  import opened Common
  import opened Text

  type CodeUnit = u: int | 0 <= u < 0x1_0000 witness 0
  type Utf16 = seq<CodeUnit>

  datatype Json =
    | Null
    | Bool(value: bool)
    | Num(n: int)
    | Str(text: Utf16)
    | Arr(items: Items)
    | Obj(fields: Fields)
  datatype Items = NoItems | Item(head: Json, tail: Items)
  datatype Fields = NoFields | Field(key: Utf16, value: Json, rest: Fields)

  // ------------------------------------------------------------------- characters

  const QUOTE: CodeUnit := '\"' as int
  const BACKSLASH: CodeUnit := '\\' as int
  const MINUS: CodeUnit := '-' as int
  const COMMA: CodeUnit := ',' as int
  const COLON: CodeUnit := ':' as int
  const OPEN_LIST: CodeUnit := '[' as int
  const CLOSE_LIST: CodeUnit := ']' as int
  const OPEN_OBJECT: CodeUnit := '{' as int
  const CLOSE_OBJECT: CodeUnit := '}' as int
  const LOWER_U: CodeUnit := 'u' as int

  const NULL_TEXT: Utf16 := ['n' as int, 'u' as int, 'l' as int, 'l' as int]
  const TRUE_TEXT: Utf16 := ['t' as int, 'r' as int, 'u' as int, 'e' as int]
  const FALSE_TEXT: Utf16 := ['f' as int, 'a' as int, 'l' as int, 's' as int, 'e' as int]

  predicate High(u: CodeUnit) {
    0xD800 <= u < 0xDC00
  }

  predicate Low(u: CodeUnit) {
    0xDC00 <= u < 0xE000
  }

  // ---------------------------------------------------------- JSON.stringify: strings

  function HexDigit(d: int): CodeUnit
    requires 0 <= d < 16
  {
    if d < 10 then '0' as int + d else 'a' as int + d - 10
  }

  function Hex4(u: CodeUnit): Utf16 {
    [HexDigit(u / 4096), HexDigit(u / 256 % 16), HexDigit(u / 16 % 16), HexDigit(u % 16)]
  }

  /** The two-character escapes. */
  function ShortEscape(u: CodeUnit): Option<CodeUnit> {
    if u == QUOTE || u == BACKSLASH then Some(u)
    else if u == 8 then Some('b' as int)
    else if u == 9 then Some('t' as int)
    else if u == 10 then Some('n' as int)
    else if u == 12 then Some('f' as int)
    else if u == 13 then Some('r' as int)
    else None
  }

  function EscapeUnit(u: CodeUnit): Utf16 {
    match ShortEscape(u)
    case Some(letter) => [BACKSLASH, letter]
    case None => if u < 32 || High(u) || Low(u) then [BACKSLASH, LOWER_U] + Hex4(u) else [u]
  }

  /** Surrogate pairs stay; a lone surrogate is escaped. */
  function Escape(s: Utf16): Utf16 {
    if |s| == 0 then []
    else if High(s[0]) && |s| > 1 && Low(s[1]) then s[..2] + Escape(s[2..])
    else EscapeUnit(s[0]) + Escape(s[1..])
  }

  function Quote(s: Utf16): Utf16 {
    [QUOTE] + Escape(s) + [QUOTE]
  }

  // ---------------------------------------------------------- JSON.stringify: numbers

  function Digits(n: nat): Utf16 {
    if n < 10 then ['0' as int + n] else Digits(n / 10) + ['0' as int + n % 10]
  }

  function PrintNumber(n: int): Utf16 {
    if n < 0 then [MINUS] + Digits(-n) else Digits(n)
  }

  // ------------------------------------------------------------------- the printer

  function Size(v: Json): nat {
    match v
    case Arr(items) => 1 + ItemsSize(items)
    case Obj(fields) => 1 + FieldsSize(fields)
    case _ => 1
  }

  function ItemsSize(items: Items): nat {
    match items
    case NoItems => 0
    case Item(head, tail) => 1 + Size(head) + ItemsSize(tail)
  }

  function FieldsSize(fields: Fields): nat {
    match fields
    case NoFields => 0
    case Field(_, value, rest) => 1 + Size(value) + FieldsSize(rest)
  }

  function InsertField(key: Utf16, value: Json, fields: Fields): (r: Fields)
    ensures FieldsSize(r) == 1 + Size(value) + FieldsSize(fields)
  {
    match fields
    case NoFields => Field(key, value, NoFields)
    case Field(k, v, rest) =>
      if LeqUnits(key, k) then Field(key, value, fields) else Field(k, v, InsertField(key, value, rest))
  }

  /** Object.keys(record).sort(), with the values kept beside their keys. */
  function SortFields(fields: Fields): (r: Fields)
    ensures FieldsSize(r) == FieldsSize(fields)
  {
    match fields
    case NoFields => NoFields
    case Field(key, value, rest) => InsertField(key, value, SortFields(rest))
  }

  function Print(v: Json): Utf16
    decreases Size(v), 0
  {
    match v
    case Null => NULL_TEXT
    case Bool(b) => if b then TRUE_TEXT else FALSE_TEXT
    case Num(n) => PrintNumber(n)
    case Str(s) => Quote(s)
    case Arr(items) => [OPEN_LIST] + PrintItems(items) + [CLOSE_LIST]
    case Obj(fields) => [OPEN_OBJECT] + PrintFields(SortFields(fields)) + [CLOSE_OBJECT]
  }

  function PrintItems(items: Items): Utf16
    decreases ItemsSize(items)
  {
    match items
    case NoItems => []
    case Item(head, NoItems) => Print(head)
    case Item(head, tail) => Print(head) + [COMMA] + PrintItems(tail)
  }

  function PrintField(key: Utf16, value: Json): Utf16
    decreases Size(value), 1
  {
    Quote(key) + [COLON] + Print(value)
  }

  function PrintFields(fields: Fields): Utf16
    decreases FieldsSize(fields)
  {
    match fields
    case NoFields => []
    case Field(key, value, NoFields) => PrintField(key, value)
    case Field(key, value, rest) => PrintField(key, value) + [COMMA] + PrintFields(rest)
  }

  // ------------------------------------------------------------------- the parser

  function HexValue(u: CodeUnit): Option<nat> {
    if '0' as int <= u <= '9' as int then Some(u - '0' as int)
    else if 'a' as int <= u <= 'f' as int then Some(u - 'a' as int + 10)
    else None
  }

  function ParseHex4(t: Utf16): Option<CodeUnit>
    requires |t| >= 4
  {
    match (HexValue(t[0]), HexValue(t[1]), HexValue(t[2]), HexValue(t[3]))
    case (Some(a), Some(b), Some(c), Some(d)) =>
      if a < 16 && b < 16 && c < 16 && d < 16 then Some(a * 4096 + b * 256 + c * 16 + d) else None
    case _ => None
  }

  function Unescape(letter: CodeUnit): Option<CodeUnit> {
    if letter == QUOTE || letter == BACKSLASH then Some(letter)
    else if letter == 'b' as int then Some(8)
    else if letter == 't' as int then Some(9)
    else if letter == 'n' as int then Some(10)
    else if letter == 'f' as int then Some(12)
    else if letter == 'r' as int then Some(13)
    else None
  }

  /** The rest of a string after its opening quote. */
  function ParseChars(t: Utf16): (r: Option<(Utf16, Utf16)>)
    ensures r.Some? ==> |r.value.1| < |t|
  {
    if |t| == 0 then None
    else if t[0] == QUOTE then Some(([], t[1..]))
    else if t[0] != BACKSLASH then Prepend(t[0], ParseChars(t[1..]))
    else if |t| >= 2 && Unescape(t[1]).Some? then Prepend(Unescape(t[1]).value, ParseChars(t[2..]))
    else if |t| >= 6 && t[1] == LOWER_U && ParseHex4(t[2..6]).Some? then
      Prepend(ParseHex4(t[2..6]).value, ParseChars(t[6..]))
    else None
  }

  function Prepend(u: CodeUnit, r: Option<(Utf16, Utf16)>): Option<(Utf16, Utf16)> {
    match r
    case None => None
    case Some((s, rest)) => Some(([u] + s, rest))
  }

  predicate IsDigit(u: CodeUnit) {
    '0' as int <= u <= '9' as int
  }

  /** The longest run of digits at the front. */
  function DigitRun(t: Utf16): nat {
    if |t| > 0 && IsDigit(t[0]) then 1 + DigitRun(t[1..]) else 0
  }

  lemma DigitRunFits(t: Utf16)
    ensures DigitRun(t) <= |t|
  {
  }

  function DigitsValue(ds: Utf16): int {
    if |ds| == 0 then 0 else DigitsValue(ds[..|ds| - 1]) * 10 + (ds[|ds| - 1] - '0' as int)
  }

  function ParseNat(t: Utf16): (r: Option<(int, Utf16)>)
    ensures r.Some? ==> |r.value.1| < |t|
  {
    DigitRunFits(t);
    var n := DigitRun(t);
    if n == 0 then None else Some((DigitsValue(t[..n]), t[n..]))
  }

  function ParseValue(t: Utf16): (r: Option<(Json, Utf16)>)
    ensures r.Some? ==> |r.value.1| < |t|
    decreases |t|, 0
  {
    if |t| == 0 then None
    else if NULL_TEXT <= t then Some((Null, t[4..]))
    else if TRUE_TEXT <= t then Some((Bool(true), t[4..]))
    else if FALSE_TEXT <= t then Some((Bool(false), t[5..]))
    else if t[0] == QUOTE then
      match ParseChars(t[1..])
      case Some((s, rest)) => Some((Str(s), rest))
      case None => None
    else if t[0] == MINUS then
      match ParseNat(t[1..])
      case Some((n, rest)) => Some((Num(-n), rest))
      case None => None
    else if t[0] == OPEN_LIST then
      if |t| > 1 && t[1] == CLOSE_LIST then Some((Arr(NoItems), t[2..]))
      else
        match ParseItems(t[1..])
        case Some((items, rest)) => Some((Arr(items), rest))
        case None => None
    else if t[0] == OPEN_OBJECT then
      if |t| > 1 && t[1] == CLOSE_OBJECT then Some((Obj(NoFields), t[2..]))
      else
        match ParseFields(t[1..])
        case Some((fields, rest)) => Some((Obj(fields), rest))
        case None => None
    else
      match ParseNat(t)
      case Some((n, rest)) => Some((Num(n), rest))
      case None => None
  }

  /** One or more values up to the closing bracket. */
  function ParseItems(t: Utf16): (r: Option<(Items, Utf16)>)
    ensures r.Some? ==> |r.value.1| < |t|
    decreases |t|, 1
  {
    match ParseValue(t)
    case None => None
    case Some((head, rest)) =>
      if |rest| > 0 && rest[0] == CLOSE_LIST then Some((Item(head, NoItems), rest[1..]))
      else if |rest| > 0 && rest[0] == COMMA then
        match ParseItems(rest[1..])
        case Some((tail, after)) => Some((Item(head, tail), after))
        case None => None
      else None
  }

  function ParseFields(t: Utf16): (r: Option<(Fields, Utf16)>)
    ensures r.Some? ==> |r.value.1| < |t|
    decreases |t|, 1
  {
    if |t| == 0 || t[0] != QUOTE then None
    else
      match ParseChars(t[1..])
      case None => None
      case Some((key, afterKey)) =>
        if |afterKey| == 0 || afterKey[0] != COLON then None
        else
          match ParseValue(afterKey[1..])
          case None => None
          case Some((value, rest)) =>
            if |rest| > 0 && rest[0] == CLOSE_OBJECT then Some((Field(key, value, NoFields), rest[1..]))
            else if |rest| > 0 && rest[0] == COMMA then
              match ParseFields(rest[1..])
              case Some((fields, after)) => Some((Field(key, value, fields), after))
              case None => None
            else None
  }

  /** A whole document. */
  function Parse(t: Utf16): Option<Json> {
    match ParseValue(t)
    case Some((v, rest)) => if rest == [] then Some(v) else None
    case None => None
  }
}
