/**
 * JSON text (RFC 8259): a printer, a parser, and that they undo each other.
 *
 * The printer writes a value in front of the text that follows it, so that what stands behind a
 * value is always at hand. Numbers are exact; the printer is used on integers only.
 */
module JsonText {
  import opened Wrappers
  import opened Text

  datatype Json =
    | Null
    | Bool(b: bool)
    | Num(n: real)
    | Str(s: string)
    | Arr(items: seq<Json>)
    | Obj(members: seq<Member>)

  datatype Member = Member(key: string, value: Json)

  /** The value of a key; of a repeated one, the last. */
  function Get(members: seq<Member>, key: string): Option<Json> {
    if members == [] then None
    else
      var last := members[|members| - 1];
      if last.key == key then Some(last.value) else Get(members[..|members| - 1], key)
  }

  // Strings (section 7 of RFC 8259).

  function Hex(d: nat): char
    requires d < 16
  {
    if d < 10 then '0' + d as char else 'a' + (d - 10) as char
  }

  function HexValue(c: char): Option<nat> {
    if '0' <= c <= '9' then Some(c as nat - '0' as nat)
    else if 'a' <= c <= 'f' then Some(c as nat - 'a' as nat + 10)
    else if 'A' <= c <= 'F' then Some(c as nat - 'A' as nat + 10)
    else None
  }

  /** The two-character escapes: what stands behind the backslash, and what it means. */
  function ShortEscape(c: char): Option<char> {
    if c == '\"' then Some('\"')
    else if c == '\\' then Some('\\')
    else if c == '\U{0008}' then Some('b')
    else if c == '\U{000C}' then Some('f')
    else if c == '\n' then Some('n')
    else if c == '\r' then Some('r')
    else if c == '\t' then Some('t')
    else None
  }

  function ShortMeaning(c: char): Option<char> {
    if c == '\"' || c == '\\' || c == '/' then Some(c)
    else if c == 'b' then Some('\U{0008}')
    else if c == 'f' then Some('\U{000C}')
    else if c == 'n' then Some('\n')
    else if c == 'r' then Some('\r')
    else if c == 't' then Some('\t')
    else None
  }

  function PutChar(c: char, rest: string): string {
    if ShortEscape(c).Some? then ['\\', ShortEscape(c).value] + rest
    else if c < ' ' then "\\u00" + ([Hex(c as nat / 16), Hex(c as nat % 16)] + rest)
    else [c] + rest
  }

  function PutChars(s: string, rest: string): string {
    if s == [] then "\"" + rest else PutChar(s[0], PutChars(s[1..], rest))
  }

  function PutString(s: string, rest: string): string {
    "\"" + PutChars(s, rest)
  }

  /** Four hexadecimal digits. */
  function ParseUnit(s: string): Option<nat> {
    if |s| < 4 then None
    else
      var a, b, c, d := HexValue(s[0]), HexValue(s[1]), HexValue(s[2]), HexValue(s[3]);
      if a.None? || b.None? || c.None? || d.None? then None
      else Some(((a.value * 16 + b.value) * 16 + c.value) * 16 + d.value)
  }

  /** A `u` escape, with `s` behind the `u`; two that form a surrogate pair are one character. */
  function ParseCodePoint(s: string): (r: Option<(char, string)>)
    ensures r.Some? ==> |r.value.1| < |s|
  {
    var unit := ParseUnit(s);
    if unit.None? then None
    else if unit.value < 0xD800 || 0xE000 <= unit.value < 0x10000 then Some((unit.value as char, s[4..]))
    else if 0xD800 <= unit.value < 0xDC00 && |s| >= 10 && s[4] == '\\' && s[5] == 'u' then
      var low := ParseUnit(s[6..]);
      if low.Some? && 0xDC00 <= low.value < 0xE000 then
        Some(((0x10000 + (unit.value - 0xD800) * 0x400 + (low.value - 0xDC00)) as char, s[10..]))
      else None
    else None
  }

  /** One character of a string, which `s` does not end. */
  function ParseChar(s: string): (r: Option<(char, string)>)
    ensures r.Some? ==> |r.value.1| < |s|
  {
    if s == [] || s[0] < ' ' then None
    else if s[0] != '\\' then Some((s[0], s[1..]))
    else if |s| == 1 then None
    else if s[1] == 'u' then ParseCodePoint(s[2..])
    else if ShortMeaning(s[1]).Some? then Some((ShortMeaning(s[1]).value, s[2..]))
    else None
  }

  /** The rest of a string, up to and with the closing quote. */
  function ParseChars(s: string): (r: Option<(string, string)>)
    ensures r.Some? ==> |r.value.1| < |s|
  {
    if s != [] && s[0] == '\"' then Some(("", s[1..]))
    else match ParseChar(s)
      case None => None
      case Some((c, rest)) =>
        match ParseChars(rest)
        case None => None
        case Some((chars, rest')) => Some(([c] + chars, rest'))
  }

  function ParseString(s: string): (r: Option<(string, string)>)
    ensures r.Some? ==> |r.value.1| < |s|
  {
    if s != [] && s[0] == '\"' then ParseChars(s[1..]) else None
  }

  lemma ControlParses(c: char, rest: string)
    requires ShortEscape(c).None? && c < ' '
    ensures ParseChar(PutChar(c, rest)) == Some((c, rest))
  {
    var hex := [Hex(c as nat / 16), Hex(c as nat % 16)];
    var units := "00" + (hex + rest);
    assert PutChar(c, rest) == "\\u" + units;
    Unsplit("\\u", units);
    Associative("00", hex, rest);
    Unsplit("00" + hex, rest);
    assert HexValue(hex[0]) == Some(c as nat / 16) && HexValue(hex[1]) == Some(c as nat % 16);
  }

  lemma PutCharParses(c: char, rest: string)
    ensures ParseChar(PutChar(c, rest)) == Some((c, rest))
    ensures PutChar(c, rest)[0] != '\"'
  {
    if ShortEscape(c).Some? {
      Unsplit(['\\', ShortEscape(c).value], rest);
    } else if c < ' ' {
      ControlParses(c, rest);
    } else {
      Unsplit([c], rest);
    }
  }

  lemma {:induction false} PutCharsParse(s: string, rest: string)
    ensures ParseChars(PutChars(s, rest)) == Some((s, rest))
  {
    if s != [] {
      PutCharsParse(s[1..], rest);
      PutCharParses(s[0], PutChars(s[1..], rest));
      assert s == [s[0]] + s[1..];
    }
  }

  lemma PutStringParses(s: string, rest: string)
    ensures ParseString(PutString(s, rest)) == Some((s, rest))
  {
    PutCharsParse(s, rest);
    assert PutString(s, rest)[1..] == PutChars(s, rest);
  }

  // Numbers (section 6).

  predicate IsDigit(c: char) {
    '0' <= c <= '9'
  }

  predicate StartsWithDigit(s: string) {
    s != [] && IsDigit(s[0])
  }

  function PutNat(n: nat, rest: string): string {
    if n < 10 then ['0' + n as char] + rest else PutNat(n / 10, ['0' + (n % 10) as char] + rest)
  }

  function PutInt(n: int, rest: string): string {
    if n < 0 then "-" + PutNat(-n, rest) else PutNat(n, rest)
  }

  /** The digits in front, read on from `acc`. */
  function ParseDigits(s: string, acc: nat): (r: (nat, string))
    ensures |r.1| <= |s| && (StartsWithDigit(s) ==> |r.1| < |s|) && !StartsWithDigit(r.1)
  {
    if StartsWithDigit(s) then ParseDigits(s[1..], acc * 10 + (s[0] as nat - '0' as nat)) else (acc, s)
  }

  function Pow10(n: nat): (r: real)
    ensures r > 0.0
  {
    if n == 0 then 1.0 else 10.0 * Pow10(n - 1)
  }

  function ParseExponent(s: string): (r: Option<(real, string)>)
    ensures r.Some? ==> |r.value.1| <= |s|
  {
    if s == [] || (s[0] != 'e' && s[0] != 'E') then Some((1.0, s))
    else
      var signed := |s| > 1 && (s[1] == '+' || s[1] == '-');
      var digits := if signed then s[2..] else s[1..];
      if !StartsWithDigit(digits) then None
      else
        var (e, rest) := ParseDigits(digits, 0);
        Some((if signed && s[1] == '-' then 1.0 / Pow10(e) else Pow10(e), rest))
  }

  function ParseFraction(s: string): (r: Option<(real, string)>)
    ensures r.Some? ==> |r.value.1| <= |s|
  {
    if s == [] || s[0] != '.' then Some((0.0, s))
    else if !StartsWithDigit(s[1..]) then None
    else
      var (f, rest) := ParseDigits(s[1..], 0);
      Some((f as real / Pow10(|s| - 1 - |rest|), rest))
  }

  function Scaled(n: nat, f: real, scale: real): real {
    (n as real + f) * scale
  }

  /** What may follow the integer part. */
  function ParseTail(n: nat, s: string): (r: Option<(real, string)>)
    ensures r.Some? ==> |r.value.1| <= |s|
  {
    match ParseFraction(s)
    case None => None
    case Some((f, afterFraction)) =>
      match ParseExponent(afterFraction)
      case None => None
      case Some((scale, rest)) => Some((Scaled(n, f, scale), rest))
  }

  function ParseUnsigned(s: string): (r: Option<(real, string)>)
    ensures r.Some? ==> |r.value.1| < |s|
  {
    if !StartsWithDigit(s) || (s[0] == '0' && StartsWithDigit(s[1..])) then None
    else
      var (n, rest) := ParseDigits(s, 0);
      ParseTail(n, rest)
  }

  function ParseNumber(s: string): (r: Option<(real, string)>)
    ensures r.Some? ==> |r.value.1| < |s|
  {
    if s != [] && s[0] == '-' then
      match ParseUnsigned(s[1..])
      case None => None
      case Some((n, rest)) => Some((-n, rest))
    else ParseUnsigned(s)
  }

  /** No number goes on with this text. */
  predicate EndsNumber(s: string) {
    s == [] || !(IsDigit(s[0]) || s[0] == '.' || s[0] == 'e' || s[0] == 'E')
  }

  lemma {:induction false} PutNatParses(n: nat, rest: string)
    ensures ParseDigits(PutNat(n, rest), 0) == ParseDigits(rest, n)
    ensures StartsWithDigit(PutNat(n, rest)) && |PutNat(n, rest)| > |rest|
    ensures PutNat(n, rest)[0] == '0' ==> n == 0 && PutNat(n, rest)[1..] == rest
  {
    if n >= 10 {
      PutNatParses(n / 10, ['0' + (n % 10) as char] + rest);
    }
  }

  lemma PutIntParses(n: int, rest: string)
    requires EndsNumber(rest)
    ensures ParseNumber(PutInt(n, rest)) == Some((n as real, rest))
  {
    var m := if n < 0 then -n else n;
    PutNatParses(m, rest);
    if n < 0 {
      assert PutInt(n, rest)[1..] == PutNat(m, rest);
    }
  }

  // Values (sections 2 to 5).

  function SkipWhitespace(s: string): (r: string)
    ensures |r| <= |s|
  {
    if s != [] && (s[0] == ' ' || s[0] == '\t' || s[0] == '\n' || s[0] == '\r') then SkipWhitespace(s[1..]) else s
  }

  predicate Printable(v: Json) {
    match v
    case Num(n) => n == n.Floor as real
    case Arr(items) => forall i :: 0 <= i < |items| ==> Printable(items[i])
    case Obj(members) => forall i :: 0 <= i < |members| ==> Printable(members[i].value)
    case _ => true
  }

  /** The text of a value, in front of `rest`. */
  function Put(v: Json, rest: string): string
    decreases v
  {
    match v
    case Null => "null" + rest
    case Bool(b) => if b then "true" + rest else "false" + rest
    case Num(n) => PutInt(n.Floor, rest)
    case Str(s) => PutString(s, rest)
    case Arr(items) => if items == [] then "[]" + rest else "[" + PutItems(items, "]" + rest)
    case Obj(members) => if members == [] then "{}" + rest else "{" + PutMembers(members, "}" + rest)
  }

  function PutItems(items: seq<Json>, rest: string): string
    requires items != []
    decreases items
  {
    Put(items[0], if |items| == 1 then rest else "," + PutItems(items[1..], rest))
  }

  function PutMembers(members: seq<Member>, rest: string): string
    requires members != []
    decreases members
  {
    PutMember(members[0], if |members| == 1 then rest else "," + PutMembers(members[1..], rest))
  }

  function PutMember(member: Member, rest: string): string
    decreases member
  {
    PutString(member.key, ":" + Put(member.value, rest))
  }

  function Stringify(v: Json): string {
    Put(v, "")
  }

  function ParseValue(text: string): (r: Option<(Json, string)>)
    ensures r.Some? ==> |r.value.1| < |text|
    decreases |text|, 1
  {
    var s := SkipWhitespace(text);
    if s == [] then None
    else if "null" <= s then Some((Null, s[4..]))
    else if "true" <= s then Some((Bool(true), s[4..]))
    else if "false" <= s then Some((Bool(false), s[5..]))
    else if s[0] == '\"' then
      match ParseString(s)
      case None => None
      case Some((chars, rest)) => Some((Str(chars), rest))
    else if s[0] == '[' then
      var inner := SkipWhitespace(s[1..]);
      if inner != [] && inner[0] == ']' then Some((Arr([]), inner[1..]))
      else match ParseItems(inner)
        case None => None
        case Some((items, rest)) => Some((Arr(items), rest))
    else if s[0] == '{' then
      var inner := SkipWhitespace(s[1..]);
      if inner != [] && inner[0] == '}' then Some((Obj([]), inner[1..]))
      else match ParseMembers(inner)
        case None => None
        case Some((members, rest)) => Some((Obj(members), rest))
    else
      match ParseNumber(s)
      case None => None
      case Some((n, rest)) => Some((Num(n), rest))
  }

  function ParseItems(s: string): (r: Option<(seq<Json>, string)>)
    ensures r.Some? ==> |r.value.1| < |s|
    decreases |s|, 2
  {
    match ParseValue(s)
    case None => None
    case Some((item, after)) =>
      var rest := SkipWhitespace(after);
      if rest != [] && rest[0] == ']' then Some(([item], rest[1..]))
      else if rest != [] && rest[0] == ',' then
        match ParseItems(rest[1..])
        case None => None
        case Some((items, rest')) => Some(([item] + items, rest'))
      else None
  }

  function ParseMembers(s: string): (r: Option<(seq<Member>, string)>)
    ensures r.Some? ==> |r.value.1| < |s|
    decreases |s|, 2
  {
    match ParseMember(s)
    case None => None
    case Some((member, after)) =>
      var rest := SkipWhitespace(after);
      if rest != [] && rest[0] == '}' then Some(([member], rest[1..]))
      else if rest != [] && rest[0] == ',' then
        match ParseMembers(rest[1..])
        case None => None
        case Some((members, rest')) => Some(([member] + members, rest'))
      else None
  }

  function ParseMember(s: string): (r: Option<(Member, string)>)
    ensures r.Some? ==> |r.value.1| < |s|
    decreases |s|, 1
  {
    match ParseString(SkipWhitespace(s))
    case None => None
    case Some((key, after)) =>
      var colon := SkipWhitespace(after);
      if colon == [] || colon[0] != ':' then None
      else match ParseValue(colon[1..])
        case None => None
        case Some((value, rest)) => Some((Member(key, value), rest))
  }

  /** The whole text is one value, with nothing but whitespace around it. */
  function ParseJson(s: string): Option<Json> {
    match ParseValue(s)
    case None => None
    case Some((v, rest)) => if SkipWhitespace(rest) == [] then Some(v) else None
  }

  lemma SkipNothing(s: string)
    requires s != [] && s[0] != ' ' && s[0] != '\t' && s[0] != '\n' && s[0] != '\r'
    ensures SkipWhitespace(s) == s
  {
  }

  /** A printed value starts with neither whitespace nor a closing bracket. */
  lemma {:induction false} PutStarts(v: Json, rest: string)
    ensures Put(v, rest) != [] && SkipWhitespace(Put(v, rest)) == Put(v, rest)
    ensures Put(v, rest)[0] != ']' && Put(v, rest)[0] != '}'
  {
    if v.Num? {
      PutNatParses(if v.n.Floor < 0 then -v.n.Floor else v.n.Floor, rest);
    }
  }

  /** A printed value is read back, whatever follows it, unless a number would go on. */
  lemma {:induction false} PutParses(v: Json, rest: string)
    requires Printable(v) && (v.Num? ==> EndsNumber(rest))
    ensures ParseValue(Put(v, rest)) == Some((v, rest))
    decreases v
  {
    PutStarts(v, rest);
    match v
    case Null => Unsplit("null", rest);
    case Bool(b) => Unsplit(if b then "true" else "false", rest);
    case Num(n) => PutNumParses(n, rest);
    case Str(s) => PutStringParses(s, rest);
    case Arr(items) =>
      if items != [] {
        PutItemsParse(items, rest);
        PutStarts(items[0], if |items| == 1 then "]" + rest else "," + PutItems(items[1..], "]" + rest));
        ArrayParses(PutItems(items, "]" + rest));
      } else {
        Unsplit("[", "]" + rest);
      }
    case Obj(members) =>
      if members != [] {
        PutMembersParse(members, rest);
        ObjectParses(PutMembers(members, "}" + rest));
      } else {
        Unsplit("{", "}" + rest);
      }
  }

  lemma ArrayParses(inner: string)
    requires inner != [] && SkipWhitespace(inner) == inner && inner[0] != ']' && ParseItems(inner).Some?
    ensures ParseValue("[" + inner) == Some((Arr(ParseItems(inner).value.0), ParseItems(inner).value.1))
  {
    Unsplit("[", inner);
  }

  lemma ObjectParses(inner: string)
    requires inner != [] && SkipWhitespace(inner) == inner && inner[0] != '}' && ParseMembers(inner).Some?
    ensures ParseValue("{" + inner) == Some((Obj(ParseMembers(inner).value.0), ParseMembers(inner).value.1))
  {
    Unsplit("{", inner);
  }

  lemma {:induction false} PutNumParses(n: real, rest: string)
    requires n == n.Floor as real && EndsNumber(rest)
    ensures ParseValue(Put(Num(n), rest)) == Some((Num(n), rest))
  {
    var s := PutInt(n.Floor, rest);
    PutIntParses(n.Floor, rest);
    PutNatParses(if n.Floor < 0 then -n.Floor else n.Floor, rest);
    SkipNothing(s);
  }

  lemma {:induction false} PutItemsParse(items: seq<Json>, rest: string)
    requires items != [] && forall i :: 0 <= i < |items| ==> Printable(items[i])
    ensures ParseItems(PutItems(items, "]" + rest)) == Some((items, rest))
    decreases items
  {
    if |items| == 1 {
      PutParses(items[0], "]" + rest);
      Unsplit("]", rest);
      assert items == [items[0]];
    } else {
      var more := PutItems(items[1..], "]" + rest);
      PutItemsParse(items[1..], rest);
      PutParses(items[0], "," + more);
      Unsplit(",", more);
      assert items == [items[0]] + items[1..];
    }
  }

  lemma {:induction false} PutMembersParse(members: seq<Member>, rest: string)
    requires members != [] && forall i :: 0 <= i < |members| ==> Printable(members[i].value)
    ensures ParseMembers(PutMembers(members, "}" + rest)) == Some((members, rest))
    decreases members
  {
    if |members| == 1 {
      PutMemberParses(members[0], "}" + rest);
      Unsplit("}", rest);
      assert members == [members[0]];
    } else {
      var more := PutMembers(members[1..], "}" + rest);
      PutMembersParse(members[1..], rest);
      PutMemberParses(members[0], "," + more);
      MembersStep(PutMembers(members, "}" + rest), members[0], more);
      assert members == [members[0]] + members[1..];
    }
  }

  lemma MembersStep(s: string, member: Member, more: string)
    requires ParseMember(s) == Some((member, "," + more)) && ParseMembers(more).Some?
    ensures ParseMembers(s) == Some(([member] + ParseMembers(more).value.0, ParseMembers(more).value.1))
  {
    Unsplit(",", more);
  }

  lemma {:induction false} PutMemberParses(member: Member, rest: string)
    requires Printable(member.value) && EndsNumber(rest)
    ensures ParseMember(PutMember(member, rest)) == Some((member, rest))
    decreases member
  {
    PutStringParses(member.key, ":" + Put(member.value, rest));
    PutParses(member.value, rest);
  }

  /** What is printed is read back whole. */
  lemma StringifyParses(v: Json)
    requires Printable(v)
    ensures ParseJson(Stringify(v)) == Some(v)
  {
    PutParses(v, "");
  }

  // What has been read stays read when the text goes on.

  lemma {:induction false} SkipExtends(s: string, x: string)
    requires SkipWhitespace(s) != []
    ensures SkipWhitespace(s + x) == SkipWhitespace(s) + x
  {
    if SkipWhitespace(s) != s {
      assert (s + x)[1..] == s[1..] + x;
      SkipExtends(s[1..], x);
    }
  }

  lemma {:induction false} DigitsExtend(s: string, x: string, acc: nat)
    requires ParseDigits(s, acc).1 != []
    ensures ParseDigits(s + x, acc) == (ParseDigits(s, acc).0, ParseDigits(s, acc).1 + x)
  {
    if StartsWithDigit(s) {
      assert (s + x)[1..] == s[1..] + x;
      DigitsExtend(s[1..], x, acc * 10 + (s[0] as nat - '0' as nat));
    }
  }

  lemma ExponentExtends(s: string, x: string)
    requires ParseExponent(s).Some? && ParseExponent(s).value.1 != []
    ensures ParseExponent(s + x) == Some((ParseExponent(s).value.0, ParseExponent(s).value.1 + x))
  {
    if s[0] == 'e' || s[0] == 'E' {
      var signed := |s| > 1 && (s[1] == '+' || s[1] == '-');
      var digits := if signed then s[2..] else s[1..];
      assert (s + x)[if signed then 2 else 1..] == digits + x;
      DigitsExtend(digits, x, 0);
    }
  }

  lemma FractionExtends(s: string, x: string)
    requires ParseFraction(s).Some? && ParseFraction(s).value.1 != []
    ensures ParseFraction(s + x) == Some((ParseFraction(s).value.0, ParseFraction(s).value.1 + x))
  {
    if s[0] == '.' {
      assert (s + x)[1..] == s[1..] + x;
      DigitsExtend(s[1..], x, 0);
    }
  }

  lemma NumberExtends(s: string, x: string)
    requires ParseNumber(s).Some? && ParseNumber(s).value.1 != []
    ensures ParseNumber(s + x) == Some((ParseNumber(s).value.0, ParseNumber(s).value.1 + x))
  {
    var u := if s[0] == '-' then s[1..] else s;
    assert (s + x)[if s[0] == '-' then 1 else 0..] == u + x;
    UnsignedExtends(u, x);
  }

  lemma UnsignedExtends(s: string, x: string)
    requires ParseUnsigned(s).Some? && ParseUnsigned(s).value.1 != []
    ensures ParseUnsigned(s + x) == Some((ParseUnsigned(s).value.0, ParseUnsigned(s).value.1 + x))
  {
    var (n, rest) := ParseDigits(s, 0);
    TailExtends(n, rest, x);
    DigitsExtend(s, x, 0);
    assert s[1..] != [] && (s + x)[1..] == s[1..] + x;
  }

  lemma TailExtends(n: nat, s: string, x: string)
    requires ParseTail(n, s).Some? && ParseTail(n, s).value.1 != []
    ensures s != [] && ParseTail(n, s + x) == Some((ParseTail(n, s).value.0, ParseTail(n, s).value.1 + x))
  {
    ExponentExtends(ParseFraction(s).value.1, x);
    FractionExtends(s, x);
  }

  lemma CodePointExtends(s: string, x: string)
    requires ParseCodePoint(s).Some?
    ensures ParseCodePoint(s + x) == Some((ParseCodePoint(s).value.0, ParseCodePoint(s).value.1 + x))
  {
    assert (s + x)[4..] == s[4..] + x;
    if |s| >= 10 {
      assert (s + x)[6..] == s[6..] + x && (s + x)[10..] == s[10..] + x;
    }
  }

  lemma CharExtends(s: string, x: string)
    requires ParseChar(s).Some?
    ensures ParseChar(s + x) == Some((ParseChar(s).value.0, ParseChar(s).value.1 + x))
  {
    assert (s + x)[1..] == s[1..] + x;
    if |s| >= 2 {
      assert (s + x)[2..] == s[2..] + x;
      if s[0] == '\\' && s[1] == 'u' {
        CodePointExtends(s[2..], x);
      }
    }
  }

  lemma {:induction false} CharsExtend(s: string, x: string)
    requires ParseChars(s).Some?
    ensures ParseChars(s + x) == Some((ParseChars(s).value.0, ParseChars(s).value.1 + x))
    decreases |s|
  {
    if s[0] == '\"' {
      assert (s + x)[1..] == s[1..] + x;
    } else {
      CharExtends(s, x);
      CharsExtend(ParseChar(s).value.1, x);
    }
  }

  lemma StringExtends(s: string, x: string)
    requires ParseString(s).Some?
    ensures ParseString(s + x) == Some((ParseString(s).value.0, ParseString(s).value.1 + x))
  {
    assert (s + x)[1..] == s[1..] + x;
    CharsExtend(s[1..], x);
  }

  lemma ValueSkips(text: string)
    ensures ParseValue(text) == ParseValue(SkipWhitespace(text))
  {
    SkipIsDone(text);
  }

  lemma {:induction false} SkipIsDone(s: string)
    ensures SkipWhitespace(SkipWhitespace(s)) == SkipWhitespace(s)
  {
    if SkipWhitespace(s) != s {
      SkipIsDone(s[1..]);
    }
  }

  /** Only a number at the very end may be read differently when the text goes on. */
  lemma {:induction false} ValueExtends(text: string, x: string)
    requires ParseValue(text).Some? && (ParseValue(text).value.0.Num? ==> ParseValue(text).value.1 != [])
    ensures ParseValue(text + x) == Some((ParseValue(text).value.0, ParseValue(text).value.1 + x))
    decreases |text|, 1
  {
    var s := SkipWhitespace(text);
    SkipExtends(text, x);
    ValueSkips(text);
    ValueSkips(text + x);
    if s[0] == 'n' || s[0] == 't' || s[0] == 'f' {
      LiteralExtends(s, x);
    } else if s[0] == '[' || s[0] == '{' {
      BracketExtends(s, x);
    } else {
      PlainExtends(s, x);
    }
  }

  lemma PlainExtends(s: string, x: string)
    requires s != [] && SkipWhitespace(s) == s && s[0] !in "ntf[{"
    requires ParseValue(s).Some? && (ParseValue(s).value.0.Num? ==> ParseValue(s).value.1 != [])
    ensures ParseValue(s + x) == Some((ParseValue(s).value.0, ParseValue(s).value.1 + x))
  {
    assert (s + x)[0] == s[0];
    if s[0] == '\"' {
      StringExtends(s, x);
    } else {
      NumberExtends(s, x);
    }
  }

  lemma LiteralExtends(s: string, x: string)
    requires s != [] && ParseValue(s).Some? && (s[0] == 'n' || s[0] == 't' || s[0] == 'f')
    ensures ParseValue(s + x) == Some((ParseValue(s).value.0, ParseValue(s).value.1 + x))
  {
    SkipNothing(s);
    SkipNothing(s + x);
    var n := if s[0] == 'f' then 5 else 4;
    assert (s + x)[..n] == s[..n] && (s + x)[n..] == s[n..] + x;
  }

  lemma {:induction false} BracketExtends(s: string, x: string)
    requires s != [] && ParseValue(s).Some? && (s[0] == '[' || s[0] == '{')
    ensures ParseValue(s + x) == Some((ParseValue(s).value.0, ParseValue(s).value.1 + x))
    decreases |s|, 0
  {
    SkipNothing(s);
    SkipNothing(s + x);
    assert (s + x)[1..] == s[1..] + x;
    var inner := SkipWhitespace(s[1..]);
    assert inner != [];
    SkipExtends(s[1..], x);
    assert (inner + x)[0] == inner[0] && (inner + x)[1..] == inner[1..] + x;
    if s[0] == '[' && inner[0] != ']' {
      ItemsExtend(inner, x);
    } else if s[0] == '{' && inner[0] != '}' {
      MembersExtend(inner, x);
    }
  }

  lemma {:induction false} ItemsExtend(s: string, x: string)
    requires ParseItems(s).Some?
    ensures ParseItems(s + x) == Some((ParseItems(s).value.0, ParseItems(s).value.1 + x))
    decreases |s|, 2
  {
    ValueExtends(s, x);
    var after := ParseValue(s).value.1;
    var rest := SkipWhitespace(after);
    SkipExtends(after, x);
    assert (rest + x)[0] == rest[0] && (rest + x)[1..] == rest[1..] + x;
    if rest[0] == ',' {
      ItemsExtend(rest[1..], x);
    }
  }

  lemma {:induction false} MembersExtend(s: string, x: string)
    requires ParseMembers(s).Some?
    ensures ParseMembers(s + x) == Some((ParseMembers(s).value.0, ParseMembers(s).value.1 + x))
    decreases |s|, 2
  {
    MemberExtends(s, x);
    var after := ParseMember(s).value.1;
    var rest := SkipWhitespace(after);
    SkipExtends(after, x);
    assert (rest + x)[0] == rest[0] && (rest + x)[1..] == rest[1..] + x;
    if rest[0] == ',' {
      MembersExtend(rest[1..], x);
    }
  }

  lemma {:induction false} MemberExtends(s: string, x: string)
    requires ParseMember(s).Some? && ParseMember(s).value.1 != []
    ensures ParseMember(s + x) == Some((ParseMember(s).value.0, ParseMember(s).value.1 + x))
    decreases |s|, 1
  {
    var quoted := SkipWhitespace(s);
    SkipExtends(s, x);
    StringExtends(quoted, x);
    var after := ParseString(quoted).value.1;
    var colon := SkipWhitespace(after);
    SkipExtends(after, x);
    assert (colon + x)[0] == colon[0] && (colon + x)[1..] == colon[1..] + x;
    ValueExtends(colon[1..], x);
  }

  /** The text of an object, cut short anywhere, is not JSON. */
  lemma TruncatedDoesNotParse(members: seq<Member>, p: string)
    requires Printable(Obj(members)) && p < Stringify(Obj(members))
    ensures ParseJson(p).None?
  {
    var text := Stringify(Obj(members));
    var x := text[|p|..];
    Split(p, text);
    if ParseJson(p).Some? {
      assert p[0] == text[0] == '{';
      SkipNothing(p);
      ValueExtends(p, x);
      PutParses(Obj(members), "");
      assert false;
    }
  }

  // What stands in front does not depend on what follows.

  lemma {:induction false} PutCharsAppends(s: string, rest: string)
    ensures PutChars(s, rest) == PutChars(s, "") + rest
  {
    if s != [] {
      PutCharsAppends(s[1..], rest);
      PutCharAppends(s[0], PutChars(s[1..], ""), rest);
    }
  }

  lemma PutCharAppends(c: char, a: string, b: string)
    ensures PutChar(c, a + b) == PutChar(c, a) + b
  {
    if ShortEscape(c).Some? {
      Associative(['\\', ShortEscape(c).value], a, b);
    } else if c < ' ' {
      var hex := [Hex(c as nat / 16), Hex(c as nat % 16)];
      Associative(hex, a, b);
      Associative("\\u00", hex + a, b);
    } else {
      Associative([c], a, b);
    }
  }

  lemma {:induction false} PutNatAppends(n: nat, a: string, b: string)
    ensures PutNat(n, a + b) == PutNat(n, a) + b
  {
    var digit := ['0' + (n % 10) as char];
    Associative(digit, a, b);
    if n >= 10 {
      PutNatAppends(n / 10, digit + a, b);
    }
  }

  lemma PutStringAppends(s: string, a: string, b: string)
    ensures PutString(s, a + b) == PutString(s, a) + b
  {
    PutCharsAppends(s, a);
    PutCharsAppends(s, a + b);
  }

  lemma {:induction false} PutAppends(v: Json, a: string, b: string)
    ensures Put(v, a + b) == Put(v, a) + b
    decreases v
  {
    match v
    case Null =>
    case Bool(_) =>
    case Num(n) => PutNatAppends(if n.Floor < 0 then -n.Floor else n.Floor, a, b);
    case Str(s) => PutStringAppends(s, a, b);
    case Arr(items) =>
      if items != [] {
        Associative("]", a, b);
        PutItemsAppends(items, "]" + a, b);
      }
    case Obj(members) =>
      if members != [] {
        Associative("}", a, b);
        PutMembersAppends(members, "}" + a, b);
      }
  }

  lemma {:induction false} PutItemsAppends(items: seq<Json>, a: string, b: string)
    requires items != []
    ensures PutItems(items, a + b) == PutItems(items, a) + b
    decreases items
  {
    if |items| == 1 {
      PutAppends(items[0], a, b);
    } else {
      PutItemsAppends(items[1..], a, b);
      Associative(",", PutItems(items[1..], a), b);
      PutAppends(items[0], "," + PutItems(items[1..], a), b);
    }
  }

  lemma {:induction false} PutMembersAppends(members: seq<Member>, a: string, b: string)
    requires members != []
    ensures PutMembers(members, a + b) == PutMembers(members, a) + b
    decreases members
  {
    if |members| == 1 {
      PutMemberAppends(members[0], a, b);
    } else {
      PutMembersAppends(members[1..], a, b);
      Associative(",", PutMembers(members[1..], a), b);
      PutMemberAppends(members[0], "," + PutMembers(members[1..], a), b);
    }
  }

  lemma {:induction false} PutMemberAppends(member: Member, a: string, b: string)
    ensures PutMember(member, a + b) == PutMember(member, a) + b
    decreases member
  {
    PutAppends(member.value, a, b);
    Associative(":", Put(member.value, a), b);
    PutStringAppends(member.key, ":" + Put(member.value, a), b);
  }

  // Where the printed text contains `-->`.

  ghost predicate ArrowInside(v: Json) {
    match v
    case Str(s) => Arrow(s)
    case Arr(items) => exists i :: 0 <= i < |items| && ArrowInside(items[i])
    case Obj(members) => exists i :: 0 <= i < |members| && (Arrow(members[i].key) || ArrowInside(members[i].value))
    case _ => false
  }

  lemma PutCharsHead(s: string, rest: string, c: char)
    requires c == '-' || c == '>'
    ensures PutChars(s, rest) != [] && (PutChars(s, rest)[0] == c <==> s != [] && s[0] == c)
  {
  }

  lemma {:induction false} ArrowPutChars(s: string, rest: string)
    ensures Arrow(PutChars(s, rest)) <==> Arrow(s) || Arrow(rest)
  {
    if s == [] {
      ArrowCons('\"', rest);
    } else {
      var c, more := s[0], PutChars(s[1..], rest);
      ArrowPutChars(s[1..], rest);
      ArrowCons(c, s[1..]);
      assert s == [c] + s[1..];
      if PutChar(c, more) == [c] + more {
        ArrowCons(c, more);
        HeadsAgree(s[1..], rest);
      } else {
        ArrowPutEscaped(c, more);
      }
    }
  }

  lemma HeadsAgree(s: string, rest: string)
    ensures (|s| >= 2 && s[0] == '-' && s[1] == '>') <==>
      (|PutChars(s, rest)| >= 2 && PutChars(s, rest)[0] == '-' && PutChars(s, rest)[1] == '>')
  {
    PutCharsHead(s, rest, '-');
    if s != [] && s[0] == '-' {
      PutCharsHead(s[1..], rest, '>');
    }
  }

  lemma ArrowPutEscaped(c: char, rest: string)
    requires PutChar(c, rest) != [c] + rest
    ensures c != '-' && (Arrow(PutChar(c, rest)) <==> Arrow(rest))
  {
    if ShortEscape(c).Some? {
      ArrowJoin(['\\', ShortEscape(c).value], rest);
    } else {
      var hex := [Hex(c as nat / 16), Hex(c as nat % 16)];
      ArrowJoin(hex, rest);
      ArrowJoin("\\u00", hex + rest);
    }
  }

  lemma ArrowPutString(s: string, rest: string)
    ensures Arrow(PutString(s, rest)) <==> Arrow(s) || Arrow(rest)
  {
    ArrowPutChars(s, rest);
    ArrowJoin("\"", PutChars(s, rest));
  }

  lemma {:induction false} ArrowPutNat(n: nat, rest: string)
    ensures Arrow(PutNat(n, rest)) <==> Arrow(rest)
  {
    ArrowJoin(['0' + (n % 10) as char], rest);
    if n >= 10 {
      ArrowPutNat(n / 10, ['0' + (n % 10) as char] + rest);
    }
  }

  lemma ArrowPutInt(n: int, rest: string)
    ensures Arrow(PutInt(n, rest)) <==> Arrow(rest)
  {
    var m := if n < 0 then -n else n;
    ArrowPutNat(m, rest);
    PutNatParses(m, rest);
    ArrowCons('-', PutNat(m, rest));
  }

  /** A printed value contains `-->` exactly when one of its strings does. */
  lemma {:induction false} ArrowPut(v: Json, rest: string)
    ensures Arrow(Put(v, rest)) <==> ArrowInside(v) || Arrow(rest)
    decreases v
  {
    match v
    case Null => ArrowJoin("null", rest);
    case Bool(b) => ArrowJoin(if b then "true" else "false", rest);
    case Num(n) => ArrowPutInt(n.Floor, rest);
    case Str(s) => ArrowPutString(s, rest);
    case Arr(items) =>
      ArrowJoin("]", rest);
      if items == [] {
        ArrowJoin("[]", rest);
      } else {
        ArrowJoin("[", PutItems(items, "]" + rest));
        ArrowPutItems(items, "]" + rest);
      }
    case Obj(members) =>
      ArrowJoin("}", rest);
      if members == [] {
        ArrowJoin("{}", rest);
      } else {
        ArrowJoin("{", PutMembers(members, "}" + rest));
        ArrowPutMembers(members, "}" + rest);
      }
  }

  lemma {:induction false} ArrowPutItems(items: seq<Json>, rest: string)
    requires items != []
    ensures Arrow(PutItems(items, rest)) <==> ArrowInside(Arr(items)) || Arrow(rest)
    decreases items
  {
    if |items| == 1 {
      ArrowPut(items[0], rest);
    } else {
      var more := PutItems(items[1..], rest);
      ArrowPut(items[0], "," + more);
      ArrowJoin(",", more);
      ArrowPutItems(items[1..], rest);
      assert ArrowInside(Arr(items)) <==> ArrowInside(items[0]) || ArrowInside(Arr(items[1..])) by {
        assert forall i :: 0 < i < |items| ==> items[i] == items[1..][i - 1];
      }
    }
  }

  lemma {:induction false} ArrowPutMembers(members: seq<Member>, rest: string)
    requires members != []
    ensures Arrow(PutMembers(members, rest)) <==> ArrowInside(Obj(members)) || Arrow(rest)
    decreases members
  {
    if |members| == 1 {
      ArrowPutMember(members[0], rest);
    } else {
      var more := PutMembers(members[1..], rest);
      ArrowPutMember(members[0], "," + more);
      ArrowJoin(",", more);
      ArrowPutMembers(members[1..], rest);
      assert ArrowInside(Obj(members)) <==>
             Arrow(members[0].key) || ArrowInside(members[0].value) || ArrowInside(Obj(members[1..])) by {
        assert forall i :: 0 < i < |members| ==> members[i] == members[1..][i - 1];
      }
    }
  }

  lemma {:induction false} ArrowPutMember(member: Member, rest: string)
    ensures Arrow(PutMember(member, rest)) <==> Arrow(member.key) || ArrowInside(member.value) || Arrow(rest)
    decreases member
  {
    ArrowPut(member.value, rest);
    ArrowJoin(":", Put(member.value, rest));
    ArrowPutString(member.key, ":" + Put(member.value, rest));
  }
}
