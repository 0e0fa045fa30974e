/**
 * Document identifiers. The store hands out identifiers from a counter; an
 * identifier is written as 24 lower-case hexadecimal digits (the 12 bytes of a
 * MongoDB ObjectId), and `new ObjectId(x)` turns a JavaScript value back into
 * the identifier it names, into a fresh identifier that names no stored
 * document, or into an error.
 */
module ObjectIds {
  import opened Wrappers
  import opened Json
  import Text

  /** What `new ObjectId(x)` makes of its argument. */
  datatype IdArg =
    | Oid(n: nat)   // the identifier written by the argument
    | NoMatch       // a newly generated identifier, equal to no stored one
    | Malformed     // the constructor throws

  function Pow16(w: nat): (p: nat)
    ensures p >= 1
  {
    if w == 0 then 1 else 16 * Pow16(w - 1)
  }

  /** The number of hexadecimal digits of an ObjectId, and the number of identifiers. */
  const IdDigits: nat := 24
  const IdSpace: nat := Pow16(IdDigits)

  function HexDigit(d: nat): (c: char)
    requires d < 16
    ensures Text.DigitValue(c) == d
  {
    "0123456789abcdef"[d]
  }

  predicate IsHexDigit(c: char) {
    Text.DigitValue(c) < 16
  }

  /** `n` written with exactly `w` hexadecimal digits, most significant first. */
  function HexText(n: nat, w: nat): (s: string)
    requires n < Pow16(w)
    ensures |s| == w
    ensures forall i :: 0 <= i < |s| ==> IsHexDigit(s[i])
  {
    if w == 0 then "" else HexText(n / 16, w - 1) + [HexDigit(n % 16)]
  }

  /** `toHexString()` of the identifier numbered `n` (taken modulo the identifier space). */
  function IdText(n: nat): string {
    if n < IdSpace then HexText(n, IdDigits) else HexText(n % IdSpace, IdDigits)
  }

  /** `new ObjectId(x)`, where `None` is `undefined`. */
  function FromValue(x: Option<Value>): (r: IdArg)
    ensures x == None || x == Some(Null) ==> r == NoMatch
    ensures x.Some? && x.value.Str? ==> (r.Oid? <==> IsIdText(x.value.s))
  {
    match x
    case None => NoMatch
    case Some(v) =>
      match v
      case Null => NoMatch
      case Num(_) => NoMatch
      case Str(s) => FromText(s)
      case Obj(fields) =>
        // an object carrying an `id` field is read through that field
        if "id" in fields && fields["id"].Str? then FromText(fields["id"].s) else Malformed
      case _ => Malformed
  }

  predicate IsIdText(s: string) {
    |s| == IdDigits && forall i :: 0 <= i < |s| ==> IsHexDigit(s[i])
  }

  /** A string names an identifier when it is exactly 24 hexadecimal digits, in either case. */
  function FromText(s: string): (r: IdArg)
    ensures r.Oid? || r.Malformed?
    ensures r.Oid? <==> IsIdText(s)
  {
    if IsIdText(s) then Oid(Text.DigitsValue(s, 16)) else Malformed
  }

  lemma {:induction false} HexTextValue(n: nat, w: nat)
    requires n < Pow16(w)
    ensures Text.DigitsValue(HexText(n, w), 16) == n
  {
    if w > 0 {
      HexStep(n, w);
      var init := HexText(n / 16, w - 1);
      HexTextValue(n / 16, w - 1);
      Text.DigitsValueSnoc(init, HexDigit(n % 16), 16);
      Text.ShiftDivMod(n, 16);
    }
  }

  lemma HexStep(n: nat, w: nat)
    requires w > 0 && n < Pow16(w)
    ensures n / 16 < Pow16(w - 1)
    ensures HexText(n, w) == HexText(n / 16, w - 1) + [HexDigit(n % 16)]
  {
  }

  /** The text of an identifier names that identifier again. */
  lemma IdTextRoundTrip(n: nat)
    requires n < IdSpace
    ensures FromValue(Some(Str(IdText(n)))) == Oid(n)
  {
    IdTextIsHex(n);
    HexTextParses(n);
    StringArgument(IdText(n));
  }

  lemma IdTextIsHex(n: nat)
    requires n < IdSpace
    ensures IdText(n) == HexText(n, IdDigits)
  {
  }

  lemma HexTextParses(n: nat)
    requires n < IdSpace
    ensures FromText(HexText(n, IdDigits)) == Oid(n)
  {
    HexTextValue(n, IdDigits);
  }

  lemma StringArgument(s: string)
    ensures FromValue(Some(Str(s))) == FromText(s)
  {
  }

  /** Distinct identifiers are written differently. */
  lemma IdTextInjective(a: nat, b: nat)
    requires a < IdSpace && b < IdSpace && IdText(a) == IdText(b)
    ensures a == b
  {
    IdTextRoundTrip(a);
    IdTextRoundTrip(b);
  }
}
