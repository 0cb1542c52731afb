/**
 * The two colour tables: `get_category_color` (hex strings, used by the PDF
 * report) and `get_docx_color` (RGB triples, used by the DOCX report).
 */
module Colours {

  /** An RGB colour with components 0..255. */
  datatype Rgb = Rgb(r: nat, g: nat, b: nat)

  predicate IsByteColour(c: Rgb)
  {
    c.r < 256 && c.g < 256 && c.b < 256
  }

  /** The hex string of `get_category_color`; unknown categories are grey. */
  function CategoryHex(category: string): string
  {
    match category
    case "FALSCH" => "#dc3545"
    case "DELEGITIMIERUNG" => "#fd7e14"
    case "VERZERRUNG" => "#ffc107"
    case "FRAME" => "#28a745"
    case "WAHR" => "#007bff"
    case _ => "#6c757d"
  }

  /** The RGB triple of `get_docx_color`; unknown categories are grey. */
  function DocxColour(category: string): (c: Rgb)
    ensures IsByteColour(c)
  {
    match category
    case "FALSCH" => Rgb(220, 53, 69)
    case "DELEGITIMIERUNG" => Rgb(253, 126, 20)
    case "VERZERRUNG" => Rgb(255, 193, 7)
    case "FRAME" => Rgb(40, 167, 69)
    case "WAHR" => Rgb(0, 123, 255)
    case _ => Rgb(108, 117, 125)
  }

  const HexDigits := "0123456789abcdef"

  /** Two lower-case hex digits for a byte. */
  function HexByte(n: nat): (s: string)
    requires n < 256
    ensures |s| == 2
  {
    [HexDigits[n / 16], HexDigits[n % 16]]
  }

  /** The `#rrggbb` notation of a colour. */
  function HexOf(c: Rgb): (s: string)
    requires IsByteColour(c)
    ensures |s| == 7 && s[0] == '#'
  {
    "#" + HexByte(c.r) + HexByte(c.g) + HexByte(c.b)
  }

  /** The value of a hex digit. */
  function DigitValue(d: char): nat
  {
    if '0' <= d <= '9' then d as nat - '0' as nat
    else if 'a' <= d <= 'f' then d as nat - 'a' as nat + 10
    else 0
  }

  /** Reading a `#rrggbb` string back as a colour. */
  function ParseHex(s: string): (c: Rgb)
    requires |s| == 7
  {
    Rgb(DigitValue(s[1]) * 16 + DigitValue(s[2]),
        DigitValue(s[3]) * 16 + DigitValue(s[4]),
        DigitValue(s[5]) * 16 + DigitValue(s[6]))
  }

  lemma HexByteRoundTrip(n: nat)
    requires n < 256
    ensures DigitValue(HexByte(n)[0]) * 16 + DigitValue(HexByte(n)[1]) == n
  {
    var hi, lo := n / 16, n % 16;
    assert DigitValue(HexDigits[hi]) == hi;
    assert DigitValue(HexDigits[lo]) == lo;
  }

  /** `#rrggbb` notation and parsing are inverse. */
  lemma HexRoundTrip(c: Rgb)
    requires IsByteColour(c)
    ensures ParseHex(HexOf(c)) == c
  {
    HexByteRoundTrip(c.r);
    HexByteRoundTrip(c.g);
    HexByteRoundTrip(c.b);
  }

  /**
   * The two tables agree: every category's hex string is the `#rrggbb` form
   * of its RGB triple, including the grey #6c757d = (108, 117, 125) that both
   * give to unknown categories.
   */
  lemma ColourTablesAgree(category: string)
    ensures CategoryHex(category) == HexOf(DocxColour(category))
    ensures ParseHex(CategoryHex(category)) == DocxColour(category)
  {
    var c := DocxColour(category);
    HexRoundTrip(c);
    if category == "FALSCH" {
      assert HexByte(220) == "dc" && HexByte(53) == "35" && HexByte(69) == "45";
    } else if category == "DELEGITIMIERUNG" {
      assert HexByte(253) == "fd" && HexByte(126) == "7e" && HexByte(20) == "14";
    } else if category == "VERZERRUNG" {
      assert HexByte(255) == "ff" && HexByte(193) == "c1" && HexByte(7) == "07";
    } else if category == "FRAME" {
      assert HexByte(40) == "28" && HexByte(167) == "a7" && HexByte(69) == "45";
    } else if category == "WAHR" {
      assert HexByte(0) == "00" && HexByte(123) == "7b" && HexByte(255) == "ff";
    } else {
      assert HexByte(108) == "6c" && HexByte(117) == "75" && HexByte(125) == "7d";
    }
  }
}
