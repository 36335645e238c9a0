/**
 * The `Text` component's own encoding helpers: the custom serialization of its
 * `style` union, the debugging details it reports, and its `repr`.
 *
 * `TextStyle` is an entity of its own whose serialization lives elsewhere; it is
 * the type parameter `S` here, and its serializer is passed in. The horizontal
 * alignment `_text_align` is computed elsewhere and is passed in as a value.
 */
module TextComponent {
  import opened Common
  import opened JsonValues

  /** The `style` attribute: one of the preset names, or a full `TextStyle`. */
  datatype Style<S> = Preset(name: string) | Custom(textStyle: S)

  /** The attributes of a `Text` that the model reads; `selectable` and `justify` are read by no modelled operation, and `_text_align`, defined elsewhere, is passed in. */
  datatype Text<S> = Text(id: nat, text: string, style: Style<S>)

  /**
   * `_custom_serialize`: the attributes the generic serializer cannot encode.
   * A preset goes out as its name, a `TextStyle` as its own serialization.
   */
  function CustomSerialize<S>(t: Text<S>, textAlign: Json, serializeTextStyle: S -> JsonDoc): (doc: JsonDoc)
    ensures doc.Keys == {"style", "text_align"}
    ensures doc["text_align"] == textAlign
    ensures t.style.Preset? ==> doc["style"] == Str(t.style.name)
    ensures t.style.Custom? ==> doc["style"] == Obj(serializeTextStyle(t.style.textStyle))
  {
    var style := match t.style
      case Preset(name) => Str(name)
      case Custom(textStyle) => Obj(serializeTextStyle(textStyle));
    map["style" := style, "text_align" := textAlign]
  }

  /** What the frontend can read back from the `style` entry: the preset's name, or a style object. */
  function DecodeStyle(encoded: Json): (style: Option<Style<JsonDoc>>)
    ensures encoded.Str? ==> style == Some(Preset(encoded.s))
    ensures encoded.Obj? ==> style == Some(Custom(encoded.fields))
    ensures !encoded.Str? && !encoded.Obj? ==> style == None
  {
    match encoded
    case Str(name) => Some(Preset(name))
    case Obj(fields) => Some(Custom(fields))
    case _ => None
  }

  /** The tagged encoding round-trips: the variant, and a preset's name, are recovered from the output. */
  lemma StyleEncodingRoundTrip<S>(t: Text<S>, textAlign: Json, serializeTextStyle: S -> JsonDoc)
    ensures var decoded := DecodeStyle(CustomSerialize(t, textAlign, serializeTextStyle)["style"]);
      match t.style
      case Preset(name) => decoded == Some(Preset(name))
      case Custom(textStyle) => decoded == Some(Custom(serializeTextStyle(textStyle)))
  {
  }

  /**
   * `get_debug_details`: the parent's details with `align_x` replaced by the
   * text alignment; nothing else changes.
   */
  function GetDebugDetails(parentDetails: map<string, Json>, textAlign: Json): (details: map<string, Json>)
    ensures details.Keys == parentDetails.Keys + {"align_x"}
    ensures details["align_x"] == textAlign
    ensures forall key :: key in parentDetails && key != "align_x" ==> details[key] == parentDetails[key]
  {
    parentDetails["align_x" := textAlign]
  }

  /** Texts longer than this are truncated in `repr`. */
  const ReprTextLimit := 40

  /** The text `repr` shows: the first 40 characters and `...` when it is longer, otherwise all of it. */
  function ShownText(text: string): (shown: string)
    ensures |shown| <= ReprTextLimit + 3
    ensures |text| <= ReprTextLimit ==> shown == text
    ensures |text| > ReprTextLimit ==>
      |shown| == ReprTextLimit + 3 && StartsWith(shown, text[..ReprTextLimit]) && shown[ReprTextLimit..] == "..."
  {
    if |text| > ReprTextLimit then text[..ReprTextLimit] + "..." else text
  }

  /** `ShownText` always starts with a prefix of the original text: at most its first 40 characters. */
  lemma ShownTextStartsWithOriginal(text: string)
    ensures var kept := if |text| <= ReprTextLimit then |text| else ReprTextLimit;
      StartsWith(ShownText(text), text[..kept])
  {
  }

  /** Decimal digits of a non-negative number, as `str(n)` writes them. */
  function DecimalString(n: nat): (digits: string)
    ensures |digits| >= 1
    ensures forall i :: 0 <= i < |digits| ==> '0' <= digits[i] <= '9'
  {
    var last := ('0' as int + n % 10) as char;
    if n < 10 then [last] else DecimalString(n / 10) + [last]
  }

  /** The number a string of decimal digits denotes, most significant digit first. */
  function DigitsValue(digits: string): nat
    requires forall i :: 0 <= i < |digits| ==> '0' <= digits[i] <= '9'
  {
    if digits == [] then 0
    else DigitsValue(digits[..|digits| - 1]) * 10 + (digits[|digits| - 1] as int - '0' as int)
  }

  /** `DecimalString` writes exactly `n`, without leading zeros. */
  lemma {:induction false} DecimalStringDenotes(n: nat)
    ensures DigitsValue(DecimalString(n)) == n
    ensures |DecimalString(n)| == 1 || DecimalString(n)[0] != '0'
  {
    if n >= 10 {
      var digits := DecimalString(n);
      var prefix := DecimalString(n / 10);
      assert digits[..|digits| - 1] == prefix;
      DecimalStringDenotes(n / 10);
      if n / 10 < 10 {
        assert prefix[0] as int == '0' as int + n / 10;
      }
      assert digits[0] == prefix[0];
    }
  }

  /**
   * `repr(text)`: `<TypeName id:N text:R>` where `N` is the id's decimal digits and
   * `R` is Python's quoting of the shown text, a builtin passed in as `quote`.
   */
  function Repr<S>(typeName: string, t: Text<S>, quote: string -> string): (r: string)
    ensures var head := "<" + typeName + " id:";
      var id := DecimalString(t.id);
      var tail := " text:" + quote(ShownText(t.text)) + ">";
      && |r| == |head| + |id| + |tail|
      && StartsWith(r, head)
      && r[|head|..|head| + |id|] == id
      && EndsWith(r, tail)
  {
    "<" + typeName + " id:" + DecimalString(t.id) + " text:" + quote(ShownText(t.text)) + ">"
  }

  /** The id can be read back from a `repr`: the digits right after `id:` denote it. */
  lemma ReprShowsId<S>(typeName: string, t: Text<S>, quote: string -> string)
    ensures var head := "<" + typeName + " id:";
      var r := Repr(typeName, t, quote);
      var k := |DecimalString(t.id)|;
      |head| + k <= |r| && DigitsValue(r[|head|..|head| + k]) == t.id
  {
    DecimalStringDenotes(t.id);
  }

  /** Texts that are both longer than 40 characters and agree on their first 40 have the same `repr`. */
  lemma ReprSeesOnlyFirstCharacters<S>(typeName: string, a: Text<S>, b: Text<S>, quote: string -> string)
    requires a.id == b.id
    requires |a.text| > ReprTextLimit && |b.text| > ReprTextLimit
    requires a.text[..ReprTextLimit] == b.text[..ReprTextLimit]
    ensures Repr(typeName, a, quote) == Repr(typeName, b, quote)
  {
  }
}
