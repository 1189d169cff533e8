/** Client strings as sequences of UTF-16 code units, and the byte bound on streamed text. */
module Text {
  type CodeUnit = u: int | 0 <= u < 0x1_0000

  type Text = seq<CodeUnit>

  const MAX_TEXT_BYTES := 256 * 1024

  predicate IsHighSurrogate(u: CodeUnit) {
    0xD800 <= u < 0xDC00
  }

  predicate IsLowSurrogate(u: CodeUnit) {
    0xDC00 <= u < 0xE000
  }

  /** Bytes of the UTF-8 encoding (section 3 of RFC 3629). A surrogate pair takes four bytes; a lone
      surrogate is encoded as U+FFFD, which takes three. */
  function Utf8Length(text: Text): nat {
    if text == [] then 0
    else if text[0] < 0x80 then 1 + Utf8Length(text[1..])
    else if text[0] < 0x800 then 2 + Utf8Length(text[1..])
    else if IsHighSurrogate(text[0]) && |text| > 1 && IsLowSurrogate(text[1]) then 4 + Utf8Length(text[2..])
    else 3 + Utf8Length(text[1..])
  }

  /** Cut the text to nine tenths of its length until it fits. The head is what survives. */
  function ClampText(text: Text): (out: Text)
    ensures out <= text
    ensures Utf8Length(out) <= MAX_TEXT_BYTES
    ensures Utf8Length(text) <= MAX_TEXT_BYTES <==> out == text
    ensures out != text ==>
              exists cut :: 0 < cut <= |text| && Utf8Length(text[..cut]) > MAX_TEXT_BYTES && |out| == cut * 9 / 10
    decreases |text|
  {
    if Utf8Length(text) <= MAX_TEXT_BYTES then text
    else
      var shorter := text[..|text| * 9 / 10];
      var out := ClampText(shorter);
      assert text[..|text|] == text;
      assert forall cut :: 0 < cut <= |shorter| ==> shorter[..cut] == text[..cut];
      assert out == shorter ==> |out| == |text| * 9 / 10;
      out
  }

  method Clamp(text: Text) returns (out: Text)
    ensures out == ClampText(text)
  {
    if Utf8Length(text) <= MAX_TEXT_BYTES {
      return text;
    }
    out := text;
    while |out| > 0 && Utf8Length(out) > MAX_TEXT_BYTES
      invariant ClampText(out) == ClampText(text)
      decreases |out|
    {
      out := out[..|out| * 9 / 10];
    }
  }
}
