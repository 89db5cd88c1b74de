/**
 * Whether text typed into a field must go through the modified UTF-7
 * encoder. Text is a sequence of code points; a surrogate pair of the Java
 * string is one element.
 */
module UnicodeEncoder {

  /** A code point outside ASCII, or the '&' that opens a UTF-7 escape. */
  predicate Special(c: char) {
    c as int > 0x7F || c == '&'
  }

  /** The private-use block Selenium uses for its special keys; those pass through as they are. */
  predicate IsSeleniumKey(c: char) {
    0xE000 <= c as int <= 0xE040
  }

  /** needsEncoding: decided by the first special code point alone. */
  method NeedsEncoding(text: string) returns (r: bool)
    ensures (forall i :: 0 <= i < |text| ==> !Special(text[i])) ==> !r
    ensures forall i :: 0 <= i < |text| && Special(text[i]) && (forall j :: 0 <= j < i ==> !Special(text[j])) ==>
      (r <==> !IsSeleniumKey(text[i]))
  {
    var i := 0;
    while i < |text|
      invariant 0 <= i <= |text|
      invariant forall j :: 0 <= j < i ==> !Special(text[j])
    {
      var cp := text[i];
      if cp as int > 0x7F || cp == '&' {
        return !(cp as int >= 0xE000 && cp as int <= 0xE040);
      }
      i := i + 1;
    }
    return false;
  }
}
