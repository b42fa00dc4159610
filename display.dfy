/** The edits the calculator makes to its display text when it is not
    starting a fresh number (src/components/Calculator.jsx, `inputNumber`,
    `inputDecimal`, `deleteLast`, `toggleSign`). The handlers in module
    CalculatorEngine are proved to leave exactly these values behind. */
module Display {
  import opened Text

  /** The character `String(d)` gives for a digit 0..9. */
  function DigitChar(d: nat): (c: char)
    requires d <= 9
    ensures '0' <= c <= '9'
    ensures c as int - '0' as int == d
  {
    ('0' as int + d) as char
  }

  /** Typing digit `d`: a lone "0" is replaced, anything else is extended. */
  function DigitEntered(s: string, d: char): (r: string)
    requires '0' <= d <= '9'
    ensures r != [] && r[|r| - 1] == d
    ensures s != "0" ==> r[..|r| - 1] == s
    ensures s == "0" ==> r == [d]
    ensures Count(r, '.') == Count(s, '.')
  {
    if s == "0" then [d]
    else
      CountConcat(s, [d], '.');
      assert (s + [d])[..|s|] == s;
      s + [d]
  }

  /** Typing '.': appended only when the text holds no '.' yet. */
  function DecimalEntered(s: string): (r: string)
    ensures '.' in s ==> r == s
    ensures '.' !in s ==> r == s + "."
    ensures Count(r, '.') == if Count(s, '.') == 0 then 1 else Count(s, '.')
  {
    CountZeroIff(s, '.');
    if IndexOf(s, '.') == -1 then
      CountConcat(s, ".", '.');
      s + "."
    else s
  }

  /** Entering a decimal point twice is the same as entering it once. */
  lemma DecimalEnteredIdempotent(s: string)
    ensures DecimalEntered(DecimalEntered(s)) == DecimalEntered(s)
  {
  }

  /** Backspace: drop the last character of a longer text, otherwise "0". */
  function LastDeleted(s: string): (r: string)
    ensures r != []
    ensures |s| > 1 ==> r + [s[|s| - 1]] == s
    ensures |s| <= 1 ==> r == "0"
    ensures Count(r, '.') <= Count(s, '.')
  {
    if |s| > 1 then
      var r := s[..|s| - 1];
      assert r + [s[|s| - 1]] == s;
      CountConcat(r, [s[|s| - 1]], '.');
      r
    else "0"
  }

  /** The sign key: nothing on "0"; otherwise a leading '-' is stripped or one is added. */
  function SignToggled(s: string): (r: string)
    ensures s == "0" ==> r == s
    ensures s != "0" && |s| > 0 && s[0] == '-' ==> ['-'] + r == s
    ensures s != "0" && (|s| == 0 || s[0] != '-') ==> r == ['-'] + s
    ensures Count(r, '.') == Count(s, '.')
  {
    if s != "0" then
      if |s| > 0 && s[0] == '-' then
        assert s == ['-'] + s[1..];
        CountConcat(['-'], s[1..], '.');
        s[1..]
      else
        CountConcat(['-'], s, '.');
        "-" + s
    else s
  }

  /** Pressing the sign key twice restores the display, except on "-0" (its
      first press gives "0", on which the second press does nothing) and on a
      text that starts with two '-' (the second press strips the next one). */
  lemma SignToggledTwice(s: string)
    ensures SignToggled(SignToggled(s)) == s <==>
              s != "-0" && !(|s| >= 2 && s[0] == '-' && s[1] == '-')
  {
  }
}
