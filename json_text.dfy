/**
 * The two string tests the configuration panel applies to a config edit
 * (components/ConfigurationPanel.tsx, handleConfigChange): `value.trim()` and whether
 * `JSON.parse(value)` succeeds. The recognizer follows the JSON grammar of RFC 8259
 * (sections 2 to 7), which is the grammar JSON.parse accepts.
 */
module JsonText {
  import opened Wrappers

  // ---------------------------------------------------------------------------------------
  // String.prototype.trim

  /** The code points trim removes: ECMAScript WhiteSpace and LineTerminator. */
  predicate IsTrimmable(c: char) {
    c == '\t' || c == '\n' || c == '\U{B}' || c == '\U{C}' || c == '\r' || c == ' ' ||
    c == '\U{A0}' || c == '\U{1680}' || ('\U{2000}' <= c <= '\U{200A}') ||
    c == '\U{2028}' || c == '\U{2029}' || c == '\U{202F}' || c == '\U{205F}' ||
    c == '\U{3000}' || c == '\U{FEFF}'
  }

  /** The text is empty or made only of trimmable code points. */
  predicate IsBlank(s: string) {
    forall i :: 0 <= i < |s| ==> IsTrimmable(s[i])
  }

  function TrimStart(s: string): (r: string)
    ensures |r| <= |s| && r == s[|s| - |r|..]
    ensures r == [] || !IsTrimmable(r[0])
    ensures forall i :: 0 <= i < |s| - |r| ==> IsTrimmable(s[i])
  {
    if s != [] && IsTrimmable(s[0]) then TrimStart(s[1..]) else s
  }

  function TrimEnd(s: string): (r: string)
    ensures |r| <= |s| && r == s[..|r|]
    ensures r == [] || !IsTrimmable(r[|r| - 1])
    ensures forall i :: |r| <= i < |s| ==> IsTrimmable(s[i])
  {
    if s != [] && IsTrimmable(s[|s| - 1]) then TrimEnd(s[..|s| - 1]) else s
  }

  /** `s.trim()`: the text without its leading and trailing trimmable code points. */
  function Trim(s: string): (r: string)
    ensures r == [] <==> IsBlank(s)
    ensures r != [] ==> !IsTrimmable(r[0]) && !IsTrimmable(r[|r| - 1])
  {
    var t := TrimStart(s);
    assert t == [] ==> IsBlank(s);
    TrimEnd(t)
  }

  // ---------------------------------------------------------------------------------------
  // JSON.parse as a recognizer. Each function reads one grammar production starting at
  // position i and returns the position just after it, or None when the text does not match.

  /** Insignificant whitespace between JSON tokens (RFC 8259 section 2). */
  predicate IsJsonWs(c: char) {
    c == ' ' || c == '\t' || c == '\n' || c == '\r'
  }

  predicate IsDigit(c: char) {
    '0' <= c <= '9'
  }

  predicate IsHexDigit(c: char) {
    IsDigit(c) || ('a' <= c <= 'f') || ('A' <= c <= 'F')
  }

  /** The characters a JSON value can start with. */
  predicate StartsValue(c: char) {
    c == '{' || c == '[' || c == '"' || c == 't' || c == 'f' || c == 'n' || c == '-' || IsDigit(c)
  }

  function SkipWs(s: string, i: nat): (j: nat)
    requires i <= |s|
    ensures i <= j <= |s|
    ensures forall k :: i <= k < j ==> IsJsonWs(s[k])
    ensures j == |s| || !IsJsonWs(s[j])
    decreases |s| - i
  {
    if i < |s| && IsJsonWs(s[i]) then SkipWs(s, i + 1) else i
  }

  function Digits(s: string, i: nat): (j: nat)
    requires i <= |s|
    ensures i <= j <= |s|
    ensures forall k :: i <= k < j ==> IsDigit(s[k])
    ensures j == |s| || !IsDigit(s[j])
    decreases |s| - i
  {
    if i < |s| && IsDigit(s[i]) then Digits(s, i + 1) else i
  }

  /** An optional fraction: "." followed by at least one digit. */
  function Fraction(s: string, i: nat): (r: Option<nat>)
    requires i <= |s|
    ensures r.Some? ==> i <= r.value <= |s|
  {
    if i < |s| && s[i] == '.' then
      var d := Digits(s, i + 1);
      if d == i + 1 then None else Some(d)
    else Some(i)
  }

  /** An optional exponent: "e" or "E", an optional sign, at least one digit. */
  function Exponent(s: string, i: nat): (r: Option<nat>)
    requires i <= |s|
    ensures r.Some? ==> i <= r.value <= |s|
  {
    if i < |s| && (s[i] == 'e' || s[i] == 'E') then
      var a := if i + 1 < |s| && (s[i + 1] == '+' || s[i + 1] == '-') then i + 2 else i + 1;
      var d := Digits(s, a);
      if d == a then None else Some(d)
    else Some(i)
  }

  /** A number: an optional minus, "0" or a digit run not starting with 0, fraction, exponent. */
  function Number(s: string, i: nat): (r: Option<nat>)
    requires i <= |s|
    ensures r.Some? ==> i < r.value <= |s|
  {
    var a := if i < |s| && s[i] == '-' then i + 1 else i;
    if a == |s| || !IsDigit(s[a]) then None
    else
      var b := if s[a] == '0' then a + 1 else Digits(s, a);
      match Fraction(s, b)
      case None => None
      case Some(c) => Exponent(s, c)
  }

  /** The rest of a string after its opening quote, up to and including the closing quote. */
  function StringBody(s: string, i: nat): (r: Option<nat>)
    requires i <= |s|
    ensures r.Some? ==> i < r.value <= |s|
    decreases |s| - i
  {
    if i == |s| then None
    else if s[i] == '"' then Some(i + 1)
    else if s[i] == '\\' then
      if i + 1 == |s| then None
      else if s[i + 1] in "\"\\/bfnrt" then StringBody(s, i + 2)
      else if s[i + 1] == 'u' && i + 6 <= |s| && (forall k :: i + 2 <= k < i + 6 ==> IsHexDigit(s[k]))
      then StringBody(s, i + 6)
      else None
    else if s[i] < ' ' then None
    else StringBody(s, i + 1)
  }

  /** One of the literal names true, false and null. */
  function Literal(s: string, i: nat, word: string): (r: Option<nat>)
    requires i <= |s| && word != []
    ensures r.Some? ==> i < r.value <= |s|
  {
    if i + |word| <= |s| && s[i..i + |word|] == word then Some(i + |word|) else None
  }

  /** A value with the whitespace around it. */
  function Element(s: string, i: nat): (r: Option<nat>)
    requires i <= |s|
    ensures r.Some? ==> i < r.value <= |s|
    ensures r.Some? ==> SkipWs(s, i) < |s| && StartsValue(s[SkipWs(s, i)])
    decreases |s| - i, 1
  {
    match Value(s, SkipWs(s, i))
    case None => None
    case Some(k) => Some(SkipWs(s, k))
  }

  /** A value, starting at its first character. */
  function Value(s: string, i: nat): (r: Option<nat>)
    requires i <= |s|
    ensures r.Some? ==> i < r.value <= |s| && StartsValue(s[i])
    decreases |s| - i, 0
  {
    if i == |s| then None
    else if s[i] == '{' then Object(s, i + 1)
    else if s[i] == '[' then ArrayBody(s, i + 1)
    else if s[i] == '"' then StringBody(s, i + 1)
    else if s[i] == 't' then Literal(s, i, "true")
    else if s[i] == 'f' then Literal(s, i, "false")
    else if s[i] == 'n' then Literal(s, i, "null")
    else if s[i] == '-' || IsDigit(s[i]) then Number(s, i)
    else None
  }

  /** The rest of an object after its "{". */
  function Object(s: string, i: nat): (r: Option<nat>)
    requires i <= |s|
    ensures r.Some? ==> i < r.value <= |s|
    decreases |s| - i, 1
  {
    var j := SkipWs(s, i);
    if j < |s| && s[j] == '}' then Some(j + 1) else Members(s, j)
  }

  /** One or more `"name": value` members separated by commas, then the closing "}". */
  function Members(s: string, i: nat): (r: Option<nat>)
    requires i <= |s|
    ensures r.Some? ==> i < r.value <= |s|
    decreases |s| - i, 0
  {
    var j := SkipWs(s, i);
    if j == |s| || s[j] != '"' then None
    else match StringBody(s, j + 1)
      case None => None
      case Some(k) =>
        var c := SkipWs(s, k);
        if c == |s| || s[c] != ':' then None
        else match Element(s, c + 1)
          case None => None
          case Some(m) =>
            if m < |s| && s[m] == ',' then Members(s, m + 1)
            else if m < |s| && s[m] == '}' then Some(m + 1)
            else None
  }

  /** The rest of an array after its "[". */
  function ArrayBody(s: string, i: nat): (r: Option<nat>)
    requires i <= |s|
    ensures r.Some? ==> i < r.value <= |s|
    decreases |s| - i, 3
  {
    var j := SkipWs(s, i);
    if j < |s| && s[j] == ']' then Some(j + 1) else Elements(s, i)
  }

  /** One or more elements separated by commas, then the closing "]". */
  function Elements(s: string, i: nat): (r: Option<nat>)
    requires i <= |s|
    ensures r.Some? ==> i < r.value <= |s|
    decreases |s| - i, 2
  {
    match Element(s, i)
    case None => None
    case Some(m) =>
      if m < |s| && s[m] == ',' then Elements(s, m + 1)
      else if m < |s| && s[m] == ']' then Some(m + 1)
      else None
  }

  /** JSON.parse(s) succeeds: the whole text is one JSON element. */
  predicate IsJson(s: string)
    ensures IsJson(s) ==> SkipWs(s, 0) < |s| && StartsValue(s[SkipWs(s, 0)])
  {
    match Element(s, 0)
    case Some(k) => k == |s|
    case None => false
  }

  /** JSON text is never blank, so the two ways a config edit is accepted do not overlap. */
  lemma JsonIsNotBlank(s: string)
    requires IsJson(s)
    ensures !IsBlank(s)
  {
    var j := SkipWs(s, 0);
    assert StartsValue(s[j]);
    assert !IsTrimmable(s[j]);
  }
}
