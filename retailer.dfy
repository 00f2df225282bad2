/** Display-name resolution for the bill list and the "Billed To" block:
    `getRetailerName`, with JavaScript's `String.prototype.trim` written out. */
module RetailerNames {
  import opened Bills

  const UnknownRetailer: string := "Unknown Retailer"

  /** The characters `trim` removes: ECMAScript WhiteSpace (tab, vertical tab,
      form feed, space, no-break space, byte-order mark and every Unicode space
      separator) and LineTerminator (line feed, carriage return, line and
      paragraph separators). */
  predicate IsTrimmable(c: char)
  {
    || c == '\t' || c == '\n' || c == '\U{B}' || c == '\U{C}' || c == '\r' || c == ' '
    || c == '\U{A0}' || c == '\U{1680}' || ('\U{2000}' <= c <= '\U{200A}')
    || c == '\U{2028}' || c == '\U{2029}' || c == '\U{202F}' || c == '\U{205F}'
    || c == '\U{3000}' || c == '\U{FEFF}'
  }

  /** Every character of `s` is one `trim` removes. */
  predicate Blank(s: string)
  {
    forall i :: 0 <= i < |s| ==> IsTrimmable(s[i])
  }

  function TrimStart(s: string): (r: string)
    ensures r == [] <==> Blank(s)
    ensures r != [] ==> !IsTrimmable(r[0])
  {
    if s == [] then []
    else if IsTrimmable(s[0]) then
      var r := TrimStart(s[1..]);
      assert Blank(s[1..]) ==> Blank(s) by {
        if Blank(s[1..]) {
          forall i | 0 <= i < |s| ensures IsTrimmable(s[i]) {
            if i > 0 { assert s[i] == s[1..][i - 1]; }
          }
        }
      }
      r
    else s
  }

  function TrimEnd(s: string): (r: string)
    ensures r == [] <==> Blank(s)
    ensures r != [] ==> !IsTrimmable(r[|r| - 1])
  {
    if s == [] then []
    else if IsTrimmable(s[|s| - 1]) then
      var r := TrimEnd(s[..|s| - 1]);
      assert Blank(s[..|s| - 1]) ==> Blank(s) by {
        if Blank(s[..|s| - 1]) {
          forall i | 0 <= i < |s| ensures IsTrimmable(s[i]) {
            if i < |s| - 1 { assert s[i] == s[..|s| - 1][i]; }
          }
        }
      }
      r
    else s
  }

  /** `s.trim()`. */
  function Trim(s: string): (r: string)
    ensures r == [] <==> Blank(s)
  {
    TrimEnd(TrimStart(s))
  }

  /** A retailer record with a non-empty name (the name itself may be blank). */
  predicate HasRecordName(retailer: Retailer)
  {
    retailer.RetailerRecord? && retailer.name != ""
  }

  /** A bare retailer string with at least one non-whitespace character. */
  predicate HasText(retailer: Retailer)
  {
    retailer.RetailerText? && !Blank(retailer.text)
  }

  /** `getRetailerName(retailer, retailerName)`: the first usable candidate of
      record name, bare string and fallback name, else "Unknown Retailer". */
  function RetailerName(retailer: Retailer, retailerName: string): (name: string)
    ensures |name| > 0
    ensures HasRecordName(retailer) ==> name == retailer.name
    ensures !HasRecordName(retailer) && HasText(retailer) ==> name == retailer.text
    ensures !HasRecordName(retailer) && !HasText(retailer) && !Blank(retailerName) ==> name == retailerName
    ensures !HasRecordName(retailer) && !HasText(retailer) && Blank(retailerName) ==> name == UnknownRetailer
  {
    if retailer.RetailerRecord? && retailer.name != "" then retailer.name
    else if retailer.RetailerText? && Trim(retailer.text) != "" then retailer.text
    else if retailerName != "" && Trim(retailerName) != "" then retailerName
    else UnknownRetailer
  }
}
