/**
 * The search box of src/pages/SearchBar.tsx: a `query` field overwritten on every change
 * event, and a submit handler that reports `query.trim()`.
 */
module Search {

  /** The code points ECMAScript's String.prototype.trim strips: the WhiteSpace code points
      (tab, vertical tab, form feed, U+FEFF and every space separator) and the
      LineTerminator code points (line feed, carriage return, U+2028, U+2029). */
  predicate IsWhitespace(c: char) {
    c == '\U{0009}' || c == '\U{000B}' || c == '\U{000C}' || c == '\U{FEFF}' ||
    c == '\U{0020}' || c == '\U{00A0}' || c == '\U{1680}' ||
    ('\U{2000}' <= c <= '\U{200A}') || c == '\U{202F}' || c == '\U{205F}' || c == '\U{3000}' ||
    c == '\U{000A}' || c == '\U{000D}' || c == '\U{2028}' || c == '\U{2029}'
  }

  predicate AllWhitespace(s: string) {
    forall i :: 0 <= i < |s| ==> IsWhitespace(s[i])
  }

  /** Neither end of the string is whitespace. */
  predicate Trimmed(s: string) {
    s == [] || (!IsWhitespace(s[0]) && !IsWhitespace(s[|s| - 1]))
  }

  /** Drops the leading whitespace: the result is the suffix that starts at the first
      non-whitespace character. */
  function TrimStart(s: string): (r: string)
    ensures |r| <= |s| && r == s[|s| - |r|..]
    ensures AllWhitespace(s[..|s| - |r|])
    ensures r == [] || !IsWhitespace(r[0])
  {
    if s == [] || !IsWhitespace(s[0]) then s
    else
      var r := TrimStart(s[1..]);
      assert s[|s| - |r|..] == s[1..][|s[1..]| - |r|..];
      var k := |s| - |r|;
      var dropped := s[..k];
      var droppedTail := s[1..][..k - 1];
      assert forall i :: 1 <= i < k ==> dropped[i] == droppedTail[i - 1];
      r
  }

  /** Drops the trailing whitespace: the result is the prefix that ends at the last
      non-whitespace character. */
  function TrimEnd(s: string): (r: string)
    ensures |r| <= |s| && r == s[..|r|]
    ensures AllWhitespace(s[|r|..])
    ensures r == [] || !IsWhitespace(r[|r| - 1])
  {
    if s == [] || !IsWhitespace(s[|s| - 1]) then s
    else
      var r := TrimEnd(s[..|s| - 1]);
      assert forall i :: 0 <= i < |s| - 1 - |r| ==> s[|r|..][i] == s[..|s| - 1][|r|..][i];
      r
  }

  /** `String.prototype.trim`: the result is no longer than the input and has no whitespace
      at either end. */
  function Trim(s: string): (r: string)
    ensures |r| <= |s|
    ensures Trimmed(r)
  {
    var t := TrimStart(s);
    var r := TrimEnd(t);
    assert r != [] ==> r[0] == t[0];
    r
  }

  /** The trimmed query is the contiguous stretch of the input between a whitespace-only
      prefix and a whitespace-only suffix, so every interior character is kept. */
  lemma TrimIsInfix(s: string)
    ensures exists i, j :: 0 <= i <= j <= |s| && Trim(s) == s[i..j] &&
                           AllWhitespace(s[..i]) && AllWhitespace(s[j..])
  {
    var t := TrimStart(s);
    var r := TrimEnd(t);
    var i := |s| - |t|;
    var j := i + |r|;
    assert r == s[i..j];
    assert s[j..] == t[|r|..];
  }

  /** A string with no whitespace at either end is its own trim. */
  lemma TrimOfTrimmed(s: string)
    requires Trimmed(s)
    ensures Trim(s) == s
  {
  }

  /** Trimming twice is trimming once. */
  lemma TrimIdempotent(s: string)
    ensures Trim(Trim(s)) == Trim(s)
  {
    TrimOfTrimmed(Trim(s));
  }

  /** Only an all-whitespace (or empty) query trims to the empty string. */
  lemma TrimEmptyIffWhitespace(s: string)
    ensures Trim(s) == [] <==> AllWhitespace(s)
  {
    var t := TrimStart(s);
    if Trim(s) == [] {
      assert t[|TrimEnd(t)|..] == t;
      assert s[..|s| - |t|] == s;
    }
  }

  class SearchBar {
    /** `useState("")`: the text in the box, exactly as typed. */
    var query: string

    constructor ()
      ensures query == ""
    {
      query := "";
    }

    /** The input's onChange: the query becomes the input's value, untrimmed. */
    method OnChange(value: string)
      modifies this
      ensures query == value
    {
      query := value;
    }

    /** handleSubmit: passes the trimmed query to `onSearch` and changes no state. */
    method HandleSubmit() returns (submitted: string)
      ensures submitted == Trim(query)
      ensures Trimmed(submitted)
      ensures submitted == [] <==> AllWhitespace(query)
    {
      submitted := Trim(query);
      TrimEmptyIffWhitespace(query);
    }
  }
}
