/** Break type names: the one well-formedness rule shared by configuration and wire protocol. */
module Names {

  /** The characters with the Unicode White_Space property, which is what trimming removes. */
  predicate IsWhitespace(c: char) {
    || ('\U{9}' <= c <= '\U{D}')
    || c == ' '
    || c == '\U{85}'
    || c == '\U{A0}'
    || c == '\U{1680}'
    || ('\U{2000}' <= c <= '\U{200A}')
    || c == '\U{2028}'
    || c == '\U{2029}'
    || c == '\U{202F}'
    || c == '\U{205F}'
    || c == '\U{3000}'
  }

  function TrimStart(s: string): (t: string)
    ensures |t| <= |s|
    ensures s != "" && !IsWhitespace(s[0]) ==> t == s
    ensures t != "" ==> !IsWhitespace(t[0])
  {
    if s != "" && IsWhitespace(s[0]) then TrimStart(s[1..]) else s
  }

  function TrimEnd(s: string): (t: string)
    ensures |t| <= |s|
    ensures s != "" && !IsWhitespace(s[|s| - 1]) ==> t == s
    ensures t != "" ==> !IsWhitespace(t[|t| - 1])
    ensures t <= s
  {
    if s != "" && IsWhitespace(s[|s| - 1]) then TrimEnd(s[..|s| - 1]) else s
  }

  function Trim(s: string): string { TrimEnd(TrimStart(s)) }

  /** The test both validators apply: non-empty and unchanged by trimming. */
  predicate ValidName(name: string) { name != "" && Trim(name) == name }

  /** What the test accepts, without running the trim loops. */
  lemma ValidNameMeans(name: string)
    ensures ValidName(name) <==> name != "" && !IsWhitespace(name[0]) && !IsWhitespace(name[|name| - 1])
  {
    if name != "" && IsWhitespace(name[0]) {
      assert |TrimStart(name)| < |name|;
    } else if name != "" {
      assert TrimStart(name) == name;
      if IsWhitespace(name[|name| - 1]) {
        assert |TrimEnd(name)| < |name|;
      }
    }
  }
}
