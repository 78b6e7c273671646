/** Removing white space from the ends of a text. */
module Whitespace {

  /** The characters that stripping removes. */
  predicate IsSpace(c: char) {
    c == ' ' || '\U{9}' <= c <= '\U{D}' || '\U{1C}' <= c <= '\U{1F}' || c == '\U{85}' || c == '\U{A0}' ||
    c == '\U{1680}' || '\U{2000}' <= c <= '\U{200A}' || c == '\U{2028}' || c == '\U{2029}' ||
    c == '\U{202F}' || c == '\U{205F}' || c == '\U{3000}'
  }

  /** Where `value[..end].rstrip()` ends. */
  function StripEnd(value: string, end: nat): (r: nat)
    requires end <= |value|
    ensures r <= end
    ensures forall i :: r <= i < end ==> IsSpace(value[i])
    ensures r > 0 ==> !IsSpace(value[r - 1])
  {
    if end > 0 && IsSpace(value[end - 1]) then StripEnd(value, end - 1) else end
  }

  /** Where `value[start..].lstrip()` starts. */
  function StripStart(value: string, start: nat): (r: nat)
    requires start <= |value|
    ensures start <= r <= |value|
    ensures forall i :: start <= i < r ==> IsSpace(value[i])
    ensures r < |value| ==> !IsSpace(value[r])
    decreases |value| - start
  {
    if start < |value| && IsSpace(value[start]) then StripStart(value, start + 1) else start
  }

  function Strip(s: string): string {
    var a := StripStart(s, 0);
    var b := StripEnd(s, |s|);
    if a <= b then s[a..b] else ""
  }

  predicate Trimmed(s: string) {
    s != "" ==> !IsSpace(s[0]) && !IsSpace(s[|s| - 1])
  }

  lemma StripTrims(s: string)
    ensures Trimmed(Strip(s)) && (Trimmed(s) ==> Strip(s) == s)
  {
    hide IsSpace;
    if Trimmed(s) && s != "" {
      assert StripStart(s, 0) == 0 && StripEnd(s, |s|) == |s|;
    }
  }
}
