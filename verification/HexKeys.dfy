/** Hex keys as the stores compare them. Characters are UTF-16 code units. */
module HexKeys {
  /** White space and line terminators of ECMAScript. */
  predicate IsSpace(c: char) {
    || '\t' <= c <= '\r' || c == ' ' || c == '\U{00A0}' || c == '\U{1680}' || '\U{2000}' <= c <= '\U{200A}'
    || c == '\U{2028}' || c == '\U{2029}' || c == '\U{202F}' || c == '\U{205F}' || c == '\U{3000}' || c == '\U{FEFF}'
  }

  predicate IsHexLower(c: char) { '0' <= c <= '9' || 'a' <= c <= 'f' }

  function LowerChar(c: char): char { if 'A' <= c <= 'Z' then (c as int + 32) as char else c }

  function Lower(s: string): (r: string)
    ensures |r| == |s|
    ensures forall i | 0 <= i < |s| :: r[i] == LowerChar(s[i])
  {
    seq(|s|, i requires 0 <= i < |s| => LowerChar(s[i]))
  }

  function TrimStart(s: string): string {
    if s != "" && IsSpace(s[0]) then TrimStart(s[1..]) else s
  }

  function TrimEnd(s: string): string {
    if s != "" && IsSpace(s[|s| - 1]) then TrimEnd(s[..|s| - 1]) else s
  }

  function Trim(s: string): string { TrimEnd(TrimStart(s)) }

  predicate AllSpace(s: string) { forall i | 0 <= i < |s| :: IsSpace(s[i]) }

  /** What is trimmed is white space, all of it at either end, and nothing else. */
  lemma {:induction false} TrimStartIsExact(s: string) returns (lead: string)
    ensures s == lead + TrimStart(s) && AllSpace(lead) && (TrimStart(s) != "" ==> !IsSpace(TrimStart(s)[0]))
  {
    lead := "";
    if s != "" && IsSpace(s[0]) {
      var more := TrimStartIsExact(s[1..]);
      lead := [s[0]] + more;
      assert s == [s[0]] + s[1..];
    }
  }

  lemma {:induction false} TrimEndIsExact(s: string) returns (trail: string)
    ensures s == TrimEnd(s) + trail && AllSpace(trail) && (TrimEnd(s) != "" ==> !IsSpace(TrimEnd(s)[|TrimEnd(s)| - 1]))
  {
    trail := "";
    if s != "" && IsSpace(s[|s| - 1]) {
      var more := TrimEndIsExact(s[..|s| - 1]);
      trail := more + [s[|s| - 1]];
      assert s == s[..|s| - 1] + [s[|s| - 1]];
    }
  }

  lemma TrimIsExact(s: string) returns (lead: string, trail: string)
    ensures s == lead + Trim(s) + trail && AllSpace(lead) && AllSpace(trail)
    ensures Trim(s) != "" ==> !IsSpace(Trim(s)[0]) && !IsSpace(Trim(s)[|Trim(s)| - 1])
  {
    lead := TrimStartIsExact(s);
    trail := TrimEndIsExact(TrimStart(s));
    assert TrimStart(s) == Trim(s) + trail;
    hide TrimStart, TrimEnd;
  }

  /** Nothing is left exactly of white space. */
  lemma TrimOfSpace(s: string)
    ensures Trim(s) == "" <==> AllSpace(s)
  {
    var lead, trail := TrimIsExact(s);
    if Trim(s) == "" {
      assert s == lead + trail;
    } else {
      assert s[|lead|] == Trim(s)[0];
    }
  }

  predicate IsHex(s: string, length: nat) {
    |s| == length && forall i | 0 <= i < |s| :: IsHexLower(s[i])
  }

  /** Hex of the given length has nothing to trim or to lower. */
  lemma HexIsNormal(s: string, length: nat)
    requires IsHex(s, length)
    ensures Trim(s) == s && Lower(s) == s
  {
  }

  /** What lowers to hex has no space to trim. */
  lemma LowersToHex(s: string, length: nat)
    requires IsHex(Lower(s), length)
    ensures Trim(s) == s
  {
  }
}
