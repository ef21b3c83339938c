/** The glob-to-regular-expression compiler of `sourcePolicy.ts` and what its regular expressions accept. */
module SourceGlob {
  import opened Wrappers

  // Regular expressions: the part of ECMAScript patterns that the compiler may produce, and its neighbourhood

  datatype Regex =
    | Empty
    | Char(c: char)
    | Any                          // .
    | NotSlash                     // [^/]
    | Star(body: Regex)
    | Optional(body: Regex)
    | Seq(first: Regex, rest: Regex)
    | Alt(left: Regex, right: Regex)

  predicate LineTerminator(c: char) { c == '\n' || c == '\r' || c == '\U{2028}' || c == '\U{2029}' }

  /** The strings that a regular expression matches from start to end. */
  predicate Accepts(r: Regex, s: string)
    decreases r, |s|
  {
    match r
    case Empty => s == ""
    case Char(c) => s == [c]
    case Any => |s| == 1 && !LineTerminator(s[0])
    case NotSlash => |s| == 1 && s[0] != '/'
    case Star(body) => s == "" || exists k :: 0 < k <= |s| && Accepts(body, s[..k]) && Accepts(r, s[k..])
    case Optional(body) => s == "" || Accepts(body, s)
    case Seq(first, rest) => exists k :: 0 <= k <= |s| && Accepts(first, s[..k]) && Accepts(rest, s[k..])
    case Alt(left, right) => Accepts(left, s) || Accepts(right, s)
  }

  predicate Syntax(c: char) { c in ".*+?^${}()|[]\\" }

  /** Characters that stand for themselves; a lone `}` does. */
  predicate Plain(c: char) { !Syntax(c) || c == '}' }

  /** What may not follow an atom or a quantifier. */
  predicate Repeats(s: string) { s != "" && s[0] in "*+?{" }

  type Parsed = Option<(Regex, string)>

  /** Every parser answers the expression it read and the text behind it. */
  function ParseAtom(s: string): (p: Parsed)
    ensures p.Some? ==> |p.value.1| < |s|
    decreases |s|, 0
  {
    if s == "" then None
    else if s[0] == '.' then Some((Any, s[1..]))
    else if s[0] == '[' then if "[^/]" <= s then Some((NotSlash, s[4..])) else None
    else if s[0] == '\\' then if |s| > 1 && Syntax(s[1]) then Some((Char(s[1]), s[2..])) else None
    else if s[0] == '(' then
      if "(?:" <= s then
        var body := ParseDisjunction(s[3..]);
        if body.Some? && ")" <= body.value.1 then Some((body.value.0, body.value.1[1..])) else None
      else None
    else if Plain(s[0]) then Some((Char(s[0]), s[1..]))
    else None
  }

  function ParseTerm(s: string): (p: Parsed)
    ensures p.Some? ==> |p.value.1| < |s|
    decreases |s|, 1
  {
    var atom := ParseAtom(s);
    if atom.None? then None
    else
      var (r, rest) := atom.value;
      if rest != "" && (rest[0] == '*' || rest[0] == '?') then
        if Repeats(rest[1..]) then None
        else Some((if rest[0] == '*' then Star(r) else Optional(r), rest[1..]))
      else if Repeats(rest) then None
      else Some((r, rest))
  }

  function ParseAlternative(s: string): (p: Parsed)
    ensures p.Some? ==> |p.value.1| <= |s|
    decreases |s|, 2
  {
    if s == "" || s[0] in "|)$" then Some((Empty, s))
    else
      var term := ParseTerm(s);
      if term.None? then None
      else
        var others := ParseAlternative(term.value.1);
        if others.None? then None else Some((Seq(term.value.0, others.value.0), others.value.1))
  }

  function ParseDisjunction(s: string): (p: Parsed)
    ensures p.Some? ==> |p.value.1| <= |s|
    decreases |s|, 3
  {
    var left := ParseAlternative(s);
    if left.None? || !("|" <= left.value.1) then left
    else
      var right := ParseDisjunction(left.value.1[1..]);
      if right.None? then None else Some((Alt(left.value.0, right.value.0), right.value.1))
  }

  /** A pattern anchored at both ends. */
  function ParsePattern(s: string): Option<Regex> {
    if !("^" <= s) then None
    else
      var body := ParseDisjunction(s[1..]);
      if body.Some? && body.value.1 == "$" then Some(body.value.0) else None
  }

  // Library calls of the compiler

  /** `indexOf('}', from)`. */
  function CloseAt(p: string, from: nat): (end: Option<nat>)
    requires from <= |p|
    ensures end.Some? ==> from <= end.value < |p| && p[end.value] == '}' && forall i | from <= i < end.value :: p[i] != '}'
    ensures end.None? ==> forall i | from <= i < |p| :: p[i] != '}'
    decreases |p| - from
  {
    if from == |p| then None else if p[from] == '}' then Some(from) else CloseAt(p, from + 1)
  }

  /** `split(',')`. */
  function SplitCommas(s: string): (parts: seq<string>)
    ensures |parts| > 0
  {
    if s == "" then [""]
    else
      var parts := SplitCommas(s[1..]);
      if s[0] == ',' then [""] + parts else [[s[0]] + parts[0]] + parts[1..]
  }

  function WithCommas(parts: seq<string>): string {
    if parts == [] then "" else if |parts| == 1 then parts[0] else parts[0] + "," + WithCommas(parts[1..])
  }

  /** No part holds a comma, and commas between the parts give back the string. */
  lemma {:induction false} SplitRoundTrips(s: string)
    ensures WithCommas(SplitCommas(s)) == s
    ensures forall i | 0 <= i < |SplitCommas(s)| :: ',' !in SplitCommas(s)[i]
  {
    if s != "" {
      SplitRoundTrips(s[1..]);
      assert s == [s[0]] + s[1..];
    }
  }

  /** No other comma-free parts do. */
  lemma {:induction false} SplitIsOnly(parts: seq<string>)
    requires parts != [] && forall i | 0 <= i < |parts| :: ',' !in parts[i]
    ensures SplitCommas(WithCommas(parts)) == parts
    decreases |parts|, |parts[0]|
  {
    var s := WithCommas(parts);
    if parts[0] != "" {
      var rest := [parts[0][1..]] + parts[1..];
      assert rest[1..] == parts[1..];
      assert parts[0] == [parts[0][0]] + rest[0];
      assert s == [parts[0][0]] + WithCommas(rest);
      SplitIsOnly(rest);
      assert parts == [[s[0]] + rest[0]] + rest[1..];
    } else if |parts| > 1 {
      assert s == "," + WithCommas(parts[1..]);
      SplitIsOnly(parts[1..]);
      assert parts == [""] + parts[1..];
    }
  }

  function Escaped(s: string): string {
    if s == "" then "" else (if Syntax(s[0]) then ['\\', s[0]] else [s[0]]) + Escaped(s[1..])
  }

  /** The escaped alternatives, joined by `|`. */
  function Joined(alts: seq<string>): string
    requires |alts| > 0
  {
    if |alts| == 1 then Escaped(alts[0]) else Escaped(alts[0]) + "|" + Joined(alts[1..])
  }

  // The compiler, one construct at a time

  datatype Piece = DeepDirs | Deep | Star_ | One | Braces(alts: seq<string>) | Literal(c: char)

  /** The construct at the head of a pattern and its length. */
  function Head(p: string): (h: (Piece, nat))
    requires p != ""
    ensures 0 < h.1 <= |p|
  {
    if "**/" <= p then (DeepDirs, 3)
    else if "**" <= p then (Deep, 2)
    else if p[0] == '*' then (Star_, 1)
    else if p[0] == '?' then (One, 1)
    else if p[0] == '{' && CloseAt(p, 0).Some? then
      var end := CloseAt(p, 0).value;
      (Braces(SplitCommas(p[1..end])), end + 1)
    else (Literal(p[0]), 1)
  }

  function Text(piece: Piece): string {
    match piece
    case DeepDirs => "(?:.*/)?"
    case Deep => ".*"
    case Star_ => "[^/]*"
    case One => "[^/]"
    case Braces(alts) => if |alts| > 0 then "(?:" + Joined(alts) + ")" else "(?:)"
    case Literal(c) => if c == '{' || c in "\\.[]()+|^$" then ['\\', c] else [c]
  }

  function Body(p: string): string {
    if p == "" then "" else Text(Head(p).0) + Body(p[Head(p).1..])
  }

  /** One construct further along a pattern. */
  lemma BodyAt(p: string, i: nat)
    requires i < |p|
    ensures i + Head(p[i..]).1 <= |p|
    ensures Body(p[i..]) == Text(Head(p[i..]).0) + Body(p[i + Head(p[i..]).1..])
  {
  }

  predicate StarAt(p: string, i: nat) { i < |p| && p[i] == '*' }

  /** The construct at a position, by the characters the loop looks at. */
  lemma HeadAt(p: string, i: nat)
    requires i < |p|
    ensures Head(p[i..]) ==
            if StarAt(p, i) && StarAt(p, i + 1) then
              if i + 2 < |p| && p[i + 2] == '/' then (DeepDirs, 3) else (Deep, 2)
            else if StarAt(p, i) then (Star_, 1)
            else if p[i] == '?' then (One, 1)
            else if p[i] == '{' && CloseAt(p, i).Some? then
              (Braces(SplitCommas(p[i + 1..CloseAt(p, i).value])), CloseAt(p, i).value + 1 - i)
            else (Literal(p[i]), 1)
  {
    var tail := p[i..];
    assert ("**" <= tail) == (StarAt(p, i) && StarAt(p, i + 1));
    assert ("**/" <= tail) == (StarAt(p, i) && StarAt(p, i + 1) && i + 2 < |p| && p[i + 2] == '/');
    if p[i] == '{' {
      CloseOfTail(p, i, i);
      if CloseAt(p, i).Some? { assert p[i + 1..CloseAt(p, i).value] == tail[1..CloseAt(p, i).value - i]; }
    }
  }

  /** `globToRegExp`. */
  method GlobToRegExp(pattern: string) returns (out: string)
    ensures out == "^" + Body(pattern) + "$"
  {
    hide Head, Body, CloseAt, Text, SplitCommas, Joined;
    var i := 0;
    out := "^";
    while i < |pattern|
      invariant 0 <= i <= |pattern|
      invariant out + Body(pattern[i..]) == "^" + Body(pattern)
    {
      HeadAt(pattern, i);
      BodyAt(pattern, i);
      var text, width := NextPiece(pattern, i);
      assert (out + text) + Body(pattern[i + width..]) == out + Body(pattern[i..]);
      out := out + text;
      i := i + width;
    }
    EmptyBody(pattern[i..]);
    out := out + "$";
  }

  lemma EmptyBody(p: string)
    requires p == ""
    ensures Body(p) == ""
  {
  }

  /** One turn of the loop: the text it appends and how far it moves. */
  method NextPiece(pattern: string, i: nat) returns (text: string, width: nat)
    requires i < |pattern|
    ensures text == Text(Head(pattern[i..]).0) && width == Head(pattern[i..]).1
  {
    hide Head, Body, CloseAt;
    HeadAt(pattern, i);
    var ch := pattern[i];
    if ch == '*' && i + 1 < |pattern| && pattern[i + 1] == '*' {
      if i + 2 < |pattern| && pattern[i + 2] == '/' { return "(?:.*/)?", 3; }
      return ".*", 2;
    }
    if ch == '*' { return "[^/]*", 1; }
    if ch == '?' { return "[^/]", 1; }
    if ch == '{' {
      var end := CloseAt(pattern, i);
      if end.None? { return "\\{", 1; }
      return "(?:" + Joined(SplitCommas(pattern[i + 1..end.value])) + ")", end.value + 1 - i;
    }
    return if ch in "\\.[]()+|^$" then ['\\', ch] else [ch], 1;
  }

  lemma {:induction false} CloseOfTail(p: string, i: nat, from: nat)
    requires i <= from <= |p|
    ensures CloseAt(p, from).Some? <==> CloseAt(p[i..], from - i).Some?
    ensures CloseAt(p, from).Some? ==> CloseAt(p[i..], from - i).value == CloseAt(p, from).value - i
    decreases |p| - from
  {
    if from < |p| {
      assert p[i..][from - i] == p[from];
      if p[from] != '}' { CloseOfTail(p, i, from + 1); }
    }
  }

  // The meaning of a pattern

  predicate NoSlash(s: string) { forall i | 0 <= i < |s| :: s[i] != '/' }

  /** Direct reading of a glob: what each construct at the head may consume. */
  predicate Consumes(piece: Piece, s: string) {
    match piece
    case DeepDirs => s == "" || s[|s| - 1] == '/'
    case Deep => true
    case Star_ => NoSlash(s)
    case One => |s| == 1 && s[0] != '/'
    case Braces(alts) => s in alts
    case Literal(c) => s == [c]
  }

  predicate GlobMatches(p: string, path: string)
    decreases |p|
  {
    if p == "" then path == ""
    else exists k :: 0 <= k <= |path| && Consumes(Head(p).0, path[..k]) && GlobMatches(p[Head(p).1..], path[k..])
  }

  // The expression behind the text

  function Lit(s: string): Regex { if s == "" then Empty else Seq(Char(s[0]), Lit(s[1..])) }

  function Alternatives(alts: seq<string>): Regex
    requires |alts| > 0
  {
    if |alts| == 1 then Lit(alts[0]) else Alt(Lit(alts[0]), Alternatives(alts[1..]))
  }

  function Expression(piece: Piece): Regex {
    match piece
    case DeepDirs => Optional(Seq(Star(Any), Seq(Char('/'), Empty)))
    case Deep => Star(Any)
    case Star_ => Star(NotSlash)
    case One => NotSlash
    case Braces(alts) => if |alts| > 0 then Alternatives(alts) else Empty
    case Literal(c) => Char(c)
  }

  function Translate(p: string): Regex {
    if p == "" then Empty else Seq(Expression(Head(p).0), Translate(p[Head(p).1..]))
  }

  // Reading the text back

  lemma {:induction false} EscapedParses(s: string, tail: string)
    requires tail != "" && tail[0] in "|)"
    ensures ParseAlternative(Escaped(s) + tail) == Some((Lit(s), tail))
  {
    if s == "" {
      assert Escaped(s) + tail == tail;
    } else {
      var rest := Escaped(s[1..]) + tail;
      var text := Escaped(s) + tail;
      EscapedParses(s[1..], tail);
      EscapedDoesNotRepeat(s[1..], tail);
      if Syntax(s[0]) {
        assert text == ['\\', s[0]] + rest;
        assert text[2..] == rest;
      } else {
        assert text == [s[0]] + rest;
        assert text[1..] == rest;
      }
      assert ParseAtom(text) == Some((Char(s[0]), rest));
      assert ParseTerm(text) == Some((Char(s[0]), rest));
    }
  }

  lemma EscapedDoesNotRepeat(s: string, tail: string)
    requires tail != "" && tail[0] in "|)"
    ensures !Repeats(Escaped(s) + tail)
  {
  }

  lemma {:induction false} JoinedParses(alts: seq<string>, tail: string)
    requires |alts| > 0 && ")" <= tail
    ensures ParseDisjunction(Joined(alts) + tail) == Some((Alternatives(alts), tail))
  {
    hide ParseAlternative, Escaped, Lit;
    if |alts| == 1 {
      EscapedParses(alts[0], tail);
    } else {
      var others := "|" + (Joined(alts[1..]) + tail);
      EscapedParses(alts[0], others);
      assert Joined(alts) + tail == Escaped(alts[0]) + others;
      assert others[1..] == Joined(alts[1..]) + tail;
      JoinedParses(alts[1..], tail);
    }
  }

  /** What follows a construct in the output. */
  predicate Follows(tail: string) { tail != "" && !Repeats(tail) }

  /** The text of a construct reads back as its expression, whatever construct follows. */
  lemma PieceParses(p: string, tail: string)
    requires p != "" && Follows(tail)
    ensures ParseTerm(Text(Head(p).0) + tail) == Some((Expression(Head(p).0), tail))
    ensures Follows(Text(Head(p).0) + tail) && (Text(Head(p).0) + tail)[0] !in "|)$"
  {
    var piece := Head(p).0;
    match piece
    case DeepDirs => DeepDirsParses(tail);
    case Deep => StarParses(".", Any, tail);
    case Star_ => StarParses("[^/]", NotSlash, tail);
    case One => AtomEnds("[^/]" + tail, NotSlash, tail);
    case Braces(alts) => BracesParse(alts, tail);
    case Literal(c) => LiteralParses(c, tail);
  }

  lemma AtomEnds(s: string, r: Regex, tail: string)
    requires Follows(tail) && ParseAtom(s) == Some((r, tail))
    ensures ParseTerm(s) == Some((r, tail))
  {
  }

  lemma StarParses(atom: string, r: Regex, tail: string)
    requires Follows(tail) && ((atom == "." && r == Any) || (atom == "[^/]" && r == NotSlash))
    ensures ParseTerm(atom + "*" + tail) == Some((Star(r), tail))
  {
  }

  lemma GroupParses(body: string, r: Regex, tail: string)
    requires ParseDisjunction(body + (")" + tail)) == Some((r, ")" + tail))
    ensures ParseAtom("(?:" + body + ")" + tail) == Some((r, tail))
  {
    hide ParseDisjunction;
    var text := "(?:" + body + ")" + tail;
    assert text[..3] == "(?:" && text[3..] == body + (")" + tail);
    assert (")" + tail)[..1] == ")" && (")" + tail)[1..] == tail;
  }

  lemma BracesParse(alts: seq<string>, tail: string)
    requires |alts| > 0 && Follows(tail)
    ensures ParseTerm("(?:" + Joined(alts) + ")" + tail) == Some((Alternatives(alts), tail))
  {
    hide Joined, ParseAtom, ParseDisjunction;
    JoinedParses(alts, ")" + tail);
    GroupParses(Joined(alts), Alternatives(alts), tail);
    AtomEnds("(?:" + Joined(alts) + ")" + tail, Alternatives(alts), tail);
  }

  lemma LiteralParses(c: char, tail: string)
    requires Follows(tail) && c != '*' && c != '?'
    ensures ParseTerm(Text(Literal(c)) + tail) == Some((Char(c), tail))
  {
  }

  lemma DeepDirsParses(tail: string)
    requires Follows(tail)
    ensures ParseTerm("(?:.*/)?" + tail) == Some((Expression(DeepDirs), tail))
  {
    var close := ")?" + tail;
    DirectoryParses(close);
    var text := "(?:.*/)?" + tail;
    assert text[3..] == ".*/" + close && close[1..] == "?" + tail && ("?" + tail)[1..] == tail;
    hide ParseDisjunction;
    assert ParseAtom(text) == Some((Expression(DeepDirs).body, "?" + tail));
    hide ParseAtom;
  }

  lemma DirectoryParses(close: string)
    requires ")" <= close
    ensures ParseDisjunction(".*/" + close) == Some((Expression(DeepDirs).body, close))
  {
    var slash := "/" + close;
    assert slash[1..] == close;
    assert ParseAlternative(close) == Some((Empty, close));
    AtomEnds(slash, Char('/'), close);
    assert ParseAlternative(slash) == Some((Seq(Char('/'), Empty), close));
    StarParses(".", Any, slash);
    assert "." + "*" + slash == ".*/" + close;
    hide ParseTerm;
    assert ParseAlternative(".*/" + close) == Some((Seq(Star(Any), Seq(Char('/'), Empty)), close));
  }

  lemma {:induction false} BodyParses(p: string)
    ensures ParseAlternative(Body(p) + "$") == Some((Translate(p), "$")) && Follows(Body(p) + "$")
    decreases |p|
  {
    if p != "" {
      var rest := p[Head(p).1..];
      BodyParses(rest);
      PieceParses(p, Body(rest) + "$");
      assert Body(p) + "$" == Text(Head(p).0) + (Body(rest) + "$");
    } else {
      assert Body(p) + "$" == "$";
    }
  }

  /** The compiled text is a well-formed pattern and reads back as the translation: no character changed its role. */
  lemma CompiledTextParses(p: string)
    ensures ParsePattern("^" + Body(p) + "$") == Some(Translate(p))
  {
    BodyParses(p);
    assert ("^" + Body(p) + "$")[1..] == Body(p) + "$";
  }

  // What the expression accepts

  predicate OneLine(s: string) { forall i | 0 <= i < |s| :: !LineTerminator(s[i]) }

  lemma {:induction false} StarAnyAccepts(s: string)
    requires OneLine(s)
    ensures Accepts(Star(Any), s)
    decreases |s|
  {
    if s != "" {
      StarAnyAccepts(s[1..]);
      assert Accepts(Any, s[..1]);
    }
  }

  lemma {:induction false} StarNotSlashAccepts(s: string)
    ensures Accepts(Star(NotSlash), s) <==> NoSlash(s)
    decreases |s|
  {
    if s != "" {
      if NoSlash(s) {
        StarNotSlashAccepts(s[1..]);
        assert Accepts(NotSlash, s[..1]);
      }
      if Accepts(Star(NotSlash), s) {
        var k :| 0 < k <= |s| && Accepts(NotSlash, s[..k]) && Accepts(Star(NotSlash), s[k..]);
        StarNotSlashAccepts(s[k..]);
        assert k == 1;
        forall i | 0 <= i < |s| ensures s[i] != '/' { if i > 0 { assert s[i] == s[1..][i - 1]; } }
      }
    }
  }

  lemma CharFirst(c: char, r: Regex, s: string)
    ensures Accepts(Seq(Char(c), r), s) <==> s != "" && s[0] == c && Accepts(r, s[1..])
  {
  }

  lemma {:induction false} LitAccepts(t: string, s: string)
    ensures Accepts(Lit(t), s) <==> s == t
    decreases |t|
  {
    hide Accepts;
    if t == "" {
      EmptyAccepts(s);
    } else {
      CharFirst(t[0], Lit(t[1..]), s);
      if s != "" && s[0] == t[0] {
        LitAccepts(t[1..], s[1..]);
        assert s == [s[0]] + s[1..] && t == [t[0]] + t[1..];
      }
    }
  }

  lemma EmptyAccepts(s: string)
    ensures Accepts(Empty, s) <==> s == ""
  {
  }

  lemma {:induction false} AlternativesAccept(alts: seq<string>, s: string)
    requires |alts| > 0
    ensures Accepts(Alternatives(alts), s) <==> s in alts
  {
    LitAccepts(alts[0], s);
    if |alts| > 1 {
      AlternativesAccept(alts[1..], s);
      assert alts == [alts[0]] + alts[1..];
    }
  }

  lemma SlashAccepts(s: string)
    ensures Accepts(Seq(Char('/'), Empty), s) <==> s == "/"
  {
    if s == "/" { assert Accepts(Char('/'), s[..1]) && Accepts(Empty, s[1..]); }
  }

  lemma DirectoryAccepts(s: string)
    requires OneLine(s)
    ensures Accepts(Seq(Star(Any), Seq(Char('/'), Empty)), s) <==> s != "" && s[|s| - 1] == '/'
  {
    var slash := Seq(Char('/'), Empty);
    forall k | 0 <= k <= |s|
      ensures Accepts(Star(Any), s[..k]) && (Accepts(slash, s[k..]) <==> k == |s| - 1 && s[k] == '/')
    {
      StarAnyAccepts(s[..k]);
      SlashAccepts(s[k..]);
    }
  }

  /** On one-line strings a construct's expression accepts exactly what the construct may consume. */
  lemma PieceAccepts(p: string, s: string)
    requires p != "" && OneLine(s)
    ensures Accepts(Expression(Head(p).0), s) <==> Consumes(Head(p).0, s)
  {
    match Head(p).0
    case DeepDirs => DirectoryAccepts(s);
    case Deep => StarAnyAccepts(s);
    case Star_ => StarNotSlashAccepts(s);
    case One =>
    case Braces(alts) => AlternativesAccept(alts, s);
    case Literal(c) =>
  }

  /** The translation accepts a one-line path exactly when the glob matches it. */
  lemma {:induction false} TranslationIsFaithful(p: string, path: string)
    requires OneLine(path)
    ensures Accepts(Translate(p), path) <==> GlobMatches(p, path)
    decreases |p|
  {
    if p != "" {
      var rest := p[Head(p).1..];
      forall k | 0 <= k <= |path|
        ensures Accepts(Expression(Head(p).0), path[..k]) <==> Consumes(Head(p).0, path[..k])
        ensures Accepts(Translate(rest), path[k..]) <==> GlobMatches(rest, path[k..])
      {
        PieceAccepts(p, path[..k]);
        TranslationIsFaithful(rest, path[k..]);
      }
    }
  }

  function Slashes(s: string): string {
    seq(|s|, i requires 0 <= i < |s| => if s[i] == '\\' then '/' else s[i])
  }

  /** `matchSimpleGlob`: on a one-line path the compiled expression decides exactly the glob, for every pattern. */
  method MatchSimpleGlob(relPath: string, pattern: string) returns (matches: bool)
    ensures matches <==> Accepts(Translate(Slashes(pattern)), Slashes(relPath))
    ensures OneLine(relPath) ==> (matches <==> GlobMatches(Slashes(pattern), Slashes(relPath)))
  {
    var regex := GlobToRegExp(Slashes(pattern));
    CompiledTextParses(Slashes(pattern));
    if OneLine(relPath) { TranslationIsFaithful(Slashes(pattern), Slashes(relPath)); }
    matches := Accepts(ParsePattern(regex).value, Slashes(relPath));
  }

  /** Either separator may stand for the other, in the path and in the pattern, and nothing else changes. */
  lemma SeparatorsAreOne(a: string, b: string)
    ensures Slashes(a) == Slashes(b) <==>
            |a| == |b| && forall i | 0 <= i < |a| :: a[i] == b[i] || (a[i] in "/\\" && b[i] in "/\\")
  {
    if Slashes(a) == Slashes(b) {
      forall i | 0 <= i < |a| ensures a[i] == b[i] || (a[i] in "/\\" && b[i] in "/\\") {
        assert Slashes(a)[i] == Slashes(b)[i];
      }
    }
  }

  /** A line terminator is where it stops: `**` reads any path, its expression no such one. */
  lemma LineTerminatorStopsDeep(path: string)
    requires !OneLine(path)
    ensures GlobMatches("**", path) && !Accepts(Translate("**"), path)
  {
    var rest := "**"[2..];
    assert Head("**") == (Deep, 2) && rest == "";
    assert Consumes(Deep, path[..|path|]) && GlobMatches(rest, path[|path|..]);
    forall k | 0 <= k <= |path| && Accepts(Star(Any), path[..k]) ensures k < |path| {
      StarAnyOneLine(path[..k]);
      assert path[..|path|] == path;
    }
  }

  lemma {:induction false} StarAnyOneLine(s: string)
    requires Accepts(Star(Any), s)
    ensures OneLine(s)
    decreases |s|
  {
    if s != "" {
      var k :| 0 < k <= |s| && Accepts(Any, s[..k]) && Accepts(Star(Any), s[k..]);
      StarAnyOneLine(s[k..]);
      assert forall i | 1 <= i < |s| :: s[i] == s[k..][i - 1];
    }
  }
}
