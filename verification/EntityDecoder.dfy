/** The five replace-all passes of the link-preview entity decoder (`fetchLinkPreview.ts`). */
module EntityDecoder {
  import opened Wrappers
  import opened HexKeys

  /** `&name;` stands for one character; names are compared without ASCII case. */
  datatype Entity = Entity(name: string, stands: char)

  const LT := Entity("lt", '<')
  const GT := Entity("gt", '>')
  const QUOT := Entity("quot", '"')
  const NUM39 := Entity("#39", '\'')
  const APOS := Entity("apos", '\'')
  const AMP := Entity("amp", '&')

  const ALL := [LT, GT, QUOT, NUM39, APOS, AMP]

  predicate IsAt(e: Entity, s: string) {
    var n := |e.name|;
    |s| >= n + 2 && s[0] == '&' && Lower(s[1..n + 1]) == e.name && s[n + 1] == ';'
  }

  function FirstAt(es: seq<Entity>, s: string): (e: Option<Entity>)
    ensures e.Some? ==> e.value in es && IsAt(e.value, s)
    ensures e.None? ==> forall i | 0 <= i < |es| :: !IsAt(es[i], s)
  {
    if es == [] then None else if IsAt(es[0], s) then Some(es[0]) else FirstAt(es[1..], s)
  }

  /** Replace-all: from left to right, each match once, the output never read again. */
  function Pass(es: seq<Entity>, s: string): string
    decreases |s|
  {
    if s == "" then ""
    else
      var e := FirstAt(es, s);
      if e.Some? then [e.value.stands] + Pass(es, s[|e.value.name| + 2..]) else [s[0]] + Pass(es, s[1..])
  }

  /** `decodeLinkPreviewHtmlEntities`. */
  function Decoded(value: string): string {
    Pass([AMP], Pass([NUM39, APOS], Pass([QUOT], Pass([GT], Pass([LT], value)))))
  }

  // Passes that do not disturb each other

  /** Characters an entity is spelled with after its ampersand. */
  predicate Spells(c: char) { c == '#' || c == ';' || '0' <= c <= '9' || 'a' <= c <= 'z' || 'A' <= c <= 'Z' }

  /** Names are spelled without `&` and `;`, and no two entities share one. */
  predicate WellNamed(es: seq<Entity>) {
    && (forall i | 0 <= i < |es| :: NameOk(es[i].name))
    && forall i, j | 0 <= i < |es| && 0 <= j < |es| && es[i].name == es[j].name :: es[i] == es[j]
  }

  predicate NameOk(name: string) { forall i | 0 <= i < |name| :: Spells(name[i]) && name[i] != ';' }

  /** What the pass writes cannot be part of an entity. */
  predicate Inert(es: seq<Entity>) { forall i | 0 <= i < |es| :: es[i].stands != '&' && !Spells(es[i].stands) }

  /** The characters of an entity that stands at the head of a string. */
  lemma SpelledAt(e: Entity, s: string)
    requires NameOk(e.name) && IsAt(e, s)
    ensures forall i | 1 <= i <= |e.name| :: Spells(s[i]) && s[i] != '&' && s[i] != ';'
  {
  }

  /** At most one entity stands at the head of a string. */
  lemma OneAt(a: Entity, b: Entity, s: string)
    requires NameOk(a.name) && NameOk(b.name) && IsAt(a, s) && IsAt(b, s)
    ensures a.name == b.name
  {
  }

  lemma {:induction false} FirstOfBoth(es: seq<Entity>, fs: seq<Entity>, s: string)
    ensures FirstAt(es + fs, s) == if FirstAt(es, s).Some? then FirstAt(es, s) else FirstAt(fs, s)
  {
    if es == [] {
      assert es + fs == fs;
    } else {
      assert (es + fs)[1..] == es[1..] + fs;
      FirstOfBoth(es[1..], fs, s);
    }
  }

  /** A pass copies what holds no ampersand. */
  lemma {:induction false} CopiesRun(es: seq<Entity>, s: string, n: nat)
    requires n <= |s| && forall i | 0 <= i < n :: s[i] != '&'
    ensures Pass(es, s) == s[..n] + Pass(es, s[n..])
    decreases n
  {
    if n == 0 {
      assert s[0..] == s;
    } else {
      CopiesRun(es, s[1..], n - 1);
      assert s[..n] == [s[0]] + s[1..][..n - 1] && s[1..][n - 1..] == s[n..];
    }
  }

  /** Spelling characters at the head of the output were copied from the head of the input. */
  lemma {:induction false} CopiedRun(es: seq<Entity>, s: string, w: string)
    requires Inert(es) && w <= Pass(es, s) && forall i | 0 <= i < |w| :: Spells(w[i])
    ensures w <= s
    decreases |w|
  {
    if w != "" {
      assert Pass(es, s)[0] == w[0];
      assert FirstAt(es, s).None?;
      assert Pass(es, s) == [s[0]] + Pass(es, s[1..]);
      assert w[1..] <= Pass(es, s[1..]);
      CopiedRun(es, s[1..], w[1..]);
      assert w == [w[0]] + w[1..] && s == [s[0]] + s[1..];
    }
  }

  /** A pass that replaces nothing at the head copies an entity that stands there. */
  lemma HeadCopied(es: seq<Entity>, f: Entity, s: string)
    requires NameOk(f.name) && s != "" && FirstAt(es, s).None? && IsAt(f, s)
    ensures IsAt(f, Pass(es, s)) && Pass(es, s)[|f.name| + 2..] == Pass(es, s[|f.name| + 2..])
  {
    var n := |f.name|;
    SpelledAt(f, s);
    CopiesRun(es, s[1..], n + 1);
    assert s[1..][n + 1..] == s[n + 2..];
    assert Pass(es, s) == [s[0]] + (s[1..][..n + 1] + Pass(es, s[n + 2..]));
    hide Pass;
    Slices(s[0], s[1..][..n + 1], Pass(es, s[n + 2..]), n);
    assert s[1..][..n + 1][..n] == s[1..n + 1];
  }

  lemma Slices(c: char, w: string, x: string, n: nat)
    requires |w| == n + 1
    ensures var t := [c] + (w + x);
            |t| >= n + 2 && t[0] == c && t[1..n + 1] == w[..n] && t[n + 1] == w[n] && t[n + 2..] == x
  {
  }

  /** An entity at the head of the output was there already. */
  lemma HeadWasThere(es: seq<Entity>, f: Entity, s: string)
    requires Inert(es) && NameOk(f.name) && s != "" && FirstAt(es, s).None? && IsAt(f, Pass(es, s))
    ensures IsAt(f, s)
  {
    var n, t := |f.name|, Pass(es, s);
    assert t == [s[0]] + Pass(es, s[1..]);
    SpelledAt(f, t);
    var w := t[1..n + 2];
    assert w <= Pass(es, s[1..]);
    CopiedRun(es, s[1..], w);
    hide Pass;
    assert s[1..n + 1] == w[..n] == t[1..n + 1] && s[n + 1] == w[n] == t[n + 1];
  }

  /** Two passes are one, when the first writes nothing that the second could read. */
  lemma {:induction false} PassesMerge(es: seq<Entity>, fs: seq<Entity>, s: string)
    requires Inert(es) && WellNamed(es + fs)
    ensures Pass(fs, Pass(es, s)) == Pass(es + fs, s)
    decreases |s|
  {
    if s != "" {
      FirstOfBoth(es, fs, s);
      var e, f := FirstAt(es, s), FirstAt(fs, s);
      if e.Some? {
        EatsInert(es, fs, s, e.value);
      } else {
        NamesOfSecond(es, fs);
        SameHead(es, fs, s);
        if f.Some? {
          HeadCopied(es, f.value, s);
          PassesMerge(es, fs, s[|f.value.name| + 2..]);
        } else {
          assert Pass(es, s) == [s[0]] + Pass(es, s[1..]);
          assert Pass(es, s)[1..] == Pass(es, s[1..]);
          PassesMerge(es, fs, s[1..]);
        }
      }
    }
  }

  lemma EatsInert(es: seq<Entity>, fs: seq<Entity>, s: string, e: Entity)
    requires Inert(es) && WellNamed(es + fs) && s != "" && FirstAt(es, s) == Some(e) && FirstAt(es + fs, s) == Some(e)
    ensures Pass(fs, Pass(es, s)) == Pass(es + fs, s)
    decreases |s|, 0
  {
    var rest := s[|e.name| + 2..];
    var t := Pass(es, s);
    assert t == [e.stands] + Pass(es, rest) && t[1..] == Pass(es, rest);
    assert forall i | 0 <= i < |fs| :: !IsAt(fs[i], t);
    assert FirstAt(fs, t).None?;
    PassesMerge(es, fs, rest);
  }

  lemma NamesOfSecond(es: seq<Entity>, fs: seq<Entity>)
    requires WellNamed(es + fs)
    ensures WellNamed(fs)
  {
    assert forall i | 0 <= i < |fs| :: (es + fs)[|es| + i] == fs[i];
  }

  /** The second pass finds the same entity as it would on the original text. */
  lemma SameHead(es: seq<Entity>, fs: seq<Entity>, s: string)
    requires Inert(es) && WellNamed(fs) && s != "" && FirstAt(es, s).None?
    ensures FirstAt(fs, Pass(es, s)) == FirstAt(fs, s)
  {
    var a, b := FirstAt(fs, Pass(es, s)), FirstAt(fs, s);
    forall i | 0 <= i < |fs| ensures IsAt(fs[i], Pass(es, s)) <==> IsAt(fs[i], s) {
      if IsAt(fs[i], s) { HeadCopied(es, fs[i], s); } else if IsAt(fs[i], Pass(es, s)) { HeadWasThere(es, fs[i], s); }
    }
    if a.Some? && b.Some? { OneAt(a.value, b.value, s); }
  }

  lemma AllAreNamed(i: nat, j: nat)
    requires i < |ALL| && j < |ALL|
    ensures NameOk(ALL[i].name) && (ALL[i].name == ALL[j].name ==> i == j)
  {
  }

  lemma PrefixIsNamed(es: seq<Entity>, n: nat)
    requires n <= |ALL| && es == ALL[..n]
    ensures WellNamed(es) && (n < |ALL| ==> Inert(es))
  {
    forall i, j | 0 <= i < n && 0 <= j < n ensures NameOk(es[i].name) && (es[i].name == es[j].name ==> es[i] == es[j]) {
      AllAreNamed(i, j);
    }
  }

  /** One more pass merged into those before it. */
  lemma MergeNext(value: string, done: string, m: nat, n: nat, fs: seq<Entity>)
    requires m <= n <= |ALL| && m < |ALL| && fs == ALL[m..n] && done == Pass(ALL[..m], value)
    ensures Pass(fs, done) == Pass(ALL[..n], value)
  {
    assert ALL[..m] + fs == ALL[..n];
    PrefixIsNamed(ALL[..m], m);
    PrefixIsNamed(ALL[..n], n);
    PassesMerge(ALL[..m], fs, value);
  }

  /** The five passes are one left-to-right pass that decodes each entity once and never reads its output again. */
  lemma FivePassesAreOne(value: string)
    ensures Decoded(value) == Pass(ALL, value)
  {
    hide Pass;
    assert [LT] == ALL[..1] && [GT] == ALL[1..2] && [QUOT] == ALL[2..3] && [NUM39, APOS] == ALL[3..5] && [AMP] == ALL[5..6];
    var first := Pass([LT], value);
    MergeNext(value, first, 1, 2, [GT]);
    var second := Pass([GT], first);
    MergeNext(value, second, 2, 3, [QUOT]);
    var third := Pass([QUOT], second);
    MergeNext(value, third, 3, 5, [NUM39, APOS]);
    var fourth := Pass([NUM39, APOS], third);
    MergeNext(value, fourth, 5, 6, [AMP]);
    assert ALL[..6] == ALL;
  }

  // Decoding undoes escaping

  function EscapeChar(c: char): string {
    if c == '<' then "&lt;" else if c == '>' then "&gt;" else if c == '"' then "&quot;" else if c == '\'' then "&#39;"
    else if c == '&' then "&amp;" else [c]
  }

  function Escape(s: string): string { if s == "" then "" else EscapeChar(s[0]) + Escape(s[1..]) }

  lemma DecodesEntity(i: nat, rest: string)
    requires i < |ALL|
    ensures Pass(ALL, "&" + ALL[i].name + ";" + rest) == [ALL[i].stands] + Pass(ALL, rest)
  {
    LowerNames(i);
    DecodesWritten(i, ALL[i].name, rest);
  }

  lemma DecodesWritten(i: nat, written: string, rest: string)
    requires i < |ALL| && Lower(written) == ALL[i].name
    ensures Pass(ALL, "&" + written + ";" + rest) == [ALL[i].stands] + Pass(ALL, rest)
  {
    var e := ALL[i];
    var n := |e.name|;
    var t := "&" + written + ";" + rest;
    assert t[1..n + 1] == written && t[n + 1] == ';' && t[n + 2..] == rest;
    assert IsAt(e, t);
    assert e in ALL;
    var f := FirstAt(ALL, t).value;
    var j :| 0 <= j < |ALL| && ALL[j] == f;
    AllAreNamed(i, j);
    AllAreNamed(j, i);
    OneAt(e, f, t);
  }

  lemma LowerNames(i: nat)
    requires i < |ALL|
    ensures Lower(ALL[i].name) == ALL[i].name
  {
  }

  lemma DecodesFront(c: char, rest: string)
    ensures Pass(ALL, EscapeChar(c) + rest) == [c] + Pass(ALL, rest)
  {
    if EscapeChar(c) == [c] {
      var t := [c] + rest;
      assert t[0] == c && t[1..] == rest;
      assert FirstAt(ALL, t).None?;
    } else {
      hide Pass;
      var i := if c == '<' then 0 else if c == '>' then 1 else if c == '"' then 2 else if c == '\'' then 3 else 5;
      assert EscapeChar(c) == "&" + ALL[i].name + ";" && ALL[i].stands == c;
      DecodesEntity(i, rest);
    }
  }

  /** What each written entity stands for. */
  predicate StandsFor(name: string, c: char) {
    || (name == "lt" && c == '<') || (name == "gt" && c == '>') || (name == "quot" && c == '"')
    || (name == "#39" && c == '\'') || (name == "apos" && c == '\'') || (name == "amp" && c == '&')
  }

  /** A written entity, in any case, is decoded once and the text behind it on its own. */
  lemma EntityIsDecoded(name: string, c: char, written: string, rest: string)
    requires StandsFor(name, c) && Lower(written) == name
    ensures Decoded("&" + written + ";" + rest) == [c] + Decoded(rest)
  {
    var t := "&" + written + ";" + rest;
    FivePassesAreOne(t);
    FivePassesAreOne(rest);
    var i := if name == "lt" then 0 else if name == "gt" then 1 else if name == "quot" then 2 else if name == "#39" then 3
             else if name == "apos" then 4 else 5;
    assert ALL[i].name == name && ALL[i].stands == c;
    DecodesWritten(i, written, rest);
  }

  /** Any other character is copied, an ampersand that begins no entity included. */
  lemma OthersAreCopied(c: char, rest: string)
    requires c == '&' ==> forall name, d, n: nat | StandsFor(name, d) && n < |rest| :: Lower(rest[..n]) == name ==> rest[n] != ';'
    ensures Decoded([c] + rest) == [c] + Decoded(rest)
  {
    var t := [c] + rest;
    assert t[0] == c && t[1..] == rest;
    forall i | 0 <= i < |ALL| ensures !IsAt(ALL[i], t) {
      var n := |ALL[i].name|;
      assert StandsFor(ALL[i].name, ALL[i].stands);
      assert |t| >= n + 2 ==> t[1..n + 1] == rest[..n] && t[n + 1] == rest[n];
    }
    hide IsAt;
    assert FirstAt(ALL, t).None?;
    FivePassesAreOne(t);
    FivePassesAreOne(rest);
  }

  /** Escaped text decodes to itself, so no character is decoded twice. */
  lemma {:induction false} DecodeUndoesEscape(s: string)
    ensures Decoded(Escape(s)) == s
    decreases |s|
  {
    FivePassesAreOne(Escape(s));
    if s != "" {
      DecodesFront(s[0], Escape(s[1..]));
      FivePassesAreOne(Escape(s[1..]));
      DecodeUndoesEscape(s[1..]);
      assert s == [s[0]] + s[1..];
    }
  }
}
