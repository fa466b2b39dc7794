/** internal/util/matcher.go: owner masks are compiled to regular expressions by
    quoting followed by three replacement passes. */
module Matcher {
  import opened Text
  import opened Regex

  // ---------------------------------------------------------------- the passes

  function QuoteChar(c: char): string {
    if c in META then ['\\', c] else [c]
  }

  /** regexp.QuoteMeta */
  function QuoteMeta(p: string): string {
    if p == "" then "" else QuoteChar(p[0]) + QuoteMeta(p[1..])
  }

  /** strings.ReplaceAll for a non-empty `from`: leftmost, non-overlapping. */
  function ReplaceAll(t: string, from: string, to: string): string
    requires from != ""
    decreases |t|
  {
    if t == "" then ""
    else if from <= t then to + ReplaceAll(t[|from|..], from, to)
    else [t[0]] + ReplaceAll(t[1..], from, to)
  }

  const ANY_RUN: string := ".*"
  const ONE_CHAR: string := "[^!@\\s]"
  const ONE_DIGIT: string := "[0-9]"

  /** The text handed to regexp.Compile. */
  function RegexText(p: string): string {
    var t0 := QuoteMeta(p);
    var t1 := ReplaceAll(t0, "\\*", ANY_RUN);
    var t2 := ReplaceAll(t1, "\\?", ONE_CHAR);
    var t3 := ReplaceAll(t2, "#", ONE_DIGIT);
    "^" + t3 + "$"
  }

  function Compiled(p: string): Option<seq<Node>> {
    Parse(RegexText(p))
  }

  // ------------------------------------------- the character-by-character reading

  /** What one pattern character stands for in the text of the expression. */
  function Translate(c: char): string {
    if c == '*' then ANY_RUN
    else if c == '?' then ONE_CHAR
    else if c == '#' then ONE_DIGIT
    else QuoteChar(c)
  }

  function TranslateAll(p: string): string {
    if p == "" then "" else Translate(p[0]) + TranslateAll(p[1..])
  }

  function Atom(c: char): Node {
    if c == '*' then Many(Dot)
    else if c == '?' then One(Class(true, [Range('!', '!'), Range('@', '@'), Space]))
    else if c == '#' then One(Class(false, [Range('0', '9')]))
    else One(Lit(c))
  }

  function Atoms(p: string): (r: seq<Node>)
    ensures |r| == |p|
  {
    if p == "" then [] else [Atom(p[0])] + Atoms(p[1..])
  }

  /** What a mask means, with no regular expression in sight: a star is any run of
      characters without a newline, a question mark one character that may stand in an
      ident or host, a hash one digit, anything else itself. */
  predicate Glob(p: string, s: string)
    decreases |p| + |s|
  {
    if p == "" then s == ""
    else if p[0] == '*' then
      Glob(p[1..], s) || (s != "" && s[0] != '\n' && Glob(p, s[1..]))
    else
      s != "" && GlobChar(p[0], s[0]) && Glob(p[1..], s[1..])
  }

  predicate GlobChar(p: char, c: char) {
    if p == '?' then c != '!' && c != '@' && !PerlSpace(c)
    else if p == '#' then '0' <= c <= '9'
    else c == p
  }

  // ------------------------------------------------ no pass disturbs another one

  /** Pattern text after the first k passes, character by character. */
  function Stage(k: nat, c: char): string {
    if (c == '*' && k >= 1) || (c == '?' && k >= 2) || (c == '#' && k >= 3)
    then Translate(c) else QuoteChar(c)
  }

  function Stages(k: nat, p: string): string {
    if p == "" then "" else Stage(k, p[0]) + Stages(k, p[1..])
  }

  /** Text without the first character of `from` is passed over unchanged. */
  lemma {:induction false} ReplaceSkips(a: string, rest: string, from: string, to: string)
    requires from != "" && from[0] !in a
    ensures ReplaceAll(a + rest, from, to) == a + ReplaceAll(rest, from, to)
  {
    if a == "" {
      assert a + rest == rest;
    } else {
      assert (a + rest)[0] == a[0] && (a + rest)[1..] == a[1..] + rest;
      ReplaceSkips(a[1..], rest, from, to);
    }
  }

  /** A mark that starts a token is always the backslash or a plain character, so the
      text after a token never begins with the second half of an escape. */
  lemma StagesHead(k: nat, p: string)
    ensures Stages(k, p) != "" ==> Stages(k, p)[0] !in ['*', '?', '+', '{']
  {
    if p != "" {
      assert Stages(k, p)[0] == Stage(k, p[0])[0];
    }
  }

  /** An escape pair is replaced as a whole or skipped as a whole. */
  lemma ReplaceAtEscape(m: char, c: char, rest: string, to: string)
    requires m != '\\' && (rest == "" || rest[0] != m)
    ensures var from := ['\\', m];
      ReplaceAll(['\\', c] + rest, from, to)
      == (if c == m then to else ['\\', c]) + ReplaceAll(rest, from, to)
  {
    var from := ['\\', m];
    var all := ['\\', c] + rest;
    if c == m {
      assert all[..2] == from && all[2..] == rest;
    } else {
      assert !(from <= all) by { assert all[1] == c; }
      assert all[1..] == [c] + rest;
      assert !(from <= all[1..]);
      assert all[1..][1..] == rest;
      assert ReplaceAll(all, from, to) == ['\\'] + ReplaceAll(all[1..], from, to);
      assert ReplaceAll(all[1..], from, to) == [c] + ReplaceAll(rest, from, to);
    }
  }

  /** What such a pass does to the text of one character. */
  lemma EscapeOne(k: nat, m: char, c: char, rest: string)
    requires (k == 0 && m == '*') || (k == 1 && m == '?')
    requires rest == "" || rest[0] != m
    ensures ReplaceAll(Stage(k, c) + rest, ['\\', m], Translate(m))
         == Stage(k + 1, c) + ReplaceAll(rest, ['\\', m], Translate(m))
  {
    var t := Stage(k, c);
    if '\\' !in t {
      ReplaceSkips(t, rest, ['\\', m], Translate(m));
    } else {
      ReplaceAtEscape(m, c, rest, Translate(m));
    }
  }

  /** The pass that replaces `\m` turns stage k into stage k+1. */
  lemma {:induction false} EscapePass(k: nat, m: char, p: string)
    requires (k == 0 && m == '*') || (k == 1 && m == '?')
    ensures ReplaceAll(Stages(k, p), ['\\', m], Translate(m)) == Stages(k + 1, p)
  {
    if p != "" {
      EscapePass(k, m, p[1..]);
      StagesHead(k, p[1..]);
      EscapeOne(k, m, p[0], Stages(k, p[1..]));
    }
  }

  lemma {:induction false} HashPass(p: string)
    ensures ReplaceAll(Stages(2, p), "#", ONE_DIGIT) == Stages(3, p)
  {
    if p != "" {
      var t, rest := Stage(2, p[0]), Stages(2, p[1..]);
      HashPass(p[1..]);
      if p[0] == '#' {
        assert t == "#" && (t + rest)[1..] == rest && "#" <= t + rest;
      } else {
        assert '#' !in t;
        ReplaceSkips(t, rest, "#", ONE_DIGIT);
      }
    }
  }

  lemma {:induction false} StageZeroAndThree(p: string)
    ensures Stages(0, p) == QuoteMeta(p) && Stages(3, p) == TranslateAll(p)
  {
    if p != "" { StageZeroAndThree(p[1..]); }
  }

  /** Quoting and the three passes are the character-by-character translation: no pass
      rewrites text that an earlier one inserted, and none splits an escape. */
  lemma PassesTranslate(p: string)
    ensures RegexText(p) == "^" + TranslateAll(p) + "$"
  {
    StageZeroAndThree(p);
    EscapePass(0, '*', p);
    EscapePass(1, '?', p);
    HashPass(p);
  }

  // -------------------------------------------------------- parsing it back

  lemma ItemsEnd(rest: string)
    ensures ParseItems("]" + rest) == Some(([], rest))
  {
    assert ("]" + rest)[1..] == rest;
  }

  lemma ItemsSpace(t: string, items: seq<ClassItem>, rest: string)
    requires ParseItems(t) == Some((items, rest))
    ensures ParseItems("\\s" + t) == Some(([Space] + items, rest))
  {
    assert ("\\s" + t)[2..] == t;
  }

  lemma ItemsChar(c: char, t: string, items: seq<ClassItem>, rest: string)
    requires ParseItems(t) == Some((items, rest)) && c != ']' && c != '\\' && t[0] != '-'
    ensures ParseItems([c] + t) == Some(([Range(c, c)] + items, rest))
  {
    assert ([c] + t)[1..] == t;
  }

  lemma ItemsRange(lo: char, hi: char, t: string, items: seq<ClassItem>, rest: string)
    requires ParseItems(t) == Some((items, rest)) && lo != ']' && lo != '\\' && hi != ']' && hi != '\\' && lo <= hi
    ensures ParseItems([lo, '-', hi] + t) == Some(([Range(lo, hi)] + items, rest))
  {
    assert ([lo, '-', hi] + t)[3..] == t;
  }

  /** What is inside the brackets of ONE_CHAR. */
  const IN_ONE_CHAR: string := "!@\\s]"

  lemma ItemsOfOneChar(rest: string)
    ensures ParseItems(IN_ONE_CHAR + rest) == Some(([Range('!', '!'), Range('@', '@'), Space], rest))
  {
    var end := "]" + rest;
    var space := "\\s" + end;
    var at := ['@'] + space;
    ItemsEnd(rest);
    ItemsSpace(end, [], rest);
    ItemsChar('@', space, [Space] + [], rest);
    ItemsChar('!', at, [Range('@', '@')] + ([Space] + []), rest);
    assert [Range('!', '!')] + ([Range('@', '@')] + ([Space] + [])) == [Range('!', '!'), Range('@', '@'), Space];
    assert IN_ONE_CHAR + rest == ['!'] + at;
  }

  lemma ParseQuestionMark(rest: string)
    ensures ParseAtom(ONE_CHAR + rest) == Some((Atom('?'), rest))
  {
    ItemsOfOneChar(rest);
    var t := ONE_CHAR + rest;
    assert t == ['[', '^'] + (IN_ONE_CHAR + rest);
    assert t[2..] == IN_ONE_CHAR + rest && t[0] == '[' && t[1] == '^';
  }

  lemma ParseHash(rest: string)
    ensures ParseAtom(ONE_DIGIT + rest) == Some((Atom('#'), rest))
  {
    var end := "]" + rest;
    ItemsEnd(rest);
    ItemsRange('0', '9', end, [], rest);
    assert [Range('0', '9')] + [] == [Range('0', '9')];
    var t := ONE_DIGIT + rest;
    assert t[1..] == ['0', '-', '9'] + end && t[0] == '[' && t[1] == '0';
  }

  lemma ParseQuoted(c: char, rest: string)
    ensures ParseAtom(QuoteChar(c) + rest) == Some((One(Lit(c)), rest))
  {
    var t := QuoteChar(c) + rest;
    if c in META {
      assert t[0] == '\\' && t[1] == c && t[2..] == rest;
    } else {
      assert t[0] == c && t[1..] == rest;
    }
  }

  lemma ParseTranslated(c: char, rest: string)
    requires c != '*'
    ensures Translate(c) + rest != "" && ParseAtom(Translate(c) + rest) == Some((Atom(c), rest))
  {
    if c == '?' {
      ParseQuestionMark(rest);
    } else if c == '#' {
      ParseHash(rest);
    } else {
      ParseQuoted(c, rest);
    }
  }

  /** A node that no repetition mark follows. */
  lemma ParseOne(t: string, node: Node, rest: string, tail: seq<Node>)
    requires t != "" && ParseAtom(t) == Some((node, rest)) && !StartsRepetition(rest) && Parse(rest) == Some(tail)
    ensures Parse(t) == Some([node] + tail)
  {
  }

  lemma ParseStar(rest: string, tail: seq<Node>)
    requires !StartsRepetition(rest) && Parse(rest) == Some(tail)
    ensures Parse(ANY_RUN + rest) == Some([Many(Dot)] + tail)
  {
    var t := ANY_RUN + rest;
    assert t[0] == '.' && t[1..] == "*" + rest && ("*" + rest)[1..] == rest;
    assert ParseAtom(t) == Some((One(Dot), "*" + rest));
  }

  lemma ParseEnd()
    ensures Parse("$") == Some([End])
  {
    assert "$"[1..] == "" && ParseAtom("$") == Some((End, "")) && Parse("") == Some([]);
    assert [End] + [] == [End];
    ParseOne("$", End, "", []);
  }

  lemma TranslationHead(p: string)
    ensures !StartsRepetition(TranslateAll(p) + "$")
  {
    StageZeroAndThree(p);
    StagesHead(3, p);
    if TranslateAll(p) == "" { assert TranslateAll(p) + "$" == "$"; }
  }

  lemma {:induction false} ParseTranslation(p: string)
    ensures Parse(TranslateAll(p) + "$") == Some(Atoms(p) + [End])
  {
    if p == "" {
      assert TranslateAll(p) + "$" == "$" && Atoms(p) + [End] == [End];
      ParseEnd();
    } else {
      var rest, tail := TranslateAll(p[1..]) + "$", Atoms(p[1..]) + [End];
      ParseTranslation(p[1..]);
      TranslationHead(p[1..]);
      assert TranslateAll(p) + "$" == Translate(p[0]) + rest;
      assert Atoms(p) + [End] == [Atom(p[0])] + tail;
      if p[0] == '*' {
        ParseStar(rest, tail);
      } else {
        ParseTranslated(p[0], rest);
        ParseOne(Translate(p[0]) + rest, Atom(p[0]), rest, tail);
      }
    }
  }

  /** Every mask compiles, so the branch that caches a failed compilation is never
      taken, and the expression is the anchored list of atoms. */
  lemma CompiledMask(p: string)
    ensures Compiled(p) == Some([Begin] + (Atoms(p) + [End]))
  {
    PassesTranslate(p);
    ParseTranslation(p);
    TranslationHead(p);
    var rest := TranslateAll(p) + "$";
    var t := "^" + rest;
    assert RegexText(p) == t;
    assert t[1..] == rest && ParseAtom(t) == Some((Begin, rest));
    ParseOne(t, Begin, rest, Atoms(p) + [End]);
  }

  // -------------------------------------------------------- meaning

  lemma AtomMeaning(p: char, c: char)
    requires p != '*'
    ensures Atom(p).One? && (In(Atom(p).cs, c) <==> GlobChar(p, c))
  {
    if p == '?' {
      var items := [Range('!', '!'), Range('@', '@'), Space];
      assert InItem(items[0], c) <==> c == '!';
      assert InItem(items[1], c) <==> c == '@';
      assert InItem(items[2], c) <==> PerlSpace(c);
    } else if p == '#' {
      assert InItem([Range('0', '9')][0], c) <==> '0' <= c <= '9';
    }
  }

  /** A star in front of q: some newline-free prefix is skipped, then q matches. */
  lemma {:induction false} GlobStar(p: string, s: string, i: nat)
    requires p != "" && p[0] == '*' && i <= |s|
    ensures Glob(p, s[i..]) <==>
      exists k: nat :: i <= k <= |s| && (forall m :: i <= m < k ==> s[m] != '\n') && Glob(p[1..], s[k..])
    decreases |s| - i
  {
    if i < |s| {
      GlobStar(p, s, i + 1);
      assert s[i..][1..] == s[i + 1..];
      if s[i] != '\n' && Glob(p, s[i + 1..]) {
        var k: nat :| i + 1 <= k <= |s| && (forall m :: i + 1 <= m < k ==> s[m] != '\n') && Glob(p[1..], s[k..]);
        assert forall m :: i <= m < k ==> s[m] != '\n';
      }
      if k: nat :| i <= k <= |s| && (forall m :: i <= m < k ==> s[m] != '\n') && Glob(p[1..], s[k..]) {
        if k > i {
          assert s[i] != '\n';
          assert i + 1 <= k && (forall m :: i + 1 <= m < k ==> s[m] != '\n');
        }
      }
    } else {
      assert s[i..] == "";
    }
  }

  lemma {:induction false} AtomsMeaning(p: string, s: string, i: nat, j: nat)
    requires i <= |s|
    ensures MatchesAt(Atoms(p) + [End], s, i, j) <==> j == |s| && Glob(p, s[i..])
    decreases |p|
  {
    var re := Atoms(p) + [End];
    if p == "" {
      assert re == [End] && re[1..] == [];
    } else {
      assert re[0] == Atom(p[0]) && re[1..] == Atoms(p[1..]) + [End];
      forall k: nat | k <= |s|
        ensures MatchesAt(re[1..], s, k, j) <==> j == |s| && Glob(p[1..], s[k..])
      {
        AtomsMeaning(p[1..], s, k, j);
      }
      if p[0] == '*' {
        GlobStar(p, s, i);
      } else if i < |s| {
        AtomMeaning(p[0], s[i]);
        assert s[i..][0] == s[i] && s[i..][1..] == s[i + 1..];
      }
    }
  }

  /** The compiler preserves meaning: the compiled mask accepts exactly the texts
      that the mask itself describes. */
  lemma CompilerCorrect(p: string, s: string)
    ensures Compiled(p).Some? && (Search(Compiled(p).value, s) <==> Glob(p, s))
  {
    CompiledMask(p);
    var re := [Begin] + (Atoms(p) + [End]);
    assert re[1..] == Atoms(p) + [End];
    forall j: nat ensures MatchesAt(re, s, 0, j) <==> j == |s| && Glob(p, s) {
      AtomsMeaning(p, s, 0, j);
      assert s[0..] == s;
    }
    if Glob(p, s) { assert MatchesAt(re, s, 0, |s|); }
  }

  // -------------------------------------------------------- matching user hosts

  /** strings.SplitN(s, sep, 2) when it yields two parts. */
  function SplitFirst(s: string, sep: char): Option<(string, string)> {
    if s == "" then None
    else if s[0] == sep then Some(("", s[1..]))
    else match SplitFirst(s[1..], sep)
      case None => None
      case Some((a, b)) => Some(([s[0]] + a, b))
  }

  lemma {:induction false} SplitFirstAt(a: string, sep: char, b: string)
    requires sep !in a
    ensures SplitFirst(a + [sep] + b, sep) == Some((a, b))
  {
    if a == "" {
      assert a + [sep] + b == [sep] + b;
    } else {
      assert (a + [sep] + b)[0] == a[0] && (a + [sep] + b)[1..] == a[1..] + [sep] + b;
      SplitFirstAt(a[1..], sep, b);
      assert [a[0]] + a[1..] == a;
    }
  }

  lemma {:induction false} SplitFirstExact(s: string, sep: char)
    ensures SplitFirst(s, sep).None? <==> sep !in s
    ensures forall a, b :: SplitFirst(s, sep) == Some((a, b)) ==> sep !in a && s == a + [sep] + b
  {
    if s != "" {
      SplitFirstExact(s[1..], sep);
      assert s == [s[0]] + s[1..];
    }
  }

  /** The ident and host of `nick!ident@host`. */
  function IdentHost(uh: string): Option<(string, string)> {
    match SplitFirst(uh, '!')
    case None => None
    case Some((_, rest)) => SplitFirst(rest, '@')
  }

  /** ExpandIPv6 is a library matter: here any function. */
  function ExpandHost(host: string, expand: string -> string): string {
    if ':' in host then expand(host) else host
  }

  /** When a mask admits a user host. */
  predicate Admits(mask: string, userHost: string, expand: string -> string) {
    match (IdentHost(mask), IdentHost(userHost))
    case (Some((mi, mh)), Some((ui, uh))) => Glob(mi, ui) && Glob(mh, ExpandHost(uh, expand))
    case _ => false
  }

  /** Masks and user hosts of the usual form: ident and host decide, the nick part of
      the mask is never looked at. */
  lemma {:induction false} AdmitsWellFormed(mn: string, mi: string, mh: string, n: string, i: string, h: string,
                         expand: string -> string)
    requires '!' !in mn && '@' !in mi && '!' !in n && '@' !in i
    ensures Admits(mn + "!" + (mi + "@" + mh), n + "!" + (i + "@" + h), expand)
       <==> Glob(mi, i) && Glob(mh, ExpandHost(h, expand))
  {
    SplitFirstAt(mn, '!', mi + "@" + mh);
    SplitFirstAt(n, '!', i + "@" + h);
    SplitFirstAt(mi, '@', mh);
    SplitFirstAt(i, '@', h);
  }

  /** And every other shape is refused: admission needs a `!` and a later `@` on both sides. */
  lemma AdmitsOnlyWellFormed(mask: string, userHost: string, expand: string -> string)
    requires Admits(mask, userHost, expand)
    ensures exists mn, mi, mh :: mask == mn + "!" + (mi + "@" + mh) && '!' !in mn && '@' !in mi
    ensures exists n, i, h :: userHost == n + "!" + (i + "@" + h) && '!' !in n && '@' !in i
  {
    forall s | IdentHost(s).Some?
      ensures exists n, i, h :: s == n + "!" + (i + "@" + h) && '!' !in n && '@' !in i
    {
      var (n, rest) := SplitFirst(s, '!').value;
      var (i, h) := SplitFirst(rest, '@').value;
      SplitFirstExact(s, '!');
      SplitFirstExact(rest, '@');
      assert s == n + "!" + (i + "@" + h);
    }
  }

  /** The process-wide pattern cache; a None entry records a failed compilation. */
  class Cache {
    var entries: map<string, Option<seq<Node>>>

    ghost predicate Valid()
      reads this
    {
      forall p :: p in entries ==> entries[p] == Compiled(p)
    }

    constructor ()
      ensures Valid() && entries == map[]
    {
      entries := map[];
    }

    method Compile(pattern: string) returns (re: Option<seq<Node>>)
      requires Valid()
      modifies this
      ensures Valid() && pattern in entries
      ensures old(entries).Keys + {pattern} == entries.Keys
      ensures re == Compiled(pattern)
    {
      if pattern in entries {
        return entries[pattern];
      }
      re := Compiled(pattern);
      entries := entries[pattern := re];
    }

    method MatchWildcard(pattern: string, str: string) returns (ok: bool)
      requires Valid()
      modifies this
      ensures Valid()
      ensures ok == Glob(pattern, str)
    {
      var re := Compile(pattern);
      CompilerCorrect(pattern, str);
      ok := re.Some? && Search(re.value, str);
    }

    method MatchUserHost(mask: string, userHost: string, expand: string -> string) returns (ok: bool)
      requires Valid()
      modifies this
      ensures Valid()
      ensures ok == Admits(mask, userHost, expand)
    {
      var mp, hp := SplitFirst(mask, '!'), SplitFirst(userHost, '!');
      if mp.None? || hp.None? { return false; }
      var mih, hih := SplitFirst(mp.value.1, '@'), SplitFirst(hp.value.1, '@');
      if mih.None? || hih.None? { return false; }
      ok := MatchWildcard(mih.value.0, hih.value.0);
      if !ok { return; }
      ok := MatchWildcard(mih.value.1, ExpandHost(hih.value.1, expand));
    }
  }
}
