/** The fragment of Go's regular-expression syntax that the owner-mask compiler
    can produce: literals, escaped punctuation, `.`, `*`, bracket classes and the
    two anchors.  A parser from text to nodes and a declarative meaning. */
module Regex {
  import opened Text

  datatype ClassItem = Range(lo: char, hi: char) | Space
  datatype CharSet = Dot | Lit(c: char) | Class(negated: bool, items: seq<ClassItem>)
  datatype Node = One(cs: CharSet) | Many(cs: CharSet) | Begin | End

  /** \s of the regular-expression syntax (no vertical tab, unlike IsSpace). */
  predicate PerlSpace(c: char) {
    c == ' ' || c == '\t' || c == '\n' || c == '\r' || c as int == 12
  }

  predicate InItem(item: ClassItem, c: char) {
    match item
    case Range(lo, hi) => lo <= c <= hi
    case Space => PerlSpace(c)
  }

  /** Membership; without the `s` flag a dot does not match a newline. */
  predicate In(cs: CharSet, c: char) {
    match cs
    case Dot => c != '\n'
    case Lit(d) => c == d
    case Class(negated, items) =>
      negated != exists k :: 0 <= k < |items| && InItem(items[k], c)
  }

  /** The nodes `re` consume exactly s[i..j], in the text s. */
  predicate MatchesAt(re: seq<Node>, s: string, i: nat, j: nat)
    decreases |re|
  {
    i <= j <= |s| &&
    if re == [] then i == j
    else match re[0]
      case Begin => i == 0 && MatchesAt(re[1..], s, i, j)
      case End => i == |s| && MatchesAt(re[1..], s, i, j)
      case One(cs) => i < j && In(cs, s[i]) && MatchesAt(re[1..], s, i + 1, j)
      case Many(cs) =>
        exists k: nat :: i <= k <= j
          && (forall m :: i <= m < k ==> In(cs, s[m]))
          && MatchesAt(re[1..], s, k, j)
  }

  /** Regexp.MatchString: some part of the text matches. */
  predicate Search(re: seq<Node>, s: string) {
    exists i: nat, j: nat :: i <= |s| && j <= |s| && MatchesAt(re, s, i, j)
  }

  const META: string := "\\.+*?()|[]{}^$"

  predicate AsciiAlnum(c: char) {
    '0' <= c <= '9' || 'a' <= c <= 'z' || 'A' <= c <= 'Z'
  }

  /** The items of a bracket class up to and including the closing bracket. */
  function ParseItems(t: string): (r: Option<(seq<ClassItem>, string)>)
    ensures r.Some? ==> |r.value.1| < |t|
  {
    if t == "" then None
    else if t[0] == ']' then Some(([], t[1..]))
    else if t[0] == '\\' then
      if |t| >= 2 && t[1] == 's' then
        match ParseItems(t[2..])
        case None => None
        case Some(rest) => Some(([Space] + rest.0, rest.1))
      else None
    else if |t| >= 3 && t[1] == '-' && t[2] != ']' then
      if t[2] < t[0] || t[2] == '\\' then None
      else match ParseItems(t[3..])
        case None => None
        case Some(rest) => Some(([Range(t[0], t[2])] + rest.0, rest.1))
    else
      match ParseItems(t[1..])
      case None => None
      case Some(rest) => Some(([Range(t[0], t[0])] + rest.0, rest.1))
  }

  /** One node without a repetition mark, and the text after it.  None stands for
      a syntax error or for syntax outside the fragment. */
  function ParseAtom(t: string): (r: Option<(Node, string)>)
    requires t != ""
    ensures r.Some? ==> |r.value.1| < |t|
  {
    if t[0] == '^' then Some((Begin, t[1..]))
    else if t[0] == '$' then Some((End, t[1..]))
    else if t[0] == '.' then Some((One(Dot), t[1..]))
    else if t[0] == '\\' then
      if |t| >= 2 && (t[1] as int) < 128 && !AsciiAlnum(t[1])
      then Some((One(Lit(t[1])), t[2..])) else None
    else if t[0] == '[' then
      var negated := |t| >= 2 && t[1] == '^';
      (match ParseItems(if negated then t[2..] else t[1..])
       case None => None
       case Some(r) => Some((One(Class(negated, r.0)), r.1)))
    else if t[0] in META then None
    else Some((One(Lit(t[0])), t[1..]))
  }

  predicate StartsRepetition(t: string) {
    t != "" && (t[0] == '*' || t[0] == '+' || t[0] == '?' || t[0] == '{')
  }

  /** A whole expression.  A doubled repetition mark is an error, as in Go. */
  function Parse(t: string): Option<seq<Node>>
    decreases |t|
  {
    if t == "" then Some([])
    else match ParseAtom(t)
      case None => None
      case Some((node, rest)) =>
        if rest != "" && rest[0] == '*' then
          if !node.One? || StartsRepetition(rest[1..]) then None
          else match Parse(rest[1..])
            case None => None
            case Some(tail) => Some([Many(node.cs)] + tail)
        else if StartsRepetition(rest) then None
        else match Parse(rest)
          case None => None
          case Some(tail) => Some([node] + tail)
  }
}
