/** Character and string helpers shared by the models.  Lower-casing is the
    ASCII one. */
module Text {

  datatype Option<+T> = None | Some(value: T)

  function LowerChar(c: char): char {
    if 'A' <= c <= 'Z' then c - 'A' + 'a' else c
  }

  /** strings.ToLower on ASCII text. */
  function ToLower(s: string): string {
    seq(|s|, i requires 0 <= i < |s| => LowerChar(s[i]))
  }

  /** Two strings have the same lower case exactly if they agree up to the case of their letters. */
  lemma LowerFolds(a: string, b: string)
    ensures ToLower(a) == ToLower(b) <==>
      |a| == |b| && forall i :: 0 <= i < |a| ==> a[i] == b[i] || CasePair(a[i], b[i]) || CasePair(b[i], a[i])
  {
    if ToLower(a) == ToLower(b) {
      assert |ToLower(a)| == |ToLower(b)|;
      forall i | 0 <= i < |a| ensures LowerChar(a[i]) == LowerChar(b[i]) {
        assert ToLower(a)[i] == ToLower(b)[i];
      }
    }
  }

  /** A letter's upper and lower case. */
  predicate CasePair(upper: char, lower: char) {
    'A' <= upper <= 'Z' && 'a' <= lower <= 'z' && upper as int - 'A' as int == lower as int - 'a' as int
  }

  /** helpers.go ContainsIgnoreCase: some element equals `item` after lower-casing. */
  predicate ContainsIgnoreCase(list: seq<string>, item: string) {
    exists i :: 0 <= i < |list| && ToLower(list[i]) == ToLower(item)
  }

  /** The distinct-up-to-case lists the scheduler is meant to run on. */
  predicate DistinctIgnoringCase(list: seq<string>) {
    forall i, j :: 0 <= i < j < |list| ==> ToLower(list[i]) != ToLower(list[j])
  }

  /** The white space of strings.Fields and strings.TrimSpace. */
  predicate IsSpace(c: char) {
    var n := c as int;
    || 9 <= n <= 13 || n == 32 || n == 0x85 || n == 0xA0 || n == 0x1680 || 0x2000 <= n <= 0x200A
    || n == 0x2028 || n == 0x2029 || n == 0x202F || n == 0x205F || n == 0x3000
  }

  /** The last n elements, or all of a shorter list. */
  function LastN<T>(list: seq<T>, n: nat): seq<T> {
    if |list| <= n then list else list[|list| - n..]
  }

  lemma LastNSnoc<T>(list: seq<T>, n: nat, x: T)
    requires n > 0
    ensures var last := LastN(list, n);
      LastN(list + [x], n) == (if |last| == n then last[1..] else last) + [x]
  {
  }

  predicate Distinct<T(==)>(list: seq<T>) {
    forall i, j :: 0 <= i < j < |list| ==> list[i] != list[j]
  }
}
