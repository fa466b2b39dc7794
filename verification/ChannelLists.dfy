/** internal/runtime/state.go: validation, normalisation and splitting of channel lists. */
module ChannelLists {
  import opened Text

  const MAX_BYTES := 50

  datatype Problem = Empty | TooLong(bytes: nat) | BadPrefix(c: char) | BadChar(c: char)

  datatype Result = Ok(channels: seq<string>) | Err(name: string, problem: Problem)

  // ------------------------------------------------------------ single names

  /** len of the UTF-8 encoding. */
  function ByteLen(s: string): nat {
    if s == "" then 0
    else
      var n := s[0] as int;
      (if n < 0x80 then 1 else if n < 0x800 then 2 else if n < 0x1_0000 then 3 else 4) + ByteLen(s[1..])
  }

  /** The UTF-8 encoding of a character, section 3 of RFC 3629. */
  function Encoded(c: char): seq<nat> {
    var n := c as int;
    if n < 0x80 then [n]
    else if n < 0x800 then [0xC0 + n / 64, 0x80 + n % 64]
    else if n < 0x1_0000 then [0xE0 + n / 4096, 0x80 + n / 64 % 64, 0x80 + n % 64]
    else [0xF0 + n / 262144, 0x80 + n / 4096 % 64, 0x80 + n / 64 % 64, 0x80 + n % 64]
  }

  function EncodedAll(s: string): seq<nat> {
    if s == "" then [] else Encoded(s[0]) + EncodedAll(s[1..])
  }

  /** How long an encoding is, told from its first byte. */
  function LengthByLead(lead: nat): nat {
    if lead < 0x80 then 1 else if lead < 0xE0 then 2 else if lead < 0xF0 then 3 else 4
  }

  /** The first byte tells the length, and the others are continuation bytes. */
  lemma EncodedWell(c: char)
    ensures var e := Encoded(c);
      |e| == LengthByLead(e[0]) && e[0] <= 0xF4 && forall i :: 0 < i < |e| ==> 0x80 <= e[i] < 0xC0
  {
    var n := c as int;
    if n >= 0x1_0000 {
      assert n / 262144 <= 4;
    } else if n >= 0x800 {
      assert n / 4096 < 16;
    } else if n >= 0x80 {
      assert n / 64 < 32;
    }
  }

  /** ByteLen counts the bytes of that encoding. */
  lemma {:induction false} ByteLenCounts(s: string)
    ensures ByteLen(s) == |EncodedAll(s)|
  {
    if s != "" { ByteLenCounts(s[1..]); }
  }

  predicate Forbidden(c: char) {
    c in [' ', '\t', '\r', '\n', ',', 0 as char, 7 as char]
  }

  predicate ValidChannel(name: string) {
    && name != "" && ByteLen(name) <= MAX_BYTES && name[0] in ['#', '&', '+', '!']
    && forall i :: 0 <= i < |name| ==> !Forbidden(name[i])
  }

  /** The first problem validateChannel reports, in the order of its tests. */
  method ValidateChannel(name: string) returns (r: Option<Problem>)
    ensures r == Verdict(name)
  {
    if name == "" {
      return Some(Empty);
    }
    if ByteLen(name) > MAX_BYTES {
      return Some(TooLong(ByteLen(name)));
    }
    if name[0] !in ['#', '&', '+', '!'] {
      return Some(BadPrefix(name[0]));
    }
    var i := 0;
    while i < |name|
      invariant 0 <= i <= |name|
      invariant FirstForbidden(name, 0) == FirstForbidden(name, i)
    {
      if Forbidden(name[i]) {
        return Some(BadChar(name[i]));
      }
      i := i + 1;
    }
    return None;
  }

  function FirstForbidden(name: string, i: nat): (r: Option<char>)
    ensures r.None? <==> forall j :: i <= j < |name| ==> !Forbidden(name[j])
    ensures r.Some? ==> exists j :: i <= j < |name| && name[j] == r.value && Forbidden(name[j])
    decreases |name| - i
  {
    if i >= |name| then None
    else if Forbidden(name[i]) then Some(name[i])
    else FirstForbidden(name, i + 1)
  }

  function Verdict(name: string): (r: Option<Problem>)
    ensures r.None? <==> ValidChannel(name)
  {
    if name == "" then Some(Empty)
    else if ByteLen(name) > MAX_BYTES then Some(TooLong(ByteLen(name)))
    else if name[0] !in ['#', '&', '+', '!'] then Some(BadPrefix(name[0]))
    else
      match FirstForbidden(name, 0)
      case Some(c) => Some(BadChar(c))
      case None => None
  }

  // ------------------------------------------------------------ white space

  function TrimLeft(s: string): string {
    if s != "" && IsSpace(s[0]) then TrimLeft(s[1..]) else s
  }

  function TrimRight(s: string): string {
    if s != "" && IsSpace(s[|s| - 1]) then TrimRight(s[..|s| - 1]) else s
  }

  function TrimSpace(s: string): string {
    TrimRight(TrimLeft(s))
  }

  predicate Tight(s: string) {
    s != "" ==> !IsSpace(s[0]) && !IsSpace(s[|s| - 1])
  }

  predicate AllSpace(s: string) {
    forall i :: 0 <= i < |s| ==> IsSpace(s[i])
  }

  predicate Spaceless(s: string) {
    forall i :: 0 <= i < |s| ==> !IsSpace(s[i])
  }

  lemma {:induction false} TrimLeftSplits(s: string) returns (pad: string)
    ensures s == pad + TrimLeft(s) && AllSpace(pad)
    ensures TrimLeft(s) != "" ==> !IsSpace(TrimLeft(s)[0])
  {
    if s != "" && IsSpace(s[0]) {
      var rest := TrimLeftSplits(s[1..]);
      pad := [s[0]] + rest;
    } else {
      pad := "";
    }
  }

  lemma {:induction false} TrimRightSplits(s: string) returns (pad: string)
    ensures s == TrimRight(s) + pad && AllSpace(pad)
    ensures TrimRight(s) != "" ==> !IsSpace(TrimRight(s)[|TrimRight(s)| - 1])
  {
    if s != "" && IsSpace(s[|s| - 1]) {
      var front, last := s[..|s| - 1], s[|s| - 1];
      var rest := TrimRightSplits(front);
      pad := rest + [last];
      assert s == front + [last] && TrimRight(front) + (rest + [last]) == TrimRight(front) + rest + [last];
    } else {
      pad := "";
    }
  }

  /** Trimming takes white space off both ends and nothing else, and all of it. */
  lemma TrimExact(s: string) returns (before: string, after: string)
    ensures s == before + TrimSpace(s) + after && AllSpace(before) && AllSpace(after) && Tight(TrimSpace(s))
  {
    before := TrimLeftSplits(s);
    var t := TrimLeft(s);
    after := TrimRightSplits(t);
    if TrimSpace(s) != "" {
      assert TrimSpace(s)[0] == t[0];
    }
  }

  lemma TightStays(s: string)
    requires Tight(s)
    ensures TrimSpace(s) == s
  {
  }

  // ------------------------------------------------------------ normalisation

  /** The trimmed entries that are not empty. */
  function Cleaned(input: seq<string>): seq<string> {
    if input == [] then []
    else
      var c := TrimSpace(input[|input| - 1]);
      Cleaned(input[..|input| - 1]) + if c == "" then [] else [c]
  }

  function FirstBad(list: seq<string>): (r: Option<nat>)
    ensures r.None? <==> forall i :: 0 <= i < |list| ==> ValidChannel(list[i])
    ensures r.Some? ==> r.value < |list| && !ValidChannel(list[r.value])
                        && forall i :: 0 <= i < r.value ==> ValidChannel(list[i])
  {
    if list == [] then None
    else
      var front := FirstBad(list[..|list| - 1]);
      if front.Some? then front
      else if ValidChannel(list[|list| - 1]) then None
      else Some(|list| - 1)
  }

  /** Entry i does not repeat an earlier one. */
  predicate IsFirst(list: seq<string>, i: nat)
    requires i < |list|
  {
    !HasKey(list[..i], ToLower(list[i]))
  }

  predicate HasKey(list: seq<string>, key: string) {
    exists j :: 0 <= j < |list| && ToLower(list[j]) == key
  }

  /** The first occurrences, in order. */
  function Firsts(list: seq<string>): seq<string> {
    if list == [] then []
    else
      Firsts(list[..|list| - 1]) + if IsFirst(list, |list| - 1) then [list[|list| - 1]] else []
  }

  function Normalized(input: seq<string>): Result {
    var list := Cleaned(input);
    match FirstBad(list)
    case Some(k) => Err(list[k], Verdict(list[k]).value)
    case None => Ok(Firsts(list))
  }

  lemma FirstBadSnoc(list: seq<string>, c: string)
    requires FirstBad(list).None?
    ensures FirstBad(list + [c]) == if ValidChannel(c) then None else Some(|list|)
  {
    assert (list + [c])[..|list|] == list;
  }

  lemma {:induction false} CleanedPrefix(input: seq<string>, i: nat)
    requires i <= |input|
    ensures Cleaned(input[..i]) <= Cleaned(input)
    decreases |input|
  {
    if i == |input| {
      assert input[..i] == input;
    } else {
      CleanedPrefix(input[..|input| - 1], i);
      assert input[..|input| - 1][..i] == input[..i];
    }
  }

  lemma CleanedSnoc(input: seq<string>, i: nat)
    requires i < |input|
    ensures var c := TrimSpace(input[i]);
      Cleaned(input[..i + 1]) == if c == "" then Cleaned(input[..i]) else Cleaned(input[..i]) + [c]
  {
    assert input[..i + 1][..i] == input[..i];
  }

  lemma AfterPrefix(list: seq<string>, c: string, full: seq<string>)
    requires list + [c] <= full
    ensures |list| < |full| && full[|list|] == c && full[..|list|] == list
  {
    assert (list + [c])[|list|] == c;
  }

  lemma FirstProblem(full: seq<string>, n: nat)
    requires n < |full| && FirstBad(full[..n]).None? && !ValidChannel(full[n])
    ensures FirstBad(full) == Some(n)
  {
    forall i | 0 <= i < n ensures ValidChannel(full[i]) {
      assert full[..n][i] == full[i];
    }
  }

  /** A problem found in the first entries is the one reported. */
  lemma ErrorStays(input: seq<string>, i: nat, c: string)
    requires i < |input| && FirstBad(Cleaned(input[..i])).None?
    requires c == TrimSpace(input[i]) && c != "" && !ValidChannel(c)
    ensures Normalized(input) == Err(c, Verdict(c).value)
  {
    CleanedPrefix(input, i + 1);
    CleanedSnoc(input, i);
    AfterPrefix(Cleaned(input[..i]), c, Cleaned(input));
    FirstProblem(Cleaned(input), |Cleaned(input[..i])|);
  }

  lemma FirstsSnoc(list: seq<string>, c: string)
    ensures Firsts(list + [c]) == Firsts(list) + if HasKey(list, ToLower(c)) then [] else [c]
  {
    assert (list + [c])[..|list|] == list;
  }

  lemma HasKeySnoc(list: seq<string>, c: string, key: string)
    ensures HasKey(list + [c], key) <==> HasKey(list, key) || ToLower(c) == key
  {
    if HasKey(list, key) {
      var j :| 0 <= j < |list| && ToLower(list[j]) == key;
      assert (list + [c])[j] == list[j];
    }
    assert (list + [c])[|list|] == c;
  }

  ghost predicate SeenIs(seen: set<string>, list: seq<string>) {
    forall key :: key in seen <==> HasKey(list, key)
  }

  lemma SeenSnoc(seen: set<string>, list: seq<string>, c: string)
    requires SeenIs(seen, list)
    ensures SeenIs(seen + {ToLower(c)}, list + [c])
    ensures ToLower(c) in seen <==> HasKey(list, ToLower(c))
    ensures ToLower(c) in seen ==> seen + {ToLower(c)} == seen
  {
    forall key ensures HasKey(list + [c], key) <==> HasKey(list, key) || ToLower(c) == key {
      HasKeySnoc(list, c, key);
    }
  }

  /** What the loop has done when the entries in `list` have passed. */
  ghost predicate Taken(list: seq<string>, seen: set<string>, out: seq<string>) {
    FirstBad(list).None? && out == Firsts(list) && SeenIs(seen, list)
  }

  /** One more valid entry. */
  lemma TakenNext(list: seq<string>, seen: set<string>, out: seq<string>, c: string)
    requires Taken(list, seen, out) && ValidChannel(c)
    ensures if ToLower(c) in seen then Taken(list + [c], seen, out)
            else Taken(list + [c], seen + {ToLower(c)}, out + [c])
  {
    FirstBadSnoc(list, c);
    FirstsSnoc(list, c);
    SeenSnoc(seen, list, c);
  }

  /** normalizeChannels, with its seen map. */
  method NormalizeChannels(input: seq<string>) returns (r: Result)
    ensures r == Normalized(input)
  {
    if |input| == 0 {
      return Ok([]);
    }
    var out: seq<string> := [];
    var seen: set<string> := {};
    ghost var list: seq<string> := [];
    var i := 0;
    while i < |input|
      invariant 0 <= i <= |input| && list == Cleaned(input[..i]) && Taken(list, seen, out)
    {
      var c := TrimSpace(input[i]);
      CleanedSnoc(input, i);
      if c != "" {
        var problem := ValidateChannel(c);
        if problem.Some? {
          ErrorStays(input, i, c);
          return Err(c, problem.value);
        }
        TakenNext(list, seen, out, c);
        var key := ToLower(c);
        if key !in seen {
          seen := seen + {key};
          out := out + [c];
        }
        list := list + [c];
      }
      i := i + 1;
    }
    assert input[..i] == input;
    return Ok(out);
  }

  /** The positions of the first occurrences. */
  function Positions(list: seq<string>): seq<nat> {
    if list == [] then []
    else
      Positions(list[..|list| - 1]) + if IsFirst(list, |list| - 1) then [|list| - 1] else []
  }

  lemma PositionsSnoc(list: seq<string>)
    requires list != []
    ensures var n := |list| - 1;
      Positions(list) == Positions(list[..n]) + if IsFirst(list, n) then [n] else []
  {
  }

  predicate Ascending(p: seq<nat>, n: nat) {
    (forall k :: 0 <= k < |p| ==> p[k] < n) && (forall j, k :: 0 <= j < k < |p| ==> p[j] < p[k])
  }

  lemma {:induction false} PositionsAscend(list: seq<string>)
    ensures Ascending(Positions(list), |list|)
  {
    if list != [] {
      PositionsAscend(list[..|list| - 1]);
      PositionsSnoc(list);
    }
  }

  lemma {:induction false} PositionsMember(list: seq<string>, i: nat)
    requires i < |list|
    ensures i in Positions(list) <==> IsFirst(list, i)
  {
    var n := |list| - 1;
    var front := list[..n];
    PositionsAscend(front);
    PositionsSnoc(list);
    if i < n {
      PositionsMember(front, i);
      assert front[..i] == list[..i] && front[i] == list[i];
    }
  }

  lemma PositionsExact(list: seq<string>)
    ensures var p := Positions(list);
      && (forall k :: 0 <= k < |p| ==> p[k] < |list|)
      && (forall j, k :: 0 <= j < k < |p| ==> p[j] < p[k])
      && (forall i :: 0 <= i < |list| ==> (i in p <==> IsFirst(list, i)))
  {
    PositionsAscend(list);
    forall i | 0 <= i < |list| ensures i in Positions(list) <==> IsFirst(list, i) {
      PositionsMember(list, i);
    }
  }

  lemma {:induction false} FirstsAt(list: seq<string>)
    ensures |Positions(list)| == |Firsts(list)|
    ensures forall k :: 0 <= k < |Firsts(list)| ==>
              Positions(list)[k] < |list| && Firsts(list)[k] == list[Positions(list)[k]]
  {
    if list != [] {
      FirstsAt(list[..|list| - 1]);
    }
  }

  /** Firsts picks, in the order of the list, exactly the entries no earlier one equals up to
      case. */
  lemma FirstsExact(list: seq<string>)
    ensures var p := Positions(list);
      && |p| == |Firsts(list)|
      && (forall k :: 0 <= k < |p| ==> p[k] < |list| && Firsts(list)[k] == list[p[k]])
      && (forall j, k :: 0 <= j < k < |p| ==> p[j] < p[k])
      && (forall i :: 0 <= i < |list| ==> (i in p <==> IsFirst(list, i)))
  {
    PositionsExact(list);
    FirstsAt(list);
  }

  lemma {:induction false} FirstsKeys(list: seq<string>, key: string)
    ensures HasKey(Firsts(list), key) <==> HasKey(list, key)
  {
    if list != [] {
      var front, c := list[..|list| - 1], list[|list| - 1];
      assert list == front + [c];
      FirstsKeys(front, key);
      FirstsSnoc(front, c);
      HasKeySnoc(front, c, key);
      HasKeySnoc(Firsts(front), c, key);
      if HasKey(front, ToLower(c)) {
        assert Firsts(list) == Firsts(front);
      }
    }
  }

  lemma {:induction false} FirstsDistinct(list: seq<string>)
    ensures DistinctIgnoringCase(Firsts(list))
  {
    if list != [] {
      var front, c := list[..|list| - 1], list[|list| - 1];
      assert list == front + [c];
      FirstsDistinct(front);
      FirstsSnoc(front, c);
      FirstsKeys(front, ToLower(c));
    }
  }

  lemma {:induction false} FirstsOfDistinct(list: seq<string>)
    requires DistinctIgnoringCase(list)
    ensures Firsts(list) == list
  {
    if list != [] {
      var front, c := list[..|list| - 1], list[|list| - 1];
      assert list == front + [c];
      FirstsOfDistinct(front);
      FirstsSnoc(front, c);
    }
  }

  predicate Clean(list: seq<string>) {
    && DistinctIgnoringCase(list)
    && forall i :: 0 <= i < |list| ==> ValidChannel(list[i]) && Tight(list[i])
  }

  lemma {:induction false} CleanedTight(input: seq<string>)
    ensures forall i :: 0 <= i < |Cleaned(input)| ==> Tight(Cleaned(input)[i]) && Cleaned(input)[i] != ""
  {
    if input != [] {
      CleanedTight(input[..|input| - 1]);
      var _, _ := TrimExact(input[|input| - 1]);
    }
  }

  lemma {:induction false} CleanedOfTight(list: seq<string>)
    requires forall i :: 0 <= i < |list| ==> Tight(list[i]) && list[i] != ""
    ensures Cleaned(list) == list
  {
    if list != [] {
      CleanedOfTight(list[..|list| - 1]);
      TightStays(list[|list| - 1]);
      assert list == list[..|list| - 1] + [list[|list| - 1]];
    }
  }

  /** A normalised list is clean. */
  lemma NormalizedClean(input: seq<string>)
    requires Normalized(input).Ok?
    ensures Clean(Normalized(input).channels)
  {
    var list := Cleaned(input);
    CleanedTight(input);
    FirstsDistinct(list);
    FirstsExact(list);
  }

  /** The clean lists are exactly the ones normalisation leaves alone: it is idempotent. */
  lemma FixedIffClean(list: seq<string>)
    ensures Normalized(list) == Ok(list) <==> Clean(list)
  {
    if Normalized(list) == Ok(list) {
      NormalizedClean(list);
    }
    if Clean(list) {
      CleanedOfTight(list);
      FirstsOfDistinct(list);
    }
  }

  lemma Idempotent(input: seq<string>)
    requires Normalized(input).Ok?
    ensures Normalized(Normalized(input).channels) == Normalized(input)
  {
    NormalizedClean(input);
    FixedIffClean(Normalized(input).channels);
  }

  lemma {:induction false} CleanedMembers(input: seq<string>)
    ensures forall c :: c in Cleaned(input) <==> c != "" && c in Trims(input)
  {
    if input != [] {
      var front := input[..|input| - 1];
      CleanedMembers(front);
      assert Trims(input) == Trims(front) + [TrimSpace(input[|input| - 1])];
    }
  }

  function Trims(input: seq<string>): seq<string> {
    seq(|input|, i requires 0 <= i < |input| => TrimSpace(input[i]))
  }

  /** Normalisation fails exactly on the lists with an entry that is neither blank nor, once
      trimmed, a valid name. */
  lemma FailsExactly(input: seq<string>)
    ensures Normalized(input).Err? <==> exists c :: c in Trims(input) && c != "" && !ValidChannel(c)
  {
    CleanedMembers(input);
    var list := Cleaned(input);
    if Normalized(input).Err? {
      assert list[FirstBad(list).value] in list;
    }
    if c :| c in Trims(input) && c != "" && !ValidChannel(c) {
      assert c in list;
      var i :| 0 <= i < |list| && list[i] == c;
    }
  }

  // ------------------------------------------------------------ splitting and joining

  /** The leading word of s. */
  function Word(s: string): string {
    if s == "" || IsSpace(s[0]) then "" else [s[0]] + Word(s[1..])
  }

  lemma {:induction false} WordPrefix(s: string)
    ensures |Word(s)| <= |s| && Word(s) == s[..|Word(s)|] && Spaceless(Word(s))
  {
    if s != "" && !IsSpace(s[0]) {
      WordPrefix(s[1..]);
    }
  }

  /** strings.Fields: the maximal runs of characters that are not white space. */
  function Fields(s: string): seq<string>
    decreases |s|
  {
    if s == "" then []
    else if IsSpace(s[0]) then Fields(s[1..])
    else
      WordPrefix(s);
      [Word(s)] + Fields(s[|Word(s)|..])
  }

  lemma {:induction false} FieldsOfBlank(s: string)
    requires AllSpace(s)
    ensures Fields(s) == []
  {
    if s != "" {
      FieldsOfBlank(s[1..]);
    }
  }

  /** SplitChannelList. */
  method SplitChannelList(s: string) returns (r: seq<string>)
    ensures r == Fields(s)
  {
    if TrimSpace(s) == "" {
      var before, after := TrimExact(s);
      FieldsOfBlank(s);
      return [];
    }
    var parts := Fields(s);
    r := [];
    var i := 0;
    while i < |parts|
      invariant 0 <= i <= |parts| && r == parts[..i]
    {
      r := r + [parts[i]];
      i := i + 1;
    }
  }

  function Join(list: seq<string>): string {
    if list == [] then ""
    else if |list| == 1 then list[0]
    else list[0] + " " + Join(list[1..])
  }

  lemma {:induction false} FieldsSpaceless(s: string)
    ensures forall i :: 0 <= i < |Fields(s)| ==> Fields(s)[i] != "" && Spaceless(Fields(s)[i])
    decreases |s|
  {
    if s != "" {
      if IsSpace(s[0]) {
        FieldsSpaceless(s[1..]);
      } else {
        WordPrefix(s);
        FieldsSpaceless(s[|Word(s)|..]);
      }
    }
  }

  lemma {:induction false} WordOf(w: string, rest: string)
    requires Spaceless(w) && (rest == "" || IsSpace(rest[0]))
    ensures Word(w + rest) == w
  {
    if w != "" {
      assert w + rest == [w[0]] + (w[1..] + rest);
      WordOf(w[1..], rest);
    } else {
      assert w + rest == rest;
    }
  }

  lemma FieldsCons(w: string, rest: string)
    requires w != "" && Spaceless(w) && (rest == "" || IsSpace(rest[0]))
    ensures Fields(w + rest) == [w] + Fields(rest)
  {
    WordOf(w, rest);
    assert (w + rest)[|w|..] == rest;
  }

  lemma {:induction false} FieldsJoin(list: seq<string>)
    requires forall i :: 0 <= i < |list| ==> list[i] != "" && Spaceless(list[i])
    ensures Fields(Join(list)) == list
  {
    if |list| == 1 {
      FieldsCons(list[0], "");
      assert list[0] + "" == list[0];
    } else if list != [] {
      var rest := Join(list[1..]);
      FieldsCons(list[0], " " + rest);
      assert list[0] + " " + rest == list[0] + (" " + rest);
      assert (" " + rest)[1..] == rest;
      FieldsJoin(list[1..]);
    }
  }

  /** A normalised list survives joining with spaces and splitting again exactly when no name has
      white space inside.  validateChannel refuses four white-space characters only. */
  lemma JoinSplit(input: seq<string>)
    requires Normalized(input).Ok?
    ensures var out := Normalized(input).channels;
      (Fields(Join(out)) == out && Normalized(Fields(Join(out))) == Ok(out))
      <==> forall i :: 0 <= i < |out| ==> Spaceless(out[i])
  {
    var out := Normalized(input).channels;
    NormalizedClean(input);
    Idempotent(input);
    FieldsSpaceless(Join(out));
    if forall i :: 0 <= i < |out| ==> Spaceless(out[i]) {
      FieldsJoin(out);
    }
  }

  /** A name with a vertical tab inside is accepted and does not survive. */
  lemma VerticalTabSplits()
    ensures var name := ['#', 11 as char, 'a'];
      Normalized([name]) == Ok([name]) && Fields(Join([name])) != [name]
  {
    var name := ['#', 11 as char, 'a'];
    assert ByteLen(name) == 1 + ByteLen(name[1..]) && ByteLen(name[1..]) == 1 + ByteLen(name[2..]);
    assert ByteLen(name[2..]) == 1;
    assert Clean([name]);
    FixedIffClean([name]);
    FieldsSpaceless(Join([name]));
  }

  /** What the panel's string gives always survives. */
  lemma PanelSurvives(s: string)
    requires Normalized(Fields(s)).Ok?
    ensures var out := Normalized(Fields(s)).channels;
      Fields(Join(out)) == out && Normalized(Fields(Join(out))) == Ok(out)
  {
    var fields := Fields(s);
    FieldsSpaceless(s);
    forall i | 0 <= i < |fields| ensures Tight(fields[i]) && fields[i] != "" {
      assert Spaceless(fields[i]);
    }
    CleanedOfTight(fields);
    FirstsExact(fields);
    var out := Normalized(fields).channels;
    forall i | 0 <= i < |out| ensures Spaceless(out[i]) {
      assert out[i] == fields[Positions(fields)[i]];
    }
    JoinSplit(fields);
  }
}
