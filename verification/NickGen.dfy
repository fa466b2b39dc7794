/** internal/util/nickgen.go: composed nicks and the window of recent ones.  The random draws are
    inputs; calls are sequential. */
module NickGen {
  import opened Text

  const DEFAULT_LENGTH := 15
  const LENGTH_CAP := 15
  const RECENT_WINDOW: nat := 512
  const ATTEMPTS: nat := 256
  const VOWELS := ['a', 'e', 'i', 'o', 'u', 'y']
  const UGLY := ["qj", "jq", "zx", "xz", "vv", "ww", "jj", "kkk", "qq", "yyy"]

  function NormalizedLength(length: int): (r: int)
    ensures 1 <= r <= LENGTH_CAP
    ensures r == length <==> 1 <= length <= LENGTH_CAP
  {
    if length <= 0 then DEFAULT_LENGTH else if length > LENGTH_CAP then LENGTH_CAP else length
  }

  // ------------------------------------------------------------ candidates

  predicate IsAlpha(s: string) {
    forall i :: 0 <= i < |s| ==> 'a' <= s[i] <= 'z'
  }

  function Vowels(s: string): nat {
    if s == "" then 0 else Vowels(s[..|s| - 1]) + if s[|s| - 1] in VOWELS then 1 else 0
  }

  predicate Triple(s: string, i: nat)
    requires i + 2 < |s|
  {
    s[i] == s[i + 1] == s[i + 2]
  }

  predicate NoTriple(s: string) {
    forall i :: 0 <= i < |s| - 2 ==> !Triple(s, i)
  }

  predicate OccursAt(s: string, sub: string, i: nat) {
    i + |sub| <= |s| && s[i..i + |sub|] == sub
  }

  predicate Contains(s: string, sub: string) {
    exists i :: 0 <= i <= |s| && OccursAt(s, sub, i)
  }

  /** What makes a nick acceptable. */
  predicate Candidate(nick: string, maxLen: int) {
    && 6 <= |nick| <= maxLen && IsAlpha(nick)
    && NoTriple(nick) && Vowels(nick) >= 2
    && forall k :: 0 <= k < |UGLY| ==> !Contains(nick, UGLY[k])
  }

  /** The counting loop of the source. */
  method IsNickCandidate(nick: string, maxLen: int) returns (ok: bool)
    ensures ok <==> Candidate(nick, maxLen)
  {
    if |nick| < 6 || |nick| > maxLen || !IsAlpha(nick) {
      return false;
    }
    var vowels := 0;
    var run := 1;
    var i := 0;
    while i < |nick|
      invariant 0 <= i <= |nick|
      invariant vowels == Vowels(nick[..i])
      invariant run == 1 || run == 2
      invariant run == 2 <==> i >= 2 && nick[i - 1] == nick[i - 2]
      invariant forall k :: 0 <= k < i - 2 ==> !Triple(nick, k)
    {
      assert nick[..i + 1][..i] == nick[..i];
      if nick[i] in VOWELS {
        vowels := vowels + 1;
      }
      if i > 0 && nick[i] == nick[i - 1] {
        run := run + 1;
        if run >= 3 {
          assert Triple(nick, i - 2);
          return false;
        }
      } else {
        run := 1;
      }
      i := i + 1;
    }
    assert nick[..i] == nick;
    if vowels < 2 {
      return false;
    }
    var k := 0;
    while k < |UGLY|
      invariant 0 <= k <= |UGLY|
      invariant forall j :: 0 <= j < k ==> !Contains(nick, UGLY[j])
    {
      if Contains(nick, UGLY[k]) {
        return false;
      }
      k := k + 1;
    }
    return true;
  }

  predicate HasPrefix(s: string, prefix: string) {
    prefix <= s
  }

  predicate HasSuffix(s: string, suffix: string) {
    |suffix| <= |s| && s[|s| - |suffix|..] == suffix
  }

  predicate Combines(lead: string, tail: string, maxLen: int) {
    && Candidate(lead + tail, NormalizedLength(maxLen))
    && !HasPrefix(tail, lead) && !HasSuffix(lead, tail)
  }

  method CombineNickParts(lead: string, tail: string, maxLen: int) returns (nick: Option<string>)
    ensures nick == if Combines(lead, tail, maxLen) then Some(lead + tail) else None
  {
    var max := NormalizedLength(maxLen);
    if |lead| + |tail| > max {
      return None;
    }
    var ok := IsNickCandidate(lead + tail, max);
    if !ok {
      return None;
    }
    if HasPrefix(tail, lead) || HasSuffix(lead, tail) {
      return None;
    }
    return Some(lead + tail);
  }

  // ------------------------------------------------------------ what these mean

  predicate VowelAt(s: string, i: nat) {
    i < |s| && s[i] in VOWELS
  }

  lemma {:induction false} VowelFound(s: string)
    ensures Vowels(s) >= 1 <==> exists i: nat :: VowelAt(s, i)
  {
    if s != "" {
      var front, n := s[..|s| - 1], |s| - 1;
      VowelFound(front);
      assert s[n] in VOWELS <==> VowelAt(s, n);
      forall i: nat | i < n ensures VowelAt(front, i) <==> VowelAt(s, i) {}
      if i: nat :| VowelAt(front, i) { assert VowelAt(s, i); }
      if i: nat :| VowelAt(s, i) {
        if i < n { assert VowelAt(front, i); }
      }
    }
  }

  predicate TwoVowels(s: string, i: nat, j: nat) {
    i < j && VowelAt(s, i) && VowelAt(s, j)
  }

  lemma {:induction false} VowelsFound(s: string)
    ensures Vowels(s) >= 2 <==> exists i: nat, j: nat :: TwoVowels(s, i, j)
  {
    if s != "" {
      var front, n := s[..|s| - 1], |s| - 1;
      VowelsFound(front);
      VowelFound(front);
      assert s[n] in VOWELS <==> VowelAt(s, n);
      forall i: nat | i < n ensures VowelAt(front, i) <==> VowelAt(s, i) {}
      if i: nat, j: nat :| TwoVowels(front, i, j) { assert TwoVowels(s, i, j); }
      if i: nat :| VowelAt(front, i) {
        if VowelAt(s, n) { assert TwoVowels(s, i, n); }
      }
      if i: nat, j: nat :| TwoVowels(s, i, j) {
        assert VowelAt(front, i);
        if j < n { assert TwoVowels(front, i, j); }
      }
    }
  }

  /** A nick is acceptable exactly if it has 6 to maxLen letters a to z, vowels at two places, no
      letter three times in a row and none of the ugly pairs anywhere. */
  lemma CandidateMeans(nick: string, maxLen: int)
    ensures Candidate(nick, maxLen) <==>
      && 6 <= |nick| <= maxLen
      && (forall i :: 0 <= i < |nick| ==> 'a' <= nick[i] <= 'z')
      && (exists i: nat, j: nat :: TwoVowels(nick, i, j))
      && (forall i :: 0 <= i < |nick| - 2 ==> !(nick[i] == nick[i + 1] && nick[i] == nick[i + 2]))
      && (forall u, before, after :: u in UGLY ==> nick != before + u + after)
  {
    VowelsFound(nick);
    TriplesMean(nick);
    forall k | 0 <= k < |UGLY|
      ensures Contains(nick, UGLY[k]) <==> exists before, after :: nick == before + UGLY[k] + after
    {
      ContainsMeans(nick, UGLY[k]);
    }
    if u, before, after :| u in UGLY && nick == before + u + after {
      var k :| 0 <= k < |UGLY| && UGLY[k] == u;
      assert Contains(nick, UGLY[k]);
    }
    if k :| 0 <= k < |UGLY| && Contains(nick, UGLY[k]) {
      assert UGLY[k] in UGLY;
    }
  }

  lemma TriplesMean(s: string)
    ensures NoTriple(s) <==> forall i :: 0 <= i < |s| - 2 ==> !(s[i] == s[i + 1] && s[i] == s[i + 2])
  {
    if forall i :: 0 <= i < |s| - 2 ==> !(s[i] == s[i + 1] && s[i] == s[i + 2]) {
      forall i | 0 <= i < |s| - 2 ensures !Triple(s, i) {}
    } else {
      var i :| 0 <= i < |s| - 2 && s[i] == s[i + 1] && s[i] == s[i + 2];
      assert Triple(s, i);
    }
  }

  lemma ContainsMeans(s: string, sub: string)
    ensures Contains(s, sub) <==> exists before, after :: s == before + sub + after
  {
    if i :| 0 <= i <= |s| && OccursAt(s, sub, i) {
      assert s == s[..i] + sub + s[i + |sub|..];
    }
    if before, after :| s == before + sub + after {
      assert OccursAt(s, sub, |before|);
    }
  }

  /** Two parts combine exactly if their concatenation is acceptable and neither does the tail begin
      with the lead nor the lead end in the tail. */
  lemma CombinesMeans(lead: string, tail: string, maxLen: int)
    ensures Combines(lead, tail, maxLen) <==>
      && Candidate(lead + tail, if maxLen <= 0 || maxLen > 15 then 15 else maxLen)
      && (forall more :: tail != lead + more) && (forall before :: lead != before + tail)
  {
    if HasPrefix(tail, lead) { assert tail == lead + tail[|lead|..]; }
    if HasSuffix(lead, tail) { assert lead == lead[..|lead| - |tail|] + tail; }
    forall more | tail == lead + more ensures HasPrefix(tail, lead) {}
    forall before | lead == before + tail ensures HasSuffix(lead, tail) {
      assert lead[|before|..] == tail;
    }
  }

  const EXAMPLE: string := "rabine"

  lemma ExampleVowels()
    ensures Vowels(EXAMPLE) >= 2
  {
    var nick := EXAMPLE;
    assert nick[..5][..4] == nick[..4];
    assert Vowels(nick) == Vowels(nick[..5]) + 1;
    assert nick[..5][4] == 'n' && Vowels(nick[..5]) == Vowels(nick[..4]);
    assert nick[..4][3] == 'i' && Vowels(nick[..4]) == Vowels(nick[..4][..3]) + 1;
  }

  lemma NoUgly(ugly: string)
    requires |ugly| > 0 && ugly[0] in ['q', 'j', 'z', 'x', 'v', 'w', 'k', 'y']
    ensures !Contains(EXAMPLE, ugly)
  {
    forall i | 0 <= i <= |EXAMPLE| && i + |ugly| <= |EXAMPLE| ensures EXAMPLE[i..i + |ugly|][0] == EXAMPLE[i] {}
  }

  lemma ExampleIsCandidate(maxLen: int)
    requires maxLen >= 6
    ensures Candidate(EXAMPLE, maxLen)
  {
    ExampleVowels();
    forall k | 0 <= k < |UGLY| ensures !Contains(EXAMPLE, UGLY[k]) {
      NoUgly(UGLY[k]);
    }
  }

  /** The requested lengths 1 to 5 are taken as they are and admit no nick at all, whatever the
      word banks; every other length admits some. */
  lemma LengthsThatWork(maxLen: int)
    ensures (exists lead, tail :: Combines(lead, tail, maxLen)) <==> maxLen <= 0 || maxLen >= 6
  {
    if maxLen <= 0 || maxLen >= 6 {
      var lead, tail := "ra", "bine";
      ExampleIsCandidate(NormalizedLength(maxLen));
      assert lead + tail == EXAMPLE && lead[0] != tail[0] && |lead| < |tail|;
      assert Combines(lead, tail, maxLen);
    }
  }

  // ------------------------------------------------------------ recent nicks

  /** The queue after a nick that is not in it was marked. */
  function Marked(queue: seq<string>, nick: string): seq<string> {
    if nick in queue then queue
    else if |queue| + 1 > RECENT_WINDOW then (queue + [nick])[1..]
    else queue + [nick]
  }

  /** The queue and the nicks produced so far. */
  datatype Run = Run(queue: seq<string>, produced: seq<string>)

  /** A draw of a lead and a tail. */
  datatype Draw = Draw(lead: string, tail: string)

  predicate Usable(queue: seq<string>, d: Draw, maxLen: int) {
    Combines(d.lead, d.tail, maxLen) && d.lead + d.tail !in queue
  }

  /** The nick of the first usable draw. */
  function FirstUsable(queue: seq<string>, draws: seq<Draw>, maxLen: int, k: nat): Option<string>
    decreases |draws| - k
  {
    if k >= |draws| then None
    else if Usable(queue, draws[k], maxLen) then Some(draws[k].lead + draws[k].tail)
    else FirstUsable(queue, draws, maxLen, k + 1)
  }

  /** The i-th draw is usable, and none from the k-th on before it. */
  predicate FirstAt(queue: seq<string>, draws: seq<Draw>, maxLen: int, k: nat, i: nat) {
    && k <= i < |draws| && Usable(queue, draws[i], maxLen)
    && forall j :: k <= j < i ==> !Usable(queue, draws[j], maxLen)
  }

  lemma {:induction false} FirstUsableIs(queue: seq<string>, draws: seq<Draw>, maxLen: int, k: nat)
    ensures var r := FirstUsable(queue, draws, maxLen, k);
      && (r.None? <==> forall i :: k <= i < |draws| ==> !Usable(queue, draws[i], maxLen))
      && (r.Some? ==> Candidate(r.value, NormalizedLength(maxLen)) && r.value !in queue)
      && (r.Some? ==> exists i :: k <= i < |draws| && r == Some(draws[i].lead + draws[i].tail)
                                  && FirstAt(queue, draws, maxLen, k, i))
    decreases |draws| - k
  {
    if k < |draws| && !Usable(queue, draws[k], maxLen) {
      FirstUsableIs(queue, draws, maxLen, k + 1);
    }
  }

  class Generator {
    var leads: seq<string>
    var tails: seq<string>
    var recentSet: set<string>
    var recentQueue: seq<string>

    /** The set holds the elements of the queue, which are distinct and at most 512. */
    ghost predicate Valid()
      reads this
    {
      && (forall nick :: nick in recentSet <==> nick in recentQueue)
      && Distinct(recentQueue) && |recentQueue| <= RECENT_WINDOW
    }

    constructor (leads: seq<string>, tails: seq<string>)
      ensures Valid() && recentQueue == [] && this.leads == leads && this.tails == tails
    {
      this.leads, this.tails, recentSet, recentQueue := leads, tails, {}, [];
    }

    method MarkRecentlyGenerated(nick: string)
      requires Valid()
      modifies this`recentSet, this`recentQueue
      ensures Valid()
      ensures recentQueue == Marked(old(recentQueue), nick)
      ensures nick in old(recentQueue) ==> recentQueue == old(recentQueue)
      ensures nick !in old(recentQueue) ==> recentQueue == LastN(old(recentQueue) + [nick], RECENT_WINDOW)
    {
      if nick in recentSet {
        return;
      }
      recentSet := recentSet + {nick};
      recentQueue := recentQueue + [nick];
      if |recentQueue| > RECENT_WINDOW {
        var oldest := recentQueue[0];
        recentQueue := recentQueue[1..];
        recentSet := recentSet - {oldest};
        DropOldest(old(recentQueue), nick);
      }
    }

    /** The draws are what the random source picks from the two banks. */
    method GenerateComposedNick(maxLen: int, draws: seq<Draw>) returns (r: Option<string>)
      requires Valid() && |draws| == ATTEMPTS
      requires leads != [] && tails != [] ==>
                 forall i :: 0 <= i < |draws| ==> draws[i].lead in leads && draws[i].tail in tails
      modifies this`recentSet, this`recentQueue
      ensures Valid()
      ensures r == if leads == [] || tails == [] then None else FirstUsable(old(recentQueue), draws, maxLen, 0)
      ensures recentQueue == if r.Some? then Marked(old(recentQueue), r.value) else old(recentQueue)
    {
      if |leads| == 0 || |tails| == 0 {
        return None;
      }
      var attempts := 0;
      while attempts < ATTEMPTS
        invariant 0 <= attempts <= ATTEMPTS
        invariant recentQueue == old(recentQueue) && recentSet == old(recentSet)
        invariant FirstUsable(recentQueue, draws, maxLen, 0) == FirstUsable(recentQueue, draws, maxLen, attempts)
      {
        var d := draws[attempts];
        var nick := CombineNickParts(d.lead, d.tail, maxLen);
        if nick.Some? && nick.value !in recentSet {
          MarkRecentlyGenerated(nick.value);
          return nick;
        }
        attempts := attempts + 1;
      }
      return None;
    }

    /** A pool of `count` nicks; the attempts use the draws one row after the other. */
    method GenerateNickPool(count: nat, maxLen: int, draws: seq<seq<Draw>>) returns (r: Option<seq<string>>)
      requires Valid() && |draws| == count * 64
      requires forall k :: 0 <= k < |draws| ==> |draws[k]| == ATTEMPTS
      requires leads != [] && tails != [] ==>
                 forall k, i :: 0 <= k < |draws| && 0 <= i < |draws[k]| ==>
                   draws[k][i].lead in leads && draws[k][i].tail in tails
      modifies this`recentSet, this`recentQueue
      ensures Valid()
      ensures var end := PoolAfter(old(recentQueue), leads == [] || tails == [], draws, maxLen, count, |draws|);
        && recentQueue == end.queue
        && r == if |end.produced| < count then None else Some(end.produced)
      ensures r.Some? ==> |r.value| == count && Distinct(r.value)
                          && forall j :: 0 <= j < count ==> Candidate(r.value[j], NormalizedLength(maxLen))
    {
      ghost var queue, empty := recentQueue, leads == [] || tails == [];
      var seen: set<string> := {};
      var nicks: seq<string> := [];
      var attempts := 0;
      while attempts < count * 64 && |nicks| < count
        invariant Valid() && leads == old(leads) && tails == old(tails)
        invariant 0 <= attempts <= count * 64 == |draws| && |nicks| <= count
        invariant Run(recentQueue, nicks) == PoolAfter(queue, empty, draws, maxLen, count, attempts)
        invariant forall nick :: nick in seen <==> nick in nicks
        decreases count * 64 - attempts
      {
        var nick := GenerateComposedNick(maxLen, draws[attempts]);
        attempts := attempts + 1;
        if nick.Some? && nick.value !in seen {
          seen := seen + {nick.value};
          nicks := nicks + [nick.value];
        }
      }
      PoolStable(queue, empty, draws, maxLen, count, attempts, |draws|);
      PoolGood(queue, empty, draws, maxLen, count, attempts);
      if |nicks| < count {
        return None;
      }
      return Some(nicks);
    }
  }

  /** The queue and the pool after n attempts: an attempt adds its nick unless the pool has it,
      and a full pool ends the loop. */
  function PoolAfter(queue: seq<string>, empty: bool, draws: seq<seq<Draw>>, maxLen: int, count: nat, n: nat): Run
    requires n <= |draws|
  {
    if n == 0 then Run(queue, [])
    else PoolStep(PoolAfter(queue, empty, draws, maxLen, count, n - 1), empty, draws[n - 1], maxLen, count)
  }

  function PoolStep(before: Run, empty: bool, row: seq<Draw>, maxLen: int, count: nat): Run {
    if |before.produced| >= count || empty then before
    else
      match FirstUsable(before.queue, row, maxLen, 0)
      case None => before
      case Some(nick) =>
        Run(Marked(before.queue, nick), before.produced + if nick in before.produced then [] else [nick])
  }

  /** The attempt finds a usable draw while the pool is not full. */
  predicate Productive(before: Run, empty: bool, row: seq<Draw>, maxLen: int, count: nat) {
    !empty && |before.produced| < count && exists i :: 0 <= i < |row| && Usable(before.queue, row[i], maxLen)
  }

  /** How many of the first n attempts do. */
  function ProductiveUpto(queue: seq<string>, empty: bool, draws: seq<seq<Draw>>, maxLen: int, count: nat, n: nat): nat
    requires n <= |draws|
  {
    if n == 0 then 0
    else
      ProductiveUpto(queue, empty, draws, maxLen, count, n - 1) +
      if Productive(PoolAfter(queue, empty, draws, maxLen, count, n - 1), empty, draws[n - 1], maxLen, count)
      then 1 else 0
  }

  lemma StillInWindow(queue: seq<string>, produced: seq<string>, nick: string)
    requires |produced| <= RECENT_WINDOW && nick in produced
    ensures nick in LastN(queue + produced, RECENT_WINDOW)
  {
    var i :| 0 <= i < |produced| && produced[i] == nick;
    var all := queue + produced;
    var last := LastN(all, RECENT_WINDOW);
    assert all[|queue| + i] == nick && last[|queue| + i - (|all| - |last|)] == nick;
  }

  lemma PoolStepAdds(queue: seq<string>, before: Run, empty: bool, row: seq<Draw>, maxLen: int, count: nat)
    requires count <= RECENT_WINDOW + 1 && |before.produced| <= count
    requires before.queue == LastN(queue + before.produced, RECENT_WINDOW)
    ensures var now := PoolStep(before, empty, row, maxLen, count);
      && |now.produced| <= count && now.queue == LastN(queue + now.produced, RECENT_WINDOW)
      && |now.produced| == |before.produced| + if Productive(before, empty, row, maxLen, count) then 1 else 0
  {
    FirstUsableIs(before.queue, row, maxLen, 0);
    if Productive(before, empty, row, maxLen, count) {
      var nick := FirstUsable(before.queue, row, maxLen, 0).value;
      if nick in before.produced { StillInWindow(queue, before.produced, nick); }
      assert queue + (before.produced + [nick]) == queue + before.produced + [nick];
    }
  }

  /** A pool of at most 513 nicks gets one more from every attempt that finds a usable draw, until it
      is full: none is lost as a repetition. */
  lemma {:induction false} PoolCounts(queue: seq<string>, empty: bool, draws: seq<seq<Draw>>, maxLen: int, count: nat,
                                      n: nat)
    requires n <= |draws| && count <= RECENT_WINDOW + 1 && |queue| <= RECENT_WINDOW
    ensures var pool := PoolAfter(queue, empty, draws, maxLen, count, n);
      && |pool.produced| == ProductiveUpto(queue, empty, draws, maxLen, count, n) <= count
      && pool.queue == LastN(queue + pool.produced, RECENT_WINDOW)
  {
    if n == 0 {
      assert queue + [] == queue;
    } else {
      PoolCounts(queue, empty, draws, maxLen, count, n - 1);
      PoolStepAdds(queue, PoolAfter(queue, empty, draws, maxLen, count, n - 1), empty, draws[n - 1], maxLen, count);
    }
  }

  predicate Good(nicks: seq<string>, maxLen: int) {
    Distinct(nicks) && forall j :: 0 <= j < |nicks| ==> Candidate(nicks[j], NormalizedLength(maxLen))
  }

  lemma PoolStepGood(before: Run, empty: bool, row: seq<Draw>, maxLen: int, count: nat)
    requires Good(before.produced, maxLen)
    ensures Good(PoolStep(before, empty, row, maxLen, count).produced, maxLen)
  {
    FirstUsableIs(before.queue, row, maxLen, 0);
  }

  lemma {:induction false} PoolGood(queue: seq<string>, empty: bool, draws: seq<seq<Draw>>, maxLen: int, count: nat,
                                    n: nat)
    requires n <= |draws|
    ensures Good(PoolAfter(queue, empty, draws, maxLen, count, n).produced, maxLen)
  {
    if n > 0 {
      PoolGood(queue, empty, draws, maxLen, count, n - 1);
      PoolStepGood(PoolAfter(queue, empty, draws, maxLen, count, n - 1), empty, draws[n - 1], maxLen, count);
    }
  }

  lemma {:induction false} PoolStable(queue: seq<string>, empty: bool, draws: seq<seq<Draw>>, maxLen: int, count: nat,
                                      n: nat, m: nat)
    requires n <= m <= |draws| && (n < m ==> |PoolAfter(queue, empty, draws, maxLen, count, n).produced| >= count)
    ensures PoolAfter(queue, empty, draws, maxLen, count, m) == PoolAfter(queue, empty, draws, maxLen, count, n)
    decreases m - n
  {
    if n < m {
      PoolStable(queue, empty, draws, maxLen, count, n, m - 1);
    }
  }

  lemma DropOldest(queue: seq<string>, nick: string)
    requires Distinct(queue) && nick !in queue
    ensures var longer := queue + [nick];
      Distinct(longer[1..]) && forall x :: x in longer[1..] <==> x in longer && x != longer[0]
  {
    var longer := queue + [nick];
    assert longer == [longer[0]] + longer[1..];
    assert Distinct(longer);
  }

  // ------------------------------------------------------------ runs of calls

  /** One call: the banks at that time, the length asked for, the draws. */
  datatype Call = Call(empty: bool, maxLen: int, draws: seq<Draw>)

  function After(calls: seq<Call>): Run {
    if calls == [] then Run([], [])
    else
      var before := After(calls[..|calls| - 1]);
      var c := calls[|calls| - 1];
      match if c.empty then None else FirstUsable(before.queue, c.draws, c.maxLen, 0)
      case None => before
      case Some(nick) => Run(Marked(before.queue, nick), before.produced + [nick])
  }

  /** A call produces a nick, one, exactly if the banks are not empty and some draw is usable. */
  lemma CallProduces(calls: seq<Call>, c: Call)
    ensures var before, now := After(calls), After(calls + [c]);
      if !c.empty && exists i :: 0 <= i < |c.draws| && Usable(before.queue, c.draws[i], c.maxLen)
      then |now.produced| == |before.produced| + 1 && now.produced[..|before.produced|] == before.produced
           && Candidate(now.produced[|before.produced|], NormalizedLength(c.maxLen))
      else now == before
  {
    assert (calls + [c])[..|calls|] == calls;
    FirstUsableIs(After(calls).queue, c.draws, c.maxLen, 0);
  }

  /** The queue is the last 512 nicks produced, and any nick differs from the 512 before it. */
  lemma {:induction false} QueueIsWindow(calls: seq<Call>)
    ensures After(calls).queue == LastN(After(calls).produced, RECENT_WINDOW)
    ensures Apart(After(calls).produced)
  {
    if calls != [] {
      QueueIsWindow(calls[..|calls| - 1]);
      var before, now := After(calls[..|calls| - 1]), After(calls);
      if now != before {
        var c := calls[|calls| - 1];
        FirstUsableIs(before.queue, c.draws, c.maxLen, 0);
        ApartSnoc(before.produced, now.produced[|before.produced|]);
      }
    }
  }

  predicate Apart(list: seq<string>) {
    forall i, j :: 0 <= i < j < |list| && j - i <= RECENT_WINDOW ==> list[i] != list[j]
  }

  lemma ApartSnoc(list: seq<string>, nick: string)
    requires Apart(list) && nick !in LastN(list, RECENT_WINDOW)
    ensures Apart(list + [nick])
    ensures Marked(LastN(list, RECENT_WINDOW), nick) == LastN(list + [nick], RECENT_WINDOW)
  {
    forall i | 0 <= i < |list| && |list| - i <= RECENT_WINDOW ensures list[i] != nick {
      var last := LastN(list, RECENT_WINDOW);
      assert list[i] == last[i - (|list| - |last|)];
    }
  }

  /** Any 513 consecutive nicks are pairwise distinct. */
  lemma ConsecutiveDistinct(calls: seq<Call>, from: nat, to: nat)
    requires from <= to <= |After(calls).produced| && to - from <= RECENT_WINDOW + 1
    ensures Distinct(After(calls).produced[from..to])
  {
    QueueIsWindow(calls);
  }

  /** The bound is sharp: the nick 513 places back may come again. */
  lemma FreedAfterWindow(queue: seq<string>, nick: string)
    requires |queue| == RECENT_WINDOW && Distinct(queue) && nick !in queue
    ensures queue[0] !in Marked(queue, nick)
    ensures forall i :: 1 <= i < |queue| ==> queue[i] in Marked(queue, nick)
  {
    DropOldest(queue, nick);
    var longer := queue + [nick];
    forall i | 1 <= i < |queue| ensures queue[i] in longer[1..] {
      assert longer[1..][i - 1] == queue[i];
    }
  }
}
