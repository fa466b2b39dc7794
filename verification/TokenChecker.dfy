/** internal/api/auth.go: the per-remote sliding-window limiter of login attempts. */
module TokenChecker {

  datatype Verdict = Accepted | Rejected | Limited

  /** A slice header: the first `len` cells of an array. */
  datatype Slice = Slice(data: array<int>, len: nat)

  /** The times after the cutoff, in order. */
  function After(times: seq<int>, cutoff: int): seq<int> {
    if times == [] then []
    else After(times[..|times| - 1], cutoff) + if times[|times| - 1] > cutoff then [times[|times| - 1]] else []
  }

  /** How many of the times are after the cutoff. */
  function Recent(times: seq<int>, cutoff: int): nat {
    if times == [] then 0 else (if times[0] > cutoff then 1 else 0) + Recent(times[1..], cutoff)
  }

  /** One call at time `now`: the verdict and what is stored for the remote afterwards.  A missing
      entry and an empty one are the same to every later call. */
  function Check(stored: seq<int>, now: int, right: bool, window: int, maxFail: nat): (r: (Verdict, seq<int>))
    ensures |stored| <= maxFail ==> |r.1| <= maxFail
  {
    var pruned := After(stored, now - window);
    if |pruned| >= maxFail then
      AfterShorter(stored, now - window);
      (Limited, pruned)
    else if right then (Accepted, [])
    else (Rejected, pruned + [now])
  }

  /** What a call answers and what it leaves behind. */
  lemma CheckMeans(stored: seq<int>, now: int, right: bool, window: int, maxFail: nat)
    ensures var (verdict, stored') := Check(stored, now, right, window, maxFail);
      && (verdict.Limited? <==> Recent(stored, now - window) >= maxFail)
      && (verdict.Accepted? ==> right && stored' == [])
      && (verdict.Rejected? ==> !right && stored' == After(stored, now - window) + [now])
      && (verdict.Limited? ==> stored' == After(stored, now - window))
  {
    RecentIs(stored, now - window);
  }

  lemma {:induction false} AfterShorter(times: seq<int>, cutoff: int)
    ensures |After(times, cutoff)| <= |times|
  {
    if times != [] {
      AfterShorter(times[..|times| - 1], cutoff);
    }
  }

  lemma {:induction false} RecentSnoc(times: seq<int>, x: int, cutoff: int)
    ensures Recent(times + [x], cutoff) == Recent(times, cutoff) + if x > cutoff then 1 else 0
  {
    if times == [] {
      assert times + [x] == [x] && [x][1..] == [];
    } else {
      assert (times + [x])[1..] == times[1..] + [x];
      RecentSnoc(times[1..], x, cutoff);
    }
  }

  lemma {:induction false} RecentIs(times: seq<int>, cutoff: int)
    ensures |After(times, cutoff)| == Recent(times, cutoff)
  {
    if times != [] {
      var front, x := times[..|times| - 1], times[|times| - 1];
      RecentIs(front, cutoff);
      RecentSnoc(front, x, cutoff);
      assert times == front + [x];
    }
  }

  class Checker {
    const expected: string
    const window: int
    const maxFail: nat
    var fails: map<string, Slice>

    /** Different remotes have different arrays, as appends only ever extend a remote's own. */
    ghost predicate Valid()
      reads this
    {
      && (forall r :: r in fails ==> fails[r].len <= fails[r].data.Length)
      && forall r, q :: r in fails && q in fails && r != q ==> fails[r].data != fails[q].data
    }

    ghost function Arrays(): set<object>
      reads this
    {
      set r | r in fails :: fails[r].data
    }

    ghost function Stored(remote: string): seq<int>
      requires Valid()
      reads this, Arrays()
    {
      if remote in fails then fails[remote].data[..fails[remote].len] else []
    }

    constructor (expected: string)
      ensures Valid() && this.expected == expected && window == 60_000_000_000 && maxFail == 5 && fails == map[]
    {
      this.expected, window, maxFail, fails := expected, 60_000_000_000, 5, map[];
    }

    /** The remote's times after the cutoff, compacted in the remote's own array. */
    method PruneRemote(remote: string, cutoff: int) returns (pruned: Slice)
      requires Valid()
      modifies Arrays()
      ensures Valid() && fails == old(fails)
      ensures pruned.len <= pruned.data.Length
      ensures pruned.data[..pruned.len] == After(old(Stored(remote)), cutoff)
      ensures if remote in fails then pruned.data == fails[remote].data else fresh(pruned.data)
      ensures forall other :: other in fails && other != remote ==> fails[other].data != pruned.data
      ensures forall other :: other != remote ==> Stored(other) == old(Stored(other))
    {
      var times: Slice;
      if remote in fails {
        times := fails[remote];
      } else {
        var none := new int[0];
        times := Slice(none, 0);
      }
      assert times.data[..times.len] == Stored(remote);
      var kept := Prune(times, cutoff);
      pruned := Slice(times.data, kept);
    }

    /** c.fails[remote] = s, for the remote's own array or a new one. */
    method Store(remote: string, s: Slice)
      requires Valid() && s.len <= s.data.Length
      requires forall other :: other in fails && other != remote ==> fails[other].data != s.data
      modifies this`fails
      ensures Valid() && fails == old(fails)[remote := s]
      ensures Stored(remote) == s.data[..s.len]
      ensures forall other :: other != remote ==> Stored(other) == old(Stored(other))
    {
      fails := fails[remote := s];
    }

    /** c.fails[remote] = append(pruned, now) */
    method Record(remote: string, pruned: Slice, now: int)
      requires Valid() && pruned.len <= pruned.data.Length
      requires forall other :: other in fails && other != remote ==> fails[other].data != pruned.data
      modifies this`fails, pruned.data
      ensures Valid() && fails.Keys == old(fails).Keys + {remote}
      ensures Stored(remote) == old(pruned.data[..pruned.len]) + [now]
      ensures forall other :: other != remote ==> Stored(other) == old(Stored(other))
    {
      var longer := Append(pruned, now);
      Store(remote, longer);
    }

    /** delete(c.fails, remote) */
    method Delete(remote: string)
      requires Valid()
      modifies this`fails
      ensures Valid() && Stored(remote) == []
      ensures forall other :: other != remote ==> Stored(other) == old(Stored(other))
    {
      fails := fails - {remote};
    }

    method CheckToken(remote: string, token: string, now: int) returns (verdict: Verdict)
      requires Valid()
      modifies this, Arrays()
      ensures Valid()
      ensures (verdict, Stored(remote)) == Check(old(Stored(remote)), now, token == expected, window, maxFail)
      ensures verdict.Accepted? ==> token == expected && Stored(remote) == []
      ensures verdict.Rejected? ==> token != expected
      ensures forall other :: other != remote ==> Stored(other) == old(Stored(other))
    {
      var pruned := PruneRemote(remote, now - window);
      if pruned.len >= maxFail {
        Store(remote, pruned);
        return Limited;
      }
      if token == expected {
        Delete(remote);
        return Accepted;
      }
      Record(remote, pruned, now);
      return Rejected;
    }
  }

  /** pruned := times[:0] and the loop appending to it: the kept times move to the front of the
      same array. */
  method Prune(times: Slice, cutoff: int) returns (kept: nat)
    requires times.len <= times.data.Length
    modifies times.data
    ensures kept <= times.len
    ensures times.data[..kept] == After(old(times.data[..times.len]), cutoff)
  {
    var a := times.data;
    kept := 0;
    var i := 0;
    ghost var was := a[..times.len];
    while i < times.len
      invariant kept <= i <= times.len
      invariant a[..kept] == After(was[..i], cutoff)
      invariant forall k :: i <= k < times.len ==> a[k] == was[k]
    {
      assert was[..i + 1][..i] == was[..i];
      if a[i] > cutoff {
        a[kept] := a[i];
        kept := kept + 1;
      }
      i := i + 1;
    }
    assert was[..i] == was;
  }

  /** append: in place while there is room, into a new array otherwise. */
  method Append(s: Slice, x: int) returns (r: Slice)
    requires s.len <= s.data.Length
    modifies s.data
    ensures r.len == s.len + 1 <= r.data.Length && r.data[..r.len] == old(s.data[..s.len]) + [x]
    ensures r.data == s.data || fresh(r.data)
  {
    if s.len < s.data.Length {
      s.data[s.len] := x;
      r := Slice(s.data, s.len + 1);
    } else {
      var grown := new int[2 * s.len + 1];
      var i := 0;
      while i < s.len
        invariant 0 <= i <= s.len && grown[..i] == s.data[..i]
        invariant s.data[..] == old(s.data[..])
      {
        grown[i] := s.data[i];
        i := i + 1;
      }
      grown[s.len] := x;
      r := Slice(grown, s.len + 1);
    }
  }

  // ------------------------------------------------------------ runs of calls

  datatype Call = Call(remote: string, now: int, right: bool)

  /** The clock never goes back. */
  predicate Clocked(calls: seq<Call>) {
    forall i, j :: 0 <= i < j < |calls| ==> calls[i].now <= calls[j].now
  }

  /** What is stored for `remote` after the calls. */
  function StoredAfter(calls: seq<Call>, remote: string, window: int, maxFail: nat): (r: seq<int>)
    ensures |r| <= maxFail
  {
    if calls == [] then []
    else
      var before := StoredAfter(calls[..|calls| - 1], remote, window, maxFail);
      var c := calls[|calls| - 1];
      if c.remote == remote then Check(before, c.now, c.right, window, maxFail).1 else before
  }

  function VerdictOf(calls: seq<Call>, i: nat, window: int, maxFail: nat): Verdict
    requires i < |calls|
  {
    Check(StoredAfter(calls[..i], calls[i].remote, window, maxFail), calls[i].now, calls[i].right, window, maxFail).0
  }

  /** The record of failures after one more call, told from its token alone: the call counts for
      nothing while maxFail failures lie in the window before it; otherwise the right token clears
      the record and a wrong one goes on it. */
  function Recorded(failures: seq<int>, now: int, right: bool, window: int, maxFail: nat): seq<int> {
    if Recent(failures, now - window) >= maxFail then failures else if right then [] else failures + [now]
  }

  /** The failures of `remote` since its last success, however old. */
  function Failures(calls: seq<Call>, remote: string, window: int, maxFail: nat): seq<int> {
    if calls == [] then []
    else
      var before := Failures(calls[..|calls| - 1], remote, window, maxFail);
      var c := calls[|calls| - 1];
      if c.remote == remote then Recorded(before, c.now, c.right, window, maxFail) else before
  }

  predicate Sorted(times: seq<int>) {
    forall i, j :: 0 <= i < j < |times| ==> times[i] <= times[j]
  }

  /** The times from `d` on are the ones after the cutoff. */
  predicate CutAt(times: seq<int>, d: nat, cutoff: int) {
    && d <= |times|
    && (forall i :: 0 <= i < d ==> times[i] <= cutoff)
    && (forall i :: d <= i < |times| ==> times[i] > cutoff)
  }

  lemma {:induction false} FindCut(times: seq<int>, cutoff: int) returns (d: nat)
    requires Sorted(times)
    ensures CutAt(times, d, cutoff)
  {
    var n := |times|;
    if n == 0 || times[n - 1] <= cutoff {
      d := n;
    } else {
      d := FindCut(times[..n - 1], cutoff);
    }
  }

  lemma {:induction false} AfterAll(times: seq<int>, cutoff: int)
    requires forall i :: 0 <= i < |times| ==> times[i] > cutoff
    ensures After(times, cutoff) == times
  {
    if times != [] {
      AfterAll(times[..|times| - 1], cutoff);
      assert times == times[..|times| - 1] + [times[|times| - 1]];
    }
  }

  lemma AfterIsSuffix(times: seq<int>, cutoff: int) returns (d: nat)
    requires Sorted(times)
    ensures CutAt(times, d, cutoff) && After(times, cutoff) == times[d..]
  {
    d := FindCut(times, cutoff);
    AfterDropsOld(times, d, cutoff);
    AfterAll(times[d..], cutoff);
  }

  /** The stored list is the end of the list of rejections; what was dropped is out of every
      window still to come. */
  ghost predicate Window(all: seq<int>, stored: seq<int>, now: int, window: int) {
    && Sorted(all) && |stored| <= |all| && stored == all[|all| - |stored|..]
    && (forall i :: 0 <= i < |all| ==> all[i] <= now)
    && (forall i :: 0 <= i < |all| - |stored| ==> all[i] <= now - window)
  }

  lemma {:induction false} AfterDropsOld(times: seq<int>, d: nat, cutoff: int)
    requires d <= |times| && forall i :: 0 <= i < d ==> times[i] <= cutoff
    ensures After(times, cutoff) == After(times[d..], cutoff)
  {
    if d < |times| {
      AfterDropsOld(times[..|times| - 1], d, cutoff);
      assert times[d..][..|times| - d - 1] == times[..|times| - 1][d..];
    } else if times != [] {
      AfterDropsOld(times[..|times| - 1], d - 1, cutoff);
    }
  }

  lemma PruneAgrees(all: seq<int>, stored: seq<int>, now: int, later: int, window: int)
    requires Window(all, stored, now, window) && now <= later
    ensures After(stored, later - window) == After(all, later - window)
    ensures Window(all, After(stored, later - window), later, window)
  {
    var d := AfterIsSuffix(all, later - window);
    AfterDropsOld(all, |all| - |stored|, later - window);
  }

  lemma WindowStep(all: seq<int>, stored: seq<int>, now: int, right: bool, window: int, maxFail: nat)
    requires Window(all, stored, now, window)
    ensures Window(Recorded(all, now, right, window, maxFail), Check(stored, now, right, window, maxFail).1,
                   now, window)
  {
    PrunedWell(all, stored, now, window);
    var pruned := After(stored, now - window);
    CheckIs(stored, pruned, now, right, window, maxFail);
    if |pruned| < maxFail {
      if right { NothingStored(now, window); } else { WindowAppend(all, pruned, now, window); }
    }
  }

  lemma NothingStored(now: int, window: int)
    ensures Window([], [], now, window)
  {
  }

  /** What a call leaves behind, given the unexpired failures. */
  lemma CheckIs(stored: seq<int>, pruned: seq<int>, now: int, right: bool, window: int, maxFail: nat)
    requires pruned == After(stored, now - window)
    ensures Check(stored, now, right, window, maxFail)
         == if |pruned| >= maxFail then (Limited, pruned)
            else if right then (Accepted, []) else (Rejected, pruned + [now])
  {
  }

  /** Pruning keeps the window and counts the recent failures, the forgotten ones included. */
  lemma PrunedWell(all: seq<int>, stored: seq<int>, now: int, window: int)
    requires Window(all, stored, now, window)
    ensures var pruned := After(stored, now - window);
      Window(all, pruned, now, window) && |pruned| == Recent(all, now - window)
  {
    PruneAgrees(all, stored, now, now, window);
    RecentIs(all, now - window);
  }

  lemma WindowAppend(all: seq<int>, stored: seq<int>, now: int, window: int)
    requires Window(all, stored, now, window)
    ensures Window(all + [now], stored + [now], now, window)
  {
    var d := |all| - |stored|;
    assert (all + [now])[d..] == all[d..] + [now];
  }

  lemma WindowLater(all: seq<int>, stored: seq<int>, now: int, later: int, window: int)
    requires Window(all, stored, now, window) && now <= later
    ensures Window(all, stored, later, window)
  {
  }

  lemma {:induction false} WindowKept(calls: seq<Call>, remote: string, now: int, window: int, maxFail: nat)
    requires Clocked(calls) && (forall i :: 0 <= i < |calls| ==> calls[i].now <= now)
    ensures Window(Failures(calls, remote, window, maxFail), StoredAfter(calls, remote, window, maxFail), now, window)
    decreases |calls|
  {
    if calls != [] {
      var front, c := calls[..|calls| - 1], calls[|calls| - 1];
      WindowKept(front, remote, c.now, window, maxFail);
      if c.remote == remote {
        WindowStep(Failures(front, remote, window, maxFail), StoredAfter(front, remote, window, maxFail),
                   c.now, c.right, window, maxFail);
      }
      WindowLater(Failures(calls, remote, window, maxFail), StoredAfter(calls, remote, window, maxFail),
                  c.now, now, window);
    }
  }

  lemma VerdictInWindow(all: seq<int>, stored: seq<int>, now: int, right: bool, window: int, maxFail: nat)
    requires Window(all, stored, now, window)
    ensures var verdict := Check(stored, now, right, window, maxFail).0;
      && (verdict.Limited? <==> Recent(all, now - window) >= maxFail)
      && (verdict.Accepted? <==> right && Recent(all, now - window) < maxFail)
  {
    PrunedWell(all, stored, now, window);
    CheckIs(stored, After(stored, now - window), now, right, window, maxFail);
  }

  /** What every call is answered: it is limited exactly if at least maxFail failures of the same
      remote since its last success lie inside the window before it; otherwise it is accepted
      exactly if its token is right.  Forgetting the pruned failures changes nothing. */
  lemma VerdictExactly(calls: seq<Call>, i: nat, window: int, maxFail: nat)
    requires Clocked(calls) && i < |calls|
    ensures var c := calls[i];
      var recent := Recent(Failures(calls[..i], c.remote, window, maxFail), c.now - window);
      && (VerdictOf(calls, i, window, maxFail).Limited? <==> recent >= maxFail)
      && (VerdictOf(calls, i, window, maxFail).Accepted? <==> c.right && recent < maxFail)
      && (VerdictOf(calls, i, window, maxFail).Rejected? <==> !c.right && recent < maxFail)
  {
    var c := calls[i];
    WindowKept(calls[..i], c.remote, c.now, window, maxFail);
    VerdictInWindow(Failures(calls[..i], c.remote, window, maxFail),
                    StoredAfter(calls[..i], c.remote, window, maxFail), c.now, c.right, window, maxFail);
  }

  /** A failure comes only when the maxFail-th last one has left the window. */
  lemma FailureSpan(all: seq<int>, now: int, window: int, maxFail: nat, i: nat)
    requires Sorted(all) && Recent(all, now - window) < maxFail && i + maxFail == |all|
    ensures now - all[i] >= window
  {
    RecentIs(all, now - window);
    var d := AfterIsSuffix(all, now - window);
  }

  /** maxFail + 1 failures in a row, no success of that remote between them, span at least the
      window. */
  lemma {:induction false} SlidingWindow(calls: seq<Call>, remote: string, window: int, maxFail: nat, i: nat)
    requires Clocked(calls) && i + maxFail < |Failures(calls, remote, window, maxFail)|
    ensures var times := Failures(calls, remote, window, maxFail);
      times[i + maxFail] - times[i] >= window
    decreases |calls|
  {
    if calls != [] {
      var n := |calls| - 1;
      var front, c := calls[..n], calls[n];
      var all := Failures(front, remote, window, maxFail);
      if i + maxFail < |all| {
        SlidingWindow(front, remote, window, maxFail, i);
      } else {
        WindowKept(front, remote, c.now, window, maxFail);
        FailureSpan(all, c.now, window, maxFail, i);
      }
    }
  }

  // ------------------------------------------------------------ attempts while limited

  /** All wrong tokens of `remote` since its last accepted call, limited ones included. */
  function Attempts(calls: seq<Call>, remote: string, window: int, maxFail: nat): seq<int> {
    if calls == [] then []
    else
      var n := |calls| - 1;
      var before := Attempts(calls[..n], remote, window, maxFail);
      if calls[n].remote != remote then before
      else if !calls[n].right then before + [calls[n].now]
      else if VerdictOf(calls, n, window, maxFail).Accepted? then []
      else before
  }

  /** Counting every wrong token would give the i-th call the same verdict. */
  predicate SameByAttempts(calls: seq<Call>, i: nat, window: int, maxFail: nat)
    requires i < |calls|
  {
    VerdictOf(calls, i, window, maxFail).Limited?
    <==> Recent(Attempts(calls[..i], calls[i].remote, window, maxFail), calls[i].now - window) >= maxFail
  }

  /** With a window of one instant at most: the failures in it are the attempts in it, or both are
      at the limit. */
  predicate Abreast(failures: seq<int>, attempts: seq<int>, cutoff: int, maxFail: nat) {
    || Recent(failures, cutoff) == Recent(attempts, cutoff)
    || maxFail <= Recent(failures, cutoff) <= Recent(attempts, cutoff)
  }

  lemma AbreastNext(failures: seq<int>, attempts: seq<int>, x: int, right: bool, now: int, window: int, maxFail: nat)
    requires x <= now && window <= 1
    requires Abreast(failures, attempts, now - window, maxFail) && Abreast(failures, attempts, x - window, maxFail)
    ensures var failures' := Recorded(failures, x, right, window, maxFail);
      var attempts' :=
        if !right then attempts + [x] else if Recent(failures, x - window) < maxFail then [] else attempts;
      Abreast(failures', attempts', now - window, maxFail)
  {
    RecentSnoc(failures, x, now - window);
    RecentSnoc(attempts, x, now - window);
  }

  lemma {:induction false} AbreastKept(calls: seq<Call>, remote: string, now: int, window: int, maxFail: nat)
    requires Clocked(calls) && (forall i :: 0 <= i < |calls| ==> calls[i].now <= now) && window <= 1
    ensures Abreast(Failures(calls, remote, window, maxFail), Attempts(calls, remote, window, maxFail),
                    now - window, maxFail)
    decreases |calls|
  {
    if calls != [] {
      var n := |calls| - 1;
      var front, c := calls[..n], calls[n];
      AbreastKept(front, remote, now, window, maxFail);
      if c.remote == remote {
        AbreastKept(front, remote, c.now, window, maxFail);
        VerdictExactly(calls, n, window, maxFail);
        AbreastNext(Failures(front, remote, window, maxFail), Attempts(front, remote, window, maxFail),
                    c.now, c.right, now, window, maxFail);
      }
    }
  }

  lemma {:induction false} RecentOf(times: seq<int>, cutoff: int, n: nat)
    requires n <= |times|
    requires forall i :: 0 <= i < |times| ==> (times[i] > cutoff <==> i >= n)
    ensures Recent(times, cutoff) == |times| - n
  {
    if times != [] {
      RecentOf(times[1..], cutoff, if n > 0 then n - 1 else 0);
    }
  }

  /** k wrong tokens: the first m at time 0, the others at time 1. */
  function Burst(m: nat, k: nat): seq<Call> {
    seq(k, i requires 0 <= i < k => Call("", if i < m then 0 else 1, false))
  }

  function Times(m: nat, k: nat): seq<int> {
    seq(k, i requires 0 <= i < k => if i < m then 0 else 1)
  }

  lemma TimesSnoc(m: nat, k: nat)
    ensures Times(m, k + 1) == Times(m, k) + [if k < m then 0 else 1] && Burst(m, k + 1)[..k] == Burst(m, k)
    ensures Burst(m, k + 1)[k] == Call("", if k < m then 0 else 1, false)
  {
  }

  function Upto(k: nat, m: nat): nat { if k < m then k else m }

  lemma BurstRecorded(m: nat, k: nat, window: int)
    requires m > 0 && window > 1
    ensures Recorded(Times(m, Upto(k, m)), if k < m then 0 else 1, false, window, m) == Times(m, Upto(k + 1, m))
  {
    RecentOf(Times(m, Upto(k, m)), (if k < m then 0 else 1) - window, 0);
    if k < m { TimesSnoc(m, k); }
  }

  /** Only the first m are recorded ... */
  lemma {:induction false} BurstFailures(m: nat, k: nat, window: int)
    requires m > 0 && window > 1
    ensures Failures(Burst(m, k), "", window, m) == Times(m, Upto(k, m))
  {
    if k > 0 {
      BurstFailures(m, k - 1, window);
      TimesSnoc(m, k - 1);
      BurstRecorded(m, k - 1, window);
    }
  }

  /** ... all are attempts. */
  lemma {:induction false} BurstAttempts(m: nat, k: nat, window: int)
    ensures Attempts(Burst(m, k), "", window, m) == Times(m, k)
  {
    if k > 0 {
      BurstAttempts(m, k - 1, window);
      TimesSnoc(m, k - 1);
    }
  }

  /** m wrong tokens, m more while limited, and a call when the first ones have left the window. */
  lemma LimitedOnesForgotten(m: nat, window: int)
    requires m > 0 && window > 1
    ensures var calls := Burst(m, 2 * m) + [Call("", window, true)];
      Clocked(calls) && !SameByAttempts(calls, 2 * m, window, m)
  {
    var burst := Burst(m, 2 * m);
    var calls := burst + [Call("", window, true)];
    assert calls[..2 * m] == burst;
    BurstFailures(m, 2 * m, window);
    BurstAttempts(m, 2 * m, window);
    RecentOf(Times(m, m), 0, m);
    RecentOf(Times(m, 2 * m), 0, m);
    VerdictExactly(calls, 2 * m, window, m);
  }

  /** Wrong tokens sent while limited do not prolong the limit: counting them as well would give
      the same verdicts in every run only if nothing is ever accepted or the window is one instant. */
  lemma AttemptsCountExactly(window: int, maxFail: nat)
    ensures (forall calls: seq<Call>, i: nat ::
               Clocked(calls) && i < |calls| ==> SameByAttempts(calls, i, window, maxFail))
            <==> maxFail == 0 || window <= 1
  {
    if maxFail == 0 || window <= 1 {
      forall calls: seq<Call>, i: nat | Clocked(calls) && i < |calls|
        ensures SameByAttempts(calls, i, window, maxFail)
      {
        VerdictExactly(calls, i, window, maxFail);
        if maxFail > 0 { AbreastKept(calls[..i], calls[i].remote, calls[i].now, window, maxFail); }
      }
    } else {
      LimitedOnesForgotten(maxFail, window);
    }
  }
}
