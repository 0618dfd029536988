/** The limiter under clocks that step back: which limits and windows are safe under any
    clock, and how the others fail. Clocks of several servers that disagree are the same
    case, for the script runs on the caller's reading. */
module RateLimitClock {
  import opened Text
  import opened RateLimit

  datatype Call = Call(now: int, member: string)

  /** What is stored and what was ever admitted. */
  datatype State = State(entries: Scores, history: Scores)

  function Answer(s: State, window: int, limit: int, c: Call): State {
    var admitted := Admit(s.entries, window, limit, c.now, c.member);
    if admitted.Some? then State(admitted.value, s.history[c.member := c.now])
    else State(Prune(s.entries, c.now - window), s.history)
  }

  /** The script run on one call after the other while the key is not dropped. */
  function Replay(calls: seq<Call>, window: int, limit: int): State {
    if calls == [] then State(map[], map[])
    else Answer(Replay(calls[..|calls| - 1], window, limit), window, limit, calls[|calls| - 1])
  }

  /** The caller makes every member unique. */
  ghost predicate Fresh(calls: seq<Call>) {
    forall i, j :: 0 <= i < j < |calls| ==> calls[i].member != calls[j].member
  }

  ghost predicate Steady(calls: seq<Call>) {
    forall i, j :: 0 <= i < j < |calls| ==> calls[i].now <= calls[j].now
  }

  lemma {:induction false} HistoryOfCalls(calls: seq<Call>, window: int, limit: int, m: string)
    requires m in Replay(calls, window, limit).history
    ensures exists i :: 0 <= i < |calls| && calls[i].member == m
  {
    if m != calls[|calls| - 1].member {
      HistoryOfCalls(calls[..|calls| - 1], window, limit, m);
      var i :| 0 <= i < |calls| - 1 && calls[..|calls| - 1][i].member == m;
      assert calls[i].member == m;
    }
  }

  lemma LastIsNew(calls: seq<Call>, window: int, limit: int)
    requires calls != [] && Fresh(calls)
    ensures calls[|calls| - 1].member !in Replay(calls[..|calls| - 1], window, limit).history
  {
    var front, last := calls[..|calls| - 1], calls[|calls| - 1];
    if last.member in Replay(front, window, limit).history {
      HistoryOfCalls(front, window, limit, last.member);
    }
  }

  // ------------------------------------------------------- safe under any clock

  /** Distinct admissions lie a window apart, and only the latest one is stored. */
  ghost predicate OneAtATime(s: State, window: int) {
    && (forall j, k :: j in s.history && k in s.history && j != k ==>
          s.history[j] + window <= s.history[k] || s.history[k] + window <= s.history[j])
    && (s.history != map[] ==> exists top :: Latest(s, top))
    && (s.history == map[] ==> s.entries == map[])
  }

  ghost predicate Latest(s: State, top: string) {
    && top in s.history && s.entries == map[top := s.history[top]]
    && forall k :: k in s.history ==> s.history[k] <= s.history[top]
  }

  /** The one stored admission shuts the window, or is pruned. */
  lemma LatestDecides(s: State, top: string, window: int, c: Call)
    requires Latest(s, top)
    ensures Answer(s, window, 1, c) ==
              if c.now - window < s.history[top] then s
              else State(map[c.member := c.now], s.history[c.member := c.now])
  {
    var kept := Prune(s.entries, c.now - window);
    if c.now - window < s.history[top] {
      assert kept == s.entries && |kept| == 1;
    } else {
      assert kept == map[];
    }
  }

  lemma OneAtATimeStep(s: State, window: int, c: Call)
    requires OneAtATime(s, window) && window > 0 && c.member !in s.history
    ensures OneAtATime(Answer(s, window, 1, c), window)
  {
    var n := Answer(s, window, 1, c);
    if s.history == map[] {
      assert Prune(s.entries, c.now - window) == map[];
      assert Latest(n, c.member);
    } else {
      var top :| Latest(s, top);
      LatestDecides(s, top, window, c);
      assert if c.now - window < s.history[top] then n == s else Latest(n, c.member);
    }
  }

  lemma {:induction false} OneAtATimeAlways(calls: seq<Call>, window: int)
    requires Fresh(calls) && window > 0
    ensures OneAtATime(Replay(calls, window, 1), window)
  {
    if calls != [] {
      OneAtATimeAlways(calls[..|calls| - 1], window);
      LastIsNew(calls, window, 1);
      OneAtATimeStep(Replay(calls[..|calls| - 1], window, 1), window, calls[|calls| - 1]);
    }
  }

  lemma ApartIsBounded(s: State, window: int)
    requires OneAtATime(s, window)
    ensures Bounded(s.history, window, 1)
  {
    forall from ensures Load(s.history, window, from) <= 1 {
      var inside := Within(s.history, from, from + window);
      if inside != {} {
        var m :| m in inside;
        assert inside == {m};
      }
    }
  }

  lemma {:induction false} NothingAdmitted(calls: seq<Call>, window: int, limit: int)
    requires limit <= 0
    ensures Replay(calls, window, limit).history == map[]
  {
    if calls != [] {
      NothingAdmitted(calls[..|calls| - 1], window, limit);
    }
  }

  /** A limit of one is kept under any clock, however often it steps back. */
  lemma BoundedAtOne(calls: seq<Call>, window: int, limit: int)
    requires Fresh(calls) && (limit <= 1 || window <= 0)
    ensures Bounded(Replay(calls, window, limit).history, window, limit)
  {
    var s := Replay(calls, window, limit);
    if window <= 0 {
      forall from ensures Load(s.history, window, from) == 0 {
        assert Within(s.history, from, from + window) == {};
      }
    } else if limit == 1 {
      OneAtATimeAlways(calls, window);
      ApartIsBounded(s, window);
    } else {
      NothingAdmitted(calls, window, limit);
      forall from ensures Load(s.history, window, from) == 0 {
        assert Within(s.history, from, from + window) == {};
      }
    }
  }

  ghost predicate Kept(s: State, window: int, limit: int, last: int) {
    Tracks(s.entries, s.history, window, last, last + window) && Bounded(s.history, window, limit)
  }

  lemma NothingKept(window: int, limit: int, last: int)
    ensures Kept(State(map[], map[]), window, limit, last)
  {
    forall from ensures Load(map[], window, from) == 0 {
      assert Within(map[], from, from + window) == {};
    }
  }

  lemma KeptAdmitted(s: State, window: int, limit: int, last: int, c: Call)
    requires Kept(s, window, limit, last) && last <= c.now && c.member !in s.history
    requires |Prune(s.entries, c.now - window)| < limit
    ensures Kept(State(Prune(s.entries, c.now - window)[c.member := c.now], s.history[c.member := c.now]), window, limit, c.now)
  {
    PrunedIsWindow(s.entries, s.history, window, last, last + window, c.now);
    AdmitKeeps(Prune(s.entries, c.now - window), s.history, window, limit, c.now, last + window, c.member);
  }

  lemma KeptRefused(s: State, window: int, limit: int, last: int, c: Call)
    requires Kept(s, window, limit, last) && last <= c.now
    ensures Kept(State(Prune(s.entries, c.now - window), s.history), window, limit, c.now)
  {
    PrunedIsWindow(s.entries, s.history, window, last, last + window, c.now);
  }

  lemma KeptStep(s: State, window: int, limit: int, last: int, c: Call)
    requires Kept(s, window, limit, last) && last <= c.now && c.member !in s.history
    ensures Kept(Answer(s, window, limit, c), window, limit, c.now)
  {
    if |Prune(s.entries, c.now - window)| < limit {
      KeptAdmitted(s, window, limit, last, c);
    } else {
      KeptRefused(s, window, limit, last, c);
    }
  }

  /** Any limit is kept under a steady clock. */
  lemma {:induction false} SteadyKept(calls: seq<Call>, window: int, limit: int, last: int)
    requires Fresh(calls) && Steady(calls) && (calls != [] ==> last == calls[|calls| - 1].now)
    ensures Kept(Replay(calls, window, limit), window, limit, last)
  {
    if calls == [] {
      NothingKept(window, limit, last);
    } else {
      var front := calls[..|calls| - 1];
      var earlier := if front == [] then last else front[|front| - 1].now;
      SteadyKept(front, window, limit, earlier);
      LastIsNew(calls, window, limit);
      KeptStep(Replay(front, window, limit), window, limit, earlier, calls[|calls| - 1]);
    }
  }

  // --------------------------------------------------- a clock that steps back

  ghost predicate AllDiffer(names: seq<string>) {
    forall i, j :: 0 <= i < j < |names| ==> names[i] != names[j]
  }

  /** The calls at time 0 with the first `k` names, and what they leave in the set. */
  function Burst(names: seq<string>, k: nat): seq<Call>
    requires k <= |names|
  {
    if k == 0 then [] else Burst(names, k - 1) + [Call(0, names[k - 1])]
  }

  function Filled(names: seq<string>, k: nat): Scores
    requires k <= |names|
  {
    if k == 0 then map[] else Filled(names, k - 1)[names[k - 1] := 0]
  }

  lemma {:induction false} FilledFrom(names: seq<string>, k: nat, m: string)
    requires k <= |names| && m in Filled(names, k)
    ensures Filled(names, k)[m] == 0 && m in names[..k]
  {
    if m == names[k - 1] {
      assert m == names[..k][k - 1];
    } else {
      FilledFrom(names, k - 1, m);
      assert names[..k - 1] <= names[..k];
    }
  }

  lemma NotYetFilled(names: seq<string>, k: nat, i: nat)
    requires k <= i < |names| && AllDiffer(names)
    ensures names[i] !in Filled(names, k)
  {
    if names[i] in Filled(names, k) {
      FilledFrom(names, k, names[i]);
    }
  }

  lemma {:induction false} FilledSize(names: seq<string>, k: nat)
    requires k <= |names| && AllDiffer(names)
    ensures |Filled(names, k)| == k
  {
    if k > 0 {
      FilledSize(names, k - 1);
      NotYetFilled(names, k - 1, k - 1);
      assert Filled(names, k).Keys == Filled(names, k - 1).Keys + {names[k - 1]};
    }
  }

  lemma FilledWith(names: seq<string>, k: nat)
    requires k <= |names| && AllDiffer(names)
    ensures forall m :: m in Filled(names, k) ==> Filled(names, k)[m] == 0
    ensures forall i :: k <= i < |names| ==> names[i] !in Filled(names, k)
    ensures |Filled(names, k)| == k
  {
    forall m | m in Filled(names, k) ensures Filled(names, k)[m] == 0 {
      FilledFrom(names, k, m);
    }
    forall i | k <= i < |names| ensures names[i] !in Filled(names, k) {
      NotYetFilled(names, k, i);
    }
    FilledSize(names, k);
  }

  lemma BurstStep(f: Scores, window: int, limit: int, name: string)
    requires window > 0 && |f| < limit && forall m :: m in f ==> f[m] == 0
    ensures Answer(State(f, f), window, limit, Call(0, name)) == State(f[name := 0], f[name := 0])
  {
    assert Prune(f, -window) == f;
  }

  lemma {:induction false} BurstAdmitted(names: seq<string>, k: nat, window: int, limit: int)
    requires k <= limit && k <= |names| && AllDiffer(names) && window > 0
    ensures Replay(Burst(names, k), window, limit) == State(Filled(names, k), Filled(names, k))
  {
    if k > 0 {
      BurstAdmitted(names, k - 1, window, limit);
      FilledWith(names, k - 1);
      BurstStep(Filled(names, k - 1), window, limit, names[k - 1]);
      assert Burst(names, k)[..|Burst(names, k)| - 1] == Burst(names, k - 1);
    }
  }

  lemma {:induction false} BurstMembers(names: seq<string>, k: nat)
    requires k <= |names|
    ensures |Burst(names, k)| == k && forall i :: 0 <= i < k ==> Burst(names, k)[i] == Call(0, names[i])
  {
    if k > 0 {
      BurstMembers(names, k - 1);
    }
  }

  /** `limit` calls at time 0 and one at `later`, which prunes them all. */
  function Refilled(names: seq<string>, later: int, limit: nat): seq<Call>
    requires limit + 2 == |names|
  {
    Burst(names, limit) + [Call(later, names[limit])]
  }

  /** When the clock has to have gone forward before it steps back by `back`. */
  function Peak(window: int, back: int): int {
    if back < window then window else back
  }

  /** One more call after the clock has stepped back. */
  function StepBack(names: seq<string>, window: int, limit: nat, back: int): seq<Call>
    requires limit + 2 == |names|
  {
    Refilled(names, Peak(window, back), limit) + [Call(Peak(window, back) - back, names[limit + 1])]
  }

  lemma StepBackCalls(names: seq<string>, window: int, limit: nat, back: int)
    requires limit + 2 == |names| && AllDiffer(names) && window > 0
    ensures var calls := StepBack(names, window, limit, back);
            && |calls| == limit + 2 && Fresh(calls) && Steady(calls[..limit + 1])
            && calls[limit].now - calls[limit + 1].now == back
  {
    BurstMembers(names, limit);
    var calls := StepBack(names, window, limit, back);
    assert forall i :: 0 <= i < |calls| ==> calls[i].member == names[i];
  }

  lemma RefilledState(names: seq<string>, window: int, limit: nat, later: int)
    requires limit + 2 == |names| && AllDiffer(names) && 0 < window <= later && limit >= 1
    ensures Replay(Refilled(names, later, limit), window, limit)
         == State(map[names[limit] := later], Filled(names, limit)[names[limit] := later])
  {
    var calls := Refilled(names, later, limit);
    BurstAdmitted(names, limit, window, limit);
    FilledWith(names, limit);
    assert calls[..|calls| - 1] == Burst(names, limit);
    assert Prune(Filled(names, limit), later - window) == map[];
  }

  lemma OneStored(stored: string, later: int, history: Scores, window: int, limit: int, c: Call)
    requires limit >= 2 && c.now < later + window
    ensures Answer(State(map[stored := later], history), window, limit, c).history == history[c.member := c.now]
  {
    var entries := map[stored := later];
    assert Prune(entries, c.now - window) == entries && |entries| == 1;
  }

  lemma StepBackHistory(names: seq<string>, window: int, limit: nat, back: int)
    requires limit + 2 == |names| && AllDiffer(names) && window > 0 && limit >= 2 && 0 < back
    ensures Replay(StepBack(names, window, limit, back), window, limit).history
         == Filled(names, limit)[names[limit] := Peak(window, back)][names[limit + 1] := Peak(window, back) - back]
  {
    var calls, later := StepBack(names, window, limit, back), Peak(window, back);
    RefilledState(names, window, limit, later);
    assert calls[..|calls| - 1] == Refilled(names, later, limit);
    OneStored(names[limit], later, Filled(names, limit)[names[limit] := later], window, limit, calls[|calls| - 1]);
  }

  /** A limit of two or more fails under a clock that steps back once, by any amount: the
      last call lands among the first ones, which the call before it has pruned. */
  lemma BrokenByStepBack(names: seq<string>, window: int, limit: nat, back: int)
    requires limit + 2 == |names| && AllDiffer(names) && window > 0 && limit >= 2 && 0 < back
    ensures !Bounded(Replay(StepBack(names, window, limit, back), window, limit).history, window, limit)
  {
    StepBackHistory(names, window, limit, back);
    FilledWith(names, limit);
    var later := Peak(window, back);
    var history := Filled(names, limit)[names[limit] := later][names[limit + 1] := later - back];
    var crowd := Filled(names, limit).Keys + {names[limit + 1]};
    SubsetSize(crowd, Within(history, -1, -1 + window));
    assert Load(history, window, -1) >= limit + 1;
  }

  lemma Names(n: nat) returns (names: seq<string>)
    ensures |names| == n && AllDiffer(names)
  {
    names := seq(n, i requires 0 <= i < n => Decimal(i));
    forall i, j | 0 <= i < j < n ensures names[i] != names[j] {
      if names[i] == names[j] {
        DecimalInjective(i, j);
      }
    }
  }

  /** The script keeps its bound under every clock exactly when the limit is at most one
      or the window is empty: otherwise one step back of a millisecond breaks it. */
  lemma BoundedUnderAnyClock(window: int, limit: int)
    ensures (forall calls :: Fresh(calls) ==> Bounded(Replay(calls, window, limit).history, window, limit))
       <==> limit <= 1 || window <= 0
  {
    if limit <= 1 || window <= 0 {
      forall calls | Fresh(calls) ensures Bounded(Replay(calls, window, limit).history, window, limit) {
        BoundedAtOne(calls, window, limit);
      }
    } else {
      var names := Names(limit + 2);
      StepBackCalls(names, window, limit, 1);
      BrokenByStepBack(names, window, limit, 1);
    }
  }
}
