/** The sliding-window limiter: the Lua script over a sorted set with an expiring key,
    against the history of every request it ever admitted. */
module RateLimit {
  import opened Text

  /** The sorted set: member to score, in milliseconds. */
  type Scores = map<string, int>

  /** `ScriptError` is the nil arithmetic on an empty set, when the limit is below one. */
  datatype Reply = Allowed(count: nat) | Denied(count: nat, retryAfter: int) | ScriptError

  /** The members with a score in `(from, to]`. */
  function Within(s: Scores, from: int, to: int): set<string> {
    set m | m in s && from < s[m] <= to
  }

  /** `ZREMRANGEBYSCORE key -inf cutoff`. */
  function Prune(s: Scores, cutoff: int): Scores {
    map m | m in s && s[m] > cutoff :: s[m]
  }

  /** The decision and the write of the script: the new set, or `None` for a refusal. */
  function Admit(entries: Scores, window: int, limit: int, now: int, member: string): Option<Scores> {
    var kept := Prune(entries, now - window);
    if |kept| < limit then Some(kept[member := now]) else None
  }

  /** `math.ceil(ms / 1000)`. */
  function CeilSeconds(ms: int): (r: int)
    ensures 1000 * (r - 1) < ms <= 1000 * r
  {
    (ms + 999) / 1000
  }

  /** As many admissions as a limit allows. */
  function Cap(limit: int): nat {
    if limit < 0 then 0 else limit
  }

  /** The admissions in the interval of the window's length that starts after `from`. */
  function Load(history: Scores, window: int, from: int): nat {
    |Within(history, from, from + window)|
  }

  /** A request at `t` is let through, nothing having been admitted since. */
  predicate Opens(history: Scores, window: int, limit: int, t: int) {
    |Within(history, t - window, t)| < limit
  }

  /** Every half-open interval as long as the window holds `limit` admissions at most,
      wherever it starts. */
  ghost predicate Bounded(history: Scores, window: int, limit: int) {
    forall from :: Load(history, window, from) <= Cap(limit)
  }

  ghost predicate Oldest(history: Scores, window: int, now: int, m: string) {
    m in Within(history, now - window, now) && forall k :: k in Within(history, now - window, now) ==> history[m] <= history[k]
  }

  method First(s: Scores) returns (m: string)
    requires s != map[]
    ensures m in s && forall k :: k in s ==> s[m] <= s[k]
  {
    m :| m in s;
    var rest := s.Keys - {m};
    while rest != {}
      invariant m in s && rest <= s.Keys
      invariant forall k :: k in s && k !in rest ==> s[m] <= s[k]
      decreases |rest|
    {
      var k :| k in rest;
      rest := rest - {k};
      if s[k] < s[m] {
        m := k;
      }
    }
  }

  /** The stored set holds the whole window of the history, and nothing outside the
      history; it is gone no later than the key expires. */
  ghost predicate Tracks(entries: Scores, history: Scores, window: int, last: int, expireAt: int) {
    && (forall m :: m in history ==> history[m] <= last)
    && (forall m :: m in entries ==> m in history && entries[m] == history[m] && history[m] + window <= expireAt)
    && (forall m :: m in history && history[m] > last - window ==> m in entries)
  }

  lemma SubsetSize<T>(a: set<T>, b: set<T>)
    requires a <= b
    ensures |a| <= |b|
  {
    assert |b| == |a| + |b - a| by {
      assert b == a + (b - a);
    }
  }

  /** After pruning, what is stored is the window, to the member. */
  lemma PrunedIsWindow(entries: Scores, history: Scores, window: int, last: int, expireAt: int, now: int)
    requires Tracks(entries, history, window, last, expireAt) && last <= now
    ensures Prune(entries, now - window).Keys == Within(history, now - window, now)
    ensures Tracks(Prune(entries, now - window), history, window, now, expireAt)
    ensures |Prune(entries, now - window)| == |Within(history, now - window, now)| <= |entries|
  {
    SubsetSize(Prune(entries, now - window).Keys, entries.Keys);
  }

  lemma AdmitKeepsTracking(entries: Scores, history: Scores, window: int, now: int, expireAt: int, member: string)
    requires Tracks(entries, history, window, now, expireAt) && member !in history
    ensures Tracks(entries[member := now], history[member := now], window, now, now + window)
    ensures |entries[member := now]| == |entries| + 1
  {
    assert entries[member := now].Keys == entries.Keys + {member};
  }

  /** One more admission fits in every interval it falls into. */
  lemma AdmitKeepsBounded(history: Scores, window: int, limit: int, now: int, member: string)
    requires Bounded(history, window, limit) && member !in history
    requires forall m :: m in history ==> history[m] <= now
    requires Opens(history, window, limit, now)
    ensures Bounded(history[member := now], window, limit)
  {
    var longer := history[member := now];
    forall from ensures Load(longer, window, from) <= Cap(limit) {
      assert Load(history, window, from) <= Cap(limit);
      if from < now <= from + window {
        var before := Within(history, from, now);
        assert Within(longer, from, from + window) == before + {member};
        SubsetSize(before, Within(history, now - window, now));
      } else {
        assert Within(longer, from, from + window) == Within(history, from, from + window);
      }
    }
  }

  /** The stored set is small and was admitted, under any clock. */
  predicate Stored(entries: Scores, history: Scores, limit: int) {
    |entries| <= Cap(limit) && entries.Keys <= history.Keys
  }

  /** What is kept of the set: under a steady clock it tracks the history, and no
      interval as long as the window ever held more than the limit. */
  ghost predicate Sound(entries: Scores, history: Scores, window: int, limit: int, last: int, expireAt: int, steady: bool) {
    && Stored(entries, history, limit)
    && (steady ==> Tracks(entries, history, window, last, expireAt) && Bounded(history, window, limit))
  }

  ghost predicate OldestStored(entries: Scores, m: string) {
    m in entries && forall k :: k in entries ==> entries[m] <= entries[k]
  }

  /** The script's answer, read off what is stored after pruning. */
  ghost predicate IsReply(r: Reply, kept: Scores, window: int, limit: int, now: int) {
    match r
    case Allowed(count) => |kept| < limit && count == |kept| + 1
    case Denied(count, retryAfter) =>
      && |kept| >= limit && count == |kept|
      && exists m :: OldestStored(kept, m) && retryAfter == CeilSeconds(kept[m] + window - now)
    case ScriptError => |kept| >= limit && kept == map[]
  }

  /** The answer of a limiter that never forgets an admission. */
  ghost predicate RepliesAsHistory(r: Reply, history: Scores, window: int, limit: int, now: int) {
    && (r.Allowed? <==> Opens(history, window, limit, now))
    && (r.Allowed? ==> r.count == |Within(history, now - window, now)| + 1)
    && (r.Denied? ==> r.count == limit && exists m ::
          Oldest(history, window, now, m) && r.retryAfter == CeilSeconds(history[m] + window - now))
    && (r.ScriptError? <==> limit < 1)
  }

  /** Under a steady clock the two agree. */
  lemma DecidesAsHistory(r: Reply, entries: Scores, history: Scores, window: int, limit: int, last: int, expireAt: int, now: int)
    requires Tracks(entries, history, window, last, expireAt) && last <= now && Stored(entries, history, limit)
    requires IsReply(r, Prune(entries, now - window), window, limit, now)
    ensures RepliesAsHistory(r, history, window, limit, now)
    ensures Tracks(Prune(entries, now - window), history, window, now, expireAt)
  {
    PrunedIsWindow(entries, history, window, last, expireAt, now);
    if r.Denied? {
      var kept := Prune(entries, now - window);
      var m :| OldestStored(kept, m) && r.retryAfter == CeilSeconds(kept[m] + window - now);
      assert Oldest(history, window, now, m);
    }
  }

  /** An admission keeps what is stored and the bound. */
  lemma AdmitKeeps(kept: Scores, history: Scores, window: int, limit: int, now: int, expireAt: int, member: string)
    requires Tracks(kept, history, window, now, expireAt) && Bounded(history, window, limit) && member !in history
    requires Opens(history, window, limit, now)
    ensures Tracks(kept[member := now], history[member := now], window, now, now + window)
    ensures Bounded(history[member := now], window, limit)
  {
    AdmitKeepsTracking(kept, history, window, now, expireAt, member);
    AdmitKeepsBounded(history, window, limit, now, member);
  }

  lemma PrunedStays(entries: Scores, cutoff: int, member: string, now: int)
    requires member !in entries
    ensures |Prune(entries, cutoff)| <= |entries|
    ensures |Prune(entries, cutoff)[member := now]| == |Prune(entries, cutoff)| + 1
  {
    var kept := Prune(entries, cutoff);
    SubsetSize(kept.Keys, entries.Keys);
    assert kept[member := now].Keys == kept.Keys + {member};
  }

  /** What the script leaves in the set. */
  function Left(entries: Scores, window: int, limit: int, now: int, member: string): Scores {
    var admitted := Admit(entries, window, limit, now, member);
    if admitted.Some? then admitted.value else Prune(entries, now - window)
  }

  /** The Lua script. */
  method Script(entries: Scores, window: int, limit: int, now: int, member: string) returns (r: Reply, left: Scores)
    ensures IsReply(r, Prune(entries, now - window), window, limit, now)
    ensures left == Left(entries, window, limit, now, member)
  {
    left := Prune(entries, now - window);
    var count := |left|;
    if count >= limit {
      if left == map[] {
        return ScriptError, left;
      }
      var oldest := First(left);
      assert OldestStored(left, oldest);
      return Denied(count, CeilSeconds(left[oldest] + window - now)), left;
    }
    left := left[member := now];
    return Allowed(count + 1), left;
  }

  function Grown(r: Reply, history: Scores, now: int, member: string): Scores {
    if r.Allowed? then history[member := now] else history
  }

  lemma LeftStored(entries: Scores, history: Scores, window: int, limit: int, now: int, member: string)
    requires Stored(entries, history, limit) && member !in history
    ensures var admitted := Admit(entries, window, limit, now, member);
            if admitted.Some? then Stored(admitted.value, history[member := now], limit)
            else Stored(Prune(entries, now - window), history, limit)
  {
    PrunedStays(entries, now - window, member, now);
  }

  lemma ScriptStays(r: Reply, entries: Scores, history: Scores, window: int, limit: int, now: int, member: string)
    requires IsReply(r, Prune(entries, now - window), window, limit, now)
    requires Stored(entries, history, limit) && member !in history
    ensures Stored(Left(entries, window, limit, now, member), Grown(r, history, now, member), limit)
  {
    LeftStored(entries, history, window, limit, now, member);
    assert r.Allowed? <==> Admit(entries, window, limit, now, member).Some?;
  }

  /** What a steady clock keeps besides. */
  lemma ScriptTracks(r: Reply, entries: Scores, history: Scores, window: int, limit: int, last: int, expireAt: int, now: int, member: string)
    requires Tracks(entries, history, window, last, expireAt) && Bounded(history, window, limit) && Stored(entries, history, limit)
    requires last <= now && member !in history && IsReply(r, Prune(entries, now - window), window, limit, now)
    ensures RepliesAsHistory(r, history, window, limit, now)
    ensures Tracks(Left(entries, window, limit, now, member), Grown(r, history, now, member), window, now,
                   if r.Allowed? then now + window else expireAt)
    ensures Bounded(Grown(r, history, now, member), window, limit)
  {
    DecidesAsHistory(r, entries, history, window, limit, last, expireAt, now);
    if r.Allowed? {
      AdmitKeeps(Prune(entries, now - window), history, window, limit, now, expireAt, member);
    }
  }

  lemma CheckKeeps(r: Reply, entries: Scores, history: Scores, window: int, limit: int, last: int, expireAt: int,
                   steady: bool, now: int, member: string)
    requires Sound(entries, history, window, limit, last, expireAt, steady) && member !in history
    requires IsReply(r, Prune(entries, now - window), window, limit, now)
    ensures Sound(Left(entries, window, limit, now, member), Grown(r, history, now, member), window, limit, now,
                  if r.Allowed? then now + window else expireAt, steady && last <= now)
    ensures steady && last <= now ==> RepliesAsHistory(r, history, window, limit, now)
  {
    ScriptStays(r, entries, history, window, limit, now, member);
    if steady && last <= now {
      ScriptTracks(r, entries, history, window, limit, last, expireAt, now, member);
    }
  }

  /** One run of the script on a sound set. */
  method Round(entries: Scores, ghost history: Scores, window: int, limit: int, ghost last: int, ghost expireAt: int,
               ghost steady: bool, now: int, member: string)
    returns (r: Reply, left: Scores, ghost grown: Scores)
    requires Sound(entries, history, window, limit, last, expireAt, steady) && member !in history
    ensures IsReply(r, Prune(entries, now - window), window, limit, now)
    ensures left == Left(entries, window, limit, now, member) && grown == Grown(r, history, now, member)
    ensures Sound(left, grown, window, limit, now, if r.Allowed? then now + window else expireAt, steady && last <= now)
    ensures steady && last <= now ==> RepliesAsHistory(r, history, window, limit, now)
  {
    r, left := Script(entries, window, limit, now, member);
    CheckKeeps(r, entries, history, window, limit, last, expireAt, steady, now, member);
    grown := Grown(r, history, now, member);
  }

  /** The key in Redis. `history` holds every member ever admitted, `last` the time of
      the latest call; `steady` tells whether the clock never stepped back between calls. */
  class SlidingWindow {
    const window: int
    const limit: int
    var entries: Scores
    var expireAt: int
    ghost var history: Scores
    ghost var last: int
    ghost var steady: bool

    ghost predicate Valid()
      reads this
    {
      Sound(entries, history, window, limit, last, expireAt, steady)
    }

    constructor (window: int, limit: int, now: int)
      ensures Valid() && steady && history == map[] && entries == map[] && last == now
      ensures this.window == window && this.limit == limit
    {
      this.window, this.limit := window, limit;
      entries, expireAt := map[], 0;
      history, last, steady := map[], now, true;
      new;
      forall from ensures Load(history, window, from) == 0 {
        assert Within(history, from, from + window) == {};
      }
    }

    /** The server may drop the key at any moment after its time to live. */
    method Expire(now: int)
      requires Valid() && expireAt <= now
      modifies this`entries, this`last
      ensures Valid() && entries == map[] && last == if old(last) < now then now else old(last)
    {
      entries := map[];
      last := if last < now then now else last;
    }

    /** One run of the script, whatever the clock shows. Under a steady clock it decides
        as a history that never forgets would, and a refused request changes no later
        decision. */
    method Check(now: int, member: string) returns (r: Reply)
      requires Valid() && member !in history
      modifies this
      ensures Valid() && last == now && (steady <==> old(steady) && old(last) <= now)
      ensures r.Allowed? <==> Admit(old(entries), window, limit, now, member).Some?
      ensures entries == Left(old(entries), window, limit, now, member)
      ensures history == Grown(r, old(history), now, member)
      ensures expireAt == if r.Allowed? then now + window else old(expireAt)
      ensures steady ==> RepliesAsHistory(r, old(history), window, limit, now)
    {
      ghost var grown;
      r, entries, grown := Round(entries, history, window, limit, last, expireAt, steady, now, member);
      steady, last, history := steady && last <= now, now, grown;
      expireAt := if r.Allowed? then now + window else expireAt;
    }
  }

  // -------------------------------------------------------------- Retry-After

  /** When the window is full at `now` it opens at the oldest admission plus the
      window: as long as nothing is admitted, a request is refused before that moment
      and admitted from then on. */
  lemma OpensExactly(history: Scores, window: int, limit: int, now: int, oldest: string, t: int)
    requires Bounded(history, window, limit) && (forall m :: m in history ==> history[m] <= now)
    requires limit >= 1 && !Opens(history, window, limit, now) && Oldest(history, window, now, oldest) && now <= t
    ensures Opens(history, window, limit, t) <==> t >= history[oldest] + window
  {
    var full, later := Within(history, now - window, now), Within(history, t - window, t);
    assert Load(history, window, now - window) <= Cap(limit) && now - window + window == now;
    if t >= history[oldest] + window {
      SubsetSize(later, full - {oldest});
    } else {
      assert later == full;
    }
  }

  /** Retry-After is at least one second and at most the window, waiting it out is
      enough, and one second less is not. */
  lemma RetryAfterExact(history: Scores, windowSeconds: int, limit: int, now: int, oldest: string)
    requires Bounded(history, windowSeconds * 1000, limit) && (forall m :: m in history ==> history[m] <= now)
    requires limit >= 1 && !Opens(history, windowSeconds * 1000, limit, now)
    requires Oldest(history, windowSeconds * 1000, now, oldest)
    ensures var retry := CeilSeconds(history[oldest] + windowSeconds * 1000 - now);
            && 1 <= retry <= windowSeconds
            && (forall t :: t >= now + 1000 * retry ==> Opens(history, windowSeconds * 1000, limit, t))
            && !Opens(history, windowSeconds * 1000, limit, now + 1000 * (retry - 1))
  {
    var window := windowSeconds * 1000;
    var retry := CeilSeconds(history[oldest] + window - now);
    forall t | t >= now + 1000 * retry ensures Opens(history, window, limit, t) {
      OpensExactly(history, window, limit, now, oldest, t);
    }
    OpensExactly(history, window, limit, now, oldest, now + 1000 * (retry - 1));
  }
}
