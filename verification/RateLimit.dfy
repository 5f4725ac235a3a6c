/**
 * The fixed-window limiter (`core/ratelimit.py`): one counter key per identity, incremented and
 * read in one transaction, and given its expiry by a second call that may come late or twice.
 */
module RateLimit {
  import opened Wrappers
  import opened Sums

  type Time = nat

  datatype Key = Key(count: nat, expires: Option<Time>)

  predicate Live(key: Option<Key>, now: Time) {
    key.Some? && (key.value.expires.Some? ==> now < key.value.expires.value)
  }

  /** What a reader sees: nothing once the key has expired. */
  function CountAt(key: Option<Key>, now: Time): nat {
    if Live(key, now) then key.value.count else 0
  }

  /** `INCR`: a missing key starts at one without an expiry; a live one keeps its expiry. */
  function Incremented(key: Option<Key>, now: Time): Key {
    if Live(key, now) then key.value.(count := key.value.count + 1) else Key(1, None)
  }

  /** `EXPIRE`: restarts the expiry of a live key, does nothing to a missing one. */
  function Restarted(key: Option<Key>, now: Time, window: nat): Option<Key> {
    if Live(key, now) then Some(key.value.(expires := Some(now + window))) else key
  }

  class Limiter {
    var keys: map<string, Key>

    constructor ()
      ensures keys == map[]
    {
      keys := map[];
    }

    function Find(ident: string): Option<Key>
      reads this
    {
      if ident in keys then Some(keys[ident]) else None
    }

    /** The first call of `allow`: count the hit; also says whether the window has to be started. */
    method CountHit(ident: string, limit: int, now: Time, reachable: bool) returns (allowed: bool, startWindow: bool)
      modifies this
      ensures limit == 0 || ident == "" || !reachable ==> allowed && !startWindow && keys == old(keys)
      ensures limit != 0 && ident != "" && reachable ==>
        && keys == old(keys)[ident := Incremented(old(Find(ident)), now)]
        && (allowed <==> old(CountAt(Find(ident), now)) < limit)
        && (startWindow <==> keys[ident].count == 1 || keys[ident].expires.None?)
    {
      if limit == 0 || ident == "" || !reachable {
        return true, false;
      }
      var key := Incremented(Find(ident), now);
      keys := keys[ident := key];
      return key.count <= limit, key.count == 1 || key.expires.None?;
    }

    /** The second call of `allow`, made only when the window has to be started. */
    method StartWindow(ident: string, window: nat, now: Time)
      modifies this
      ensures Find(ident) == Restarted(old(Find(ident)), now, window)
      ensures forall other :: other != ident ==> Find(other) == old(Find(other))
    {
      if ident in keys && Live(Some(keys[ident]), now) {
        keys := keys[ident := keys[ident].(expires := Some(now + window))];
      }
    }

    /** `exceeded` is true exactly when a hit counted now would be refused. */
    method Exceeded(ident: string, limit: int, now: Time) returns (used: bool)
      ensures used <==> limit != 0 && ident != "" && !(Incremented(Find(ident), now).count <= limit)
    {
      if limit == 0 || ident == "" {
        return false;
      }
      return CountAt(Find(ident), now) >= limit;
    }
  }

  // ---- any interleaving of hits and late EXPIREs for one identity ---------------------------

  /** `window` numbers the lives of the key: a new one starts whenever a hit finds the key missing. */
  datatype Hit = Hit(time: Time, window: nat, admitted: bool)

  /** `pending` counts EXPIRE calls that were decided but not made yet; `starts` when each life began. */
  datatype State = State(now: Time, key: Option<Key>, pending: nat, starts: seq<Time>, hits: seq<Hit>)

  datatype Config = Config(limit: nat, window: nat)

  datatype Step = Tick(elapsed: nat) | Count | Expire | LoseExpire

  predicate Enabled(s: State, step: Step) {
    step.Expire? || step.LoseExpire? ==> s.pending > 0
  }

  /** The number of the current life of the key. */
  function Last(starts: seq<Time>): nat {
    if |starts| == 0 then 0 else |starts| - 1
  }

  function Do(c: Config, s: State, step: Step): State
    requires Enabled(s, step)
  {
    match step
    case Tick(elapsed) => s.(now := s.now + elapsed)
    case Count =>
      var key := Incremented(s.key, s.now);
      var starts := if Live(s.key, s.now) then s.starts else s.starts + [s.now];
      s.(key := Some(key),
         starts := starts,
         pending := if key.count == 1 || key.expires.None? then s.pending + 1 else s.pending,
         hits := s.hits + [Hit(s.now, Last(starts), key.count <= c.limit)])
    case Expire => s.(key := Restarted(s.key, s.now, c.window), pending := s.pending - 1)
    case LoseExpire => s.(pending := s.pending - 1)
  }

  ghost predicate Run(c: Config, states: seq<State>, steps: seq<Step>) {
    && |states| == |steps| + 1 && states[0] == State(states[0].now, None, 0, [], [])
    && (forall n :: 0 <= n < |steps| ==> Enabled(states[n], steps[n]) && states[n + 1] == Do(c, states[n], steps[n]))
  }

  function AdmittedIn(window: nat): Hit -> int {
    (h: Hit) => if h.admitted && h.window == window then 1 else 0
  }

  function AdmittedDuring(from: Time, to: Time): Hit -> int {
    (h: Hit) => if h.admitted && from <= h.time < to then 1 else 0
  }

  /** Lives of the key follow each other at least one window apart. */
  ghost predicate StartsSound(c: Config, s: State) {
    && (s.key.Some? <==> |s.starts| > 0)
    && (forall k :: 0 <= k < |s.starts| ==> s.starts[k] <= s.now)
    && (forall k :: 0 <= k < |s.starts| - 1 ==> s.starts[k] + c.window <= s.starts[k + 1])
    && (s.key.Some? && s.key.value.expires.Some? ==> s.starts[|s.starts| - 1] + c.window <= s.key.value.expires.value)
  }

  /** Every hit falls inside the life it was counted in. */
  ghost predicate HitsSound(s: State) {
    forall h :: h in s.hits ==>
      && h.window < |s.starts| && s.starts[h.window] <= h.time <= s.now
      && (h.window + 1 < |s.starts| ==> h.time <= s.starts[h.window + 1])
  }

  /** No life of the key admits more than the limit; the current one has admitted what its count says. */
  ghost predicate CountsSound(c: Config, s: State) {
    && (forall w: nat :: Sum(s.hits, AdmittedIn(w)) <= c.limit)
    && (forall w: nat :: w >= |s.starts| ==> Sum(s.hits, AdmittedIn(w)) == 0)
    && (s.key.Some? ==>
          Sum(s.hits, AdmittedIn(Last(s.starts))) == if s.key.value.count <= c.limit then s.key.value.count else c.limit)
  }

  lemma CountKeepsCounts(c: Config, s: State)
    requires StartsSound(c, s) && CountsSound(c, s)
    ensures CountsSound(c, Do(c, s, Count))
  {
    var s' := Do(c, s, Count);
    var h := s'.hits[|s.hits|];
    forall w: nat
      ensures Sum(s'.hits, AdmittedIn(w)) == Sum(s.hits, AdmittedIn(w)) + AdmittedIn(w)(h)
    {
      SumAppend(s.hits, h, AdmittedIn(w));
    }
    assert Sum(s.hits, AdmittedIn(|s.starts|)) == 0;
  }

  lemma CountKeepsStarts(c: Config, s: State)
    requires StartsSound(c, s) && HitsSound(s)
    ensures StartsSound(c, Do(c, s, Count)) && HitsSound(Do(c, s, Count))
  {
    CountKeepsHits(c, s);
  }

  lemma CountKeepsHits(c: Config, s: State)
    requires StartsSound(c, s) && HitsSound(s)
    ensures HitsSound(Do(c, s, Count))
  {
  }

  lemma StepKeepsSound(c: Config, s: State, step: Step)
    requires StartsSound(c, s) && HitsSound(s) && CountsSound(c, s) && Enabled(s, step)
    ensures var s' := Do(c, s, step); StartsSound(c, s') && HitsSound(s') && CountsSound(c, s')
  {
    if step.Count? {
      CountKeepsCounts(c, s);
      CountKeepsStarts(c, s);
    } else {
      var s' := Do(c, s, step);
      assert s'.hits == s.hits && s'.starts == s.starts && s'.now >= s.now;
      assert s'.key.Some? <==> s.key.Some?;
      assert s.key.Some? ==> s'.key.value.count == s.key.value.count;
    }
  }

  lemma {:induction false} SoundThroughout(c: Config, states: seq<State>, steps: seq<Step>, n: nat)
    requires Run(c, states, steps) && n < |states|
    ensures StartsSound(c, states[n]) && HitsSound(states[n]) && CountsSound(c, states[n])
  {
    if n > 0 {
      SoundThroughout(c, states, steps, n - 1);
      StepKeepsSound(c, states[n - 1], steps[n - 1]);
    }
  }

  /** The earliest life with a hit inside the interval, if there is one. */
  lemma {:induction false} EarliestWindow(hits: seq<Hit>, from: Time, to: Time) returns (first: Option<Hit>)
    ensures first.Some? ==> first.value in hits && from <= first.value.time < to
    ensures forall h :: h in hits && from <= h.time < to ==> first.Some? && first.value.window <= h.window
  {
    if |hits| == 0 {
      first := None;
    } else {
      first := EarliestWindow(hits[1..], from, to);
      var h := hits[0];
      if from <= h.time < to && (first.None? || h.window < first.value.window) {
        first := Some(h);
      }
    }
  }

  lemma StartsFarApart(c: Config, s: State, a: nat, b: nat)
    requires StartsSound(c, s) && a + 1 < b < |s.starts|
    ensures s.starts[a + 1] + c.window <= s.starts[b]
  {
    if a + 2 < b {
      StartsFarApart(c, s, a, b - 1);
    }
  }

  lemma SumWithin(hits: seq<Hit>, f: Hit -> int, g: Hit -> int, h: Hit -> int)
    requires forall x :: x in hits ==> f(x) <= g(x) + h(x)
    ensures Sum(hits, f) <= Sum(hits, g) + Sum(hits, h)
  {
  }

  /**
   * In any run, however late, repeated or lost the EXPIRE calls are, any half-open interval one
   * window long admits at most twice the limit.
   */
  lemma AtMostTwiceTheLimitPerWindow(c: Config, states: seq<State>, steps: seq<Step>, n: nat, from: Time)
    requires Run(c, states, steps) && n < |states|
    ensures Sum(states[n].hits, AdmittedDuring(from, from + c.window)) <= 2 * c.limit
  {
    var s := states[n];
    SoundThroughout(c, states, steps, n);
    var first := EarliestWindow(s.hits, from, from + c.window);
    if first.None? {
      SumZero(s.hits, AdmittedDuring(from, from + c.window));
    } else {
      var w := first.value.window;
      forall h | h in s.hits
        ensures AdmittedDuring(from, from + c.window)(h) <= AdmittedIn(w)(h) + AdmittedIn(w + 1)(h)
      {
        if from <= h.time < from + c.window && h.window > w + 1 {
          StartsFarApart(c, s, w, h.window);
        }
      }
      SumWithin(s.hits, AdmittedDuring(from, from + c.window), AdmittedIn(w), AdmittedIn(w + 1));
    }
  }

  // ---- nobody is refused who is within the limit ----------------------------------------------

  /** The hit was admitted exactly when its window still had room. */
  ghost predicate RightlyJudged(c: Config, hits: seq<Hit>, i: nat) {
    i < |hits| && (hits[i].admitted <==> Sum(hits[..i], AdmittedIn(hits[i].window)) < c.limit)
  }

  ghost predicate AllJudged(c: Config, hits: seq<Hit>) {
    forall i :: 0 <= i < |hits| ==> RightlyJudged(c, hits, i)
  }

  lemma NextIsJudged(c: Config, hits: seq<Hit>, h: Hit)
    requires AllJudged(c, hits) && (h.admitted <==> Sum(hits, AdmittedIn(h.window)) < c.limit)
    ensures AllJudged(c, hits + [h])
  {
    var all := hits + [h];
    forall i | 0 <= i < |all| ensures RightlyJudged(c, all, i) {
      assert all[..i] == hits[..i];
      assert hits[..|hits|] == hits;
      assert i < |hits| ==> RightlyJudged(c, hits, i);
    }
  }

  lemma CountJudges(c: Config, s: State)
    requires StartsSound(c, s) && CountsSound(c, s)
    ensures var s' := Do(c, s, Count);
            && |s'.hits| == |s.hits| + 1 && s'.hits == s.hits + [s'.hits[|s.hits|]]
            && var h := s'.hits[|s.hits|]; h.admitted <==> Sum(s.hits, AdmittedIn(h.window)) < c.limit
  {
    assert Sum(s.hits, AdmittedIn(|s.starts|)) == 0;
  }

  /** A hit is refused exactly when its window has already admitted as many as the limit. */
  lemma {:induction false} RefusedOnlyWhenUsedUp(c: Config, states: seq<State>, steps: seq<Step>, n: nat)
    requires Run(c, states, steps) && n < |states|
    ensures forall i :: 0 <= i < |states[n].hits| ==>
              (states[n].hits[i].admitted <==> Sum(states[n].hits[..i], AdmittedIn(states[n].hits[i].window)) < c.limit)
    ensures AllJudged(c, states[n].hits)
  {
    if n > 0 {
      var s := states[n - 1];
      RefusedOnlyWhenUsedUp(c, states, steps, n - 1);
      SoundThroughout(c, states, steps, n - 1);
      if steps[n - 1].Count? {
        CountJudges(c, s);
        NextIsJudged(c, s.hits, states[n].hits[|s.hits|]);
      }
    }
    forall i | 0 <= i < |states[n].hits|
      ensures states[n].hits[i].admitted <==> Sum(states[n].hits[..i], AdmittedIn(states[n].hits[i].window)) < c.limit
    {
      assert RightlyJudged(c, states[n].hits, i);
    }
  }

  /** A hit that finds no end set asks for one: the first of a window, and any after a lost expiry. */
  lemma EndlessWindowsAreEnded(c: Config, s: State)
    ensures var s' := Do(c, s, Count);
            && s'.key.Some? && (s'.key.value.expires.None? ==> s'.pending == s.pending + 1)
            && s'.key.value == if Live(s.key, s.now) then Key(s.key.value.count + 1, s.key.value.expires) else Key(1, None)
  {
  }

  // ---- a window ends ----------------------------------------------------------------------------

  /** The window whose expiry was set at `since` is still the current one, or is over. */
  ghost predicate EndsInTime(c: Config, windows: nat, since: Time, s: State) {
    |s.starts| > windows || (|s.starts| == windows && s.key.Some? && s.key.value.expires == Some(since + c.window))
  }

  lemma StepKeepsItsEnd(c: Config, windows: nat, since: Time, s: State, step: Step)
    requires EndsInTime(c, windows, since, s) && Enabled(s, step) && !step.Expire?
    ensures EndsInTime(c, windows, since, Do(c, s, step))
  {
  }

  lemma {:induction false} EndStays(c: Config, states: seq<State>, steps: seq<Step>, n: nat, m: nat)
    requires Run(c, states, steps) && n < m < |states| && steps[n].Expire? && Live(states[n].key, states[n].now)
    requires forall k :: n < k < m ==> !steps[k].Expire?
    ensures EndsInTime(c, |states[n].starts|, states[n].now, states[m])
  {
    if m > n + 1 {
      EndStays(c, states, steps, n, m - 1);
      StepKeepsItsEnd(c, |states[n].starts|, states[n].now, states[m - 1], steps[m - 1]);
    }
  }

  /**
   * Once its expiry has been set, a window lasts exactly as long as configured, however many hits
   * come: from then on the next hit opens a new window, which admits it if the limit admits any.
   */
  lemma WindowEndsOnTime(c: Config, states: seq<State>, steps: seq<Step>, n: nat, m: nat)
    requires Run(c, states, steps) && n < m < |steps| && steps[n].Expire? && Live(states[n].key, states[n].now) && steps[m].Count?
    requires forall k :: n < k < m ==> !steps[k].Expire?
    requires |states[m].starts| == |states[n].starts|
    ensures |states[m + 1].starts| == |states[n].starts| + (if states[m].now >= states[n].now + c.window then 1 else 0)
    ensures states[m].now >= states[n].now + c.window ==>
              |states[m + 1].hits| > 0 && (states[m + 1].hits[|states[m + 1].hits| - 1].admitted <==> c.limit >= 1)
  {
    EndStays(c, states, steps, n, m);
  }
}
