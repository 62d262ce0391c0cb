/**
 * The state of the expiring key-value store as a value: the two maps a Cache
 * holds, and what set, get and one cleanup sweep do to them. Instants and
 * durations are integers counting nanoseconds; the clock is a parameter.
 */
module Store {
  import opened Wrappers

  /** An absolute instant, in nanoseconds. */
  type Instant = int

  /** Data maps a key to its value, Expiry maps a key to the instant after which it is gone. */
  datatype State = State(data: map<string, string>, expiry: map<string, Instant>)

  /** The store's invariant: every recorded expiry belongs to a recorded value. */
  predicate Valid(s: State) {
    s.expiry.Keys <= s.data.Keys
  }

  /** The expiry test of the store: strictly after. At now == expiry the key is still live. */
  predicate IsExpired(s: State, key: string, now: Instant) {
    key in s.expiry && now > s.expiry[key]
  }

  /** What a read at now observes: present, and not past its expiry. */
  predicate IsLive(s: State, key: string, now: Instant) {
    key in s.data && !IsExpired(s, key, now)
  }

  /** The store a fresh Cache starts with. */
  function Empty(): (s: State)
    ensures Valid(s)
    ensures forall k, now :: !IsLive(s, k, now)
  {
    State(map[], map[])
  }

  /**
   * Writes the value; writes the expiry only when there is one. A write with
   * no expiry leaves an earlier expiry of the same key in place.
   */
  function Set(s: State, key: string, value: string, expiry: Option<Instant>): (r: State)
    ensures key in r.data && r.data[key] == value
    ensures r.data.Keys == s.data.Keys + {key}
    ensures forall k :: k in s.data && k != key ==> r.data[k] == s.data[k]
    ensures expiry.Some? ==> key in r.expiry && r.expiry[key] == expiry.value
    ensures expiry.None? ==> r.expiry == s.expiry
    ensures r.expiry.Keys == s.expiry.Keys + (if expiry.Some? then {key} else {})
    ensures forall k :: k in s.expiry && k != key ==> r.expiry[k] == s.expiry[k]
    ensures Valid(s) ==> Valid(r)
  {
    State(s.data[key := value], if expiry.Some? then s.expiry[key := expiry.value] else s.expiry)
  }

  /** The answer of a get, and the store it leaves behind. */
  datatype Lookup = Lookup(value: string, found: bool, after: State)

  /**
   * A read with lazy expiry: a present key past its expiry is removed from
   * both maps and reported absent; every other read leaves the store alone.
   */
  function Get(s: State, key: string, now: Instant): (r: Lookup)
    ensures r.found <==> key in s.data && (key !in s.expiry || now <= s.expiry[key])
    ensures r.found ==> r.value == s.data[key]
    ensures !r.found ==> r.value == ""
    ensures key in s.data && IsExpired(s, key, now) ==>
              r.after.data == s.data - {key} && r.after.expiry == s.expiry - {key}
    ensures !(key in s.data && IsExpired(s, key, now)) ==> r.after == s
    ensures Valid(s) ==> Valid(r.after)
  {
    if key !in s.data then Lookup("", false, s)
    else if key in s.expiry && now > s.expiry[key] then
      Lookup("", false, State(s.data - {key}, s.expiry - {key}))
    else Lookup(s.data[key], true, s)
  }

  /** The keys one sweep at now removes. */
  function ExpiredKeys(s: State, now: Instant): set<string>
  {
    set k | k in s.expiry && now > s.expiry[k]
  }

  /**
   * One iteration of the cleanup loop: with one snapshot now, every entry
   * whose expiry is strictly before now leaves both maps.
   */
  function Sweep(s: State, now: Instant): (r: State)
    ensures forall k :: k in r.data <==> k in s.data && !IsExpired(s, k, now)
    ensures forall k :: k in r.data ==> r.data[k] == s.data[k]
    ensures forall k :: k in r.expiry <==> k in s.expiry && now <= s.expiry[k]
    ensures forall k :: k in r.expiry ==> r.expiry[k] == s.expiry[k]
    ensures Valid(s) ==> Valid(r)
  {
    var gone := ExpiredKeys(s, now);
    State(s.data - gone, s.expiry - gone)
  }

  /** The sweeps of successive cleanup ticks, in the order the ticks came. */
  function SweepAll(s: State, ticks: seq<Instant>): State
  {
    if ticks == [] then s else Sweep(SweepAll(s, ticks[..|ticks| - 1]), ticks[|ticks| - 1])
  }

  /** The latest of a non-empty sequence of instants. */
  function Latest(ticks: seq<Instant>): (m: Instant)
    requires ticks != []
    ensures m in ticks
    ensures forall i :: 0 <= i < |ticks| ==> ticks[i] <= m
  {
    if |ticks| == 1 then ticks[0]
    else
      var m := Latest(ticks[..|ticks| - 1]);
      assert forall i :: 0 <= i < |ticks| - 1 ==> ticks[..|ticks| - 1][i] == ticks[i];
      if m < ticks[|ticks| - 1] then ticks[|ticks| - 1] else m
  }

  /** What get observes, without the store it leaves behind. */
  function Observe(s: State, key: string, now: Instant): (string, bool)
  {
    var l := Get(s, key, now); (l.value, l.found)
  }

  /** Two sweeps in a row remove what one sweep at the later instant removes. */
  lemma SweepCompose(s: State, a: Instant, b: Instant)
    ensures Sweep(Sweep(s, a), b) == Sweep(s, if a < b then b else a)
  {
  }

  /** Sweeping twice at the same instant is sweeping once. */
  lemma SweepIdempotent(s: State, now: Instant)
    ensures Sweep(Sweep(s, now), now) == Sweep(s, now)
  {
    SweepCompose(s, now, now);
  }

  /** However many ticks have passed, the cleanup loop has the effect of one sweep at the latest tick. */
  lemma {:induction false} SweepAllIsLatestSweep(s: State, ticks: seq<Instant>)
    requires ticks != []
    ensures SweepAll(s, ticks) == Sweep(s, Latest(ticks))
  {
    if |ticks| > 1 {
      var init := ticks[..|ticks| - 1];
      SweepAllIsLatestSweep(s, init);
      SweepCompose(s, Latest(init), ticks[|ticks| - 1]);
    }
  }

  /** The cleanup loop keeps the store's invariant. */
  lemma {:induction false} SweepAllValid(s: State, ticks: seq<Instant>)
    requires Valid(s)
    ensures Valid(SweepAll(s, ticks))
  {
    if ticks != [] {
      SweepAllValid(s, ticks[..|ticks| - 1]);
    }
  }

  /**
   * A sweep changes nothing that the next get, at the same instant or later
   * and with nothing run in between, can observe.
   */
  lemma SweepUnobservable(s: State, now: Instant, key: string, later: Instant)
    requires now <= later
    ensures Observe(Sweep(s, now), key, later) == Observe(s, key, later)
  {
  }

  /** The removal that a get performs is likewise invisible to the next get, with nothing run in between. */
  lemma GetCleanupUnobservable(s: State, key: string, now: Instant, other: string, later: Instant)
    requires now <= later
    ensures Observe(Get(s, key, now).after, other, later) == Observe(s, other, later)
  {
  }

  /**
   * Once a read misses a key, a read of it at any later instant, with nothing
   * run in between, misses too: on the same store and on the store that
   * missing read leaves behind.
   */
  lemma AbsenceIsPermanent(s: State, key: string, now: Instant, later: Instant)
    requires now <= later
    requires !Get(s, key, now).found
    ensures !Get(s, key, later).found
    ensures !Get(Get(s, key, now).after, key, later).found
  {
  }

  /**
   * A read right after a write sees the written value unless the key has
   * expired: by the new expiry, or, for a write without one, by the old one.
   */
  lemma GetAfterSet(s: State, key: string, value: string, expiry: Option<Instant>, now: Instant)
    ensures Get(Set(s, key, value, expiry), key, now).found <==>
              match expiry
              case Some(e) => now <= e
              case None => key !in s.expiry || now <= s.expiry[key]
    ensures Get(Set(s, key, value, expiry), key, now).found ==>
              Get(Set(s, key, value, expiry), key, now).value == value
  {
  }

  /** A write to one key is invisible to reads of any other key. */
  lemma SetIsolated(s: State, key: string, value: string, expiry: Option<Instant>, other: string, now: Instant)
    requires other != key
    ensures Observe(Set(s, key, value, expiry), other, now) == Observe(s, other, now)
  {
  }
}
