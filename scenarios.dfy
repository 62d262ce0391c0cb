/**
 * Properties of whole command lines against the store: PING, ECHO, SET and
 * GET examples, the unit tests' expectations, and how the two expiry
 * paths (lazy on GET, eager on sweep) look to a client.
 */
module Scenarios {
  import opened Wrappers
  import opened Store
  import opened Commands

  /**
   * After a successful SET, a GET at the same instant returns the value exactly
   * when the key is live: with a TTL, when the duration was not negative;
   * without one, when no earlier TTL of the key has already passed.
   */
  lemma SetThenGet(args: seq<string>, s: State, now: Instant, parse: DurationParser)
    requires ParseSet(args, now, parse).Ok?
    ensures SetKey(args, s, now, parse).reply == Ok("OK")
    ensures IsLive(SetKey(args, s, now, parse).after, args[1], now) <==>
              match ParseSet(args, now, parse).value.expiry
              case Some(e) => now <= e
              case None => !IsExpired(s, args[1], now)
    ensures IsLive(SetKey(args, s, now, parse).after, args[1], now) ==>
              GetKey(["GET", args[1]], SetKey(args, s, now, parse).after, now).reply == Ok(args[2])
  {
  }

  /** SET without a TTL on a fresh cache, then GET, at any later instant, returns the value. */
  lemma SetThenGetOnFreshCache(key: string, value: string, t0: Instant, t1: Instant, parse: DurationParser)
    ensures HandleLine(["SET", key, value], Empty(), t0, parse).line == "OK"
    ensures HandleLine(["GET", key], HandleLine(["SET", key, value], Empty(), t0, parse).after, t1, parse).line == value
  {
  }

  /** SET with PX 500, then GET 600 milliseconds later, gives the nil marker. */
  lemma PxExpiry(key: string, value: string, t0: Instant, parse: DurationParser)
    requires parse("500ms") == Some(500_000_000)
    ensures HandleLine(["SET", key, value, "PX", "500"], Empty(), t0, parse).line == "OK"
    ensures HandleLine(["GET", key], HandleLine(["SET", key, value, "PX", "500"], Empty(), t0, parse).after,
                       t0 + 600_000_000, parse).line == NilReply
  {
    assert "500" + "ms" == "500ms";
  }

  /** EX 0 expires at the instant of the SET: live at that very instant, gone at any later one. */
  lemma ZeroSecondExpiry(key: string, value: string, t0: Instant, t1: Instant, parse: DurationParser)
    requires parse("0s") == Some(0)
    ensures HandleLine(["GET", key], HandleLine(["SET", key, value, "EX", "0"], Empty(), t0, parse).after,
                       t0, parse).line == value
    ensures t0 < t1 ==>
              HandleLine(["GET", key], HandleLine(["SET", key, value, "EX", "0"], Empty(), t0, parse).after,
                         t1, parse).line == NilReply
  {
    assert "0" + "s" == "0s";
  }

  /** A SET without a TTL keeps the TTL of an earlier SET of the same key. */
  lemma OverwriteKeepsExpiry(key: string, v1: string, v2: string, t0: Instant, parse: DurationParser)
    requires parse("1s") == Some(1_000_000_000)
    ensures var s1 := HandleLine(["SET", key, v1, "EX", "1"], Empty(), t0, parse).after;
            var s2 := HandleLine(["SET", key, v2], s1, t0, parse).after;
            HandleLine(["GET", key], s2, t0 + 2_000_000_000, parse).line == NilReply
  {
    assert "1" + "s" == "1s";
  }

  /** SET with a flag but no duration is an arity error and leaves the store alone. */
  lemma MissingDuration(s: State, key: string, value: string, now: Instant, parse: DurationParser)
    ensures HandleLine(["SET", key, value, "EX"], s, now, parse) == Response(SetExpiryArityError, s)
  {
  }

  /** GET of a key that was never set is the nil marker, not an error. */
  lemma GetMissingKey(s: State, key: string, now: Instant, parse: DurationParser)
    requires key !in s.data
    ensures HandleLine(["GET", key], s, now, parse) == Response(NilReply, s)
  {
  }

  /** PING and ECHO answer without touching the store. */
  lemma PingAndEcho(s: State, now: Instant, parse: DurationParser)
    ensures HandleLine(["PING"], s, now, parse) == Response("PONG", s)
    ensures HandleLine(["ECHO", "hello", "world"], s, now, parse) == Response("hello world", s)
    ensures HandleLine(["ECHO"], s, now, parse) == Response("", s)
  {
    assert ["ECHO", "hello", "world"][1..] == ["hello", "world"];
    assert ["hello", "world"][1..] == ["world"];
  }

  /** An expiring key that is never read is gone from both maps after the first sweep past its expiry. */
  lemma SweepReclaimsWithoutRead(s: State, key: string, value: string, t0: Instant, t1: Instant, parse: DurationParser)
    requires parse("200ms") == Some(200_000_000)
    requires t1 > t0 + 200_000_000
    ensures var s1 := HandleLine(["SET", key, value, "PX", "200"], s, t0, parse).after;
            key !in Sweep(s1, t1).data && key !in Sweep(s1, t1).expiry
  {
    assert "200" + "ms" == "200ms";
  }

  /** A key set without a TTL is still found after any number of cleanup sweeps. */
  lemma NoTtlSurvivesSweeps(key: string, value: string, t0: Instant, ticks: seq<Instant>, t1: Instant, parse: DurationParser)
    ensures var s1 := HandleLine(["SET", key, value], Empty(), t0, parse).after;
            HandleLine(["GET", key], SweepAll(s1, ticks), t1, parse).line == value
  {
    var s1 := HandleLine(["SET", key, value], Empty(), t0, parse).after;
    if ticks != [] {
      SweepAllIsLatestSweep(s1, ticks);
    }
  }

  /**
   * A sweep is invisible to the next command line: with nothing run in
   * between, it gets the same reply whether or not the sweep ran first.
   */
  lemma SweepInvisibleToCommands(args: seq<string>, s: State, swept: Instant, now: Instant, parse: DurationParser)
    requires swept <= now
    ensures HandleLine(args, Sweep(s, swept), now, parse).line == HandleLine(args, s, now, parse).line
  {
  }

  /**
   * Removal of an expired key is not invisible to every later command: a SET
   * without a TTL keeps the old expiry only while the key is still present.
   * A key swept, or deleted by a missing GET, comes back for good; a key not
   * yet removed stays expired.
   */
  lemma RemovalDecidesOverwrite(key: string, v1: string, v2: string, e: Instant, t: Instant, parse: DurationParser)
    requires e < t
    ensures var s := State(map[key := v1], map[key := e]);
            HandleLine(["GET", key], HandleLine(["SET", key, v2], Sweep(s, t), t, parse).after, t, parse).line == v2
    ensures var s := State(map[key := v1], map[key := e]);
            var missed := HandleLine(["GET", key], s, t, parse).after;
            HandleLine(["GET", key], HandleLine(["SET", key, v2], missed, t, parse).after, t, parse).line == v2
    ensures var s := State(map[key := v1], map[key := e]);
            HandleLine(["GET", key], HandleLine(["SET", key, v2], s, t, parse).after, t, parse).line == NilReply
  {
  }
}
