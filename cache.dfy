/**
 * The Cache object: two maps that set, get and the cleanup loop update in
 * place. Each method is proved against the matching function of Store.
 */
module CacheObject {
  import opened Wrappers
  import opened Store

  class Cache {
    var data: map<string, string>
    var expiry: map<string, Instant>

    /** The two maps as a Store value. */
    function Contents(): State
      reads this
    {
      State(data, expiry)
    }

    ghost predicate Valid()
      reads this
    {
      Store.Valid(Contents())
    }

    /** NewCache: both maps empty. */
    constructor ()
      ensures Valid()
      ensures Contents() == Empty()
    {
      data, expiry := map[], map[];
    }

    method Set(key: string, value: string, exp: Option<Instant>)
      requires Valid()
      modifies this
      ensures Valid()
      ensures Contents() == Store.Set(old(Contents()), key, value, exp)
    {
      data := data[key := value];
      if exp.Some? {
        expiry := expiry[key := exp.value];
      }
    }

    method Get(key: string, now: Instant) returns (value: string, found: bool)
      requires Valid()
      modifies this
      ensures Valid()
      ensures Lookup(value, found, Contents()) == Store.Get(old(Contents()), key, now)
    {
      if key !in data {
        return "", false;
      }
      if key in expiry && now > expiry[key] {
        data := data - {key};
        expiry := expiry - {key};
        return "", false;
      }
      return data[key], true;
    }

    /** One tick of the cleanup loop: visits every key with an expiry and deletes the expired ones. */
    method Sweep(now: Instant)
      requires Valid()
      modifies this
      ensures Valid()
      ensures Contents() == Store.Sweep(old(Contents()), now)
    {
      ghost var start := Contents();
      ghost var gone := ExpiredKeys(start, now);
      var pending := expiry.Keys;
      while pending != {}
        invariant pending <= start.expiry.Keys
        invariant data == start.data - (gone - pending)
        invariant expiry == start.expiry - (gone - pending)
        decreases pending
      {
        var k :| k in pending;
        if now > expiry[k] {
          data := data - {k};
          expiry := expiry - {k};
        }
        pending := pending - {k};
      }
      assert gone - pending == gone;
    }

    /** The cleanup loop run over the ticks that have fired so far, one sweep per tick. */
    method StartCleanup(ticks: seq<Instant>)
      requires Valid()
      modifies this
      ensures Valid()
      ensures Contents() == SweepAll(old(Contents()), ticks)
    {
      for i := 0 to |ticks|
        invariant Valid()
        invariant Contents() == SweepAll(old(Contents()), ticks[..i])
      {
        assert ticks[..i + 1][..i] == ticks[..i];
        Sweep(ticks[i]);
      }
      assert ticks[..|ticks|] == ticks;
    }
  }
}
