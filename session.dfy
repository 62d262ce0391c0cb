/**
 * The command layer run against the shared Cache object: each method makes
 * the same checks as its counterpart in Commands and calls into the cache
 * in place, and is proved to give the same reply and the same new store.
 */
module Session {
  import opened Wrappers
  import opened Store
  import opened Commands
  import opened CacheObject

  method SetKey(args: seq<string>, cache: Cache, now: Instant, parse: DurationParser)
    returns (reply: Result<string, string>)
    requires cache.Valid()
    modifies cache
    ensures cache.Valid()
    ensures Outcome(reply, cache.Contents()) == Commands.SetKey(args, old(cache.Contents()), now, parse)
  {
    match ParseSet(args, now, parse)
    case Err(message) =>
      reply := Err(message);
    case Ok(req) =>
      cache.Set(req.key, req.value, req.expiry);
      reply := Ok("OK");
  }

  method GetKey(args: seq<string>, cache: Cache, now: Instant)
    returns (reply: Result<string, string>)
    requires cache.Valid()
    modifies cache
    ensures cache.Valid()
    ensures Outcome(reply, cache.Contents()) == Commands.GetKey(args, old(cache.Contents()), now)
  {
    if |args| < 2 {
      return Err(GetArgsError);
    }
    var value, ok := cache.Get(args[1], now);
    if !ok {
      reply := Ok(NilReply);
    } else {
      reply := Ok(value);
    }
  }

  method RunCommand(args: seq<string>, cache: Cache, now: Instant, parse: DurationParser)
    returns (reply: Result<string, string>)
    requires |args| > 0
    requires cache.Valid()
    modifies cache
    ensures cache.Valid()
    ensures Outcome(reply, cache.Contents()) == Commands.RunCommand(args, old(cache.Contents()), now, parse)
  {
    if args[0] == "PING" {
      reply := Ok("PONG");
    } else if args[0] == "ECHO" {
      reply := Ok(EchoMessage(args[1..]));
    } else if args[0] == "SET" {
      reply := SetKey(args, cache, now, parse);
    } else if args[0] == "GET" {
      reply := GetKey(args, cache, now);
    } else {
      reply := Err("unknown command: " + args[0]);
    }
  }

  /** One round of a session's loop, after the line has been read and split into tokens. */
  method HandleLine(args: seq<string>, cache: Cache, now: Instant, parse: DurationParser)
    returns (line: string)
    requires cache.Valid()
    modifies cache
    ensures cache.Valid()
    ensures Response(line, cache.Contents()) == Commands.HandleLine(args, old(cache.Contents()), now, parse)
  {
    if |args| < 1 {
      return Usage;
    }
    var reply := RunCommand(args, cache, now, parse);
    match reply
    case Ok(response) => line := response;
    case Err(message) => line := message;
  }

  /** A client of the cache: the unit tests' SET then GET, on one Cache object. */
  method SetThenGet(key: string, value: string, t0: Instant, t1: Instant, parse: DurationParser)
    returns (setLine: string, getLine: string)
    ensures setLine == "OK" && getLine == value
  {
    var cache := new Cache();
    setLine := HandleLine(["SET", key, value], cache, t0, parse);
    getLine := HandleLine(["GET", key], cache, t1, parse);
  }
}
