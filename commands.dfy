/**
 * The command layer as functions on Store values: validating a token list,
 * the store call it leads to, and the response line or error message it
 * produces. The clock reading is the parameter now; the duration parser is
 * the parameter parse, applied to the token with its unit suffix appended.
 */
module Commands {
  import opened Wrappers
  import opened Store

  /** A duration parser: a partial map from text such as "500ms" to nanoseconds. */
  type DurationParser = string -> Option<int>

  const Usage := "Usage: command \"argument\""
  const SetArgsError := "SET requires at least a 'key' and a 'value'"
  const SetExpiryArityError := "requires a second expiry parameter"
  const SetFlagError := "invalid argument for 'SET'"
  const ExValueError := "invalid seconds value for 'EX'"
  // The PX message says "seconds" as well, although PX takes milliseconds.
  const PxValueError := "invalid seconds value for 'PX'"
  const GetArgsError := "GET requires a 'value' parameter"
  const NilReply := "(nil)"

  /** A command's reply and the store after it. */
  datatype Outcome = Outcome(reply: Result<string, string>, after: State)

  /** What a valid SET asks the store to do. */
  datatype SetRequest = SetRequest(key: string, value: string, expiry: Option<Instant>)

  /** The argument checks of SET, in the order they are made. */
  function ParseSet(args: seq<string>, now: Instant, parse: DurationParser): Result<SetRequest, string>
  {
    if |args| < 3 then Err(SetArgsError)
    else if |args| == 3 then Ok(SetRequest(args[1], args[2], None))
    else if |args| != 5 then Err(SetExpiryArityError)
    else if args[3] == "EX" then
      match parse(args[4] + "s")
      case None => Err(ExValueError)
      case Some(d) => Ok(SetRequest(args[1], args[2], Some(now + d)))
    else if args[3] == "PX" then
      match parse(args[4] + "ms")
      case None => Err(PxValueError)
      case Some(d) => Ok(SetRequest(args[1], args[2], Some(now + d)))
    else Err(SetFlagError)
  }

  /** SET key value [EX seconds | PX milliseconds]. */
  function SetKey(args: seq<string>, s: State, now: Instant, parse: DurationParser): (r: Outcome)
    ensures |args| < 3 ==> r.reply == Err(SetArgsError)
    ensures |args| == 4 || |args| > 5 ==> r.reply == Err(SetExpiryArityError)
    ensures |args| == 5 && args[3] != "EX" && args[3] != "PX" ==> r.reply == Err(SetFlagError)
    ensures |args| == 5 && args[3] == "EX" && parse(args[4] + "s").None? ==> r.reply == Err(ExValueError)
    ensures |args| == 5 && args[3] == "PX" && parse(args[4] + "ms").None? ==> r.reply == Err(PxValueError)
    ensures r.reply.Err? ==> r.after == s
    ensures |args| == 3 ==> r == Outcome(Ok("OK"), Store.Set(s, args[1], args[2], None))
    ensures |args| == 5 && args[3] == "EX" && parse(args[4] + "s").Some? ==>
              r == Outcome(Ok("OK"), Store.Set(s, args[1], args[2], Some(now + parse(args[4] + "s").value)))
    ensures |args| == 5 && args[3] == "PX" && parse(args[4] + "ms").Some? ==>
              r == Outcome(Ok("OK"), Store.Set(s, args[1], args[2], Some(now + parse(args[4] + "ms").value)))
  {
    match ParseSet(args, now, parse)
    case Err(m) => Outcome(Err(m), s)
    case Ok(req) => Outcome(Ok("OK"), Store.Set(s, req.key, req.value, req.expiry))
  }

  /** GET key: the value when the key is live, the nil marker otherwise. */
  function GetKey(args: seq<string>, s: State, now: Instant): (r: Outcome)
    ensures |args| < 2 ==> r == Outcome(Err(GetArgsError), s)
    ensures |args| >= 2 && IsLive(s, args[1], now) ==> r.reply == Ok(s.data[args[1]]) && r.after == s
    ensures |args| >= 2 && !IsLive(s, args[1], now) ==> r.reply == Ok(NilReply)
    ensures |args| >= 2 ==> r.after == Store.Get(s, args[1], now).after
  {
    if |args| < 2 then Outcome(Err(GetArgsError), s)
    else
      var l := Store.Get(s, args[1], now);
      Outcome(Ok(if l.found then l.value else NilReply), l.after)
  }

  /** The parts, with sep between each two neighbours. */
  function Join(parts: seq<string>, sep: string): string
  {
    if |parts| == 0 then ""
    else if |parts| == 1 then parts[0]
    else parts[0] + sep + Join(parts[1..], sep)
  }

  /** The pieces of s between occurrences of c: the inverse of joining with c. */
  function Split(s: string, c: char): (r: seq<string>)
    ensures |r| > 0
  {
    if |s| == 0 then [""]
    else
      var rest := Split(s[1..], c);
      if s[0] == c then [""] + rest else [[s[0]] + rest[0]] + rest[1..]
  }

  lemma {:induction false} SplitWithout(a: string, c: char)
    requires c !in a
    ensures Split(a, c) == [a]
  {
    if |a| > 0 {
      SplitWithout(a[1..], c);
      assert [a[0]] + a[1..] == a;
    }
  }

  lemma {:induction false} SplitAtFirst(a: string, b: string, c: char)
    requires c !in a
    ensures Split(a + [c] + b, c) == [a] + Split(b, c)
  {
    var t := a + [c] + b;
    if |a| == 0 {
      assert t[1..] == b;
    } else {
      assert t[1..] == a[1..] + [c] + b;
      SplitAtFirst(a[1..], b, c);
      assert [a[0]] + a[1..] == a;
    }
  }

  /** Joining with a character that no part contains loses nothing. */
  lemma {:induction false} SplitJoin(parts: seq<string>, c: char)
    requires |parts| > 0
    requires forall i :: 0 <= i < |parts| ==> c !in parts[i]
    ensures Split(Join(parts, [c]), c) == parts
  {
    if |parts| == 1 {
      SplitWithout(parts[0], c);
    } else {
      SplitJoin(parts[1..], c);
      SplitAtFirst(parts[0], Join(parts[1..], [c]), c);
      assert [parts[0]] + parts[1..] == parts;
    }
  }

  /**
   * ECHO's reply: the arguments joined by single spaces. Arguments are
   * whitespace-free tokens, so the reply determines them.
   */
  function EchoMessage(args: seq<string>): (r: string)
    ensures |args| == 0 ==> r == ""
    ensures |args| > 0 && (forall i :: 0 <= i < |args| ==> ' ' !in args[i]) ==> Split(r, ' ') == args
  {
    if |args| > 0 && (forall i :: 0 <= i < |args| ==> ' ' !in args[i]) then
      SplitJoin(args, ' ');
      Join(args, " ")
    else Join(args, " ")
  }

  /** The dispatch on the command name. */
  function RunCommand(args: seq<string>, s: State, now: Instant, parse: DurationParser): (r: Outcome)
    requires |args| > 0
    ensures args[0] == "PING" ==> r == Outcome(Ok("PONG"), s)
    ensures args[0] == "ECHO" ==> r == Outcome(Ok(EchoMessage(args[1..])), s)
    ensures args[0] == "SET" ==> r == SetKey(args, s, now, parse)
    ensures args[0] == "GET" ==> r == GetKey(args, s, now)
    ensures args[0] !in ["PING", "ECHO", "SET", "GET"] ==> r == Outcome(Err("unknown command: " + args[0]), s)
    ensures args[0] != "SET" ==> r.after.data.Keys <= s.data.Keys
    ensures |args| > 1 ==> r.after.data.Keys <= s.data.Keys + {args[1]}
    ensures Valid(s) ==> Valid(r.after)
  {
    if args[0] == "PING" then Outcome(Ok("PONG"), s)
    else if args[0] == "ECHO" then Outcome(Ok(EchoMessage(args[1..])), s)
    else if args[0] == "SET" then SetKey(args, s, now, parse)
    else if args[0] == "GET" then GetKey(args, s, now)
    else Outcome(Err("unknown command: " + args[0]), s)
  }

  /** The line a session writes back for one line of tokens, and the store after it. */
  datatype Response = Response(line: string, after: State)

  /** One round of the session loop, without the reading and writing. */
  function HandleLine(args: seq<string>, s: State, now: Instant, parse: DurationParser): (r: Response)
    ensures |args| == 0 ==> r == Response(Usage, s)
    ensures |args| > 0 && RunCommand(args, s, now, parse).reply.Err? ==>
              r.line == RunCommand(args, s, now, parse).reply.error && r.after == s
    ensures |args| > 0 && RunCommand(args, s, now, parse).reply.Ok? ==>
              r.line == RunCommand(args, s, now, parse).reply.value
    ensures |args| > 0 ==> r.after == RunCommand(args, s, now, parse).after
    ensures Valid(s) ==> Valid(r.after)
  {
    if |args| < 1 then Response(Usage, s)
    else
      var o := RunCommand(args, s, now, parse);
      match o.reply
      case Ok(line) => Response(line, o.after)
      case Err(message) => Response(message, o.after)
  }
}
