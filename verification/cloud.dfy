/**
 * The vendor cloud session (`_api`), treated as an oracle. Its replies are a
 * script fixed in advance; every call takes the next reply and is recorded in
 * a trace, so that a caller's calls to `login`, `get_device` and `set_device`
 * can be counted and ordered.
 */
module Cloud {
  import opened Wrappers
  import opened Vendor

  /** `data['parameters']` of a `get_device` reply. */
  datatype Parameters = Parameters(
    temperature: real,
    temperatureInside: real,
    temperatureOutside: real,
    power: Member,
    mode: Member,
    fanSpeed: Member,
    airSwingVertical: Member)

  /** The keyword arguments of one `set_device` call; `None` is an argument not passed. */
  datatype Request = Request(
    temperature: Option<real>,
    power: Option<Member>,
    mode: Option<Member>,
    fanSpeed: Option<Member>,
    airSwingVertical: Option<Member>,
    fanAutoMode: Option<Member>)

  /** A request that passes no keyword argument. */
  const EmptyRequest := Request(None, None, None, None, None, None)

  /** The names of the keyword arguments a request passes. */
  function Fields(q: Request): set<string>
  {
    (if q.temperature.Some? then {"temperature"} else {}) +
    (if q.power.Some? then {"power"} else {}) +
    (if q.mode.Some? then {"mode"} else {}) +
    (if q.fanSpeed.Some? then {"fanSpeed"} else {}) +
    (if q.airSwingVertical.Some? then {"airSwingVertical"} else {}) +
    (if q.fanAutoMode.Some? then {"fanAutoMode"} else {})
  }

  /** A call on the session. */
  datatype Call = Login | GetDevice(id: string) | SetDevice(id: string, request: Request)

  /**
   * How the cloud answers one call: it raises, or it returns. What `get_device`
   * returns is `data`, which may be `None`; `login` and `set_device` ignore it.
   */
  datatype Reply = Raised | Returned(data: Option<Parameters>)

  /** The reply to the next call: a session with no reply left raises. */
  function Next(replies: seq<Reply>): Reply
  {
    if replies == [] then Raised else replies[0]
  }

  /** The replies left once the next call has been answered. */
  function Drop(replies: seq<Reply>): seq<Reply>
  {
    if replies == [] then [] else replies[1..]
  }

  class Session {
    /** The replies the cloud will give to the coming calls, in order. */
    var replies: seq<Reply>
    /** The calls made so far, in order. */
    var trace: seq<Call>

    constructor (script: seq<Reply>)
      ensures replies == script && trace == []
    {
      replies := script;
      trace := [];
    }

    /** Makes one call: records it and answers it with the next reply. */
    method Perform(c: Call) returns (reply: Reply)
      modifies this
      ensures reply == Next(old(replies))
      ensures replies == Drop(old(replies))
      ensures trace == old(trace) + [c]
    {
      reply := if replies == [] then Raised else replies[0];
      replies := if replies == [] then [] else replies[1..];
      trace := trace + [c];
    }
  }

}
