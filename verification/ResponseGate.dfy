/** The patched response object of one request: `json` and `send` capture what they are given before the framework's
    own `json` and `send`, which call each other, put it on the wire. */
module ResponseGate {
  import opened Options

  /** What a handler passes to `json` or `send`: a string, or any other JSON value. */
  datatype Body = Text(text: string) | Data(value: string)

  /** JSON as a printer and a parser with a round trip. */
  datatype Codec = Codec(stringify: Body -> string, parse: string -> Option<Body>)

  ghost predicate RoundTrips(c: Codec) {
    forall b {:trigger c.stringify(b)} :: c.parse(c.stringify(b)) == Some(b)
  }

  datatype Capture = Capture(status: int, body: Body)

  /** What `send` captures: a string is parsed when it is JSON and kept as it is when it is not. */
  function Parsed(c: Codec, b: Body): Body {
    match b
    case Text(t) => c.parse(t).GetOr(b)
    case Data(_) => b
  }

  class Response {
    const codec: Codec
    var statusCode: int
    var captured: bool
    var closed: bool
    var ended: bool
    /** What the client was sent. */
    var wire: seq<string>
    /** The captures acted on, and whether the close handler gave the slot up. */
    var log: seq<Capture>
    var released: bool

    constructor (codec: Codec)
      ensures this.codec == codec && statusCode == 200
      ensures !captured && !closed && !ended && !released && wire == [] && log == []
    {
      this.codec := codec;
      statusCode, captured, closed, ended, released := 200, false, false, false, false;
      wire, log := [], [];
    }

    /** The response's own status, or 200 when that is zero. */
    method CaptureResponse(b: Body)
      modifies `captured, `log
      ensures captured
      ensures old(captured) ==> log == old(log)
      ensures !old(captured) && statusCode != 0 ==> log == old(log) + [Capture(statusCode, b)]
      ensures !old(captured) && statusCode == 0 ==> log == old(log) + [Capture(200, b)]
    {
      if captured { return; }
      captured := true;
      log := log + [Capture(if statusCode == 0 then 200 else statusCode, b)];
    }

    /** The framework's `send`: a string goes out as it is, any other value through `json`. */
    method OriginalSend(b: Body)
      requires captured
      modifies `captured, `log, `wire, `ended
      ensures captured && log == old(log) && ended
      ensures wire == old(wire) + [if b.Text? then b.text else codec.stringify(b)]
      decreases if b.Text? then 0 else 4
    {
      match b {
        case Text(t) =>
          wire := wire + [t];
          ended := true;
        case Data(_) =>
          Json(b);
      }
    }

    /** The framework's `json`: print the value and `send` the text. */
    method OriginalJson(b: Body)
      requires captured
      modifies `captured, `log, `wire, `ended
      ensures captured && log == old(log) && ended && wire == old(wire) + [codec.stringify(b)]
      decreases 2
    {
      Send(Text(codec.stringify(b)));
    }

    /** One `json` call captures at most one response although it calls `send` in turn. */
    method Json(b: Body)
      modifies `captured, `log, `wire, `ended
      ensures captured
      ensures old(captured) ==> log == old(log)
      ensures !old(captured) && statusCode != 0 ==> log == old(log) + [Capture(statusCode, b)]
      ensures !old(captured) && statusCode == 0 ==> log == old(log) + [Capture(200, b)]
      ensures ended && wire == old(wire) + [codec.stringify(b)]
      decreases 3
    {
      CaptureResponse(b);
      OriginalJson(b);
    }

    /** One `send` call captures at most one response although it may call `json` in turn. */
    method Send(b: Body)
      modifies `captured, `log, `wire, `ended
      ensures captured
      ensures old(captured) ==> log == old(log)
      ensures !old(captured) && statusCode != 0 ==> log == old(log) + [Capture(statusCode, Parsed(codec, b))]
      ensures !old(captured) && statusCode == 0 ==> log == old(log) + [Capture(200, Parsed(codec, b))]
      ensures ended && wire == old(wire) + [if b.Text? then b.text else codec.stringify(b)]
      decreases if b.Text? then 1 else 5
    {
      if !captured {
        var parsed := b;
        if b.Text? {
          var v := codec.parse(b.text);
          if v.Some? { parsed := v.value; }
        }
        CaptureResponse(parsed);
      }
      OriginalSend(b);
    }

    /** `end` without `json` or `send`. */
    method End()
      modifies `ended
      ensures ended
    {
      ended := true;
    }

    /** The close listener. */
    method Close()
      modifies `closed, `released
      ensures closed && (released <==> old(released) || (!captured && !ended))
    {
      closed := true;
      if !captured && !ended { released := true; }
    }
  }

  // ----- replays on the wire -------------------------------------------------

  /** What `json(existing.responseBody)` puts on the wire. */
  function ReplayText(c: Codec, captured: Body): string { c.stringify(captured) }

  function SentText(c: Codec, b: Body): string { if b.Text? then b.text else c.stringify(b) }

  /** The replay of a `json` answer is the same text; the replay of a `send` answer is the same text if and only if it
      was a JSON value or a string that is exactly how some value prints. */
  lemma ReplayIsVerbatimExactlyWhen(c: Codec, b: Body)
    requires RoundTrips(c)
    ensures ReplayText(c, Parsed(c, b)) == SentText(c, b) <==> b.Data? || exists v :: b.text == c.stringify(v)
  {
  }

  /** A plain string is answered with its quoted form when it is replayed. */
  lemma PlainTextIsReplayedQuoted(c: Codec, t: string)
    requires RoundTrips(c) && c.parse(t).None?
    ensures ReplayText(c, Parsed(c, Text(t))) == c.stringify(Text(t)) != t
  {
  }
}
