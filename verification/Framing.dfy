/** The byte level of the demo Open API transport (openapi.py): four length bytes, most
    significant first, then the envelope. */
module Framing {
  import opened Contracts

  type byte = x: int | 0 <= x < 256

  const MAX_FRAME: nat := 15_000_000
  const HEADER_LIMIT: nat := 0x1_0000_0000

  /** `mrmburu-<n>-<random>`, `heartbeat-<n>`, or whatever else a server writes. */
  datatype MsgId = RequestId(n: nat, nonce: nat) | HeartbeatId(n: nat) | OtherId(text: string)

  datatype Envelope = Envelope(kind: nat, payload: seq<byte>, id: MsgId)

  /** Why an operation raises.  Packing the length of an envelope that is too long fails, of
      a request (`TooLong`) as of a heartbeat (`BeatTooLong`). */
  datatype Failure = Closed | BadSize(size: nat) | Malformed | AuthRequired | Rejected | BeatTooLong
                   | Blocked | TooLong | UnexpectedType(kind: nat) | UnknownType

  datatype Result<+T> = Ok(value: T) | Err(failure: Failure)

  /** The message library: type numbers, the read-only request types, and the codec. */
  datatype Protocol = Protocol(
    heartbeat: nat, error: nat, readOnly: set<nat>, beatPayload: seq<byte>,
    parse: seq<byte> -> Option<Envelope>, encode: Envelope -> seq<byte>,
    knows: nat -> bool, decodes: (nat, seq<byte>) -> bool, isAuthError: seq<byte> -> bool)

  /** What is assumed of the codec: it reads back what it writes. */
  ghost predicate IsCodec(p: Protocol) {
    forall e :: p.parse(p.encode(e)) == Some(e)
  }

  function Beat(p: Protocol, n: nat): Envelope {
    Envelope(p.heartbeat, p.beatPayload, HeartbeatId(n))
  }

  /** `struct.pack('!I', n)` and its inverse. */
  function Pack(n: nat): (s: seq<byte>)
    requires n < HEADER_LIMIT
  {
    [n / 0x100_0000, n / 0x1_0000 % 256, n / 256 % 256, n % 256]
  }

  function Unpack(s: seq<byte>): nat
    requires |s| == 4
  {
    (((s[0] as int) * 256 + s[1]) * 256 + s[2]) * 256 + s[3]
  }

  lemma UnpackPack(n: nat)
    requires n < HEADER_LIMIT
    ensures |Pack(n)| == 4 && Unpack(Pack(n)) == n
  {
    assert n / 256 / 256 == n / 0x1_0000 && n / 0x1_0000 / 256 == n / 0x100_0000;
  }

  /** Can the envelope be framed at all? */
  predicate Sendable(p: Protocol, e: Envelope) {
    |p.encode(e)| < HEADER_LIMIT
  }

  function Frame(p: Protocol, e: Envelope): seq<byte>
    requires Sendable(p, e)
  {
    Pack(|p.encode(e)|) + p.encode(e)
  }

  ghost predicate Fits(p: Protocol, es: seq<Envelope>) {
    forall e | e in es :: Sendable(p, e)
  }

  /** The bytes of a list of envelopes, framed one after the other. */
  ghost function Wire(p: Protocol, es: seq<Envelope>): seq<byte>
    requires Fits(p, es)
  {
    if es == [] then [] else Frame(p, es[0]) + Wire(p, es[1..])
  }

  lemma {:induction false} WireAppend(p: Protocol, es: seq<Envelope>, e: Envelope)
    requires Fits(p, es) && Sendable(p, e)
    ensures Fits(p, es + [e]) && Wire(p, es + [e]) == Wire(p, es) + Frame(p, e)
  {
    if es == [] {
      assert (es + [e])[1..] == [];
      assert Wire(p, [e]) == Frame(p, e) + [];
    } else {
      assert (es + [e])[1..] == es[1..] + [e];
      WireAppend(p, es[1..], e);
    }
  }

  // ---- one frame -----------------------------------------------------------

  datatype Read = Body(body: seq<byte>, rest: seq<byte>) | Broken(failure: Failure, rest: seq<byte>)

  /** Reading one frame off a stream.  When the stream ends early everything has been read;
      when the size is not acceptable only the header has. */
  function ReadFrame(input: seq<byte>): Read {
    if |input| < 4 then Broken(Closed, [])
    else
      var size := Unpack(input[..4]);
      if size <= 0 || size > MAX_FRAME then Broken(BadSize(size), input[4..])
      else if |input| < 4 + size then Broken(Closed, [])
      else Body(input[4..4 + size], input[4 + size..])
  }

  /** A frame within the size limit is read back unchanged and nothing after it is touched. */
  lemma FrameIsReadBack(p: Protocol, e: Envelope, tail: seq<byte>)
    requires 0 < |p.encode(e)| <= MAX_FRAME
    ensures ReadFrame(Frame(p, e) + tail) == Body(p.encode(e), tail)
  {
    var body := p.encode(e);
    UnpackPack(|body|);
    var input := Frame(p, e) + tail;
    assert input[..4] == Pack(|body|);
    assert input[4..4 + |body|] == body;
    assert input[4 + |body|..] == tail;
  }

  /** The header is the length in four bytes, most significant first. */
  lemma HeaderIsBigEndian(n: nat)
    requires n < HEADER_LIMIT
    ensures var h := Pack(n);
            |h| == 4 && h[0] as int * 16_777_216 + h[1] as int * 65_536 + h[2] as int * 256 + h[3] as int == n
  {
    UnpackPack(n);
  }

  /** A length of zero or above fifteen million is refused after the header; a stream that ends
      inside a header or a body is closed. */
  lemma OddFramesAreRefused(n: nat, tail: seq<byte>)
    requires n < 4_294_967_296
    ensures n == 0 || n > 15_000_000 ==> ReadFrame(Pack(n) + tail) == Broken(BadSize(n), tail)
    ensures 0 < n <= 15_000_000 && |tail| < n ==> ReadFrame(Pack(n) + tail) == Broken(Closed, [])
    ensures |tail| < 4 ==> ReadFrame(tail) == Broken(Closed, [])
  {
    UnpackPack(n);
    var input := Pack(n) + tail;
    assert input[..4] == Pack(n) && input[4..] == tail;
  }

  // ---- whole streams -------------------------------------------------------

  /** What a stream is made of: envelopes, and frames the reader gives up on. */
  datatype Item = Got(e: Envelope) | Bad(failure: Failure)

  function ItemOf(p: Protocol, body: seq<byte>): Item {
    var parsed := p.parse(body);
    if parsed.None? then Bad(Malformed) else Got(parsed.value)
  }

  /** A stream of any bytes as a sequence of items.  A frame of unacceptable size is given up
      after its header; an unfinished last frame is no item. */
  function Items(p: Protocol, input: seq<byte>): seq<Item>
    decreases |input|
  {
    match ReadFrame(input)
    case Broken(f, rest) => if f == Closed then [] else [Bad(f)] + Items(p, rest)
    case Body(body, rest) => [ItemOf(p, body)] + Items(p, rest)
  }

  /** What is left of a stream after `n` frames have been read. */
  function After(input: seq<byte>, n: nat): seq<byte>
    decreases n
  {
    if n == 0 then input else After(ReadFrame(input).rest, n - 1)
  }

  lemma {:induction false} AfterAfter(input: seq<byte>, n: nat, m: nat)
    ensures After(After(input, n), m) == After(input, n + m)
    decreases n
  {
    if n > 0 {
      AfterAfter(ReadFrame(input).rest, n - 1, m);
    }
  }

  lemma {:induction false} ItemsAfter(p: Protocol, input: seq<byte>, n: nat)
    requires n <= |Items(p, input)|
    ensures Items(p, After(input, n)) == Items(p, input)[n..]
    decreases n
  {
    if n > 0 {
      ItemsAfter(p, ReadFrame(input).rest, n - 1);
    }
  }

  function Gots(es: seq<Envelope>): (r: seq<Item>)
    ensures |r| == |es| && forall i | 0 <= i < |es| :: r[i] == Got(es[i])
  {
    seq(|es|, i requires 0 <= i < |es| => Got(es[i]))
  }

  ghost predicate Legal(p: Protocol, es: seq<Envelope>) {
    forall e | e in es :: 0 < |p.encode(e)| <= MAX_FRAME
  }

  /** A stream of legal frames is read frame by frame, and reading never goes past the frame
      it is at. */
  lemma {:induction false} WireIsReadBack(p: Protocol, es: seq<Envelope>, n: nat)
    requires IsCodec(p) && Legal(p, es) && n <= |es|
    ensures Fits(p, es) && Fits(p, es[n..])
    ensures Items(p, Wire(p, es)) == Gots(es) && After(Wire(p, es), n) == Wire(p, es[n..])
  {
    if es != [] {
      FrameIsReadBack(p, es[0], Wire(p, es[1..]));
      WireIsReadBack(p, es[1..], if n == 0 then 0 else n - 1);
      if n > 0 {
        assert es[1..][n - 1..] == es[n..];
      }
    }
  }

  function ErrorOf(p: Protocol, payload: seq<byte>): Failure {
    if !p.decodes(p.error, payload) then Malformed else if p.isAuthError(payload) then AuthRequired else Rejected
  }
}
