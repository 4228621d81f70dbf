/**
  Reading the upstream server's startup replies off a byte stream that arrives in
  arbitrary pieces. The methods grow a buffer read by read; what they return is
  proved to depend only on the bytes, not on where the reads fell.
 */
module UpstreamFrames {
  import opened Bytes

  const I32_MAX: nat := 0x7FFF_FFFF
  const USIZE_MAX: nat := 0xFFFF_FFFF_FFFF_FFFF

  const TAG_AUTHENTICATION: Byte := 82
  const TAG_ERROR: Byte := 69
  const TAG_READY: Byte := 90

  /** What the socket does once all its bytes have been read. */
  datatype Ending = Closed | Broken

  datatype UpstreamError =
    | Io(ending: Ending)
    | InvalidFrameLength(length: int)
    | MessageTooLarge(max: nat, length: int)
    | DecodeFailed
    | UnsupportedAuthentication
    | StartupRejected
    | UnexpectedMessage(tag: Byte)

  datatype Result<+T> = Ok(value: T) | Err(error: UpstreamError)

  datatype Header = Header(tag: Byte, end: nat)

  // ------------------------------------------------------------ reference

  /** The value of big-endian digits. */
  function Unsigned(b: seq<Byte>): nat {
    if b == [] then 0 else Unsigned(b[..|b| - 1]) * 256 + b[|b| - 1]
  }

  function Digits(n: nat, k: nat): (b: seq<Byte>)
    ensures |b| == k
  {
    if k == 0 then [] else Digits(n / 256, k - 1) + [n % 256]
  }

  function Power(k: nat): nat {
    if k == 0 then 1 else Power(k - 1) * 256
  }

  lemma {:induction false} DigitsValue(n: nat, k: nat)
    requires n < Power(k)
    ensures Unsigned(Digits(n, k)) == n
  {
    if k > 0 {
      DigitsValue(n / 256, k - 1);
      assert Digits(n, k)[..k - 1] == Digits(n / 256, k - 1);
    }
  }

  lemma {:induction false} ValueDigits(b: seq<Byte>)
    ensures Digits(Unsigned(b), |b|) == b
  {
    if b != [] {
      ValueDigits(b[..|b| - 1]);
    }
  }

  lemma {:induction false} UnsignedBound(b: seq<Byte>)
    ensures Unsigned(b) < Power(|b|)
  {
    if b != [] {
      UnsignedBound(b[..|b| - 1]);
    }
  }

  lemma PowerFour()
    ensures Power(4) == 0x1_0000_0000
  {
    assert Power(2) == 0x1_0000;
    assert Power(3) == 0x100_0000;
  }

  /** A big-endian signed 32-bit integer. */
  function I32(b: seq<Byte>): int
    requires |b| == 4
  {
    if Unsigned(b) > I32_MAX then Unsigned(b) - 0x1_0000_0000 else Unsigned(b)
  }

  function BigEndian(n: nat): (b: seq<Byte>)
    requires n <= I32_MAX
    ensures |b| == 4
  {
    Digits(n, 4)
  }

  lemma BigEndianValue(n: nat)
    requires n <= I32_MAX
    ensures I32(BigEndian(n)) == n
  {
    PowerFour();
    DigitsValue(n, 4);
  }

  /** Startup ends with ReadyForQuery or with an error. */
  predicate Stops(tag: Byte) {
    tag == TAG_READY || tag == TAG_ERROR
  }

  /** A backend message: a tag and a body, sent with its length. */
  datatype Message = Message(tag: Byte, body: seq<Byte>) {
    predicate Sendable() {
      4 + |body| <= I32_MAX
    }

    /** 'Z' or 'E'. */
    predicate Final() {
      tag == 90 || tag == 69
    }
  }

  function Encode(m: Message): (b: seq<Byte>)
    requires m.Sendable()
    ensures |b| == 5 + |m.body|
  {
    [m.tag] + BigEndian(4 + |m.body|) + m.body
  }

  function EncodeAll(ms: seq<Message>): seq<Byte>
    requires forall i | 0 <= i < |ms| :: ms[i].Sendable()
  {
    if ms == [] then [] else Encode(ms[0]) + EncodeAll(ms[1..])
  }

  /** A startup conversation: its last message is the only final one. */
  predicate Conversation(ms: seq<Message>) {
    && ms != []
    && (forall i | 0 <= i < |ms| :: ms[i].Sendable())
    && (forall i | 0 <= i < |ms| :: ms[i].Final() <==> i == |ms| - 1)
  }

  // -------------------------------------------------- reading whole bytes

  /** The frame at `cursor`, when all the server ever sends is `bytes`. */
  function FrameAt(bytes: seq<Byte>, ending: Ending, cursor: nat, max: nat): (r: Result<Header>)
    ensures r.Ok? ==> cursor + 5 <= r.value.end <= |bytes| && r.value.tag == bytes[cursor]
  {
    if |bytes| < cursor + 5 then Err(Io(ending)) else
      var length := I32(bytes[cursor + 1..cursor + 5]);
      if length < 4 then Err(InvalidFrameLength(length))
      else if length > max then Err(MessageTooLarge(max, length))
      else if cursor + 1 + length > USIZE_MAX then Err(InvalidFrameLength(length))
      else if |bytes| < cursor + 1 + length then Err(Io(ending))
      else Ok(Header(bytes[cursor], cursor + 1 + length))
  }

  /** Where the burst that starts at `cursor` ends. */
  function BurstEnd(bytes: seq<Byte>, ending: Ending, cursor: nat): (r: Result<nat>)
    ensures r.Ok? ==> cursor < r.value <= |bytes|
    decreases |bytes| - cursor
  {
    match FrameAt(bytes, ending, cursor, I32_MAX)
    case Err(e) => Err(e)
    case Ok(h) => if Stops(h.tag) then Ok(h.end) else BurstEnd(bytes, ending, h.end)
  }

  // ----------------------------------- the burst is exactly a conversation

  /** `part` is sent at `cursor`. */
  predicate At(bytes: seq<Byte>, cursor: nat, part: seq<Byte>) {
    cursor + |part| <= |bytes| && bytes[cursor..cursor + |part|] == part
  }

  lemma SliceOfSlice(bytes: seq<Byte>, cursor: nat, n: nat)
    requires 5 <= n && cursor + n <= |bytes|
    ensures var part := bytes[cursor..cursor + n]; part[0] == bytes[cursor] && part[1..5] == bytes[cursor + 1..cursor + 5]
  {
    var part := bytes[cursor..cursor + n];
    assert forall i | 0 <= i < 4 :: part[1..5][i] == bytes[cursor + 1..cursor + 5][i];
  }

  lemma FrameOfMessage(bytes: seq<Byte>, cursor: nat, m: Message, ending: Ending, max: nat)
    requires m.Sendable() && At(bytes, cursor, Encode(m)) && cursor + |Encode(m)| <= USIZE_MAX && 4 + |m.body| <= max
    ensures FrameAt(bytes, ending, cursor, max) == Ok(Header(m.tag, cursor + |Encode(m)|))
  {
    assert Encode(m)[0] == m.tag && Encode(m)[1..5] == BigEndian(4 + |m.body|);
    SliceOfSlice(bytes, cursor, |Encode(m)|);
    BigEndianValue(4 + |m.body|);
  }

  lemma AtParts(bytes: seq<Byte>, cursor: nat, p: seq<Byte>, q: seq<Byte>)
    requires At(bytes, cursor, p + q)
    ensures At(bytes, cursor, p) && At(bytes, cursor + |p|, q)
  {
    var both := bytes[cursor..cursor + |p + q|];
    assert both[..|p|] == p && both[|p|..] == q;
  }

  lemma ConversationTail(ms: seq<Message>)
    requires Conversation(ms)
    ensures ms[0].Final() <==> ms[1..] == []
    ensures ms[1..] != [] ==> Conversation(ms[1..])
    ensures EncodeAll(ms) == Encode(ms[0]) + EncodeAll(ms[1..])
  {
    var rest := ms[1..];
    forall i | 0 <= i < |rest| ensures rest[i].Sendable() && (rest[i].Final() <==> i == |rest| - 1) {
      assert rest[i] == ms[i + 1];
    }
  }

  lemma BurstStep(bytes: seq<Byte>, cursor: nat, m: Message, end: nat, ending: Ending)
    requires m.Sendable() && At(bytes, cursor, Encode(m)) && end == cursor + |Encode(m)| <= USIZE_MAX
    ensures BurstEnd(bytes, ending, cursor) == if m.Final() then Ok(end) else BurstEnd(bytes, ending, end)
  {
    FrameOfMessage(bytes, cursor, m, ending, I32_MAX);
  }

  /** The messages are sent one after the other from `cursor` on, up to `end`. */
  predicate Sent(bytes: seq<Byte>, cursor: nat, ms: seq<Message>, end: nat)
    decreases |ms|
  {
    if ms == [] then cursor == end else
      && ms[0].Sendable() && At(bytes, cursor, Encode(ms[0]))
      && Sent(bytes, cursor + |Encode(ms[0])|, ms[1..], end)
  }

  lemma {:induction false} SentOneByOne(bytes: seq<Byte>, cursor: nat, ms: seq<Message>)
    requires (forall i | 0 <= i < |ms| :: ms[i].Sendable()) && At(bytes, cursor, EncodeAll(ms))
    ensures Sent(bytes, cursor, ms, cursor + |EncodeAll(ms)|)
    decreases |ms|
  {
    if ms != [] {
      AtParts(bytes, cursor, Encode(ms[0]), EncodeAll(ms[1..]));
      SentOneByOne(bytes, cursor + |Encode(ms[0])|, ms[1..]);
    }
  }

  lemma {:induction false} SentEnds(bytes: seq<Byte>, cursor: nat, ms: seq<Message>, end: nat)
    requires Sent(bytes, cursor, ms, end)
    ensures cursor <= end
    decreases |ms|
  {
    if ms != [] {
      SentEnds(bytes, cursor + |Encode(ms[0])|, ms[1..], end);
    }
  }

  lemma {:induction false} BurstOfSent(bytes: seq<Byte>, cursor: nat, ms: seq<Message>, end: nat, ending: Ending)
    requires Conversation(ms) && Sent(bytes, cursor, ms, end) && end <= USIZE_MAX
    ensures BurstEnd(bytes, ending, cursor) == Ok(end)
    decreases |ms|
  {
    ConversationTail(ms);
    var next := cursor + |Encode(ms[0])|;
    SentEnds(bytes, next, ms[1..], end);
    BurstStep(bytes, cursor, ms[0], next, ending);
    if ms[1..] != [] {
      BurstOfSent(bytes, next, ms[1..], end, ending);
    }
  }

  /** Every conversation is read back whole, wherever it starts and whatever follows. */
  lemma BurstComplete(bytes: seq<Byte>, cursor: nat, ms: seq<Message>, ending: Ending)
    requires Conversation(ms) && At(bytes, cursor, EncodeAll(ms)) && cursor + |EncodeAll(ms)| <= USIZE_MAX
    ensures BurstEnd(bytes, ending, cursor) == Ok(cursor + |EncodeAll(ms)|)
  {
    SentOneByOne(bytes, cursor, ms);
    BurstOfSent(bytes, cursor, ms, cursor + |EncodeAll(ms)|, ending);
  }

  /** A frame that was read is the encoding of a message. */
  lemma MessageOfFrame(bytes: seq<Byte>, ending: Ending, cursor: nat, max: nat) returns (m: Message)
    requires FrameAt(bytes, ending, cursor, max).Ok?
    ensures m.Sendable() && m.tag == bytes[cursor]
    ensures bytes[cursor..FrameAt(bytes, ending, cursor, max).value.end] == Encode(m)
  {
    var end := FrameAt(bytes, ending, cursor, max).value.end;
    m := Message(bytes[cursor], bytes[cursor + 5..end]);
    PowerFour();
    UnsignedBound(bytes[cursor + 1..cursor + 5]);
    ValueDigits(bytes[cursor + 1..cursor + 5]);
    assert bytes[cursor..end] == [bytes[cursor]] + bytes[cursor + 1..cursor + 5] + bytes[cursor + 5..end];
  }

  /** Whatever is returned as a burst is the encoding of a conversation. */
  lemma {:induction false} BurstSound(bytes: seq<Byte>, ending: Ending, cursor: nat) returns (ms: seq<Message>)
    requires BurstEnd(bytes, ending, cursor).Ok?
    ensures Conversation(ms) && bytes[cursor..BurstEnd(bytes, ending, cursor).value] == EncodeAll(ms)
    decreases |bytes| - cursor
  {
    var h := FrameAt(bytes, ending, cursor, I32_MAX).value;
    var m := MessageOfFrame(bytes, ending, cursor, I32_MAX);
    var rest: seq<Message> := [];
    if !Stops(h.tag) {
      rest := BurstSound(bytes, ending, h.end);
    }
    ConversationCons(m, rest);
    var end := BurstEnd(bytes, ending, cursor).value;
    assert bytes[cursor..end] == bytes[cursor..h.end] + bytes[h.end..end];
    ms := [m] + rest;
  }

  lemma ConversationCons(m: Message, rest: seq<Message>)
    requires m.Sendable() && if m.Final() then rest == [] else Conversation(rest)
    ensures Conversation([m] + rest) && EncodeAll([m] + rest) == Encode(m) + EncodeAll(rest)
  {
    var ms := [m] + rest;
    assert ms[1..] == rest;
    forall i | 0 <= i < |ms| ensures ms[i].Sendable() && (ms[i].Final() <==> i == |ms| - 1) {
      if i > 0 { assert ms[i] == rest[i - 1]; }
    }
  }

  /** The burst is the one run of whole messages from the start of the bytes that
      ends with its first final message. */
  lemma BurstExactly(bytes: seq<Byte>, ending: Ending, end: nat)
    requires end <= |bytes| <= USIZE_MAX
    ensures BurstEnd(bytes, ending, 0) == Ok(end) <==> exists ms :: Conversation(ms) && bytes[..end] == EncodeAll(ms)
  {
    if BurstEnd(bytes, ending, 0) == Ok(end) {
      var ms := BurstSound(bytes, ending, 0);
      assert bytes[..end] == bytes[0..end] == EncodeAll(ms);
    }
    if ms :| Conversation(ms) && bytes[..end] == EncodeAll(ms) {
      assert bytes[0..0 + |EncodeAll(ms)|] == bytes[..end];
      BurstComplete(bytes, 0, ms, ending);
    }
  }

  // ------------------------------------------------------- authentication

  datatype Decoded = AuthenticationOk | OtherAuthentication | Incomplete | Malformed

  /** The frame decoder assumes that the code, and the salt of an MD5 request, are there. */
  predicate Decodable(frame: seq<Byte>) {
    |frame| >= 9 && (I32(frame[5..9]) == 5 ==> |frame| >= 13)
  }

  /** The end of the authentication frame, when the server trusts us. */
  function Authenticated(bytes: seq<Byte>, ending: Ending, max: nat, decode: seq<Byte> -> Decoded): (r: Result<nat>)
    ensures r.Ok? ==> 9 <= r.value <= |bytes| && Decodable(bytes[..r.value]) && decode(bytes[..r.value]).AuthenticationOk?
  {
    match FrameAt(bytes, ending, 0, max)
    case Err(e) => Err(e)
    case Ok(h) =>
      var length := h.end - 1;
      if h.tag == TAG_AUTHENTICATION then
        if length < 8 || (I32(bytes[5..9]) == 5 && length < 12) then Err(InvalidFrameLength(length))
        else
          assert bytes[..h.end][5..9] == bytes[5..9];
          match decode(bytes[..h.end])
          case AuthenticationOk => Ok(h.end)
          case OtherAuthentication => Err(UnsupportedAuthentication)
          case Incomplete => Err(InvalidFrameLength(length))
          case Malformed => Err(DecodeFailed)
      else if h.tag == TAG_ERROR then Err(StartupRejected)
      else Err(UnexpectedMessage(h.tag))
  }

  // ---------------------------------------------------------- the session

  function Flatten(chunks: seq<seq<Byte>>): seq<Byte> {
    if chunks == [] then [] else chunks[0] + Flatten(chunks[1..])
  }

  class Upstream {
    /** What each coming read will yield, and how the stream ends. */
    var chunks: seq<seq<Byte>>
    const ending: Ending
    var buf: seq<Byte>

    /** Every read but the last yields something. */
    ghost predicate Valid()
      reads this
    {
      forall i | 0 <= i < |chunks| :: chunks[i] != []
    }

    /** The bytes not consumed yet: buffered, then unread. */
    ghost function Stream(): seq<Byte>
      reads this
    {
      buf + Flatten(chunks)
    }

    constructor (chunks: seq<seq<Byte>>, ending: Ending)
      requires forall i | 0 <= i < |chunks| :: chunks[i] != []
      ensures Valid() && Stream() == Flatten(chunks) && this.ending == ending && buf == []
    {
      this.chunks, this.ending, this.buf := chunks, ending, [];
    }

    /** Read until the buffer holds `length` bytes; no byte is lost or reordered. */
    method ReadUntil(length: nat) returns (r: Result<()>)
      requires Valid()
      modifies this
      ensures Valid() && Stream() == old(Stream()) && old(buf) <= buf
      ensures r == if |Stream()| < length then Err(Io(ending)) else Ok(())
      ensures r.Ok? ==> length <= |buf|
    {
      while |buf| < length
        invariant Valid() && Stream() == old(Stream()) && old(buf) <= buf
        decreases |chunks|
      {
        if chunks == [] {
          return Err(Io(ending));
        }
        assert buf + Flatten(chunks) == (buf + chunks[0]) + Flatten(chunks[1..]);
        buf, chunks := buf + chunks[0], chunks[1..];
      }
      r := Ok(());
    }

    method ReadFrame(cursor: nat, max: nat) returns (r: Result<Header>)
      requires Valid()
      modifies this
      ensures Valid() && Stream() == old(Stream()) && old(buf) <= buf
      ensures r == FrameAt(Stream(), ending, cursor, max)
      ensures r.Ok? ==> r.value.end <= |buf|
    {
      var header := ReadUntil(cursor + 5);
      if header.Err? {
        return Err(header.error);
      }
      assert Stream()[cursor + 1..cursor + 5] == buf[cursor + 1..cursor + 5];
      var length := I32(buf[cursor + 1..cursor + 5]);
      if length < 4 {
        return Err(InvalidFrameLength(length));
      }
      if length > max {
        return Err(MessageTooLarge(max, length));
      }
      if cursor + 1 + length > USIZE_MAX {
        return Err(InvalidFrameLength(length));
      }
      var body := ReadUntil(cursor + 1 + length);
      if body.Err? {
        return Err(body.error);
      }
      r := Ok(Header(buf[cursor], cursor + 1 + length));
    }

    /** Read and check the first frame, and split it off the buffer. */
    method Authenticate(max: nat, decode: seq<Byte> -> Decoded) returns (r: Result<()>)
      requires Valid() && buf == []
      modifies this
      ensures Valid()
      ensures var end := Authenticated(old(Stream()), ending, max, decode);
              if end.Err? then r == Err(end.error) else r == Ok(()) && Stream() == old(Stream())[end.value..]
    {
      ghost var bytes := Stream();
      var header := ReadFrame(0, max);
      if header.Err? {
        return Err(header.error);
      }
      var h := header.value;
      if h.tag == TAG_AUTHENTICATION {
        var length := h.end - 1;
        if length < 8 {
          return Err(InvalidFrameLength(length));
        }
        assert bytes[5..9] == buf[5..9];
        var code := I32(buf[5..9]);
        if code == 5 && length < 12 {
          return Err(InvalidFrameLength(length));
        }
        var frame := buf[..h.end];
        buf := buf[h.end..];
        assert frame == bytes[..h.end] && Stream() == bytes[h.end..];
        assert Decodable(frame) by { assert frame[5..9] == bytes[5..9]; }
        match decode(frame)
        case AuthenticationOk => return Ok(());
        case OtherAuthentication => return Err(UnsupportedAuthentication);
        case Incomplete => return Err(InvalidFrameLength(length));
        case Malformed => return Err(DecodeFailed);
      }
      if h.tag == TAG_ERROR {
        return Err(StartupRejected);
      }
      r := Err(UnexpectedMessage(h.tag));
    }

    /** Collect whole frames up to the first final one and split them off. */
    method WaitForReady() returns (r: Result<seq<Byte>>)
      requires Valid()
      modifies this
      ensures Valid()
      ensures var end := BurstEnd(old(Stream()), ending, 0);
              if end.Err? then r == Err(end.error) && Stream() == old(Stream())
              else r == Ok(old(Stream())[..end.value]) && Stream() == old(Stream())[end.value..]
    {
      ghost var bytes := Stream();
      var cursor := 0;
      while true
        invariant Valid() && Stream() == bytes && cursor <= |bytes|
        invariant BurstEnd(bytes, ending, cursor) == BurstEnd(bytes, ending, 0)
        decreases |bytes| - cursor
      {
        var header := ReadFrame(cursor, I32_MAX);
        if header.Err? {
          return Err(header.error);
        }
        cursor := header.value.end;
        if Stops(header.value.tag) {
          r := Ok(buf[..cursor]);
          buf := buf[cursor..];
          assert r.value == bytes[..cursor] && Stream() == bytes[cursor..];
          return;
        }
      }
    }

    /** Authentication, then the burst: together with what is left they are the bytes
        the server sent, in order. */
    method Connect(max: nat, decode: seq<Byte> -> Decoded) returns (r: Result<seq<Byte>>)
      requires Valid() && buf == []
      modifies this
      ensures Valid()
      ensures r == Connected(old(Stream()), ending, max, decode)
      ensures r.Ok? ==> exists auth :: old(Stream()) == auth + r.value + Stream()
                                       && Authenticated(old(Stream()), ending, max, decode) == Ok(|auth|)
    {
      ghost var bytes := Stream();
      var authentication := Authenticate(max, decode);
      if authentication.Err? {
        return Err(authentication.error);
      }
      ghost var end := Authenticated(bytes, ending, max, decode).value;
      ghost var rest := Stream();
      r := WaitForReady();
      if r.Ok? {
        assert rest == r.value + Stream();
        ThreeParts(bytes, end, r.value, Stream());
      }
    }
  }

  lemma ThreeParts(bytes: seq<Byte>, end: nat, burst: seq<Byte>, left: seq<Byte>)
    requires end <= |bytes| && bytes[end..] == burst + left
    ensures bytes == bytes[..end] + burst + left && |bytes[..end]| == end
  {
    assert bytes == bytes[..end] + bytes[end..];
  }

  /** What connecting yields, as a function of the bytes alone. */
  function Connected(bytes: seq<Byte>, ending: Ending, max: nat, decode: seq<Byte> -> Decoded): Result<seq<Byte>> {
    match Authenticated(bytes, ending, max, decode)
    case Err(e) => Err(e)
    case Ok(auth) =>
      match BurstEnd(bytes[auth..], ending, 0)
      case Err(e) => Err(e)
      case Ok(end) => Ok(bytes[auth..][..end])
  }

  /** A trusting server's startup is read back exactly, for every way of sending it. */
  lemma ConnectComplete(auth: Message, ms: seq<Message>, after: seq<Byte>, ending: Ending, max: nat,
                        decode: seq<Byte> -> Decoded)
    requires auth.Sendable() && auth.tag == 82 && 4 + |auth.body| <= max
    requires Decodable(Encode(auth)) && decode(Encode(auth)).AuthenticationOk?
    requires Conversation(ms) && |EncodeAll(ms)| <= USIZE_MAX
    ensures Connected(Encode(auth) + EncodeAll(ms) + after, ending, max, decode) == Ok(EncodeAll(ms))
  {
    var bytes, e, rest := Encode(auth) + EncodeAll(ms) + after, |Encode(auth)|, EncodeAll(ms) + after;
    AuthenticatedBy(auth, rest, ending, max, decode);
    assert bytes == Encode(auth) + rest;
    assert bytes[e..] == rest;
    assert rest[..|EncodeAll(ms)|] == rest[0..|EncodeAll(ms)|] == EncodeAll(ms);
    BurstComplete(rest, 0, ms, ending);
  }

  lemma AuthenticatedBy(auth: Message, rest: seq<Byte>, ending: Ending, max: nat, decode: seq<Byte> -> Decoded)
    requires auth.Sendable() && auth.tag == 82 && 4 + |auth.body| <= max
    requires Decodable(Encode(auth)) && decode(Encode(auth)).AuthenticationOk?
    ensures Authenticated(Encode(auth) + rest, ending, max, decode) == Ok(|Encode(auth)|)
  {
    var frame, bytes := Encode(auth), Encode(auth) + rest;
    assert bytes[0..|frame|] == frame && bytes[..|frame|] == frame;
    FrameOfMessage(bytes, 0, auth, ending, max);
    assert bytes[5..9] == frame[5..9];
  }

  // ------------------------------------------------------------- refusals

  /** How the first message of the server is answered, whatever it is: only a trusting
      authentication request ('R', code 82) is accepted, an error ('E', code 69) and
      any other message are refused as such, and a request too short for its code or
      its salt is refused by its length. */
  lemma FirstMessageAnswered(m: Message, rest: seq<Byte>, ending: Ending, max: nat, decode: seq<Byte> -> Decoded)
    requires m.Sendable() && 4 + |m.body| <= max
    ensures Authenticated(Encode(m) + rest, ending, max, decode) ==
            if m.tag == 69 then Err(StartupRejected)
            else if m.tag != 82 then Err(UnexpectedMessage(m.tag))
            else if |m.body| < 4 || (|m.body| < 8 && I32(m.body[..4]) == 5) then Err(InvalidFrameLength(4 + |m.body|))
            else match decode(Encode(m))
                 case AuthenticationOk => Ok(5 + |m.body|)
                 case OtherAuthentication => Err(UnsupportedAuthentication)
                 case Incomplete => Err(InvalidFrameLength(4 + |m.body|))
                 case Malformed => Err(DecodeFailed)
  {
    var frame, bytes := Encode(m), Encode(m) + rest;
    assert bytes[0..|frame|] == frame && bytes[..|frame|] == frame;
    FrameOfMessage(bytes, 0, m, ending, max);
    if |m.body| >= 4 {
      assert frame[5..] == m.body;
      assert bytes[5..9] == m.body[..4];
    }
  }

  /** A message that breaks off, anywhere before its last byte, ends the startup with
      the way the stream ended, if its length could be accepted at all. */
  lemma BrokenOff(m: Message, k: nat, ending: Ending, max: nat)
    requires m.Sendable() && k < |Encode(m)|
    ensures FrameAt(Encode(m)[..k], ending, 0, max)
         == if 5 <= k && 4 + |m.body| > max then Err(MessageTooLarge(max, 4 + |m.body|)) else Err(Io(ending))
  {
    if 5 <= k {
      assert Encode(m)[..k][1..5] == BigEndian(4 + |m.body|);
      BigEndianValue(4 + |m.body|);
    }
  }

  /** A length that does not even cover itself is refused, also when its sign is set. */
  lemma LengthRefused(tag: Byte, n: nat, rest: seq<Byte>, ending: Ending, max: nat)
    requires n < 4 || 0x8000_0000 <= n <= 0xFFFF_FFFF
    ensures FrameAt([tag] + Digits(n, 4) + rest, ending, 0, max)
         == Err(InvalidFrameLength(if n < 4 then n else n - 0x1_0000_0000))
  {
    PowerFour();
    DigitsValue(n, 4);
    assert ([tag] + Digits(n, 4) + rest)[1..5] == Digits(n, 4);
  }
}
