/**
 LocIpc's framing of messages as datagrams, and what its reader makes of them. A char
 stands for a byte. The reader uses one buffer over and over: what a datagram does not
 overwrite is left from the message before it.
 */
module LocIpcFraming {
  import opened Options

  const BUF_LEN: nat := 8192
  const HEAD := "$MSGLEN$"
  const ABORT := "LocIpcMsg::ABORT"
  const UINT32_LIMIT: nat := 0x1_0000_0000

  /** What sendData can be given: its length parameter is a uint32_t. */
  type Message = s: string | |s| < UINT32_LIMIT

  /** send of a std::string passes its length as a uint32_t. */
  function Narrow(data: string): (m: Message)
    ensures m == data <==> |data| < UINT32_LIMIT
    ensures m <= data && |m| == |data| % UINT32_LIMIT
  {
    data[..|data| % UINT32_LIMIT]
  }

  // ---------- The writer ----------

  function Digit(d: nat): char
    requires d < 10
  {
    '0' + d as char
  }

  function Decimal(n: nat): string {
    if n < 10 then [Digit(n)] else Decimal(n / 10) + [Digit(n % 10)]
  }

  function Chunks(data: string): (chunks: seq<string>)
    ensures forall i :: 0 <= i < |chunks| ==> 0 < |chunks[i]| <= BUF_LEN
    ensures forall i :: 0 <= i < |chunks| - 1 ==> |chunks[i]| == BUF_LEN
  {
    if data == "" then []
    else if |data| <= BUF_LEN then [data]
    else [data[..BUF_LEN]] + Chunks(data[BUF_LEN..])
  }

  function Frames(data: string): seq<string> {
    if |data| <= BUF_LEN then [data] else [HEAD + Decimal(|data|)] + Chunks(data)
  }

  function Joined(parts: seq<string>): string {
    if parts == [] then "" else parts[0] + Joined(parts[1..])
  }

  /** Nothing is lost or repeated by cutting a message up. */
  lemma {:induction false} ChunksJoin(data: string)
    ensures Joined(Chunks(data)) == data
  {
    if |data| > BUF_LEN {
      ChunksJoin(data[BUF_LEN..]);
    } else if data != "" {
      assert Chunks(data)[1..] == [];
    }
  }

  // ---------- The reader ----------

  function Zeros(n: nat): string {
    seq(n, _ => '\0')
  }

  /** std::string::resize. */
  function Resize(s: string, n: nat): (r: string)
    ensures |r| == n
  {
    if n <= |s| then s[..n] else s + Zeros(n - |s|)
  }

  function Min(a: nat, b: nat): nat { if a < b then a else b }

  /** A recvfrom into the buffer from position at; a datagram that is too long is cut off. */
  function Received(buf: string, at: nat, datagram: string): (r: string)
    requires at <= |buf|
    ensures |r| == |buf|
  {
    var n := Min(|datagram|, |buf| - at);
    buf[..at] + datagram[..n] + buf[at + n..]
  }

  predicate IsDigit(c: char) { '0' <= c <= '9' }

  /** The number sscanf finds at the start of s, after the digits that make up found. */
  function Scan(s: string, found: nat): (n: nat)
    ensures n >= found
    ensures s != "" && IsDigit(s[0]) ==> n >= 10 * found
  {
    if s == "" || !IsDigit(s[0]) then found
    else Scan(s[1..], 10 * found + (s[0] as nat - '0' as nat))
  }

  /** The rest of a long message; None when a datagram is empty or there is none. */
  function Collect(msg: string, got: nat, datagrams: seq<string>): (r: Option<(string, seq<string>)>)
    requires got <= |msg|
    ensures r.Some? ==> |r.value.0| == |msg| && |r.value.1| <= |datagrams|
    decreases |datagrams|
  {
    if got == |msg| then Some((msg, datagrams))
    else if datagrams == [] || datagrams[0] == "" then None
    else Collect(Received(msg, got, datagrams[0]), got + Min(|datagrams[0]|, |msg| - got), datagrams[1..])
  }

  /** The messages handed to onReceive before the reader stops. */
  function Listen(buf: string, datagrams: seq<string>): seq<string>
    decreases |datagrams|
  {
    if datagrams == [] then []
    else
      var msg := Received(Resize(buf, BUF_LEN), 0, datagrams[0]);
      if datagrams[0] == "" then Listen(msg, datagrams[1..])
      else if ABORT <= msg then []
      else if !(HEAD <= msg) then
        var m := Resize(msg, Min(|datagrams[0]|, BUF_LEN));
        [m] + Listen(m, datagrams[1..])
      else
        match Collect(Resize(msg, Scan(msg[|HEAD|..], 0)), 0, datagrams[1..])
        case None => []
        case Some((m, rest)) => [m] + Listen(m, rest)
  }

  // ---------- The length header ----------

  /** to_string then sscanf: the digits read give the number, and scanning goes on behind them. */
  lemma {:induction false} ScanOverDecimal(n: nat, t: string)
    ensures Scan(Decimal(n) + t, 0) == Scan(t, n)
  {
    var d := [Digit(n % 10)];
    if n < 10 {
      assert (d + t)[1..] == t;
    } else {
      assert Decimal(n) + t == Decimal(n / 10) + (d + t);
      ScanOverDecimal(n / 10, d + t);
      assert (d + t)[1..] == t;
    }
  }

  function Pow10(k: nat): nat { if k == 0 then 1 else 10 * Pow10(k - 1) }

  lemma {:induction false} DecimalIsShort(n: nat, k: nat)
    requires k > 0 && n < Pow10(k)
    ensures 0 < |Decimal(n)| <= k
  {
    if n >= 10 {
      DecimalIsShort(n / 10, k - 1);
    }
  }

  /** The header of any message fits the buffer, and is read back as the message's length unless a digit follows. */
  lemma HeaderIs(m: Message, t: string)
    ensures |HEAD + Decimal(|m|)| <= 18
    ensures t == "" || !IsDigit(t[0]) ==> Scan(Decimal(|m|) + t, 0) == |m|
    ensures t != "" && IsDigit(t[0]) && m != "" ==> Scan(Decimal(|m|) + t, 0) > |m|
  {
    assert Pow10(10) == 10_000_000_000;
    DecimalIsShort(|m|, 10);
    ScanOverDecimal(|m|, t);
  }

  // ---------- The chunks ----------

  lemma {:induction false} CollectsChunks(msg: string, got: nat, tail: string, rest: seq<string>)
    requires |msg| == got + |tail|
    ensures Collect(msg, got, Chunks(tail) + rest) == Some((msg[..got] + tail, rest))
    decreases |tail|
  {
    if tail == "" {
      assert Chunks(tail) + rest == rest;
      assert msg[..got] + tail == msg;
    } else {
      var chunk := if |tail| <= BUF_LEN then tail else tail[..BUF_LEN];
      var left := tail[|chunk|..];
      assert Chunks(tail) + rest == [chunk] + (Chunks(left) + rest);
      assert (Chunks(tail) + rest)[1..] == Chunks(left) + rest;
      var msg' := Received(msg, got, chunk);
      assert chunk[..|chunk|] == chunk;
      CollectsChunks(msg', got + |chunk|, left, rest);
      assert msg'[..got + |chunk|] + left == msg[..got] + tail;
    }
  }

  /** A message that is thought to be longer than it is never gets complete. */
  lemma {:induction false} CollectFallsShort(msg: string, got: nat, tail: string)
    requires |msg| > got + |tail|
    ensures Collect(msg, got, Chunks(tail)) == None
    decreases |tail|
  {
    if tail != "" {
      var chunk := if |tail| <= BUF_LEN then tail else tail[..BUF_LEN];
      assert Chunks(tail)[1..] == Chunks(tail[|chunk|..]);
      CollectFallsShort(Received(msg, got, chunk), got + |chunk|, tail[|chunk|..]);
    }
  }

  // ---------- One message after another ----------

  /** The buffer after the first datagram of m, when the message before it was p. */
  function Overlaid(p: string, m: string): string {
    Received(Resize(p, BUF_LEN), 0, Frames(m)[0])
  }

  /**
   What has to be so for m to arrive when the message before it was p: no digit left from
   p right behind the header; or no marker in front, even one completed by what is left of p.
   */
  predicate Clear(p: string, m: string) {
    if |m| > BUF_LEN then
      var h := |HEAD + Decimal(|m|)|;
      h < BUF_LEN && !IsDigit(Resize(p, BUF_LEN)[h])
    else
      m != "" && !(ABORT <= Overlaid(p, m)) && !(HEAD <= Overlaid(p, m))
  }

  lemma LongStep(p: string, m: Message, rest: seq<string>)
    requires |m| > BUF_LEN
    ensures |HEAD| <= |Overlaid(p, m)|
    ensures Listen(p, Frames(m) + rest) ==
            var msg := Overlaid(p, m);
            match Collect(Resize(msg, Scan(msg[|HEAD|..], 0)), 0, Chunks(m) + rest)
            case None => []
            case Some((m', rest')) => [m'] + Listen(m', rest')
  {
    OverlaidHeader(p, m);
    HeadAndRest(HEAD + Decimal(|m|), Chunks(m), rest);
  }

  lemma HeadAndRest<T>(head: T, tail: seq<T>, rest: seq<T>)
    ensures var s := [head] + tail + rest; s != [] && s[0] == head && s[1..] == tail + rest
  {
  }

  lemma Assoc<T>(a: seq<T>, b: seq<T>, c: seq<T>)
    ensures (a + b) + c == a + (b + c)
  {
  }

  lemma FrontAndLast<T>(s: seq<T>)
    requires s != []
    ensures s == s[..|s| - 1] + [s[|s| - 1]]
  {
  }

  lemma LongArrives(p: string, m: Message, rest: seq<string>)
    requires |m| > BUF_LEN && Clear(p, m)
    ensures Listen(p, Frames(m) + rest) == [m] + Listen(m, rest)
  {
    LongStep(p, m, rest);
    OverlaidHeader(p, m);
    HeaderIs(m, Resize(p, BUF_LEN)[|HEAD + Decimal(|m|)|..]);
    var msg := Resize(Overlaid(p, m), |m|);
    CollectsChunks(msg, 0, m, rest);
    assert msg[..0] + m == m;
  }

  lemma ReceivedWhole(buf: string, datagram: string)
    requires |datagram| <= |buf|
    ensures Received(buf, 0, datagram) == datagram + buf[|datagram|..]
  {
  }

  lemma MarkedIs(behind: string)
    ensures var o := HEAD + behind; HEAD <= o && !(ABORT <= o) && o[|HEAD|..] == behind
  {
    assert (HEAD + behind)[0] == '$' && ABORT[0] == 'L';
  }

  lemma OverlaidHeader(p: string, m: Message)
    requires |m| > BUF_LEN
    ensures var h := HEAD + Decimal(|m|);
            |h| <= 18 && HEAD <= Overlaid(p, m) && !(ABORT <= Overlaid(p, m))
            && Overlaid(p, m)[|HEAD|..] == Decimal(|m|) + Resize(p, BUF_LEN)[|h|..]
  {
    HeaderIs(m, "");
    var h := HEAD + Decimal(|m|);
    var after := Resize(p, BUF_LEN)[|h|..];
    ReceivedWhole(Resize(p, BUF_LEN), h);
    Assoc(HEAD, Decimal(|m|), after);
    MarkedIs(Decimal(|m|) + after);
  }

  lemma ShortArrives(p: string, m: Message, rest: seq<string>)
    requires |m| <= BUF_LEN && Clear(p, m)
    ensures Listen(p, Frames(m) + rest) == [m] + Listen(m, rest)
  {
    var datagrams := Frames(m) + rest;
    assert datagrams[0] == m && datagrams[1..] == rest;
    assert Resize(Overlaid(p, m), |m|) == m;
  }

  /** A message with a clear start arrives whatever follows it, and the reader goes on behind it. */
  lemma Arrives(p: string, m: Message, rest: seq<string>)
    requires Clear(p, m)
    ensures Listen(p, Frames(m) + rest) == [m] + Listen(m, rest)
  {
    if |m| > BUF_LEN {
      LongArrives(p, m, rest);
    } else {
      ShortArrives(p, m, rest);
    }
  }

  /** Without a clear start a message is not there when all of it has been sent. */
  lemma FailsUnlessClear(p: string, m: Message)
    requires !Clear(p, m)
    ensures Listen(p, Frames(m)) != [m] && (|m| > BUF_LEN ==> Listen(p, Frames(m)) == [])
  {
    if |m| > BUF_LEN {
      var msg := Overlaid(p, m);
      LongStep(p, m, []);
      OverlaidHeader(p, m);
      HeaderIs(m, Resize(p, BUF_LEN)[|HEAD + Decimal(|m|)|..]);
      CollectFallsShort(Resize(msg, Scan(msg[|HEAD|..], 0)), 0, m);
      assert Chunks(m) + [] == Chunks(m) && Frames(m) + [] == Frames(m);
    } else {
      assert Frames(m)[1..] == [];
    }
  }

  /** A message arrives, once and unchanged, exactly when its start is clear. */
  lemma ArrivesIffClear(p: string, m: Message)
    ensures Listen(p, Frames(m)) == [m] <==> Clear(p, m)
  {
    if Clear(p, m) {
      Arrives(p, m, []);
      assert Frames(m) + [] == Frames(m);
    } else {
      FailsUnlessClear(p, m);
    }
  }

  /** Into a fresh buffer: every long message, and every short one that is not empty and has no marker in front. */
  lemma FirstArrivesIff(m: Message)
    ensures Listen("", Frames(m)) == [m] <==> |m| > BUF_LEN || (m != "" && !(ABORT <= m) && !(HEAD <= m))
  {
    ArrivesIffClear("", m);
    var zeros := Resize("", BUF_LEN);
    assert forall i :: 0 <= i < BUF_LEN ==> zeros[i] == '\0';
    if |m| > BUF_LEN {
      HeaderIs(m, "");
    } else {
      OverlaidOnZeros(m, ABORT);
      OverlaidOnZeros(m, HEAD);
    }
  }

  lemma OverlaidOnZeros(m: Message, marker: string)
    requires |m| <= BUF_LEN && |marker| <= BUF_LEN && '\0' !in marker
    ensures marker <= Overlaid("", m) <==> marker <= m
  {
    var o := Overlaid("", m);
    assert o == m + Zeros(BUF_LEN - |m|);
    if |m| < |marker| {
      assert o[|m|] == '\0' && marker[|m|] in marker;
    } else {
      assert m[..|marker|] == o[..|marker|];
    }
  }

  // ---------- A run of messages ----------

  /** The message that is left in the buffer. */
  function Last(ms: seq<Message>): string {
    if ms == [] then "" else ms[|ms| - 1]
  }

  /** What one sender puts on the wire for a run of messages. */
  function Wire(ms: seq<Message>): seq<string> {
    if ms == [] then [] else Wire(ms[..|ms| - 1]) + Frames(ms[|ms| - 1])
  }

  /** Each message is clear of what the one before it leaves behind. */
  predicate AllClear(ms: seq<Message>) {
    ms == [] || (AllClear(ms[..|ms| - 1]) && Clear(Last(ms[..|ms| - 1]), ms[|ms| - 1]))
  }

  lemma {:induction false} RunArrives(ms: seq<Message>, rest: seq<string>)
    requires AllClear(ms)
    ensures Listen("", Wire(ms) + rest) == ms + Listen(Last(ms), rest)
  {
    if ms == [] {
      assert Wire(ms) + rest == rest;
    } else {
      var front, m := ms[..|ms| - 1], ms[|ms| - 1];
      assert Wire(ms) + rest == Wire(front) + (Frames(m) + rest);
      RunArrives(front, Frames(m) + rest);
      Arrives(Last(front), m, rest);
      OneMore(ms, Listen(m, rest));
    }
  }

  lemma OneMore<T>(s: seq<T>, t: seq<T>)
    requires s != []
    ensures s[..|s| - 1] + ([s[|s| - 1]] + t) == s + t
  {
  }

  lemma SamePrefix<T>(s: seq<T>, t: seq<T>, u: seq<T>)
    ensures s + t == s + u <==> t == u
  {
    if s + t == s + u {
      assert t == (s + t)[|s|..] && u == (s + u)[|s|..];
    }
  }

  /** Every message has been received, once, in order and unchanged, by the time all of it has been sent. */
  predicate AllArrive(ms: seq<Message>) {
    Listen("", Wire(ms)) == ms && (ms == [] || AllArrive(ms[..|ms| - 1]))
  }

  /**
   Over a channel that neither loses nor reorders datagrams, with one sender, all messages
   arrive in time exactly when none meets leftovers it is not clear of.
   */
  lemma {:induction false} RunArrivesIff(ms: seq<Message>)
    ensures AllArrive(ms) <==> AllClear(ms)
  {
    if ms != [] {
      var front, m := ms[..|ms| - 1], ms[|ms| - 1];
      FrontAndLast(ms);
      RunArrivesIff(front);
      if AllClear(front) {
        LastArrivesIff(front, m);
      }
    }
  }

  lemma LastArrivesIff(front: seq<Message>, m: Message)
    requires AllClear(front)
    ensures Listen("", Wire(front) + Frames(m)) == front + [m] <==> Clear(Last(front), m)
  {
    RunArrives(front, Frames(m));
    ArrivesIffClear(Last(front), m);
    SamePrefix(front, Listen(Last(front), Frames(m)), [m]);
  }

  /** The message stopListening sends ends the reader whatever the buffer holds; what was sent before is not lost. */
  lemma AbortStops(ms: seq<Message>, rest: seq<string>)
    requires AllClear(ms)
    ensures Listen("", Wire(ms) + (Frames(ABORT) + rest)) == ms
  {
    RunArrives(ms, Frames(ABORT) + rest);
    StopsAt(Last(ms), ABORT, rest);
  }

  lemma StopsAt(p: string, m: string, rest: seq<string>)
    requires m != "" && |m| <= BUF_LEN && ABORT <= m
    ensures Listen(p, Frames(m) + rest) == []
  {
    var datagrams := Frames(m) + rest;
    assert datagrams[0] == m;
    assert Received(Resize(p, BUF_LEN), 0, m) == m + Resize(p, BUF_LEN)[|m|..];
  }

  /**
   For instance: a message with a digit where the next, long one ends its header makes the
   reader wait for more of that one than is sent.
   */
  lemma StaleDigitLosesMessage(p: Message, m: Message)
    requires |m| > BUF_LEN && |HEAD + Decimal(|m|)| < |p| <= BUF_LEN && !(ABORT <= p) && !(HEAD <= p)
    requires IsDigit(p[|HEAD + Decimal(|m|)|])
    ensures Listen("", Wire([p, m])) == [p]
  {
    FirstArrivesIff(p);
    ArrivesIffClear("", p);
    FailsUnlessClear(p, m);
    WireOfTwo(p, m);
    Arrives("", p, Frames(m));
  }

  lemma WireOfTwo(p: Message, m: Message)
    ensures Wire([p, m]) == Frames(p) + Frames(m)
  {
    assert [p, m][..1] == [p] && [p][..0] == [];
    assert Wire([p]) == [] + Frames(p);
  }

  // ---------- Other datagrams ----------

  /** An empty datagram, which is all of an empty message, is passed over. */
  lemma EmptyIsPassed(p: string, rest: seq<string>)
    ensures Frames("") == [""]
    ensures Listen(p, Frames("") + rest) == Listen(Resize(p, BUF_LEN), rest)
  {
    var buf := Resize(p, BUF_LEN);
    assert Received(buf, 0, "") == buf;
    assert ([""] + rest)[1..] == rest;
  }

  /** Passing it over changes nothing for the message behind it. */
  lemma EmptyIsHarmless(p: string, m: Message)
    ensures Clear(Resize(p, BUF_LEN), m) <==> Clear(p, m)
    ensures Clear(p, m) ==> Listen(p, Frames("") + Frames(m)) == [m]
  {
    assert Resize(Resize(p, BUF_LEN), BUF_LEN) == Resize(p, BUF_LEN);
    EmptyIsPassed(p, Frames(m));
    ArrivesIffClear(Resize(p, BUF_LEN), m);
  }

  /** Any other datagram that shows no marker is a message, cut off where the buffer ends. */
  lemma PlainArrives(p: string, datagram: string, rest: seq<string>)
    requires datagram != ""
    requires var msg := Received(Resize(p, BUF_LEN), 0, datagram); !(ABORT <= msg) && !(HEAD <= msg)
    ensures var m := datagram[..Min(|datagram|, BUF_LEN)]; Listen(p, [datagram] + rest) == [m] + Listen(m, rest)
  {
    var n := Min(|datagram|, BUF_LEN);
    var msg := Received(Resize(p, BUF_LEN), 0, datagram);
    assert Resize(msg, n) == datagram[..n];
    assert ([datagram] + rest)[1..] == rest;
  }

  /** The reader gives up in the middle of a message at an empty datagram, or where there are no more. */
  lemma {:induction false} CollectBreaks(msg: string, got: nat, part: string, rest: seq<string>)
    requires |msg| > got + |part|
    ensures Collect(msg, got, Chunks(part) + ([""] + rest)) == None && Collect(msg, got, Chunks(part)) == None
    decreases |part|
  {
    if part == "" {
      assert Chunks(part) + ([""] + rest) == [""] + rest;
    } else {
      var chunk := if |part| <= BUF_LEN then part else part[..BUF_LEN];
      var left := part[|chunk|..];
      assert Chunks(part) == [chunk] + Chunks(left);
      HeadAndRest(chunk, Chunks(left), [""] + rest);
      assert Chunks(part)[1..] == Chunks(left);
      CollectBreaks(Received(msg, got, chunk), got + |chunk|, left, rest);
    }
  }

  /** The header of a long message and its first n bytes, then an empty datagram, then the rest. */
  function BrokenOff(m: Message, n: nat, rest: seq<string>): seq<string>
    requires n <= |m|
  {
    [HEAD + Decimal(|m|)] + Chunks(m[..n]) + ([""] + rest)
  }

  lemma BrokenIsLost(p: string, m: Message, n: nat, rest: seq<string>)
    requires |m| > BUF_LEN && Clear(p, m) && n < |m|
    ensures Listen(p, BrokenOff(m, n, rest)) == []
  {
    OverlaidHeader(p, m);
    HeaderIs(m, Resize(p, BUF_LEN)[|HEAD + Decimal(|m|)|..]);
    HeadAndRest(HEAD + Decimal(|m|), Chunks(m[..n]), [""] + rest);
    CollectBreaks(Resize(Overlaid(p, m), |m|), 0, m[..n], rest);
  }

  /**
   A long message that breaks off ends the reader: what came before it has arrived, and
   nothing that comes after it does.
   */
  lemma BrokenEnds(ms: seq<Message>, m: Message, n: nat, rest: seq<string>)
    requires AllClear(ms) && |m| > BUF_LEN && Clear(Last(ms), m) && n < |m|
    ensures Listen("", Wire(ms) + BrokenOff(m, n, rest)) == ms
  {
    RunArrives(ms, BrokenOff(m, n, rest));
    BrokenIsLost(Last(ms), m, n, rest);
  }
}
