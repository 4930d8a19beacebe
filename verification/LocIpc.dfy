/**
 LocIpc as it is built: the sending and the receiving loops. The socket is the sequence of
 datagrams that arrive on it, and the number of datagrams it takes before a send fails.
 */
module LocIpc {
  import opened Options
  import opened LocIpcFraming

  class LocIpc {
    var mIpcOpen: bool
    var mStopRequested: bool

    constructor ()
      ensures !mIpcOpen && !mStopRequested
    {
      mIpcOpen, mStopRequested := false, false;
    }

    /** What goes out is the framing, up to the datagram the socket does not take. */
    static method SendData(data: Message, takes: nat) returns (result: bool, sent: seq<string>)
      ensures result <==> |Frames(data)| <= takes
      ensures sent == Frames(data)[..Min(takes, |Frames(data)|)]
    {
      sent := [];
      if |data| <= BUF_LEN {
        result := takes > 0;
        if result {
          sent := [data];
        }
      } else if takes == 0 {
        result := false;
      } else {
        result := true;
        var head := HEAD + Decimal(|data|);
        sent := [head];
        var sentBytes := 0;
        while sentBytes < |data|
          invariant sentBytes <= |data| && result && 0 < |sent| <= takes
          invariant sent + Chunks(data[sentBytes..]) == Frames(data)
        {
          var partLen := |data| - sentBytes;
          if partLen > BUF_LEN {
            partLen := BUF_LEN;
          }
          var part := data[sentBytes..sentBytes + partLen];
          NextChunk(data, sentBytes, partLen);
          assert sent + ([part] + Chunks(data[sentBytes + partLen..])) ==
            (sent + [part]) + Chunks(data[sentBytes + partLen..]);
          if |sent| == takes {
            result := false;
            break;
          }
          sent := sent + [part];
          sentBytes := sentBytes + partLen;
        }
      }
    }

    static method Send(data: string, takes: nat) returns (result: bool, sent: seq<string>)
      ensures result <==> |Frames(Narrow(data))| <= takes
      ensures sent == Frames(Narrow(data))[..Min(takes, |Frames(Narrow(data))|)]
    {
      result, sent := SendData(Narrow(data), takes);
    }

    /**
     Reads until a receive fails, here at the end of the datagrams, or the abort message
     comes. stopCalled: whether stopListening sets its flag while the loop runs.
     */
    method StartListeningBlocking(datagrams: seq<string>, stopCalled: bool)
      returns (result: bool, received: seq<string>)
      modifies this
      ensures received == Listen("", datagrams)
      ensures result <==> old(mStopRequested) || stopCalled
      ensures !mStopRequested && (mIpcOpen <==> result)
    {
      mIpcOpen := true;
      received := [];
      var msg := "";
      var next := 0;
      while true
        invariant next <= |datagrams| && unchanged(`mStopRequested) && mIpcOpen
        invariant received + Listen(msg, datagrams[next..]) == Listen("", datagrams)
        decreases |datagrams| - next
      {
        if next == |datagrams| {
          break;
        }
        ListenNext(msg, datagrams, next);
        msg := Resize(msg, BUF_LEN);
        var datagram := datagrams[next];
        var nBytes := Min(|datagram|, |msg|);
        msg := Received(msg, 0, datagram);
        next := next + 1;
        if nBytes == 0 {
          continue;
        }
        if ABORT <= msg {
          break;
        }
        if !(HEAD <= msg) {
          msg := Resize(msg, nBytes);
          Regroup(received, msg, Listen(msg, datagrams[next..]));
          received := received + [msg];
        } else {
          msg := Resize(msg, Scan(msg[|HEAD|..], 0));
          var whole;
          whole, msg, next := ReceiveRest(msg, datagrams, next);
          if whole {
            Regroup(received, msg, Listen(msg, datagrams[next..]));
            received := received + [msg];
          } else {
            break;
          }
        }
      }
      if stopCalled {
        mStopRequested := true;
      }
      if mStopRequested {
        mStopRequested := false;
        result := true;
      } else {
        mIpcOpen := false;
        result := false;
      }
    }

    /** The inner receive loop; not whole when a receive fails or finds an empty datagram. */
    static method ReceiveRest(start: string, datagrams: seq<string>, from: nat)
      returns (whole: bool, msg: string, next: nat)
      requires from <= |datagrams|
      ensures from <= next <= |datagrams|
      ensures Collect(start, 0, datagrams[from..]) == if whole then Some((msg, datagrams[next..])) else None
    {
      whole, msg, next := true, start, from;
      var msgLenReceived: nat := 0;
      while msgLenReceived < |msg| && whole
        invariant from <= next <= |datagrams| && msgLenReceived <= |msg|
        invariant Collect(start, 0, datagrams[from..]) ==
                  if whole then Collect(msg, msgLenReceived, datagrams[next..]) else None
        decreases |datagrams| - next, whole
      {
        if next == |datagrams| {
          whole := false;
        } else {
          var datagram := datagrams[next];
          assert datagrams[next..][0] == datagram && datagrams[next..][1..] == datagrams[next + 1..];
          var nBytes := Min(|datagram|, |msg| - msgLenReceived);
          msg := Received(msg, msgLenReceived, datagram);
          msgLenReceived := msgLenReceived + nBytes;
          next := next + 1;
          whole := nBytes > 0;
        }
      }
    }
  }

  lemma Regroup<T>(s: seq<T>, x: T, t: seq<T>)
    ensures s + ([x] + t) == (s + [x]) + t
  {
  }

  /** What Listen makes of the next datagram, case by case. */
  lemma ListenNext(buf: string, datagrams: seq<string>, next: nat)
    requires next < |datagrams|
    ensures var datagram, rest := datagrams[next], datagrams[next + 1..];
            var msg := Received(Resize(buf, BUF_LEN), 0, datagram);
            Listen(buf, datagrams[next..]) ==
            if datagram == "" then Listen(msg, rest)
            else if ABORT <= msg then []
            else if !(HEAD <= msg) then
              var m := Resize(msg, Min(|datagram|, BUF_LEN));
              [m] + Listen(m, rest)
            else
              match Collect(Resize(msg, Scan(msg[|HEAD|..], 0)), 0, rest)
              case None => []
              case Some((m, rest')) => [m] + Listen(m, rest')
  {
    assert datagrams[next..][0] == datagrams[next] && datagrams[next..][1..] == datagrams[next + 1..];
  }

  lemma NextChunk(data: string, at: nat, partLen: nat)
    requires at < |data| && partLen == Min(BUF_LEN, |data| - at)
    ensures Chunks(data[at..]) == [data[at..at + partLen]] + Chunks(data[at + partLen..])
  {
    var tail := data[at..];
    assert tail[..partLen] == data[at..at + partLen] && tail[partLen..] == data[at + partLen..];
    if |tail| <= BUF_LEN {
      assert data[at + partLen..] == "" && data[at..at + partLen] == tail;
    }
  }
}
