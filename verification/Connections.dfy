/**
 The live connections of the receiving end, each a record with a decoder of its own. The table forgets a
 connection when it closes; what it stands for keeps the history.
 */
module Connections {
  import opened Bytes
  import opened FrameCodec
  import opened Results
  import opened TransferServer
  import opened ReceiverInvariant

  /** `wire` and `sent` are what the socket has been given so far. */
  class Link {
    const socket: Socket
    const decoder: FrameDecoder
    var helloComplete: bool
    var remainder: Bytes
    var flushScheduled: bool
    var disconnectAfterWrite: bool
    ghost var wire: Bytes
    ghost var sent: seq<Frame>

    ghost function Value(): Connection
      reads this, decoder
    {
      Connection(true, decoder.buffer, helloComplete, remainder, flushScheduled, disconnectAfterWrite, wire, sent)
    }

    constructor (socket: Socket)
      ensures this.socket == socket && fresh(decoder) && Value() == NEW_CONNECTION
    {
      this.socket := socket;
      decoder := new FrameDecoder();
      helloComplete, remainder, flushScheduled, disconnectAfterWrite, wire, sent := false, [], false, false, [], [];
    }

    /** Give the socket so many bytes of the frame and keep the rest for a flush. */
    method Hand(ghost frame: Frame, bytes: Bytes, taken: nat)
      requires bytes == Layout(frame) && taken <= |bytes|
      modifies this
      ensures Value() == Sent(old(Value()), frame, taken)
      ensures wire + remainder == old(wire) + bytes
    {
      hide Layout;
      assert bytes[..taken] + bytes[taken..] == bytes;
      wire, sent := wire + bytes[..taken], sent + [frame];
      remainder := bytes[taken..];
      if remainder != [] {
        flushScheduled := true;
      }
    }

    method Greet()
      modifies this
      ensures Value() == old(Value()).(helloComplete := true)
    {
      helloComplete := true;
    }

    method SetFlush(scheduled: bool)
      modifies this
      ensures Value() == old(Value()).(flushScheduled := scheduled)
    {
      flushScheduled := scheduled;
    }

    method CloseAfterWrite()
      modifies this
      ensures Value() == old(Value()).(disconnectAfterWrite := true)
    {
      disconnectAfterWrite := true;
    }

    method Push(bytes: Bytes) returns (frames: Result<seq<Frame>>)
      modifies decoder
      ensures frames == PushResult(old(Value()).buffer, bytes).0
      ensures Value() == old(Value()).(buffer := PushResult(old(Value()).buffer, bytes).1)
    {
      hide PushResult;
      frames := decoder.Push(bytes);
    }

    /** Give the socket so many bytes of what was left over. */
    method Flush(taken: nat)
      requires taken <= |remainder|
      modifies this
      ensures Value() == old(Value()).(wire := old(wire) + old(remainder)[..taken], remainder := old(remainder)[taken..],
                                       flushScheduled := taken < |old(remainder)|)
    {
      wire := wire + remainder[..taken];
      remainder := remainder[taken..];
      flushScheduled := remainder != [];
    }
  }

  class ConnectionTable {
    var links: map<Socket, Link>
    ghost var known: map<Socket, Connection>
    ghost var Repr: set<object>

    /** `known` is what the live records hold, and the closed connections. */
    ghost predicate Valid()
      reads this, Repr
    {
      && this in Repr
      && (forall c :: c in links ==> links[c] in Repr && links[c].decoder in Repr)
      && (forall c :: c in links ==> links[c].socket == c && c in known && known[c] == links[c].Value())
      && (forall c, d :: c in links && d in links && c != d ==> links[c].decoder != links[d].decoder)
      && (forall c :: c in known && c !in links ==> !known[c].open)
    }

    constructor ()
      ensures Valid() && known == map[] && fresh(Repr)
    {
      links, known := map[], map[];
      Repr := {this};
    }

    method Add(c: Socket)
      requires Valid() && c !in known
      modifies this
      ensures Valid() && fresh(Repr - old(Repr)) && known == old(known)[c := NEW_CONNECTION]
    {
      var link := new Link(c);
      links := links[c := link];
      known := known[c := NEW_CONNECTION];
      Repr := Repr + {link, link.decoder};
    }

    method Forget(c: Socket)
      requires Valid()
      modifies this
      ensures Valid() && Repr == old(Repr) && c !in links
      ensures known == if c in old(known) then old(known)[c := old(known)[c].(open := false)] else old(known)
    {
      links := links - {c};
      if c in known {
        known := known[c := known[c].(open := false)];
      }
    }

    /** A frame goes to the socket of c, which takes so many of its bytes. */
    method Hand(c: Socket, ghost frame: Frame, bytes: Bytes, taken: nat)
      requires Valid() && c in links && bytes == Layout(frame) && taken <= |bytes|
      modifies links[c], this
      ensures Valid() && Repr == old(Repr) && links == old(links)
      ensures known == old(known)[c := Sent(old(known)[c], frame, taken)]
      ensures links[c].wire + links[c].remainder == old(links[c].wire) + bytes
    {
      hide Sent, Link.Value;
      links[c].Hand(frame, bytes, taken);
      known := known[c := links[c].Value()];
    }

    /** The bytes go to the decoder of c. */
    method Push(c: Socket, bytes: Bytes) returns (frames: Result<seq<Frame>>)
      requires Valid() && c in links
      modifies this, links[c].decoder
      ensures Valid() && Repr == old(Repr) && links == old(links)
      ensures var before := old(known)[c];
        && frames == PushResult(before.buffer, bytes).0
        && known == old(known)[c := before.(buffer := PushResult(before.buffer, bytes).1)]
    {
      hide PushResult, Link.Value;
      frames := links[c].Push(bytes);
      known := known[c := links[c].Value()];
    }

    method Greet(c: Socket)
      requires Valid() && c in links
      modifies this, links[c]
      ensures Valid() && Repr == old(Repr) && links == old(links)
      ensures known == old(known)[c := old(known)[c].(helloComplete := true)]
    {
      hide Link.Value;
      links[c].Greet();
      known := known[c := links[c].Value()];
    }

    method SetFlush(c: Socket, scheduled: bool)
      requires Valid() && c in links
      modifies this, links[c]
      ensures Valid() && Repr == old(Repr) && links == old(links)
      ensures known == old(known)[c := old(known)[c].(flushScheduled := scheduled)]
    {
      hide Link.Value;
      links[c].SetFlush(scheduled);
      known := known[c := links[c].Value()];
    }

    method CloseAfterWrite(c: Socket)
      requires Valid() && c in links
      modifies this, links[c]
      ensures Valid() && Repr == old(Repr) && links == old(links)
      ensures known == old(known)[c := old(known)[c].(disconnectAfterWrite := true)]
    {
      hide Link.Value;
      links[c].CloseAfterWrite();
      known := known[c := links[c].Value()];
    }

    /** The socket of c takes so many bytes of what was left over. */
    method Flush(c: Socket, taken: nat)
      requires Valid() && c in links && taken <= |links[c].remainder|
      modifies this, links[c]
      ensures Valid() && Repr == old(Repr) && links == old(links)
      ensures var before := old(known)[c];
        known == old(known)[c := before.(wire := before.wire + before.remainder[..taken],
                                         remainder := before.remainder[taken..],
                                         flushScheduled := taken < |before.remainder|)]
    {
      links[c].Flush(taken);
      known := known[c := links[c].Value()];
    }

    method ForgetAll()
      requires Valid()
      modifies this
      ensures Valid() && Repr == old(Repr) && links == map[]
      ensures known == map c | c in old(known) :: old(known)[c].(open := false)
    {
      links := map[];
      known := map c | c in known :: known[c].(open := false);
    }
  }
}
