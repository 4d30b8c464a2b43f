/** The SNI proxy reads the ClientHello off the client and still forwards every byte of it. */
module Sni {
  import opened Wrappers

  newtype byte = x: int | 0 <= x < 256

  /** What the network does to one read: up to `n` bytes are there, or the read fails (say, at its deadline). */
  datatype Delivery = Arrives(n: nat) | Fails

  datatype ReadEnd = More | Eof | Error

  /** An accepted connection. */
  class ClientConn {
    var incoming: seq<byte>   // what the client has sent or will send, as far as it has not been read
    var outgoing: seq<byte>   // what has been written to the client

    constructor (stream: seq<byte>)
      ensures incoming == stream && outgoing == []
    {
      incoming, outgoing := stream, [];
    }

    /** At least one byte, if there is one and the read does not fail. */
    method Read(limit: nat, delivery: Delivery) returns (data: seq<byte>, end: ReadEnd)
      requires limit > 0
      modifies this`incoming
      ensures data + incoming == old(incoming) && |data| <= limit
      ensures end.More? <==> data != []
      ensures end.Error? <==> delivery.Fails?
      ensures end.Eof? ==> incoming == []
    {
      data := [];
      if delivery.Fails? {
        return data, Error;
      }
      if incoming == [] {
        return data, Eof;
      }
      var n := if delivery.n == 0 then 1 else delivery.n;
      n := if n <= limit then n else limit;
      n := if n <= |incoming| then n else |incoming|;
      data := incoming[..n];
      incoming := incoming[n..];
      end := More;
    }
  }

  /** What the TLS library does with the connection it is given. */
  datatype TlsCall = TlsRead(limit: nat, delivery: Delivery) | TlsWrite(data: seq<byte>)

  /** The read-only connection over a tee: what is read from the client is kept in `peeked`. */
  class PeekConn {
    const conn: ClientConn
    var peeked: seq<byte>

    constructor (conn: ClientConn)
      ensures this.conn == conn && peeked == []
    {
      this.conn, peeked := conn, [];
    }

    method Read(limit: nat, delivery: Delivery) returns (data: seq<byte>, end: ReadEnd)
      requires limit > 0
      modifies this`peeked, conn`incoming
      ensures data + conn.incoming == old(conn.incoming) && peeked == old(peeked) + data
    {
      data, end := conn.Read(limit, delivery);
      peeked := peeked + data;
    }

    method Write(data: seq<byte>) returns (n: nat, ok: bool)
      ensures n == 0 && !ok
    {
      n, ok := 0, false;
    }

    /** Whatever the handshake reads and writes, no byte is lost and the client sees nothing. */
    method Handshake(calls: seq<TlsCall>)
      modifies this`peeked, conn`incoming
      ensures peeked + conn.incoming == old(peeked + conn.incoming)
    {
      for i := 0 to |calls|
        invariant peeked + conn.incoming == old(peeked + conn.incoming)
      {
        match calls[i] {
          case TlsRead(limit, delivery) =>
            if limit > 0 {
              ghost var before, left := peeked, conn.incoming;
              var data, _ := Read(limit, delivery);
              assert before + (data + conn.incoming) == (before + data) + conn.incoming;
            }
          case TlsWrite(data) =>
            var _, _ := Write(data);
        }
      }
    }
  }

  /** No read fails and every write takes all it is given. */
  predicate Undisturbed(limit: nat, deliveries: seq<Delivery>, accepts: seq<nat>) {
    && (forall i :: 0 <= i < |deliveries| ==> deliveries[i].Arrives?)
    && (forall i :: 0 <= i < |accepts| ==> accepts[i] >= limit)
  }

  /** The wrapped connection: first the peeked bytes, then the rest of the connection. */
  class WrappedConn {
    const conn: ClientConn
    var peeked: seq<byte>

    constructor (conn: ClientConn, peeked: seq<byte>)
      ensures this.conn == conn && this.peeked == peeked
    {
      this.conn, this.peeked := conn, peeked;
    }

    ghost function Unread(): seq<byte>
      reads this, conn
    {
      peeked + conn.incoming
    }

    method Read(limit: nat, delivery: Delivery) returns (data: seq<byte>, end: ReadEnd)
      requires limit > 0
      modifies this`peeked, conn`incoming
      ensures data + Unread() == old(Unread()) && |data| <= limit
      ensures end.More? <==> data != []
      ensures end.Eof? ==> Unread() == []
      ensures end.Error? ==> delivery.Fails?
    {
      if peeked != [] {
        var n := if limit <= |peeked| then limit else |peeked|;
        data, end := peeked[..n], More;
        peeked := peeked[n..];
        assert data + peeked == old(peeked);
      } else {
        data, end := conn.Read(limit, delivery);
      }
    }

    /** The copy loop towards the backend; the i-th write accepts at most accepts[i] bytes, and a short write ends it. */
    method Copy(limit: nat, deliveries: seq<Delivery>, accepts: seq<nat>) returns (forwarded: seq<byte>, end: ReadEnd)
      requires limit > 0 && |accepts| == |deliveries|
      modifies this`peeked, conn`incoming
      ensures forwarded <= old(Unread())
      ensures end.Eof? ==> forwarded == old(Unread())
      ensures end.More? ==> forwarded + Unread() == old(Unread()) && |forwarded| >= |deliveries|
      ensures Undisturbed(limit, deliveries, accepts) ==> !end.Error?
    {
      forwarded, end := [], More;
      ghost var all := Unread();
      for i := 0 to |deliveries|
        invariant forwarded + Unread() == all && end.More? && |forwarded| >= i
      {
        var data;
        data, end := Read(limit, deliveries[i]);
        assert forwarded + (data + Unread()) == (forwarded + data) + Unread();
        if !end.More? {
          assert data == [] && forwarded + data == forwarded;
          return;
        }
        if accepts[i] < |data| {
          assert forwarded + data[..accepts[i]] <= forwarded + data;
          return forwarded + data[..accepts[i]], Error;
        }
        forwarded := forwarded + data;
      }
    }
  }

  /** peekClientHello: a hello seen during the handshake clears the error the handshake always ends with. */
  method PeekClientHello(conn: ClientConn, calls: seq<TlsCall>, hello: Option<string>)
    returns (name: Option<string>, wrapped: WrappedConn)
    modifies conn`incoming
    ensures name == hello
    ensures fresh(wrapped) && wrapped.conn == conn && wrapped.Unread() == old(conn.incoming)
  {
    var peek := new PeekConn(conn);
    peek.Handshake(calls);
    wrapped := new WrappedConn(conn, peek.peeked);
    name := hello;
  }

  /** A whole session: for any TLS library, any sizes of reads and writes and any failures, the backend receives a
      prefix of the client's byte stream, all of it if the copy ends at the end of the stream, which it does unless it
      is disturbed or cut short; and the client has received nothing that the backend did not send. */
  method Session(stream: seq<byte>, calls: seq<TlsCall>, hello: Option<string>,
                 limit: nat, deliveries: seq<Delivery>, accepts: seq<nat>)
    returns (forwarded: seq<byte>, end: ReadEnd, toClient: seq<byte>)
    requires limit > 0 && |accepts| == |deliveries|
    ensures forwarded <= stream && (end.Eof? ==> forwarded == stream) && toClient == []
    ensures Undisturbed(limit, deliveries, accepts) && |deliveries| > |stream| ==> end.Eof?
  {
    var conn := new ClientConn(stream);
    var name, wrapped := PeekClientHello(conn, calls, hello);
    forwarded, end := wrapped.Copy(limit, deliveries, accepts);
    toClient := conn.outgoing;
  }
}
