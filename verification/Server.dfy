/** The metadata server of pkg/network/server: what one connection does with its input, and the
    fan-out of accepted puts to the other connections. */
module Server {
  import opened Types
  import opened Messages
  import opened Encoding
  import opened EncodingProofs
  import opened Storage
  import opened Tags

  const GO_AWAY := Ascii("go away")

  /** authHash, and the test of a password against it; no hash means that no password is needed. */
  datatype Gate = Open | Locked(accepts: bytes -> bool)

  /** What the server keeps between two messages of one connection: whether it has authorized it, and
      the store, which all connections share. */
  datatype Session = Session(authorized: bool, store: Versioned)

  predicate MayApply(gate: Gate, authorized: bool) {
    gate == Open || authorized
  }

  /** The answer to one decoded message. */
  function Handle(gate: Gate, s: Session, input: Message): (Message, Session) {
    if !MayApply(gate, s.authorized) then
      if input.kind != KIND_AUTH then (NewErrorMessage(input.tag, GO_AWAY), s)
      else if gate.accepts(input.value) then (NewAuthMessage(input.tag, []), s.(authorized := true))
      else (NewErrorMessage(input.tag, GO_AWAY), s)
    else
      var (out, store) := Apply(s.store, input);
      (out, s.(store := store))
  }

  /** The condition under which a broadcast is launched. */
  predicate FansOut(input: Message, output: Message) {
    input.kind == KIND_PUT && output.kind == KIND_PUT
  }

  /** The answers to a sequence of messages, the puts to be broadcast, and the session afterwards. */
  datatype Served = Served(answers: seq<Message>, fans: seq<Message>, s: Session)

  function HandleAll(gate: Gate, s: Session, ms: seq<Message>): Served {
    if ms == [] then Served([], [], s) else
      var h, m := HandleAll(gate, s, ms[..|ms| - 1]), ms[|ms| - 1];
      var (out, t) := Handle(gate, h.s, m);
      Served(h.answers + [out], if FansOut(m, out) then h.fans + [out] else h.fans, t)
  }

  lemma AnswersAreKnown(gate: Gate, s: Session, m: Message)
    ensures Handle(gate, s, m).0.kind <= KIND_AUTH
  {
  }

  lemma HandleOneMore(gate: Gate, s: Session, ms: seq<Message>, m: Message)
    ensures var h, (out, t) := HandleAll(gate, s, ms), Handle(gate, HandleAll(gate, s, ms).s, m);
      HandleAll(gate, s, ms + [m]) == Served(h.answers + [out], if FansOut(m, out) then h.fans + [out] else h.fans, t)
  {
    assert (ms + [m])[..|ms|] == ms;
  }

  lemma {:induction false} EncodedOneMore(ms: seq<Message>, m: Message)
    ensures EncodedAll(ms + [m]) == EncodedAll(ms) + Encoded(m)
  {
    hide Encoded;
    if ms == [] {
      assert EncodedAll([m]) == Encoded(m) + [];
    } else {
      assert (ms + [m])[1..] == ms[1..] + [m];
      EncodedOneMore(ms[1..], m);
    }
  }

  lemma ClipTwice(a: bytes, b: bytes, room: nat)
    ensures Clip(a + b, room) == Clip(a, room) + Clip(b, room - Min(|a|, room))
  {
  }

  lemma NothingYet(d: Reading, gate: Gate, s: Session, room: nat)
    requires d.off <= |d.buf|
    ensures DecodeMany(d, 0) == Some(Decoded([], d)) && HandleAll(gate, s, []) == Served([], [], s)
    ensures EncodedAll([]) == [] && Clip([], room) == []
  {
  }

  lemma OneDecoded(d: Reading, out: Checked<Message>, e: Reading)
    requires d.off <= |d.buf|
    requires match Decode(d, NO_MESSAGE) case Panic => out == Panic case Fine((m, f)) => out == Fine(m) && e == f
    ensures DecodeOne(d) == if out == Panic || e.failed then None else Some(Decoded([out.value], e))
  {
  }

  /** A connection's half of the server: the objects it does not share with other connections. */
  class ServerConn {
    const id: uint16
    const encoder: Encoder
    const decoder: Decoder
    const reader: Reader
    const writer: Writer
    var authorized: bool

    constructor (id: uint16, reader: Reader, writer: Writer)
      ensures this.id == id && this.reader == reader && this.writer == writer && !authorized
      ensures fresh(encoder) && fresh(encoder.buf) && fresh(decoder) && fresh(decoder.buf) && Valid()
    {
      this.id, this.reader, this.writer, authorized := id, reader, writer, false;
      encoder := new Encoder();
      decoder := new Decoder();
    }

    ghost predicate Valid()
      reads this, encoder, decoder
    {
      encoder.off <= encoder.buf.Length && decoder.off <= decoder.buf.Length && encoder.buf != decoder.buf
    }

    /** One turn of the loop of handleInput, behind the decoder. */
    method Answer(gate: Gate, store: VersionedWrapper, input: Message) returns (output: Message)
      requires store.Valid()
      modifies this`authorized, store.delegate
      ensures store.Valid()
      ensures (output, Session(authorized, store.View())) == Handle(gate, old(Session(authorized, store.View())), input)
    {
      hide Apply;
      if gate.Locked? && !authorized {
        if input.kind != KIND_AUTH {
          output := NewErrorMessage(input.tag, GO_AWAY);
        } else if gate.accepts(input.value) {
          authorized := true;
          output := NewAuthMessage(input.tag, []);
        } else {
          output := NewErrorMessage(input.tag, GO_AWAY);
        }
      } else {
        output := ApplyMessage(store, input);
      }
    }
  
    method DecodeInput() returns (input: Checked<Message>)
      requires Valid()
      modifies decoder, decoder.buf, reader
      ensures input.Fine? ==> Valid() && (decoder.buf == old(decoder.buf) || fresh(decoder.buf))
      ensures DecodeOne(old(decoder.State(reader))) ==
        if input == Panic || decoder.err then None else Some(Decoded([input.value], decoder.State(reader)))
    {
      hide Decode, DecodeOne;
      ghost var d := decoder.State(reader);
      input := decoder.DecodeFrom(reader, NO_MESSAGE);
      OneDecoded(d, input, decoder.State(reader));
    }

    /** One turn of the loop of handleInput: the answer is sent, and a broadcast may be launched. */
    method Turn(gate: Gate, store: VersionedWrapper, input: Message) returns (launched: Option<Message>)
      requires Valid() && store.Valid()
      modifies this`authorized, store.delegate, encoder, encoder.buf, writer
      ensures Valid() && store.Valid() && (encoder.buf == old(encoder.buf) || fresh(encoder.buf))
      ensures var (output, s) := Handle(gate, old(Session(authorized, store.View())), input);
        && Session(authorized, store.View()) == s
        && launched == (if FansOut(input, output) then Some(output) else None)
        && writer.out == old(writer.out) + Clip(Encoded(output), old(writer.room))
        && writer.room == old(writer.room) - Min(|Encoded(output)|, old(writer.room))
    {
      hide Handle, Encoded, Clip;
      AnswersAreKnown(gate, Session(authorized, store.View()), input);
      var output := Answer(gate, store, input);
      var _ := encoder.Encode(writer, output);
      launched := if FansOut(input, output) then Some(output) else None;
    }

    /** The loop of handleInput, until a message cannot be decoded. inputs are the messages that were;
        launched are the broadcasts that were started for them. If decoding panics, so does the
        server. */
    method HandleInput(gate: Gate, store: VersionedWrapper) returns (launched: seq<Message>, panicked: bool, ghost inputs: seq<Message>)
      requires Valid() && store.Valid()
      modifies this`authorized, encoder, encoder.buf, decoder, decoder.buf, reader, writer, store.delegate
      ensures store.Valid()
      ensures var d := old(decoder.State(reader));
        && DecodeMany(d, |inputs|).Some? && DecodeMany(d, |inputs|).value.ms == inputs
        && DecodeMany(d, |inputs| + 1) == None
      ensures var h := HandleAll(gate, old(Session(authorized, store.View())), inputs);
        && writer.out == old(writer.out) + Clip(EncodedAll(h.answers), old(writer.room))
        && launched == h.fans && Session(authorized, store.View()) == h.s
    {
      hide DecodeMany, HandleAll, Handle, FansOut, EncodedAll, Encoded, Clip, Left, DecodeOne;
      launched, panicked, inputs := [], false, [];
      ghost var d, s, out, room := decoder.State(reader), Session(authorized, store.View()), writer.out, writer.room;
      ghost var h := Served([], [], s);
      NothingYet(d, gate, s, room);
      while true
        invariant store.Valid() && Valid()
        invariant encoder.buf == old(encoder.buf) || fresh(encoder.buf)
        invariant decoder.buf == old(decoder.buf) || fresh(decoder.buf)
        invariant DecodeMany(d, |inputs|) == Some(Decoded(inputs, decoder.State(reader)))
        invariant h == HandleAll(gate, s, inputs) && h.fans == launched && h.s == Session(authorized, store.View())
        invariant writer.out == out + Clip(EncodedAll(h.answers), room)
        invariant writer.room == room - Min(|EncodedAll(h.answers)|, room)
        decreases Left(reader.stream)
      {
        ghost var before := decoder.State(reader);
        DecodeManyThenOne(d, |inputs|);
        var input := DecodeInput();
        if input == Panic {
          panicked := true;
          break;
        }
        if decoder.err { break; }
        DecodeOneProgresses(before);
        HandleOneMore(gate, s, inputs, input.value);
        ghost var output := Handle(gate, h.s, input.value).0;
        EncodedOneMore(h.answers, output);
        ClipTwice(EncodedAll(h.answers), Encoded(output), room);
        var fan := Turn(gate, store, input.value);
        launched := if fan.Some? then launched + [fan.value] else launched;
        inputs := inputs + [input.value];
        h := HandleAll(gate, s, inputs);
      }
    }
  }

  /** Whether a broadcast that was started by the connection with the id sender goes to another one. */
  predicate GetsCopy(gate: Gate, sender: uint16, id: uint16, authorized: bool) {
    id != sender && MayApply(gate, authorized)
  }

  /** The connections that are kept when the ones with a given id are dropped. */
  function Without<C>(conns: seq<C>, idOf: C -> uint16, id: uint16): (r: seq<C>) {
    if conns == [] then [] else
      Without(conns[..|conns| - 1], idOf, id) + if idOf(conns[|conns| - 1]) != id then [conns[|conns| - 1]] else []
  }

  function IdOf(c: ServerConn): uint16 { c.id }

  class Server {
    const gate: Gate
    const connIDs: MonotoneTags
    var conns: seq<ServerConn>

    constructor (gate: Gate)
      ensures this.gate == gate && conns == [] && fresh(connIDs) && connIDs.Valid() && connIDs.given == 0
    {
      this.gate, conns := gate, [];
      connIDs := new MonotoneTags();
    }

    /** Serve's reaction to a new connection: the next id, and a place at the end of conns. */
    method Accept(reader: Reader, writer: Writer) returns (sc: ServerConn)
      requires connIDs.Valid()
      modifies this, connIDs
      ensures connIDs.Valid() && connIDs.given == old(connIDs.given) + 1
      ensures fresh(sc) && sc.Valid() && sc.id == TagAt(old(connIDs.given)) && !sc.authorized
      ensures sc.reader == reader && sc.writer == writer && conns == old(conns) + [sc]
    {
      var id := connIDs.Next();
      sc := new ServerConn(id, reader, writer);
      conns := conns + [sc];
    }

    method RemoveConn(sc: ServerConn)
      modifies this
      ensures conns == Without(old(conns), IdOf, sc.id)
    {
      var newConns: seq<ServerConn> := [];
      for i := 0 to |conns|
        invariant newConns == Without(conns[..i], IdOf, sc.id)
      {
        assert conns[..i + 1][..i] == conns[..i];
        if conns[i].id != sc.id {
          newConns := newConns + [conns[i]];
        }
      }
      assert conns[..|conns|] == conns;
      conns := newConns;
    }

    /** Every connection has a writer of its own; no two of them share anything. */
    ghost predicate Separate()
      reads this, conns, set c | c in conns :: c.encoder, set c | c in conns :: c.decoder
    {
      && (forall i, j :: 0 <= i < j < |conns| ==> conns[i].writer != conns[j].writer)
      && (forall c :: c in conns ==> c.encoder.off <= c.encoder.buf.Length)
    }

    method Broadcast(excluded: uint16, m: Message)
      requires Separate() && m.kind == KIND_PUT
      modifies set c | c in conns :: c.writer, set c | c in conns :: c.encoder, set c | c in conns :: c.encoder.buf
      ensures Separate()
      ensures forall c :: c in conns ==>
        c.writer.out == old(c.writer.out) +
          if GetsCopy(gate, excluded, c.id, c.authorized) then Clip(Encoded(m.(tag := 0)), old(c.writer.room)) else []
    {
      var message := m.ForBroadcast().value;
      for i := 0 to |conns|
        invariant forall c :: c in conns ==> c.encoder.off <= c.encoder.buf.Length
        invariant forall c :: c in conns ==> c.encoder.buf == old(c.encoder.buf) || fresh(c.encoder.buf)
        invariant forall j :: i <= j < |conns| ==> conns[j].writer.out == old(conns[j].writer.out) && conns[j].writer.room == old(conns[j].writer.room)
        invariant forall j :: 0 <= j < i ==>
          conns[j].writer.out == old(conns[j].writer.out) +
            (if GetsCopy(gate, excluded, conns[j].id, conns[j].authorized) then Clip(Encoded(message), old(conns[j].writer.room)) else [])
      {
        var conn := conns[i];
        if excluded != conn.id && (gate == Open || conn.authorized) {
          var _ := conn.encoder.Encode(conn.writer, message);
        }
      }
    }
  }
}
