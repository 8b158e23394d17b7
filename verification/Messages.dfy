/** The messages of the wire protocol (pkg/message/message.go). */
module Messages {
  import opened Types

  const KIND_GET: byte := 0
  const KIND_PUT: byte := 1
  const KIND_ERROR: byte := 2
  const KIND_AUTH: byte := 3

  datatype Message = Message(kind: byte, tag: uint16, key: bytes, value: bytes, version: uint64) {

    /** Key, Value and Version panic when the kind of the message has no such field. */
    function Key(): (r: Checked<bytes>)
      ensures r.Fine? <==> kind == KIND_GET || kind == KIND_PUT
    {
      if kind == KIND_GET || kind == KIND_PUT then Fine(key) else Panic
    }

    function Value(): (r: Checked<bytes>)
      ensures r.Fine? <==> kind == KIND_AUTH || kind == KIND_ERROR || kind == KIND_PUT
    {
      if kind == KIND_AUTH || kind == KIND_ERROR || kind == KIND_PUT then Fine(value) else Panic
    }

    function Version(): (r: Checked<uint64>)
      ensures r.Fine? <==> kind == KIND_PUT
    {
      if kind == KIND_PUT then Fine(version) else Panic
    }

    function ForBroadcast(): (r: Checked<Message>)
      ensures r.Fine? <==> kind == KIND_PUT
      ensures r.Fine? ==> r.value.tag == 0 && r.value.(tag := tag) == this
    {
      if kind == KIND_PUT then Fine(this.(tag := 0)) else Panic
    }

    /** The kind is one of the four, and the fields it does not use are zero: what the helper
        constructors build. */
    predicate Canonical() {
      || (kind == KIND_GET && this == NewGetMessage(tag, key))
      || (kind == KIND_PUT && this == NewPutMessage(tag, key, value, version))
      || (kind == KIND_ERROR && this == NewErrorMessage(tag, value))
      || (kind == KIND_AUTH && this == NewAuthMessage(tag, value))
    }
  }

  /** The zero value of the Go struct. */
  const NO_MESSAGE := Message(0, 0, [], [], 0)

  function NewGetMessage(tag: uint16, key: bytes): Message {
    Message(KIND_GET, tag, key, [], 0)
  }

  function NewPutMessage(tag: uint16, key: bytes, value: bytes, version: uint64): Message {
    Message(KIND_PUT, tag, key, value, version)
  }

  function NewErrorMessage(tag: uint16, text: bytes): Message {
    Message(KIND_ERROR, tag, [], text, 0)
  }

  function NewAuthMessage(tag: uint16, password: bytes): Message {
    Message(KIND_AUTH, tag, [], password, 0)
  }

  /** out reports some error to the request with the tag. */
  predicate IsErrorFor(out: Message, tag: uint16) {
    out.kind == KIND_ERROR && out.tag == tag && out.key == [] && out.version == 0
  }

  /** The accessors say all there is to say about a message that a constructor has built: two of them
      of one kind and with one tag are the same message if and only if every accessor gives the same
      result for both, a panic included. */
  lemma AccessorsTellApart(m: Message, n: Message)
    requires m.Canonical() && n.Canonical() && m.kind == n.kind && m.tag == n.tag
    ensures m == n <==> m.Key() == n.Key() && m.Value() == n.Value() && m.Version() == n.Version()
  {
  }
}
