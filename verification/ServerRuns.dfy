/** The server as a state machine: connections come and go, their messages are handled one at a time
    in any interleaving, and every launched broadcast is a goroutine that may run at any later time. */
module ServerRuns {
  import opened Types
  import opened Messages
  import opened Storage
  import opened Tags
  import opened Server
  import StorageProofs

  /** A live connection. ordinal numbers the connections without wrapping; inputs are the decoded
      messages, replies the answers to them, applied those inputs that reached the store, and pushed
      the broadcasts that it was sent. attached and entitled are the numbers of broadcasts that had run
      when it was accepted and when it was authorized. */
  datatype Conn = Conn(ordinal: nat, id: uint16, authorized: bool, attached: nat, entitled: nat,
    inputs: seq<Message>, replies: seq<Message>, applied: seq<Message>, pushed: seq<Message>)

  /** A broadcast that was launched by the connection with the given ordinal and id. */
  datatype Cast = Cast(ordinal: nat, sender: uint16, m: Message)

  /** A message of the connection with the given ordinal that was applied to the store. */
  datatype Request = Request(ordinal: nat, m: Message)

  /** applied are the messages of all connections that reached the store, log the puts that it accepted,
      launched the broadcasts that are still to run, and done those that have run. */
  datatype State = State(gate: Gate, accepted: nat, conns: seq<Conn>, store: Versioned,
    applied: seq<Request>, log: seq<Cast>, launched: multiset<Cast>, done: seq<Cast>)

  datatype Event = Accept | Input(i: nat, m: Message) | RunCast(c: Cast) | Close(i: nat)

  function Start(gate: Gate): State {
    State(gate, 0, [], map[], [], [], multiset{}, [])
  }

  function Attach(s: State): State {
    s.(accepted := s.accepted + 1,
       conns := s.conns + [Conn(s.accepted, TagAt(s.accepted), false, |s.done|, |s.done|, [], [], [], [])])
  }

  /** The i-th connection decodes m. */
  function Receive(s: State, i: nat, m: Message): State
    requires i < |s.conns|
  {
    var c := s.conns[i];
    var (out, t) := Handle(s.gate, Session(c.authorized, s.store), m);
    var reaches := MayApply(s.gate, c.authorized);
    var d := c.(authorized := t.authorized, entitled := if c.authorized then c.entitled else |s.done|,
      inputs := c.inputs + [m], replies := c.replies + [out], applied := if reaches then c.applied + [m] else c.applied);
    var accepts := reaches && Accepted(s.store, m);
    s.(conns := s.conns[i := d], store := t.store,
      applied := if reaches then s.applied + [Request(c.ordinal, m)] else s.applied,
      log := if accepts then s.log + [Cast(c.ordinal, c.id, m)] else s.log,
      launched := if FansOut(m, out) then s.launched + multiset{Cast(c.ordinal, c.id, out)} else s.launched)
  }

  function Push(gate: Gate, cast: Cast, c: Conn): Conn {
    if GetsCopy(gate, cast.sender, c.id, c.authorized) then c.(pushed := c.pushed + [cast.m.(tag := 0)]) else c
  }

  function Execute(s: State, cast: Cast): State {
    s.(launched := s.launched - multiset{cast}, done := s.done + [cast],
      conns := seq(|s.conns|, i requires 0 <= i < |s.conns| => Push(s.gate, cast, s.conns[i])))
  }

  function ConnId(c: Conn): uint16 { c.id }

  /** removeConn goes by the id. */
  function Drop(conns: seq<Conn>, id: uint16): seq<Conn> {
    Without(conns, ConnId, id)
  }

  function Step(s: State, e: Event): Option<State> {
    match e
    case Accept => Some(Attach(s))
    case Input(i, m) => if i < |s.conns| then Some(Receive(s, i, m)) else None
    case RunCast(c) => if c in s.launched then Some(Execute(s, c)) else None
    case Close(i) => if i < |s.conns| then Some(s.(conns := Drop(s.conns, s.conns[i].id))) else None
  }

  function Run(gate: Gate, es: seq<Event>): Option<State> {
    if es == [] then Some(Start(gate)) else
      match Run(gate, es[..|es| - 1])
      case None => None
      case Some(s) => Step(s, es[|es| - 1])
  }

  // ----- What holds in every reachable state -----

  /** The first of the inputs that authorizes its connection: an Auth message with the password. */
  function FirstAuth(gate: Gate, inputs: seq<Message>): (i: nat)
    ensures i <= |inputs|
    ensures gate.Locked? && i < |inputs| ==> inputs[i].kind == KIND_AUTH && gate.accepts(inputs[i].value)
    ensures gate.Locked? ==> forall j :: 0 <= j < i ==> !(inputs[j].kind == KIND_AUTH && gate.accepts(inputs[j].value))
  {
    if gate == Open || inputs == [] then 0 else
      var i := FirstAuth(gate, inputs[..|inputs| - 1]);
      var last := inputs[|inputs| - 1];
      if i < |inputs| - 1 || (last.kind == KIND_AUTH && gate.accepts(last.value)) then i else |inputs|
  }

  /** What may reach the store: everything if no password is needed, and otherwise exactly what comes
      behind the first successful Auth message. */
  function MayReach(gate: Gate, inputs: seq<Message>): seq<Message> {
    if gate == Open then inputs
    else if FirstAuth(gate, inputs) == |inputs| then []
    else inputs[FirstAuth(gate, inputs) + 1..]
  }

  /** The tag-0 copies of the broadcasts that others than the connection with this id have launched. */
  function Copies(casts: seq<Cast>, id: uint16): seq<Message> {
    if casts == [] then [] else
      var last := casts[|casts| - 1];
      Copies(casts[..|casts| - 1], id) + if last.sender != id then [last.m.(tag := 0)] else []
  }

  /** From which of the broadcasts on a connection is entitled to copies. */
  function EntitledFrom(gate: Gate, c: Conn, done: seq<Cast>): nat {
    if gate == Open then c.attached else if c.authorized then c.entitled else |done|
  }

  /** The requests that came from the connection with the given ordinal. */
  function Of(applied: seq<Request>, ordinal: nat): seq<Message> {
    if applied == [] then [] else
      var last := applied[|applied| - 1];
      Of(applied[..|applied| - 1], ordinal) + if last.ordinal == ordinal then [last.m] else []
  }

  function MessagesOf(applied: seq<Request>): (ms: seq<Message>)
    ensures |ms| == |applied|
  {
    if applied == [] then [] else MessagesOf(applied[..|applied| - 1]) + [applied[|applied| - 1].m]
  }

  function Puts(log: seq<Cast>): seq<Message> {
    if log == [] then [] else Puts(log[..|log| - 1]) + [log[|log| - 1].m]
  }

  /** Of the answers to the applied requests, those to the connection with the given ordinal. */
  function AnswersTo(applied: seq<Request>, answers: seq<Message>, ordinal: nat): seq<Message>
    requires |answers| == |applied|
  {
    if applied == [] then [] else
      var n := |applied| - 1;
      AnswersTo(applied[..n], answers[..n], ordinal) + if applied[n].ordinal == ordinal then [answers[n]] else []
  }

  /** How many of the inputs do not get to the store: those up to the one that opens the gate. */
  function Held(gate: Gate, inputs: seq<Message>): (n: nat)
    ensures n <= |inputs|
  {
    if gate == Open then 0 else Min(FirstAuth(gate, inputs) + 1, |inputs|)
  }

  /** Each input has had one reply with its tag: before the one that opens the gate an error, to that one
      an Auth message without a value, and behind it, in order, the answer that the request gets within
      the requests of all connections. */
  ghost predicate RepliesAreExact(gate: Gate, c: Conn, applied: seq<Request>) {
    var n := Held(gate, c.inputs);
    && |c.replies| == |c.inputs|
    && (forall j :: 0 <= j < |c.inputs| ==> c.replies[j].tag == c.inputs[j].tag)
    && (forall j :: 0 <= j < n ==> IsGateReply(c.inputs[j].tag, j == FirstAuth(gate, c.inputs), c.replies[j]))
    && c.replies[n..] == AnswersTo(applied, StorageProofs.Run(map[], MessagesOf(applied)).answers, c.ordinal)
  }

  predicate IsGateReply(tag: uint16, opens: bool, out: Message) {
    if opens then out == Message(KIND_AUTH, tag, [], [], 0) else IsErrorFor(out, tag)
  }

  ghost predicate ConnInv(gate: Gate, c: Conn, s: State) {
    && c.id == TagAt(c.ordinal) && c.ordinal < s.accepted
    && RepliesAreExact(gate, c, s.applied)
    && c.applied == MayReach(gate, c.inputs) == Of(s.applied, c.ordinal)
    && (gate.Locked? ==> (c.authorized <==> FirstAuth(gate, c.inputs) < |c.inputs|))
    && PushesAreExact(gate, c, s.done)
  }

  /** The connection was sent, in order and each once, the tag-0 copies of all broadcasts of others that
      have run since it was accepted, or since it was authorized where a password is needed. */
  ghost predicate PushesAreExact(gate: Gate, c: Conn, done: seq<Cast>) {
    && c.attached <= |done| && c.entitled <= |done|
    && c.pushed == Copies(done[EntitledFrom(gate, c, done)..], c.id)
  }

  /** The store and the accepted puts are those of the requests of all connections, in the order in
      which they were applied; each put that was accepted has been launched. */
  ghost predicate StoreIsExact(s: State) {
    var h := StorageProofs.Run(map[], MessagesOf(s.applied));
    && s.store == h.store && Puts(s.log) == h.log
    && multiset(s.log) == s.launched + multiset(s.done)
    && (forall k :: 0 <= k < |s.log| ==> CastOk(s.log[k], s.accepted))
    && (forall k :: 0 <= k < |s.applied| ==> s.applied[k].ordinal < s.accepted)
  }

  predicate CastOk(c: Cast, accepted: nat) {
    c.m.kind == KIND_PUT && c.sender == TagAt(c.ordinal) && c.ordinal < accepted
  }

  ghost predicate Inv(s: State) {
    && (forall i :: 0 <= i < |s.conns| ==> ConnInv(s.gate, s.conns[i], s))
    && Ordered(s.conns)
    && StoreIsExact(s)
  }

  lemma MayReachMore(gate: Gate, inputs: seq<Message>, m: Message)
    ensures MayReach(gate, inputs + [m]) ==
      if gate == Open || FirstAuth(gate, inputs) < |inputs| then MayReach(gate, inputs) + [m] else []
    ensures gate.Locked? && FirstAuth(gate, inputs) == |inputs| ==> MayReach(gate, inputs) == []
    ensures gate.Locked? ==> (FirstAuth(gate, inputs + [m]) < |inputs| + 1 <==>
      FirstAuth(gate, inputs) < |inputs| || (m.kind == KIND_AUTH && gate.accepts(m.value)))
  {
    var more := inputs + [m];
    assert more[..|inputs|] == inputs;
    if gate.Locked? && FirstAuth(gate, inputs) < |inputs| {
      var i := FirstAuth(gate, inputs);
      assert more[i + 1..] == inputs[i + 1..] + [m];
    }
  }

  lemma HandleFacts(gate: Gate, authorized: bool, store: Versioned, m: Message)
    ensures var (out, t) := Handle(gate, Session(authorized, store), m);
      && out.tag == m.tag
      && (FansOut(m, out) <==> MayApply(gate, authorized) && Accepted(store, m))
      && (FansOut(m, out) ==> out == m)
      && (t.authorized <==> authorized || (gate.Locked? && !authorized && m.kind == KIND_AUTH && gate.accepts(m.value)))
      && (if MayApply(gate, authorized) then (out, t.store) == Apply(store, m)
          else t.store == store && IsGateReply(m.tag, m.kind == KIND_AUTH && gate.accepts(m.value), out))
  {
    ReplyMatchesRequest(store, m);
  }

  lemma OfMore(applied: seq<Request>, r: Request, ordinal: nat)
    ensures Of(applied + [r], ordinal) == Of(applied, ordinal) + if r.ordinal == ordinal then [r.m] else []
  {
    assert (applied + [r])[..|applied|] == applied;
  }

  lemma {:induction false} OfNobody(applied: seq<Request>, ordinal: nat)
    requires forall k :: 0 <= k < |applied| ==> applied[k].ordinal != ordinal
    ensures Of(applied, ordinal) == []
  {
    if applied != [] { OfNobody(applied[..|applied| - 1], ordinal); }
  }

  lemma {:induction false} NoAnswers(applied: seq<Request>, answers: seq<Message>, ordinal: nat)
    requires |answers| == |applied| && forall k :: 0 <= k < |applied| ==> applied[k].ordinal != ordinal
    ensures AnswersTo(applied, answers, ordinal) == []
  {
    if applied != [] { NoAnswers(applied[..|applied| - 1], answers[..|applied| - 1], ordinal); }
  }

  lemma CopiesMore(casts: seq<Cast>, c: Cast, id: uint16)
    ensures Copies(casts + [c], id) == Copies(casts, id) + if c.sender != id then [c.m.(tag := 0)] else []
  {
    assert (casts + [c])[..|casts|] == casts;
  }

  lemma HeldMore(gate: Gate, inputs: seq<Message>, m: Message)
    ensures gate.Locked? && FirstAuth(gate, inputs) < |inputs| ==> FirstAuth(gate, inputs + [m]) == FirstAuth(gate, inputs)
    ensures gate.Locked? && FirstAuth(gate, inputs) == |inputs| ==>
      (FirstAuth(gate, inputs + [m]) == |inputs| <==> m.kind == KIND_AUTH && gate.accepts(m.value))
    ensures Held(gate, inputs + [m]) ==
      if gate == Open || FirstAuth(gate, inputs) < |inputs| then Held(gate, inputs) else |inputs| + 1
  {
    assert (inputs + [m])[..|inputs|] == inputs;
  }

  /** What the requests applied so far were answered does not depend on those that come later. */
  lemma AnswersMore(applied: seq<Request>, r: Request, ordinal: nat)
    ensures var (ms, h) := (MessagesOf(applied), StorageProofs.Run(map[], MessagesOf(applied)));
      AnswersTo(applied + [r], StorageProofs.Run(map[], MessagesOf(applied + [r])).answers, ordinal)
        == AnswersTo(applied, h.answers, ordinal) + if r.ordinal == ordinal then [Apply(h.store, r.m).0] else []
  {
    hide Apply, StorageProofs.Run;
    MessagesMore(applied, r);
    var ms, more := MessagesOf(applied), MessagesOf(applied + [r]);
    assert more[..|more| - 1] == ms;
    StorageProofs.RunPrefix(map[], more);
    assert (applied + [r])[..|applied|] == applied;
  }

  /** The reply to one more input, before the gate is open or behind it. */
  lemma ReplyIsExact(gate: Gate, c: Conn, d: Conn, m: Message, store: Versioned, applied: seq<Request>, applied': seq<Request>)
    requires RepliesAreExact(gate, c, applied) && d.ordinal == c.ordinal && d.inputs == c.inputs + [m]
    requires gate.Locked? ==> (c.authorized <==> FirstAuth(gate, c.inputs) < |c.inputs|)
    requires store == StorageProofs.Run(map[], MessagesOf(applied)).store
    requires d.replies == c.replies + [Handle(gate, Session(c.authorized, store), m).0]
    requires applied' == if MayApply(gate, c.authorized) then applied + [Request(c.ordinal, m)] else applied
    ensures RepliesAreExact(gate, d, applied')
  {
    hide Handle, Apply, FirstAuth, AnswersTo, MessagesOf, StorageProofs.Run, Held, IsGateReply;
    HandleFacts(gate, c.authorized, store, m);
    HeldMore(gate, c.inputs, m);
    AnswersMore(applied, Request(c.ordinal, m), c.ordinal);
    HeldIs(gate, c.inputs);
    var n, k := Held(gate, c.inputs), Held(gate, d.inputs);
    if MayApply(gate, c.authorized) {
      assert d.replies[n..] == c.replies[n..] + [d.replies[|c.replies|]];
    } else {
      assert c.replies[n..] == [] && d.replies[k..] == [];
    }
  }

  lemma HeldIs(gate: Gate, inputs: seq<Message>)
    ensures gate == Open ==> Held(gate, inputs) == 0
    ensures gate.Locked? && FirstAuth(gate, inputs) == |inputs| ==> Held(gate, inputs) == |inputs|
    ensures gate.Locked? && FirstAuth(gate, inputs) < |inputs| ==> Held(gate, inputs) == FirstAuth(gate, inputs) + 1
  {
  }

  lemma ReceiveKeepsConn(s: State, i: nat, m: Message)
    requires i < |s.conns| && ConnInv(s.gate, s.conns[i], s) && StoreIsExact(s)
    ensures ConnInv(s.gate, Receive(s, i, m).conns[i], Receive(s, i, m))
  {
    hide Handle, MayReach, FirstAuth, Accepted, FansOut, Of, Copies, TagAt, RepliesAreExact, StorageProofs.Run, MessagesOf, Puts;
    ReplyIsExact(s.gate, s.conns[i], Receive(s, i, m).conns[i], m, s.store, s.applied, Receive(s, i, m).applied);
    var c := s.conns[i];
    HandleFacts(s.gate, c.authorized, s.store, m);
    MayReachMore(s.gate, c.inputs, m);
    OfMore(s.applied, Request(c.ordinal, m), c.ordinal);
    AuthorizedNow(s.gate, c, Receive(s, i, m).conns[i], s.done);
  }

  /** Nothing is owed to a connection at the moment of its authorization. */
  lemma AuthorizedNow(gate: Gate, c: Conn, d: Conn, done: seq<Cast>)
    requires PushesAreExact(gate, c, done)
    requires d.id == c.id && d.pushed == c.pushed && d.attached == c.attached
    requires d.entitled == if c.authorized then c.entitled else |done|
    requires c.authorized ==> d.authorized
    ensures PushesAreExact(gate, d, done)
  {
  }

  /** A message of another connection. */
  lemma ReceiveKeepsOther(s: State, i: nat, m: Message, j: nat)
    requires Inv(s) && i < |s.conns| && j < |s.conns| && j != i
    ensures ConnInv(s.gate, Receive(s, i, m).conns[j], Receive(s, i, m))
  {
    hide Handle, MayReach, FirstAuth, Accepted, FansOut, Of, Copies, TagAt, StoreIsExact, PushesAreExact, AnswersTo, MessagesOf, StorageProofs.Run, Held, IsGateReply;
    assert ConnInv(s.gate, s.conns[j], s);
    AnswersMore(s.applied, Request(s.conns[i].ordinal, m), s.conns[j].ordinal);
    OfMore(s.applied, Request(s.conns[i].ordinal, m), s.conns[j].ordinal);
    assert s.conns[i].ordinal != s.conns[j].ordinal;
  }

  lemma ReceiveKeepsStore(s: State, i: nat, m: Message)
    requires StoreIsExact(s) && i < |s.conns| && ConnInv(s.gate, s.conns[i], s)
    ensures StoreIsExact(Receive(s, i, m))
  {
    hide Apply, Accepted, FansOut, MayReach, FirstAuth, TagAt, Of, PushesAreExact, MessagesOf, Puts, StorageProofs.Run, CastOk;
    var c := s.conns[i];
    HandleFacts(s.gate, c.authorized, s.store, m);
    AcceptedIsPut(s.store, m);
    MessagesMore(s.applied, Request(c.ordinal, m));
    RunMore(MessagesOf(s.applied), m);
    PutsMore(s.log, Cast(c.ordinal, c.id, m));
    OwnCastOk(s, c, m);
    HandledStore(s.gate, c.authorized, s.store, m);
  }

  lemma HandledStore(gate: Gate, authorized: bool, store: Versioned, m: Message)
    ensures Handle(gate, Session(authorized, store), m).1.store == if MayApply(gate, authorized) then Apply(store, m).1 else store
  {
  }

  lemma OwnCastOk(s: State, c: Conn, m: Message)
    requires ConnInv(s.gate, c, s)
    ensures m.kind == KIND_PUT ==> CastOk(Cast(c.ordinal, c.id, m), s.accepted)
  {
  }

  lemma MessagesMore(applied: seq<Request>, r: Request)
    ensures MessagesOf(applied + [r]) == MessagesOf(applied) + [r.m]
  {
    assert (applied + [r])[..|applied|] == applied;
  }

  lemma PutsMore(log: seq<Cast>, c: Cast)
    ensures Puts(log + [c]) == Puts(log) + [c.m]
  {
    assert (log + [c])[..|log|] == log;
  }

  lemma RunMore(ms: seq<Message>, m: Message)
    ensures var h, more := StorageProofs.Run(map[], ms), StorageProofs.Run(map[], ms + [m]);
      && more.store == Apply(h.store, m).1
      && more.log == if Accepted(h.store, m) then h.log + [m] else h.log
  {
    hide Apply, Accepted;
    assert (ms + [m])[..|ms|] == ms;
  }

  lemma ReceiveKeepsInv(s: State, i: nat, m: Message)
    requires Inv(s) && i < |s.conns|
    ensures Inv(Receive(s, i, m))
  {
    hide Handle, ConnInv, StoreIsExact, FansOut, Accepted;
    var t := Receive(s, i, m);
    ReceiveKeepsConn(s, i, m);
    ReceiveKeepsStore(s, i, m);
    forall j | 0 <= j < |t.conns| ensures ConnInv(t.gate, t.conns[j], t) && t.conns[j].ordinal == s.conns[j].ordinal {
      if j != i { ReceiveKeepsOther(s, i, m, j); }
    }
  }

  lemma AcceptedIsPut(store: Versioned, m: Message)
    ensures Accepted(store, m) ==> m.kind == KIND_PUT
  {
  }

  lemma AttachKeepsInv(s: State)
    requires Inv(s)
    ensures Inv(Attach(s))
  {
    hide TagAt, Of, Copies;
    var t := Attach(s);
    assert t.done[|t.done|..] == [];
    NoCopies(TagAt(s.accepted));
    OfNobody(s.applied, s.accepted);
    NoAnswers(s.applied, StorageProofs.Run(map[], MessagesOf(s.applied)).answers, s.accepted);
    forall i | 0 <= i < |t.conns|
      ensures ConnInv(t.gate, t.conns[i], t)
    {
      if i < |s.conns| { assert ConnInv(s.gate, s.conns[i], s); }
    }
    forall i, j | 0 <= i < j < |t.conns| ensures t.conns[i].ordinal < t.conns[j].ordinal {
      assert ConnInv(s.gate, s.conns[i], s);
    }
    CastsStayOk(s.log, s.accepted);
  }

  lemma CastsStayOk(log: seq<Cast>, accepted: nat)
    requires forall k :: 0 <= k < |log| ==> CastOk(log[k], accepted)
    ensures forall k :: 0 <= k < |log| ==> CastOk(log[k], accepted + 1)
  {
  }

  lemma NoCopies(id: uint16)
    ensures Copies([], id) == []
  {
  }

  lemma ExecuteKeepsConn(s: State, cast: Cast, c: Conn)
    requires ConnInv(s.gate, c, s)
    ensures ConnInv(s.gate, Push(s.gate, cast, c), Execute(s, cast))
  {
    hide MayReach, FirstAuth, TagAt, Of, Copies;
    var from := EntitledFrom(s.gate, c, s.done);
    CopiesMore(s.done[from..], cast, c.id);
    if MayApply(s.gate, c.authorized) {
      assert (s.done + [cast])[from..] == s.done[from..] + [cast];
    } else {
      assert s.done[|s.done|..] == [] && (s.done + [cast])[|s.done| + 1..] == [];
    }
  }

  lemma ExecuteKeepsInv(s: State, cast: Cast)
    requires Inv(s) && cast in s.launched
    ensures Inv(Execute(s, cast))
  {
    hide ConnInv;
    var t := Execute(s, cast);
    forall i | 0 <= i < |t.conns|
      ensures ConnInv(t.gate, t.conns[i], t) && t.conns[i].ordinal == s.conns[i].ordinal
    {
      ExecuteKeepsConn(s, cast, s.conns[i]);
    }
  }

  ghost predicate Ordered(conns: seq<Conn>) {
    forall i, j :: 0 <= i < j < |conns| ==> conns[i].ordinal < conns[j].ordinal
  }

  lemma OrderedMore(conns: seq<Conn>, last: Conn)
    requires Ordered(conns) && forall c :: c in conns ==> c.ordinal < last.ordinal
    ensures Ordered(conns + [last])
  {
  }

  /** What is left by removeConn are connections that were there, in their order. */
  lemma {:induction false} DropKeepsOrder(conns: seq<Conn>, id: uint16)
    requires Ordered(conns)
    ensures Ordered(Drop(conns, id))
    ensures forall c :: c in Drop(conns, id) <==> c in conns && c.id != id
  {
    if conns != [] {
      var less, last := conns[..|conns| - 1], conns[|conns| - 1];
      assert conns == less + [last];
      DropKeepsOrder(less, id);
      assert Drop(conns, id) == Drop(less, id) + if last.id != id then [last] else [];
      forall c | c in Drop(less, id)
        ensures c.ordinal < last.ordinal
      {
        var k :| 0 <= k < |less| && less[k] == c;
        assert conns[k] == less[k];
      }
      OrderedMore(Drop(less, id), last);
    }
  }

  lemma CloseKeepsInv(s: State, id: uint16)
    requires Inv(s)
    ensures Inv(s.(conns := Drop(s.conns, id)))
  {
    DropKeepsOrder(s.conns, id);
    var t := s.(conns := Drop(s.conns, id));
    forall i | 0 <= i < |t.conns|
      ensures ConnInv(t.gate, t.conns[i], t)
    {
      assert t.conns[i] in t.conns;
      var j :| 0 <= j < |s.conns| && s.conns[j] == t.conns[i];
      assert ConnInv(s.gate, s.conns[j], s);
    }
  }

  /** In every reachable state, with every interleaving of connections and broadcasts: each connection
      has had one reply per decoded message, in order and with its tag, and each is the right one: an
      error before the gate opens, an Auth message for opening it, the store's answer behind it; what
      it got to the store is exactly what it sent behind its first successful Auth message (everything,
      if there is no password); it was sent, in order and each once, the tag-0 copies of all broadcasts of other ids
      that have run since it was entitled to them; the store is the one that the requests of all
      connections lead to; and the broadcasts launched are exactly the puts that it accepted. */
  lemma {:induction false} ReachableInv(gate: Gate, es: seq<Event>)
    ensures Run(gate, es).Some? ==> Inv(Run(gate, es).value) && Run(gate, es).value.gate == gate
    decreases |es|
  {
    hide Inv, Receive, Execute, Attach, Drop;
    if es == [] {
      StartInv(gate);
    } else {
      ReachableInv(gate, es[..|es| - 1]);
      match Run(gate, es[..|es| - 1])
      case None =>
      case Some(s) =>
        match es[|es| - 1]
        case Accept => AttachKeepsInv(s); AttachKeepsGate(s);
        case Input(i, m) => if i < |s.conns| { ReceiveKeepsInv(s, i, m); ReceiveKeepsGate(s, i, m); }
        case RunCast(c) => if c in s.launched { ExecuteKeepsInv(s, c); ExecuteKeepsGate(s, c); }
        case Close(i) => if i < |s.conns| { CloseKeepsInv(s, s.conns[i].id); }
    }
  }

  lemma StartInv(gate: Gate)
    ensures Inv(Start(gate)) && Start(gate).gate == gate
  {
  }

  lemma AttachKeepsGate(s: State) ensures Attach(s).gate == s.gate { }

  lemma ReceiveKeepsGate(s: State, i: nat, m: Message)
    requires i < |s.conns|
    ensures Receive(s, i, m).gate == s.gate
  {
  }

  lemma ExecuteKeepsGate(s: State, c: Cast) ensures Execute(s, c).gate == s.gate { }

  // ----- The handshake -----

  /** In every reachable state, an Auth message answers exactly the input that opens the gate. */
  lemma AuthAnswersTheFirst(gate: Gate, es: seq<Event>, i: nat, j: nat)
    requires Run(gate, es).Some? && i < |Run(gate, es).value.conns| && j < |Run(gate, es).value.conns[i].inputs|
    ensures var c := Run(gate, es).value.conns[i];
      |c.replies| == |c.inputs| && (c.replies[j].kind == KIND_AUTH <==> gate.Locked? && j == FirstAuth(gate, c.inputs))
  {
    hide Run, FirstAuth, MayReach, StoreIsExact, PushesAreExact, StorageProofs.Run, MessagesOf, AnswersTo;
    ReachableInv(gate, es);
    var s := Run(gate, es).value;
    var c := s.conns[i];
    assert ConnInv(s.gate, c, s);
    var n, answers := Held(gate, c.inputs), StorageProofs.Run(map[], MessagesOf(s.applied)).answers;
    if j >= n {
      HeldIs(gate, c.inputs);
      assert c.replies[n..][j - n] == c.replies[j];
      AnswerOf(s.applied, answers, c.ordinal, j - n);
      var k :| 0 <= k < |answers| && answers[k] == c.replies[j];
      StorageProofs.AnswersAreExact(map[], MessagesOf(s.applied), k);
    }
  }

  lemma {:induction false} AnswerOf(applied: seq<Request>, answers: seq<Message>, ordinal: nat, j: nat)
    requires |answers| == |applied| && j < |AnswersTo(applied, answers, ordinal)|
    ensures exists k :: 0 <= k < |answers| && answers[k] == AnswersTo(applied, answers, ordinal)[j]
  {
    var n := |applied| - 1;
    if j < |AnswersTo(applied[..n], answers[..n], ordinal)| {
      AnswerOf(applied[..n], answers[..n], ordinal, j);
      var k :| 0 <= k < |answers[..n]| && answers[..n][k] == AnswersTo(applied[..n], answers[..n], ordinal)[j];
      assert answers[k] == AnswersTo(applied, answers, ordinal)[j];
    } else {
      assert answers[n] == AnswersTo(applied, answers, ordinal)[j];
    }
  }

  // ----- Ids -----

  lemma {:induction false} DropNone(conns: seq<Conn>, id: uint16)
    requires forall j :: 0 <= j < |conns| ==> conns[j].id != id
    ensures Drop(conns, id) == conns
  {
    if conns != [] {
      DropNone(conns[..|conns| - 1], id);
    }
  }

  lemma {:induction false} DropOne(conns: seq<Conn>, i: nat)
    requires i < |conns| && forall j :: 0 <= j < |conns| && j != i ==> conns[j].id != conns[i].id
    ensures Drop(conns, conns[i].id) == conns[..i] + conns[i + 1..]
  {
    var less, last := conns[..|conns| - 1], conns[|conns| - 1];
    if i == |conns| - 1 {
      DropNone(less, last.id);
      assert conns[i + 1..] == [];
    } else {
      DropOne(less, i);
      assert less[..i] + less[i + 1..] + [last] == conns[..i] + conns[i + 1..];
    }
  }

  /** No other live connection came a multiple of 65535 before or after this one. */
  ghost predicate IdIsUnique(s: State, i: nat)
    requires i < |s.conns|
  {
    forall j :: 0 <= j < |s.conns| && j != i ==> (s.conns[j].ordinal - s.conns[i].ordinal) % MAX_UINT16 != 0
  }

  lemma SameId(s: State, i: nat, j: nat)
    requires Inv(s) && i < j < |s.conns|
    ensures s.conns[i].id == s.conns[j].id <==> (s.conns[j].ordinal - s.conns[i].ordinal) % MAX_UINT16 == 0
    ensures s.conns[i].id == s.conns[j].id <==> (s.conns[i].ordinal - s.conns[j].ordinal) % MAX_UINT16 == 0
  {
    hide TagAt;
    assert ConnInv(s.gate, s.conns[i], s) && ConnInv(s.gate, s.conns[j], s);
    SameTag(s.conns[i].ordinal, s.conns[j].ordinal);
    NegatedMultiple(s.conns[j].ordinal - s.conns[i].ordinal);
  }

  lemma NegatedMultiple(d: int)
    ensures d % MAX_UINT16 == 0 <==> (-d) % MAX_UINT16 == 0
  {
  }

  /** removeConn drops exactly the connection that it was called for, and a broadcast leaves out only
      its sender, if and only if no other live connection has wrapped around to the same id. */
  lemma CloseIsExact(s: State, i: nat)
    requires Inv(s) && i < |s.conns|
    ensures Drop(s.conns, s.conns[i].id) == s.conns[..i] + s.conns[i + 1..] <==> IdIsUnique(s, i)
  {
    hide Inv, Drop;
    forall j | 0 <= j < |s.conns| && j != i
      ensures s.conns[j].id == s.conns[i].id <==> (s.conns[j].ordinal - s.conns[i].ordinal) % MAX_UINT16 == 0
    {
      if i < j { SameId(s, i, j); } else { SameId(s, j, i); }
    }
    if IdIsUnique(s, i) {
      DropOne(s.conns, i);
    } else {
      var j :| 0 <= j < |s.conns| && j != i && (s.conns[j].ordinal - s.conns[i].ordinal) % MAX_UINT16 == 0;
      DropTakesMore(s, i, j);
    }
  }

  lemma DropTakesMore(s: State, i: nat, j: nat)
    requires Inv(s) && i < |s.conns| && j < |s.conns| && j != i && s.conns[j].id == s.conns[i].id
    ensures Drop(s.conns, s.conns[i].id) != s.conns[..i] + s.conns[i + 1..]
  {
    DropKeepsOrder(s.conns, s.conns[i].id);
    var rest := s.conns[..i] + s.conns[i + 1..];
    assert rest[if j < i then j else j - 1] == s.conns[j];
    assert s.conns[j] in rest;
  }

  /** While fewer than 65535 connections were accepted after the oldest live one, every id is unique. */
  lemma LiveIdsAreDistinct(s: State, i: nat)
    requires Inv(s) && i < |s.conns| && s.accepted - s.conns[0].ordinal - 1 < MAX_UINT16
    ensures IdIsUnique(s, i)
  {
    assert ConnInv(s.gate, s.conns[i], s);
    forall j | 0 <= j < |s.conns| && j != i
      ensures (s.conns[j].ordinal - s.conns[i].ordinal) % MAX_UINT16 != 0
    {
      assert ConnInv(s.gate, s.conns[j], s);
      var lo, hi := if i < j then i else j, if i < j then j else i;
      var d := s.conns[hi].ordinal - s.conns[lo].ordinal;
      assert s.conns[0].ordinal <= s.conns[lo].ordinal;
      assert 0 < d < MAX_UINT16;
      assert d % MAX_UINT16 == d;
      NegatedMultiple(d);
    }
  }

  /** No other live connection that may apply messages came a multiple of 65535 before or after the
      one that launched the broadcast, which may be gone itself by now. */
  ghost predicate SenderIsUnique(s: State, cast: Cast) {
    forall i :: 0 <= i < |s.conns| && MayApply(s.gate, s.conns[i].authorized) && s.conns[i].ordinal != cast.ordinal ==>
      (s.conns[i].ordinal - cast.ordinal) % MAX_UINT16 != 0
  }

  /** Exactly one copy goes to every live connection that may apply messages but the one that launched
      the broadcast, and nobody gets anything else. */
  ghost predicate FansOutExactly(s: State, cast: Cast) {
    forall i :: 0 <= i < |s.conns| ==> (
      Execute(s, cast).conns[i] ==
        if s.conns[i].ordinal == cast.ordinal || !MayApply(s.gate, s.conns[i].authorized) then s.conns[i]
        else s.conns[i].(pushed := s.conns[i].pushed + [cast.m.(tag := 0)]))
  }

  /** One execution of a launched broadcast, at any later time and whether or not its sender is still
      connected: it fans out exactly if and only if no id has wrapped around onto that of the sender. */
  lemma BroadcastIsExact(s: State, cast: Cast)
    requires Inv(s) && cast in s.launched
    ensures FansOutExactly(s, cast) <==> SenderIsUnique(s, cast)
  {
    hide TagAt, ConnInv, Execute;
    LaunchedIsLogged(s, cast);
    forall i | 0 <= i < |s.conns|
      ensures s.conns[i].id == cast.sender <==> (s.conns[i].ordinal - cast.ordinal) % MAX_UINT16 == 0
      ensures |Execute(s, cast).conns| == |s.conns| && Execute(s, cast).conns[i] == Push(s.gate, cast, s.conns[i])
    {
      SameIdAsSender(s, cast, i);
      Executed(s, cast, i);
    }
    forall i | 0 <= i < |s.conns| ensures s.conns[i].(pushed := s.conns[i].pushed + [cast.m.(tag := 0)]) != s.conns[i] {
      assert |s.conns[i].pushed + [cast.m.(tag := 0)]| > |s.conns[i].pushed|;
    }
  }

  lemma Executed(s: State, cast: Cast, i: nat)
    requires i < |s.conns|
    ensures |Execute(s, cast).conns| == |s.conns| && Execute(s, cast).conns[i] == Push(s.gate, cast, s.conns[i])
  {
  }

  lemma LaunchedIsLogged(s: State, cast: Cast)
    requires Inv(s) && cast in s.launched
    ensures CastOk(cast, s.accepted)
  {
    hide ConnInv;
    assert cast in multiset(s.log);
    var k :| 0 <= k < |s.log| && s.log[k] == cast;
  }

  lemma SameIdAsSender(s: State, cast: Cast, i: nat)
    requires Inv(s) && i < |s.conns| && CastOk(cast, s.accepted)
    ensures s.conns[i].id == cast.sender <==> (s.conns[i].ordinal - cast.ordinal) % MAX_UINT16 == 0
  {
    hide TagAt, PushesAreExact;
    assert ConnInv(s.gate, s.conns[i], s);
    var a, b := s.conns[i].ordinal, cast.ordinal;
    if a <= b { SameTag(a, b); } else { SameTag(b, a); }
    NegatedMultiple(a as int - b);
  }
}
