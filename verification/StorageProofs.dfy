/** Whole runs against the versioned store, over the wire and directly, and against the blob store. */
module StorageProofs {
  import opened Types
  import opened Messages
  import opened Encoding
  import opened EncodingProofs
  import opened Storage

  // ----- Runs of the versioned store -----

  /** The answers to a run of messages, the puts that were accepted, and the store afterwards. */
  datatype History = History(answers: seq<Message>, log: seq<Message>, store: Versioned)

  function Run(s: Versioned, ms: seq<Message>): (h: History)
    ensures |h.answers| == |ms|
  {
    if ms == [] then History([], [], s) else
      var h, m := Run(s, ms[..|ms| - 1]), ms[|ms| - 1];
      var (out, t) := Apply(h.store, m);
      History(h.answers + [out], if Accepted(h.store, m) then h.log + [m] else h.log, t)
  }

  function Lookup<K, V>(s: map<K, V>, k: K): Option<V> {
    if k in s then Some(s[k]) else None
  }

  /** The index of the last put for key k, or -1. */
  function LastIndex(log: seq<Message>, k: bytes): (i: int)
    ensures -1 <= i < |log|
    ensures i >= 0 ==> log[i].key == k
    ensures forall j :: i < j < |log| ==> log[j].key != k
  {
    if log == [] then -1
    else if log[|log| - 1].key == k then |log| - 1
    else LastIndex(log[..|log| - 1], k)
  }

  /** What a log of accepted puts says about a key, over what there was before. */
  function FromLog(log: seq<Message>, before: Option<Entry<bytes>>, k: bytes): Option<Entry<bytes>> {
    var i := LastIndex(log, k);
    if i < 0 then before else Some(Entry(log[i].version, log[i].value))
  }

  lemma FromLongerLog(log: seq<Message>, m: Message, before: Option<Entry<bytes>>, k: bytes)
    ensures FromLog(log + [m], before, k) == if m.key == k then Some(Entry(m.version, m.value)) else FromLog(log, before, k)
  {
    assert (log + [m])[..|log|] == log;
  }

  /** After any run, the store maps each key to the pair that was accepted last for it. */
  lemma {:induction false} StoreHoldsLastAccepted(s: Versioned, ms: seq<Message>, k: bytes)
    ensures Lookup(Run(s, ms).store, k) == FromLog(Run(s, ms).log, Lookup(s, k), k)
    decreases |ms|
  {
    hide FromLog, Apply;
    if ms == [] {
      EmptyLog(Lookup(s, k), k);
    } else {
      var h, m := Run(s, ms[..|ms| - 1]), ms[|ms| - 1];
      StoreHoldsLastAccepted(s, ms[..|ms| - 1], k);
      ReplyMatchesRequest(h.store, m);
      FromLongerLog(h.log, m, Lookup(s, k), k);
    }
  }

  lemma EmptyLog(before: Option<Entry<bytes>>, k: bytes)
    ensures FromLog([], before, k) == before
  {
  }

  // ----- The answers -----

  /** The server takes a put over what it has for the key. */
  predicate Takes(last: Option<Entry<bytes>>, version: uint64) {
    last == None || version > last.value.version || last.value.version == MAX_UINT64
  }

  /** The answer to a message for whose key the server has last: a Get is answered by exactly that, under
      the tag and the key of the request, and a put that is taken by itself; anything else is an error. */
  predicate IsRightAnswer(last: Option<Entry<bytes>>, m: Message, out: Message) {
    if m.kind == KIND_GET && last.Some? then
      out.kind == KIND_PUT && out.tag == m.tag && out.key == m.key && Entry(out.version, out.value) == last.value
    else if m.kind == KIND_PUT && Takes(last, m.version) then out == m
    else IsErrorFor(out, m.tag)
  }

  /** The puts among the messages that were answered by a put. */
  function Echoed(ms: seq<Message>, answers: seq<Message>): seq<Message>
    requires |answers| == |ms|
  {
    if ms == [] then [] else
      var n := |ms| - 1;
      Echoed(ms[..n], answers[..n]) + if ms[n].kind == KIND_PUT && answers[n].kind == KIND_PUT then [ms[n]] else []
  }

  lemma RunPrefix(s: Versioned, ms: seq<Message>)
    requires ms != []
    ensures Run(s, ms).answers[..|ms| - 1] == Run(s, ms[..|ms| - 1]).answers
    ensures Run(s, ms).answers[|ms| - 1] == Apply(Run(s, ms[..|ms| - 1]).store, ms[|ms| - 1]).0
  {
    hide Apply, Accepted;
  }

  /** The accepted puts are those that the answers echo. */
  lemma {:induction false} LogIsEchoed(s: Versioned, ms: seq<Message>)
    ensures Run(s, ms).log == Echoed(ms, Run(s, ms).answers)
    decreases |ms|
  {
    hide Apply;
    if ms != [] {
      LogIsEchoed(s, ms[..|ms| - 1]);
      RunPrefix(s, ms);
    }
  }

  lemma AnswerIsRight(s: Versioned, m: Message)
    ensures IsRightAnswer(Lookup(s, m.key), m, Apply(s, m).0)
  {
  }

  /** Over any run every answer is the right one, by nothing but the puts that were echoed before it. */
  lemma {:induction false} AnswersAreExact(s: Versioned, ms: seq<Message>, j: nat)
    requires j < |ms|
    ensures var (k, answers) := (ms[j].key, Run(s, ms).answers);
      IsRightAnswer(FromLog(Echoed(ms[..j], answers[..j]), Lookup(s, k), k), ms[j], answers[j])
    decreases |ms|
  {
    hide Apply, IsRightAnswer, FromLog, Echoed, Run;
    var less := ms[..|ms| - 1];
    RunPrefix(s, ms);
    if j < |less| {
      AnswersAreExact(s, less, j);
      assert less[..j] == ms[..j] && Run(s, ms).answers[..j] == Run(s, less).answers[..j];
    } else {
      LogIsEchoed(s, less);
      StoreHoldsLastAccepted(s, less, ms[j].key);
      AnswerIsRight(Run(s, less).store, ms[j]);
    }
  }

  // ----- Versions -----

  /** Two accepted puts for one key, the first of them before the last: their versions increase, as
      long as the greatest version number has not been used in between. */
  ghost predicate Increasing(log: seq<Message>) {
    forall i, j :: 0 <= i < j < |log| && log[i].key == log[j].key ==>
      log[i].version < log[j].version || MaxBetween(log, i, j)
  }

  ghost predicate MaxBetween(log: seq<Message>, i: int, j: int) {
    exists l :: 0 <= i <= l < j < |log| && log[l].key == log[i].key && log[l].version == MAX_UINT64
  }

  lemma {:induction false} AcceptedVersionsIncrease(ms: seq<Message>)
    ensures Increasing(Run(map[], ms).log)
    decreases |ms|
  {
    if ms != [] {
      var less, m := ms[..|ms| - 1], ms[|ms| - 1];
      AcceptedVersionsIncrease(less);
      var h := Run(map[], less);
      if Accepted(h.store, m) {
        StoreHoldsLastAccepted(map[], less, m.key);
        hide Run, Increasing;
        OneMoreIncreases(h.log, h.store, m);
      }
    }
  }

  lemma OneMoreIncreases(log: seq<Message>, s: Versioned, m: Message)
    requires Increasing(log) && Accepted(s, m)
    requires var i := LastIndex(log, m.key); i >= 0 ==> m.key in s && s[m.key].version == log[i].version
    ensures Increasing(log + [m])
  {
    var more, n, last := log + [m], |log|, LastIndex(log, m.key);
    forall i, j | 0 <= i < j < |more| && more[i].key == more[j].key
      ensures more[i].version < more[j].version || MaxBetween(more, i, j)
    {
      if j < n {
        if MaxBetween(log, i, j) {
          var l :| i <= l < j && log[l].key == log[i].key && log[l].version == MAX_UINT64;
          assert more[l] == log[l];
        }
      } else {
        assert i <= last;
        AcceptedVersionIncreases(s, m.version, m.key, m.value);
        if log[last].version == MAX_UINT64 {
          assert more[last] == log[last];
        } else if i < last && MaxBetween(log, i, last) {
          var l :| i <= l < last && log[l].key == log[i].key && log[l].version == MAX_UINT64;
          assert more[l] == log[l];
        }
      }
    }
  }

  /** Below the greatest version number no pair of key and version is ever accepted twice. */
  lemma NoVersionAcceptedTwice(ms: seq<Message>, i: nat, j: nat)
    requires var log := Run(map[], ms).log;
      i < j < |log| && log[i].key == log[j].key && forall l :: 0 <= l < |log| ==> log[l].version < MAX_UINT64
    ensures var log := Run(map[], ms).log; log[i].version < log[j].version
  {
    hide Run;
    AcceptedVersionsIncrease(ms);
  }

  // ----- The same over the wire -----

  /** What is stored can be sent: it all arrived in messages that fit. */
  ghost predicate Sendable(s: Versioned) {
    forall k :: k in s ==> |k| <= MAX_UINT16 - 2 && |s[k].value| <= MAX_UINT16 - 8
  }

  lemma AnswerFits(s: Versioned, m: Message)
    requires Sendable(s) && m.Canonical() && Fits(m)
    ensures Sendable(Apply(s, m).1)
    ensures Apply(s, m).0.Canonical() && Fits(Apply(s, m).0)
  {
  }

  lemma {:induction false} AnswersFit(s: Versioned, ms: seq<Message>)
    requires Sendable(s) && AllFit(ms)
    ensures var h := Run(s, ms); Sendable(h.store) && AllFit(h.answers)
    decreases |ms|
  {
    if ms != [] {
      AnswersFit(s, ms[..|ms| - 1]);
      AnswerFits(Run(s, ms[..|ms| - 1]).store, ms[|ms| - 1]);
    }
  }

  /** What the server gets, does and sends for a number of requests that stand in its stream. */
  function Serve(s: Versioned, server: Reading, n: nat): Option<(History, bytes)>
    requires server.off <= |server.buf|
  {
    match DecodeMany(server, n)
    case None => None
    case Some(r) => var h := Run(s, r.ms); Some((h, EncodedAll(h.answers)))
  }

  /** Encoding, decoding, applying, encoding and decoding any sequence of requests comes to the same
      as applying them directly: the server, which sees nothing but bytes, ends up with the same store,
      the same accepted puts and the same answers, and a client that reads the bytes that the server
      sends decodes exactly these answers. */
  lemma WireIsTransparent(s: Versioned, ms: seq<Message>, server: Reading, client: Reading, more: Chunks)
    requires Sendable(s) && AllFit(ms)
    requires server.off <= |server.buf| && server.stream == [EncodedAll(ms)] + more
    requires client.off <= |client.buf|
    ensures var served := Serve(s, server, |ms|);
      && served.Some? && served.value.0 == Run(s, ms)
      && DecodesAllTo(client.(stream := [served.value.1] + more), Run(s, ms).answers, [], more)
  {
    hide Run, EncodedAll, Fits, DecodeMany;
    AnswersFit(s, ms);
    var answers := Run(s, ms).answers;
    assert EncodedAll(ms) + [] == EncodedAll(ms) && EncodedAll(answers) + [] == EncodedAll(answers);
    StreamRoundTrip(server, ms, [], more);
    StreamRoundTrip(client.(stream := [EncodedAll(answers)] + more), answers, [], more);
  }

  // ----- Runs of the blob store -----

  function PutBlobs(hash: bytes -> bytes, blobs: map<bytes, bytes>, values: seq<bytes>): map<bytes, bytes> {
    if values == [] then blobs else PutBlob(hash, PutBlobs(hash, blobs, values[..|values| - 1]), values[|values| - 1])
  }

  /** No two different values among those put have the same hash. */
  ghost predicate NoCollision(hash: bytes -> bytes, values: seq<bytes>) {
    forall i, j :: 0 <= i < |values| && 0 <= j < |values| && hash(values[i]) == hash(values[j]) ==> values[i] == values[j]
  }

  /** Every key leads to a value that was put and that hashes to it, and every value put has its key. */
  lemma {:induction false} BlobsAreAddressedByContent(hash: bytes -> bytes, values: seq<bytes>)
    ensures var blobs := PutBlobs(hash, map[], values);
      && (forall k :: k in blobs ==> blobs[k] in values && hash(blobs[k]) == k)
      && (forall v :: v in values ==> hash(v) in blobs)
    decreases |values|
  {
    if values != [] {
      var less, last := values[..|values| - 1], values[|values| - 1];
      assert values == less + [last];
      BlobsAreAddressedByContent(hash, less);
    }
  }

  /** Without collisions a value that was put is read back for ever, whatever is put later. */
  lemma BlobsAreKept(hash: bytes -> bytes, values: seq<bytes>, i: nat)
    requires i < |values| && NoCollision(hash, values)
    ensures Lookup(PutBlobs(hash, map[], values), hash(values[i])) == Some(values[i])
  {
    hide PutBlobs;
    BlobsAreAddressedByContent(hash, values);
    assert values[i] in values;
  }
}
