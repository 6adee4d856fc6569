/** The header composer: which optional SOAP headers accompany every call, and in
    which order, as a function of the client's current configuration. */
module Headers {
  import opened Wrappers

  /** Go's `int32`, the type of the client's batch size. */
  type Int32 = x: int | -0x8000_0000 <= x < 0x8000_0000

  /** Go's `int` on a 64-bit platform, the type `SetBatchSize` receives. */
  type Int64 = x: int | -0x8000_0000_0000_0000 <= x < 0x8000_0000_0000_0000

  /** The conversion `int32(n)`: keep the low 32 bits and read them as two's complement.
      The result is the one 32-bit value congruent to `n` modulo 2^32. */
  function ToInt32(n: Int64): (r: Int32)
    ensures (n - r) % 0x1_0000_0000 == 0
    ensures -0x8000_0000 <= n < 0x8000_0000 ==> r == n
  {
    var low := n % 0x1_0000_0000;
    assert n == (n / 0x1_0000_0000) * 0x1_0000_0000 + low;
    if low < 0x8000_0000 then low else low - 0x1_0000_0000
  }

  /** One debug-log directive (category and level) of the debugging header. */
  datatype LogInfo = LogInfo(category: string, level: string)

  /** The three optional headers the client maintains on its transport. */
  datatype Header =
    | DebuggingHeader(categories: seq<LogInfo>)
    | QueryOptions(batchSize: Int32)
    | SessionHeader(sessionId: string)

  /** The position class of a header in a composed list: debug, then batch, then session. */
  function Rank(h: Header): nat
  {
    match h
    case DebuggingHeader(_) => 0
    case QueryOptions(_) => 1
    case SessionHeader(_) => 2
  }

  /** The header list rebuilt from scratch out of the three contributing fields:
      a debugging header when categories are present (even an empty list), a
      batch-size header when the size is positive, a session header when the id is
      not empty. */
  function Compose(debug: Option<seq<LogInfo>>, batchSize: Int32, sessionId: string): seq<Header>
  {
    (if debug.Some? then [DebuggingHeader(debug.value)] else [])
    + (if batchSize > 0 then [QueryOptions(batchSize)] else [])
    + (if sessionId != "" then [SessionHeader(sessionId)] else [])
  }

  predicate HasDebugging(hs: seq<Header>)
  {
    exists i :: 0 <= i < |hs| && hs[i].DebuggingHeader?
  }

  predicate HasBatch(hs: seq<Header>)
  {
    exists i :: 0 <= i < |hs| && hs[i].QueryOptions?
  }

  predicate HasSession(hs: seq<Header>)
  {
    exists i :: 0 <= i < |hs| && hs[i].SessionHeader?
  }

  /** Strictly increasing ranks: the order debug, batch, session, with no kind twice. */
  predicate Ordered(hs: seq<Header>)
  {
    forall i, j :: 0 <= i < j < |hs| ==> Rank(hs[i]) < Rank(hs[j])
  }

  /** Every header in the list carries the current value of its field. */
  predicate CarriesValues(hs: seq<Header>, debug: Option<seq<LogInfo>>, batchSize: Int32, sessionId: string)
  {
    forall i :: 0 <= i < |hs| ==>
      match hs[i]
      case DebuggingHeader(c) => debug == Some(c)
      case QueryOptions(b) => b == batchSize
      case SessionHeader(s) => s == sessionId
  }

  /** Each header is present exactly when its field asks for it. */
  lemma ComposePresence(debug: Option<seq<LogInfo>>, batchSize: Int32, sessionId: string)
    ensures HasDebugging(Compose(debug, batchSize, sessionId)) <==> debug.Some?
    ensures HasBatch(Compose(debug, batchSize, sessionId)) <==> batchSize > 0
    ensures HasSession(Compose(debug, batchSize, sessionId)) <==> sessionId != ""
  {
    var hs := Compose(debug, batchSize, sessionId);
    var d := if debug.Some? then 1 else 0;
    var b := if batchSize > 0 then 1 else 0;
    assert |hs| == d + b + (if sessionId != "" then 1 else 0);
    if debug.Some? { assert hs[0].DebuggingHeader?; }
    if batchSize > 0 { assert hs[d].QueryOptions?; }
    if sessionId != "" { assert hs[d + b].SessionHeader?; }
  }

  /** The composed list is ordered debug, batch, session, and so has at most three entries. */
  lemma ComposeOrdered(debug: Option<seq<LogInfo>>, batchSize: Int32, sessionId: string)
    ensures Ordered(Compose(debug, batchSize, sessionId))
    ensures |Compose(debug, batchSize, sessionId)| <= 3
  {
    var hs := Compose(debug, batchSize, sessionId);
    OrderedBound(hs);
  }

  /** An ordered list holds each of the three kinds at most once. */
  lemma {:induction false} OrderedBound(hs: seq<Header>)
    requires Ordered(hs)
    ensures |hs| <= 3
  {
    if |hs| > 0 {
      RankAtLeastIndex(hs, |hs| - 1);
    }
  }

  /** In an ordered list the k-th header has rank at least k. */
  lemma {:induction false} RankAtLeastIndex(hs: seq<Header>, k: nat)
    requires Ordered(hs) && k < |hs|
    ensures Rank(hs[k]) >= k
  {
    if k > 0 {
      RankAtLeastIndex(hs, k - 1);
    }
  }

  /** Each composed header carries the field's current value. */
  lemma ComposeCarriesValues(debug: Option<seq<LogInfo>>, batchSize: Int32, sessionId: string)
    ensures CarriesValues(Compose(debug, batchSize, sessionId), debug, batchSize, sessionId)
  {
  }

  /** With a session id set, the last composed header is the session header with that id. */
  lemma ComposeSessionLast(debug: Option<seq<LogInfo>>, batchSize: Int32, sessionId: string)
    requires sessionId != ""
    ensures |Compose(debug, batchSize, sessionId)| > 0
    ensures Compose(debug, batchSize, sessionId)[|Compose(debug, batchSize, sessionId)| - 1] == SessionHeader(sessionId)
  {
  }

  /** Composition forgets only a non-positive batch size: equal header lists come from
      equal debug categories, equal session ids and equal positive batch sizes. */
  lemma ComposeDetermines(d1: Option<seq<LogInfo>>, b1: Int32, s1: string,
                          d2: Option<seq<LogInfo>>, b2: Int32, s2: string)
    requires Compose(d1, b1, s1) == Compose(d2, b2, s2)
    ensures d1 == d2 && s1 == s2
    ensures b1 > 0 || b2 > 0 ==> b1 == b2
  {
    var hs := Compose(d1, b1, s1);
    ComposePresence(d1, b1, s1);
    ComposePresence(d2, b2, s2);
    ComposeCarriesValues(d1, b1, s1);
    ComposeCarriesValues(d2, b2, s2);
    if d1.Some? {
      assert hs[0] == DebuggingHeader(d1.value);
    }
    if b1 > 0 {
      var i :| 0 <= i < |hs| && hs[i].QueryOptions?;
    }
    if s1 != "" {
      var i :| 0 <= i < |hs| && hs[i].SessionHeader?;
    }
  }
}
