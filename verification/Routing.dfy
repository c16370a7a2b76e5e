/** The broker side: header tables, the retry count they carry, bindings, and webhook answers. */
module Routing {
  import opened Domain
  import opened Protocol
  import opened Worker

  // ---- header tables ---------------------------------------------------------------------------

  const HEADER_RETRY := "x-retry-count"

  /** Values the broker library decodes a header to; any other type is Other. */
  datatype HeaderValue = Int32(n: int) | Int64(n: int) | Int(n: int) | Byte(n: int) | Other(text: string)

  type Table = map<string, HeaderValue>

  function RetryCount(h: Table): int {
    if HEADER_RETRY !in h then 0
    else
      match h[HEADER_RETRY]
      case Int32(n) => n
      case Int64(n) => n
      case Int(n) => n
      case Byte(n) => n
      case Other(_) => 0
  }

  const TWO31: int := 0x8000_0000
  const TWO32: int := 0x1_0000_0000

  /** Conversion to a 32-bit signed integer. */
  function Wrap32(n: int): int {
    (n + TWO31) % TWO32 - TWO31
  }

  function Republished(h: Table): Table {
    h[HEADER_RETRY := Int32(Wrap32(RetryCount(h) + 1))]
  }

  method CloneHeaders(h: Table) returns (out: Table)
    ensures out == h
  {
    out := map[];
    var todo := h.Keys;
    while todo != {}
      invariant todo <= h.Keys && out.Keys == h.Keys - todo
      invariant forall k :: k in out ==> out[k] == h[k]
      decreases todo
    {
      var k :| k in todo;
      out := out[k := h[k]];
      todo := todo - {k};
    }
  }

  method RepublishHeaders(h: Table) returns (out: Table)
    ensures out == Republished(h)
  {
    out := CloneHeaders(h);
    var n := RetryCount(out) + 1;
    out := out[HEADER_RETRY := Int32(Wrap32(n))];
  }

  /** Republishing counts one more retry exactly when the count still fits in 32 bits, and leaves
      every other header alone. */
  lemma RepublishCounts(h: Table)
    ensures RetryCount(Republished(h)) == RetryCount(h) + 1 <==> -TWO31 <= RetryCount(h) + 1 < TWO31
    ensures Republished(h) - {HEADER_RETRY} == h - {HEADER_RETRY} && HEADER_RETRY in Republished(h)
  {
  }

  function Chain(h: Table, retries: nat): Table {
    if retries == 0 then h else Republished(Chain(h, retries - 1))
  }

  /** A message first published without a retry header carries the count r after r republishes, as
      long as that fits; the protocol never goes beyond five. */
  lemma {:induction false} ChainCounts(h: Table, r: nat)
    requires HEADER_RETRY !in h && r < TWO31
    ensures RetryCount(Chain(h, r)) == r && Chain(h, r) - {HEADER_RETRY} == h
  {
    if r > 0 {
      ChainCounts(h, r - 1);
      RepublishCounts(Chain(h, r - 1));
    } else {
      assert h - {HEADER_RETRY} == h;
    }
  }

  // ---- bindings ----------------------------------------------------------------------------------

  function ChannelName(ch: Channel): string {
    match ch
    case Sms => "sms"
    case Email => "email"
    case Push => "push"
  }

  function PriorityName(p: Priority): string {
    match p
    case High => "high"
    case Normal => "normal"
    case Low => "low"
  }

  function QueueOf(ch: Channel): string {
    match ch
    case Sms => "q.notify.sms"
    case Email => "q.notify.email"
    case Push => "q.notify.push"
  }

  function RoutingKey(ch: Channel, p: Priority): string {
    "notify." + ChannelName(ch) + "." + PriorityName(p)
  }

  datatype Binding = Binding(queue: string, key: string)

  const CHANNELS := [Sms, Email, Push]
  const PRIORITIES := [High, Normal, Low]

  method DeclareTopology() returns (bound: set<Binding>)
    ensures Declared(bound)
  {
    bound := {};
    for i := 0 to |CHANNELS|
      invariant forall b :: b in bound ==> exists ch, p :: b == Binding(QueueOf(ch), RoutingKey(ch, p))
      invariant forall k, p :: 0 <= k < i ==> Binding(QueueOf(CHANNELS[k]), RoutingKey(CHANNELS[k], p)) in bound
    {
      var ch := CHANNELS[i];
      for j := 0 to |PRIORITIES|
        invariant forall b :: b in bound ==> exists ch, p :: b == Binding(QueueOf(ch), RoutingKey(ch, p))
        invariant forall k, p :: 0 <= k < i ==> Binding(QueueOf(CHANNELS[k]), RoutingKey(CHANNELS[k], p)) in bound
        invariant forall k :: 0 <= k < j ==> Binding(QueueOf(ch), RoutingKey(ch, PRIORITIES[k])) in bound
      {
        bound := bound + {Binding(QueueOf(ch), RoutingKey(ch, PRIORITIES[j]))};
      }
      forall p ensures Binding(QueueOf(ch), RoutingKey(ch, p)) in bound {
        PriorityListed(p);
      }
    }
    forall ch, p ensures Binding(QueueOf(ch), RoutingKey(ch, p)) in bound {
      ChannelListed(ch);
    }
  }

  lemma PriorityListed(p: Priority)
    ensures exists k :: 0 <= k < |PRIORITIES| && PRIORITIES[k] == p
  {
    assert PRIORITIES[0] == High && PRIORITIES[1] == Normal && PRIORITIES[2] == Low;
  }

  lemma ChannelListed(ch: Channel)
    ensures exists k :: 0 <= k < |CHANNELS| && CHANNELS[k] == ch
  {
    assert CHANNELS[0] == Sms && CHANNELS[1] == Email && CHANNELS[2] == Push;
  }

  /** The topic exchange delivers to the queues bound with exactly this key; no key has a wildcard. */
  function RoutedTo(bound: set<Binding>, key: string): set<string> {
    set b | b in bound && b.key == key :: b.queue
  }

  lemma KeyTellsChannel(a: Channel, p: Priority, b: Channel, q: Priority)
    requires RoutingKey(a, p) == RoutingKey(b, q)
    ensures a == b
  {
    assert RoutingKey(a, p)[7] == ChannelName(a)[0];
    assert RoutingKey(b, q)[7] == ChannelName(b)[0];
  }

  lemma QueuesDiffer(a: Channel, b: Channel)
    requires QueueOf(a) == QueueOf(b)
    ensures a == b
  {
    assert QueueOf(a)[9] == QueueOf(b)[9];
  }

  lemma NoWildcards(ch: Channel, p: Priority)
    ensures '*' !in RoutingKey(ch, p) && '#' !in RoutingKey(ch, p)
  {
    assert '*' !in ChannelName(ch) && '#' !in ChannelName(ch);
    assert '*' !in PriorityName(p) && '#' !in PriorityName(p);
  }

  ghost predicate Declared(bound: set<Binding>) {
    forall b :: b in bound <==> exists ch, p :: b == Binding(QueueOf(ch), RoutingKey(ch, p))
  }

  /** Every message, first published or republished, reaches the queue of its own channel and no
      other, and different channels use different queues. */
  lemma RoutedToOwnQueue(bound: set<Binding>, ch: Channel, p: Priority, other: Channel)
    requires Declared(bound)
    ensures '*' !in RoutingKey(ch, p) && '#' !in RoutingKey(ch, p)
    ensures RoutedTo(bound, RoutingKey(ch, p)) == {QueueOf(ch)}
    ensures QueueOf(other) in RoutedTo(bound, RoutingKey(ch, p)) <==> other == ch
  {
    NoWildcards(ch, p);
    assert Binding(QueueOf(ch), RoutingKey(ch, p)) in bound;
    forall b | b in bound && b.key == RoutingKey(ch, p) ensures b.queue == QueueOf(ch) {
      var c, q :| b == Binding(QueueOf(c), RoutingKey(c, q));
      KeyTellsChannel(c, q, ch, p);
    }
    if QueueOf(other) == QueueOf(ch) {
      QueuesDiffer(other, ch);
    }
  }

  // ---- webhook answers -----------------------------------------------------------------------------

  /** How the answer's status code is classified; messageId is "" when the body has none. */
  function Classify(status: int, messageId: string): PostResult {
    if 200 <= status < 300 then Accepted(if messageId != "" then Some(messageId) else None)
    else if status == 429 then Transient
    else if 400 <= status < 500 then Permanent
    else Transient
  }

  /** An answer is retried exactly when it is neither a success nor a client error other than 429
      and retries are left; a success is recorded with its id; everything else fails the row. */
  lemma AnswerDecides(status: int, messageId: string, retry: nat)
    ensures
      var next := AfterPost(Classify(status, messageId), retry);
      var clientError := 400 <= status < 500 && status != 429;
      && (next.Marking? <==> 200 <= status < 300)
      && (next.Marking? ==> next.tries == 0 && next.mid == if messageId != "" then Some(messageId) else None)
      && (next.Waiting? <==> !(200 <= status < 300) && !clientError && retry < MAX_WEBHOOK_RETRIES)
      && (next == Failing(true) <==> !(200 <= status < 300) && (clientError || retry >= MAX_WEBHOOK_RETRIES))
  {
  }
}
