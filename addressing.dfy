/** Queue names and routing keys used to bind to the `notifications` exchange. */
module Addressing {
  import opened Common
  import opened Config

  const QUEUE_PREFIX: string := "queue_"
  const IP_PREFIX: string := "ip_"

  /** How an f-string renders the token: `None` is written as the text `None`. */
  function PyStr(t: Token): (s: string)
    ensures t.Some? ==> s == t.value
    ensures t.None? ==> s == "None"
  {
    match t
    case None => "None"
    case Some(v) => v
  }

  /** `f'queue_{token}'`: the prefix followed by the rendered token. */
  function QueueName(t: Token): (q: string)
    ensures |q| >= |QUEUE_PREFIX| && q[..|QUEUE_PREFIX|] == QUEUE_PREFIX
    ensures q[|QUEUE_PREFIX|..] == PyStr(t)
  {
    QUEUE_PREFIX + PyStr(t)
  }

  /** Distinct tokens give distinct queues. */
  lemma QueueNameInjective(a: string, b: string)
    ensures QueueName(Some(a)) == QueueName(Some(b)) <==> a == b
  {
    if QueueName(Some(a)) == QueueName(Some(b)) {
      assert a == QueueName(Some(a))[|QUEUE_PREFIX|..];
    }
  }

  /** An unset token renders like the token `"None"`, so both bind the same queue. */
  lemma UnsetTokenQueueCollides()
    ensures QueueName(None) == QueueName(Some("None"))
  {
  }

  /** `s.replace('.', '_')`. */
  function ReplaceDots(s: string): (r: string)
    ensures |r| == |s|
    ensures forall i :: 0 <= i < |s| ==> r[i] == (if s[i] == '.' then '_' else s[i])
  {
    if s == [] then [] else [if s[0] == '.' then '_' else s[0]] + ReplaceDots(s[1..])
  }

  /**
   * `f"ip_{ip.replace('.', '_')}"` of the two older clients: no dot survives,
   * three characters are added, and every other character keeps its place.
   */
  function IpRoutingKey(ip: string): (k: string)
    ensures |k| == |ip| + 3 && k[..3] == IP_PREFIX
    ensures '.' !in k
    ensures forall i :: 0 <= i < |ip| && ip[i] != '.' ==> k[i + 3] == ip[i]
    ensures forall i :: 0 <= i < |ip| && ip[i] == '.' ==> k[i + 3] == '_'
  {
    var k := IP_PREFIX + ReplaceDots(ip);
    assert forall i :: 3 <= i < |k| ==> k[i] == ReplaceDots(ip)[i - 3];
    k
  }

  /** With its configured DEBUG flag the PySide client always binds `ip_127_0_0_1`. */
  lemma PySideRoutingKey(resolved: string)
    ensures IpRoutingKey(LocalIp(PYSIDE_DEBUG, resolved)) == "ip_127_0_0_1"
  {
    LoopbackDotsReplaced();
    RoutingKeyOfLoopback(LocalIp(PYSIDE_DEBUG, resolved));
  }

  /** Dafny evaluates `ReplaceDots` on the literal address by itself. */
  lemma LoopbackDotsReplaced()
    ensures ReplaceDots(LOOPBACK) == "127_0_0_1"
  {
  }

  lemma RoutingKeyOfLoopback(ip: string)
    requires ReplaceDots(ip) == "127_0_0_1"
    ensures IpRoutingKey(ip) == "ip_127_0_0_1"
  {
  }
}
