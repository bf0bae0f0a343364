/**
 * The shape of one decoded poll response: a JSON object mapping client ids to
 * their traffic stats. A JSON object is kept as an association list in the
 * order `Object.keys` enumerates it, because that order becomes the chart's
 * label order.
 */
module Traffic {
  import opened Wrappers

  /** A decoded JSON object: (key, value) pairs in enumeration order. */
  type Table<V> = seq<(string, V)>

  datatype ProtocolStats = ProtocolStats(inbound: nat, outbound: nat)

  /** `protocols` may be missing from a client's record. */
  datatype ClientStats = ClientStats(inbound: nat, outbound: nat, protocols: Option<Table<ProtocolStats>>)

  /** client id (an IP address) -> stats */
  type Snapshot = Table<ClientStats>

  /** `Object.keys(t)` */
  function Keys<V>(t: Table<V>): (ks: seq<string>)
    ensures |ks| == |t|
    ensures forall i :: 0 <= i < |t| ==> ks[i] == t[i].0
  {
    if t == [] then [] else [t[0].0] + Keys(t[1..])
  }

  /** `t[k]`: the value stored under key k, if there is one. */
  function Get<V>(t: Table<V>, k: string): (r: Option<V>)
    ensures r.Some? <==> k in Keys(t)
    ensures r.Some? ==> (k, r.value) in t
  {
    if t == [] then None
    else if t[0].0 == k then Some(t[0].1)
    else
      assert t == [t[0]] + t[1..];
      Get(t[1..], k)
  }

  /** The keys of a JSON object are pairwise distinct. */
  ghost predicate DistinctKeys<V>(t: Table<V>) {
    forall i, j :: 0 <= i < j < |t| ==> t[i].0 != t[j].0
  }

  /** What a decoded snapshot always satisfies: distinct keys at both levels. */
  ghost predicate WellFormed(s: Snapshot) {
    && DistinctKeys(s)
    && forall e :: e in s && e.1.protocols.Some? ==> DistinctKeys(e.1.protocols.value)
  }

  /** With distinct keys, looking up the i-th key finds the i-th value. */
  lemma GetAt<V>(t: Table<V>, i: nat)
    requires DistinctKeys(t) && i < |t|
    ensures Get(t, t[i].0) == Some(t[i].1)
  {
  }
}
