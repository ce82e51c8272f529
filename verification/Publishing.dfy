/** `publish_selected` of crates/crikey-app/src/lib.rs: one owner's rows in legal batches,
    each of which the aggregator takes or refuses.
 */
module Publishing {

  datatype BatchState = Partial | Final

  /** One batch put to the aggregator, and whether it was taken. */
  datatype Sent<T> = Sent(items: seq<T>, state: BatchState, accepted: bool)

  /** Concatenation of what a list of batches carries. */
  ghost function Concatenated<T>(sent: seq<Sent<T>>): (r: seq<T>) {
    if sent == [] then [] else Concatenated(sent[..|sent| - 1]) + sent[|sent| - 1].items
  }

  lemma BatchTaken<T>(sent: seq<Sent<T>>, remaining: seq<T>, take: nat, state: BatchState, accepted: bool)
    requires take <= |remaining|
    ensures Concatenated(sent + [Sent(remaining[..take], state, accepted)]) + remaining[take..]
            == Concatenated(sent) + remaining
  {
    assert (sent + [Sent(remaining[..take], state, accepted)])[..|sent|] == sent;
    assert remaining == remaining[..take] + remaining[take..];
  }

  /** The batch that carries the end of the stream: the last, or the one before an empty
      closing batch. */
  function EndOf<T>(sent: seq<Sent<T>>): (end: nat)
    requires sent != []
    ensures end < |sent|
  {
    if |sent| > 1 && |sent[|sent| - 1].items| == 0 then |sent| - 2 else |sent| - 1
  }

  /** Legal batches carrying `items` in order; exactly those from the end on are final, and
      an empty one closes the stream again exactly when a refused one carried the end. */
  ghost predicate Stream<T>(plugin: string, sent: seq<Sent<T>>, items: seq<T>, limit: nat,
                            accepts: (string, nat) -> bool) {
    && sent != [] && Concatenated(sent) == (if limit == 0 then [] else items)
    && (forall i | 0 <= i < |sent| :: |sent[i].items| <= limit && sent[i].accepted == accepts(plugin, i))
    && (forall i | 0 <= i < |sent| :: sent[i].state == Final <==> EndOf(sent) <= i)
    && (forall i | 0 <= i < |sent| && sent[i].items == [] :: i == |sent| - 1)
    && (|sent| == EndOf(sent) + 2 <==> sent[EndOf(sent)].items != [] && !sent[EndOf(sent)].accepted)
  }

  /** Each batch holds something, within the limit, and was put to the aggregator. */
  ghost predicate Legal<T>(plugin: string, sent: seq<Sent<T>>, limit: nat, accepts: (string, nat) -> bool) {
    forall i | 0 <= i < |sent| :: 0 < |sent[i].items| <= limit && sent[i].accepted == accepts(plugin, i)
  }

  /** No batch is final but the last, and that one only at the end. */
  ghost predicate Marked<T>(sent: seq<Sent<T>>, ended: bool) {
    forall i | 0 <= i < |sent| :: sent[i].state == Final <==> ended && i == |sent| - 1
  }

  lemma MarkedNext<T>(sent: seq<Sent<T>>, batch: Sent<T>)
    requires Marked(sent, false)
    ensures Marked(sent + [batch], batch.state == Final)
  {
  }

  /** Chunks carrying all of `items`. */
  ghost predicate Chunks<T>(plugin: string, sent: seq<Sent<T>>, items: seq<T>, limit: nat,
                            accepts: (string, nat) -> bool) {
    sent != [] && Concatenated(sent) == items && Legal(plugin, sent, limit, accepts) && Marked(sent, true)
  }

  lemma ChunksEnd<T>(plugin: string, sent: seq<Sent<T>>, items: seq<T>, limit: nat, accepts: (string, nat) -> bool)
    requires Chunks(plugin, sent, items, limit, accepts)
    ensures sent[|sent| - 1].accepted ==> Stream(plugin, sent, items, limit, accepts)
    ensures !sent[|sent| - 1].accepted ==>
              Stream(plugin, sent + [Sent([], Final, accepts(plugin, |sent|))], items, limit, accepts)
  {
    BatchTaken(sent, [], 0, Final, accepts(plugin, |sent|));
  }

  /** `publish_selected`: always ends the plugin's stream, once more if its closing batch is refused. */
  method PublishSelected<T>(plugin: string, items: seq<T>, batchLimit: nat, accepts: (string, nat) -> bool)
    returns (sent: seq<Sent<T>>)
    ensures Stream(plugin, sent, items, batchLimit, accepts)
  {
    if |items| == 0 || batchLimit == 0 {
      return [Sent([], Final, accepts(plugin, 0))];
    }
    sent := SendChunks(plugin, items, batchLimit, accepts);
    ChunksEnd(plugin, sent, items, batchLimit, accepts);
    if !sent[|sent| - 1].accepted {
      sent := sent + [Sent([], Final, accepts(plugin, |sent|))];
    }
  }

  /** How far the loop has got: all but `remaining` is sent. */
  ghost predicate Sending<T>(plugin: string, sent: seq<Sent<T>>, remaining: seq<T>, items: seq<T>, limit: nat,
                             accepts: (string, nat) -> bool) {
    Concatenated(sent) + remaining == items && Legal(plugin, sent, limit, accepts) && Marked(sent, remaining == [])
  }

  lemma SendingNext<T>(plugin: string, sent: seq<Sent<T>>, remaining: seq<T>, items: seq<T>, limit: nat,
                       accepts: (string, nat) -> bool, take: nat)
    requires Sending(plugin, sent, remaining, items, limit, accepts) && 0 < take <= limit && take <= |remaining|
    ensures var state := if take == |remaining| then Final else Partial;
            Sending(plugin, sent + [Sent(remaining[..take], state, accepts(plugin, |sent|))], remaining[take..],
                    items, limit, accepts)
  {
    var state := if take == |remaining| then Final else Partial;
    BatchTaken(sent, remaining, take, state, accepts(plugin, |sent|));
    MarkedNext(sent, Sent(remaining[..take], state, accepts(plugin, |sent|)));
  }

  method SendChunks<T>(plugin: string, items: seq<T>, batchLimit: nat, accepts: (string, nat) -> bool)
    returns (sent: seq<Sent<T>>)
    requires items != [] && batchLimit > 0
    ensures Chunks(plugin, sent, items, batchLimit, accepts)
  {
    var remaining := items;
    sent := [];
    while remaining != []
      invariant Sending(plugin, sent, remaining, items, batchLimit, accepts)
      invariant remaining == [] ==> sent != []
      decreases |remaining|
    {
      var take := if batchLimit < |remaining| then batchLimit else |remaining|;
      var state := if take == |remaining| then Final else Partial;
      SendingNext(plugin, sent, remaining, items, batchLimit, accepts, take);
      sent := sent + [Sent(remaining[..take], state, accepts(plugin, |sent|))];
      remaining := remaining[take..];
    }
  }

  /** What a list of batches carries is in one of them. */
  lemma {:induction false} CarriedBySome<T>(sent: seq<Sent<T>>, x: T) returns (i: nat)
    requires x in Concatenated(sent)
    ensures i < |sent| && x in sent[i].items
  {
    var last := |sent| - 1;
    if x in sent[last].items {
      i := last;
    } else {
      i := CarriedBySome(sent[..last], x);
    }
  }
}
