/** What a log says was executed: the payload digests of its executed=True entries. */
module AuditDigests {
  import opened Basics
  import opened Values
  import opened Fingerprint
  import opened Kernel
  import opened HashChain

  function PayloadDigest(payload: Payload): Digest {
    Sha256(Encode(Dict(payload)))
  }

  /** The digest an entry adds: its own, when it says an effect ran. */
  function DigestsOf(c: Content): seq<Digest> {
    if c.executed == Some(true) && c.payloadDigest.Some? then [c.payloadDigest.value] else []
  }

  function ExecutedDigests(es: seq<Entry>): seq<Digest> {
    if es == [] then [] else ExecutedDigests(es[..|es| - 1]) + DigestsOf(es[|es| - 1].body.content)
  }

  function LogLines(log: LogState): seq<Line> {
    if log.disk.Some? then log.disk.value else []
  }

  function LoggedDigests(log: LogState): seq<Digest> {
    ExecutedDigests(Entries(LogLines(log)))
  }

  lemma RecordedDigests(log: LogState, ts: string, content: Content)
    ensures LoggedDigests(Recorded(log, ts, content)) == LoggedDigests(log) + DigestsOf(content)
  {
  }

  /** A log that verifies, or no file yet, held open at its head. */
  ghost predicate OpenAndSound(log: LogState) {
    Sound(log.disk) && log == Opened(log.disk)
  }

  // ---- subsequences

  /** The elements of `xs` that `kept` marks, in order. */
  function Pick<T>(xs: seq<T>, kept: seq<bool>): seq<T>
    requires |xs| == |kept|
  {
    if xs == [] then [] else Pick(xs[..|xs| - 1], kept[..|xs| - 1]) + if kept[|xs| - 1] then [xs[|xs| - 1]] else []
  }

  lemma {:induction false} PickAdds<T>(xs: seq<T>, ys: seq<T>, kept: seq<bool>, more: seq<bool>)
    requires |xs| == |kept| && |ys| == |more|
    ensures Pick(xs + ys, kept + more) == Pick(xs, kept) + Pick(ys, more)
  {
    if ys == [] {
      assert xs + ys == xs && kept + more == kept;
    } else {
      var n := |ys| - 1;
      assert (xs + ys)[..|xs + ys| - 1] == xs + ys[..n] && (kept + more)[..|xs + ys| - 1] == kept + more[..n];
      PickAdds(xs, ys[..n], kept, more[..n]);
    }
  }

  /** Nothing is left out exactly when everything is marked. */
  lemma {:induction false} PickAll<T>(xs: seq<T>, kept: seq<bool>)
    requires |xs| == |kept|
    ensures |Pick(xs, kept)| <= |xs|
    ensures Pick(xs, kept) == xs <==> forall i :: 0 <= i < |kept| ==> kept[i]
  {
    if xs != [] {
      var n := |xs| - 1;
      PickAll(xs[..n], kept[..n]);
      assert xs == xs[..n] + [xs[n]];
      assert (forall i :: 0 <= i < |kept| ==> kept[i]) <==> (forall i :: 0 <= i < n ==> kept[..n][i]) && kept[n];
    }
  }
}
