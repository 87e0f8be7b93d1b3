/**
 * The bulk push-notification endpoint (`POST /api/notifications`): it splits
 * the posted notifications into provider-sized chunks, sends the chunks in
 * waves of bounded size, and totals the per-chunk outcomes.
 *
 * The provider call is an oracle: `oracle(k)` is what the push gateway does
 * with the k-th chunk (accepts it, answers with a non-OK status, or the call
 * throws). The waves run their chunks concurrently in the endpoint; since the
 * totals are sums, the model runs them one after another, in index order.
 */
module Notifications {
  import opened Wrappers

  /** Provider's per-call maximum; also what a failed chunk adds to `failed`. */
  const ExpoBatchLimit: nat := 100
  /** Number of chunks sent together in one wave. */
  const ConcurrentLimit: nat := 20

  datatype NotificationPayload =
    NotificationPayload(to: string, title: string, body: string, data: map<string, string>)

  function Min(a: int, b: int): int
  {
    if a <= b then a else b
  }

  /** `ceil(n / d)` on naturals. */
  function CeilDiv(n: nat, d: nat): nat
    requires d > 0
  {
    (n + d - 1) / d
  }

  /** `c` is the least count of `d`-sized pieces that covers `n`. */
  predicate IsCeilDiv(c: nat, n: nat, d: nat)
  {
    n <= c * d && (c == 0 || (c - 1) * d < n)
  }

  /** For the provider's limit the defining inequalities pin down `CeilDiv`. */
  lemma CeilDivLimit(c: nat, n: nat)
    requires IsCeilDiv(c, n, ExpoBatchLimit)
    ensures c == CeilDiv(n, ExpoBatchLimit)
  {
  }

  // ---------------------------------------------------------------------
  // chunkArray

  /** The partition `chunkArray` computes: consecutive slices of `size`, the last one possibly shorter. */
  function Chunks<T>(a: seq<T>, size: nat): seq<seq<T>>
    requires size > 0
    decreases |a|
  {
    if |a| == 0 then []
    else
      var k := Min(size, |a|);
      [a[..k]] + Chunks(a[k..], size)
  }

  /** Concatenation of the chunks, in order. */
  function Flatten<T>(cs: seq<seq<T>>): seq<T>
  {
    if |cs| == 0 then [] else Flatten(cs[..|cs| - 1]) + cs[|cs| - 1]
  }

  /** Every chunk is non-empty and at most `size` long; all but the last are exactly `size`. */
  predicate WellChunked<T>(cs: seq<seq<T>>, size: nat)
  {
    && (forall k :: 0 <= k < |cs| ==> 0 < |cs[k]| <= size)
    && (forall k :: 0 <= k < |cs| - 1 ==> |cs[k]| == size)
  }

  lemma {:induction false} FlattenAppend<T>(xs: seq<seq<T>>, ys: seq<seq<T>>)
    ensures Flatten(xs + ys) == Flatten(xs) + Flatten(ys)
    decreases |ys|
  {
    if |ys| == 0 {
      assert xs + ys == xs;
    } else {
      var ys' := ys[..|ys| - 1];
      assert (xs + ys)[..|xs + ys| - 1] == xs + ys';
      FlattenAppend(xs, ys');
    }
  }

  /** Flattening the partition gives back the input, element for element and in order. */
  lemma {:induction false} ChunksFlatten<T>(a: seq<T>, size: nat)
    requires size > 0
    ensures Flatten(Chunks(a, size)) == a
    decreases |a|
  {
    if |a| > 0 {
      var k := Min(size, |a|);
      ChunksFlatten(a[k..], size);
      FlattenAppend([a[..k]], Chunks(a[k..], size));
      assert Flatten([a[..k]]) == a[..k] by {
        assert [a[..k]][..0] == [];
      }
      assert a[..k] + a[k..] == a;
    }
  }

  /** One step of the partition: the first chunk is the first `min(size, |a|)` elements. */
  lemma ChunksStep<T>(a: seq<T>, i: nat, size: nat)
    requires size > 0 && i < |a|
    ensures Chunks(a[i..], size) == [a[i..Min(i + size, |a|)]] + Chunks(a[Min(i + size, |a|)..], size)
  {
    var rest, end := a[i..], Min(i + size, |a|);
    assert rest[..end - i] == a[i..end] && rest[end - i..] == a[end..];
  }

  /** Covering `d` more elements takes exactly one more piece. */
  lemma CeilDivStep(c: nat, n: nat, d: nat)
    requires d > 0 && IsCeilDiv(c, n, d)
    ensures IsCeilDiv(c + 1, n + d, d)
  {
    assert (c + 1) * d == c * d + d;
    if c > 0 {
      assert c * d == (c - 1) * d + d;
    }
  }

  /** A full chunk in front of a well-formed partition keeps it well formed. */
  lemma WellChunkedCons<T>(x: seq<T>, cs: seq<seq<T>>, size: nat)
    requires |x| == size && size > 0 && WellChunked(cs, size)
    ensures WellChunked([x] + cs, size)
  {
    var xs := [x] + cs;
    forall k | 0 <= k < |xs| ensures 0 < |xs[k]| <= size {
      if k > 0 { assert xs[k] == cs[k - 1]; }
    }
    forall k | 0 <= k < |xs| - 1 ensures |xs[k]| == size {
      if k > 0 { assert xs[k] == cs[k - 1]; }
    }
  }

  /**
   * Shape of the partition; its length `c` is `ceil(|a| / size)`, given by
   * the ceiling's defining inequalities `(c - 1) * size < |a| <= c * size`.
   */
  lemma {:induction false} ChunksShape<T>(a: seq<T>, size: nat)
    requires size > 0
    ensures WellChunked(Chunks(a, size), size)
    ensures IsCeilDiv(|Chunks(a, size)|, |a|, size)
    decreases |a|
  {
    if |a| > 0 && |a| <= size {
      assert a[..|a|] == a;
      assert Chunks(a[|a|..], size) == [];
      assert Chunks(a, size) == [a];
      assert 1 * size == size;
    } else if |a| > size {
      var rest := a[size..];
      ChunksShape(rest, size);
      assert Chunks(a, size) == [a[..size]] + Chunks(rest, size);
      WellChunkedCons(a[..size], Chunks(rest, size), size);
      CeilDivStep(|Chunks(rest, size)|, |rest|, size);
    }
  }

  /** Where chunk `w` starts, counted in steps of `size`; equal to `w * size`. */
  function Offset(w: nat, size: nat): nat
  {
    if w == 0 then 0 else Offset(w - 1, size) + size
  }

  lemma {:induction false} OffsetIsProduct(w: nat, size: nat)
    ensures Offset(w, size) == w * size
  {
    if w > 0 {
      OffsetIsProduct(w - 1, size);
      assert w * size == (w - 1) * size + size;
    }
  }

  /** Chunk `w` is the slice that starts at `w * size`: the `i`-th iteration of the loop pushes `a[i..i + size]`. */
  lemma ChunkAt<T>(a: seq<T>, size: nat, w: nat)
    requires size > 0 && w < |Chunks(a, size)|
    ensures w * size < |a| && Chunks(a, size)[w] == a[w * size..Min(w * size + size, |a|)]
  {
    ChunkAtOffset(a, size, w);
    OffsetIsProduct(w, size);
  }

  lemma {:induction false} ChunkAtOffset<T>(a: seq<T>, size: nat, w: nat)
    requires size > 0 && w < |Chunks(a, size)|
    ensures Offset(w, size) < |a|
    ensures Chunks(a, size)[w] == a[Offset(w, size)..Min(Offset(w, size) + size, |a|)]
    decreases w
  {
    var cs := Chunks(a, size);
    if |a| <= size {
      assert a[..|a|] == a && a[|a|..] == [];
      assert cs == [a];
    } else {
      var rest := a[size..];
      assert cs == [a[..size]] + Chunks(rest, size);
      if w > 0 {
        ChunkAtOffset(rest, size, w - 1);
        var lo' := Offset(w - 1, size);
        DropSlice(a, size, lo', Min(lo' + size, |rest|));
      }
    }
  }

  lemma DropSlice<T>(a: seq<T>, k: nat, i: nat, j: nat)
    requires i <= j && k + j <= |a|
    ensures a[k..][i..j] == a[k + i..k + j]
  {
  }

  /** Every chunk, by index. */
  lemma ChunksIndexed<T>(a: seq<T>, size: nat)
    requires size > 0
    ensures forall w :: 0 <= w < |Chunks(a, size)| ==>
      w * size < |a| && Chunks(a, size)[w] == a[w * size..Min(w * size + size, |a|)]
  {
    forall w | 0 <= w < |Chunks(a, size)|
      ensures w * size < |a| && Chunks(a, size)[w] == a[w * size..Min(w * size + size, |a|)]
    {
      ChunkAt(a, size, w);
    }
  }

  /**
   * `chunkArray(array, size)`: an index loop that pushes `array.slice(i, i + size)`
   * for `i = 0, size, 2*size, ...` while `i < array.length`.
   */
  method ChunkArray<T>(a: seq<T>, size: nat) returns (chunks: seq<seq<T>>)
    requires size > 0
    ensures chunks == Chunks(a, size)
    ensures Flatten(chunks) == a
    ensures WellChunked(chunks, size)
    ensures IsCeilDiv(|chunks|, |a|, size)
  {
    chunks := [];
    var i: nat := 0;
    while i < |a|
      invariant chunks + Chunks(a[Min(i, |a|)..], size) == Chunks(a, size)
      decreases |a| - i
    {
      var end := Min(i + size, |a|);
      ChunksStep(a, i, size);
      chunks := chunks + [a[i..end]];
      i := i + size;
      assert Min(i, |a|) == end;
    }
    assert a[|a|..] == [];
    ChunksFlatten(a, size);
    ChunksShape(a, size);
  }

  // ---------------------------------------------------------------------
  // sendBatch

  /** What the push gateway does with one chunk. */
  datatype ProviderOutcome =
    | Accepted                  // `response.ok`
    | Refused(result: string)   // a non-OK status; `result` is the JSON text of the reply
    | Threw(message: string)    // `fetch` or reading the reply threw

  datatype BatchResult = BatchResult(success: bool, sent: nat, error: Option<string>)

  /**
   * `sendBatch(notifications)`: success with `sent` = the chunk's length when the
   * gateway accepts; otherwise failure with `sent` = 0 and the reason.
   */
  function SendBatch<T>(chunk: seq<T>, outcome: ProviderOutcome): (r: BatchResult)
    ensures r.success <==> outcome.Accepted?
    ensures r.success ==> r.sent == |chunk| && r.error == None
    ensures !r.success ==> r.sent == 0 && r.error.Some?
    ensures outcome.Refused? ==> r.error == Some(outcome.result)
    ensures outcome.Threw? ==> r.error == Some(outcome.message)
  {
    match outcome
    case Accepted => BatchResult(true, |chunk|, None)
    case Refused(result) => BatchResult(false, 0, Some(result))
    case Threw(message) => BatchResult(false, 0, Some(message))
  }

  // ---------------------------------------------------------------------
  // Totals of the wave loop

  predicate Delivered(oracle: nat -> ProviderOutcome, k: nat)
  {
    oracle(k).Accepted?
  }

  /** `totalSent` after the first `|cs|` chunks: each adds its `result.sent`. */
  function SentTotal<T>(cs: seq<seq<T>>, oracle: nat -> ProviderOutcome): nat
  {
    if |cs| == 0 then 0
    else SentTotal(cs[..|cs| - 1], oracle) + SendBatch(cs[|cs| - 1], oracle(|cs| - 1)).sent
  }

  /** `totalFailed` after the first `|cs|` chunks: each failed chunk adds `EXPO_BATCH_LIMIT`. */
  function FailedTotal<T>(cs: seq<seq<T>>, oracle: nat -> ProviderOutcome): nat
  {
    if |cs| == 0 then 0
    else FailedTotal(cs[..|cs| - 1], oracle)
         + (if SendBatch(cs[|cs| - 1], oracle(|cs| - 1)).success then 0 else ExpoBatchLimit)
  }

  /** Number of chunks among the first `|cs|` that the gateway did not accept. */
  function FailedChunks<T>(cs: seq<seq<T>>, oracle: nat -> ProviderOutcome): nat
  {
    if |cs| == 0 then 0
    else FailedChunks(cs[..|cs| - 1], oracle) + (if Delivered(oracle, |cs| - 1) then 0 else 1)
  }

  /** Total length of the chunks the gateway accepted. */
  function DeliveredLength<T>(cs: seq<seq<T>>, oracle: nat -> ProviderOutcome): nat
  {
    if |cs| == 0 then 0
    else DeliveredLength(cs[..|cs| - 1], oracle) + (if Delivered(oracle, |cs| - 1) then |cs[|cs| - 1]| else 0)
  }

  /** How far short of `EXPO_BATCH_LIMIT` the failed chunks are, summed. */
  function Overcount<T>(cs: seq<seq<T>>, oracle: nat -> ProviderOutcome): int
  {
    if |cs| == 0 then 0
    else Overcount(cs[..|cs| - 1], oracle)
         + (if Delivered(oracle, |cs| - 1) then 0 else ExpoBatchLimit - |cs[|cs| - 1]|)
  }

  /** `totalSent` is the summed length of the accepted chunks, hence at most the input length. */
  lemma {:induction false} SentIsDeliveredLength<T>(cs: seq<seq<T>>, oracle: nat -> ProviderOutcome)
    ensures SentTotal(cs, oracle) == DeliveredLength(cs, oracle)
    ensures SentTotal(cs, oracle) <= |Flatten(cs)|
  {
    if |cs| > 0 {
      SentIsDeliveredLength(cs[..|cs| - 1], oracle);
    }
  }

  /** `totalFailed` is `EXPO_BATCH_LIMIT` times the number of failed chunks. */
  lemma {:induction false} FailedIsLimitPerFailure<T>(cs: seq<seq<T>>, oracle: nat -> ProviderOutcome)
    ensures FailedTotal(cs, oracle) == ExpoBatchLimit * FailedChunks(cs, oracle)
  {
    if |cs| > 0 {
      FailedIsLimitPerFailure(cs[..|cs| - 1], oracle);
    }
  }

  /** `sent + failed` exceeds the number of notifications by exactly the overcount. */
  lemma {:induction false} TotalsBalance<T>(cs: seq<seq<T>>, oracle: nat -> ProviderOutcome)
    ensures SentTotal(cs, oracle) + FailedTotal(cs, oracle) == |Flatten(cs)| + Overcount(cs, oracle)
  {
    if |cs| > 0 {
      TotalsBalance(cs[..|cs| - 1], oracle);
    }
  }

  /** Chunks that are all exactly `EXPO_BATCH_LIMIT` long are never overcounted. */
  lemma {:induction false} FullChunksNoOvercount<T>(cs: seq<seq<T>>, oracle: nat -> ProviderOutcome)
    requires forall k :: 0 <= k < |cs| ==> |cs[k]| == ExpoBatchLimit
    ensures Overcount(cs, oracle) == 0
  {
    if |cs| > 0 {
      FullChunksNoOvercount(cs[..|cs| - 1], oracle);
    }
  }

  /** When every chunk is accepted nothing is overcounted and nothing is counted as failed. */
  lemma {:induction false} AllDeliveredTotals<T>(cs: seq<seq<T>>, oracle: nat -> ProviderOutcome)
    requires forall k :: 0 <= k < |cs| ==> Delivered(oracle, k)
    ensures SentTotal(cs, oracle) == |Flatten(cs)|
    ensures FailedTotal(cs, oracle) == 0
  {
    if |cs| > 0 {
      AllDeliveredTotals(cs[..|cs| - 1], oracle);
      assert Delivered(oracle, |cs| - 1);
    }
  }

  /** With chunks of at most `EXPO_BATCH_LIMIT`, `sent + failed` is at most `EXPO_BATCH_LIMIT` per chunk. */
  lemma {:induction false} TotalsAtMostLimitPerChunk<T>(cs: seq<seq<T>>, oracle: nat -> ProviderOutcome)
    requires forall k :: 0 <= k < |cs| ==> |cs[k]| <= ExpoBatchLimit
    ensures SentTotal(cs, oracle) + FailedTotal(cs, oracle) <= ExpoBatchLimit * |cs|
  {
    if |cs| > 0 {
      TotalsAtMostLimitPerChunk(cs[..|cs| - 1], oracle);
    }
  }

  /** Taking one more chunk into the totals. */
  lemma TotalsStep<T>(cs: seq<seq<T>>, m: nat, oracle: nat -> ProviderOutcome)
    requires m < |cs|
    ensures SentTotal(cs[..m + 1], oracle) == SentTotal(cs[..m], oracle) + SendBatch(cs[m], oracle(m)).sent
    ensures FailedTotal(cs[..m + 1], oracle)
            == FailedTotal(cs[..m], oracle) + (if SendBatch(cs[m], oracle(m)).success then 0 else ExpoBatchLimit)
  {
    assert cs[..m + 1][..m] == cs[..m];
  }

  // ---------------------------------------------------------------------
  // POST

  /** What `request.json()` gives for the posted body. */
  datatype RequestBody =
    | Parsed(notifications: seq<NotificationPayload>)  // a JSON array
    | ParsedNull         // `null`: reading its `length` throws
    | ParsedWithoutLength // a number, a boolean or an object without `length`: `length` is undefined
    // a non-array object whose `length` passes `0 < length` once JavaScript converts it to a number
    // (a positive number, a numeric string such as "5", `true`): it has no `slice`, so chunking throws
    | ParsedUnsliceable
    | Unparsable         // `request.json()` rejects

  /** `total` is absent when the body had no `length`: `undefined` is dropped from the JSON reply. */
  datatype Response =
    | Summary(success: bool, sent: nat, failed: nat, total: Option<nat>)   // status 200
    | ServerError(status: nat, error: string)

  /**
   * One wave: the chunks `chunks[start..end]` are sent and their results added
   * to the running totals, as the loop over `batchResults` does. The ghost
   * result `sent` logs each chunk handed to `SendOne`, and so to `SendBatch`,
   * in call order.
   */
  method SendWave(chunks: seq<seq<NotificationPayload>>, start: nat, end: nat, oracle: nat -> ProviderOutcome,
                  sentBefore: nat, failedBefore: nat)
    returns (totalSent: nat, totalFailed: nat, ghost sent: seq<seq<NotificationPayload>>)
    requires start <= end <= |chunks|
    requires sentBefore == SentTotal(chunks[..start], oracle)
    requires failedBefore == FailedTotal(chunks[..start], oracle)
    ensures totalSent == SentTotal(chunks[..end], oracle)
    ensures totalFailed == FailedTotal(chunks[..end], oracle)
    ensures sent == chunks[start..end]
  {
    var batch := chunks[start..end];
    totalSent, totalFailed := sentBefore, failedBefore;
    sent := [];
    for j := 0 to |batch|
      invariant totalSent == SentTotal(chunks[..start + j], oracle)
      invariant totalFailed == FailedTotal(chunks[..start + j], oracle)
      invariant sent == batch[..j]
    {
      var chunk := batch[j];
      totalSent, totalFailed := SendOne(chunks, start + j, chunk, oracle, totalSent, totalFailed);
      LogStep(batch, j, sent);
      sent := sent + [chunk];
    }
    assert batch[..|batch|] == batch;
  }

  /** Sending `chunk`, chunk `k`, and adding its result takes the totals of `chunks[..k]` to those of `chunks[..k + 1]`. */
  method SendOne(chunks: seq<seq<NotificationPayload>>, k: nat, chunk: seq<NotificationPayload>,
                 oracle: nat -> ProviderOutcome, sentBefore: nat, failedBefore: nat)
    returns (totalSent: nat, totalFailed: nat)
    requires k < |chunks| && chunk == chunks[k]
    requires sentBefore == SentTotal(chunks[..k], oracle)
    requires failedBefore == FailedTotal(chunks[..k], oracle)
    ensures totalSent == SentTotal(chunks[..k + 1], oracle)
    ensures totalFailed == FailedTotal(chunks[..k + 1], oracle)
  {
    var result := SendBatch(chunk, oracle(k));
    TotalsStep(chunks, k, oracle);
    totalSent, totalFailed := sentBefore, failedBefore;
    if result.success {
      totalSent := totalSent + result.sent;
    } else {
      totalFailed := totalFailed + ExpoBatchLimit;
    }
  }

  /** Logging the next chunk extends the logged prefix by one. */
  lemma LogStep<T>(batch: seq<T>, j: nat, sent: seq<T>)
    requires j < |batch| && sent == batch[..j]
    ensures sent + [batch[j]] == batch[..j + 1]
  {
  }

  /**
   * The loop of `POST` over the waves: `chunks` taken 20 at a time, each wave
   * sent and its results added to the running totals. The ghost result
   * `waves` records, wave by wave, the chunks `SendWave` handed to
   * `SendBatch`, so `Flatten(waves)` is the chunk list: every
   * chunk is sent once, in index order, in waves of at most 20.
   */
  method SendAll(chunks: seq<seq<NotificationPayload>>, oracle: nat -> ProviderOutcome)
    returns (totalSent: nat, totalFailed: nat, ghost waves: seq<seq<seq<NotificationPayload>>>)
    ensures totalSent == SentTotal(chunks, oracle) && totalFailed == FailedTotal(chunks, oracle)
    ensures waves == Chunks(chunks, ConcurrentLimit)
  {
    totalSent, totalFailed := 0, 0;
    waves := [];
    var i: nat := 0;
    while i < |chunks|
      invariant totalSent == SentTotal(chunks[..Min(i, |chunks|)], oracle)
      invariant totalFailed == FailedTotal(chunks[..Min(i, |chunks|)], oracle)
      invariant waves + Chunks(chunks[Min(i, |chunks|)..], ConcurrentLimit) == Chunks(chunks, ConcurrentLimit)
      decreases |chunks| - i
    {
      var end := Min(i + ConcurrentLimit, |chunks|);
      ghost var wave: seq<seq<NotificationPayload>>;
      totalSent, totalFailed, wave := SendWave(chunks, i, end, oracle, totalSent, totalFailed);
      ChunksStep(chunks, i, ConcurrentLimit);
      waves := waves + [wave];
      i := i + ConcurrentLimit;
      assert Min(i, |chunks|) == end;
    }
    assert chunks[..|chunks|] == chunks;
    assert chunks[|chunks|..] == [];
  }

  /**
   * `POST(request)`. A body that does not parse, parses to `null`, or parses
   * to a non-array object whose `length` converts to a number above 0 (it
   * has no `slice` to chunk it with) gives status 500 and no counts.
   * Otherwise the chunks of 100 are sent in waves of 20 (`SendAll`). A
   * parsed value without `length` gives no chunk at all, so nothing is sent
   * and the reply has no `total`.
   */
  method Post(body: RequestBody, oracle: nat -> ProviderOutcome)
    returns (response: Response, ghost waves: seq<seq<seq<NotificationPayload>>>)
    ensures response.Summary? <==> body.Parsed? || body.ParsedWithoutLength?
    ensures body.Unparsable? || body.ParsedNull? || body.ParsedUnsliceable? ==>
      response == ServerError(500, "Failed to send notifications")
    ensures body.ParsedWithoutLength? ==> response == Summary(true, 0, 0, None) && waves == []
    ensures body.Parsed? ==>
      var chunks := Chunks(body.notifications, ExpoBatchLimit);
      && response == Summary(true, SentTotal(chunks, oracle), FailedTotal(chunks, oracle), Some(|body.notifications|))
      && waves == Chunks(chunks, ConcurrentLimit)
  {
    if body.Unparsable? || body.ParsedNull? || body.ParsedUnsliceable? {
      return ServerError(500, "Failed to send notifications"), [];
    }
    // `chunkArray`'s loop does not run on a value without `length`.
    var notifications := if body.Parsed? then body.notifications else [];
    var chunks := ChunkArray(notifications, ExpoBatchLimit);
    var totalSent, totalFailed;
    totalSent, totalFailed, waves := SendAll(chunks, oracle);
    response := Summary(true, totalSent, totalFailed, if body.Parsed? then Some(|notifications|) else None);
  }

  // ---------------------------------------------------------------------
  // What the endpoint's answer means

  /**
   * The waves `Post` sends: together they are the chunk list, each chunk once
   * and in index order; wave `w` is chunks `20 * w` up to `20 * w + 20`, and
   * every wave holds between 1 and 20 chunks.
   */
  lemma WavesInOrder(chunks: seq<seq<NotificationPayload>>)
    ensures Flatten(Chunks(chunks, ConcurrentLimit)) == chunks
    ensures WellChunked(Chunks(chunks, ConcurrentLimit), ConcurrentLimit)
    ensures forall w :: 0 <= w < |Chunks(chunks, ConcurrentLimit)| ==>
      && w * ConcurrentLimit < |chunks|
      && Chunks(chunks, ConcurrentLimit)[w] == chunks[w * ConcurrentLimit..Min(w * ConcurrentLimit + ConcurrentLimit, |chunks|)]
  {
    ChunksFlatten(chunks, ConcurrentLimit);
    ChunksShape(chunks, ConcurrentLimit);
    ChunksIndexed(chunks, ConcurrentLimit);
  }

  /** The last chunk failed and was shorter than `EXPO_BATCH_LIMIT`. */
  predicate ShortLastChunkFailed(items: seq<NotificationPayload>, oracle: nat -> ProviderOutcome)
  {
    var cs := Chunks(items, ExpoBatchLimit);
    |cs| > 0 && !Delivered(oracle, |cs| - 1) && |cs[|cs| - 1]| < ExpoBatchLimit
  }

  /**
   * The summary's counts: `sent` is the number of notifications in accepted
   * chunks (so never more than `total`), `failed` is 100 per failed chunk, and
   * `sent + failed` equals `total` exactly when no short last chunk failed;
   * in general it is at most `100 * ceil(total / 100)`.
   */
  lemma SummaryCounts(items: seq<NotificationPayload>, oracle: nat -> ProviderOutcome)
    ensures var cs := Chunks(items, ExpoBatchLimit);
      var sent, failed := SentTotal(cs, oracle), FailedTotal(cs, oracle);
      && sent == DeliveredLength(cs, oracle)
      && sent <= |items|
      && failed == ExpoBatchLimit * FailedChunks(cs, oracle)
      && (sent + failed == |items| <==> !ShortLastChunkFailed(items, oracle))
      && sent + failed <= ExpoBatchLimit * CeilDiv(|items|, ExpoBatchLimit)
  {
    var cs := Chunks(items, ExpoBatchLimit);
    ChunksFlatten(items, ExpoBatchLimit);
    ChunksShape(items, ExpoBatchLimit);
    CeilDivLimit(|cs|, |items|);
    SentIsDeliveredLength(cs, oracle);
    FailedIsLimitPerFailure(cs, oracle);
    TotalsBalance(cs, oracle);
    TotalsAtMostLimitPerChunk(cs, oracle);
    if |cs| > 0 {
      var init := cs[..|cs| - 1];
      FullChunksNoOvercount(init, oracle);
    }
  }

  /** When the gateway accepts every chunk: `sent == total` and `failed == 0`. */
  lemma AllDeliveredSummary(items: seq<NotificationPayload>, oracle: nat -> ProviderOutcome)
    requires forall k :: 0 <= k < CeilDiv(|items|, ExpoBatchLimit) ==> Delivered(oracle, k)
    ensures SentTotal(Chunks(items, ExpoBatchLimit), oracle) == |items|
    ensures FailedTotal(Chunks(items, ExpoBatchLimit), oracle) == 0
  {
    ChunksShape(items, ExpoBatchLimit);
    CeilDivLimit(|Chunks(items, ExpoBatchLimit)|, |items|);
    ChunksFlatten(items, ExpoBatchLimit);
    AllDeliveredTotals(Chunks(items, ExpoBatchLimit), oracle);
  }

  /**
   * 150 notifications whose second chunk (50 long) throws: the answer is
   * sent 100, failed 100, total 150, so `sent + failed` exceeds `total`.
   */
  lemma ShortFailedChunkOvercounts(items: seq<NotificationPayload>, oracle: nat -> ProviderOutcome)
    requires |items| == 150
    requires Delivered(oracle, 0) && !Delivered(oracle, 1)
    ensures var cs := Chunks(items, ExpoBatchLimit);
      SentTotal(cs, oracle) == 100 && FailedTotal(cs, oracle) == 100
  {
    var cs := Chunks(items, ExpoBatchLimit);
    ChunksStep(items, 0, ExpoBatchLimit);
    ChunksStep(items, 100, ExpoBatchLimit);
    TotalsStep(cs, 0, oracle);
    TotalsStep(cs, 1, oracle);
    assert items[0..] == items && items[150..] == [];
    assert Chunks(items[150..], ExpoBatchLimit) == [];
    assert items[0..100] == items[..100] && items[100..150] == items[100..];
    assert cs == [items[..100], items[100..]];
    assert cs[..2] == cs && cs[..0] == [];
  }
}
