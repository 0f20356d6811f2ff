/** Predicting time to first token (internal/costmodel/costmodel.go), with durations as real seconds. */
module CostModel {
  import opened Results
  import opened Scheduler

  datatype Inputs = Inputs(
    queueA: real, queueB: real,
    prefixTokens: int, suffixTokens: int,
    prefillTokensPerSecA: real, prefillTokensPerSecB: real,
    kvBytesPerToken: real, bandwidthBytesPerSec: real,
    transferStartup: real
  ) {
    predicate Valid() {
      && queueA >= 0.0 && queueB >= 0.0 && transferStartup >= 0.0
      && prefixTokens >= 0 && suffixTokens >= 0
      && prefillTokensPerSecA > 0.0
      && prefillTokensPerSecB > 0.0
      && kvBytesPerToken > 0.0
      && bandwidthBytesPerSec > 0.0
    }

    function WaitTTFT(): real
      requires Valid()
    {
      queueA + suffixTokens as real / prefillTokensPerSecA
    }

    function TransferTime(): real
      requires Valid()
    {
      transferStartup + prefixTokens as real * kvBytesPerToken / bandwidthBytesPerSec
    }

    function TransferTTFT(): real
      requires Valid()
    {
      (if queueB <= TransferTime() then TransferTime() else queueB) + suffixTokens as real / prefillTokensPerSecB
    }

    function RecomputeTTFT(): real
      requires Valid()
    {
      queueB + (prefixTokens as real + suffixTokens as real) / prefillTokensPerSecB
    }
  }

  datatype CostError = InvalidInputs

  /** Wait, transfer and recompute candidates, in tie-break order. */
  function Estimate(i: Inputs): (r: Result<seq<Candidate>, CostError>)
    ensures r.Ok? <==> i.Valid()
  {
    if !i.Valid() then Err(InvalidInputs)
    else Ok([
      Candidate(Wait, i.WaitTTFT()),
      Candidate(Transfer, i.TransferTTFT()),
      Candidate(Recompute, i.RecomputeTTFT())
    ])
  }

  /** Work of this size takes this long at this rate: what a duration in the estimates is. */
  ghost predicate TakesAtRate(duration: real, amount: real, rate: real) {
    duration * rate == amount
  }

  lemma QuotientTakes(amount: real, rate: real)
    requires rate > 0.0
    ensures TakesAtRate(amount / rate, amount, rate)
  {
  }

  /** The transfer's prefill on B starts once both its bytes and B's queue are done, and no later. */
  ghost predicate StartsWhenBothDone(start: real, queue: real, transfer: real) {
    start >= queue && start >= transfer && (start == queue || start == transfer)
  }

  /**
   What the three estimates are, by what they are made of. Waiting is A's queue and
   the suffix at A's rate; recomputing is B's queue and all tokens at B's rate; a
   transfer overlaps B's queue with the startup and the bytes at the bandwidth, and
   then prefills the suffix at B's rate.
   */
  lemma EstimatePrices(i: Inputs) returns (moving: real, start: real)
    requires i.Valid()
    ensures Estimate(i).Ok? && |Estimate(i).value| == 3
    ensures var cs := Estimate(i).value;
            && cs[0].action == Wait && cs[1].action == Transfer && cs[2].action == Recompute
            && TakesAtRate(cs[0].ttft - i.queueA, i.suffixTokens as real, i.prefillTokensPerSecA)
            && TakesAtRate(cs[2].ttft - i.queueB, (i.prefixTokens + i.suffixTokens) as real, i.prefillTokensPerSecB)
            && TakesAtRate(moving - i.transferStartup, i.prefixTokens as real * i.kvBytesPerToken, i.bandwidthBytesPerSec)
            && StartsWhenBothDone(start, i.queueB, moving)
            && TakesAtRate(cs[1].ttft - start, i.suffixTokens as real, i.prefillTokensPerSecB)
  {
    QuotientTakes(i.suffixTokens as real, i.prefillTokensPerSecA);
    QuotientTakes(i.suffixTokens as real, i.prefillTokensPerSecB);
    QuotientTakes(i.prefixTokens as real + i.suffixTokens as real, i.prefillTokensPerSecB);
    QuotientTakes(i.prefixTokens as real * i.kvBytesPerToken, i.bandwidthBytesPerSec);
    moving := i.TransferTime();
    start := if i.queueB <= moving then moving else i.queueB;
    hide TakesAtRate;
    assert i.WaitTTFT() - i.queueA == i.suffixTokens as real / i.prefillTokensPerSecA;
    assert i.RecomputeTTFT() - i.queueB == (i.prefixTokens as real + i.suffixTokens as real) / i.prefillTokensPerSecB;
    assert moving - i.transferStartup == i.prefixTokens as real * i.kvBytesPerToken / i.bandwidthBytesPerSec;
    assert i.TransferTTFT() - start == i.suffixTokens as real / i.prefillTokensPerSecB;
    assert i.prefixTokens as real + i.suffixTokens as real == (i.prefixTokens + i.suffixTokens) as real;
  }

  /** A worker with B's queue and rate on which the prefix already is. */
  function AtB(i: Inputs): Inputs {
    i.(queueA := i.queueB, prefillTokensPerSecA := i.prefillTokensPerSecB)
  }

  /**
   A transfer that fits in B's queue costs what waiting would cost had the prefix
   been on B; a longer one costs its overrun more, and so never less.
   */
  lemma TransferIsHiddenByQueue(i: Inputs)
    requires i.Valid()
    ensures AtB(i).Valid()
    ensures i.TransferTTFT() - AtB(i).WaitTTFT() == if i.TransferTime() <= i.queueB then 0.0 else i.TransferTime() - i.queueB
  {
    hide Inputs.TransferTime;
  }

  function Abs(x: real): real {
    if x < 0.0 then -x else x
  }

  /** The same request under two beliefs about the network. */
  ghost predicate SameButNetwork(i: Inputs, j: Inputs) {
    j == i.(bandwidthBytesPerSec := j.bandwidthBytesPerSec, transferStartup := j.transferStartup)
  }

  /** A wrong belief about the network misjudges only the transfer, by no more than it misjudges the transfer time. */
  lemma TransferErrorBounded(i: Inputs, j: Inputs)
    requires i.Valid() && j.Valid() && SameButNetwork(i, j)
    ensures i.WaitTTFT() == j.WaitTTFT() && i.RecomputeTTFT() == j.RecomputeTTFT()
    ensures Abs(i.TransferTTFT() - j.TransferTTFT()) <= Abs(i.TransferTime() - j.TransferTime())
  {
    assert i.suffixTokens as real / i.prefillTokensPerSecB == j.suffixTokens as real / j.prefillTokensPerSecB;
    hide Inputs.TransferTime;
  }
}
