/** Choosing among candidate plans (internal/scheduler/scheduler.go). */
module Scheduler {
  import opened Results

  /** The source's string type: its three named actions, and any other string. */
  datatype Action = Wait | Transfer | Recompute | Other(name: string)

  datatype Candidate = Candidate(action: Action, ttft: real)

  datatype ScheduleError = NoCandidates

  /** k is the first of the cheapest candidates: earlier ones cost more, later ones no less. */
  ghost predicate FirstLowest(cs: seq<Candidate>, k: int) {
    && 0 <= k < |cs|
    && (forall i :: 0 <= i < k ==> cs[i].ttft > cs[k].ttft)
    && (forall i :: k <= i < |cs| ==> cs[i].ttft >= cs[k].ttft)
  }

  /** The best so far, carried over the rest of the candidates. */
  function Best(best: Candidate, rest: seq<Candidate>): Candidate
    decreases rest
  {
    if rest == [] then best
    else Best(if rest[0].ttft < best.ttft then rest[0] else best, rest[1..])
  }

  function Choose(cs: seq<Candidate>): Result<Candidate, ScheduleError> {
    if cs == [] then Err(NoCandidates) else Ok(Best(cs[0], cs[1..]))
  }

  method ChooseLowestTTFT(cs: seq<Candidate>) returns (r: Result<Candidate, ScheduleError>)
    ensures r == Choose(cs)
    ensures r.Err? <==> cs == []
    ensures r.Ok? ==> exists k :: FirstLowest(cs, k) && r.value == cs[k]
  {
    if |cs| == 0 {
      return Err(NoCandidates);
    }
    var best := cs[0];
    ghost var k := 0;
    for i := 1 to |cs|
      invariant FirstLowest(cs[..i], k) && best == cs[k]
      invariant Best(cs[0], cs[1..]) == Best(best, cs[i..])
    {
      if cs[i].ttft < best.ttft {
        best := cs[i];
        k := i;
      }
    }
    assert cs[..|cs|] == cs;
    return Ok(best);
  }

  /** Choose picks the first of the cheapest candidates, and that is the only one it could pick. */
  lemma {:induction false} ChooseIsFirstLowest(cs: seq<Candidate>) returns (k: nat)
    requires cs != []
    ensures FirstLowest(cs, k) && Choose(cs) == Ok(cs[k])
    ensures forall j :: FirstLowest(cs, j) ==> j == k
    decreases |cs|
  {
    if |cs| == 1 {
      k := 0;
    } else {
      var better := cs[1].ttft < cs[0].ttft;
      var rest := [if better then cs[1] else cs[0]] + cs[2..];
      var j := ChooseIsFirstLowest(rest);
      assert rest[1..] == cs[1..][1..];
      k := if j == 0 && !better then 0 else j + 1;
      assert cs[k] == rest[j];
    }
  }

  /** The three candidates of the cost model, in its tie-break order. */
  lemma ChooseOfThree(w: real, t: real, r: real)
    ensures var c := Choose([Candidate(Wait, w), Candidate(Transfer, t), Candidate(Recompute, r)]);
            c == Ok(if w <= t && w <= r then Candidate(Wait, w)
                    else if t <= r then Candidate(Transfer, t)
                    else Candidate(Recompute, r))
  {
    var cs := [Candidate(Wait, w), Candidate(Transfer, t), Candidate(Recompute, r)];
    var k := ChooseIsFirstLowest(cs);
    assert cs[0].ttft == w && cs[1].ttft == t && cs[2].ttft == r;
  }
}
