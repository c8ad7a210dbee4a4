/**
 One promotion pass over an Environment's queue, as a single replica runs it, and the retry backoff.

 The pass settles heads until one becomes a Deployment, the Environment is busy or fenced, an attempt
 must wait, or nothing is left.  What clocks, Core and the database say about an item is its Answer.
 */
module Promotion {
  import opened Basics
  import opened Queue

  datatype Availability = Free | Busy | Unreconciled | Unknown

  datatype Creation = Created(deployment: DeploymentId) | Refused(error: CreationError)

  /** commits: the transaction's statements and its commit succeed. */
  datatype Answer = Answer(expired: bool, availability: Availability, halts: bool, creation: Creation, commits: bool)

  datatype Effect = Continue(outcome: Outcome) | Start(deployment: DeploymentId) | RejectEveryone | Retry | Nothing

  function Decide(a: Answer): Effect {
    if !a.commits then Nothing
    else if a.expired then Continue(Expired)
    else match a.availability
      case Busy => Nothing
      case Unknown => Nothing
      case Unreconciled => RejectEveryone
      case Free =>
        if a.halts then Continue(Rejected)
        else match a.creation
          case Created(d) => Start(d)
          case Refused(e) =>
            match Classify(e)
            case RejectAll => RejectEveryone
            case RejectItem => Continue(Rejected)
            case RetryLater => Retry
  }

  /** waiting in queue order, what was settled, and the attempts counted per item. */
  datatype Contents = Contents(waiting: seq<ItemId>, settled: map<ItemId, Outcome>, attempts: map<ItemId, nat>)

  function Tries(c: Contents, i: ItemId): nat {
    if i in c.attempts then c.attempts[i] else 0
  }

  function Apply(c: Contents, effect: Effect): Contents
    requires c.waiting != []
  {
    var i := c.waiting[0];
    match effect
    case Nothing => c
    case Continue(outcome) => c.(waiting := c.waiting[1..], settled := c.settled[i := outcome])
    case Start(d) => c.(waiting := c.waiting[1..], settled := c.settled[i := Dispatched(d)])
    case RejectEveryone => c.(waiting := [], settled := c.settled + map j | j in c.waiting :: Rejected)
    case Retry => c.(attempts := c.attempts[i := Tries(c, i) + 1])
  }

  /** The pass as a recursion on the queue. */
  function Promoted(c: Contents, answers: ItemId -> Answer): Contents
    decreases |c.waiting|
  {
    if c.waiting == [] then c
    else
      var effect := Decide(answers(c.waiting[0]));
      if effect.Continue? then Promoted(Apply(c, effect), answers) else Apply(c, effect)
  }

  class EnvironmentQueue {
    var waiting: seq<ItemId>
    var settled: map<ItemId, Outcome>
    var attempts: map<ItemId, nat>

    function View(): Contents
      reads this
    {
      Contents(waiting, settled, attempts)
    }

    /** next: the following item may be tried at once, which happens only after this one was settled. */
    method PromoteHead(answers: ItemId -> Answer) returns (next: bool)
      modifies this
      ensures old(waiting) == [] ==> View() == old(View()) && !next
      ensures old(waiting) != [] ==>
                var effect := Decide(answers(old(waiting)[0]));
                View() == Apply(old(View()), effect) && next == effect.Continue?
    {
      next := false;
      if waiting == [] { return; }
      var item := waiting[0];
      var answer := answers(item);
      if !answer.commits { return; }
      if answer.expired {
        waiting, settled, next := waiting[1..], settled[item := Expired], true;
        return;
      }
      match answer.availability {
        case Busy => return;
        case Unknown => return;
        case Unreconciled => RejectAllWaiting(); return;
        case Free =>
      }
      if answer.halts {
        waiting, settled, next := waiting[1..], settled[item := Rejected], true;
        return;
      }
      match answer.creation {
        case Created(d) => waiting, settled := waiting[1..], settled[item := Dispatched(d)];
        case Refused(error) =>
          match Classify(error) {
            case RejectAll => RejectAllWaiting();
            case RejectItem => waiting, settled, next := waiting[1..], settled[item := Rejected], true;
            case RetryLater => attempts := attempts[item := (if item in attempts then attempts[item] else 0) + 1];
          }
      }
    }

    method RejectAllWaiting()
      modifies this
      ensures waiting == [] && attempts == old(attempts)
      ensures settled == old(settled) + map j | j in old(waiting) :: Rejected
    {
      var k := 0;
      while k < |waiting|
        invariant 0 <= k <= |waiting| && waiting == old(waiting) && attempts == old(attempts)
        invariant settled == old(settled) + map j | j in waiting[..k] :: Rejected
      {
        settled := settled[waiting[k] := Rejected];
        k := k + 1;
      }
      waiting := [];
    }

    /** Every iteration that continues has settled one item, so the pass ends. */
    method Promote(answers: ItemId -> Answer)
      modifies this
      ensures View() == Promoted(old(View()), answers)
    {
      var next := true;
      while next
        invariant next ==> Promoted(View(), answers) == Promoted(old(View()), answers)
        invariant !next ==> View() == Promoted(old(View()), answers)
        decreases if next then 1 + |waiting| else 0
      {
        next := PromoteHead(answers);
      }
    }
  }

  /** The items a pass settles before it stops. */
  function Passed(waiting: seq<ItemId>, answers: ItemId -> Answer): (n: nat)
    ensures n <= |waiting|
    ensures forall k :: 0 <= k < n ==> Decide(answers(waiting[k])).Continue?
    ensures n < |waiting| ==> !Decide(answers(waiting[n])).Continue?
  {
    if waiting == [] || !Decide(answers(waiting[0])).Continue? then 0 else 1 + Passed(waiting[1..], answers)
  }

  function OutcomeOf(effect: Effect): Outcome {
    if effect.Continue? then effect.outcome else Rejected
  }

  function Outcomes(items: seq<ItemId>, answers: ItemId -> Answer): map<ItemId, Outcome> {
    map i | i in items :: OutcomeOf(Decide(answers(i)))
  }

  /** The first n items settled as their answers say, everything behind them in place. */
  function Skip(c: Contents, n: nat, answers: ItemId -> Answer): Contents
    requires n <= |c.waiting|
  {
    c.(waiting := c.waiting[n..], settled := c.settled + Outcomes(c.waiting[..n], answers))
  }

  /**
   A pass settles the longest prefix of items that can be settled without a Deployment, then acts once, on the first
   other item: it creates at most one Deployment, and everything behind it keeps its place unless the queue is fenced.
   */
  lemma {:induction false} PassSettlesPrefix(c: Contents, answers: ItemId -> Answer)
    ensures var n := Passed(c.waiting, answers);
            Promoted(c, answers) ==
              if n == |c.waiting| then Skip(c, n, answers) else Apply(Skip(c, n, answers), Decide(answers(c.waiting[n])))
    decreases |c.waiting|
  {
    if c.waiting != [] && Decide(answers(c.waiting[0])).Continue? {
      var c1 := Apply(c, Decide(answers(c.waiting[0])));
      PassSettlesPrefix(c1, answers);
      SkipOne(c, c1, Passed(c1.waiting, answers), answers);
    } else {
      assert Skip(c, 0, answers) == c;
    }
  }

  lemma SkipOne(c: Contents, c1: Contents, n: nat, answers: ItemId -> Answer)
    requires c.waiting != [] && Decide(answers(c.waiting[0])).Continue? && c1 == Apply(c, Decide(answers(c.waiting[0])))
    requires n <= |c1.waiting|
    ensures Skip(c1, n, answers) == Skip(c, n + 1, answers)
  {
    hide Decide, Outcomes;
    assert c.waiting[..n + 1] == [c.waiting[0]] + c1.waiting[..n];
    assert c1.waiting[n..] == c.waiting[n + 1..];
    OutcomesOneMore(c.settled, c.waiting[0], c1.waiting[..n], answers);
  }

  lemma OutcomesOneMore(settled: map<ItemId, Outcome>, i: ItemId, items: seq<ItemId>, answers: ItemId -> Answer)
    ensures settled[i := OutcomeOf(Decide(answers(i)))] + Outcomes(items, answers) == settled + Outcomes([i] + items, answers)
  {
    hide Decide, OutcomeOf;
  }

  /** A pass touches no item that does not wait. */
  lemma {:induction false} SettledStays(c: Contents, answers: ItemId -> Answer, i: ItemId)
    requires i !in c.waiting
    ensures var c' := Promoted(c, answers);
            i !in c'.waiting && (i in c'.settled <==> i in c.settled) && (i in c.settled ==> c'.settled[i] == c.settled[i])
    decreases |c.waiting|
  {
    if c.waiting != [] && Decide(answers(c.waiting[0])).Continue? {
      SettledStays(Apply(c, Decide(answers(c.waiting[0]))), answers, i);
    }
  }

  // ---------------------------------------------------------------- backoff

  /** time.Duration: signed 64-bit nanoseconds. */
  newtype Duration = x: int | -0x8000_0000_0000_0000 <= x < 0x8000_0000_0000_0000

  const SECOND: Duration := 1_000_000_000
  const RETRY_BACKOFF: Duration := 5 * SECOND
  const MAX_RETRY_BACKOFF: Duration := 120 * SECOND

  function Pow2(n: nat): nat {
    if n == 0 then 1 else 2 * Pow2(n - 1)
  }

  function Min(a: int, b: int): int {
    if a <= b then a else b
  }

  /** Seconds to wait after the given number of attempts. */
  function Delay(attempt: int): int {
    if attempt <= 1 then 5 else Min(5 * Pow2(attempt - 1), 120)
  }

  lemma {:induction false} Pow2Grows(m: nat, n: nat)
    requires m <= n
    ensures 1 <= Pow2(m) <= Pow2(n)
    decreases n
  {
    if n > m { Pow2Grows(m, n - 1); } else if n > 0 { Pow2Grows(n - 1, n - 1); }
  }

  /** The doubling loop never overflows and ends at min(5 * 2^(attempt - 1), 120) seconds. */
  method Backoff(attempt: int) returns (delay: Duration)
    ensures delay as int == Delay(attempt) * 1_000_000_000
  {
    delay := RETRY_BACKOFF;
    var retry := 1;
    while retry < attempt && delay < MAX_RETRY_BACKOFF
      invariant 1 <= retry && (if attempt <= 1 then retry == 1 else retry <= attempt)
      invariant delay as int == 5 * Pow2(retry - 1) * 1_000_000_000 && delay < 2 * MAX_RETRY_BACKOFF
      decreases attempt - retry
    {
      delay := delay * 2;
      retry := retry + 1;
    }
    if attempt > retry {
      Pow2Grows(retry - 1, attempt - 1);
      assert 5 * Pow2(retry - 1) >= 120;
    }
    assert Delay(attempt) == Min(5 * Pow2(retry - 1), 120);
    if MAX_RETRY_BACKOFF < delay { delay := MAX_RETRY_BACKOFF; }
  }

  /** A later attempt never waits less, and no attempt waits longer than two minutes. */
  lemma BackoffIsMonotone(m: int, n: int)
    requires m <= n
    ensures 5 <= Delay(m) <= Delay(n) <= 120
    ensures n >= 6 ==> Delay(n) == 120
  {
    if m > 1 { Pow2Grows(0, m - 1); Pow2Grows(m - 1, n - 1); }
    if n > 1 { Pow2Grows(0, n - 1); }
    if n >= 6 {
      assert Pow2(5) == 32;
      Pow2Grows(5, n - 1);
      assert 5 * Pow2(n - 1) >= 160;
    }
  }
}
