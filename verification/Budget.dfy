// The daily model-call budget: the memory counter, the Firestore document, and
// how many calls of a day any sequence of requests is granted.

module Budget {
  import opened Results
  import opened MemorySpec

  // The model_budget document.
  datatype BudgetDoc = BudgetDoc(day: string, used: int)
  datatype Consumed = Consumed(doc: Option<BudgetDoc>, reply: Reply<bool>)

  function ModelBudgetUsed(doc: Option<BudgetDoc>, day: string): Reply<int> {
    match doc
    case None => Ok(0)
    case Some(d) =>
      if d.used < 0 || d.used > MAX_MODEL_CALLS_PER_DAY_BOUND || !BudgetDay(d.day) then Raise(ValueError)
      else Ok(if d.day == day then d.used else 0)
  }

  function ConsumeDoc(doc: Option<BudgetDoc>, day: string, limit: int): Consumed {
    if !BudgetArgs(day, limit) then Consumed(doc, Raise(ValueError)) else
    match ModelBudgetUsed(doc, day)
    case Raise(error) => Consumed(doc, Raise(error))
    case Ok(used) =>
      if used >= limit then Consumed(doc, Ok(false))
      else Consumed(Some(BudgetDoc(day, used + 1)), Ok(true))
  }

  // ---- memory and Firestore agree --------------------------------------------------------

  // Both hold the count of the same single day, within the global bound.
  ghost predicate Agree(calls: map<string, nat>, doc: Option<BudgetDoc>) {
    match doc
    case None => calls == map[]
    case Some(d) => 0 <= d.used <= MAX_MODEL_CALLS_PER_DAY_BOUND && BudgetDay(d.day) && calls == map[d.day := d.used]
  }

  // Step by step the two counters give the same answer and stay in agreement.
  lemma CountersAgree(b: Backing, doc: Option<BudgetDoc>, day: string, limit: int)
    requires Agree(b.modelCalls, doc)
    ensures var memory, firestore := ConsumeModelCall(b, day, limit), ConsumeDoc(doc, day, limit);
            memory.reply == firestore.reply && Agree(memory.state.modelCalls, firestore.doc)
  {
  }

  // The Firestore document after one request for each of the given days.
  function DocAfter(days: seq<string>, limit: int): Option<BudgetDoc> {
    if days == [] then None
    else ConsumeDoc(DocAfter(days[..|days| - 1], limit), days[|days| - 1], limit).doc
  }

  // After any sequence of requests both counters answer the next one alike, so
  // what is proved below of the memory counter holds of the document.
  lemma {:induction false} CountersAgreeAlways(days: seq<string>, limit: int, next: string)
    ensures Agree(After(EmptyBacking, days, limit).modelCalls, DocAfter(days, limit))
    ensures ConsumeDoc(DocAfter(days, limit), next, limit).reply
         == ConsumeModelCall(After(EmptyBacking, days, limit), next, limit).reply
  {
    if days != [] {
      var before := days[..|days| - 1];
      CountersAgreeAlways(before, limit, next);
      CountersAgree(After(EmptyBacking, before, limit), DocAfter(before, limit), days[|days| - 1], limit);
    }
    CountersAgree(After(EmptyBacking, days, limit), DocAfter(days, limit), next, limit);
  }

  // ---- sequences of requests ----------------------------------------------------------------

  // The backing after one request for each of the given days.
  function After(b: Backing, days: seq<string>, limit: int): Backing {
    if days == [] then b
    else ConsumeModelCall(After(b, days[..|days| - 1], limit), days[|days| - 1], limit).state
  }

  // How many of the requests for day d are granted.
  function Granted(days: seq<string>, limit: int, d: string): nat {
    if days == [] then 0
    else
      var n := |days| - 1;
      Granted(days[..n], limit, d) +
      (if days[n] == d && ConsumeModelCall(After(EmptyBacking, days[..n], limit), d, limit).reply == Ok(true)
       then 1 else 0)
  }

  function Requested(days: seq<string>, d: string): nat {
    if days == [] then 0
    else Requested(days[..|days| - 1], d) + (if days[|days| - 1] == d then 1 else 0)
  }

  // The length of the last run of requests, if it is for day d.
  function TailRun(days: seq<string>, d: string): nat {
    if days == [] || days[|days| - 1] != d then 0 else TailRun(days[..|days| - 1], d) + 1
  }

  function Min(a: int, b: int): int {
    if a <= b then a else b
  }

  ghost predicate ValidRequests(days: seq<string>, limit: int) {
    1 <= limit && forall i | 0 <= i < |days| :: BudgetArgs(days[i], limit)
  }

  // The requests for day d are one uninterrupted run, as they are when the
  // clock never goes back over midnight.
  ghost predicate Contiguous(days: seq<string>, d: string) {
    forall i, j, k | 0 <= i < j < k < |days| && days[i] == d && days[k] == d :: days[j] == d
  }

  // The counter holds the last day requested, capped at the limit.
  lemma {:induction false} CounterHoldsTail(days: seq<string>, limit: int)
    requires ValidRequests(days, limit)
    ensures days == [] ==> After(EmptyBacking, days, limit) == EmptyBacking
    ensures days != [] ==>
      var d := days[|days| - 1];
      After(EmptyBacking, days, limit).modelCalls == map[d := Min(limit, TailRun(days, d))]
  {
    if days != [] {
      var n := |days| - 1;
      CounterHoldsTail(days[..n], limit);
      assert BudgetArgs(days[n], limit);
    }
  }

  // A request is granted exactly while its run is within the limit.
  lemma GrantedWithinRun(days: seq<string>, limit: int)
    requires days != [] && ValidRequests(days, limit)
    ensures var n := |days| - 1;
      var d := days[n];
      Granted(days, limit, d) == Granted(days[..n], limit, d) + (if TailRun(days, d) <= limit then 1 else 0)
  {
    var n := |days| - 1;
    CounterHoldsTail(days[..n], limit);
    assert BudgetArgs(days[n], limit);
  }

  lemma {:induction false} TailIsRequested(days: seq<string>, d: string)
    ensures TailRun(days, d) <= Requested(days, d)
  {
    if days != [] {
      TailIsRequested(days[..|days| - 1], d);
    }
  }

  lemma {:induction false} RequestedAt(days: seq<string>, d: string)
    ensures Requested(days, d) > 0 <==> exists i :: 0 <= i < |days| && days[i] == d
  {
    if days != [] {
      var n := |days| - 1;
      RequestedAt(days[..n], d);
      if Requested(days[..n], d) > 0 {
        var i :| 0 <= i < n && days[..n][i] == d;
        assert days[i] == d;
      }
      if i :| 0 <= i < |days| && days[i] == d {
        assert i < n ==> days[..n][i] == d;
      }
    }
  }

  // In one uninterrupted run all requests of the day are its tail, or it is over.
  lemma {:induction false} ContiguousTail(days: seq<string>, d: string)
    requires Contiguous(days, d) && TailRun(days, d) > 0
    ensures TailRun(days, d) == Requested(days, d)
  {
    var n := |days| - 1;
    var before := days[..n];
    assert Contiguous(before, d);
    if TailRun(before, d) > 0 {
      ContiguousTail(before, d);
    } else {
      assert n > 0 ==> days[n - 1] == before[n - 1] != d;
      assert forall i | 0 <= i < n :: before[i] == days[i];
      RequestedAt(before, d);
    }
  }

  // What was granted before the last run is at least what one run would get.
  lemma {:induction false} GrantedAtLeast(days: seq<string>, limit: int, d: string)
    requires ValidRequests(days, limit)
    ensures Granted(days, limit, d) - Min(limit, TailRun(days, d))
         >= Min(limit, Requested(days, d) - TailRun(days, d))
  {
    if days != [] {
      var n := |days| - 1;
      var before := days[..n];
      GrantedAtLeast(before, limit, d);
      TailIsRequested(before, d);
      assert BudgetArgs(days[n], limit);
      if days[n] == d {
        GrantedWithinRun(days, limit);
      }
    }
  }

  // Requests of a day in one uninterrupted run get exactly the limit or all.
  lemma {:induction false} ContiguousGranted(days: seq<string>, limit: int, d: string)
    requires ValidRequests(days, limit) && Contiguous(days, d)
    ensures Granted(days, limit, d) == Min(limit, Requested(days, d))
  {
    if days != [] {
      var n := |days| - 1;
      assert Contiguous(days[..n], d);
      ContiguousGranted(days[..n], limit, d);
      assert BudgetArgs(days[n], limit);
      if days[n] == d {
        GrantedWithinRun(days, limit);
        ContiguousTail(days, d);
      }
    }
  }

  lemma {:induction false} FewRequestsGranted(days: seq<string>, limit: int, d: string)
    requires ValidRequests(days, limit) && Requested(days, d) <= limit
    ensures Granted(days, limit, d) == Requested(days, d)
  {
    if days != [] {
      var n := |days| - 1;
      FewRequestsGranted(days[..n], limit, d);
      TailIsRequested(days, d);
      if days[n] == d {
        GrantedWithinRun(days, limit);
      }
    }
  }

  // A run that ends the sequence lies after any request for another day.
  lemma {:induction false} RunStartsAfter(days: seq<string>, d: string, j: nat)
    requires j + 1 < |days| && days[j] != d && days[|days| - 1] == d
    ensures 0 < TailRun(days, d) <= Requested(days, d) - Requested(days[..j + 1], d)
  {
    var n := |days| - 1;
    var before := days[..n];
    assert before[..j + 1] == days[..j + 1];
    if j + 1 < n && before[n - 1] == d {
      RunStartsAfter(before, d, j);
    } else {
      if j + 1 == n {
        assert before == days[..j + 1];
      } else {
        RequestedSplit(before, j + 1, d);
      }
    }
  }

  lemma {:induction false} RequestedSplit(days: seq<string>, j: nat, d: string)
    requires j <= |days|
    ensures Requested(days[..j], d) <= Requested(days, d)
  {
    if j < |days| {
      assert days[..|days| - 1][..j] == days[..j];
      RequestedSplit(days[..|days| - 1], j, d);
    } else {
      assert days[..j] == days;
    }
  }

  // A run that starts after earlier requests of its day counts from zero again.
  lemma {:induction false} BrokenRunExceeds(days: seq<string>, limit: int, d: string)
    requires ValidRequests(days, limit) && !Contiguous(days, d) && Requested(days, d) > limit
    ensures Granted(days, limit, d) > limit
  {
    var i, j, k :| 0 <= i < j < k < |days| && days[i] == d && days[k] == d && days[j] != d;
    var n := |days| - 1;
    if days[n] == d {
      assert days[..j + 1][i] == d;
      RequestedAt(days[..j + 1], d);
      RunStartsAfter(days, d, j);
      GrantedAtLeast(days, limit, d);
    } else {
      var before := days[..n];
      assert before[i] == d && before[k] == d && before[j] != d;
      BrokenRunExceeds(before, limit, d);
    }
  }

  // The daily bound, exactly: the requests granted for a day are the first
  // `limit` of them, or all, precisely when they form one uninterrupted run or
  // do not outnumber the limit. A clock that goes back over midnight makes a
  // day start counting again.
  lemma DailyBoundIff(days: seq<string>, limit: int, d: string)
    requires ValidRequests(days, limit)
    ensures Granted(days, limit, d) == Min(limit, Requested(days, d))
       <==> Contiguous(days, d) || Requested(days, d) <= limit
    ensures Granted(days, limit, d) <= limit <==> Contiguous(days, d) || Requested(days, d) <= limit
  {
    if Contiguous(days, d) {
      ContiguousGranted(days, limit, d);
    } else if Requested(days, d) <= limit {
      FewRequestsGranted(days, limit, d);
    } else {
      BrokenRunExceeds(days, limit, d);
    }
  }

  // Days in calendar order, which for YYYY-MM-DD strings is the order of the
  // number that their digits spell.
  function DayNumber(day: string): nat
    requires BudgetDay(day)
  {
    Spelled(day, 10)
  }

  function Spelled(day: string, n: nat): (r: nat)
    requires BudgetDay(day) && n <= 10
  {
    if n == 0 then 0
    else if n == 5 || n == 8 then Spelled(day, n - 1)
    else 10 * Spelled(day, n - 1) + (day[n - 1] as int - '0' as int)
  }

  lemma {:induction false} SpelledInjective(a: string, b: string, n: nat)
    requires BudgetDay(a) && BudgetDay(b) && n <= 10
    requires Spelled(a, n) == Spelled(b, n)
    ensures a[..n] == b[..n]
  {
    if n > 0 {
      if n == 5 || n == 8 {
        assert a[n - 1] == '-' == b[n - 1];
      } else {
        assert Digit(a[n - 1]) && Digit(b[n - 1]);
      }
      SpelledInjective(a, b, n - 1);
      assert a[..n] == a[..n - 1] + [a[n - 1]] && b[..n] == b[..n - 1] + [b[n - 1]];
    }
  }

  ghost predicate NonDecreasing(days: seq<string>) {
    forall i, j | 0 <= i < j < |days| && BudgetDay(days[i]) && BudgetDay(days[j]) ::
      DayNumber(days[i]) <= DayNumber(days[j])
  }

  // While the clock never goes back over midnight, every day is granted its
  // first `limit` requests and no more.
  lemma ForwardClockBound(days: seq<string>, limit: int, d: string)
    requires ValidRequests(days, limit) && NonDecreasing(days)
    ensures Granted(days, limit, d) == Min(limit, Requested(days, d)) <= limit
  {
    forall i, j, k | 0 <= i < j < k < |days| && days[i] == d && days[k] == d ensures days[j] == d {
      SpelledInjective(days[j], d, 10);
      assert days[j][..10] == days[j] && d[..10] == d;
    }
    ContiguousGranted(days, limit, d);
  }

  // A clock that goes back and forth once over midnight: with limit 1, the
  // first day is granted twice.
  lemma BackwardClockExceedsBound()
    ensures var a, b := "2026-01-01", "2026-01-02";
      ValidRequests([a, b, a], 1) && Granted([a, b, a], 1, a) == 2
  {
    var a, b := "2026-01-01", "2026-01-02";
    assert BudgetDay(a) && BudgetDay(b);
    var days := [a, b, a];
    assert !Contiguous(days, a) by { assert days[0] == a && days[1] != a && days[2] == a; }
    assert days[..2] == [a, b] && [a, b][..1] == [a];
    assert a != b by { assert a[9] != b[9]; }
    assert Requested([a], a) == 1;
    assert Requested([a, b], a) == 1;
    assert Requested(days, a) == 2;
    BrokenRunExceeds(days, 1, a);
    FewRequestsGranted(days[..2], 1, a);
  }
}
