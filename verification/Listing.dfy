/** Listing the services page by page: a producer and a consumer goroutine, the channels between
    them, and the caller (listServices in pkg/workoffload/runnable.go). All pages are read into one
    ServiceList, and the consumer keeps pointers to it. A service is represented by its name. */
module Listing {
  type Page = seq<string>

  function Flatten(pages: seq<Page>): seq<string> {
    if pages == [] then [] else Flatten(pages[..|pages| - 1]) + pages[|pages| - 1]
  }

  function Repeat(page: Page, n: nat): seq<Page> {
    if n == 0 then [] else Repeat(page, n - 1) + [page]
  }

  /** All services of all pages, in their order. */
  lemma {:induction false} FlattenAdds(a: seq<Page>, b: seq<Page>, page: Page)
    ensures Flatten([page]) == page
    ensures Flatten(a + b) == Flatten(a) + Flatten(b)
  {
    assert [page][..0] == [];
    if b == [] {
      assert a + b == a;
    } else {
      var n := |b| - 1;
      FlattenAdds(a, b[..n], page);
      assert (a + b)[..|a + b| - 1] == a + b[..n] && (a + b)[|a + b| - 1] == b[n];
    }
  }

  // ---------------------------------------------------------------- the interleavings

  /** page counts the pages listed before. */
  datatype Producer = Listing(page: nat) | Sending(page: nat) | Failing | Returned

  datatype Consumer = Receiving | Collected | Exited

  datatype Caller = AwaitingDone | AwaitingEnd | Finished(failed: bool)

  /** buffer is the one ServiceList; received are the pages as they were when they were received;
      services is what the consumer has copied out. outer and failed say whether the caller's
      context was cancelled and whether a list call failed. */
  datatype State = State(
    producer: Producer, consumer: Consumer, caller: Caller,
    buffer: Page, received: seq<Page>, services: seq<string>,
    outer: bool, failed: bool)

  const INITIAL := State(Listing(0), Receiving, AwaitingDone, [], [], [], false, false)

  datatype Step =
    | ListPage | ListFails
    | Rendezvous      // the producer sends a page and the consumer receives it
    | OuterCancel
    | Collect         // the consumer sees the cancelled context and copies
    | Done            // the caller receives from doneChan
    | ReturnList      // the caller sees the cancelled context
    | ReturnError     // the caller receives from errChan, the producer returns

  /** The producer cancels the context when it returns. */
  predicate Cancelled(s: State) {
    s.outer || s.producer.Returned?
  }

  predicate Enabled(s: State, step: Step) {
    match step
    case ListPage => s.producer.Listing?
    case ListFails => s.producer.Listing?
    case Rendezvous => s.producer.Sending? && s.consumer.Receiving?
    case OuterCancel => true
    case Collect => s.consumer.Receiving? && Cancelled(s)
    case Done => s.consumer.Collected? && s.caller.AwaitingDone?
    case ReturnList => s.caller.AwaitingEnd? && Cancelled(s)
    case ReturnError => s.caller.AwaitingEnd? && s.producer.Failing?
  }

  function Next(pages: seq<Page>, s: State, step: Step): State
    requires Enabled(s, step)
  {
    match step
    case ListPage =>
      var i := s.producer.page;
      s.(producer := Sending(i), buffer := if i < |pages| then pages[i] else [])
    case ListFails => s.(producer := Failing, failed := true)
    case Rendezvous =>
      var i := s.producer.page;
      s.(received := s.received + [s.buffer],
         producer := if i + 1 >= |pages| then Returned else Listing(i + 1))
    case OuterCancel => s.(outer := true)
    case Collect => s.(consumer := Collected, services := Flatten(Repeat(s.buffer, |s.received|)))
    case Done => s.(consumer := Exited, caller := AwaitingEnd)
    case ReturnList => s.(caller := Finished(false))
    case ReturnError => s.(caller := Finished(true), producer := Returned)
  }

  ghost predicate Moves(pages: seq<Page>, s: State, t: State) {
    exists step :: Enabled(s, step) && t == Next(pages, s, step)
  }

  ghost predicate IsRun(pages: seq<Page>, run: seq<State>) {
    && run != []
    && if |run| == 1 then run[0] == INITIAL
       else IsRun(pages, run[..|run| - 1]) && Moves(pages, run[|run| - 2], run[|run| - 1])
  }

  ghost predicate Inv(pages: seq<Page>, s: State) {
    && pages != []
    && |s.received| <= |pages|
    && s.received == pages[..|s.received|]
    && (s.producer.Listing? ==> s.producer.page == |s.received| < |pages|)
    && (s.producer.Sending? ==> s.producer.page == |s.received| < |pages| && s.buffer == pages[s.producer.page])
    && (s.producer.Returned? && !s.failed ==> |s.received| == |pages| && s.buffer == pages[|pages| - 1])
    && (s.producer.Failing? ==> s.failed)
    && (s.failed ==> s.producer.Failing? || s.producer.Returned?)
    && (s.consumer.Receiving? ==> s.caller.AwaitingDone?)
    && (s.consumer.Collected? ==> s.caller.AwaitingDone?)
    && (s.consumer.Exited? ==> !s.caller.AwaitingDone?)
    && (s.producer.Returned? && s.failed ==> s.outer)
    && (s.caller == Finished(true) ==> s.failed)
    && (!s.consumer.Receiving? && !s.outer ==>
          s.producer.Returned? && !s.failed && s.services == Flatten(Repeat(s.buffer, |pages|)))
    && (s.failed && !s.outer ==> s.producer.Failing? && s.consumer.Receiving?)
  }

  lemma StepKeepsInv(pages: seq<Page>, s: State, step: Step)
    requires pages != [] && Inv(pages, s) && Enabled(s, step)
    ensures Inv(pages, Next(pages, s, step))
  {
    if step.Rendezvous? {
      var i := |s.received|;
      assert pages[..i + 1] == pages[..i] + [pages[i]];
    }
  }

  lemma {:induction false} RunKeepsInv(pages: seq<Page>, run: seq<State>)
    requires pages != [] && IsRun(pages, run)
    ensures Inv(pages, run[|run| - 1])
  {
    if |run| > 1 {
      var s, t := run[|run| - 2], run[|run| - 1];
      assert run[..|run| - 1][|run| - 2] == s;
      RunKeepsInv(pages, run[..|run| - 1]);
      var step :| Enabled(s, step) && t == Next(pages, s, step);
      StepKeepsInv(pages, s, step);
    }
  }

  // ---------------------------------------------------------------- what is received, what is returned

  /** In every interleaving the pages are received in order and without gaps, and all of them are
      if the caller gets an answer without an outer cancellation. What it then gets is the last page,
      as often as there were pages, because all the pointers point to the same list. */
  lemma WhatIsListed(pages: seq<Page>, run: seq<State>)
    requires pages != [] && IsRun(pages, run)
    ensures var s := run[|run| - 1];
            && s.received <= pages
            && (s.caller.Finished? && !s.outer ==>
                  && !s.caller.failed
                  && s.received == pages
                  && s.services == Flatten(Repeat(pages[|pages| - 1], |pages|)))
  {
    RunKeepsInv(pages, run);
    assert pages[..|pages|] == pages;
  }

  ghost predicate Distinct(names: seq<string>) {
    forall i, j :: 0 <= i < j < |names| ==> names[i] != names[j]
  }

  lemma {:induction false} RepeatLength(page: Page, n: nat)
    ensures |Repeat(page, n)| == n && forall i :: 0 <= i < n ==> Repeat(page, n)[i] == page
    ensures n > 0 ==> Flatten(Repeat(page, n)) == Flatten(Repeat(page, n - 1)) + page
  {
    if n > 0 {
      RepeatLength(page, n - 1);
      assert Repeat(page, n)[..n - 1] == Repeat(page, n - 1);
    }
  }

  lemma {:induction false} RepeatStarts(page: Page, n: nat)
    requires n >= 2
    ensures page + page <= Flatten(Repeat(page, n))
    ensures page == [] ==> Flatten(Repeat(page, n)) == []
  {
    RepeatLength(page, n);
    if n == 2 {
      RepeatLength(page, 1);
      assert Flatten(Repeat(page, 0)) == [];
    } else {
      RepeatStarts(page, n - 1);
    }
  }

  /** Services have different names. So the list returned is the list of all services exactly if it
      came in one page (or there are none at all). */
  lemma OnePageOnly(pages: seq<Page>)
    requires pages != [] && Distinct(Flatten(pages))
    ensures Flatten(Repeat(pages[|pages| - 1], |pages|)) == Flatten(pages) <==> |pages| == 1 || Flatten(pages) == []
  {
    var n := |pages|;
    var last := pages[n - 1];
    var repeated := Flatten(Repeat(last, n));
    if n == 1 {
      RepeatLength(last, 1);
      assert Repeat(last, 0) == [] && Repeat(last, 1) == [last] == pages;
    } else {
      RepeatStarts(last, n);
      assert last + last <= repeated;
      if last != [] {
        assert repeated[0] == (last + last)[0] == (last + last)[|last|] == repeated[|last|];
        assert Flatten(pages) == Flatten(pages[..n - 1]) + last;
      }
    }
  }

  /** What is left to do: pages to list and send, and the three steps at the end. */
  function Remaining(pages: seq<Page>, s: State): int {
    (match s.producer
     case Listing(i) => 2 * (|pages| - i)
     case Sending(i) => 2 * (|pages| - i) - 1
     case Failing => 0
     case Returned => 0)
    + (if s.consumer.Receiving? then 1 else 0)
    + (match s.caller case AwaitingDone => 2 case AwaitingEnd => 1 case Finished(_) => 0)
  }

  /** Without failures and cancellations the goroutines never get stuck before the caller has its
      answer, and every step brings it closer. */
  lemma ListingTerminates(pages: seq<Page>, run: seq<State>)
    requires pages != [] && IsRun(pages, run)
    requires !run[|run| - 1].failed && !run[|run| - 1].outer
    ensures var s := run[|run| - 1];
            && Remaining(pages, s) >= 0
            && (!s.caller.Finished? ==> exists step: Step :: !step.OuterCancel? && !step.ListFails? && Enabled(s, step))
            && forall step: Step :: !step.OuterCancel? && !step.ListFails? && Enabled(s, step) ==>
                 Remaining(pages, Next(pages, s, step)) < Remaining(pages, s)
  {
    RunKeepsInv(pages, run);
    var s := run[|run| - 1];
    if !s.caller.Finished? {
      var step := match s.producer
        case Listing(_) => ListPage
        case Sending(_) => Rendezvous
        case Failing => ReturnError
        case Returned => if s.consumer.Receiving? then Collect else if s.consumer.Collected? then Done else ReturnList;
      assert Enabled(s, step);
    }
  }

  /** Nothing moves any more before the caller has its answer, except that the caller's own context
      may be cancelled, or yet another list call may fail. */
  ghost predicate IsStuck(s: State) {
    !s.caller.Finished? && forall step :: Enabled(s, step) ==> step.OuterCancel? || step.ListFails?
  }

  /** The parties are stuck, the producer waiting for the caller, the caller for the consumer and the
      consumer for the producer, exactly if a list call has failed and the caller's context is not
      cancelled: a failure is never reported, and the cancellation releases them. */
  lemma ListErrorsDeadlock(pages: seq<Page>, run: seq<State>)
    requires pages != [] && IsRun(pages, run)
    ensures var s := run[|run| - 1]; IsStuck(s) <==> s.failed && !s.outer
  {
    RunKeepsInv(pages, run);
    var s := run[|run| - 1];
    if s.outer {
      assert s.caller.AwaitingDone? && s.consumer.Receiving? ==> Enabled(s, Collect);
      assert s.caller.AwaitingDone? && s.consumer.Collected? ==> Enabled(s, Done);
      assert s.caller.AwaitingEnd? ==> Enabled(s, ReturnList);
    } else if !s.failed {
      ListingTerminates(pages, run);
    }
  }

  /** The steps that are left to the consumer and the caller. */
  function ToAnswer(s: State): nat {
    (if s.consumer.Receiving? then 1 else 0)
    + match s.caller case AwaitingDone => 2 case AwaitingEnd => 1 case Finished(_) => 0
  }

  /** After a cancellation by the caller the answer is never more than three steps away, of which
      one is always possible; no other step moves it further away. */
  lemma CancellationReleases(pages: seq<Page>, run: seq<State>, step: Step)
    requires pages != [] && IsRun(pages, run) && run[|run| - 1].outer
    ensures var s := run[|run| - 1];
            && ToAnswer(s) <= 3
            && (!s.caller.Finished? ==>
                  exists next :: Enabled(s, next) && ToAnswer(Next(pages, s, next)) < ToAnswer(s))
            && (Enabled(s, step) ==> ToAnswer(Next(pages, s, step)) <= ToAnswer(s) && Next(pages, s, step).outer)
  {
    RunKeepsInv(pages, run);
    var s := run[|run| - 1];
    if !s.caller.Finished? {
      var next := if s.caller.AwaitingEnd? then ReturnList else if s.consumer.Receiving? then Collect else Done;
      assert Enabled(s, next) && ToAnswer(Next(pages, s, next)) < ToAnswer(s);
    }
  }

  // ---------------------------------------------------------------- the copy loops

  /** Go's copy, into the part of an array from a position on: as much as fits. */
  method Copy(a: array<string>, from: nat, items: Page) returns (n: nat)
    requires from <= a.Length
    modifies a
    ensures n == if |items| <= a.Length - from then |items| else a.Length - from
    ensures a[..] == old(a[..from]) + items[..n] + old(a[from + n..])
  {
    n := 0;
    while n < |items| && from + n < a.Length
      invariant n <= |items| && from + n <= a.Length
      invariant a[..from] == old(a[..from]) && a[from..from + n] == items[..n] && a[from + n..] == old(a[from + n..])
    {
      a[from + n] := items[n];
      n := n + 1;
    }
  }

  method CopyAll(lists: seq<Page>) returns (services: array<string>)
    ensures fresh(services) && services[..] == Flatten(lists)
  {
    var length := 0;
    for k := 0 to |lists|
      invariant length == |Flatten(lists[..k])|
    {
      assert lists[..k + 1][..k] == lists[..k];
      length := length + |lists[k]|;
    }
    assert lists[..|lists|] == lists;

    services := new string[length];
    var i := 0;
    for k := 0 to |lists|
      invariant i == |Flatten(lists[..k])| <= length
      invariant services[..i] == Flatten(lists[..k])
    {
      assert lists[..k + 1][..k] == lists[..k];
      FlattenGrows(lists, k + 1);
      var copied := Copy(services, i, lists[k]);
      i := i + copied;
    }
    assert services[..length] == services[..];
  }

  lemma {:induction false} FlattenGrows(lists: seq<Page>, k: nat)
    requires k <= |lists|
    ensures |Flatten(lists[..k])| <= |Flatten(lists)|
    decreases |lists| - k
  {
    if k < |lists| {
      FlattenGrows(lists, k + 1);
      assert lists[..k + 1][..k] == lists[..k];
    } else {
      assert lists[..k] == lists;
    }
  }
}
