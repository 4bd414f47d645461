// Kathleen Nichols' three-estimate filter (bbr/windowed_filter.go): the state machine, what the three
// estimates mean on any stream of samples, and the class that overwrites them in place.
module WindowedFilters {
  import opened Rates

  datatype Entry<V> = Entry(sample: V, time: int)

  datatype Estimates<V> = Estimates(window: nat, best: Entry<V>, second: Entry<V>, third: Entry<V>)

  // Positive when the first argument is better, zero when they rank alike.
  type Comparator<!V> = (V, V) -> int

  function MaxFilter(a: int, b: int): int { if a > b then 1 else if a < b then -1 else 0 }

  function MinFilter(a: int, b: int): int { if a < b then 1 else if a > b then -1 else 0 }

  ghost predicate Ranks<V(!new)>(cmp: Comparator<V>) {
    && (forall a, b :: cmp(a, b) >= 0 || cmp(b, a) >= 0)
    && (forall a, b :: cmp(a, b) == 0 <==> cmp(a, b) >= 0 && cmp(b, a) >= 0)
    && (forall a, b, c :: cmp(a, b) >= 0 && cmp(b, c) >= 0 ==> cmp(a, c) >= 0)
  }

  lemma StandardComparatorsRank()
    ensures Ranks(MaxFilter)
    ensures Ranks(MinFilter)
  {
  }

  // Times are unsigned, so an earlier newTime would read as an enormous age.
  function Age(newTime: int, time: int): int { if newTime < time then newTime - time + U64 else newTime - time }

  function Fresh<V>(window: nat, zero: V): Estimates<V> {
    Estimates(window, Entry(zero, 0), Entry(zero, 0), Entry(zero, 0))
  }

  function ResetTo<V>(f: Estimates<V>, e: Entry<V>): Estimates<V> { Estimates(f.window, e, e, e) }

  function Updated<V>(cmp: Comparator<V>, zero: V, f: Estimates<V>, e: Entry<V>): Estimates<V> {
    if cmp(f.best.sample, zero) == 0 || cmp(e.sample, f.best.sample) >= 0 || Age(e.time, f.third.time) > f.window then
      ResetTo(f, e)
    else
      Aged(cmp, Improved(cmp, f, e), e)
  }

  // A sample no better than the best may still replace the second and third estimates, or the third alone.
  function Improved<V>(cmp: Comparator<V>, f: Estimates<V>, e: Entry<V>): Estimates<V> {
    if cmp(e.sample, f.second.sample) >= 0 then f.(second := e, third := e)
    else if cmp(e.sample, f.third.sample) >= 0 then f.(third := e)
    else f
  }

  // Expired estimates are replaced by the next ones, and stale copies by the newest sample.
  function Aged<V>(cmp: Comparator<V>, f: Estimates<V>, e: Entry<V>): Estimates<V> {
    if Age(e.time, f.best.time) > f.window then
      var g := Estimates(f.window, f.second, f.third, e);
      if Age(e.time, g.best.time) > f.window then g.(best := g.second, second := g.third) else g
    else if cmp(f.second.sample, f.best.sample) == 0 && Age(e.time, f.second.time) > f.window / 4 then
      f.(second := e, third := e)
    else if cmp(f.third.sample, f.second.sample) == 0 && Age(e.time, f.third.time) > f.window / 2 then
      f.(third := e)
    else f
  }

  // ---- Streams ----

  datatype Op<V> = Update(e: Entry<V>) | Reset(e: Entry<V>) | Clear

  function Step<V>(cmp: Comparator<V>, zero: V, f: Estimates<V>, op: Op<V>): Estimates<V> {
    match op
    case Update(e) => Updated(cmp, zero, f, e)
    case Reset(e) => ResetTo(f, e)
    case Clear => Fresh(f.window, zero)
  }

  function Run<V>(cmp: Comparator<V>, zero: V, window: nat, ops: seq<Op<V>>): Estimates<V> {
    if ops == [] then Fresh(window, zero)
    else Step(cmp, zero, Run(cmp, zero, window, ops[..|ops| - 1]), ops[|ops| - 1])
  }

  lemma RunExtends<V>(cmp: Comparator<V>, zero: V, window: nat, ops: seq<Op<V>>, op: Op<V>)
    ensures Run(cmp, zero, window, ops + [op]) == Step(cmp, zero, Run(cmp, zero, window, ops), op)
  {
    assert (ops + [op])[..|ops + [op]| - 1] == ops;
  }

  // The samples fed since the last Clear, oldest first.
  function Fed<V>(ops: seq<Op<V>>): seq<Entry<V>> {
    if ops == [] || ops[|ops| - 1].Clear? then []
    else Fed(ops[..|ops| - 1]) + [ops[|ops| - 1].e]
  }

  lemma FedExtends<V>(ops: seq<Op<V>>, op: Op<V>)
    requires !op.Clear?
    ensures Fed(ops + [op]) == Fed(ops) + [op.e]
  {
    assert (ops + [op])[..|ops + [op]| - 1] == ops;
  }

  ghost predicate TimesRise<V>(fed: seq<Entry<V>>) {
    forall i, j | 0 <= i <= j < |fed| :: fed[i].time <= fed[j].time
  }

  // e was recorded as the i-th sample of the stream and nothing fed since ranks above it.
  ghost predicate RecordedAt<V>(cmp: Comparator<V>, fed: seq<Entry<V>>, i: int, e: Entry<V>) {
    && 0 <= i < |fed| && fed[i] == e
    && forall k | i <= k < |fed| :: cmp(e.sample, fed[k].sample) >= 0
  }

  ghost predicate Recorded<V>(cmp: Comparator<V>, fed: seq<Entry<V>>, f: Estimates<V>, i: int, j: int, k: int) {
    && RecordedAt(cmp, fed, i, f.best) && RecordedAt(cmp, fed, j, f.second) && RecordedAt(cmp, fed, k, f.third)
    && i <= j <= k
  }

  lemma Extend<V(!new)>(cmp: Comparator<V>, fed: seq<Entry<V>>, i: int, e: Entry<V>, newest: Entry<V>)
    requires RecordedAt(cmp, fed, i, e) && cmp(e.sample, newest.sample) >= 0
    ensures RecordedAt(cmp, fed + [newest], i, e)
  {
  }

  // A sample that is not a new best takes over exactly the estimates it beats.
  lemma ImproveKeepsRecords<V(!new)>(cmp: Comparator<V>, fed: seq<Entry<V>>, f: Estimates<V>, e: Entry<V>, i: int, j: int, k: int)
    returns (j': int, k': int)
    requires Ranks(cmp) && Recorded(cmp, fed, f, i, j, k)
    requires cmp(e.sample, f.best.sample) < 0
    ensures Recorded(cmp, fed + [e], Improved(cmp, f, e), i, j', k')
  {
    var n := |fed|;
    assert (fed + [e])[n] == e && cmp(e.sample, e.sample) >= 0;
    Extend(cmp, fed, i, f.best, e);
    if cmp(e.sample, f.second.sample) >= 0 {
      return n, n;
    }
    Extend(cmp, fed, j, f.second, e);
    if cmp(e.sample, f.third.sample) >= 0 {
      return j, n;
    }
    Extend(cmp, fed, k, f.third, e);
    return j, k;
  }

  // Ageing promotes records or overwrites them with the newest sample, which nothing fed before it outranks
  // as a record of its own.
  lemma AgeKeepsRecords<V(!new)>(cmp: Comparator<V>, fed: seq<Entry<V>>, f: Estimates<V>, e: Entry<V>, i: int, j: int, k: int)
    returns (i': int, j': int, k': int)
    requires Ranks(cmp) && Recorded(cmp, fed, f, i, j, k) && |fed| > 0 && fed[|fed| - 1] == e
    requires Age(e.time, f.third.time) <= f.window
    ensures Recorded(cmp, fed, Aged(cmp, f, e), i', j', k')
    ensures Age(e.time, Aged(cmp, f, e).best.time) <= f.window
  {
    var n := |fed| - 1;
    assert cmp(e.sample, e.sample) >= 0;
    assert RecordedAt(cmp, fed, n, e);
    i', j', k' := i, j, k;
    if Age(e.time, f.best.time) > f.window {
      if Age(e.time, f.second.time) > f.window {
        return k, n, n;
      }
      return j, k, n;
    } else if cmp(f.second.sample, f.best.sample) == 0 && Age(e.time, f.second.time) > f.window / 4 {
      return i, n, n;
    } else if cmp(f.third.sample, f.second.sample) == 0 && Age(e.time, f.third.time) > f.window / 2 {
      return i, j, n;
    }
  }

  // One update keeps the three records in order, and leaves the best inside the window.
  lemma UpdateKeepsRecords<V(!new)>(cmp: Comparator<V>, zero: V, fed: seq<Entry<V>>, f: Estimates<V>,
                                    e: Entry<V>, i: int, j: int, k: int)
    returns (i': int, j': int, k': int)
    requires Ranks(cmp) && Recorded(cmp, fed, f, i, j, k)
    ensures Recorded(cmp, fed + [e], Updated(cmp, zero, f, e), i', j', k')
    ensures Age(e.time, Updated(cmp, zero, f, e).best.time) <= f.window
  {
    i', j', k' := |fed|, |fed|, |fed|;
    assert cmp(e.sample, e.sample) >= 0;
    if !(cmp(f.best.sample, zero) == 0 || cmp(e.sample, f.best.sample) >= 0 || Age(e.time, f.third.time) > f.window) {
      j', k' := ImproveKeepsRecords(cmp, fed, f, e, i, j, k);
      i', j', k' := AgeKeepsRecords(cmp, fed + [e], Improved(cmp, f, e), e, i, j', k');
    }
  }

  // On every stream of updates, resets and clears, each estimate is a sample that was fed, the maximum of
  // everything fed since its own recording; better estimates were recorded earlier, and after an update the
  // best lies inside the window.
  lemma {:induction false} EstimatesAreSuffixMaxima<V(!new)>(cmp: Comparator<V>, zero: V, window: nat, ops: seq<Op<V>>)
    returns (i: int, j: int, k: int)
    requires Ranks(cmp)
    ensures Fed(ops) == [] ==> Run(cmp, zero, window, ops) == Fresh(window, zero)
    ensures Fed(ops) != [] ==> Recorded(cmp, Fed(ops), Run(cmp, zero, window, ops), i, j, k)
    ensures ops != [] && ops[|ops| - 1].Update? ==>
              Age(ops[|ops| - 1].e.time, Run(cmp, zero, window, ops).best.time) <= window
  {
    i, j, k := 0, 0, 0;
    if ops != [] {
      var before, op := ops[..|ops| - 1], ops[|ops| - 1];
      WindowIsKept(cmp, zero, window, before);
      if !op.Clear? {
        i, j, k := EstimatesAreSuffixMaxima(cmp, zero, window, before);
        i, j, k := FeedKeepsRecords(cmp, zero, Fed(before), Run(cmp, zero, window, before), op, i, j, k);
      }
    }
  }

  lemma FeedKeepsRecords<V(!new)>(cmp: Comparator<V>, zero: V, fed: seq<Entry<V>>, f: Estimates<V>,
                                  op: Op<V>, i: int, j: int, k: int)
    returns (i': int, j': int, k': int)
    requires Ranks(cmp) && !op.Clear?
    requires fed == [] ==> f == Fresh(f.window, zero)
    requires fed != [] ==> Recorded(cmp, fed, f, i, j, k)
    ensures Recorded(cmp, fed + [op.e], Step(cmp, zero, f, op), i', j', k')
    ensures op.Update? ==> Age(op.e.time, Step(cmp, zero, f, op).best.time) <= f.window
  {
    i', j', k' := |fed|, |fed|, |fed|;
    assert cmp(op.e.sample, op.e.sample) >= 0 && cmp(zero, zero) == 0;
    if fed != [] && op.Update? {
      i', j', k' := UpdateKeepsRecords(cmp, zero, fed, f, op.e, i, j, k);
    }
  }

  lemma {:induction false} WindowIsKept<V>(cmp: Comparator<V>, zero: V, window: nat, ops: seq<Op<V>>)
    ensures Run(cmp, zero, window, ops).window == window
  {
    if ops != [] { WindowIsKept(cmp, zero, window, ops[..|ops| - 1]); }
  }

  // The estimates rank best, second, third and were taken in that order.
  lemma EstimatesAreOrdered<V(!new)>(cmp: Comparator<V>, zero: V, window: nat, ops: seq<Op<V>>)
    requires Ranks(cmp) && TimesRise(Fed(ops))
    ensures var f := Run(cmp, zero, window, ops);
            && cmp(f.best.sample, f.second.sample) >= 0 && cmp(f.second.sample, f.third.sample) >= 0
            && f.best.time <= f.second.time <= f.third.time
  {
    var i, j, k := EstimatesAreSuffixMaxima(cmp, zero, window, ops);
    var f := Run(cmp, zero, window, ops);
    if Fed(ops) == [] {
      assert cmp(zero, zero) >= 0;
    } else {
      assert cmp(f.best.sample, Fed(ops)[j].sample) >= 0 && cmp(f.second.sample, Fed(ops)[k].sample) >= 0;
    }
  }

  // ---- What replaces what ----

  // What an update does to estimates taken in order. A sample that is no worse than the best, or comes while there is none,
  // replaces all three. Otherwise the best stays for as long as the window: the second is replaced by a sample no worse or,
  // being as good as the best, after a quarter of the window, and the third by a sample no worse, along with the second or,
  // being as good as that, after half the window. Once the best is older than the window, the next one that is not takes its
  // place.
  lemma UpdateReplacesExactly<V(!new)>(cmp: Comparator<V>, zero: V, f: Estimates<V>, e: Entry<V>)
    requires Ranks(cmp) && cmp(f.best.sample, f.second.sample) >= 0 && cmp(f.second.sample, f.third.sample) >= 0
    requires f.best.time <= f.second.time <= f.third.time <= e.time
    ensures var r := Updated(cmp, zero, f, e);
            var beatsSecond, beatsThird := cmp(e.sample, f.second.sample) >= 0, cmp(e.sample, f.third.sample) >= 0;
            var second, third := if beatsSecond then e else f.second, if beatsThird then e else f.third;
            && r.window == f.window
            && if cmp(f.best.sample, zero) == 0 || cmp(e.sample, f.best.sample) >= 0 then r.best == r.second == r.third == e
               else if e.time - f.best.time <= f.window then
                 var refreshes := cmp(f.second.sample, f.best.sample) == 0 && 4 * (e.time - f.second.time) > f.window;
                 var halfPassed := cmp(f.third.sample, f.second.sample) == 0 && 2 * (e.time - f.third.time) > f.window;
                 && r.best == f.best
                 && r.second == (if refreshes then e else second)
                 && r.third == (if refreshes || halfPassed then e else third)
               else
                 && r.best == (if e.time - second.time <= f.window then second
                               else if e.time - third.time <= f.window then third else e)
                 && r.second == (if e.time - second.time <= f.window then third else e)
                 && r.third == e
  {
  }

  // ---- The class ----

  class WindowedFilter<V> {
    const comparator: Comparator<V>
    const zero: V
    var windowLength: nat
    var estimates: array<Entry<V>>

    ghost var Repr: set<object>

    ghost predicate Valid()
      reads this, Repr
      ensures Valid() ==> this in Repr
    {
      Repr == {this, estimates} && estimates.Length == 3
    }

    ghost function View(): Estimates<V>
      requires Valid()
      reads this, Repr
    {
      Estimates(windowLength, estimates[0], estimates[1], estimates[2])
    }

    constructor (windowLength: nat, comparator: Comparator<V>, zero: V)
      ensures Valid() && fresh(Repr)
      ensures this.comparator == comparator && this.zero == zero && View() == Fresh(windowLength, zero)
    {
      this.windowLength, this.comparator, this.zero := windowLength, comparator, zero;
      estimates := new Entry<V>[3](_ => Entry(zero, 0));
      new;
      Repr := {this, estimates};
    }

    function GetBest(): (v: V)
      requires Valid()
      reads this, Repr
      ensures v == View().best.sample
    {
      estimates[0].sample
    }

    function GetSecondBest(): (v: V)
      requires Valid()
      reads this, Repr
      ensures v == View().second.sample
    {
      estimates[1].sample
    }

    function GetThirdBest(): (v: V)
      requires Valid()
      reads this, Repr
      ensures v == View().third.sample
    {
      estimates[2].sample
    }

    method Update(newSample: V, newTime: int)
      requires Valid()
      modifies Repr
      ensures Valid() && Repr == old(Repr)
      ensures View() == Updated(comparator, zero, old(View()), Entry(newSample, newTime))
    {
      if comparator(estimates[0].sample, zero) == 0
         || comparator(newSample, estimates[0].sample) >= 0
         || Age(newTime, estimates[2].time) > windowLength {
        Reset(newSample, newTime);
        return;
      }
      if comparator(newSample, estimates[1].sample) >= 0 {
        estimates[1] := Entry(newSample, newTime);
        estimates[2] := estimates[1];
      } else if comparator(newSample, estimates[2].sample) >= 0 {
        estimates[2] := Entry(newSample, newTime);
      }
      if Age(newTime, estimates[0].time) > windowLength {
        estimates[0] := estimates[1];
        estimates[1] := estimates[2];
        estimates[2] := Entry(newSample, newTime);
        if Age(newTime, estimates[0].time) > windowLength {
          estimates[0] := estimates[1];
          estimates[1] := estimates[2];
        }
        return;
      }
      if comparator(estimates[1].sample, estimates[0].sample) == 0
         && Age(newTime, estimates[1].time) > windowLength / 4 {
        estimates[1] := Entry(newSample, newTime);
        estimates[2] := estimates[1];
        return;
      }
      if comparator(estimates[2].sample, estimates[1].sample) == 0
         && Age(newTime, estimates[2].time) > windowLength / 2 {
        estimates[2] := Entry(newSample, newTime);
      }
    }

    method Reset(newSample: V, newTime: int)
      requires Valid()
      modifies Repr
      ensures Valid() && Repr == old(Repr)
      ensures View() == ResetTo(old(View()), Entry(newSample, newTime))
    {
      estimates[2] := Entry(newSample, newTime);
      estimates[1] := estimates[2];
      estimates[0] := estimates[1];
    }

    method Clear()
      requires Valid()
      modifies this
      ensures Valid() && fresh(Repr - {this})
      ensures View() == Fresh(old(View()).window, zero)
    {
      estimates := new Entry<V>[3](_ => Entry(zero, 0));
      Repr := {this, estimates};
    }
  }
}
