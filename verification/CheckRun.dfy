/** `check`: the threads stride over the warehouses.  `passes` stands for the queries on one warehouse. */
module CheckRun {
  import opened Counting
  import opened Strides

  /** The warehouses a thread takes. */
  ghost predicate Own(w: int, warehouses: nat, threads: nat, threadID: int)
    requires threads > 0
  {
    1 <= w <= warehouses && Taker(w - 1, threads) == threadID
  }

  lemma OwnIsMod(w: int, warehouses: nat, threads: nat, threadID: int)
    requires threads > 0 && 1 <= w <= warehouses
    ensures Own(w, warehouses, threads, threadID) <==> (w - 1) % threads == threadID
  {
    TakerIsMod(w - 1, threads);
  }

  /** The own warehouses up to item i were checked, once each, and pass. */
  ghost predicate CheckedTo(checked: seq<int>, passes: int -> bool, warehouses: nat, threads: nat, threadID: nat,
                            i: int)
    requires threads > 0
  {
    && Increasing(checked)
    && (forall w <- checked :: Own(w, warehouses, threads, threadID) && w <= i && passes(w))
    && (forall w :: Own(w, warehouses, threads, threadID) && w <= i ==> w in checked)
  }

  lemma OneMore(checked: seq<int>, i: int)
    requires Increasing(checked) && forall w <- checked :: w <= i
    ensures Increasing(checked + [i + 1])
  {
    assert forall k | 0 <= k < |checked| :: checked[k] in checked;
  }

  lemma CheckedNext(checked: seq<int>, passes: int -> bool, warehouses: nat, threads: nat, threadID: nat, i: nat)
    requires threadID < threads && i < warehouses && Taker(i, threads) == threadID && passes(i + 1)
    requires CheckedTo(checked, passes, warehouses, threads, threadID, i)
    ensures Taker(i + threads, threads) == threadID
    ensures CheckedTo(checked + [i + 1], passes, warehouses, threads, threadID, i + threads)
  {
    assert Own(i + 1, warehouses, threads, threadID);
    OneMore(checked, i);
    forall w | Own(w, warehouses, threads, threadID) && w <= i + threads
      ensures w in checked + [i + 1]
    {
      if w > i {
        TakerUnique(i, w - 1, threads);
      }
    }
  }

  lemma FirstChecked(passes: int -> bool, warehouses: nat, threads: nat, threadID: nat)
    requires threadID < threads
    ensures threadID % threads == Taker(threadID, threads) == threadID
    ensures CheckedTo([], passes, warehouses, threads, threadID, threadID)
  {
    TakerIsMod(threadID, threads);
  }

  /** The warehouses of a thread, one after the other, until one fails. */
  method CheckThread(passes: int -> bool, threads: nat, warehouses: nat, threadID: nat)
    returns (ok: bool, checked: seq<int>)
    requires threadID < threads
    ensures ok <==> forall w :: Own(w, warehouses, threads, threadID) ==> passes(w)
    ensures Increasing(checked) && forall w <- checked :: Own(w, warehouses, threads, threadID)
    ensures ok ==> forall w :: Own(w, warehouses, threads, threadID) ==> w in checked
  {
    checked := [];
    FirstChecked(passes, warehouses, threads, threadID);
    var i := threadID % threads;
    while i < warehouses
      invariant 0 <= i && Taker(i, threads) == threadID
      invariant CheckedTo(checked, passes, warehouses, threads, threadID, i)
    {
      TakerIsMod(i, warehouses);
      var warehouse := i % warehouses + 1;
      if !passes(warehouse) {
        assert Own(warehouse, warehouses, threads, threadID);
        OneMore(checked, i);
        return false, checked + [warehouse];
      }
      CheckedNext(checked, passes, warehouses, threads, threadID, i);
      checked := checked + [warehouse];
      i := i + threads;
    }
    return true, checked;
  }

  /** What thread t checked when all threads succeed. */
  ghost predicate Complete(own: seq<int>, passes: int -> bool, warehouses: nat, threads: nat, t: nat)
    requires threads > 0
  {
    && Increasing(own)
    && forall w :: (w in own <==> Own(w, warehouses, threads, t)) && (w in own ==> passes(w))
  }

  /** Every warehouse is in the list of its thread, once, and in no other. */
  lemma CheckedOnce(checked: seq<seq<int>>, passes: int -> bool, warehouses: nat, threads: nat, w: int, t: nat)
    requires threads > 0 && |checked| == threads && 1 <= w <= warehouses && t < threads
    requires forall j :: 0 <= j < threads ==> Complete(checked[j], passes, warehouses, threads, j)
    ensures w in checked[t] <==> t == (w - 1) % threads
    ensures forall i, j :: 0 <= i < j < |checked[t]| ==> checked[t][i] != checked[t][j]
    ensures passes(w)
  {
    OwnIsMod(w, warehouses, threads, t);
    OwnIsMod(w, warehouses, threads, (w - 1) % threads);
    assert Complete(checked[t], passes, warehouses, threads, t);
    assert Complete(checked[(w - 1) % threads], passes, warehouses, threads, (w - 1) % threads);
  }

  /** All threads succeed exactly when every warehouse passes, for every number of threads. */
  method CheckAll(passes: int -> bool, threads: nat, warehouses: nat) returns (ok: bool, checked: seq<seq<int>>)
    requires threads > 0
    ensures ok <==> forall w :: 1 <= w <= warehouses ==> passes(w)
    ensures |checked| == threads
    ensures ok ==> forall t :: 0 <= t < threads ==> Complete(checked[t], passes, warehouses, threads, t)
  {
    ok, checked := true, [];
    for t := 0 to threads
      invariant |checked| == t
      invariant ok ==> forall j :: 0 <= j < t ==> Complete(checked[j], passes, warehouses, threads, j)
      invariant !ok ==> exists w :: 1 <= w <= warehouses && !passes(w)
    {
      var good, own := CheckThread(passes, threads, warehouses, t);
      if good {
        assert Complete(own, passes, warehouses, threads, t);
      } else {
        ghost var w :| Own(w, warehouses, threads, t) && !passes(w);
      }
      ok, checked := ok && good, checked + [own];
    }
    if ok {
      forall w | 1 <= w <= warehouses
        ensures passes(w)
      {
        CheckedOnce(checked, passes, warehouses, threads, w, 0);
      }
    }
  }
}
