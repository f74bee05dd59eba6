/** Sums and counts over the call table, as the transactions' aggregate queries compute them. */
module Table {
  import opened Types

  function Total(calls: seq<Call>, weight: Call -> nat): nat {
    if calls == [] then 0 else Total(calls[..|calls| - 1], weight) + weight(calls[|calls| - 1])
  }

  lemma TotalAppend(calls: seq<Call>, c: Call, weight: Call -> nat)
    ensures Total(calls + [c], weight) == Total(calls, weight) + weight(c)
  {
    assert (calls + [c])[..|calls|] == calls;
  }

  lemma {:induction false} TotalUpdate(calls: seq<Call>, i: nat, c: Call, weight: Call -> nat)
    requires i < |calls|
    ensures Total(calls[i := c], weight) + weight(calls[i]) == Total(calls, weight) + weight(c)
  {
    var last := |calls| - 1;
    if i == last {
      assert calls[i := c][..last] == calls[..last];
    } else {
      TotalUpdate(calls[..last], i, c, weight);
      assert calls[i := c][..last] == calls[..last][i := c];
    }
  }

  /** Sums compare as their rows do. */
  lemma {:induction false} TotalMono(s: seq<Call>, t: seq<Call>, v: Call -> nat, w: Call -> nat)
    requires |s| == |t| && forall i :: 0 <= i < |s| ==> v(s[i]) <= w(t[i])
    ensures Total(s, v) <= Total(t, w)
  {
    if s != [] {
      TotalMono(s[..|s| - 1], t[..|t| - 1], v, w);
    }
  }

  lemma TotalSame(s: seq<Call>, t: seq<Call>, v: Call -> nat, w: Call -> nat)
    requires |s| == |t| && forall i :: 0 <= i < |s| ==> v(s[i]) == w(t[i])
    ensures Total(s, v) == Total(t, w)
  {
    TotalMono(s, t, v, w);
    TotalMono(t, s, w, v);
  }

  lemma {:induction false} TotalSplit(s: seq<Call>, u: Call -> nat, v: Call -> nat, w: Call -> nat)
    requires forall i :: 0 <= i < |s| ==> u(s[i]) == v(s[i]) + w(s[i])
    ensures Total(s, u) == Total(s, v) + Total(s, w)
  {
    if s != [] {
      TotalSplit(s[..|s| - 1], u, v, w);
    }
  }

  /** A positive sum has a positive row, and each row is at most the sum. */
  lemma {:induction false} TotalPositive(s: seq<Call>, w: Call -> nat)
    ensures Total(s, w) > 0 <==> exists i :: 0 <= i < |s| && w(s[i]) > 0
  {
    if s != [] {
      var last := |s| - 1;
      TotalPositive(s[..last], w);
      if Total(s[..last], w) > 0 {
        var i :| 0 <= i < last && w(s[..last][i]) > 0;
        assert w(s[i]) > 0;
      }
      if i :| 0 <= i < last && w(s[i]) > 0 {
        assert w(s[..last][i]) > 0;
      }
    }
  }

  lemma {:induction false} RowWithinTotal(s: seq<Call>, i: nat, w: Call -> nat)
    requires i < |s|
    ensures w(s[i]) <= Total(s, w)
  {
    if i < |s| - 1 {
      RowWithinTotal(s[..|s| - 1], i, w);
    }
  }

  // -------------------------------------------------------------------- row keys

  /** The row of an attempt: attempt ids are the primary key of the table. */
  function Find(calls: seq<Call>, attempt: Id): Option<nat> {
    if calls == [] then None
    else if calls[|calls| - 1].attempt == attempt then Some(|calls| - 1)
    else Find(calls[..|calls| - 1], attempt)
  }

  lemma {:induction false} FindMeans(calls: seq<Call>, attempt: Id)
    ensures match Find(calls, attempt)
            case Some(i) => i < |calls| && calls[i].attempt == attempt
            case None => forall i :: 0 <= i < |calls| ==> calls[i].attempt != attempt
  {
    if calls != [] && calls[|calls| - 1].attempt != attempt {
      FindMeans(calls[..|calls| - 1], attempt);
      forall i | 0 <= i < |calls| && Find(calls, attempt).None? ensures calls[i].attempt != attempt {
        if i < |calls| - 1 {
          assert calls[i] == calls[..|calls| - 1][i];
        }
      }
    }
  }
}
