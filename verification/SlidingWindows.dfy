// Sliding windows kept as trimmed queues, against windows over the whole history.

module SlidingWindows {

  datatype Entry = Entry(at: real, weight: real)

  function Total(calls: seq<Entry>): real {
    if calls == [] then 0.0 else calls[0].weight + Total(calls[1..])
  }

  // What popping expired entries off the front leaves.
  function Trim(calls: seq<Entry>, cutoff: real): (r: seq<Entry>)
    ensures |r| <= |calls|
  {
    if calls == [] || calls[0].at > cutoff then calls else Trim(calls[1..], cutoff)
  }

  // The entries of the whole history in the half-open window (from, from + width].
  function Within(calls: seq<Entry>, from: real, width: real): seq<Entry> {
    if calls == [] then []
    else if from < calls[0].at <= from + width then [calls[0]] + Within(calls[1..], from, width)
    else Within(calls[1..], from, width)
  }

  ghost predicate Positive(calls: seq<Entry>) {
    forall i :: 0 <= i < |calls| ==> calls[i].weight > 0.0
  }

  ghost predicate Ordered(calls: seq<Entry>) {
    forall i, j :: 0 <= i < j < |calls| ==> calls[i].at <= calls[j].at
  }

  ghost predicate NoLaterThan(calls: seq<Entry>, now: real) {
    forall i :: 0 <= i < |calls| ==> calls[i].at <= now
  }

  // No window of this width, wherever it starts, holds more than `limit`.
  ghost predicate WindowsBounded(calls: seq<Entry>, width: real, limit: real) {
    forall from: real :: Total(Within(calls, from, width)) <= limit
  }

  lemma {:induction false} TotalAppend(calls: seq<Entry>, e: Entry)
    ensures Total(calls + [e]) == Total(calls) + e.weight
  {
    if calls == [] {
      assert calls + [e] == [e];
    } else {
      assert (calls + [e])[1..] == calls[1..] + [e];
      TotalAppend(calls[1..], e);
    }
  }

  lemma {:induction false} TrimKeeps(calls: seq<Entry>, cutoff: real)
    requires Positive(calls)
    ensures Positive(Trim(calls, cutoff)) && Total(Trim(calls, cutoff)) <= Total(calls)
    ensures Trim(calls, cutoff) != [] ==> Trim(calls, cutoff)[0].at > cutoff
    ensures |Trim(calls, cutoff)| == |calls| ==> Trim(calls, cutoff) == calls
  {
    if calls != [] && calls[0].at <= cutoff {
      TrimKeeps(calls[1..], cutoff);
    }
  }

  lemma {:induction false} TrimAgain(calls: seq<Entry>, c1: real, c2: real)
    requires c1 <= c2
    ensures Trim(Trim(calls, c1), c2) == Trim(calls, c2)
  {
    if calls != [] && calls[0].at <= c1 {
      TrimAgain(calls[1..], c1, c2);
    }
  }

  lemma {:induction false} TrimAppend(calls: seq<Entry>, e: Entry, cutoff: real)
    requires e.at > cutoff
    ensures Trim(calls + [e], cutoff) == Trim(calls, cutoff) + [e]
  {
    if calls == [] {
      assert calls + [e] == [e];
    } else if calls[0].at <= cutoff {
      assert (calls + [e])[1..] == calls[1..] + [e];
      TrimAppend(calls[1..], e, cutoff);
    }
  }

  lemma {:induction false} WithinAppend(calls: seq<Entry>, e: Entry, from: real, width: real)
    ensures Within(calls + [e], from, width)
         == Within(calls, from, width) + (if from < e.at <= from + width then [e] else [])
  {
    if calls == [] {
      assert calls + [e] == [e];
    } else {
      assert (calls + [e])[1..] == calls[1..] + [e];
      WithinAppend(calls[1..], e, from, width);
    }
  }

  // A window that starts at or after the cutoff weighs no more than the trimmed queue.
  lemma {:induction false} WithinTrimmed(calls: seq<Entry>, from: real, width: real, cutoff: real)
    requires Ordered(calls) && Positive(calls) && cutoff <= from
    ensures Total(Within(calls, from, width)) <= Total(Trim(calls, cutoff))
  {
    if calls == [] {
    } else if calls[0].at <= cutoff {
      WithinTrimmed(calls[1..], from, width, cutoff);
    } else {
      WithinTrimmed(calls[1..], from, width, cutoff);
      TrimKeeps(calls[1..], cutoff);
    }
  }

  // A new entry that fits beside the trimmed queue keeps every window of the history bounded.
  lemma AppendKeepsBound(calls: seq<Entry>, e: Entry, width: real, limit: real)
    requires Ordered(calls) && Positive(calls) && e.weight > 0.0
    requires WindowsBounded(calls, width, limit)
    requires Total(Trim(calls, e.at - width)) + e.weight <= limit
    ensures WindowsBounded(calls + [e], width, limit)
  {
    forall from: real ensures Total(Within(calls + [e], from, width)) <= limit {
      WithinAppend(calls, e, from, width);
      if from < e.at <= from + width {
        WithinTrimmed(calls, from, width, e.at - width);
        TotalAppend(Within(calls, from, width), e);
      } else {
        assert Within(calls, from, width) + [] == Within(calls, from, width);
        assert Total(Within(calls, from, width)) <= limit;
      }
    }
  }

  // The trimmed queue of an ordered history is what lies in the window that ends now.
  lemma {:induction false} TrimIsWithin(h: seq<Entry>, now: real, width: real)
    requires Ordered(h) && NoLaterThan(h, now)
    ensures Trim(h, now - width) == Within(h, now - width, width)
  {
    if h != [] {
      TrimIsWithin(h[1..], now, width);
      if h[0].at > now - width {
        forall i | 0 <= i < |h| ensures h[i].at > now - width {
        }
        AllWithin(h, now, width);
      }
    }
  }

  lemma {:induction false} AllWithin(h: seq<Entry>, now: real, width: real)
    requires NoLaterThan(h, now) && forall i :: 0 <= i < |h| ==> h[i].at > now - width
    ensures Within(h, now - width, width) == h
  {
    if h != [] {
      AllWithin(h[1..], now, width);
    }
  }
}
