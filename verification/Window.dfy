/** The sliding sample window against the full log it summarises. */
module Window {
  import opened Domain
  import opened Protocol

  /** The window after appending every sample of `log` in turn. */
  function Folded(log: seq<Sample>): seq<Sample> {
    if log == [] then [] else Appended(Folded(log[..|log| - 1]), log[|log| - 1])
  }

  /** The log since its last gap of more than ten seconds. */
  function SinceGap(log: seq<Sample>): seq<Sample> {
    if |log| <= 1 then log
    else if log[|log| - 1].at - log[|log| - 2].at > MAX_AGE then [log[|log| - 1]]
    else SinceGap(log[..|log| - 1]) + [log[|log| - 1]]
  }

  predicate Ordered(log: seq<Sample>) {
    forall j, k | 0 <= j < k < |log| :: log[j].at <= log[k].at
  }

  /** `w` is `log` from position `j`; nothing shorter passes the length and span test,
      and `w` itself passes it unless it is the whole log. */
  ghost predicate WindowFrom(w: seq<Sample>, log: seq<Sample>, j: nat) {
    && j <= |log| && w == log[j..]
    && (forall k | j < k <= |log| :: !LongEnough(log[k..]))
    && (LongEnough(w) || j == 0)
  }

  /** The shortest suffix that passes the test, or the whole log when none does. */
  ghost predicate IsWindow(w: seq<Sample>, log: seq<Sample>) {
    exists j: nat :: WindowFrom(w, log, j)
  }

  /** How far pruning goes. */
  lemma {:induction false} PrunedFrom(h: seq<Sample>, now: int) returns (d: nat)
    requires |h| > 0
    ensures d < |h| && Pruned(h, now) == h[d..]
    ensures d > 0 ==> |h| - d >= 3 && now - h[d].at >= STABLE_TIME
    ensures |h| - d <= 3 || now - h[d + 1].at < STABLE_TIME
    decreases |h|
  {
    if |h| > 3 && now - h[1].at >= STABLE_TIME {
      var e := PrunedFrom(h[1..], now);
      d := e + 1;
      assert h[1..][e..] == h[d..];
    } else {
      d := 0;
    }
  }

  /** A pruned window of an ordered log leaves no shorter suffix that passes the test. */
  lemma NothingShorter(log: seq<Sample>, c: nat, k: nat)
    requires Ordered(log) && c < k <= |log|
    requires |log| - c <= 3 || log[|log| - 1].at - log[c + 1].at < STABLE_TIME
    ensures !LongEnough(log[k..])
  {
    var s := log[k..];
    if |s| >= 3 {
      assert s[0] == log[k] && s[|s| - 1] == log[|log| - 1];
      assert log[c + 1].at <= log[k].at;
    }
  }

  /** Appending to a long enough suffix leaves it long enough. */
  lemma LongerStaysLong(log: seq<Sample>, x: Sample, j: nat)
    requires Ordered(log + [x]) && j <= |log| && LongEnough(log[j..])
    ensures LongEnough((log + [x])[j..])
  {
    var s, t := log[j..], (log + [x])[j..];
    assert t == s + [x];
    assert t[0] == s[0] && log[|log| - 1] == s[|s| - 1] && (log + [x])[|log| - 1].at <= (log + [x])[|log|].at;
  }

  /** One append moves the window of the log to the window of the longer log. */
  lemma AppendedWindow(w: seq<Sample>, log: seq<Sample>, j: nat, x: Sample)
    requires WindowFrom(w, log, j) && Ordered(log + [x])
    requires |log| > 0 ==> x.at - log[|log| - 1].at <= MAX_AGE
    ensures IsWindow(Appended(w, x), log + [x])
  {
    hide Ordered, LongEnough;
    var longer := log + [x];
    var h := w + [x];
    assert h == longer[j..];
    var d := PrunedFrom(h, x.at);
    var c := j + d;
    assert Appended(w, x) == h[d..] by {
      assert |w| > 0 ==> w[|w| - 1] == log[|log| - 1];
    }
    assert h[d..] == longer[c..];
    assert |h| - d > 3 ==> h[d + 1] == longer[c + 1];
    forall k | c < k <= |longer|
      ensures !LongEnough(longer[k..])
    {
      NothingShorter(longer, c, k);
    }
    if d > 0 {
      Passes(longer, c);
    } else if j > 0 {
      LongerStaysLong(log, x, j);
    }
    assert WindowFrom(Appended(w, x), longer, c);
  }

  lemma Passes(log: seq<Sample>, c: nat)
    requires c + 3 <= |log| && log[|log| - 1].at - log[c].at >= STABLE_TIME
    ensures LongEnough(log[c..])
  {
    var s := log[c..];
    assert s[0] == log[c] && s[|s| - 1] == log[|log| - 1];
  }

  lemma {:induction false} SinceGapFacts(log: seq<Sample>)
    requires Ordered(log)
    ensures Ordered(SinceGap(log)) && (log != [] ==> SinceGap(log) != [])
    ensures log != [] ==> SinceGap(log)[|SinceGap(log)| - 1] == log[|log| - 1]
    ensures forall y | y in SinceGap(log) :: y in log
  {
    if |log| > 1 {
      var front, x := log[..|log| - 1], log[|log| - 1];
      SinceGapFacts(front);
      forall k | 0 <= k < |SinceGap(front)|
        ensures SinceGap(front)[k].at <= x.at
      {
        assert SinceGap(front)[k] in front;
      }
    }
  }

  /** Pruning loses nothing: the window is the shortest suffix of the log since the last
      gap that passes the length and span test, or that whole log when none does. */
  lemma {:induction false} WindowRefinesLog(log: seq<Sample>)
    requires Ordered(log)
    ensures IsWindow(Folded(log), SinceGap(log))
  {
    hide LongEnough, Ordered, Appended, WindowFrom;
    if log == [] {
      WholeWindow([]);
    } else {
      var front, x := log[..|log| - 1], log[|log| - 1];
      OrderedFront(log);
      WindowRefinesLog(front);
      SinceGapFacts(front);
      SinceGapFacts(log);
      var past := SinceGap(front);
      var j: nat :| WindowFrom(Folded(front), past, j);
      if front != [] && x.at - front[|front| - 1].at > MAX_AGE {
        AppendedAfterGap(Folded(front), past, j, x);
        WholeWindow([x]);
      } else {
        assert past + [x] == SinceGap(log);
        AppendedWindow(Folded(front), past, j, x);
      }
    }
  }

  lemma OrderedFront(log: seq<Sample>)
    requires Ordered(log) && log != []
    ensures Ordered(log[..|log| - 1])
  {}

  lemma WholeWindow(log: seq<Sample>)
    requires |log| < 3
    ensures WindowFrom(log, log, 0)
  {}

  /** After a gap only the new sample remains. */
  lemma AppendedAfterGap(w: seq<Sample>, log: seq<Sample>, j: nat, x: Sample)
    requires WindowFrom(w, log, j) && log != [] && x.at - log[|log| - 1].at > MAX_AGE
    ensures Appended(w, x) == [x]
  {
    assert w != [] && w[|w| - 1] == log[|log| - 1];
  }

  /** The length and span test of `stable` cannot tell the window from the log. */
  lemma WindowDecidesAsLog(log: seq<Sample>)
    requires Ordered(log)
    ensures LongEnough(Folded(log)) <==> LongEnough(SinceGap(log))
  {
    WindowRefinesLog(log);
    SinceGapFacts(log);
    var whole, w := SinceGap(log), Folded(log);
    var j: nat :| WindowFrom(w, whole, j);
    assert whole[0..] == whole;
    if LongEnough(w) {
      assert w[0] == whole[j] && w[|w| - 1] == whole[|whole| - 1];
    }
  }

  /** `appendHistory`: the loop that appends and prunes. */
  method AppendHistory(history: seq<Sample>, x: Sample) returns (h: seq<Sample>)
    ensures h == Appended(history, x)
  {
    h := history;
    if |h| > 0 && x.at - h[|h| - 1].at > MAX_AGE {
      h := [];
    }
    h := h + [x];
    while |h| > 3 && x.at - h[1].at >= STABLE_TIME
      invariant Pruned(h, x.at) == Appended(history, x)
      decreases |h|
    {
      h := h[1..];
    }
  }
}
