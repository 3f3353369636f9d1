/**
 Exactly which attempts the login limiter admits: those for which the earlier admissions leave room in every
 stretch of the key's attempts that ends just before them.
 */
module LimiterExact {
  import opened Options
  import opened Limiter

  // ----- one key -----

  predicate InOrder(times: seq<real>) {
    forall i, j :: 0 <= i <= j < |times| ==> times[i] <= times[j]
  }

  /** What is left of a full bucket and the inflow since attempt `k`, after the admissions from there up to attempt `n`. */
  function Room(perMinute: int, answers: seq<bool>, times: seq<real>, k: nat, n: nat): real
    requires k <= n < |times| && |answers| == |times|
  {
    perMinute as real + Flow(perMinute, times[n] - times[k]) - Admitted(answers[k..n]) as real
  }

  /** The tokens that attempt `n` finds. */
  function LevelOf(perMinute: int, times: seq<real>, n: nat): real
    requires n < |times|
  {
    var b := After(perMinute, None, times[..n]);
    if b.None? then perMinute as real else Level(perMinute, b.value, times[n])
  }

  function BucketBefore(perMinute: int, b: Option<Bucket>, now: real): Bucket {
    if b.Some? then b.value else Bucket(now, perMinute as real)
  }

  lemma {:induction false} AfterOneMore(perMinute: int, b: Option<Bucket>, xs: seq<real>, t: real)
    ensures After(perMinute, b, xs + [t]) == Some(Hit(perMinute, BucketBefore(perMinute, After(perMinute, b, xs), t), t).0)
    decreases |xs|
  {
    hide Hit;
    if xs == [] {
      assert xs + [t] == [t];
      assert After(perMinute, b, [t]) == After(perMinute, Some(Hit(perMinute, BucketBefore(perMinute, b, t), t).0), [t][1..]);
    } else {
      assert (xs + [t])[1..] == xs[1..] + [t];
      AfterOneMore(perMinute, Some(Hit(perMinute, BucketBefore(perMinute, b, xs[0]), xs[0]).0), xs[1..], t);
    }
  }

  /** The answer to attempt `n` is decided by the bucket as it is then. */
  lemma AnswerAt(perMinute: int, times: seq<real>, n: nat)
    requires perMinute > 0 && n < |times|
    ensures var b := BucketBefore(perMinute, After(perMinute, None, times[..n]), times[n]);
            Own(perMinute, None, times)[n] == Hit(perMinute, b, times[n]).1
  {
    hide Hit, After;
    assert times == times[..n] + times[n..];
    OwnSplit(perMinute, None, times[..n], times[n..]);
    var b := After(perMinute, None, times[..n]);
    assert Own(perMinute, None, times)[n] == Own(perMinute, b, times[n..])[0];
  }

  lemma {:induction false} AdmittedOneMore(answers: seq<bool>, a: bool)
    ensures Admitted(answers + [a]) == Admitted(answers) + if a then 1 else 0
  {
    if answers == [] {
      assert answers + [a] == [a] && [a][1..] == [];
    } else {
      assert (answers + [a])[1..] == answers[1..] + [a];
      AdmittedOneMore(answers[1..], a);
    }
  }

  lemma RoomOneMore(perMinute: int, answers: seq<bool>, times: seq<real>, k: nat, n: nat)
    requires k <= n && n + 1 < |times| && |answers| == |times|
    ensures Room(perMinute, answers, times, k, n + 1) ==
            Room(perMinute, answers, times, k, n) + Flow(perMinute, times[n + 1] - times[n]) - if answers[n] then 1.0 else 0.0
    ensures Room(perMinute, answers, times, n + 1, n + 1) == perMinute as real
  {
    assert answers[k..n + 1] == answers[k..n] + [answers[n]];
    AdmittedOneMore(answers[k..n], answers[n]);
    FlowAdds(perMinute, times[n] - times[k], times[n + 1] - times[n]);
    FlowAdds(perMinute, 0.0, 0.0);
    assert answers[n + 1..n + 1] == [];
    hide Flow, Admitted;
    assert times[n + 1] - times[k] == (times[n] - times[k]) + (times[n + 1] - times[n]);
  }

  /** What an attempt leaves, and what the next one finds. */
  lemma LevelOneMore(perMinute: int, times: seq<real>, n: nat)
    requires perMinute > 0 && InOrder(times) && n + 1 < |times|
    ensures var level, ok := LevelOf(perMinute, times, n), Own(perMinute, None, times)[n];
            && ok == (level >= 1.0)
            && LevelOf(perMinute, times, n + 1) ==
               Min(perMinute as real, level - (if ok then 1.0 else 0.0) + Flow(perMinute, times[n + 1] - times[n]))
  {
    AnswerAt(perMinute, times, n);
    assert times[..n + 1] == times[..n] + [times[n]];
    AfterOneMore(perMinute, None, times[..n], times[n]);
    FullLevel(perMinute, times[n]);
    hide After, Own, Flow;
  }

  lemma FullLevel(perMinute: int, now: real)
    requires perMinute > 0
    ensures Level(perMinute, Bucket(now, perMinute as real), now) == perMinute as real
  {
    FlowAdds(perMinute, 0.0, 0.0);
    hide Flow;
  }

  /** An attempt finds as many tokens as the tightest stretch before it leaves. */
  lemma {:induction false} LevelIsTightest(perMinute: int, times: seq<real>, n: nat)
    requires perMinute > 0 && InOrder(times) && n < |times|
    ensures var answers := Own(perMinute, None, times);
            && (forall k :: 0 <= k <= n ==> LevelOf(perMinute, times, n) <= Room(perMinute, answers, times, k, n))
            && (exists k :: 0 <= k <= n && LevelOf(perMinute, times, n) == Room(perMinute, answers, times, k, n))
  {
    var answers := Own(perMinute, None, times);
    if n == 0 {
      FlowAdds(perMinute, 0.0, 0.0);
      assert answers[0..0] == [];
      assert LevelOf(perMinute, times, 0) == Room(perMinute, answers, times, 0, 0);
    } else {
      hide LevelOf, Room, Own, Flow;
      LevelIsTightest(perMinute, times, n - 1);
      LevelOneMore(perMinute, times, n - 1);
      var step := Flow(perMinute, times[n] - times[n - 1]) - if answers[n - 1] then 1.0 else 0.0;
      forall k | 0 <= k < n
        ensures Room(perMinute, answers, times, k, n) == Room(perMinute, answers, times, k, n - 1) + step
      {
        RoomOneMore(perMinute, answers, times, k, n - 1);
      }
      RoomOneMore(perMinute, answers, times, 0, n - 1);
      var k :| 0 <= k <= n - 1 && LevelOf(perMinute, times, n - 1) == Room(perMinute, answers, times, k, n - 1);
      assert LevelOf(perMinute, times, n) in {Room(perMinute, answers, times, k, n), Room(perMinute, answers, times, n, n)};
    }
  }

  /** The last attempt finds a token exactly when every stretch leaves one. */
  lemma OwnExact(perMinute: int, times: seq<real>, n: nat)
    requires perMinute > 0 && InOrder(times) && n < |times|
    ensures var answers := Own(perMinute, None, times);
            answers[n] <==> forall k :: 0 <= k <= n ==> Room(perMinute, answers, times, k, n) >= 1.0
  {
    hide Room, Own;
    LevelIsTightest(perMinute, times, n);
    AnswerAt(perMinute, times, n);
    FullLevel(perMinute, times[n]);
    hide After, Flow;
    var answers := Own(perMinute, None, times);
    assert answers[n] == (LevelOf(perMinute, times, n) >= 1.0);
  }

  // ----- the limiter -----

  lemma {:induction false} TimesInOrder(from: real, calls: seq<Call>, key: string)
    requires Ordered(from, calls)
    ensures InOrder(TimesOf(calls, key)) && forall i :: 0 <= i < |TimesOf(calls, key)| ==> from <= TimesOf(calls, key)[i]
    decreases |calls|
  {
    if calls != [] {
      TimesInOrder(calls[0].at, calls[1..], key);
    }
  }

  /**
   An attempt is admitted if and only if, for every stretch of the same key's earlier attempts that ends just
   before it, the admissions in the stretch number at most `perMinute - 1` plus what has flowed in since the
   stretch began.  Other keys and sweeps make no difference.
   */
  lemma AdmittedExactly(perMinute: int, start: real, calls: seq<Call>, key: string, n: nat)
    requires perMinute > 0 && Ordered(start, calls) && n < |TimesOf(calls, key)|
    ensures var answers, times := AnswersTo(Answers(perMinute, Table(start, map[]), calls), calls, key), TimesOf(calls, key);
            && |answers| == |times|
            && (answers[n] <==>
                forall k :: 0 <= k < n ==>
                  Admitted(answers[k..n]) as real <= perMinute as real - 1.0 + perMinute as real * (times[n] - times[k]) / 60.0)
  {
    hide Answers, AnswersTo, TimesOf, Own, Admitted, Ordered;
    var times := TimesOf(calls, key);
    KeysAreIndependent(perMinute, start, calls, key);
    TimesInOrder(start, calls, key);
    OwnExact(perMinute, times, n);
    var answers := Own(perMinute, None, times);
    forall k | 0 <= k <= n
      ensures Room(perMinute, answers, times, k, n) ==
              perMinute as real + perMinute as real * (times[n] - times[k]) / 60.0 - Admitted(answers[k..n]) as real
    {
      RoomIs(perMinute, answers, times, k, n);
    }
    NoStretch(answers, n);
    assert times[n] - times[n] == 0.0;
  }

  lemma RoomIs(perMinute: int, answers: seq<bool>, times: seq<real>, k: nat, n: nat)
    requires perMinute > 0 && k <= n < |times| && |answers| == |times|
    ensures Room(perMinute, answers, times, k, n) ==
            perMinute as real + perMinute as real * (times[n] - times[k]) / 60.0 - Admitted(answers[k..n]) as real
  {
    hide Admitted;
    RateTimes(perMinute, times[n] - times[k]);
  }

  lemma RateTimes(perMinute: int, d: real)
    ensures Flow(perMinute, d) == perMinute as real * d / 60.0
  {
    var p := perMinute as real;
    assert d * (p / 60.0) == p * d / 60.0;
  }

  lemma NoStretch(answers: seq<bool>, n: nat)
    requires n <= |answers|
    ensures Admitted(answers[n..n]) == 0
  {
  }

  // ----- bursts -----

  lemma {:induction false} AtMostAll(answers: seq<bool>)
    ensures Admitted(answers) <= |answers|
  {
    if answers != [] {
      AtMostAll(answers[1..]);
    }
  }

  lemma {:induction false} AdmittedJoin(a: seq<bool>, b: seq<bool>)
    ensures Admitted(a + b) == Admitted(a) + Admitted(b)
  {
    if a == [] {
      assert a + b == b;
    } else {
      assert (a + b)[1..] == a[1..] + b;
      AdmittedJoin(a[1..], b);
    }
  }

  /** Fewer than `perMinute` attempts cannot fill a stretch. */
  lemma ShortStretch(perMinute: int, answers: seq<bool>, times: seq<real>, k: nat, n: nat)
    requires perMinute > 0 && InOrder(times) && k <= n < |times| && |answers| == |times| && n - k < perMinute
    ensures Room(perMinute, answers, times, k, n) >= 1.0
  {
    hide Flow, Admitted;
    AtMostAll(answers[k..n]);
    FlowFacts(perMinute, times[n] - times[k]);
  }

  lemma OwnBurst(perMinute: int, times: seq<real>, n: nat)
    requires perMinute > 0 && InOrder(times) && n < |times| && n < perMinute
    ensures Own(perMinute, None, times)[n]
  {
    hide Room, Own;
    OwnExact(perMinute, times, n);
    forall k | 0 <= k <= n ensures Room(perMinute, Own(perMinute, None, times), times, k, n) >= 1.0 {
      ShortStretch(perMinute, Own(perMinute, None, times), times, k, n);
    }
  }

  /** The admissions of a stretch are bounded by a full bucket and the inflow up to its last attempt. */
  lemma {:induction false} StretchUsed(perMinute: int, times: seq<real>, k: nat, m: nat)
    requires perMinute > 0 && InOrder(times) && k < m <= |times|
    ensures Admitted(Own(perMinute, None, times)[k..m]) as real <= perMinute as real + Flow(perMinute, times[m - 1] - times[k])
    decreases m
  {
    hide Own, Flow, Admitted;
    var answers := Own(perMinute, None, times);
    OwnExact(perMinute, times, m - 1);
    assert answers[k..m] == answers[k..m - 1] + [answers[m - 1]];
    AdmittedOneMore(answers[k..m - 1], answers[m - 1]);
    FlowFacts(perMinute, times[m - 1] - times[k]);
    if answers[m - 1] {
      assert Room(perMinute, answers, times, k, m - 1) >= 1.0;
    } else if k == m - 1 {
      NoStretch(answers, k);
    } else {
      StretchUsed(perMinute, times, k, m - 1);
      FlowAdds(perMinute, times[m - 2] - times[k], times[m - 1] - times[m - 2]);
      assert times[m - 1] - times[k] == (times[m - 2] - times[k]) + (times[m - 1] - times[m - 2]);
      FlowFacts(perMinute, times[m - 1] - times[m - 2]);
    }
  }

  lemma RestedRoom(perMinute: int, times: seq<real>, k: nat, m: nat, n: nat)
    requires perMinute > 0 && InOrder(times) && k < m <= n < |times| && n - m < perMinute && times[m] - times[m - 1] >= MINUTE
    ensures Room(perMinute, Own(perMinute, None, times), times, k, n) >= 1.0
  {
    hide Own, Flow, Admitted;
    var answers := Own(perMinute, None, times);
    StretchUsed(perMinute, times, k, m);
    AtMostAll(answers[m..n]);
    assert answers[k..n] == answers[k..m] + answers[m..n];
    AdmittedJoin(answers[k..m], answers[m..n]);
    FlowAdds(perMinute, times[m - 1] - times[k], times[n] - times[m - 1]);
    assert times[n] - times[k] == (times[m - 1] - times[k]) + (times[n] - times[m - 1]);
    FlowFacts(perMinute, times[n] - times[m - 1]);
  }

  lemma OwnBurstAfterRest(perMinute: int, times: seq<real>, m: nat, n: nat)
    requires perMinute > 0 && InOrder(times) && 0 < m <= n < |times| && n - m < perMinute && times[m] - times[m - 1] >= MINUTE
    ensures Own(perMinute, None, times)[n]
  {
    hide Room, Own;
    OwnExact(perMinute, times, n);
    forall k | 0 <= k <= n ensures Room(perMinute, Own(perMinute, None, times), times, k, n) >= 1.0 {
      if k < m {
        RestedRoom(perMinute, times, k, m, n);
      } else {
        ShortStretch(perMinute, Own(perMinute, None, times), times, k, n);
      }
    }
  }

  /**
   A new key's first `perMinute` attempts are all admitted, at whatever times; and so are `perMinute` attempts
   after a minute of rest.
   */
  lemma Burst(perMinute: int, start: real, calls: seq<Call>, key: string, m: nat, n: nat)
    requires perMinute > 0 && Ordered(start, calls) && m <= n < |TimesOf(calls, key)| && n - m < perMinute
    requires m > 0 ==> TimesOf(calls, key)[m] - TimesOf(calls, key)[m - 1] >= 60.0
    ensures var answers := AnswersTo(Answers(perMinute, Table(start, map[]), calls), calls, key);
            n < |answers| && answers[n]
  {
    hide Answers, AnswersTo, TimesOf, Own, Ordered;
    KeysAreIndependent(perMinute, start, calls, key);
    TimesInOrder(start, calls, key);
    if m == 0 {
      OwnBurst(perMinute, TimesOf(calls, key), n);
    } else {
      OwnBurstAfterRest(perMinute, TimesOf(calls, key), m, n);
    }
  }

  // ----- what a sweep forgets -----

  /**
   A sweep happens when there are 1024 buckets or a minute has passed since the last one, and then drops
   exactly the buckets that have been idle for more than two minutes.
   */
  lemma SweepIsExact(t: Table, now: real)
    ensures var r := Sweep(t, now);
            if |t.buckets| >= 1024 || now - t.lastSweep >= 60.0
            then r.lastSweep == now
                 && (forall key :: key in r.buckets <==> key in t.buckets && now - t.buckets[key].last <= 120.0)
                 && (forall key :: key in r.buckets ==> r.buckets[key] == t.buckets[key])
            else r == t
  {
  }
}
