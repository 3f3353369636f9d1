/**
 The login limiter: a token bucket per client address, with buckets swept away lazily.

 Times are seconds and token counts are exact reals.  `Allow` is one call on the swept table,
 `AllowUnswept` the same call on a table that is never swept, and `Own` what one key sees on its own.
 */
module Limiter {
  import opened Options

  datatype Bucket = Bucket(last: real, tokens: real)

  datatype Table = Table(lastSweep: real, buckets: map<string, Bucket>)

  datatype Call = Call(key: string, at: real)

  const MAX_BUCKETS := 1024
  const MINUTE := 60.0
  const IDLE := 120.0

  function Min(a: real, b: real): real {
    if a < b then a else b
  }

  /** Tokens per second. */
  function Rate(perMinute: int): real {
    perMinute as real / 60.0
  }

  /** The tokens that flow in during `d` seconds. */
  function Flow(perMinute: int, d: real): real {
    d * Rate(perMinute)
  }

  function Level(perMinute: int, b: Bucket, now: real): real {
    Min(perMinute as real, b.tokens + Flow(perMinute, now - b.last))
  }

  /** The bucket after an attempt at `now`, and whether the attempt is admitted. */
  function Hit(perMinute: int, b: Bucket, now: real): (Bucket, bool) {
    var level := Level(perMinute, b, now);
    if level < 1.0 then (Bucket(now, level), false) else (Bucket(now, level - 1.0), true)
  }

  /** A missing bucket is a full one. */
  function Find(perMinute: int, buckets: map<string, Bucket>, key: string, now: real): Bucket {
    if key in buckets then buckets[key] else Bucket(now, perMinute as real)
  }

  function Sweep(t: Table, now: real): Table {
    if |t.buckets| < MAX_BUCKETS && now - t.lastSweep < MINUTE then t
    else Table(now, map key | key in t.buckets && now - t.buckets[key].last <= IDLE :: t.buckets[key])
  }

  function Allow(perMinute: int, t: Table, key: string, now: real): (Table, bool) {
    if perMinute <= 0 then (t, true) else
    var t1 := Sweep(t, now);
    var (b, ok) := Hit(perMinute, Find(perMinute, t1.buckets, key, now), now);
    (t1.(buckets := t1.buckets[key := b]), ok)
  }

  // ----- runs of calls -----

  /** The times do not go back, and start no earlier than `from`. */
  predicate Ordered(from: real, calls: seq<Call>)
    decreases |calls|
  {
    calls == [] || (from <= calls[0].at && Ordered(calls[0].at, calls[1..]))
  }

  function Answers(perMinute: int, t: Table, calls: seq<Call>): (r: seq<bool>)
    ensures |r| == |calls|
    decreases |calls|
  {
    if calls == [] then [] else
    var (t1, ok) := Allow(perMinute, t, calls[0].key, calls[0].at);
    [ok] + Answers(perMinute, t1, calls[1..])
  }

  function AllowUnswept(perMinute: int, buckets: map<string, Bucket>, key: string, now: real): (map<string, Bucket>, bool) {
    if perMinute <= 0 then (buckets, true) else
    var (b, ok) := Hit(perMinute, Find(perMinute, buckets, key, now), now);
    (buckets[key := b], ok)
  }

  function UnsweptAnswers(perMinute: int, buckets: map<string, Bucket>, calls: seq<Call>): (r: seq<bool>)
    ensures |r| == |calls|
    decreases |calls|
  {
    if calls == [] then [] else
    var (b1, ok) := AllowUnswept(perMinute, buckets, calls[0].key, calls[0].at);
    [ok] + UnsweptAnswers(perMinute, b1, calls[1..])
  }

  /** What one key is answered for its own attempts, starting from its bucket if it has one. */
  function Own(perMinute: int, b: Option<Bucket>, times: seq<real>): (r: seq<bool>)
    ensures |r| == |times|
    decreases |times|
  {
    if times == [] then []
    else if perMinute <= 0 then [true] + Own(perMinute, b, times[1..])
    else
      var (b1, ok) := Hit(perMinute, if b.Some? then b.value else Bucket(times[0], perMinute as real), times[0]);
      [ok] + Own(perMinute, Some(b1), times[1..])
  }

  // ----- the sweep is invisible -----

  predicate Sound(perMinute: int, b: Bucket, now: real) {
    0.0 <= b.tokens <= perMinute as real && b.last <= now
  }

  /** The swept table agrees with the other, except for buckets that have been idle for a minute. */
  ghost predicate Similar(perMinute: int, t: Table, all: map<string, Bucket>, now: real) {
    && (forall key :: key in t.buckets ==> key in all && t.buckets[key] == all[key])
    && (forall key :: key in all ==> Sound(perMinute, all[key], now))
    && (forall key :: key in all && key !in t.buckets ==> now - all[key].last >= MINUTE)
  }

  lemma FlowFacts(perMinute: int, d: real)
    requires perMinute > 0 && d >= 0.0
    ensures Flow(perMinute, d) >= 0.0
    ensures d >= MINUTE ==> Flow(perMinute, d) >= perMinute as real
    ensures d * perMinute as real >= MINUTE ==> Flow(perMinute, d) >= 1.0
    ensures Flow(perMinute, d) == perMinute as real * d / 60.0
  {
    var p := perMinute as real;
    assert d * Rate(perMinute) == d * p / 60.0;
    assert d >= MINUTE ==> d * p >= MINUTE * p;
  }

  lemma FlowAdds(perMinute: int, d: real, e: real)
    ensures Flow(perMinute, d + e) == Flow(perMinute, d) + Flow(perMinute, e)
    ensures Flow(perMinute, 0.0) == 0.0
  {
  }

  lemma HitSound(perMinute: int, b: Bucket, now: real)
    requires perMinute > 0 && Sound(perMinute, b, now)
    ensures Sound(perMinute, Hit(perMinute, b, now).0, now)
  {
    FlowFacts(perMinute, now - b.last);
  }

  /** Idle for a minute is as good as new. */
  lemma IdleIsFull(perMinute: int, b: Bucket, now: real)
    requires perMinute > 0 && Sound(perMinute, b, now) && now - b.last >= MINUTE
    ensures Hit(perMinute, b, now) == Hit(perMinute, Bucket(now, perMinute as real), now)
  {
    FlowFacts(perMinute, now - b.last);
    FlowFacts(perMinute, 0.0);
  }

  /** A sweep only drops buckets that have been idle for two minutes. */
  lemma SweepSimilar(perMinute: int, t: Table, all: map<string, Bucket>, from: real, now: real)
    requires from <= now && Similar(perMinute, t, all, from)
    ensures Similar(perMinute, Sweep(t, now), all, now)
  {
  }

  /** A bucket that is missing from one table is as good as full in the other. */
  lemma SameHit(perMinute: int, t: Table, all: map<string, Bucket>, key: string, now: real)
    requires perMinute > 0 && Similar(perMinute, t, all, now)
    ensures Hit(perMinute, Find(perMinute, t.buckets, key, now), now) == Hit(perMinute, Find(perMinute, all, key, now), now)
    ensures Sound(perMinute, Hit(perMinute, Find(perMinute, all, key, now), now).0, now)
  {
    hide Hit;
    HitSound(perMinute, Find(perMinute, all, key, now), now);
    if key in all && key !in t.buckets {
      IdleIsFull(perMinute, all[key], now);
    }
  }

  lemma UpdateSimilar(perMinute: int, t: Table, all: map<string, Bucket>, key: string, b: Bucket, now: real)
    requires Similar(perMinute, t, all, now) && Sound(perMinute, b, now)
    ensures Similar(perMinute, t.(buckets := t.buckets[key := b]), all[key := b], now)
  {
    hide Sound;
  }

  lemma SimilarStep(perMinute: int, t: Table, all: map<string, Bucket>, from: real, key: string, now: real)
    requires perMinute > 0 && from <= now && Similar(perMinute, t, all, from)
    ensures Allow(perMinute, t, key, now).1 == AllowUnswept(perMinute, all, key, now).1
    ensures Similar(perMinute, Allow(perMinute, t, key, now).0, AllowUnswept(perMinute, all, key, now).0, now)
  {
    hide Hit, Similar, Sound, Sweep, Find;
    SweepSimilar(perMinute, t, all, from, now);
    SameHit(perMinute, Sweep(t, now), all, key, now);
    var b := Hit(perMinute, Find(perMinute, all, key, now), now).0;
    UpdateSimilar(perMinute, Sweep(t, now), all, key, b, now);
  }

  lemma {:induction false} SimilarRun(perMinute: int, t: Table, all: map<string, Bucket>, from: real, calls: seq<Call>)
    requires perMinute > 0 && Similar(perMinute, t, all, from) && Ordered(from, calls)
    ensures Answers(perMinute, t, calls) == UnsweptAnswers(perMinute, all, calls)
    decreases |calls|
  {
    hide Similar, Allow, AllowUnswept;
    if calls != [] {
      SimilarStep(perMinute, t, all, from, calls[0].key, calls[0].at);
      SimilarRun(perMinute, Allow(perMinute, t, calls[0].key, calls[0].at).0,
                 AllowUnswept(perMinute, all, calls[0].key, calls[0].at).0, calls[0].at, calls[1..]);
    }
  }

  /** For every sequence of calls, sweeping makes no difference to any answer. */
  lemma SweepIsInvisible(perMinute: int, start: real, calls: seq<Call>)
    requires Ordered(start, calls)
    ensures Answers(perMinute, Table(start, map[]), calls) == UnsweptAnswers(perMinute, map[], calls)
  {
    if perMinute > 0 {
      SimilarRun(perMinute, Table(start, map[]), map[], start, calls);
    } else {
      DisabledAdmitsAll(perMinute, Table(start, map[]), map[], calls);
    }
  }

  /** A limit of zero or less is no limit. */
  lemma {:induction false} DisabledAdmitsAll(perMinute: int, t: Table, all: map<string, Bucket>, calls: seq<Call>)
    requires perMinute <= 0
    ensures Answers(perMinute, t, calls) == UnsweptAnswers(perMinute, all, calls) == seq(|calls|, i => true)
    decreases |calls|
  {
    if calls != [] {
      DisabledAdmitsAll(perMinute, t, all, calls[1..]);
    }
  }

  // ----- a key sees only its own calls -----

  function TimesOf(calls: seq<Call>, key: string): (r: seq<real>)
    decreases |calls|
  {
    if calls == [] then []
    else (if calls[0].key == key then [calls[0].at] else []) + TimesOf(calls[1..], key)
  }

  function AnswersTo(answers: seq<bool>, calls: seq<Call>, key: string): (r: seq<bool>)
    requires |answers| == |calls|
    decreases |calls|
  {
    if calls == [] then []
    else (if calls[0].key == key then [answers[0]] else []) + AnswersTo(answers[1..], calls[1..], key)
  }

  function BucketOf(buckets: map<string, Bucket>, key: string): Option<Bucket> {
    if key in buckets then Some(buckets[key]) else None
  }

  lemma {:induction false} UnsweptIsOwn(perMinute: int, buckets: map<string, Bucket>, calls: seq<Call>, key: string)
    ensures AnswersTo(UnsweptAnswers(perMinute, buckets, calls), calls, key) ==
            Own(perMinute, BucketOf(buckets, key), TimesOf(calls, key))
    decreases |calls|
  {
    if calls != [] {
      hide Hit;
      var (b1, ok) := AllowUnswept(perMinute, buckets, calls[0].key, calls[0].at);
      var rest := UnsweptAnswers(perMinute, b1, calls[1..]);
      assert UnsweptAnswers(perMinute, buckets, calls) == [ok] + rest;
      assert ([ok] + rest)[1..] == rest;
      UnsweptIsOwn(perMinute, b1, calls[1..], key);
      var times := TimesOf(calls[1..], key);
      if calls[0].key == key {
        assert TimesOf(calls, key) == [calls[0].at] + times;
        assert ([calls[0].at] + times)[1..] == times;
      } else {
        assert TimesOf(calls, key) == times;
        assert AnswersTo([ok] + rest, calls, key) == AnswersTo(rest, calls[1..], key);
      }
    }
  }

  /** One key's answers are a function of that key's own attempts alone. */
  lemma KeysAreIndependent(perMinute: int, start: real, calls: seq<Call>, key: string)
    requires Ordered(start, calls)
    ensures AnswersTo(Answers(perMinute, Table(start, map[]), calls), calls, key) == Own(perMinute, None, TimesOf(calls, key))
  {
    SweepIsInvisible(perMinute, start, calls);
    UnsweptIsOwn(perMinute, map[], calls, key);
  }

  // ----- the window bound -----

  function Admitted(answers: seq<bool>): nat {
    if answers == [] then 0 else (if answers[0] then 1 else 0) + Admitted(answers[1..])
  }

  /** The times do not go back, start no earlier than `from` and end no later than `until`. */
  predicate Within(from: real, times: seq<real>, until: real)
    decreases |times|
  {
    if times == [] then from <= until else from <= times[0] && Within(times[0], times[1..], until)
  }

  function After(perMinute: int, b: Option<Bucket>, times: seq<real>): Option<Bucket>
    decreases |times|
  {
    if times == [] then b else
    After(perMinute, Some(Hit(perMinute, if b.Some? then b.value else Bucket(times[0], perMinute as real), times[0]).0), times[1..])
  }

  lemma {:induction false} OwnSplit(perMinute: int, b: Option<Bucket>, xs: seq<real>, ys: seq<real>)
    requires perMinute > 0
    ensures Own(perMinute, b, xs + ys) == Own(perMinute, b, xs) + Own(perMinute, After(perMinute, b, xs), ys)
    decreases |xs|
  {
    if xs == [] {
      assert xs + ys == ys;
    } else {
      hide Hit;
      assert (xs + ys)[1..] == xs[1..] + ys;
      var b1 := Hit(perMinute, if b.Some? then b.value else Bucket(xs[0], perMinute as real), xs[0]).0;
      OwnSplit(perMinute, Some(b1), xs[1..], ys);
    }
  }

  lemma {:induction false} AfterSound(perMinute: int, b: Option<Bucket>, from: real, times: seq<real>, until: real)
    requires perMinute > 0 && Within(from, times, until) && (b.Some? ==> Sound(perMinute, b.value, from))
    ensures After(perMinute, b, times).Some? ==> Sound(perMinute, After(perMinute, b, times).value, until)
    decreases |times|
  {
    if times != [] {
      var b0 := if b.Some? then b.value else Bucket(times[0], perMinute as real);
      HitSound(perMinute, b0, times[0]);
      hide Hit;
      AfterSound(perMinute, Some(Hit(perMinute, b0, times[0]).0), times[0], times[1..], until);
    }
  }

  lemma HitPays(perMinute: int, b: Bucket, now: real)
    ensures var (b1, ok) := Hit(perMinute, b, now);
            b1.last == now && b1.tokens + (if ok then 1.0 else 0.0) == Level(perMinute, b, now)
  {
    hide Level;
  }

  lemma LevelNow(perMinute: int, b: Bucket)
    requires b.tokens <= perMinute as real
    ensures Level(perMinute, b, b.last) == b.tokens
  {
    FlowAdds(perMinute, 0.0, 0.0);
    hide Flow;
  }

  lemma LevelFlows(perMinute: int, b: Bucket, from: real, now: real)
    requires perMinute > 0 && Sound(perMinute, b, from) && from <= now
    ensures Level(perMinute, b, now) <= Level(perMinute, b, from) + Flow(perMinute, now - from)
    ensures 0.0 <= Level(perMinute, b, from) <= perMinute as real
  {
    hide Flow;
    FlowFacts(perMinute, now - from);
    FlowFacts(perMinute, from - b.last);
    FlowAdds(perMinute, from - b.last, now - from);
    assert now - b.last == (from - b.last) + (now - from);
  }

  lemma OwnCons(perMinute: int, b: Bucket, times: seq<real>)
    requires perMinute > 0 && times != []
    ensures var (b1, ok) := Hit(perMinute, b, times[0]);
            Admitted(Own(perMinute, Some(b), times)) ==
            (if ok then 1 else 0) + Admitted(Own(perMinute, Some(b1), times[1..]))
  {
    hide Hit;
    var (b1, ok) := Hit(perMinute, b, times[0]);
    var rest := Own(perMinute, Some(b1), times[1..]);
    assert Own(perMinute, Some(b), times) == [ok] + rest && ([ok] + rest)[1..] == rest;
  }

  /** Every admission is paid for by a token that was there or flowed in. */
  lemma {:induction false} TokensPayForAdmissions(perMinute: int, b: Bucket, from: real, times: seq<real>, until: real)
    requires perMinute > 0 && Sound(perMinute, b, from) && Within(from, times, until)
    ensures Admitted(Own(perMinute, Some(b), times)) as real <= Level(perMinute, b, from) + Flow(perMinute, until - from)
    decreases |times|
  {
    hide Flow, Hit, Level;
    WithinEnds(from, times, until);
    FlowFacts(perMinute, until - from);
    LevelFlows(perMinute, b, from, from);
    if times != [] {
      var now := times[0];
      var (b1, ok) := Hit(perMinute, b, now);
      HitSound(perMinute, b, now);
      HitPays(perMinute, b, now);
      TokensPayForAdmissions(perMinute, b1, now, times[1..], until);
      OwnCons(perMinute, b, times);
      LevelFlows(perMinute, b, from, now);
      LevelNow(perMinute, b1);
      FlowAdds(perMinute, now - from, until - now);
      assert (now - from) + (until - now) == until - from;
    }
  }

  lemma OwnBound(perMinute: int, b: Option<Bucket>, from: real, times: seq<real>, until: real)
    requires perMinute > 0 && Within(from, times, until) && (b.Some? ==> Sound(perMinute, b.value, from))
    ensures Admitted(Own(perMinute, b, times)) as real <= perMinute as real + Flow(perMinute, until - from)
  {
    hide Flow, Hit, Level;
    WithinEnds(from, times, until);
    FlowFacts(perMinute, until - from);
    if b.Some? {
      TokensPayForAdmissions(perMinute, b.value, from, times, until);
      LevelFlows(perMinute, b.value, from, from);
    } else if times != [] {
      var full := Bucket(times[0], perMinute as real);
      assert Own(perMinute, None, times) == Own(perMinute, Some(full), times);
      TokensPayForAdmissions(perMinute, full, times[0], times, until);
      LevelNow(perMinute, full);
      FlowFacts(perMinute, times[0] - from);
      FlowAdds(perMinute, times[0] - from, until - times[0]);
      assert (times[0] - from) + (until - times[0]) == until - from;
    }
  }

  lemma {:induction false} WithinEnds(from: real, times: seq<real>, until: real)
    requires Within(from, times, until)
    ensures from <= until && (times != [] ==> from <= times[0] <= until)
    decreases |times|
  {
    if times != [] {
      WithinEnds(times[0], times[1..], until);
    }
  }

  // ----- from one key back to the limiter -----

  lemma TimesOfCons(calls: seq<Call>, key: string)
    requires calls != []
    ensures var rest, times := TimesOf(calls[1..], key), TimesOf(calls, key);
            if calls[0].key == key then times != [] && times[0] == calls[0].at && times[1..] == rest else times == rest
  {
    var rest := TimesOf(calls[1..], key);
    assert ([calls[0].at] + rest)[1..] == rest;
  }

  lemma {:induction false} TimesOfSplit(xs: seq<Call>, ys: seq<Call>, key: string)
    ensures TimesOf(xs + ys, key) == TimesOf(xs, key) + TimesOf(ys, key)
    decreases |xs|
  {
    if xs == [] {
      assert xs + ys == ys;
    } else {
      var all := xs + ys;
      assert all[1..] == xs[1..] + ys && all[0] == xs[0];
      TimesOfSplit(xs[1..], ys, key);
      var first := if xs[0].key == key then [xs[0].at] else [];
      var p, q := TimesOf(xs[1..], key), TimesOf(ys, key);
      assert TimesOf(all, key) == first + (p + q) == (first + p) + q;
    }
  }

  lemma {:induction false} AnswersToSplit(a: seq<bool>, b: seq<bool>, xs: seq<Call>, ys: seq<Call>, key: string)
    requires |a| == |xs| && |b| == |ys|
    ensures AnswersTo(a + b, xs + ys, key) == AnswersTo(a, xs, key) + AnswersTo(b, ys, key)
    decreases |xs|
  {
    if xs == [] {
      assert xs + ys == ys && a + b == b;
    } else {
      var x, rest := xs + ys, a + b;
      assert x[1..] == xs[1..] + ys && rest[1..] == a[1..] + b && x[0] == xs[0] && rest[0] == a[0];
      AnswersToSplit(a[1..], b, xs[1..], ys, key);
      var first := if xs[0].key == key then [a[0]] else [];
      var p, q := AnswersTo(a[1..], xs[1..], key), AnswersTo(b, ys, key);
      assert AnswersTo(rest, x, key) == first + (p + q) == (first + p) + q;
    }
  }

  lemma {:induction false} AnswersToLength(a: seq<bool>, xs: seq<Call>, key: string)
    requires |a| == |xs|
    ensures |AnswersTo(a, xs, key)| == |TimesOf(xs, key)|
    decreases |xs|
  {
    if xs != [] {
      AnswersToLength(a[1..], xs[1..], key);
    }
  }

  lemma {:induction false} OrderedSplit(from: real, xs: seq<Call>, ys: seq<Call>)
    requires Ordered(from, xs + ys)
    ensures Ordered(from, xs)
    ensures ys != [] ==> Ordered(ys[0].at, ys) && forall key :: Within(from, TimesOf(xs, key), ys[0].at)
    decreases |xs|
  {
    if xs == [] {
      assert xs + ys == ys;
    } else {
      assert (xs + ys)[1..] == xs[1..] + ys;
      OrderedSplit(xs[0].at, xs[1..], ys);
      if ys != [] {
        forall key ensures Within(from, TimesOf(xs, key), ys[0].at) {
          Earlier(from, xs[0].at, TimesOf(xs[1..], key), ys[0].at);
          TimesOfCons(xs, key);
        }
      }
    }
  }

  lemma Earlier(from: real, later: real, times: seq<real>, until: real)
    requires from <= later && Within(later, times, until)
    ensures Within(from, times, until)
  {
  }

  lemma {:induction false} TimesWithin(from: real, calls: seq<Call>, key: string, until: real)
    requires Ordered(from, calls) && from <= until && (calls != [] ==> calls[|calls| - 1].at <= until)
    ensures Within(from, TimesOf(calls, key), until)
    decreases |calls|
  {
    if calls != [] {
      LastIsLatest(from, calls);
      TimesWithin(calls[0].at, calls[1..], key, until);
      Earlier(from, calls[0].at, TimesOf(calls[1..], key), until);
      TimesOfCons(calls, key);
    }
  }

  lemma {:induction false} LastIsLatest(from: real, calls: seq<Call>)
    requires Ordered(from, calls) && calls != []
    ensures from <= calls[0].at <= calls[|calls| - 1].at
    decreases |calls|
  {
    if |calls| > 1 {
      LastIsLatest(calls[0].at, calls[1..]);
    }
  }

  /** What a key is answered in a stretch of calls: its own run, from the bucket it has by then. */
  lemma StretchIsOwn(perMinute: int, start: real, pre: seq<Call>, mid: seq<Call>, key: string)
    requires perMinute > 0 && Ordered(start, pre + mid)
    ensures var all := Answers(perMinute, Table(start, map[]), pre + mid);
            AnswersTo(all[|pre|..], mid, key) == Own(perMinute, After(perMinute, None, TimesOf(pre, key)), TimesOf(mid, key))
  {
    var all := Answers(perMinute, Table(start, map[]), pre + mid);
    var a, b := all[..|pre|], all[|pre|..];
    assert all == a + b;
    KeysAreIndependent(perMinute, start, pre + mid, key);
    AnswersToSplit(a, b, pre, mid, key);
    TimesOfSplit(pre, mid, key);
    OwnSplit(perMinute, None, TimesOf(pre, key), TimesOf(mid, key));
    AnswersToLength(a, pre, key);
    hide Answers, Own, AnswersTo, After, TimesOf;
    var x, y := AnswersTo(a, pre, key), AnswersTo(b, mid, key);
    var u, v := Own(perMinute, None, TimesOf(pre, key)), Own(perMinute, After(perMinute, None, TimesOf(pre, key)), TimesOf(mid, key));
    assert x + y == u + v && |x| == |u|;
    assert y == (x + y)[|x|..] && v == (u + v)[|u|..];
  }

  lemma StretchBound(perMinute: int, start: real, pre: seq<Call>, mid: seq<Call>, key: string, span: real)
    requires perMinute > 0 && Ordered(start, pre + mid)
    requires mid != [] && mid[|mid| - 1].at - mid[0].at <= span
    ensures var all := Answers(perMinute, Table(start, map[]), pre + mid);
            Admitted(AnswersTo(all[|pre|..], mid, key)) as real <= perMinute as real + perMinute as real * span / 60.0
  {
    hide Answers, Own, AnswersTo, After, TimesOf, Sound, Within, Ordered, Flow;
    var from := mid[0].at;
    StretchIsOwn(perMinute, start, pre, mid, key);
    OrderedSplit(start, pre, mid);
    LastIsLatest(from, mid);
    AfterSound(perMinute, None, start, TimesOf(pre, key), from);
    TimesWithin(from, mid, key, from + span);
    OwnBound(perMinute, After(perMinute, None, TimesOf(pre, key)), from, TimesOf(mid, key), from + span);
    FlowFacts(perMinute, span);
    assert from + span - from == span;
  }

  lemma {:induction false} AnswersPrefix(perMinute: int, t: Table, xs: seq<Call>, ys: seq<Call>)
    ensures Answers(perMinute, t, xs + ys)[..|xs|] == Answers(perMinute, t, xs)
    decreases |xs|
  {
    hide Allow;
    if xs != [] {
      assert (xs + ys)[1..] == xs[1..] + ys;
      AnswersPrefix(perMinute, Allow(perMinute, t, xs[0].key, xs[0].at).0, xs[1..], ys);
    }
  }

  lemma PrefixOf(perMinute: int, start: real, calls: seq<Call>, n: nat)
    requires n <= |calls| && Ordered(start, calls)
    ensures Ordered(start, calls[..n])
    ensures Answers(perMinute, Table(start, map[]), calls)[..n] == Answers(perMinute, Table(start, map[]), calls[..n])
  {
    assert calls[..n] + calls[n..] == calls;
    OrderedSplit(start, calls[..n], calls[n..]);
    AnswersPrefix(perMinute, Table(start, map[]), calls[..n], calls[n..]);
  }

  /**
   In any stretch of consecutive calls that spans at most `span` seconds, a key is admitted at most
   `perMinute + perMinute * span / 60` times, sweeps or not.
   */
  lemma WindowBound(perMinute: int, start: real, calls: seq<Call>, i: nat, j: nat, key: string, span: real)
    requires perMinute > 0 && Ordered(start, calls)
    requires i < j <= |calls| && calls[j - 1].at - calls[i].at <= span
    ensures var answers := Answers(perMinute, Table(start, map[]), calls);
            Admitted(AnswersTo(answers[i..j], calls[i..j], key)) as real <= perMinute as real + perMinute as real * span / 60.0
  {
    hide Answers, AnswersTo, Admitted, Ordered;
    PrefixOf(perMinute, start, calls, j);
    var pre, mid := calls[..i], calls[i..j];
    assert pre + mid == calls[..j];
    StretchBound(perMinute, start, pre, mid, key, span);
    assert Answers(perMinute, Table(start, map[]), calls)[..j][i..] == Answers(perMinute, Table(start, map[]), calls)[i..j];
  }

  /**
   An attempt is admitted whenever the key's previous attempts lie at least `60 / perMinute` seconds
   back, or there are none.
   */
  lemma Progress(perMinute: int, start: real, calls: seq<Call>, n: nat)
    requires perMinute > 0 && Ordered(start, calls) && n < |calls|
    requires forall i :: 0 <= i < n && calls[i].key == calls[n].key ==> (calls[n].at - calls[i].at) * perMinute as real >= 60.0
    ensures Answers(perMinute, Table(start, map[]), calls)[n]
  {
    hide Answers, Ordered;
    PrefixOf(perMinute, start, calls, n + 1);
    assert calls[..n] + [calls[n]] == calls[..n + 1];
    LastIsAdmitted(perMinute, start, calls[..n], calls[n]);
  }

  lemma LastIsAdmitted(perMinute: int, start: real, pre: seq<Call>, call: Call)
    requires perMinute > 0 && Ordered(start, pre + [call])
    requires forall i :: 0 <= i < |pre| && pre[i].key == call.key ==> (call.at - pre[i].at) * perMinute as real >= 60.0
    ensures Answers(perMinute, Table(start, map[]), pre + [call])[|pre|]
  {
    hide Answers, After, Within, Ordered;
    var key, times := call.key, TimesOf(pre, call.key);
    var all := Answers(perMinute, Table(start, map[]), pre + [call]);
    StretchIsOwn(perMinute, start, pre, [call], key);
    OrderedSplit(start, pre, [call]);
    AfterSound(perMinute, None, start, times, call.at);
    TimesAreCalls(pre, key, call.at, perMinute);
    AfterLast(perMinute, None, times);
    var b := After(perMinute, None, times);
    assert AnswersTo(all[|pre|..], [call], key) == [all[|pre|]];
    assert TimesOf([call], key) == [call.at];
    RestedIsAdmitted(perMinute, b, call.at);
    hide Own;
  }

  lemma RestedIsAdmitted(perMinute: int, b: Option<Bucket>, now: real)
    requires perMinute > 0
    requires b.Some? ==> Sound(perMinute, b.value, now) && (now - b.value.last) * perMinute as real >= 60.0
    ensures Own(perMinute, b, [now]) == [true]
  {
    hide Flow;
    var b0 := if b.Some? then b.value else Bucket(now, perMinute as real);
    FlowFacts(perMinute, now - b0.last);
    assert Hit(perMinute, b0, now).1;
    hide Hit;
    assert Own(perMinute, b, [now]) == [true] + Own(perMinute, Some(Hit(perMinute, b0, now).0), [now][1..]);
  }

  lemma {:induction false} TimesAreCalls(pre: seq<Call>, key: string, at: real, perMinute: int)
    requires forall i :: 0 <= i < |pre| && pre[i].key == key ==> (at - pre[i].at) * perMinute as real >= 60.0
    ensures forall i :: 0 <= i < |TimesOf(pre, key)| ==> (at - TimesOf(pre, key)[i]) * perMinute as real >= 60.0
    decreases |pre|
  {
    if pre != [] {
      assert forall i :: 0 <= i < |pre| - 1 ==> pre[1..][i] == pre[i + 1];
      TimesAreCalls(pre[1..], key, at, perMinute);
    }
  }

  lemma {:induction false} AfterLast(perMinute: int, b: Option<Bucket>, times: seq<real>)
    ensures times == [] ==> After(perMinute, b, times) == b
    ensures times != [] ==> After(perMinute, b, times).Some? && After(perMinute, b, times).value.last == times[|times| - 1]
    decreases |times|
  {
    if times != [] {
      AfterLast(perMinute, Some(Hit(perMinute, if b.Some? then b.value else Bucket(times[0], perMinute as real), times[0]).0), times[1..]);
    }
  }

  // ----- the limiter itself -----

  /**
   One attempt, in full: the bucket that is still there, or else a full one, has been filled up since its last
   attempt, and the attempt is admitted and pays a token if there is one.
   */
  ghost predicate Answered(perMinute: int, t: Table, key: string, now: real, r: Table, ok: bool) {
    if perMinute <= 0 then ok && r == t
    else
      var p := perMinute as real;
      var swept := |t.buckets| >= 1024 || now - t.lastSweep >= 60.0;
      var kept := key in t.buckets && (swept ==> now - t.buckets[key].last <= 120.0);
      var level := if kept then t.buckets[key].tokens + (now - t.buckets[key].last) * (p / 60.0) else p;
      var found := if level > p then p else level;
      && (ok <==> found >= 1.0)
      && key in r.buckets && r.buckets[key] == Bucket(now, if ok then found - 1.0 else found)
      && (forall other :: other != key ==>
            (other in r.buckets <==> other in t.buckets && (swept ==> now - t.buckets[other].last <= 120.0)) &&
            (other in r.buckets ==> r.buckets[other] == t.buckets[other]))
      && r.lastSweep == if swept then now else t.lastSweep
  }

  lemma LevelIs(perMinute: int, b: Bucket, now: real)
    ensures var level := b.tokens + (now - b.last) * (perMinute as real / 60.0);
            Level(perMinute, b, now) == if level > perMinute as real then perMinute as real else level
    ensures Level(perMinute, Bucket(now, perMinute as real), now) == perMinute as real
  {
    FlowAdds(perMinute, 0.0, 0.0);
    assert Flow(perMinute, now - b.last) == (now - b.last) * (perMinute as real / 60.0);
    hide Flow;
  }

  lemma AllowIsAnswered(perMinute: int, t: Table, key: string, now: real)
    ensures var (r, ok) := Allow(perMinute, t, key, now); Answered(perMinute, t, key, now, r, ok)
  {
    if perMinute > 0 {
      LevelIs(perMinute, Find(perMinute, Sweep(t, now).buckets, key, now), now);
      hide Level;
      if key in t.buckets && key in Sweep(t, now).buckets {
      } else {
      }
    }
  }

  class LoginLimiter {
    var lastSweep: real
    var buckets: map<string, Bucket>
    const perMinute: int

    ghost function Contents(): Table
      reads this
    {
      Table(lastSweep, buckets)
    }

    constructor (perMinute: int, now: real)
      ensures this.perMinute == perMinute && Contents() == Table(now, map[])
    {
      this.perMinute := perMinute;
      lastSweep := now;
      buckets := map[];
    }

    method SweepLocked(now: real)
      modifies this
      ensures Contents() == Sweep(old(Contents()), now)
    {
      if |buckets| < MAX_BUCKETS && now - lastSweep < MINUTE {
        return;
      }
      lastSweep := now;
      var todo := buckets.Keys;
      while todo != {}
        invariant lastSweep == now
        invariant todo <= buckets.Keys <= old(buckets).Keys
        invariant forall key :: key in buckets ==> buckets[key] == old(buckets)[key]
        invariant forall key :: key in old(buckets) ==>
                    (key in buckets <==> key in todo || now - old(buckets)[key].last <= IDLE)
        decreases todo
      {
        var key :| key in todo;
        todo := todo - {key};
        if now - buckets[key].last > IDLE {
          buckets := buckets - {key};
        }
      }
      assert buckets == Sweep(old(Contents()), now).buckets;
    }

    method AllowAttempt(key: string, now: real) returns (ok: bool)
      modifies this
      ensures (Contents(), ok) == Allow(perMinute, old(Contents()), key, now)
      ensures Answered(perMinute, old(Contents()), key, now, Contents(), ok)
    {
      hide Answered;
      AllowIsAnswered(perMinute, Contents(), key, now);
      if perMinute <= 0 {
        return true;
      }
      SweepLocked(now);
      var b := if key in buckets then buckets[key] else Bucket(now, perMinute as real);
      var refill := perMinute as real / 60.0;
      assert (now - b.last) * refill == Flow(perMinute, now - b.last);
      b := Bucket(now, Min(perMinute as real, b.tokens + (now - b.last) * refill));
      if b.tokens < 1.0 {
        buckets := buckets[key := b];
        return false;
      }
      buckets := buckets[key := b.(tokens := b.tokens - 1.0)];
      return true;
    }
  }
}
