/** The fixed-window rate limiter of src/service/ratelimit.py, in memory and over Redis. Times are in
    seconds. A limit of zero switches the limiter off; the rates are about positive limits. */
module RateLimits {
  import opened Clocks
  import opened Options

  type Identity = string

  datatype Window = Window(count: nat, resetsAt: real)

  type Table = map<Identity, Window>

  datatype Config = Config(limit: nat, window: nat)

  ghost predicate Enabled(c: Config) { c.limit > 0 && c.window > 0 }

  const SWEEP_ABOVE := 10_000

  /** max(1, int(x)): seconds to wait. */
  function Wait(x: real): int {
    if Truncate(x) < 1 then 1 else Truncate(x)
  }

  // ---- one check -----------------------------------------------------------

  /** The window a check falls into. */
  function WindowAt(c: Config, local: Table, who: Identity, now: real): Window {
    if who !in local || now >= local[who].resetsAt then Window(0, now + c.window as real) else local[who]
  }

  function Counted(c: Config, local: Table, who: Identity, now: real): Table {
    var w := WindowAt(c, local, who, now);
    local[who := w.(count := w.count + 1)]
  }

  function Answer(c: Config, local: Table, who: Identity, now: real): Option<int> {
    var w := WindowAt(c, local, who, now);
    if w.count + 1 > c.limit then Some(Wait(w.resetsAt - now)) else None
  }

  function Swept(local: Table, now: real): Table {
    map k | k in local && now < local[k].resetsAt :: local[k]
  }

  function After(c: Config, local: Table, who: Identity, now: real): Table {
    var counted := Counted(c, local, who, now);
    if Answer(c, local, who, now).None? && |counted| > SWEEP_ABOVE then Swept(counted, now) else counted
  }

  class RateLimiter {
    const config: Config
    var local: Table

    constructor (config: Config)
      ensures this.config == config && local == map[]
    {
      this.config, local := config, map[];
    }

    method CheckLocal(who: Identity, now: real) returns (retryAfter: Option<int>)
      modifies this
      ensures retryAfter == Answer(config, old(local), who, now)
      ensures local == After(config, old(local), who, now)
    {
      if who !in local || now >= local[who].resetsAt {
        local := local[who := Window(0, now + config.window as real)];
      }
      local := local[who := local[who].(count := local[who].count + 1)];
      assert local == Counted(config, old(local), who, now);
      if local[who].count > config.limit {
        return Some(Wait(local[who].resetsAt - now));
      }
      if |local| > SWEEP_ABOVE {
        Sweep(now);
      }
      return None;
    }

    method Sweep(now: real)
      modifies this
      ensures local == Swept(old(local), now)
    {
      var lapsed := set k | k in local && now >= local[k].resetsAt;
      var todo := lapsed;
      while todo != {}
        invariant todo <= lapsed
        invariant local == old(local) - (lapsed - todo)
        decreases |todo|
      {
        var k :| k in todo;
        local := local - {k};
        todo := todo - {k};
      }
      assert forall k :: k in local <==> k in old(local) && now < old(local)[k].resetsAt;
    }
  }

  // ---- runs ----------------------------------------------------------------

  datatype Check = Check(who: Identity, at: real)

  ghost predicate ClockOk(run: seq<Check>, from: real) {
    && (forall i :: 0 <= i < |run| ==> from <= run[i].at)
    && (forall i, j :: 0 <= i < j < |run| ==> run[i].at <= run[j].at)
  }

  function Answers(c: Config, local: Table, run: seq<Check>): seq<Option<int>>
    decreases |run|
  {
    if run == [] then []
    else [Answer(c, local, run[0].who, run[0].at)] + Answers(c, After(c, local, run[0].who, run[0].at), run[1..])
  }

  /** The answers of a limiter that never sweeps. */
  function Unswept(c: Config, local: Table, run: seq<Check>): seq<Option<int>>
    decreases |run|
  {
    if run == [] then []
    else [Answer(c, local, run[0].who, run[0].at)] + Unswept(c, Counted(c, local, run[0].who, run[0].at), run[1..])
  }

  /** Two tables that differ only in windows that are over. */
  ghost predicate SameLive(a: Table, b: Table, now: real) {
    forall k ::
      && (k in a && now < a[k].resetsAt ==> k in b && b[k] == a[k])
      && (k in b && now < b[k].resetsAt ==> k in a && a[k] == b[k])
  }

  lemma CountedStaySame(c: Config, a: Table, b: Table, who: Identity, from: real, now: real)
    requires SameLive(a, b, from) && from <= now
    ensures WindowAt(c, a, who, now) == WindowAt(c, b, who, now)
    ensures SameLive(Counted(c, a, who, now), Counted(c, b, who, now), now)
  {
    assert WindowAt(c, a, who, now) == WindowAt(c, b, who, now);
  }

  lemma SweptStaySame(a: Table, b: Table, now: real)
    requires SameLive(a, b, now)
    ensures SameLive(Swept(a, now), b, now)
  {
  }

  lemma StepsStaySame(c: Config, a: Table, b: Table, who: Identity, from: real, now: real)
    requires SameLive(a, b, from) && from <= now
    ensures Answer(c, a, who, now) == Answer(c, b, who, now)
    ensures SameLive(After(c, a, who, now), Counted(c, b, who, now), now)
  {
    CountedStaySame(c, a, b, who, from, now);
    SweptStaySame(Counted(c, a, who, now), Counted(c, b, who, now), now);
  }

  lemma {:induction false} SweepIsInvisibleFrom(
    c: Config, a: Table, b: Table, run: seq<Check>, from: real)
    requires ClockOk(run, from) && SameLive(a, b, from)
    ensures Answers(c, a, run) == Unswept(c, b, run)
    decreases |run|
  {
    if run != [] {
      var x := run[0];
      StepsStaySame(c, a, b, x.who, from, x.at);
      var a1, b1 := After(c, a, x.who, x.at), Counted(c, b, x.who, x.at);
      SweepIsInvisibleFrom(c, a1, b1, run[1..], x.at);
      assert Answers(c, a, run) == [Answer(c, a, x.who, x.at)] + Answers(c, a1, run[1..]);
    }
  }

  /** The sweep bounds memory and nothing else: on a clock that does not go back, no answer of any
      run differs from those of a limiter that never sweeps. */
  lemma SweepIsInvisible(c: Config, run: seq<Check>, from: real)
    requires ClockOk(run, from)
    ensures Answers(c, map[], run) == Unswept(c, map[], run)
  {
    SweepIsInvisibleFrom(c, map[], map[], run, from);
  }

  // ---- every answer, read off the run --------------------------------------

  /** The check of this identity before the n-th, or -1. */
  function Previous(run: seq<Check>, who: Identity, n: nat): (p: int)
    requires n <= |run|
    ensures -1 <= p < n && (p >= 0 ==> run[p].who == who)
  {
    if n == 0 then -1 else if run[n - 1].who == who then n - 1 else Previous(run, who, n - 1)
  }

  /** The check that opened the window the i-th falls into: itself, if its identity has not been seen for
      a window's length since the last one opened. */
  function Opener(c: Config, run: seq<Check>, i: nat): (o: nat)
    requires i < |run|
    ensures o <= i && run[o].who == run[i].who
  {
    var p := Previous(run, run[i].who, i);
    if p < 0 then i
    else
      var o := Opener(c, run, p);
      if run[i].at >= run[o].at + c.window as real then i else o
  }

  /** Checks of this identity from the a-th to before the b-th. */
  function Made(run: seq<Check>, who: Identity, a: nat, b: nat): nat
    requires b <= |run|
  {
    if b <= a then 0 else Made(run, who, a, b - 1) + (if run[b - 1].who == who then 1 else 0)
  }

  /** The table after these checks, if it is never swept. */
  function Tabled(c: Config, local: Table, run: seq<Check>): Table {
    if run == [] then local
    else
      var x := run[|run| - 1];
      Counted(c, Tabled(c, local, run[..|run| - 1]), x.who, x.at)
  }

  lemma {:induction false} TabledFirst(c: Config, local: Table, run: seq<Check>)
    requires run != []
    ensures Tabled(c, local, run) == Tabled(c, Counted(c, local, run[0].who, run[0].at), run[1..])
    decreases |run|
  {
    if |run| == 1 {
      assert run[..0] == [] && run[1..] == [];
    } else {
      var most := run[..|run| - 1];
      TabledFirst(c, local, most);
      assert most[1..] == run[1..][..|run| - 2];
    }
  }

  lemma {:induction false} UnsweptAt(c: Config, local: Table, run: seq<Check>, i: nat)
    requires i < |run|
    ensures |Unswept(c, local, run)| == |run|
    ensures Unswept(c, local, run)[i] == Answer(c, Tabled(c, local, run[..i]), run[i].who, run[i].at)
    decreases i
  {
    UnsweptCounts(c, local, run);
    if i == 0 {
      assert run[..0] == [];
    } else {
      var next := Counted(c, local, run[0].who, run[0].at);
      UnsweptAt(c, next, run[1..], i - 1);
      TabledFirst(c, local, run[..i]);
      assert run[..i][1..] == run[1..][..i - 1];
    }
  }

  /** What the table says of an identity, in terms of the run. */
  lemma {:induction false} TableIs(c: Config, run: seq<Check>, n: nat, who: Identity)
    requires n <= |run|
    ensures var (table, p) := (Tabled(c, map[], run[..n]), Previous(run, who, n));
      if p < 0 then who !in table
      else who in table && table[who] == Window(Made(run, who, Opener(c, run, p), n), run[Opener(c, run, p)].at + c.window as real)
    decreases n
  {
    if n > 0 {
      var x := run[n - 1];
      assert run[..n][..n - 1] == run[..n - 1];
      TableIs(c, run, n - 1, who);
      if x.who == who { MadeNone(c, run, n - 1); }
    }
  }

  lemma MadeNone(c: Config, run: seq<Check>, i: nat)
    requires i < |run|
    ensures Made(run, run[i].who, i, i + 1) == 1
    ensures Opener(c, run, i) < i ==> Previous(run, run[i].who, i) >= 0
  {
    assert Made(run, run[i].who, i, i) == 0;
  }

  /** The answer, given what the table says. */
  lemma AnswerFromTable(c: Config, table: Table, run: seq<Check>, i: nat)
    requires i < |run|
    requires var (p, who) := (Previous(run, run[i].who, i), run[i].who);
      if p < 0 then who !in table
      else who in table && table[who] == Window(Made(run, who, Opener(c, run, p), i), run[Opener(c, run, p)].at + c.window as real)
    ensures Answer(c, table, run[i].who, run[i].at) == Expected(c, run, i)
  {
    MadeNone(c, run, i);
  }

  /** A check is let through if it is at most the limit-th of its identity since the one that opened its
      window, and is otherwise told to wait for the end of that window. */
  function Expected(c: Config, run: seq<Check>, i: nat): Option<int>
    requires i < |run|
  {
    var o := Opener(c, run, i);
    if Made(run, run[i].who, o, i + 1) <= c.limit then None else Some(Wait(run[o].at + c.window as real - run[i].at))
  }

  /** Every answer of every run is exactly the one its own history asks for. */
  lemma AnswersAre(c: Config, run: seq<Check>, from: real, i: nat)
    requires ClockOk(run, from) && i < |run|
    ensures |Answers(c, map[], run)| == |run| && Answers(c, map[], run)[i] == Expected(c, run, i)
  {
    SweepIsInvisible(c, run, from);
    UnsweptAt(c, map[], run, i);
    TableIs(c, run, i, run[i].who);
    AnswerFromTable(c, Tabled(c, map[], run[..i]), run, i);
  }

  /** Of the checks of this identity from the a-th to before the b-th, those that were let through. */
  function LetThrough(run: seq<Check>, answers: seq<Option<int>>, who: Identity, a: nat, b: nat): nat
    requires b <= |run| == |answers|
  {
    if b <= a then 0
    else LetThrough(run, answers, who, a, b - 1) + (if run[b - 1].who == who && answers[b - 1].None? then 1 else 0)
  }

  lemma {:induction false} LastSeen(run: seq<Check>, who: Identity, n: nat, k: nat)
    requires k < n <= |run| && run[k].who == who
    ensures k <= Previous(run, who, n)
    decreases n
  {
    if run[n - 1].who != who { LastSeen(run, who, n - 1, k); }
  }

  /** The checks since the opener of a window fall into it too. */
  lemma {:induction false} SameOpener(c: Config, run: seq<Check>, i: nat, k: nat)
    requires i < |run| && Opener(c, run, i) <= k <= i && run[k].who == run[i].who
    ensures Opener(c, run, k) == Opener(c, run, i)
    decreases i
  {
    if k < i {
      LastSeen(run, run[i].who, i, k);
      SameOpener(c, run, Previous(run, run[i].who, i), k);
    }
  }

  lemma InTheWindow(c: Config, run: seq<Check>, from: real, i: nat, k: nat)
    requires ClockOk(run, from) && i < |run| && Opener(c, run, i) <= k < i && run[k].who == run[i].who
    ensures |Answers(c, map[], run)| == |run|
    ensures Answers(c, map[], run)[k].None? <==> Made(run, run[i].who, Opener(c, run, i), k + 1) <= c.limit
  {
    AnswersAre(c, run, from, k);
    SameOpener(c, run, i, k);
  }

  lemma {:induction false} LetThroughIs(c: Config, run: seq<Check>, from: real, i: nat, b: nat)
    requires ClockOk(run, from) && i < |run| && Opener(c, run, i) <= b <= i
    ensures |Answers(c, map[], run)| == |run|
    ensures var (o, made) := (Opener(c, run, i), Made(run, run[i].who, Opener(c, run, i), b));
      LetThrough(run, Answers(c, map[], run), run[i].who, o, b) == if made <= c.limit then made else c.limit
    decreases b
  {
    AnswersAre(c, run, from, i);
    if b > Opener(c, run, i) {
      LetThroughIs(c, run, from, i, b - 1);
      if run[b - 1].who == run[i].who { InTheWindow(c, run, from, i, b - 1); }
    }
  }

  /** Nobody is refused early: a check is refused only if exactly the limit of its identity was let
      through before it since its window opened, and that was less than a window's length ago. */
  lemma RefusedAtTheLimit(c: Config, run: seq<Check>, from: real, i: nat)
    requires Enabled(c) && ClockOk(run, from) && i < |run|
    ensures |Answers(c, map[], run)| == |run|
    ensures Answers(c, map[], run)[i].Some? ==>
      var o := Opener(c, run, i);
      && o < i && run[i].at - (c.window as real) < run[o].at <= run[i].at
      && LetThrough(run, Answers(c, map[], run), run[i].who, o, i) == c.limit
  {
    AnswersAre(c, run, from, i);
    LetThroughIs(c, run, from, i, i);
    OpenerIsRecent(c, run, i);
    MadeNone(c, run, i);
  }

  lemma {:induction false} OpenerIsRecent(c: Config, run: seq<Check>, i: nat)
    requires i < |run|
    ensures Opener(c, run, i) == i || run[i].at - (c.window as real) < run[Opener(c, run, i)].at
  {
  }

  /** How many checks of one identity in [a, b) are allowed. */
  function Allowed(run: seq<Check>, answers: seq<Option<int>>, who: Identity, a: real, b: real): nat
    requires |answers| == |run|
    decreases |run|
  {
    if run == [] then 0
    else (if run[0].who == who && a <= run[0].at < b && answers[0].None? then 1 else 0)
         + Allowed(run[1..], answers[1..], who, a, b)
  }

  lemma {:induction false} UnsweptCounts(c: Config, local: Table, run: seq<Check>)
    ensures |Unswept(c, local, run)| == |run|
    decreases |run|
  {
    if run != [] { UnsweptCounts(c, Counted(c, local, run[0].who, run[0].at), run[1..]); }
  }

  /** How many more checks of an identity can be allowed in [a, a + window), given its present
      window: those left in a window that reaches into the interval, and another window's worth if
      the present one began before it. */
  function Budget(c: Config, local: Table, who: Identity, a: real): nat {
    if who !in local || local[who].resetsAt <= a then 2 * c.limit
    else
      var left := if local[who].count >= c.limit then 0 else c.limit - local[who].count;
      if local[who].resetsAt < a + c.window as real then left + c.limit
      else if local[who].resetsAt < a + 2.0 * c.window as real then left
      else 0
  }

  /** No window began in the future. */
  ghost predicate Begun(c: Config, local: Table, now: real) {
    forall k :: k in local ==> local[k].resetsAt <= now + c.window as real
  }

  lemma CheckUsesBudget(c: Config, local: Table, x: Check, from: real, who: Identity, a: real)
    requires Enabled(c) && from <= x.at && Begun(c, local, from)
    ensures Begun(c, Counted(c, local, x.who, x.at), x.at)
    ensures Budget(c, Counted(c, local, x.who, x.at), who, a)
            + (if x.who == who && a <= x.at < a + c.window as real && Answer(c, local, x.who, x.at).None? then 1 else 0)
            <= Budget(c, local, who, a)
  {
  }

  lemma {:induction false} WithinBudget(
    c: Config, local: Table, run: seq<Check>, from: real, who: Identity, a: real)
    requires Enabled(c) && ClockOk(run, from) && Begun(c, local, from)
    ensures |Unswept(c, local, run)| == |run|
    ensures Allowed(run, Unswept(c, local, run), who, a, a + c.window as real) <= Budget(c, local, who, a)
    decreases |run|
  {
    UnsweptCounts(c, local, run);
    if run != [] {
      CheckUsesBudget(c, local, run[0], from, who, a);
      WithinBudget(c, Counted(c, local, run[0].who, run[0].at), run[1..], run[0].at, who, a);
    }
  }

  /** The rate, over every run: in any interval as long as a window, wherever it begins, one identity
      is allowed at most twice the limit, whatever the other identities do. */
  lemma AtMostTwiceTheLimit(c: Config, run: seq<Check>, from: real, who: Identity, a: real)
    requires Enabled(c) && ClockOk(run, from)
    ensures |Answers(c, map[], run)| == |run|
    ensures Allowed(run, Answers(c, map[], run), who, a, a + c.window as real) <= 2 * c.limit
  {
    SweepIsInvisible(c, run, from);
    WithinBudget(c, map[], run, from, who, a);
  }

  lemma OpenedWindow(c: Config, local: Table, x: Check, from: real)
    requires Enabled(c) && from <= x.at && Begun(c, local, from)
    requires x.who !in local || x.at >= local[x.who].resetsAt
    ensures Begun(c, Counted(c, local, x.who, x.at), x.at) && Answer(c, local, x.who, x.at).None?
    ensures Budget(c, Counted(c, local, x.who, x.at), x.who, x.at) == c.limit - 1
  {
  }

  /** And within one window at most the limit: from the check that opens a window on, at most limit
      checks of that identity are allowed before the window is over, that check included. */
  lemma {:induction false} AtMostTheLimitPerWindow(c: Config, local: Table, run: seq<Check>, from: real)
    requires Enabled(c) && ClockOk(run, from) && Begun(c, local, from) && run != []
    requires run[0].who !in local || run[0].at >= local[run[0].who].resetsAt
    ensures |Answers(c, local, run)| == |run|
    ensures Allowed(run, Answers(c, local, run), run[0].who, run[0].at, run[0].at + c.window as real) <= c.limit
  {
    var (x, rest) := (run[0], Unswept(c, Counted(c, local, run[0].who, run[0].at), run[1..]));
    RestOfWindow(c, local, run[1..], x, from);
    FirstAnswer(c, local, run, from);
    AllowedNext(run, Answer(c, local, x.who, x.at), rest, x.who, x.at, x.at + c.window as real);
  }

  lemma {:induction false} RestOfWindow(c: Config, local: Table, run: seq<Check>, x: Check, from: real)
    requires Enabled(c) && from <= x.at && ClockOk(run, x.at) && Begun(c, local, from)
    requires x.who !in local || x.at >= local[x.who].resetsAt
    ensures var rest := Unswept(c, Counted(c, local, x.who, x.at), run);
            |rest| == |run| && Allowed(run, rest, x.who, x.at, x.at + c.window as real) <= c.limit - 1
  {
    OpenedWindow(c, local, x, from);
    WithinBudget(c, Counted(c, local, x.who, x.at), run, x.at, x.who, x.at);
  }

  lemma {:induction false} FirstAnswer(c: Config, local: Table, run: seq<Check>, from: real)
    requires ClockOk(run, from) && run != []
    ensures Answers(c, local, run)
         == [Answer(c, local, run[0].who, run[0].at)] + Unswept(c, Counted(c, local, run[0].who, run[0].at), run[1..])
  {
    SweepIsInvisibleFrom(c, local, local, run, from);
  }

  lemma {:induction false} AllowedNext(run: seq<Check>, first: Option<int>, rest: seq<Option<int>>, who: Identity, a: real, b: real)
    requires run != [] && |rest| == |run| - 1
    ensures Allowed(run, [first] + rest, who, a, b) <= 1 + Allowed(run[1..], rest, who, a, b)
  {
    assert ([first] + rest)[1..] == rest;
  }

  /** Coming back after the answered number of seconds is enough exactly when the window's remaining
      time is a whole number of seconds, or at most one: the answer is rounded down. */
  lemma WaitingTheAnswerOut(c: Config, local: Table, who: Identity, now: real)
    requires Enabled(c) && Answer(c, local, who, now).Some?
    ensures var wait := Answer(c, local, who, now).value;
            var left := WindowAt(c, local, who, now).resetsAt - now;
            Answer(c, Counted(c, local, who, now), who, now + wait as real).None?
            <==> left <= 1.0 || left == left.Floor as real
  {
  }

  // ---- Redis: aligned buckets ----------------------------------------------

  /** The counter of one identity's bucket, and when its key expires. */
  datatype Counter = Counter(count: nat, expires: real)

  type Counters = map<(Identity, int), Counter>

  function Bucket(c: Config, now: real): int
    requires c.window > 0
  {
    (now / c.window as real).Floor
  }

  function BucketStart(c: Config, b: int): real { b as real * c.window as real }

  /** INCR and EXPIRE of the identity's key for this bucket. */
  function Incremented(c: Config, counters: Counters, who: Identity, now: real): Counters
    requires c.window > 0
  {
    var key := (who, Bucket(c, now));
    var was := if key in counters && now < counters[key].expires then counters[key].count else 0;
    counters[key := Counter(was + 1, now + (c.window + 1) as real)]
  }

  function RedisAnswer(c: Config, counters: Counters, who: Identity, now: real): Option<int>
    requires c.window > 0
  {
    var b := Bucket(c, now);
    if Incremented(c, counters, who, now)[(who, b)].count > c.limit
    then Some(Wait(BucketStart(c, b + 1) - now)) else None
  }

  function RedisAnswers(c: Config, counters: Counters, run: seq<Check>): seq<Option<int>>
    requires c.window > 0
    decreases |run|
  {
    if run == [] then []
    else [RedisAnswer(c, counters, run[0].who, run[0].at)]
         + RedisAnswers(c, Incremented(c, counters, run[0].who, run[0].at), run[1..])
  }

  /** What is left of bucket b for an identity. */
  function BucketBudget(c: Config, counters: Counters, who: Identity, b: int): nat {
    if (who, b) !in counters then c.limit
    else if counters[(who, b)].count >= c.limit then 0 else c.limit - counters[(who, b)].count
  }

  lemma BucketBounds(c: Config, now: real)
    requires c.window > 0
    ensures BucketStart(c, Bucket(c, now)) <= now < BucketStart(c, Bucket(c, now) + 1)
  {
    var w := c.window as real;
    FloorBounds(now / w, w, now);
    StartsGrow(c, Bucket(c, now), Bucket(c, now));
  }

  lemma FloorBounds(q: real, w: real, now: real)
    requires w > 0.0 && q * w == now
    ensures q.Floor as real * w <= now < q.Floor as real * w + w
  {
    Between(q.Floor as real, q, w, now);
  }

  lemma Between(b: real, q: real, w: real, now: real)
    requires w > 0.0 && q * w == now && b <= q < b + 1.0
    ensures b * w <= now < b * w + w
  {
    Scaled(b, q, w);
    Scaled(q, b + 1.0, w);
    calc {
      now;
    ==
      q * w;
    <
      (b + 1.0) * w;
    ==
      b * w + w;
    }
  }

  lemma Scaled(x: real, y: real, w: real)
    requires w > 0.0
    ensures x <= y ==> x * w <= y * w
    ensures x < y ==> x * w < y * w
  {
    assert (y - x) * w == y * w - x * w;
    if x <= y { assert (y - x) * w >= 0.0; }
    if x < y { assert (y - x) * w > 0.0; }
  }

  /** A moment lies in bucket b exactly when it lies between the starts of b and b + 1. */
  lemma BucketIs(c: Config, now: real, b: int)
    requires c.window > 0
    ensures Bucket(c, now) == b <==> BucketStart(c, b) <= now < BucketStart(c, b + 1)
    ensures Bucket(c, now) < b ==> now < BucketStart(c, b)
    ensures Bucket(c, now) > b ==> now >= BucketStart(c, b + 1)
  {
    var k := Bucket(c, now);
    BucketBounds(c, now);
    if k < b {
      StartsGrow(c, k + 1, b);
    } else if k > b {
      StartsGrow(c, b + 1, k);
    }
  }

  lemma StartsGrow(c: Config, a: int, b: int)
    requires a <= b
    ensures BucketStart(c, a) <= BucketStart(c, b)
    ensures BucketStart(c, a + 1) == BucketStart(c, a) + c.window as real
  {
    assert (b - a) as real * c.window as real >= 0.0;
    assert b as real == a as real + (b - a) as real;
  }

  /** Counters of the present bucket outlive it, and there are none of buckets to come. */
  ghost predicate CountersOk(c: Config, counters: Counters, now: real)
    requires c.window > 0
  {
    forall k :: k in counters ==> k.1 <= Bucket(c, now) && counters[k].expires > BucketStart(c, k.1 + 1)
  }

  lemma CheckUsesBucket(c: Config, counters: Counters, x: Check, from: real, who: Identity, b: int)
    requires Enabled(c) && from <= x.at && CountersOk(c, counters, from)
    ensures CountersOk(c, Incremented(c, counters, x.who, x.at), x.at)
    ensures BucketBudget(c, Incremented(c, counters, x.who, x.at), who, b)
            + (if x.who == who && Bucket(c, x.at) == b && RedisAnswer(c, counters, x.who, x.at).None? then 1 else 0)
            <= BucketBudget(c, counters, who, b)
  {
    var k := Bucket(c, x.at);
    BucketBounds(c, x.at);
    StartsGrow(c, k, k);
    BucketIs(c, from, k);
    assert Bucket(c, from) <= k;
  }

  function AllowedIn(c: Config, run: seq<Check>, answers: seq<Option<int>>, who: Identity, b: int): nat
    requires |answers| == |run| && c.window > 0
    decreases |run|
  {
    if run == [] then 0
    else (if run[0].who == who && Bucket(c, run[0].at) == b && answers[0].None? then 1 else 0)
         + AllowedIn(c, run[1..], answers[1..], who, b)
  }

  lemma {:induction false} WithinBucket(
    c: Config, counters: Counters, run: seq<Check>, from: real, who: Identity, b: int)
    requires Enabled(c) && ClockOk(run, from) && CountersOk(c, counters, from)
    ensures |RedisAnswers(c, counters, run)| == |run|
    ensures AllowedIn(c, run, RedisAnswers(c, counters, run), who, b) <= BucketBudget(c, counters, who, b)
    decreases |run|
  {
    if run != [] {
      CheckUsesBucket(c, counters, run[0], from, who, b);
      WithinBucket(c, Incremented(c, counters, run[0].who, run[0].at), run[1..], run[0].at, who, b);
    }
  }

  lemma {:induction false} IntervalMeetsTwoBuckets(
    c: Config, run: seq<Check>, answers: seq<Option<int>>, who: Identity, a: real)
    requires c.window > 0 && |answers| == |run|
    ensures var b := Bucket(c, a);
            Allowed(run, answers, who, a, a + c.window as real)
            <= AllowedIn(c, run, answers, who, b) + AllowedIn(c, run, answers, who, b + 1)
    decreases |run|
  {
    if run != [] {
      var b := Bucket(c, a);
      IntervalMeetsTwoBuckets(c, run[1..], answers[1..], who, a);
      BucketBounds(c, a);
      StartsGrow(c, b, b);
      StartsGrow(c, b + 1, b + 1);
      BucketIs(c, run[0].at, b);
      BucketIs(c, run[0].at, b + 1);
    }
  }

  /** The same rate over Redis, shared by every process: at most the limit in an aligned bucket, and
      at most twice the limit in any interval of one window, because no counter expires before its
      bucket is over. */
  lemma RedisRate(c: Config, run: seq<Check>, from: real, who: Identity, a: real, b: int)
    requires Enabled(c) && ClockOk(run, from)
    ensures |RedisAnswers(c, map[], run)| == |run|
    ensures AllowedIn(c, run, RedisAnswers(c, map[], run), who, b) <= c.limit
    ensures Allowed(run, RedisAnswers(c, map[], run), who, a, a + c.window as real) <= 2 * c.limit
  {
    WithinBucket(c, map[], run, from, who, b);
    WithinBucket(c, map[], run, from, who, Bucket(c, a));
    WithinBucket(c, map[], run, from, who, Bucket(c, a) + 1);
    IntervalMeetsTwoBuckets(c, run, RedisAnswers(c, map[], run), who, a);
  }

  /** Checks of this identity in bucket b among the first n. */
  function MadeIn(c: Config, run: seq<Check>, who: Identity, b: int, n: nat): nat
    requires c.window > 0 && n <= |run|
  {
    if n == 0 then 0
    else MadeIn(c, run, who, b, n - 1) + (if run[n - 1].who == who && Bucket(c, run[n - 1].at) == b then 1 else 0)
  }

  function CountersAt(c: Config, counters: Counters, run: seq<Check>): Counters
    requires c.window > 0
  {
    if run == [] then counters
    else
      var x := run[|run| - 1];
      Incremented(c, CountersAt(c, counters, run[..|run| - 1]), x.who, x.at)
  }

  lemma {:induction false} CountersFirst(c: Config, counters: Counters, run: seq<Check>)
    requires c.window > 0 && run != []
    ensures CountersAt(c, counters, run) == CountersAt(c, Incremented(c, counters, run[0].who, run[0].at), run[1..])
    decreases |run|
  {
    if |run| == 1 {
      assert run[..0] == [] && run[1..] == [];
    } else {
      var most := run[..|run| - 1];
      CountersFirst(c, counters, most);
      assert most[1..] == run[1..][..|run| - 2];
    }
  }

  lemma {:induction false} RedisAnswersAt(c: Config, counters: Counters, run: seq<Check>, i: nat)
    requires c.window > 0 && i < |run|
    ensures |RedisAnswers(c, counters, run)| > i
    ensures RedisAnswers(c, counters, run)[i] == RedisAnswer(c, CountersAt(c, counters, run[..i]), run[i].who, run[i].at)
    decreases i
  {
    if i == 0 {
      assert run[..0] == [];
    } else {
      var next := Incremented(c, counters, run[0].who, run[0].at);
      RedisAnswersAt(c, next, run[1..], i - 1);
      CountersFirst(c, counters, run[..i]);
      assert run[..i][1..] == run[1..][..i - 1];
    }
  }

  /** The counters count the checks of each identity in each bucket, and outlast the bucket. */
  ghost predicate Counting(c: Config, counters: Counters, run: seq<Check>, n: nat)
    requires c.window > 0 && n <= |run|
  {
    && (forall k :: k in counters ==> counters[k].count == MadeIn(c, run, k.0, k.1, n)
                                      && counters[k].expires > BucketStart(c, k.1 + 1))
    && (forall who, b :: (who, b) !in counters ==> MadeIn(c, run, who, b, n) == 0)
  }

  lemma CountingGoesOn(c: Config, counters: Counters, run: seq<Check>, n: nat)
    requires c.window > 0 && n < |run| && Counting(c, counters, run, n)
    ensures Counting(c, Incremented(c, counters, run[n].who, run[n].at), run, n + 1)
  {
    var (x, b) := (run[n], Bucket(c, run[n].at));
    BucketBounds(c, x.at);
    StartsGrow(c, b, b);
    var after := Incremented(c, counters, x.who, x.at);
    assert after[(x.who, b)].count == MadeIn(c, run, x.who, b, n) + 1;
    forall k | k in after ensures after[k].count == MadeIn(c, run, k.0, k.1, n + 1) {
      if k != (x.who, b) { assert k in counters; }
    }
  }

  lemma {:induction false} CountersCount(c: Config, run: seq<Check>, n: nat)
    requires c.window > 0 && n <= |run|
    ensures Counting(c, CountersAt(c, map[], run[..n]), run, n)
    decreases n
  {
    if n == 0 {
      assert run[..0] == [];
    } else {
      assert run[..n][..n - 1] == run[..n - 1];
      CountersCount(c, run, n - 1);
      CountingGoesOn(c, CountersAt(c, map[], run[..n - 1]), run, n - 1);
    }
  }

  lemma AnswerFromCounters(c: Config, counters: Counters, run: seq<Check>, i: nat)
    requires c.window > 0 && i < |run| && Counting(c, counters, run, i)
    ensures RedisAnswer(c, counters, run[i].who, run[i].at) == RedisExpected(c, run, i)
  {
    var b := Bucket(c, run[i].at);
    BucketBounds(c, run[i].at);
    StartsGrow(c, b, b);
  }

  /** A check is let through if it is at most the limit-th of its identity in its aligned bucket, and is
      otherwise told to wait for the end of the bucket. */
  function RedisExpected(c: Config, run: seq<Check>, i: nat): Option<int>
    requires c.window > 0 && i < |run|
  {
    var b := Bucket(c, run[i].at);
    if MadeIn(c, run, run[i].who, b, i + 1) <= c.limit then None else Some(Wait(BucketStart(c, b + 1) - run[i].at))
  }

  /** Over Redis, too, every answer of every run is exactly the one its own history asks for; no order of
      the readings of the clock is needed, as each bucket has a key of its own. */
  lemma RedisAnswersAre(c: Config, run: seq<Check>, i: nat)
    requires c.window > 0 && i < |run|
    ensures |RedisAnswers(c, map[], run)| > i && RedisAnswers(c, map[], run)[i] == RedisExpected(c, run, i)
  {
    RedisAnswersAt(c, map[], run, i);
    CountersCount(c, run, i);
    AnswerFromCounters(c, CountersAt(c, map[], run[..i]), run, i);
  }

  lemma CountersAfter(c: Config, counters: Counters, who: Identity, now: real)
    requires Enabled(c) && CountersOk(c, counters, now)
    ensures var b := Bucket(c, now);
            var after := Incremented(c, counters, who, now);
            && (forall k :: k in after ==> k.1 <= b)
            && (who, b) in after && after[(who, b)].expires == now + (c.window + 1) as real
  {
  }

  /** Over Redis, too, coming back after the answered number of seconds is enough exactly when what is
      left of the bucket is a whole number of seconds, or at most one. */
  lemma WaitingTheRedisAnswerOut(c: Config, counters: Counters, who: Identity, now: real)
    requires Enabled(c) && CountersOk(c, counters, now) && RedisAnswer(c, counters, who, now).Some?
    ensures var wait := RedisAnswer(c, counters, who, now).value;
            var left := BucketStart(c, Bucket(c, now) + 1) - now;
            RedisAnswer(c, Incremented(c, counters, who, now), who, now + wait as real).None?
            <==> left <= 1.0 || left == left.Floor as real
  {
    var b := Bucket(c, now);
    var wait := RedisAnswer(c, counters, who, now).value;
    var left := BucketStart(c, b + 1) - now;
    BucketBounds(c, now);
    StartsGrow(c, b, b);
    CountersAfter(c, counters, who, now);
    BucketIs(c, now + wait as real, b);
    assert now + wait as real < BucketStart(c, b + 1) <==> (wait as real) < left;
  }

  // ---- Redis that can fail -------------------------------------------------

  /** The pipeline is executed and answers, is not executed, or is executed and its reply is lost. */
  datatype Store = Works | Refused | ReplyLost

  function MixedAnswer(c: Config, counters: Counters, table: Table, who: Identity, now: real, store: Store): Option<int>
    requires c.window > 0
  {
    if store.Works? then RedisAnswer(c, counters, who, now) else Answer(c, table, who, now)
  }

  function MixedCounters(c: Config, counters: Counters, who: Identity, now: real, store: Store): Counters
    requires c.window > 0
  {
    if store.Refused? then counters else Incremented(c, counters, who, now)
  }

  function MixedTable(c: Config, table: Table, who: Identity, now: real, store: Store): Table {
    if store.Works? then table else After(c, table, who, now)
  }

  /** Which process makes a check, and how the store does. */
  datatype Via = Via(process: nat, store: Store)

  /** A run of checks by any number of processes, each with a table of its own, that share the store. */
  ghost predicate Paired(tables: seq<Table>, run: seq<Check>, via: seq<Via>) {
    |via| == |run| && forall i :: 0 <= i < |via| ==> via[i].process < |tables|
  }

  ghost function MixedAnswers(c: Config, counters: Counters, tables: seq<Table>, run: seq<Check>, via: seq<Via>): seq<Option<int>>
    requires c.window > 0 && Paired(tables, run, via)
    decreases |run|
  {
    if run == [] then []
    else
      var (x, p, store) := (run[0], via[0].process, via[0].store);
      [MixedAnswer(c, counters, tables[p], x.who, x.at, store)]
      + MixedAnswers(c, MixedCounters(c, counters, x.who, x.at, store), tables[p := MixedTable(c, tables[p], x.who, x.at, store)], run[1..], via[1..])
  }

  /** What the store has left for an identity in the two buckets that meet [a, a + window). */
  function StoreBudget(c: Config, counters: Counters, who: Identity, a: real): nat
    requires c.window > 0
  {
    BucketBudget(c, counters, who, Bucket(c, a)) + BucketBudget(c, counters, who, Bucket(c, a) + 1)
  }

  function TablesBudget(c: Config, tables: seq<Table>, who: Identity, a: real): nat {
    if tables == [] then 0 else Budget(c, tables[0], who, a) + TablesBudget(c, tables[1..], who, a)
  }

  /** This check is counted in the interval. */
  function Hit(c: Config, x: Check, answer: Option<int>, who: Identity, a: real): nat {
    if x.who == who && a <= x.at < a + c.window as real && answer.None? then 1 else 0
  }

  lemma CheckUsesStore(c: Config, counters: Counters, x: Check, from: real, who: Identity, a: real)
    requires Enabled(c) && from <= x.at && CountersOk(c, counters, from)
    ensures CountersOk(c, Incremented(c, counters, x.who, x.at), x.at)
    ensures StoreBudget(c, Incremented(c, counters, x.who, x.at), who, a)
            + Hit(c, x, RedisAnswer(c, counters, x.who, x.at), who, a) <= StoreBudget(c, counters, who, a)
  {
    var b := Bucket(c, a);
    CheckUsesBucket(c, counters, x, from, who, b);
    CheckUsesBucket(c, counters, x, from, who, b + 1);
    BucketBounds(c, a);
    StartsGrow(c, b, b);
    StartsGrow(c, b + 1, b + 1);
    BucketIs(c, x.at, b);
    BucketIs(c, x.at, b + 1);
  }

  lemma {:induction false} OneTableChanges(c: Config, tables: seq<Table>, p: nat, next: Table, who: Identity, a: real)
    requires p < |tables|
    ensures TablesBudget(c, tables[p := next], who, a) + Budget(c, tables[p], who, a)
         == TablesBudget(c, tables, who, a) + Budget(c, next, who, a)
  {
    if p == 0 {
      assert tables[p := next][1..] == tables[1..];
    } else {
      OneTableChanges(c, tables[1..], p - 1, next, who, a);
      assert tables[p := next][1..] == tables[1..][p - 1 := next];
    }
  }

  /** The tables, beside those of limiters that never sweep. */
  ghost predicate Twins(c: Config, tables: seq<Table>, twins: seq<Table>, now: real) {
    |tables| == |twins| && forall i :: 0 <= i < |twins| ==> SameLive(tables[i], twins[i], now) && Begun(c, twins[i], now)
  }

  lemma TwinsGoOn(c: Config, tables: seq<Table>, twins: seq<Table>, p: nat, x: Check, from: real)
    requires Enabled(c) && Twins(c, tables, twins, from) && p < |tables| && from <= x.at
    ensures Answer(c, tables[p], x.who, x.at) == Answer(c, twins[p], x.who, x.at)
    ensures Twins(c, tables, twins, x.at)
    ensures Twins(c, tables[p := After(c, tables[p], x.who, x.at)], twins[p := Counted(c, twins[p], x.who, x.at)], x.at)
  {
    StepsStaySame(c, tables[p], twins[p], x.who, from, x.at);
    CheckUsesBudget(c, twins[p], x, from, x.who, x.at);
  }

  lemma CountersGoOn(c: Config, counters: Counters, from: real, now: real)
    requires Enabled(c) && CountersOk(c, counters, from) && from <= now
    ensures CountersOk(c, counters, now)
  {
    BucketBounds(c, now);
    BucketIs(c, from, Bucket(c, now));
  }

  /** What a check that falls back to its own table leaves for later. */
  lemma FallbackUsesBudget(c: Config, twins: seq<Table>, p: nat, x: Check, from: real, who: Identity, a: real)
    requires Enabled(c) && p < |twins| && from <= x.at && Begun(c, twins[p], from)
    ensures TablesBudget(c, twins[p := Counted(c, twins[p], x.who, x.at)], who, a)
            + Hit(c, x, Answer(c, twins[p], x.who, x.at), who, a) <= TablesBudget(c, twins, who, a)
  {
    CheckUsesBudget(c, twins[p], x, from, who, a);
    OneTableChanges(c, twins, p, Counted(c, twins[p], x.who, x.at), who, a);
  }

  /** What a never-sweeping limiter makes of its table. */
  function TwinsAfter(c: Config, twins: seq<Table>, p: nat, x: Check, store: Store): seq<Table>
    requires p < |twins|
  {
    if store.Works? then twins else twins[p := Counted(c, twins[p], x.who, x.at)]
  }

  lemma MixedStep(c: Config, counters: Counters, tables: seq<Table>, twins: seq<Table>, x: Check, p: nat, store: Store,
                  from: real, who: Identity, a: real)
    requires Enabled(c) && p < |tables| && from <= x.at && CountersOk(c, counters, from) && Twins(c, tables, twins, from)
    ensures CountersOk(c, MixedCounters(c, counters, x.who, x.at, store), x.at)
    ensures Twins(c, tables[p := MixedTable(c, tables[p], x.who, x.at, store)], TwinsAfter(c, twins, p, x, store), x.at)
    ensures Hit(c, x, MixedAnswer(c, counters, tables[p], x.who, x.at, store), who, a)
            + StoreBudget(c, MixedCounters(c, counters, x.who, x.at, store), who, a)
            + TablesBudget(c, TwinsAfter(c, twins, p, x, store), who, a)
         <= StoreBudget(c, counters, who, a) + TablesBudget(c, twins, who, a)
  {
    CheckUsesStore(c, counters, x, from, who, a);
    CountersGoOn(c, counters, from, x.at);
    TwinsGoOn(c, tables, twins, p, x, from);
    FallbackUsesBudget(c, twins, p, x, from, who, a);
    assert tables[p := tables[p]] == tables;
  }

  lemma {:induction false} MixedWithin(c: Config, counters: Counters, tables: seq<Table>, twins: seq<Table>, run: seq<Check>,
                                       via: seq<Via>, from: real, who: Identity, a: real)
    requires Enabled(c) && ClockOk(run, from) && Paired(tables, run, via)
    requires CountersOk(c, counters, from) && Twins(c, tables, twins, from)
    ensures |MixedAnswers(c, counters, tables, run, via)| == |run|
    ensures Allowed(run, MixedAnswers(c, counters, tables, run, via), who, a, a + c.window as real)
            <= StoreBudget(c, counters, who, a) + TablesBudget(c, twins, who, a)
    decreases |run|
  {
    if run != [] {
      var (x, p, store) := (run[0], via[0].process, via[0].store);
      MixedStep(c, counters, tables, twins, x, p, store, from, who, a);
      var (counted, next) := (MixedCounters(c, counters, x.who, x.at, store), tables[p := MixedTable(c, tables[p], x.who, x.at, store)]);
      MixedWithin(c, counted, next, TwinsAfter(c, twins, p, x, store), run[1..], via[1..], x.at, who, a);
      FirstHit(c, run, MixedAnswer(c, counters, tables[p], x.who, x.at, store), MixedAnswers(c, counted, next, run[1..], via[1..]), who, a);
    }
  }

  lemma {:induction false} FirstHit(c: Config, run: seq<Check>, first: Option<int>, rest: seq<Option<int>>, who: Identity, a: real)
    requires run != [] && |rest| == |run| - 1
    ensures Allowed(run, [first] + rest, who, a, a + c.window as real)
         == Hit(c, run[0], first, who, a) + Allowed(run[1..], rest, who, a, a + c.window as real)
  {
    assert ([first] + rest)[1..] == rest;
  }

  lemma {:induction false} NewTables(c: Config, tables: seq<Table>, who: Identity, a: real)
    requires forall i :: 0 <= i < |tables| ==> tables[i] == map[]
    ensures TablesBudget(c, tables, who, a) == |tables| * (2 * c.limit)
  {
    if tables != [] { NewTables(c, tables[1..], who, a); }
  }

  /** The rate of the service as it runs, with a store that fails and comes back at any moment, losing
      replies or not, and any number of processes that then fall back to tables of their own: in any
      interval as long as a window one identity is allowed at most twice the limit for the store and
      twice the limit for each process, whatever the other identities do. */
  lemma MixedRate(c: Config, tables: seq<Table>, run: seq<Check>, via: seq<Via>, from: real, who: Identity, a: real)
    requires Enabled(c) && ClockOk(run, from) && Paired(tables, run, via)
    requires forall i :: 0 <= i < |tables| ==> tables[i] == map[]
    ensures |MixedAnswers(c, map[], tables, run, via)| == |run|
    ensures Allowed(run, MixedAnswers(c, map[], tables, run, via), who, a, a + c.window as real)
            <= 2 * c.limit + |tables| * (2 * c.limit)
  {
    MixedWithin(c, map[], tables, tables, run, via, from, who, a);
    NewTables(c, tables, who, a);
  }

  /** The limiter with a shared store behind it; an outage falls back to the local windows. */
  class SharedRateLimiter {
    const local: RateLimiter
    var counters: Counters

    constructor (config: Config)
      ensures local.config == config && counters == map[] && fresh(local) && local.local == map[]
    {
      local := new RateLimiter(config);
      counters := map[];
    }

    method CheckRedis(who: Identity, now: real) returns (retryAfter: Option<int>)
      requires local.config.window > 0
      modifies this
      ensures retryAfter == RedisAnswer(local.config, old(counters), who, now)
      ensures counters == Incremented(local.config, old(counters), who, now)
    {
      var bucket := Bucket(local.config, now);
      var key := (who, bucket);
      if key in counters && counters[key].expires <= now { counters := counters - {key}; }
      var count := (if key in counters then counters[key].count else 0) + 1;
      counters := counters[key := Counter(count, now + (local.config.window + 1) as real)];
      if count > local.config.limit {
        return Some(Wait(BucketStart(local.config, bucket + 1) - now));
      }
      return None;
    }

    /** A limit of zero lets everything through. */
    method Check(who: Identity, now: real, store: Store) returns (retryAfter: Option<int>)
      requires local.config.window > 0
      modifies this, local
      ensures local.config.limit == 0 ==>
        retryAfter.None? && counters == old(counters) && local.local == old(local.local)
      ensures local.config.limit > 0 && store.Works? ==>
        retryAfter == RedisAnswer(local.config, old(counters), who, now) && local.local == old(local.local)
      ensures local.config.limit > 0 && !store.Works? ==>
        && retryAfter == Answer(local.config, old(local.local), who, now)
        && local.local == After(local.config, old(local.local), who, now)
      ensures local.config.limit > 0 ==>
        counters == if store.Refused? then old(counters) else Incremented(local.config, old(counters), who, now)
      ensures local.config.limit > 0 ==>
        && retryAfter == MixedAnswer(local.config, old(counters), old(local.local), who, now, store)
        && counters == MixedCounters(local.config, old(counters), who, now, store)
        && local.local == MixedTable(local.config, old(local.local), who, now, store)
    {
      if local.config.limit == 0 { return None; }
      if !store.Refused? {
        retryAfter := CheckRedis(who, now);
        if store.Works? { return; }
      }
      retryAfter := local.CheckLocal(who, now);
    }
  }
}
