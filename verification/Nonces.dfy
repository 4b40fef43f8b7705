/** Replay protection: the two nonce stores of src/payments/replay.py. */
module Nonces {
  import opened Clocks

  type Key = string

  // ---- one process: a map that forgets -------------------------------------

  /** One call of claim, with the clock reading it makes. */
  datatype Claim = Claim(key: Key, expiresAt: int, at: int)

  function Evict(claimed: map<Key, int>, moment: int): map<Key, int> {
    map k | k in claimed && moment < claimed[k] :: claimed[k]
  }

  predicate Granted(claimed: map<Key, int>, c: Claim) { c.key !in Evict(claimed, c.at) }

  function After(claimed: map<Key, int>, c: Claim): map<Key, int> {
    var kept := Evict(claimed, c.at);
    if c.key in kept then kept else kept[c.key := c.expiresAt]
  }

  class InMemoryNonceStore {
    var claimed: map<Key, int>

    constructor ()
      ensures claimed == map[]
    {
      claimed := map[];
    }

    method EvictExpired(moment: int)
      modifies this
      ensures claimed == Evict(old(claimed), moment)
    {
      if claimed == map[] { return; }
      var expired := set k | k in claimed && claimed[k] <= moment;
      var todo := expired;
      while todo != {}
        invariant todo <= expired
        invariant claimed == old(claimed) - (expired - todo)
        decreases |todo|
      {
        var k :| k in todo;
        claimed := claimed - {k};
        todo := todo - {k};
      }
      assert forall k :: k in claimed <==> k in old(claimed) && moment < old(claimed)[k];
      assert claimed == Evict(old(claimed), moment);
    }

    /** Record the key as spent; true only for the first caller among those still remembered. */
    method TryClaim(c: Claim) returns (first: bool)
      modifies this
      ensures first == Granted(old(claimed), c) && claimed == After(old(claimed), c)
    {
      EvictExpired(c.at);
      if c.key in claimed { return false; }
      claimed := claimed[c.key := c.expiresAt];
      return true;
    }
  }

  /** The answers of the store to a run of claims. */
  function Answers(claimed: map<Key, int>, run: seq<Claim>): seq<bool>
    decreases |run|
  {
    if run == [] then [] else [Granted(claimed, run[0])] + Answers(After(claimed, run[0]), run[1..])
  }

  /** The answers of a store that never forgets. */
  function Remembering(spent: set<Key>, run: seq<Claim>): seq<bool>
    decreases |run|
  {
    if run == [] then [] else [run[0].key !in spent] + Remembering(spent + {run[0].key}, run[1..])
  }

  lemma {:induction false} AnswerCounts(claimed: map<Key, int>, spent: set<Key>, run: seq<Claim>)
    ensures |Answers(claimed, run)| == |run| && |Remembering(spent, run)| == |run|
    decreases |run|
  {
    if run != [] { AnswerCounts(After(claimed, run[0]), spent + {run[0].key}, run[1..]); }
  }

  ghost predicate ClockOk(run: seq<Claim>, from: int) {
    && (forall i :: 0 <= i < |run| ==> from <= run[i].at)
    && (forall i, j :: 0 <= i < j < |run| ==> run[i].at <= run[j].at)
  }

  /** Every claim of a key carries the expiry `expiry` gives that key. */
  ghost predicate OneExpiry(run: seq<Claim>, expiry: Key -> int) {
    forall i :: 0 <= i < |run| ==> run[i].expiresAt == expiry(run[i].key)
  }

  /** On a clock that never goes back, the store that evicts gives the same answer as the store that
      never forgets exactly when the authorization has not expired, or has never been claimed. */
  lemma EvictionIsInvisible(run: seq<Claim>, expiry: Key -> int, from: int, i: nat)
    requires ClockOk(run, from) && OneExpiry(run, expiry) && i < |run|
    ensures |Answers(map[], run)| == |run| && |Remembering({}, run)| == |run|
    ensures Answers(map[], run)[i] == Remembering({}, run)[i]
            <==> run[i].at < run[i].expiresAt || Remembering({}, run)[i]
  {
    EvictionIsInvisibleFrom(map[], {}, run, expiry, from, i);
  }

  lemma {:induction false} EvictionIsInvisibleFrom(
    claimed: map<Key, int>, spent: set<Key>, run: seq<Claim>, expiry: Key -> int, from: int, i: nat)
    requires ClockOk(run, from) && OneExpiry(run, expiry) && i < |run|
    requires claimed.Keys <= spent && forall k :: k in claimed ==> claimed[k] == expiry(k)
    requires forall k :: k in spent && from < expiry(k) ==> k in claimed
    ensures |Answers(claimed, run)| == |run| && |Remembering(spent, run)| == |run|
    ensures Answers(claimed, run)[i] == Remembering(spent, run)[i]
            <==> run[i].at < run[i].expiresAt || Remembering(spent, run)[i]
    decreases |run|
  {
    AnswerCounts(claimed, spent, run);
    var c := run[0];
    if i == 0 {
      assert c.expiresAt == expiry(c.key);
    } else {
      assert run[0].at <= run[i].at;
      EvictionIsInvisibleFrom(After(claimed, c), spent + {c.key}, run[1..], expiry, c.at, i - 1);
    }
  }

  /** A live authorization is granted once: of two granted claims of the same authorization, the
      later one came when it had expired, whatever else was claimed in between. */
  lemma LiveOnlyOnce(claimed: map<Key, int>, run: seq<Claim>, from: int, i: nat, j: nat)
    requires ClockOk(run, from) && i < j < |run|
    requires run[i].key == run[j].key && run[i].expiresAt == run[j].expiresAt
    requires |Answers(claimed, run)| == |run| && Answers(claimed, run)[i] && Answers(claimed, run)[j]
    ensures run[j].expiresAt <= run[j].at
    decreases i
  {
    AnswerCounts(After(claimed, run[0]), {}, run[1..]);
    if i > 0 {
      LiveOnlyOnce(After(claimed, run[0]), run[1..], from, i - 1, j - 1);
    } else if run[j].at < run[j].expiresAt {
      StaysClaimed(After(claimed, run[0]), run[1..], from, j - 1);
    }
  }

  lemma {:induction false} StaysClaimed(claimed: map<Key, int>, run: seq<Claim>, from: int, j: nat)
    requires ClockOk(run, from) && j < |run| && run[j].at < run[j].expiresAt
    requires run[j].key in claimed && claimed[run[j].key] == run[j].expiresAt
    ensures |Answers(claimed, run)| == |run| && !Answers(claimed, run)[j]
    decreases j
  {
    AnswerCounts(claimed, {}, run);
    if j > 0 {
      assert run[0].at <= run[j].at;
      StaysClaimed(After(claimed, run[0]), run[1..], from, j - 1);
    }
  }

  /** On any clock, forwards or backwards: after a granted claim, the next claim of that key is granted
      again exactly when it, or some claim in between, read a time at or past the expiry of the first. So a
      second claim made while the authorization is live is granted exactly when a claim of another
      key in between read such a time, which takes a clock that went back. */
  lemma GrantedAgainWhen(claimed: map<Key, int>, run: seq<Claim>, i: nat, j: nat)
    requires i < j < |run| && run[i].key == run[j].key
    requires forall k :: i < k < j ==> run[k].key != run[i].key
    requires |Answers(claimed, run)| == |run| && Answers(claimed, run)[i]
    ensures Answers(claimed, run)[j] <==> exists k :: i < k <= j && run[i].expiresAt <= run[k].at
    decreases i
  {
    var (c, next) := (run[0], After(claimed, run[0]));
    AnswerCounts(next, {}, run[1..]);
    if i > 0 {
      GrantedAgainWhen(next, run[1..], i - 1, j - 1);
      assert forall k :: i < k <= j ==> run[1..][k - 1] == run[k];
      assert forall k :: i - 1 < k <= j - 1 ==> run[1..][k] == run[k + 1];
    } else {
      ForgottenWhen(next, run[1..], j - 1);
      assert forall k :: i < k <= j ==> run[1..][k - 1] == run[k];
      assert forall k :: 0 <= k <= j - 1 ==> run[1..][k] == run[k + 1];
    }
  }

  /** An entry is gone by the next claim of its key exactly when some claim up to that one has read
      a time at or past its expiry. */
  lemma {:induction false} ForgottenWhen(claimed: map<Key, int>, run: seq<Claim>, j: nat)
    requires j < |run| && run[j].key in claimed
    requires forall k :: 0 <= k < j ==> run[k].key != run[j].key
    ensures |Answers(claimed, run)| == |run|
    ensures Answers(claimed, run)[j] <==> exists k :: 0 <= k <= j && claimed[run[j].key] <= run[k].at
    decreases j
  {
    AnswerCounts(claimed, {}, run);
    var next := After(claimed, run[0]);
    if j > 0 {
      assert forall k :: 0 < k <= j ==> run[1..][k - 1] == run[k];
      assert forall k :: 0 <= k < j ==> run[1..][k] == run[k + 1];
      if claimed[run[j].key] <= run[0].at {
        NeverClaimed(next, run[1..], j - 1);
      } else {
        ForgottenWhen(next, run[1..], j - 1);
      }
    }
  }

  lemma {:induction false} NeverClaimed(claimed: map<Key, int>, run: seq<Claim>, j: nat)
    requires j < |run| && run[j].key !in claimed
    requires forall k :: 0 <= k < j ==> run[k].key != run[j].key
    ensures |Answers(claimed, run)| == |run| && Answers(claimed, run)[j]
    decreases j
  {
    AnswerCounts(claimed, {}, run);
    if j > 0 { NeverClaimed(After(claimed, run[0]), run[1..], j - 1); }
  }

  /** Such a run: a live authorization granted twice. */
  lemma ClockGoingBackGrantsTwice(k: Key, other: Key)
    requires k != other
    ensures Answers(map[], [Claim(k, 10, 0), Claim(other, 20, 10), Claim(k, 10, 5)]) == [true, true, true]
  {
    var run := [Claim(k, 10, 0), Claim(other, 20, 10), Claim(k, 10, 5)];
    AnswerCounts(map[], {}, run);
    NeverClaimed(map[], run, 0);
    NeverClaimed(map[], run, 1);
    GrantedAgainWhen(map[], run, 0, 2);
    assert run[0].expiresAt <= run[1].at;
  }

  // ---- many processes: SET NX EX -------------------------------------------

  /** One call of claim: when it read the clock, and when its SET reached Redis. */
  datatype RedisClaim = RedisClaim(key: Key, expiresAt: int, readAt: real, setAt: real)

  function Remaining(c: RedisClaim): int { Truncate(c.expiresAt as real - c.readAt) }

  /** A key exists until its deadline. */
  predicate Exists(keys: map<Key, real>, k: Key, now: real) { k in keys && now < keys[k] }

  predicate RedisGranted(keys: map<Key, real>, c: RedisClaim) {
    Remaining(c) > 0 && !Exists(keys, c.key, c.setAt)
  }

  function RedisAfter(keys: map<Key, real>, c: RedisClaim, grace: nat): map<Key, real> {
    if RedisGranted(keys, c) then keys[c.key := c.setAt + (Remaining(c) + grace) as real] else keys
  }

  class RedisNonceStore {
    var keys: map<Key, real>
    const grace: nat

    constructor (grace: nat)
      ensures keys == map[] && this.grace == grace
    {
      keys, this.grace := map[], grace;
    }

    /** An unreachable store refuses. */
    method TryClaim(c: RedisClaim, reachable: bool) returns (first: bool)
      modifies this
      ensures first == (reachable && RedisGranted(old(keys), c))
      ensures keys == if first then RedisAfter(old(keys), c, grace) else old(keys)
    {
      var remaining := Truncate(c.expiresAt as real - c.readAt);
      if remaining <= 0 { return false; }
      var ttl := remaining + grace;
      if !reachable { return false; }
      if c.key in keys && c.setAt < keys[c.key] { return false; }
      keys := keys[c.key := c.setAt + ttl as real];
      return true;
    }
  }

  function RedisAnswers(keys: map<Key, real>, run: seq<RedisClaim>, grace: nat): seq<bool>
    decreases |run|
  {
    if run == [] then []
    else [RedisGranted(keys, run[0])] + RedisAnswers(RedisAfter(keys, run[0], grace), run[1..], grace)
  }

  lemma {:induction false} RedisAnswerCount(keys: map<Key, real>, run: seq<RedisClaim>, grace: nat)
    ensures |RedisAnswers(keys, run, grace)| == |run|
    decreases |run|
  {
    if run != [] { RedisAnswerCount(RedisAfter(keys, run[0], grace), run[1..], grace); }
  }

  /** Claims in the order in which Redis executes them, on its clock. */
  ghost predicate InOrder(run: seq<RedisClaim>, from: real) {
    && (forall i :: 0 <= i < |run| ==> from <= run[i].setAt)
    && (forall i, j :: 0 <= i < j < |run| ==> run[i].setAt <= run[j].setAt)
  }

  /** The SET reached Redis no later than the grace period after the clock was read. */
  predicate Prompt(c: RedisClaim, grace: nat) { c.readAt <= c.setAt <= c.readAt + grace as real }

  /** The key of a granted authorization is out of reach for good: it exists past the last moment
      at which a prompt claim of that authorization can still arrive, or that moment is over. */
  ghost predicate Closed(keys: map<Key, real>, k: Key, expiresAt: int, now: real, grace: nat) {
    || (k in keys && keys[k] > (expiresAt - 1 + grace) as real)
    || now > (expiresAt - 1 + grace) as real
  }

  lemma GrantCloses(keys: map<Key, real>, c: RedisClaim, grace: nat)
    requires c.readAt <= c.setAt && RedisGranted(keys, c)
    ensures Closed(RedisAfter(keys, c, grace), c.key, c.expiresAt, c.setAt, grace)
  {
    assert Remaining(c) as real > c.expiresAt as real - c.readAt - 1.0;
  }

  lemma StaysClosed(keys: map<Key, real>, k: Key, expiresAt: int, now: real, c: RedisClaim, grace: nat)
    requires Closed(keys, k, expiresAt, now, grace) && now <= c.setAt
    ensures Closed(RedisAfter(keys, c, grace), k, expiresAt, c.setAt, grace)
    ensures c.key == k && c.expiresAt == expiresAt && Prompt(c, grace) ==> !RedisGranted(keys, c)
  {
    if Remaining(c) > 0 && c.expiresAt == expiresAt && Prompt(c, grace) {
      assert c.expiresAt as real - c.readAt >= 1.0;
    }
  }

  /** At most once for all time: over any run of claims in any interleaving, with any grace period
      and whatever other claims there are, one authorization is granted at most once, provided its
      own claims reach Redis within the grace period of their reading the clock. */
  lemma GrantedAtMostOnce(keys: map<Key, real>, run: seq<RedisClaim>, grace: nat, from: real, i: nat, j: nat)
    requires InOrder(run, from) && i < j < |run|
    requires run[i].key == run[j].key && run[i].expiresAt == run[j].expiresAt
    requires run[i].readAt <= run[i].setAt && Prompt(run[j], grace)
    ensures |RedisAnswers(keys, run, grace)| == |run|
    ensures !(RedisAnswers(keys, run, grace)[i] && RedisAnswers(keys, run, grace)[j])
    decreases i
  {
    RedisAnswerCount(keys, run, grace);
    var next := RedisAfter(keys, run[0], grace);
    if i > 0 {
      GrantedAtMostOnce(next, run[1..], grace, from, i - 1, j - 1);
    } else if RedisGranted(keys, run[0]) {
      GrantCloses(keys, run[0], grace);
      RefusedWhenClosed(next, run[1..], grace, run[0].setAt, j - 1);
    }
  }

  lemma {:induction false} RefusedWhenClosed(keys: map<Key, real>, run: seq<RedisClaim>, grace: nat, now: real, j: nat)
    requires InOrder(run, now) && j < |run| && Prompt(run[j], grace)
    requires Closed(keys, run[j].key, run[j].expiresAt, now, grace)
    ensures |RedisAnswers(keys, run, grace)| == |run| && !RedisAnswers(keys, run, grace)[j]
    decreases j
  {
    RedisAnswerCount(keys, run, grace);
    StaysClosed(keys, run[j].key, run[j].expiresAt, now, run[0], grace);
    if j > 0 {
      RefusedWhenClosed(RedisAfter(keys, run[0], grace), run[1..], grace, run[0].setAt, j - 1);
    }
  }

  /** Exactly when two claims of one key are both granted, in any run from any state of the store: after
      one is granted, the next claim of that key is granted exactly when a second is left on its
      authorization and its SET comes after the first key has gone. For the same authorization that
      takes a stall between reading the clock and the SET that is longer than the grace. */
  lemma BothGranted(keys: map<Key, real>, run: seq<RedisClaim>, grace: nat, i: nat, j: nat)
    requires i < j < |run| && run[i].key == run[j].key
    requires forall k :: i < k < j ==> run[k].key != run[i].key
    requires |RedisAnswers(keys, run, grace)| == |run| && RedisAnswers(keys, run, grace)[i]
    ensures Remaining(run[i]) > 0
    ensures RedisAnswers(keys, run, grace)[j] <==>
            && Remaining(run[j]) > 0
            && run[j].setAt >= run[i].setAt + (Remaining(run[i]) + grace) as real
    ensures RedisAnswers(keys, run, grace)[j] && run[i].expiresAt == run[j].expiresAt && run[i].readAt <= run[i].setAt
            ==> run[j].setAt - run[j].readAt > grace as real
    decreases i
  {
    var next := RedisAfter(keys, run[0], grace);
    RedisAnswerCount(next, run[1..], grace);
    if i > 0 {
      BothGranted(next, run[1..], grace, i - 1, j - 1);
    } else {
      GrantedPastDeadline(next, run[1..], grace, j - 1);
    }
    if RedisAnswers(keys, run, grace)[j] && run[i].expiresAt == run[j].expiresAt && run[i].readAt <= run[i].setAt {
      StalledPastGrace(run[i], run[j], grace);
    }
  }

  lemma StalledPastGrace(a: RedisClaim, b: RedisClaim, grace: nat)
    requires a.expiresAt == b.expiresAt && a.readAt <= a.setAt && Remaining(a) > 0 && Remaining(b) > 0
    requires b.setAt >= a.setAt + (Remaining(a) + grace) as real
    ensures b.setAt - b.readAt > grace as real
  {
    assert b.expiresAt as real - b.readAt >= 1.0;
    assert Remaining(a) as real > a.expiresAt as real - a.readAt - 1.0;
  }

  lemma {:induction false} GrantedPastDeadline(keys: map<Key, real>, run: seq<RedisClaim>, grace: nat, j: nat)
    requires j < |run| && run[j].key in keys
    requires forall k :: 0 <= k < j ==> run[k].key != run[j].key
    ensures |RedisAnswers(keys, run, grace)| == |run|
    ensures RedisAnswers(keys, run, grace)[j] <==> Remaining(run[j]) > 0 && run[j].setAt >= keys[run[j].key]
    decreases j
  {
    RedisAnswerCount(keys, run, grace);
    if j > 0 { GrantedPastDeadline(RedisAfter(keys, run[0], grace), run[1..], grace, j - 1); }
  }

  /** Such a stall exists for every grace period. */
  lemma StallGrantsTwice(k: Key, grace: nat)
    ensures var a := RedisClaim(k, 2, 0.0, 0.0);
            var b := RedisClaim(k, 2, 0.0, (2 + grace) as real);
            RedisAnswers(map[], [a, b], grace) == [true, true]
  {
    var a := RedisClaim(k, 2, 0.0, 0.0);
    var b := RedisClaim(k, 2, 0.0, (2 + grace) as real);
    assert Remaining(a) == 2 && Remaining(b) == 2;
    RedisAnswerCount(map[], [a, b], grace);
    assert RedisAnswers(map[], [a, b], grace)[0];
    BothGranted(map[], [a, b], grace, 0, 1);
  }
}
