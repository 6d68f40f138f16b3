/** The bounded memory of logins that keeps one from being used twice. */
module LoginReplay {
  import opened Subsequences

  /** A login is told apart by its run ID and its timestamp. */
  datatype RunKey = RunKey(runId: string, timestamp: int)

  const DEFAULT_REPLAY_CACHE_SIZE := 64

  /** The last `n` of a sequence, or all there are. */
  function Newest<T>(s: seq<T>, n: nat): seq<T> { if |s| > n then s[|s| - n..] else s }

  /** The logins accepted of a list of attempts. */
  function Accepted(attempts: seq<RunKey>, size: nat): seq<RunKey>
    decreases |attempts|
  {
    if attempts == [] then []
    else
      var before := Accepted(Init(attempts), size);
      if Last(attempts) in Newest(before, size) then before else before + [Last(attempts)]
  }

  class LoginChain {
    const maxSeen: nat
    var recent: set<RunKey>
    var order: seq<RunKey>
    /** All attempts so far. */
    ghost var attempts: seq<RunKey>

    /** The chain remembers exactly the last logins it accepted, each once, in order. */
    ghost predicate Valid()
      reads this
    {
      && maxSeen > 0 && order == Newest(Accepted(attempts, maxSeen), maxSeen)
      && (forall k :: k in recent <==> k in order) && |recent| == |order|
    }

    constructor (size: int)
      ensures Valid() && attempts == [] && maxSeen == if size <= 0 then DEFAULT_REPLAY_CACHE_SIZE else size
    {
      maxSeen := if size <= 0 then DEFAULT_REPLAY_CACHE_SIZE else size;
      recent, order, attempts := {}, [], [];
    }

    /** Refuses a login exactly if it is among the last `maxSeen` accepted. */
    method CheckReplay(key: RunKey) returns (replayed: bool)
      requires Valid()
      modifies this
      ensures Valid() && attempts == old(attempts) + [key]
      ensures replayed <==> key in Newest(Accepted(old(attempts), maxSeen), maxSeen)
      ensures Accepted(attempts, maxSeen) == Accepted(old(attempts), maxSeen) + if replayed then [] else [key]
    {
      Snoc(attempts, key);
      ghost var accepted := Accepted(attempts, maxSeen);
      attempts := attempts + [key];
      if key in recent {
        assert accepted + [] == accepted;
        return true;
      }
      WindowDistinct(old(attempts), maxSeen);
      NewestApart(accepted, maxSeen);
      NewestAdd(accepted, maxSeen, key);
      Remember(key);
      return false;
    }

    method Remember(key: RunKey)
      requires maxSeen > 0 && key !in order && Distinct(order)
      requires (forall k :: k in recent <==> k in order) && |recent| == |order|
      modifies this`recent, this`order
      ensures order == (if |old(order)| >= maxSeen then old(order)[1..] else old(order)) + [key]
      ensures (forall k :: k in recent <==> k in order) && |recent| == |order|
    {
      if |recent| >= maxSeen {
        recent, order := recent - {order[0]}, order[1..];
      }
      recent, order := recent + {key}, order + [key];
    }
  }

  predicate Distinct(s: seq<RunKey>) { forall i, j :: 0 <= i < j < |s| ==> s[i] != s[j] }

  lemma NewestAdd<T>(s: seq<T>, n: nat, x: T)
    requires n > 0
    ensures Newest(s + [x], n) == (if |s| >= n then Newest(s, n)[1..] else Newest(s, n)) + [x]
    ensures |Newest(s, n)| == if |s| >= n then n else |s|
  {}

  /** Elements at most `n` places apart differ. */
  predicate WindowApart(s: seq<RunKey>, n: nat) {
    forall i, j :: 0 <= i < j < |s| && j - i <= n ==> s[i] != s[j]
  }

  /** Of any `n` + 1 logins accepted in a row no two are the same. */
  lemma {:induction false} WindowDistinct(attempts: seq<RunKey>, n: nat)
    ensures WindowApart(Accepted(attempts, n), n)
    decreases |attempts|
  {
    if attempts != [] {
      var before, key := Accepted(Init(attempts), n), Last(attempts);
      WindowDistinct(Init(attempts), n);
      if key !in Newest(before, n) {
        forall i | 0 <= i < |before| && |before| - i <= n ensures before[i] != key {
          var k := if |before| > n then i - (|before| - n) else i;
          assert Newest(before, n)[k] == before[i];
        }
      }
    }
  }

  lemma NewestApart(s: seq<RunKey>, n: nat)
    requires WindowApart(s, n)
    ensures Distinct(Newest(s, n))
  {}

  lemma InNewest(s: seq<RunKey>, n: nat, i: nat)
    requires i < |s| && forall j :: i < j < |s| ==> s[j] != s[i]
    ensures s[i] in Newest(s, n) <==> |s| - i <= n
  {
    var window := Newest(s, n);
    if |s| - i <= n {
      assert window[i - (|s| - |window|)] == s[i];
    } else {
      forall k | 0 <= k < |window| ensures window[k] != s[i] {
        assert window[k] == s[k + (|s| - n)];
      }
    }
  }

  /** A used login is good again exactly when `n` others have been accepted since. */
  lemma ForgottenAfter(attempts: seq<RunKey>, n: nat, i: nat)
    requires i < |Accepted(attempts, n)|
    requires forall j :: i < j < |Accepted(attempts, n)| ==> Accepted(attempts, n)[j] != Accepted(attempts, n)[i]
    ensures var a := Accepted(attempts, n);
            Accepted(attempts + [a[i]], n) != a <==> |a| - i > n
  {
    var a := Accepted(attempts, n);
    Snoc(attempts, a[i]);
    InNewest(a, n, i);
    assert a + [a[i]] != a by { assert |a + [a[i]]| == |a| + 1; }
  }
}
