/**
 Tool scheduling in waves (crates/agent-core/src/tool/resource.rs and
 scheduler.rs). The reference for a wave: a call is ready when it conflicts with no
 call waiting in front of it.
 */
module Schedule {

  datatype Mode = Read | Write | ReadWrite | Search

  datatype Namespace = Workspace | Process | Network | Mcp | Artifact | External | Global

  datatype Claim = Claim(namespace: Namespace, key: string, mode: Mode, recursive: bool)

  const GLOBAL_EXCLUSIVE := Claim(Global, "*", ReadWrite, true)

  predicate Writes(mode: Mode) { mode.Write? || mode.ReadWrite? }

  predicate ContainsKey(parent: string, child: string) {
    parent == "." || (parent <= child && |child| > |parent| && child[|parent|] == '/')
  }

  predicate KeysOverlap(left: Claim, right: Claim) {
    || left.key == right.key
    || (left.recursive && ContainsKey(left.key, right.key))
    || (right.recursive && ContainsKey(right.key, left.key))
  }

  predicate ClaimsConflict(left: Claim, right: Claim) {
    if left.namespace.Global? || right.namespace.Global? then true
    else if left.namespace != right.namespace || !(Writes(left.mode) || Writes(right.mode)) then false
    else KeysOverlap(left, right)
  }

  datatype Scheduled<T> = Scheduled(value: T, claims: seq<Claim>)

  function Normalized(claims: seq<Claim>): seq<Claim> {
    if claims == [] then [GLOBAL_EXCLUSIVE] else claims
  }

  predicate Conflict<T>(left: Scheduled<T>, right: Scheduled<T>) {
    exists i, j :: 0 <= i < |left.claims| && 0 <= j < |right.claims| && ClaimsConflict(left.claims[i], right.claims[j])
  }

  lemma ConflictSymmetric<T>(a: Scheduled<T>, b: Scheduled<T>)
    requires Conflict(a, b)
    ensures Conflict(b, a)
  {
    var i, j :| 0 <= i < |a.claims| && 0 <= j < |b.claims| && ClaimsConflict(a.claims[i], b.claims[j]);
    assert ClaimsConflict(b.claims[j], a.claims[i]);
  }

  /** A call that claims everything. */
  predicate IsExclusive<T>(s: Scheduled<T>) {
    |s.claims| > 0 && s.claims[0].namespace.Global?
  }

  lemma ExclusiveConflicts<T>(a: Scheduled<T>, b: Scheduled<T>)
    requires IsExclusive(a) && |b.claims| > 0
    ensures Conflict(a, b) && Conflict(b, a)
  {
    assert ClaimsConflict(a.claims[0], b.claims[0]) && ClaimsConflict(b.claims[0], a.claims[0]);
  }

  ghost predicate ConflictsBefore<T>(waiting: seq<Scheduled<T>>, i: nat)
    requires i < |waiting|
  {
    exists j :: 0 <= j < i && Conflict(waiting[i], waiting[j])
  }

  /** The waiting calls up to `n` that conflict with nothing in front of them, in order. */
  ghost function Ready<T>(waiting: seq<Scheduled<T>>, n: nat): (r: seq<Scheduled<T>>)
    requires n <= |waiting|
    ensures |r| <= n
  {
    if n == 0 then []
    else Ready(waiting, n - 1) + (if ConflictsBefore(waiting, n - 1) then [] else [waiting[n - 1]])
  }

  /** The others, in order. */
  ghost function Blocked<T>(waiting: seq<Scheduled<T>>, n: nat): (r: seq<Scheduled<T>>)
    requires n <= |waiting|
    ensures |r| + |Ready(waiting, n)| == n
  {
    if n == 0 then []
    else Blocked(waiting, n - 1) + (if ConflictsBefore(waiting, n - 1) then [waiting[n - 1]] else [])
  }

  /** Every call that has been looked at is in exactly one of the two lists. */
  lemma {:induction false} Partition<T>(waiting: seq<Scheduled<T>>, n: nat)
    requires n <= |waiting|
    ensures multiset(waiting[..n]) == multiset(Ready(waiting, n)) + multiset(Blocked(waiting, n))
  {
    if n > 0 {
      Partition(waiting, n - 1);
      assert waiting[..n] == waiting[..n - 1] + [waiting[n - 1]];
      OneMoreCall(waiting[..n - 1], waiting[n - 1], Ready(waiting, n - 1), Blocked(waiting, n - 1));
    } else {
      assert waiting[..0] == [];
    }
  }

  lemma OneMoreCall<T>(all: seq<Scheduled<T>>, call: Scheduled<T>, ready: seq<Scheduled<T>>, blocked: seq<Scheduled<T>>)
    requires multiset(all) == multiset(ready) + multiset(blocked)
    ensures multiset(all + [call]) == multiset(ready + [call]) + multiset(blocked + [])
    ensures multiset(all + [call]) == multiset(ready + []) + multiset(blocked + [call])
  {
    assert ready + [] == ready && blocked + [] == blocked;
  }

  lemma InOneList<T>(waiting: seq<Scheduled<T>>, n: nat, c: Scheduled<T>)
    requires n <= |waiting|
    ensures c in waiting[..n] <==> c in Ready(waiting, n) || c in Blocked(waiting, n)
  {
    Partition(waiting, n);
    assert c in waiting[..n] <==> c in multiset(waiting[..n]);
  }

  class ToolSchedule<T> {
    var waiting: seq<Scheduled<T>>

    /** Every waiting call claims something. */
    ghost predicate Valid()
      reads this
    {
      forall i :: 0 <= i < |waiting| ==> |waiting[i].claims| > 0
    }

    constructor ()
      ensures Valid() && waiting == []
    {
      waiting := [];
    }

    method Push(value: T, claims: seq<Claim>)
      modifies this
      ensures old(Valid()) ==> Valid()
      ensures waiting == old(waiting) + [Scheduled(value, Normalized(claims))]
    {
      waiting := waiting + [Scheduled(value, Normalized(claims))];
    }

    method Drain() returns (all: seq<Scheduled<T>>)
      modifies this
      ensures all == old(waiting) && waiting == [] && Valid()
    {
      all := waiting;
      waiting := [];
    }

    /** The largest wave in which no call passes an earlier one it conflicts with. */
    method TakeReadyWave() returns (ready: seq<Scheduled<T>>)
      requires Valid()
      modifies this
      ensures Valid()
      ensures ready == Ready(old(waiting), |old(waiting)|)
      ensures waiting == Blocked(old(waiting), |old(waiting)|)
    {
      ghost var queue := waiting;
      ready := [];
      var blocked: seq<Scheduled<T>> := [];
      for n := 0 to |waiting|
        invariant waiting == queue
        invariant ready == Ready(queue, n) && blocked == Blocked(queue, n)
      {
        var candidate := waiting[n];
        var conflictsWithRunning := exists k :: 0 <= k < |ready| && Conflict(candidate, ready[k]);
        var passesWaiter := exists k :: 0 <= k < |blocked| && Conflict(candidate, blocked[k]);
        EarlierConflict(queue, n);
        if conflictsWithRunning || passesWaiter {
          blocked := blocked + [candidate];
        } else {
          ready := ready + [candidate];
        }
      }
      forall i | 0 <= i < |blocked|
        ensures |blocked[i].claims| > 0
      {
        BlockedWaits(queue, |queue|, i);
      }
      waiting := blocked;
    }
  }

  lemma EarlierConflict<T>(waiting: seq<Scheduled<T>>, n: nat)
    requires n < |waiting|
    ensures ConflictsBefore(waiting, n) <==>
            (exists k :: 0 <= k < |Ready(waiting, n)| && Conflict(waiting[n], Ready(waiting, n)[k])) ||
            (exists k :: 0 <= k < |Blocked(waiting, n)| && Conflict(waiting[n], Blocked(waiting, n)[k]))
  {
    var ready, blocked := Ready(waiting, n), Blocked(waiting, n);
    if ConflictsBefore(waiting, n) {
      var j :| 0 <= j < n && Conflict(waiting[n], waiting[j]);
      assert waiting[..n][j] == waiting[j];
      InOneList(waiting, n, waiting[j]);
    }
    if k :| 0 <= k < |ready| && Conflict(waiting[n], ready[k]) {
      InOneList(waiting, n, ready[k]);
      var j :| 0 <= j < n && waiting[..n][j] == ready[k];
    }
    if k :| 0 <= k < |blocked| && Conflict(waiting[n], blocked[k]) {
      InOneList(waiting, n, blocked[k]);
      var j :| 0 <= j < n && waiting[..n][j] == blocked[k];
    }
  }

  lemma BlockedWaits<T>(waiting: seq<Scheduled<T>>, n: nat, i: nat)
    requires n <= |waiting| && i < |Blocked(waiting, n)|
    ensures exists j :: 0 <= j < n && waiting[j] == Blocked(waiting, n)[i]
  {
    InOneList(waiting, n, Blocked(waiting, n)[i]);
    var j :| 0 <= j < n && waiting[..n][j] == Blocked(waiting, n)[i];
    assert waiting[j] == Blocked(waiting, n)[i];
  }

  // ----- What a wave is

  lemma ReadyWaits<T>(waiting: seq<Scheduled<T>>, n: nat, i: nat)
    requires n <= |waiting| && i < |Ready(waiting, n)|
    ensures exists j :: 0 <= j < n && waiting[j] == Ready(waiting, n)[i]
  {
    InOneList(waiting, n, Ready(waiting, n)[i]);
    var j :| 0 <= j < n && waiting[..n][j] == Ready(waiting, n)[i];
    assert waiting[j] == Ready(waiting, n)[i];
  }

  /** Calls of one wave never conflict. */
  lemma {:induction false} WaveIsConflictFree<T>(waiting: seq<Scheduled<T>>, n: nat, i: nat, j: nat)
    requires n <= |waiting| && i < j < |Ready(waiting, n)|
    ensures !Conflict(Ready(waiting, n)[i], Ready(waiting, n)[j])
    ensures !Conflict(Ready(waiting, n)[j], Ready(waiting, n)[i])
  {
    var before := Ready(waiting, n - 1);
    if j < |before| {
      WaveIsConflictFree(waiting, n - 1, i, j);
    } else {
      ReadyWaits(waiting, n - 1, i);
      assert !ConflictsBefore(waiting, n - 1);
      if Conflict(Ready(waiting, n)[i], Ready(waiting, n)[j]) {
        ConflictSymmetric(Ready(waiting, n)[i], Ready(waiting, n)[j]);
      }
    }
  }

  /** The first waiting call always runs, so every schedule is worked off. */
  lemma {:induction false} FirstIsReady<T>(waiting: seq<Scheduled<T>>, n: nat)
    requires 0 < n <= |waiting|
    ensures Ready(waiting, n) != [] && Ready(waiting, n)[0] == waiting[0]
  {
    if n == 1 {
      assert !ConflictsBefore(waiting, 0);
      assert Ready(waiting, 0) == [];
    } else {
      FirstIsReady(waiting, n - 1);
    }
  }

  /** A call that claims everything runs alone. */
  lemma ExclusiveRunsAlone<T>(waiting: seq<Scheduled<T>>, n: nat, i: nat)
    requires n <= |waiting| && forall k :: 0 <= k < |waiting| ==> |waiting[k].claims| > 0
    requires i < |Ready(waiting, n)| && IsExclusive(Ready(waiting, n)[i])
    ensures |Ready(waiting, n)| == 1
  {
    var ready := Ready(waiting, n);
    if |ready| > 1 {
      var other := if i == 0 then 1 else 0;
      ReadyWaits(waiting, n, other);
      ExclusiveConflicts(ready[i], ready[other]);
      if i == 0 { WaveIsConflictFree(waiting, n, 0, 1); } else { WaveIsConflictFree(waiting, n, 0, i); }
      assert false;
    }
  }
}
