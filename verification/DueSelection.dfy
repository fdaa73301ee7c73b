/** ORDER BY "nextAttemptAt", id LIMIT n: the selection behind both claim statements
    (internal/adapters/postgres/outbox_publisher.go:15-36, internal/adapters/postgres/transactions.go:121-140). */
module DueSelection {
  import opened Wager

  /** The order in which due items are claimed. */
  predicate NoLater(due: map<nat, Time>, a: nat, b: nat)
    requires a in due && b in due
  {
    due[a] < due[b] || (due[a] == due[b] && a <= b)
  }

  /** The first due items, in order, up to the limit; fewer only if there are no more. */
  ghost predicate FirstDue(due: map<nat, Time>, picked: seq<nat>, limit: nat) {
    && (forall i | 0 <= i < |picked| :: picked[i] in due)
    && (forall i, j | 0 <= i < j < |picked| :: picked[i] != picked[j] && NoLater(due, picked[i], picked[j]))
    && |picked| <= limit
    && (forall i, id | 0 <= i < |picked| && id in due && id !in picked :: NoLater(due, picked[i], id))
    && (|picked| < limit ==> forall id | id in due :: id in picked)
  }

  method Earliest(due: map<nat, Time>, left: set<nat>) returns (best: nat)
    requires left != {} && left <= due.Keys
    ensures best in left && forall id | id in left :: NoLater(due, best, id)
  {
    best :| best in left;
    var rest := left - {best};
    while rest != {}
      invariant rest < left && best in left && best !in rest
      invariant forall id | id in left - rest :: NoLater(due, best, id)
      decreases rest
    {
      var next :| next in rest;
      ghost var before := rest;
      rest := rest - {next};
      if NoLater(due, next, best) {
        best := next;
      }
      forall id | id in left - rest ensures NoLater(due, best, id) {
        assert id == next || id in left - before;
      }
    }
  }

  method PickFirst(due: map<nat, Time>, limit: nat) returns (picked: seq<nat>)
    ensures FirstDue(due, picked, limit)
  {
    var left := due.Keys;
    picked := [];
    while left != {} && |picked| < limit
      invariant |picked| <= limit && left <= due.Keys
      invariant forall id | id in due :: id in left || id in picked
      invariant forall i | 0 <= i < |picked| :: picked[i] in due && picked[i] !in left
      invariant forall i, j | 0 <= i < j < |picked| :: picked[i] != picked[j] && NoLater(due, picked[i], picked[j])
      invariant forall i, id | 0 <= i < |picked| && id in left :: NoLater(due, picked[i], id)
      decreases left
    {
      var first := Earliest(due, left);
      left := left - {first};
      picked := picked + [first];
    }
  }

  lemma PickedWithin(due: map<nat, Time>, picked: seq<nat>, limit: nat)
    requires FirstDue(due, picked, limit)
    ensures |picked| <= limit
  {
  }
}
