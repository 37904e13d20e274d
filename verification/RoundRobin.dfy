/** A scan that goes round n places and stops where it began. */
module RoundRobin {

  /** Which places a scan that began at `from` has passed when it stands at `at`. */
  predicate Passed(from: nat, at: nat, wrapped: bool, i: nat) {
    if wrapped then i >= from || i < at else from <= i < at
  }

  /** A scan visits every place once before it is back at its start. */
  lemma PassedNext(from: nat, at: nat, wrapped: bool, n: nat, i: nat)
    requires from < n && at < n && i < n && (wrapped ==> at < from) && (!wrapped ==> from <= at)
    ensures var at' := if at + 1 == n then 0 else at + 1;
            var wrapped' := wrapped || at + 1 == n;
            && (wrapped' ==> at' <= from) && (!wrapped' ==> from < at')
            && (at' == from ==> Passed(from, at', wrapped', i))
            && (Passed(from, at', wrapped', i) ==> Passed(from, at, wrapped, i) || i == at)
  {
  }
}
