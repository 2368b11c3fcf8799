// internal/queryjob/status.go: the lifecycle of a query job.
module JobStatus {
  datatype Status =
    | Pending | Queued | Generating | Validating | Executing
    | Retrying | Succeeded | Failed

  // The transition table. No database update consults it: Delivery proves
  // that the compare-and-set updates nevertheless stay inside it.
  function ValidTransitions(s: Status): seq<Status> {
    match s
    case Pending => [Queued, Failed]
    case Queued => [Generating, Failed]
    case Generating => [Status.Validating, Retrying, Failed]
    case Validating => [Executing, Retrying, Failed]
    case Executing => [Succeeded, Retrying, Failed]
    case Retrying => [Generating, Failed]
    case Succeeded => []
    case Failed => []
  }

  predicate IsTerminal(s: Status) {
    s == Succeeded || s == Failed
  }

  predicate Allowed(s: Status, next: Status) {
    next in ValidTransitions(s)
  }

  method CanTransition(s: Status, next: Status) returns (legal: bool)
    ensures legal == Allowed(s, next)
  {
    var table := ValidTransitions(s);
    for i := 0 to |table|
      invariant next !in table[..i]
    {
      if table[i] == next {
        return true;
      }
    }
    return false;
  }

  // A pipeline stage is a status a worker leaves only forward, to retrying or to failed.
  predicate IsStage(s: Status) {
    s == Generating || s == Validating || s == Executing
  }

  function NextStage(s: Status): Status
    requires s == Generating || s == Validating
  {
    if s == Generating then Validating else Executing
  }

  ghost predicate IsPath(p: seq<Status>) {
    forall i :: 0 <= i < |p| - 1 ==> Allowed(p[i], p[i + 1])
  }

  // How many pipeline steps are left before the status is terminal or retrying.
  function Rank(s: Status): nat {
    match s
    case Pending => 5
    case Queued => 4
    case Retrying => 4
    case Generating => 3
    case Validating => 2
    case Executing => 1
    case Succeeded => 0
    case Failed => 0
  }

  lemma PathExtends(p: seq<Status>, next: Status)
    requires |p| > 0 && IsPath(p) && Allowed(p[|p| - 1], next)
    ensures IsPath(p + [next])
  {
    var q := p + [next];
    forall i | 0 <= i < |q| - 1 ensures Allowed(q[i], q[i + 1]) {
      assert q[i] == p[i];
      assert q[i + 1] == if i == |p| - 1 then next else p[i + 1];
    }
  }
}
