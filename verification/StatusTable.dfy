/** The transition table of work packages, read by where a move leads: from which statuses, and what can be reached at
    all. */
module StatusTable {
  import opened WorkPackageStore

  /** The statuses a package can come from directly. */
  ghost predicate ComesFrom(to: Status, from: Status) {
    match to
    case Proposed => false
    case Planned => from in {Proposed, ReplanRequired, DecisionRequired, Blocked}
    case Eligible => from in {Planned, Leased, RepairRequired, DecisionRequired, Blocked}
    case Leased => from == Eligible
    case Running => from == Leased
    case EvidencePending => from == Running
    case Verifying => from in {Running, EvidencePending}
    case Reviewing => from == Verifying
    case RepairRequired => from in {Running, EvidencePending, Verifying, Reviewing}
    case ReplanRequired => from in {Running, EvidencePending, Verifying, Reviewing}
    case DecisionRequired => from in {Running, Verifying, Reviewing}
    case Accepted => from == Reviewing
    case Closed => from == Accepted
    case Blocked => from in {Planned, Eligible, Leased, Running, EvidencePending, Verifying, Reviewing}
    case Cancelled =>
      from in {Proposed, Planned, Eligible, Leased, RepairRequired, ReplanRequired, DecisionRequired, Blocked}
    case Superseded => from in {Proposed, Planned, Eligible, RepairRequired, ReplanRequired, DecisionRequired, Blocked}
  }

  /** The table allows a move exactly when its target can come from there. */
  lemma AllowedIff(from: Status, to: Status)
    ensures Allowed(from, to) <==> ComesFrom(to, from)
  {
    match from {
      case Proposed =>
      case Planned =>
      case Eligible =>
      case Leased =>
      case Running =>
      case EvidencePending =>
      case Verifying =>
      case Reviewing =>
      case RepairRequired =>
      case ReplanRequired =>
      case DecisionRequired =>
      case Blocked =>
      case Accepted =>
      case Closed =>
      case Cancelled =>
      case Superseded =>
    }
  }

  // ---------------------------------------------------------------- what can be reached

  ghost predicate Walks(from: Status, path: seq<Status>)
    decreases |path|
  {
    path == [] || (Allowed(from, path[0]) && Walks(path[0], path[1..]))
  }

  /** Some moves the table allows lead there. */
  ghost predicate Reaches(from: Status, to: Status) {
    exists path :: path != [] && Walks(from, path) && path[|path| - 1] == to
  }

  lemma {:induction false} WalksOn(from: Status, path: seq<Status>, more: seq<Status>)
    requires Walks(from, path) && path != [] && Walks(path[|path| - 1], more)
    ensures Walks(from, path + more)
    decreases |path|
  {
    hide Allowed;
    if |path| == 1 {
      assert (path + more)[1..] == more;
    } else {
      WalksOn(path[0], path[1..], more);
      assert (path + more)[1..] == path[1..] + more;
    }
  }

  lemma Goes(from: Status, to: Status)
    requires Allowed(from, to)
    ensures Reaches(from, to)
  {
    assert [to][1..] == [] && Walks(from, [to]);
  }

  lemma ReachesOn(from: Status, through: Status, to: Status)
    requires Reaches(from, through) && Reaches(through, to)
    ensures Reaches(from, to)
  {
    hide Allowed, Walks;
    var path :| path != [] && Walks(from, path) && path[|path| - 1] == through;
    var more :| more != [] && Walks(through, more) && more[|more| - 1] == to;
    WalksOn(from, path, more);
    assert (path + more)[|path + more| - 1] == to;
  }

  /** On from a status that is reached. */
  lemma Then(from: Status, through: Status, to: Status)
    requires Reaches(from, through) && Allowed(through, to)
    ensures Reaches(from, to)
  {
    hide Allowed, Reaches;
    Goes(through, to);
    ReachesOn(from, through, to);
  }

  lemma FromPlanned(to: Status)
    requires to != Proposed
    ensures Reaches(Planned, to)
  {
    hide Reaches;
    Goes(Planned, Eligible);
    Goes(Planned, Blocked);
    Then(Planned, Blocked, Planned);
    Then(Planned, Eligible, Leased);
    Then(Planned, Leased, Running);
    Then(Planned, Running, EvidencePending);
    Then(Planned, Running, Verifying);
    Then(Planned, Verifying, Reviewing);
    Then(Planned, Reviewing, Accepted);
    Then(Planned, Accepted, Closed);
    Then(Planned, Running, RepairRequired);
    Then(Planned, Running, ReplanRequired);
    Then(Planned, Running, DecisionRequired);
    Goes(Planned, Cancelled);
    Goes(Planned, Superseded);
  }

  /** Work that is neither accepted nor final can always go back to being planned. */
  lemma BackToPlanned(from: Status)
    requires from != Accepted && from != Closed && from != Cancelled && from != Superseded
    ensures Reaches(from, Planned)
  {
    hide Reaches;
    FromPlanned(Planned);
    Goes(Blocked, Planned);
    if from == Proposed || from == ReplanRequired || from == DecisionRequired {
      Goes(from, Planned);
    } else if from == RepairRequired {
      Goes(RepairRequired, Eligible);
      Then(RepairRequired, Eligible, Blocked);
      Then(RepairRequired, Blocked, Planned);
    } else if from != Planned && from != Blocked {
      Goes(from, Blocked);
      Then(from, Blocked, Planned);
    }
  }

  ghost predicate Final(s: Status) {
    s == Closed || s == Cancelled || s == Superseded
  }

  lemma {:induction false} AcceptedOnlyCloses(path: seq<Status>)
    requires path != [] && Walks(Accepted, path)
    ensures path == [Closed]
  {
    hide Allowed;
    AllowedIff(Accepted, path[0]);
    assert path == [path[0]] + path[1..];
    if |path| > 1 {
      AllowedIff(Closed, path[1]);
    }
  }

  lemma {:induction false} NothingIsProposedAgain(from: Status, path: seq<Status>)
    requires path != [] && Walks(from, path)
    ensures path[|path| - 1] != Proposed
    decreases |path|
  {
    hide Allowed;
    AllowedIff(from, path[0]);
    if |path| > 1 {
      NothingIsProposedAgain(path[0], path[1..]);
    }
  }

  /** From a status that is not final everything can be reached except being proposed, so also closed; accepted work
      can only close; and nothing can be reached from a final status. */
  lemma ReachesIff(from: Status, to: Status)
    ensures Reaches(from, to) <==> to != Proposed && !Final(from) && (from == Accepted ==> to == Closed)
  {
    hide Allowed, Reaches, Walks, ComesFrom;
    if Reaches(from, to) {
      ReachedFacts(from, to);
    }
    if to != Proposed && !Final(from) {
      if from != Accepted {
        BackToPlanned(from);
        FromPlanned(to);
        ReachesOn(from, Planned, to);
      } else if to == Closed {
        AcceptedCloses();
        Goes(Accepted, Closed);
      }
    }
  }

  lemma AcceptedCloses()
    ensures Allowed(Accepted, Closed)
  {
  }

  lemma ReachedFacts(from: Status, to: Status)
    requires Reaches(from, to)
    ensures to != Proposed && !Final(from) && (from == Accepted ==> to == Closed)
  {
    hide Allowed;
    var path :| path != [] && Walks(from, path) && path[|path| - 1] == to;
    NothingIsProposedAgain(from, path);
    AllowedIff(from, path[0]);
    if from == Accepted { AcceptedOnlyCloses(path); }
  }
}
