// The two automatic SLAM agents of slamAgents.py: each drops STOP from the
// legal actions, picks a move and remembers it as `prevAction`.
module SlamAgents {
  import opened Types

  /** The Python exceptions `chooseAction` can raise: `list.remove` of a
      missing STOP, `random.choice` of an empty list, and a `REVERSE` lookup
      of an action with no reverse. */
  datatype AgentError = ValueError | IndexError | KeyError

  /** The position of the first occurrence of `x` in `xs`. */
  function IndexOf(xs: seq<Direction>, x: Direction): (i: nat)
    requires x in xs
    ensures i < |xs| && xs[i] == x && x !in xs[..i]
  {
    if xs[0] == x then 0
    else
      var i := 1 + IndexOf(xs[1..], x);
      assert xs[..i] == [xs[0]] + xs[1..][..i - 1];
      i
  }

  /** `list.remove(x)`: drop the first occurrence of `x`, or fail when there
      is none. */
  function RemoveFirst(xs: seq<Direction>, x: Direction): (r: Result<seq<Direction>, AgentError>)
    ensures r.Err? <==> x !in xs
    ensures r.Err? ==> r.error == ValueError
    ensures r.Ok? ==> |r.value| == |xs| - 1 && multiset(r.value) == multiset(xs) - multiset{x}
    ensures r.Ok? ==> x in xs && r.value == xs[..IndexOf(xs, x)] + xs[IndexOf(xs, x) + 1..]
  {
    if x in xs then
      var i := IndexOf(xs, x);
      assert xs == xs[..i] + [x] + xs[i + 1..];
      Ok(xs[..i] + xs[i + 1..])
    else Err(ValueError)
  }

  /** `Directions.REVERSE[prevAction]`, when `prevAction` has an entry. */
  function ReverseOf(prevAction: Option<Direction>, reverse: map<Direction, Direction>): Option<Direction>
  {
    if prevAction.Some? && prevAction.value in reverse then Some(reverse[prevAction.value]) else None
  }

  /** The loop test of the patrol rule: `prevAction` has no reverse, or `a`
      is not it. */
  predicate NotReversing(a: Direction, rev: Option<Direction>)
  {
    rev.None? || a != rev.value
  }

  /** The index of the first action that does not reverse, if any. */
  function FirstForward(legal: seq<Direction>, rev: Option<Direction>): (k: Option<nat>)
    ensures k.None? <==> forall i :: 0 <= i < |legal| ==> !NotReversing(legal[i], rev)
    ensures k.Some? ==> k.value < |legal| && NotReversing(legal[k.value], rev) &&
                        forall j :: 0 <= j < k.value ==> !NotReversing(legal[j], rev)
  {
    if |legal| == 0 then None
    else if NotReversing(legal[0], rev) then Some(0)
    else match FirstForward(legal[1..], rev)
      case None => None
      case Some(k) => Some(k + 1)
  }

  /** The first non-reversing action is found at the index where the scan
      stops. */
  lemma FirstForwardAt(legal: seq<Direction>, rev: Option<Direction>, i: int)
    requires 0 <= i < |legal| && NotReversing(legal[i], rev)
    requires forall j :: 0 <= j < i ==> !NotReversing(legal[j], rev)
    ensures FirstForward(legal, rev) == Some(i)
  {
  }

  /** The decision of PatrolSLAMAgent.chooseAction: keep going the same way
      when that is legal, else take the first move that does not turn back,
      else turn back. */
  function PatrolChoice(prevAction: Option<Direction>, legalPacmanActions: seq<Direction>,
                        reverse: map<Direction, Direction>): Result<Direction, AgentError>
  {
    match RemoveFirst(legalPacmanActions, Stop)
    case Err(e) => Err(e)
    case Ok(legal) =>
      if prevAction.Some? && prevAction.value in legal then Ok(prevAction.value)
      else match FirstForward(legal, ReverseOf(prevAction, reverse))
        case Some(k) => Ok(legal[k])
        case None =>
          match ReverseOf(prevAction, reverse)
          case Some(r) => Ok(r)
          case None => Err(KeyError)
  }

  /** Removing one STOP from a list that holds it once leaves a list without
      STOP, holding every other action of the original. */
  lemma RemoveSingleStop(actions: seq<Direction>)
    requires multiset(actions)[Stop] == 1
    ensures RemoveFirst(actions, Stop).Ok?
    ensures var legal := RemoveFirst(actions, Stop).value;
            Stop !in legal && forall a :: a != Stop ==> (a in legal <==> a in actions)
  {
    var legal := RemoveFirst(actions, Stop).value;
    assert multiset(legal) == multiset(actions) - multiset{Stop};
    forall a
      ensures a in legal <==> (a in actions && a != Stop) || (a == Stop && multiset(legal)[Stop] > 0)
    {
      assert a in legal <==> multiset(legal)[a] > 0;
      assert a in actions <==> multiset(actions)[a] > 0;
    }
  }

  /** Going straight wins: a previous move that is still legal is repeated. */
  lemma PatrolKeepsHeading(prevAction: Option<Direction>, actions: seq<Direction>, reverse: map<Direction, Direction>)
    requires multiset(actions)[Stop] == 1
    requires prevAction.Some? && prevAction.value != Stop && prevAction.value in actions
    ensures PatrolChoice(prevAction, actions, reverse) == Ok(prevAction.value)
  {
    RemoveSingleStop(actions);
  }

  /** Otherwise the first legal move (in list order) that does not reverse
      the previous move is taken; with no reversible previous move this is
      simply the first legal move. */
  lemma PatrolTakesFirstForward(prevAction: Option<Direction>, actions: seq<Direction>,
                                reverse: map<Direction, Direction>, i: int)
    requires multiset(actions)[Stop] == 1
    requires prevAction.None? || prevAction.value !in RemoveFirst(actions, Stop).value
    requires var legal := RemoveFirst(actions, Stop).value;
             0 <= i < |legal| && NotReversing(legal[i], ReverseOf(prevAction, reverse)) &&
             forall j :: 0 <= j < i ==> !NotReversing(legal[j], ReverseOf(prevAction, reverse))
    ensures PatrolChoice(prevAction, actions, reverse) == Ok(RemoveFirst(actions, Stop).value[i])
  {
    RemoveSingleStop(actions);
    var legal := RemoveFirst(actions, Stop).value;
    var k := FirstForward(legal, ReverseOf(prevAction, reverse));
    assert k.Some?;
  }

  /** Turning back happens only at a dead end: when the chosen move is the
      reverse of a different previous move, every legal move is that reverse. */
  lemma PatrolReversesOnlyAtDeadEnd(prevAction: Option<Direction>, actions: seq<Direction>,
                                    reverse: map<Direction, Direction>)
    requires PatrolChoice(prevAction, actions, reverse).Ok?
    requires ReverseOf(prevAction, reverse) == Some(PatrolChoice(prevAction, actions, reverse).value)
    requires prevAction != ReverseOf(prevAction, reverse)
    ensures RemoveFirst(actions, Stop).Ok?
    ensures forall a :: a in RemoveFirst(actions, Stop).value ==> a == ReverseOf(prevAction, reverse).value
  {
    var legal := RemoveFirst(actions, Stop).value;
    var rev := ReverseOf(prevAction, reverse);
    forall a | a in legal
      ensures a == rev.value
    {
      var i :| 0 <= i < |legal| && legal[i] == a;
      assert !NotReversing(legal[i], rev);
    }
  }

  /** With STOP listed once and some other legal move, the patrol rule never
      fails, never stops, and picks a legal move. */
  lemma PatrolPicksLegalMove(prevAction: Option<Direction>, actions: seq<Direction>, reverse: map<Direction, Direction>)
    requires multiset(actions)[Stop] == 1
    requires exists a :: a in actions && a != Stop
    ensures var r := PatrolChoice(prevAction, actions, reverse);
            r.Ok? && r.value in actions && r.value != Stop
  {
    RemoveSingleStop(actions);
    var legal := RemoveFirst(actions, Stop).value;
    var rev := ReverseOf(prevAction, reverse);
    var a :| a in actions && a != Stop;
    assert a in legal;
    if !(prevAction.Some? && prevAction.value in legal) && FirstForward(legal, rev).None? {
      var i :| 0 <= i < |legal| && legal[i] == a;
      assert !NotReversing(legal[i], rev);
    }
  }

  /** The errors of the patrol rule: no STOP in the list (ValueError), or
      no legal move at all while the previous move has no reverse (KeyError). */
  lemma PatrolErrors(prevAction: Option<Direction>, actions: seq<Direction>, reverse: map<Direction, Direction>)
    ensures PatrolChoice(prevAction, actions, reverse) == Err(ValueError) <==> Stop !in actions
    ensures PatrolChoice(prevAction, actions, reverse) == Err(KeyError) <==>
              Stop in actions && |RemoveFirst(actions, Stop).value| == 0 && ReverseOf(prevAction, reverse).None?
  {
    if Stop in actions {
      var legal := RemoveFirst(actions, Stop).value;
      var rev := ReverseOf(prevAction, reverse);
      var k := FirstForward(legal, rev);
      if |legal| > 0 && rev.None? {
        assert NotReversing(legal[0], rev);
      }
    }
  }

  /** PatrolSLAMAgent: remembers its last move and prefers not to turn back. */
  class PatrolSLAMAgent {
    var prevAction: Option<Direction>

    constructor ()
      ensures prevAction == None
    {
      prevAction := None;
    }

    /** chooseAction, with the legal actions and `Directions.REVERSE` given.
        A raised exception leaves `prevAction` as it was. */
    method ChooseAction(legalPacmanActions: seq<Direction>, reverse: map<Direction, Direction>)
      returns (r: Result<Direction, AgentError>)
      modifies this
      ensures r == PatrolChoice(old(prevAction), legalPacmanActions, reverse)
      ensures prevAction == if r.Ok? then Some(r.value) else old(prevAction)
    {
      var removed := RemoveFirst(legalPacmanActions, Stop);
      if removed.Err? {
        return Err(ValueError);
      }
      var legal := removed.value;
      var prev := prevAction;
      if prev.Some? && prev.value in legal {
        return Ok(prev.value);
      }
      ghost var rev := ReverseOf(prev, reverse);
      for i := 0 to |legal|
        invariant prevAction == prev
        invariant forall j :: 0 <= j < i ==> !NotReversing(legal[j], rev)
      {
        var a := legal[i];
        if prev.None? || prev.value !in reverse || a != reverse[prev.value] {
          FirstForwardAt(legal, rev, i);
          prevAction := Some(a);
          return Ok(a);
        }
      }
      if prev.None? || prev.value !in reverse {
        return Err(KeyError);
      }
      prevAction := Some(reverse[prev.value]);
      return Ok(reverse[prev.value]);
    }
  }

  /** AutoSLAMAgent: moves at random among the legal non-STOP actions. */
  class AutoSLAMAgent {
    var prevAction: Option<Direction>

    constructor ()
      ensures prevAction == None
    {
      prevAction := None;
    }

    /** chooseAction, with `random.choice` as an arbitrary pick from the list. */
    method ChooseAction(legalPacmanActions: seq<Direction>)
      returns (r: Result<Direction, AgentError>)
      modifies this
      ensures Stop !in legalPacmanActions ==> r == Err(ValueError)
      ensures Stop in legalPacmanActions ==>
                var legal := RemoveFirst(legalPacmanActions, Stop).value;
                (|legal| == 0 ==> r == Err(IndexError)) && (|legal| > 0 ==> r.Ok? && r.value in legal)
      ensures prevAction == if r.Ok? then Some(r.value) else old(prevAction)
    {
      var removed := RemoveFirst(legalPacmanActions, Stop);
      if removed.Err? {
        return Err(ValueError);
      }
      var legal := removed.value;
      if |legal| == 0 {
        return Err(IndexError);
      }
      assert legal[0] in legal;
      var action :| action in legal;
      prevAction := Some(action);
      return Ok(action);
    }
  }
}
