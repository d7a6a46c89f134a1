/** The OpenKit session lifecycle: construction with a retry budget, the
    one-way "beacon configuration set" latch, the data-sending gate, and
    session end, which force-closes every open root action before notifying
    the beacon and the beacon sender.

    The beacon and the beacon sender are collaborators whose code is not part
    of this model; the calls the session makes on them are recorded as events
    of a trace, in call order. Root actions are abstract: leaving one removes
    exactly its own entry from the open-action map and records a leave event. */
module Sessions {
  import opened Config

  /** The number of new-session requests a session may still send when created. */
  const InitialNewSessionRequests: int := 4

  datatype Action = Action(name: string)

  /** Calls made by the session on its collaborators. */
  datatype Event =
    | SenderStartSession
    | BeaconStartSession
    | BeaconIdentifyUser(tag: string)
    | ActionLeft(key: int)
    | BeaconEndSession
    | SenderFinishSession

  datatype Option<T> = None | Some(value: T)

  /** A session. `beaconConfiguration` is the configuration held by the
      session's own beacon; `trace` is the sequence of collaborator calls. */
  datatype Session = Session(
    id: int,
    endTime: int,
    openRootActions: map<int, Action>,
    sessionFinished: bool,
    beaconConfigurationSet: bool,
    numNewSessionRequestsLeft: int,
    beaconConfiguration: BeaconConfiguration,
    trace: seq<Event>)

  /** `newSession`: draws the session number from the configuration's
      generator, starts with an empty open-action map and a budget of four
      new-session requests, and registers with the beacon sender, then the
      beacon. The beacon's current configuration is a parameter. */
  function NewSession(draw: int, beaconConfiguration: BeaconConfiguration): (s: Session)
    ensures 0 <= s.id < SessionNumberBound
    ensures s.numNewSessionRequestsLeft == 4
    ensures s.openRootActions == map[]
    ensures !s.sessionFinished && !s.beaconConfigurationSet
    ensures s.endTime == 0
    ensures s.beaconConfiguration == beaconConfiguration
    ensures s.trace == [SenderStartSession, BeaconStartSession]
  {
    Session(
      id := CreateSessionNumber(draw),
      endTime := 0,
      openRootActions := map[],
      sessionFinished := false,
      beaconConfigurationSet := false,
      numNewSessionRequestsLeft := InitialNewSessionRequests,
      beaconConfiguration := beaconConfiguration,
      trace := [SenderStartSession, BeaconStartSession])
  }

  /** `finishSession`: sets the finished latch and nothing else. */
  function FinishSession(s: Session): (r: Session)
    ensures IsSessionFinished(r)
    ensures r.(sessionFinished := s.sessionFinished) == s
  {
    s.(sessionFinished := true)
  }

  /** `isBeaconConfigurationSet`: reads the latch. */
  function IsBeaconConfigurationSet(s: Session): (isSet: bool)
    ensures isSet <==> s.beaconConfigurationSet
  {
    s.beaconConfigurationSet
  }

  /** `getBeaconConfiguration`: the configuration the session's beacon holds. */
  function GetBeaconConfiguration(s: Session): (c: BeaconConfiguration)
    ensures c == s.beaconConfiguration
  {
    s.beaconConfiguration
  }

  /** `updateBeaconConfiguration`: stores the configuration by value in the
      beacon and sets the latch. */
  function UpdateBeaconConfiguration(s: Session, beaconConfiguration: BeaconConfiguration): (r: Session)
    ensures GetBeaconConfiguration(r) == beaconConfiguration
    ensures IsBeaconConfigurationSet(r)
    ensures r.(beaconConfiguration := s.beaconConfiguration, beaconConfigurationSet := s.beaconConfigurationSet) == s
  {
    s.(beaconConfiguration := beaconConfiguration, beaconConfigurationSet := true)
  }

  /** `canSendNewSessionRequest`: whether the new-session budget is not exhausted. */
  function CanSendNewSessionRequest(s: Session): (can: bool)
    ensures can <==> s.numNewSessionRequestsLeft > 0
  {
    s.numNewSessionRequestsLeft > 0
  }

  /** `isSessionFinished`: reads the finished latch. */
  function IsSessionFinished(s: Session): (finished: bool)
    ensures finished <==> s.sessionFinished
  {
    s.sessionFinished
  }

  /** `isDataSendingAllowed`: the single gate before transmission. A session
      that has not heard from the server and one told to send nothing are
      both refused. */
  function IsDataSendingAllowed(s: Session): (allowed: bool)
    ensures allowed <==> s.beaconConfigurationSet && s.beaconConfiguration.multiplicity > 0
    ensures !s.beaconConfigurationSet ==> !allowed
  {
    IsBeaconConfigurationSet(s) && s.beaconConfiguration.multiplicity > 0
  }

  /** `IdentifyUser`: forwards the tag to the beacon. */
  function IdentifyUser(s: Session, tag: string): (r: Session)
    ensures r.trace == s.trace + [BeaconIdentifyUser(tag)]
    ensures r.(trace := s.trace) == s
  {
    s.(trace := s.trace + [BeaconIdentifyUser(tag)])
  }

  /** `EnterAction`: a new root action registers itself in the open-action map
      under its own key, which the action code keeps unique. */
  function EnterAction(s: Session, key: int, name: string): (r: Session)
    requires key !in s.openRootActions
    ensures r.openRootActions.Keys == s.openRootActions.Keys + {key}
    ensures |r.openRootActions| == |s.openRootActions| + 1
    ensures r.openRootActions[key] == Action(name)
    ensures r.(openRootActions := s.openRootActions) == s
  {
    s.(openRootActions := s.openRootActions[key := Action(name)])
  }

  /** `LeaveAction` of an open root action: removes exactly its own key and
      records the leave. */
  function LeaveAction(s: Session, key: int): (r: Session)
    requires key in s.openRootActions
    ensures r.openRootActions.Keys == s.openRootActions.Keys - {key}
    ensures |r.openRootActions| == |s.openRootActions| - 1
    ensures forall k :: k in r.openRootActions ==> r.openRootActions[k] == s.openRootActions[k]
    ensures r.trace == s.trace + [ActionLeft(key)]
    ensures r.(openRootActions := s.openRootActions, trace := s.trace) == s
  {
    var remaining := s.openRootActions - {key};
    assert remaining.Keys == s.openRootActions.Keys - {key};
    s.(openRootActions := remaining, trace := s.trace + [ActionLeft(key)])
  }

  /** The leave events of the actions in `order`, in that order. */
  function LeaveEvents(order: seq<int>): (events: seq<Event>)
  {
    seq(|order|, i requires 0 <= i < |order| => ActionLeft(order[i]))
  }

  function Elems(order: seq<int>): set<int>
  {
    set k | k in order
  }

  predicate Distinct(order: seq<int>)
  {
    forall i, j :: 0 <= i < j < |order| ==> order[i] != order[j]
  }

  /** `order` names open actions, none twice. */
  predicate Leavable(keys: set<int>, order: seq<int>)
  {
    && Distinct(order)
    && forall i :: 0 <= i < |order| ==> order[i] in keys
  }

  /** `order` lists every key exactly once. */
  predicate Enumerates(order: seq<int>, keys: set<int>)
  {
    && Leavable(keys, order)
    && forall k :: k in keys ==> k in order
  }

  /** Reference definition of a drain: the actions in `order` leave one after
      another. */
  function LeaveInOrder(s: Session, order: seq<int>): Session
    requires Leavable(s.openRootActions.Keys, order)
    decreases |order|
  {
    if |order| == 0 then s
    else
      var next := LeaveAction(s, order[0]);
      assert Leavable(next.openRootActions.Keys, order[1..]) by {
        forall i | 0 <= i < |order| - 1
          ensures order[1..][i] in next.openRootActions.Keys
        {
          assert order[1..][i] == order[i + 1] != order[0];
        }
      }
      LeaveInOrder(next, order[1..])
  }

  /** The state reached from `s` once the actions of `order` have left. */
  function AfterLeaving(s: Session, order: seq<int>): Session
  {
    s.(openRootActions := s.openRootActions - Elems(order), trace := s.trace + LeaveEvents(order))
  }

  lemma ElemsAppend(order: seq<int>, key: int)
    ensures Elems(order + [key]) == Elems(order) + {key}
  {
  }

  lemma ElemsCons(order: seq<int>)
    requires |order| > 0
    ensures Elems(order) == {order[0]} + Elems(order[1..])
  {
    assert order == [order[0]] + order[1..];
  }

  lemma MapMinusTwice(m: map<int, Action>, a: set<int>, b: set<int>)
    ensures (m - a) - b == m - (a + b)
  {
  }

  lemma LeaveEventsAppend(order: seq<int>, key: int)
    ensures LeaveEvents(order + [key]) == LeaveEvents(order) + [ActionLeft(key)]
  {
  }

  lemma LeaveEventsCons(order: seq<int>)
    requires |order| > 0
    ensures LeaveEvents(order) == [ActionLeft(order[0])] + LeaveEvents(order[1..])
  {
  }

  lemma AfterLeavingOne(s: Session, order: seq<int>, key: int)
    requires key in AfterLeaving(s, order).openRootActions
    ensures LeaveAction(AfterLeaving(s, order), key) == AfterLeaving(s, order + [key])
  {
    ElemsAppend(order, key);
    MapMinusTwice(s.openRootActions, Elems(order), {key});
    LeaveEventsAppend(order, key);
  }

  lemma AfterLeavingFirst(s: Session, order: seq<int>)
    requires |order| > 0 && order[0] in s.openRootActions
    ensures AfterLeaving(LeaveAction(s, order[0]), order[1..]) == AfterLeaving(s, order)
  {
    ElemsCons(order);
    MapMinusTwice(s.openRootActions, {order[0]}, Elems(order[1..]));
    LeaveEventsCons(order);
  }

  /** Leaving the actions of `order` removes exactly their keys from the
      open-action map and appends exactly their leave events to the trace. */
  lemma {:induction false} LeaveInOrderEffect(s: Session, order: seq<int>)
    requires Leavable(s.openRootActions.Keys, order)
    ensures LeaveInOrder(s, order) == AfterLeaving(s, order)
    decreases |order|
  {
    if |order| > 0 {
      var next := LeaveAction(s, order[0]);
      assert LeaveInOrder(s, order) == LeaveInOrder(next, order[1..]);
      LeaveInOrderEffect(next, order[1..]);
      AfterLeavingFirst(s, order);
    } else {
      assert Elems(order) == {};
      assert s.openRootActions - Elems(order) == s.openRootActions;
      assert LeaveEvents(order) == [];
    }
  }

  /** Each key of a duplicate-free order is left exactly once; no other key is left. */
  lemma {:induction false} LeaveEventsCountOnce(order: seq<int>, key: int)
    requires Distinct(order)
    ensures multiset(LeaveEvents(order))[ActionLeft(key)] == if key in order then 1 else 0
    decreases |order|
  {
    if |order| > 0 {
      var rest := order[1..];
      assert order == [order[0]] + rest;
      assert LeaveEvents(order) == [ActionLeft(order[0])] + LeaveEvents(rest);
      LeaveEventsCountOnce(rest, key);
      assert key in order <==> key == order[0] || key in rest;
      assert key == order[0] ==> key !in rest;
    }
  }

  /** Set extensionality, stated so that a member can be picked from a
      non-empty set. */
  lemma EmptyOrHasMember(xs: set<int>)
    ensures xs == {} || exists x :: x in xs
  {
    if forall x :: x !in xs {
      assert xs == {};
    }
  }

  lemma LeavableAppend(keys: set<int>, order: seq<int>, key: int)
    requires Leavable(keys, order)
    requires key in keys && key !in Elems(order)
    ensures Leavable(keys, order + [key])
  {
  }

  /** An order after which no action is left open enumerates the open actions. */
  lemma DrainedEnumerates(s: Session, order: seq<int>)
    requires Leavable(s.openRootActions.Keys, order)
    requires AfterLeaving(s, order).openRootActions == map[]
    ensures Enumerates(order, s.openRootActions.Keys)
  {
    forall k | k in s.openRootActions.Keys
      ensures k in order
    {
      assert k !in s.openRootActions - Elems(order);
      assert k in Elems(order);
    }
  }

  /** The drain loop of `End`/`EndAt`: while the open-action map is not
      empty, one pass over its keys makes every action leave. Go's map
      iteration order is unspecified, so each pass picks keys in an arbitrary
      order; the order in which the actions left is returned. */
  method DrainOpenActions(s: Session) returns (r: Session, order: seq<int>)
    ensures Enumerates(order, s.openRootActions.Keys)
    ensures r == LeaveInOrder(s, order)
    ensures r.openRootActions == map[]
  {
    r := s;
    order := [];
    while |r.openRootActions| != 0
      invariant Leavable(s.openRootActions.Keys, order)
      invariant r == AfterLeaving(s, order)
      decreases |r.openRootActions|
    {
      ghost var before := |r.openRootActions|;
      ghost var steps := 0;
      var pending := r.openRootActions.Keys;
      while pending != {}
        invariant pending <= r.openRootActions.Keys
        invariant Leavable(s.openRootActions.Keys, order)
        invariant r == AfterLeaving(s, order)
        invariant |r.openRootActions| + steps == before
        invariant steps > 0 || pending != {}
        decreases pending
      {
        EmptyOrHasMember(pending);
        var key: int :| key in pending;
        LeavableAppend(s.openRootActions.Keys, order, key);
        AfterLeavingOne(s, order, key);
        r := LeaveAction(r, key);
        order := order + [key];
        pending := pending - {key};
        steps := steps + 1;
      }
    }
    DrainedEnumerates(s, order);
    LeaveInOrderEffect(s, order);
  }

  /** Reference definition of `EndAt`: record the end time, let the actions
      of `order` leave, then notify the beacon and the beacon sender. */
  function EndAtSpec(s: Session, endTime: int, order: seq<int>): Session
    requires Leavable(s.openRootActions.Keys, order)
  {
    var drained := LeaveInOrder(s.(endTime := endTime), order);
    drained.(trace := drained.trace + [BeaconEndSession, SenderFinishSession])
  }

  /** Ending with an enumeration of the open actions empties the map, sets the
      end time, makes every open action leave once, then calls the beacon's
      `endSession` and the sender's `finishSession`. The session's own code
      writes nothing else; in particular it does not write the finished
      latch. What the sender's `finishSession` does with the session it is
      handed lies outside this model. */
  lemma EndAtSpecEffect(s: Session, endTime: int, order: seq<int>)
    requires Enumerates(order, s.openRootActions.Keys)
    ensures EndAtSpec(s, endTime, order)
            == s.(openRootActions := map[],
                  endTime := endTime,
                  trace := s.trace + LeaveEvents(order) + [BeaconEndSession, SenderFinishSession])
  {
    LeaveInOrderEffect(s.(endTime := endTime), order);
    assert forall k :: k in s.openRootActions ==> k in Elems(order);
    assert (s.openRootActions - Elems(order)).Keys == {};
  }

  /** `EndAt`. The finished latch is left as the session's own code leaves
      it: unwritten. */
  method EndAt(s: Session, endTime: int) returns (r: Session, order: seq<int>)
    ensures Enumerates(order, s.openRootActions.Keys)
    ensures r == EndAtSpec(s, endTime, order)
    ensures r.openRootActions == map[]
    ensures r.endTime == endTime
    ensures r.trace == s.trace + LeaveEvents(order) + [BeaconEndSession, SenderFinishSession]
    ensures r.sessionFinished == s.sessionFinished
    ensures r.(openRootActions := s.openRootActions, endTime := s.endTime, trace := s.trace) == s
  {
    var started := s.(endTime := endTime);
    var drained;
    drained, order := DrainOpenActions(started);
    r := drained.(trace := drained.trace + [BeaconEndSession, SenderFinishSession]);
    EndAtSpecEffect(s, endTime, order);
  }

  /** `End`: as `EndAt`, with the end time read from the beacon's clock. */
  method End(s: Session, beaconTimestamp: int) returns (r: Session, order: seq<int>)
    ensures Enumerates(order, s.openRootActions.Keys)
    ensures r == EndAtSpec(s, beaconTimestamp, order)
    ensures r.openRootActions == map[]
    ensures r.endTime == beaconTimestamp
    ensures r.trace == s.trace + LeaveEvents(order) + [BeaconEndSession, SenderFinishSession]
    ensures r.sessionFinished == s.sessionFinished
  {
    r, order := EndAt(s, beaconTimestamp);
  }

  /** Every action open when a session ends leaves exactly once, and no other
      action leaves. */
  lemma EndLeavesEachOpenActionOnce(s: Session, endTime: int, order: seq<int>, key: int)
    requires Enumerates(order, s.openRootActions.Keys)
    ensures multiset(EndAtSpec(s, endTime, order).trace)[ActionLeft(key)]
            == multiset(s.trace)[ActionLeft(key)] + if key in s.openRootActions then 1 else 0
  {
    EndAtSpecEffect(s, endTime, order);
    LeaveEventsCountOnce(order, key);
  }

  /** The source does not guard against a second end: ending an ended session
      notifies the beacon and the beacon sender again. */
  lemma EndTwiceNotifiesTwice(s: Session, t1: int, t2: int, order: seq<int>)
    requires Enumerates(order, s.openRootActions.Keys)
    ensures var once := EndAtSpec(s, t1, order);
            && Enumerates([], once.openRootActions.Keys)
            && EndAtSpec(once, t2, []).trace
               == s.trace + LeaveEvents(order)
                  + [BeaconEndSession, SenderFinishSession, BeaconEndSession, SenderFinishSession]
  {
    EndAtSpecEffect(s, t1, order);
    var once := EndAtSpec(s, t1, order);
    EndAtSpecEffect(once, t2, []);
    assert LeaveEvents([]) == [];
  }

  /** A new session may request a new session but may not send data yet. */
  lemma NewSessionGates(draw: int, beaconConfiguration: BeaconConfiguration)
    ensures CanSendNewSessionRequest(NewSession(draw, beaconConfiguration))
    ensures !IsDataSendingAllowed(NewSession(draw, beaconConfiguration))
    ensures !IsSessionFinished(NewSession(draw, beaconConfiguration))
  {
  }

  /** The data-sending gate after a configuration update depends only on the
      new multiplicity; sending is never allowed without the latch. */
  lemma DataSendingGate(s: Session, beaconConfiguration: BeaconConfiguration)
    ensures IsDataSendingAllowed(UpdateBeaconConfiguration(s, beaconConfiguration))
            <==> beaconConfiguration.multiplicity > 0
    ensures !IsBeaconConfigurationSet(s) ==> !IsDataSendingAllowed(s)
  {
  }

  /** The operations of a session, with the choices the environment makes:
      the key a new action gets and the order the end drain leaves actions in. */
  datatype Op =
    | Finish
    | UpdateConfiguration(beaconConfiguration: BeaconConfiguration)
    | Enter(key: int, name: string)
    | Leave(key: int)
    | Identify(tag: string)
    | EndSession(endTime: int, order: seq<int>)

  /** One operation; None when the environment's choice is not admissible
      (a key already in use, an action that is not open, an order that does
      not enumerate the open actions). */
  function Step(s: Session, op: Op): Option<Session>
  {
    match op
    case Finish => Some(FinishSession(s))
    case UpdateConfiguration(c) => Some(UpdateBeaconConfiguration(s, c))
    case Enter(key, name) => if key in s.openRootActions then None else Some(EnterAction(s, key, name))
    case Leave(key) => if key in s.openRootActions then Some(LeaveAction(s, key)) else None
    case Identify(tag) => Some(IdentifyUser(s, tag))
    case EndSession(t, order) =>
      if Enumerates(order, s.openRootActions.Keys) then Some(EndAtSpec(s, t, order)) else None
  }

  function Run(s: Session, ops: seq<Op>): Option<Session>
    decreases |ops|
  {
    if |ops| == 0 then Some(s)
    else match Step(s, ops[0])
      case None => None
      case Some(next) => Run(next, ops[1..])
  }

  /** Monotonicity of a single step. */
  predicate Follows(s: Session, r: Session)
  {
    && (s.beaconConfigurationSet ==> r.beaconConfigurationSet)
    && (s.sessionFinished ==> r.sessionFinished)
    && r.numNewSessionRequestsLeft == s.numNewSessionRequestsLeft
    && r.id == s.id
    && |s.trace| <= |r.trace| && r.trace[..|s.trace|] == s.trace
  }

  lemma StepFollows(s: Session, op: Op)
    requires Step(s, op).Some?
    ensures Follows(s, Step(s, op).value)
  {
    if op.EndSession? {
      EndAtSpecEffect(s, op.endTime, op.order);
    }
  }

  /** Along any run of session operations the two latches are never reset,
      the new-session budget is not touched (it is decremented elsewhere),
      the identity is kept and the trace only grows. */
  lemma {:induction false} RunFollows(s: Session, ops: seq<Op>)
    requires Run(s, ops).Some?
    ensures Follows(s, Run(s, ops).value)
    decreases |ops|
  {
    if |ops| > 0 {
      var next := Step(s, ops[0]).value;
      StepFollows(s, ops[0]);
      RunFollows(next, ops[1..]);
      var r := Run(next, ops[1..]).value;
      assert r.trace[..|s.trace|] == r.trace[..|next.trace|][..|s.trace|];
    }
  }

  /** The new-session request budget is only consumed outside the session:
      whatever a new session goes through, it may still request a new session. */
  lemma RunKeepsNewSessionRequestBudget(draw: int, beaconConfiguration: BeaconConfiguration, ops: seq<Op>)
    requires Run(NewSession(draw, beaconConfiguration), ops).Some?
    ensures CanSendNewSessionRequest(Run(NewSession(draw, beaconConfiguration), ops).value)
    ensures Run(NewSession(draw, beaconConfiguration), ops).value.numNewSessionRequestsLeft == 4
  {
    RunFollows(NewSession(draw, beaconConfiguration), ops);
  }
}
