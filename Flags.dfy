/** The flag store of the game: each client keeps its own flags ("local") and a
    mirror of the other client's flags ("remote"). A local change is announced
    once and sent once to the other client, which records it in its mirror.
    Photon's RPC transport is modelled by the `sent` outbox of a manager and, for
    the two-client properties, by explicit in-order message queues. */
module Flags {

  /** The closed set of flags; `None` (ordinal 0) is the "no flag" sentinel. */
  datatype FlagType = None | TestFlagA | TestFlagB

  /** The enum-to-int cast used on the wire. */
  function FlagId(f: FlagType): (id: int)
    ensures IsFlagId(id)
    ensures f == None <==> id == 0
  {
    match f
    case None => 0
    case TestFlagA => 1
    case TestFlagB => 2
  }

  /** The ordinals that name a declared flag. */
  predicate IsFlagId(id: int) {
    0 <= id < 3
  }

  /** The int-to-enum cast applied by the receiver. */
  function FlagOf(id: int): (f: FlagType)
    requires IsFlagId(id)
    ensures FlagId(f) == id
  {
    if id == 0 then None else if id == 1 then TestFlagA else TestFlagB
  }

  /** Casting a flag to its ordinal and back yields the same flag. */
  lemma FlagIdRoundTrip(f: FlagType)
    ensures FlagOf(FlagId(f)) == f
  {
  }

  type FlagMap = map<FlagType, bool>

  /** One invocation of `OnFlagChanged(flag, newValue, isLocal)`. */
  datatype FlagChange = FlagChange(flag: FlagType, value: bool, isLocal: bool)

  /** One `RPC_UpdateRemoteFlag(flagId, value)` sent to the other players. */
  datatype FlagMessage = UpdateRemoteFlag(flagId: int, value: bool)

  /** A dictionary read that defaults to false for a flag never written. */
  function Lookup(m: FlagMap, f: FlagType): (r: bool)
    ensures f !in m ==> !r
    ensures r ==> f in m && m[f]
  {
    if f in m then m[f] else false
  }

  /** The guard of both writers: it holds exactly when writing v would
      change the map. */
  predicate Differs(m: FlagMap, f: FlagType, v: bool)
    ensures Differs(m, f, v) <==> m[f := v] != m
  {
    f !in m || m[f] != v
  }

  /** The guarded write. The guard only suppresses notifications: the
      resulting map is always that of an unconditional write. */
  function Store(m: FlagMap, f: FlagType, v: bool): (r: FlagMap)
    ensures r == m[f := v]
    ensures Lookup(r, f) == v
    ensures forall g :: g != f ==> Lookup(r, g) == Lookup(m, g)
  {
    if Differs(m, f, v) then m[f := v] else m
  }

  /** What `SetFlag` does to the local map, the events and the outbox. */
  datatype SetOutcome = SetOutcome(local: FlagMap, events: seq<FlagChange>, sent: seq<FlagMessage>)

  function SetFlagOutcome(local: FlagMap, f: FlagType, v: bool): (o: SetOutcome)
    ensures f == None ==> o == SetOutcome(local, [], [])
    ensures f != None ==> o.local == local[f := v]
    ensures |o.events| == |o.sent| <= 1
    ensures |o.sent| == 1 <==> f != None && (f !in local || local[f] != v)
    ensures o.sent != [] ==> o.sent[0] == UpdateRemoteFlag(FlagId(f), v) && o.events[0] == FlagChange(f, v, true)
  {
    if f == None then SetOutcome(local, [], [])
    else if Differs(local, f, v) then
      SetOutcome(Store(local, f, v), [FlagChange(f, v, true)], [UpdateRemoteFlag(FlagId(f), v)])
    else SetOutcome(local, [], [])
  }

  /** What `RPC_UpdateRemoteFlag` does to the remote map and the events. */
  datatype ReceiveOutcome = ReceiveOutcome(remote: FlagMap, events: seq<FlagChange>)

  function ReceiveOutcomeOf(remote: FlagMap, flagId: int, v: bool): (o: ReceiveOutcome)
    requires IsFlagId(flagId)
    ensures o.remote == remote[FlagOf(flagId) := v]
    ensures |o.events| <= 1
    ensures |o.events| == 1 <==> Differs(remote, FlagOf(flagId), v)
    ensures o.events != [] ==> o.events[0] == FlagChange(FlagOf(flagId), v, false)
  {
    var f := FlagOf(flagId);
    if Differs(remote, f, v) then ReceiveOutcome(Store(remote, f, v), [FlagChange(f, v, false)])
    else ReceiveOutcome(remote, [])
  }

  /** The flag manager of one client. */
  class FlagManager {
    var localFlags: FlagMap
    var remoteFlags: FlagMap
    /** Every `OnFlagChanged` invocation so far, oldest first. */
    var changes: seq<FlagChange>
    /** Every RPC sent to `RpcTarget.Others` so far, oldest first. */
    var sent: seq<FlagMessage>

    constructor ()
      ensures localFlags == map[] && remoteFlags == map[]
      ensures changes == [] && sent == []
    {
      localFlags, remoteFlags := map[], map[];
      changes, sent := [], [];
    }

    method SetFlag(flag: FlagType, value: bool)
      modifies this
      ensures var o := SetFlagOutcome(old(localFlags), flag, value);
        && localFlags == o.local
        && changes == old(changes) + o.events
        && sent == old(sent) + o.sent
      ensures remoteFlags == old(remoteFlags)
    {
      if flag == None {
        return;
      }
      if flag !in localFlags || localFlags[flag] != value {
        localFlags := localFlags[flag := value];
        changes := changes + [FlagChange(flag, value, true)];
        sent := sent + [UpdateRemoteFlag(FlagId(flag), value)];
      }
    }

    function GetLocalFlag(flag: FlagType): (r: bool)
      reads this
      ensures r == Lookup(localFlags, flag)
    {
      if flag in localFlags then localFlags[flag] else false
    }

    function GetRemoteFlag(flag: FlagType): (r: bool)
      reads this
      ensures r == Lookup(remoteFlags, flag)
    {
      if flag in remoteFlags then remoteFlags[flag] else false
    }

    /** Only ever invoked by the other client's `SetFlag`, which sends declared ordinals. */
    method RpcUpdateRemoteFlag(flagId: int, value: bool)
      requires IsFlagId(flagId)
      modifies this
      ensures var o := ReceiveOutcomeOf(old(remoteFlags), flagId, value);
        && remoteFlags == o.remote
        && changes == old(changes) + o.events
      ensures localFlags == old(localFlags) && sent == old(sent)
    {
      var flag := FlagOf(flagId);
      if flag !in remoteFlags || remoteFlags[flag] != value {
        remoteFlags := remoteFlags[flag := value];
        changes := changes + [FlagChange(flag, value, false)];
      }
    }
  }

  // ----- Single-call properties -----

  /** After `SetFlag(f, v)` with a real flag, `f` reads as v and every other
      flag reads as before; `SetFlag(None, v)` leaves every read as it was. */
  lemma SetFlagThenRead(local: FlagMap, f: FlagType, v: bool)
    ensures var o := SetFlagOutcome(local, f, v);
      && (f != None ==> Lookup(o.local, f) == v)
      && (forall g :: g != f ==> Lookup(o.local, g) == Lookup(local, g))
      && (f == None ==> forall g :: Lookup(o.local, g) == Lookup(local, g))
  {
  }

  /** Calling `SetFlag` twice with the same arguments: the second call changes
      nothing, fires no event and sends nothing. */
  lemma SetFlagTwiceIsNoOp(local: FlagMap, f: FlagType, v: bool)
    ensures var once := SetFlagOutcome(local, f, v);
      SetFlagOutcome(once.local, f, v) == SetOutcome(once.local, [], [])
  {
  }

  /** Writing false to a flag that was never written is a change: one event
      and one message. */
  lemma FirstFalseWriteIsAChange(local: FlagMap, f: FlagType)
    requires f != None && f !in local
    ensures |SetFlagOutcome(local, f, false).sent| == 1
    ensures SetFlagOutcome(local, f, false).local[f] == false
  {
  }

  /** Delivering the same update twice leaves the mirror of one delivery and
      fires one remote event in all. */
  lemma DuplicateDeliveryIsAbsorbed(remote: FlagMap, flagId: int, v: bool)
    requires IsFlagId(flagId)
    ensures var once := ReceiveOutcomeOf(remote, flagId, v);
      ReceiveOutcomeOf(once.remote, flagId, v) == ReceiveOutcome(once.remote, [])
  {
  }

  // ----- Two clients exchanging flags in order -----

  predicate ValidIds(msgs: seq<FlagMessage>) {
    forall i :: 0 <= i < |msgs| ==> IsFlagId(msgs[i].flagId)
  }

  /** The mirror obtained by delivering `msgs` in order. */
  function Deliver(remote: FlagMap, msgs: seq<FlagMessage>): FlagMap
    requires ValidIds(msgs)
    decreases |msgs|
  {
    if msgs == [] then remote
    else Deliver(ReceiveOutcomeOf(remote, msgs[0].flagId, msgs[0].value).remote, msgs[1..])
  }

  lemma {:induction false} DeliverAppend(remote: FlagMap, xs: seq<FlagMessage>, ys: seq<FlagMessage>)
    requires ValidIds(xs) && ValidIds(ys)
    ensures ValidIds(xs + ys)
    ensures Deliver(remote, xs + ys) == Deliver(Deliver(remote, xs), ys)
    decreases |xs|
  {
    if xs == [] {
      assert xs + ys == ys;
    } else {
      var r := ReceiveOutcomeOf(remote, xs[0].flagId, xs[0].value).remote;
      assert (xs + ys)[0] == xs[0] && (xs + ys)[1..] == xs[1..] + ys;
      DeliverAppend(r, xs[1..], ys);
    }
  }

  /** One client: its two maps. */
  datatype Peer = Peer(local: FlagMap, remote: FlagMap)

  /** Two clients and the messages in flight towards each of them. */
  datatype Session = Session(a: Peer, b: Peer, toA: seq<FlagMessage>, toB: seq<FlagMessage>)

  datatype Step =
    | SetOnA(flag: FlagType, value: bool)
    | SetOnB(flag: FlagType, value: bool)
    | DeliverToA
    | DeliverToB

  const InitialSession := Session(Peer(map[], map[]), Peer(map[], map[]), [], [])

  predicate WellFormed(s: Session) {
    ValidIds(s.toA) && ValidIds(s.toB)
  }

  /** A `SetFlag` on one client queues its messages for the other client only;
      a delivery applies the oldest queued message. */
  function Next(s: Session, step: Step): (t: Session)
    requires WellFormed(s)
    ensures WellFormed(t)
  {
    match step
    case SetOnA(f, v) =>
      var o := SetFlagOutcome(s.a.local, f, v);
      s.(a := s.a.(local := o.local), toB := s.toB + o.sent)
    case SetOnB(f, v) =>
      var o := SetFlagOutcome(s.b.local, f, v);
      s.(b := s.b.(local := o.local), toA := s.toA + o.sent)
    case DeliverToA =>
      if s.toA == [] then s
      else s.(a := s.a.(remote := ReceiveOutcomeOf(s.a.remote, s.toA[0].flagId, s.toA[0].value).remote), toA := s.toA[1..])
    case DeliverToB =>
      if s.toB == [] then s
      else s.(b := s.b.(remote := ReceiveOutcomeOf(s.b.remote, s.toB[0].flagId, s.toB[0].value).remote), toB := s.toB[1..])
  }

  function Run(s: Session, steps: seq<Step>): (t: Session)
    requires WellFormed(s)
    ensures WellFormed(t)
    decreases |steps|
  {
    if steps == [] then s else Run(Next(s, steps[0]), steps[1..])
  }

  /** Each mirror, once its queue is drained, equals the other client's local map. */
  predicate Consistent(s: Session) {
    && WellFormed(s)
    && Deliver(s.b.remote, s.toB) == s.a.local
    && Deliver(s.a.remote, s.toA) == s.b.local
  }

  /** A client never applies its own write to its own mirror, and the other
      client's local map is untouched by it. */
  lemma SetTouchesOnlyOwnLocal(s: Session, f: FlagType, v: bool)
    requires WellFormed(s)
    ensures Next(s, SetOnA(f, v)).a.remote == s.a.remote
    ensures Next(s, SetOnA(f, v)).b == s.b && Next(s, SetOnA(f, v)).toA == s.toA
    ensures Next(s, SetOnB(f, v)).b.remote == s.b.remote
    ensures Next(s, SetOnB(f, v)).a == s.a && Next(s, SetOnB(f, v)).toB == s.toB
  {
  }

  lemma {:induction false} SetKeepsConsistent(local: FlagMap, remote: FlagMap, pending: seq<FlagMessage>, f: FlagType, v: bool)
    requires ValidIds(pending) && Deliver(remote, pending) == local
    ensures var o := SetFlagOutcome(local, f, v);
      ValidIds(pending + o.sent) && Deliver(remote, pending + o.sent) == o.local
  {
    var o := SetFlagOutcome(local, f, v);
    DeliverAppend(remote, pending, o.sent);
    if o.sent != [] {
      FlagIdRoundTrip(f);
      assert o.sent[1..] == [];
    }
  }

  lemma {:induction false} DeliverKeepsConsistent(remote: FlagMap, pending: seq<FlagMessage>)
    requires ValidIds(pending) && pending != []
    ensures Deliver(ReceiveOutcomeOf(remote, pending[0].flagId, pending[0].value).remote, pending[1..])
         == Deliver(remote, pending)
  {
  }

  lemma {:induction false} StepKeepsConsistent(s: Session, step: Step)
    requires Consistent(s)
    ensures Consistent(Next(s, step))
  {
    match step
    case SetOnA(f, v) => SetKeepsConsistent(s.a.local, s.b.remote, s.toB, f, v);
    case SetOnB(f, v) => SetKeepsConsistent(s.b.local, s.a.remote, s.toA, f, v);
    case DeliverToA =>
      if s.toA != [] { DeliverKeepsConsistent(s.a.remote, s.toA); }
    case DeliverToB =>
      if s.toB != [] { DeliverKeepsConsistent(s.b.remote, s.toB); }
  }

  lemma {:induction false} RunKeepsConsistent(s: Session, steps: seq<Step>)
    requires Consistent(s)
    ensures Consistent(Run(s, steps))
    decreases |steps|
  {
    if steps != [] {
      StepKeepsConsistent(s, steps[0]);
      RunKeepsConsistent(Next(s, steps[0]), steps[1..]);
    }
  }

  /** Convergence: from a fresh session, after any interleaving of writes and
      in-order deliveries, once nothing is in flight each client's mirror reads
      exactly what the other client reads locally, for every flag. */
  lemma Convergence(steps: seq<Step>)
    ensures var t := Run(InitialSession, steps);
      t.toA == [] && t.toB == [] ==>
        forall f :: Lookup(t.b.remote, f) == Lookup(t.a.local, f) && Lookup(t.a.remote, f) == Lookup(t.b.local, f)
  {
    RunKeepsConsistent(InitialSession, steps);
  }

  /** No map holds the flag and no queued message names it. */
  predicate Untouched(s: Session, f: FlagType) {
    && WellFormed(s)
    && f !in s.a.local && f !in s.a.remote && f !in s.b.local && f !in s.b.remote
    && (forall i :: 0 <= i < |s.toA| ==> s.toA[i].flagId != FlagId(f))
    && (forall i :: 0 <= i < |s.toB| ==> s.toB[i].flagId != FlagId(f))
  }

  predicate NeverSets(steps: seq<Step>, f: FlagType) {
    forall i :: 0 <= i < |steps| ==> !((steps[i].SetOnA? || steps[i].SetOnB?) && steps[i].flag == f)
  }

  lemma {:induction false} RunKeepsUntouched(s: Session, steps: seq<Step>, f: FlagType)
    requires Untouched(s, f) && NeverSets(steps, f)
    ensures Untouched(Run(s, steps), f)
    decreases |steps|
  {
    if steps != [] {
      var t := Next(s, steps[0]);
      match steps[0] {
      case SetOnA(g, v) =>
        assert g != f;
        forall i | 0 <= i < |t.toB| ensures t.toB[i].flagId != FlagId(f) {
          if i >= |s.toB| { FlagIdRoundTrip(g); FlagIdRoundTrip(f); }
        }
      case SetOnB(g, v) =>
        assert g != f;
        forall i | 0 <= i < |t.toA| ensures t.toA[i].flagId != FlagId(f) {
          if i >= |s.toA| { FlagIdRoundTrip(g); FlagIdRoundTrip(f); }
        }
      case DeliverToA =>
        if s.toA != [] { FlagIdRoundTrip(f); assert s.toA[0].flagId != FlagId(f); }
      case DeliverToB =>
        if s.toB != [] { FlagIdRoundTrip(f); assert s.toB[0].flagId != FlagId(f); }
      }
      assert Untouched(t, f);
      RunKeepsUntouched(t, steps[1..], f);
    }
  }

  /** Default false: a flag that no client ever sets reads false on both
      clients, locally and in the mirror, whatever else happens. */
  lemma NeverSetReadsFalse(steps: seq<Step>, f: FlagType)
    requires NeverSets(steps, f)
    ensures var t := Run(InitialSession, steps);
      !Lookup(t.a.local, f) && !Lookup(t.a.remote, f) && !Lookup(t.b.local, f) && !Lookup(t.b.remote, f)
  {
    RunKeepsUntouched(InitialSession, steps, f);
  }
}
