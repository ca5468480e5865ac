/** Tunnel slots across all control connections: each handshake's reservation, its
    confirmation or release, and the teardown of live connections
    (internal/control/protocol_server.go, internal/usage/tracker.go). */
module TunnelSlots {
  import opened Text
  import opened UsageModel
  import Counting

  /** How far one call of handleConnection has come with tunnel accounting. */
  datatype Handler =
    | Handshake(userID: string, resuming: bool)
    | Registering(userID: string, resuming: bool, reservation: TunnelReservation)
    | Registered(userID: string, resuming: bool, reservation: TunnelReservation, tunnelID: string)
    | Live(userID: string, tunnelID: string)
    | Gone

  /** `restored` remembers, per user, the tunnels last activated by a resume. */
  datatype World = World(tracker: Tracker, handlers: seq<Handler>, restored: map<string, set<string>>)

  datatype Step =
    | Accept(userID: string, resuming: bool)
    | HandshakeFails(i: nat)
    | ReserveSlot(i: nat)
    | RegistrationFails(i: nat)
    | RegistrationSucceeds(i: nat, tunnelID: string)
    | Activate(i: nat, now: Time)
    | Disconnect(i: nat, now: Time)

  function Init(period: Period, limits: Limits): World {
    World(NewTracker(period, limits), [], map[])
  }

  predicate Enabled(w: World, step: Step) {
    match step
    case Accept(_, _) => true
    case HandshakeFails(i) => i < |w.handlers| && w.handlers[i].Handshake?
    case ReserveSlot(i) => i < |w.handlers| && w.handlers[i].Handshake?
    case RegistrationFails(i) => i < |w.handlers| && w.handlers[i].Registering?
    case RegistrationSucceeds(i, tunnelID) => i < |w.handlers| && w.handlers[i].Registering? && tunnelID != ""
    case Activate(i, _) => i < |w.handlers| && w.handlers[i].Registered?
    case Disconnect(i, _) => i < |w.handlers| && w.handlers[i].Live?
  }

  function RestoredFor(w: World, userID: string): set<string> {
    if userID in w.restored then w.restored[userID] else {}
  }

  function Put(w: World, i: nat, handler: Handler): World
    requires i < |w.handlers|
  {
    w.(handlers := w.handlers[i := handler])
  }

  function Apply(w: World, step: Step): World
    requires Enabled(w, step)
  {
    match step
    case Accept(userID, resuming) => w.(handlers := w.handlers + [Handshake(userID, resuming)])
    case HandshakeFails(i) => Put(w, i, Gone)
    case ReserveSlot(i) =>
      var h := w.handlers[i];
      if h.resuming then Put(w, i, Registering(h.userID, true, NO_TUNNEL)) else
      var (t, result) := ReserveTunnel(w.tracker, h.userID);
      if result.Granted? then Put(w.(tracker := t), i, Registering(h.userID, false, result.value))
      else Put(w, i, Gone)
    case RegistrationFails(i) =>
      Put(w.(tracker := ReleaseTunnelReservation(w.tracker, w.handlers[i].reservation)), i, Gone)
    case RegistrationSucceeds(i, tunnelID) =>
      var h := w.handlers[i];
      Put(w, i, Registered(h.userID, h.resuming, h.reservation, tunnelID))
    case Activate(i, now) => DoActivate(w, i, now)
    case Disconnect(i, now) =>
      var h := w.handlers[i];
      var t := if h.userID == "" then w.tracker else TrackTunnelClosed(w.tracker, h.userID, h.tunnelID, now);
      Put(w.(tracker := t), i, Gone)
  }

  /** RestoreTunnel for a resumed session, ConfirmTunnel for a new one. */
  function DoActivate(w: World, i: nat, now: Time): World
    requires Enabled(w, Activate(i, now))
  {
    var h := w.handlers[i];
    var userID := TrimSpace(h.userID);
    var live := Put(w, i, Live(h.userID, h.tunnelID));
    if h.resuming then
      live.(tracker := RestoreTunnel(w.tracker, h.userID, h.tunnelID, now),
            restored := w.restored[userID := RestoredFor(w, userID) + {h.tunnelID}])
    else
      live.(tracker := ConfirmTunnel(w.tracker, h.reservation, h.tunnelID, now),
            restored := w.restored[userID := RestoredFor(w, userID) - {h.tunnelID}])
  }

  ghost predicate Feasible(w: World, steps: seq<Step>)
    decreases |steps|
  {
    steps == [] || (Enabled(w, steps[0]) && Feasible(Apply(w, steps[0]), steps[1..]))
  }

  ghost function Run(w: World, steps: seq<Step>): World
    requires Feasible(w, steps)
    decreases |steps|
  {
    if steps == [] then w else Run(Apply(w, steps[0]), steps[1..])
  }

  // The invariant, user by user.

  /** The handler holds a reservation of this user that is not yet settled. */
  predicate Holds(handler: Handler, userID: string) {
    (handler.Registering? || handler.Registered?) && handler.reservation.acquired
    && handler.reservation.userID == userID
  }

  function Holdings(handlers: seq<Handler>, userID: string): seq<int> {
    seq(|handlers|, i requires 0 <= i < |handlers| => if Holds(handlers[i], userID) then 1 else 0)
  }

  function Holders(handlers: seq<Handler>, userID: string): int {
    Counting.Sum(Holdings(handlers, userID))
  }

  /** Some connection is live for the tunnel. */
  ghost predicate Attended(handlers: seq<Handler>, userID: string, tunnelID: string) {
    exists j :: 0 <= j < |handlers| && handlers[j].Live?
      && TrimSpace(handlers[j].userID) == userID && handlers[j].tunnelID == tunnelID
  }

  /** A reservation carries its handler's trimmed user; resumes hold none. */
  predicate HandlerOk(handler: Handler) {
    && (handler.Live? ==> handler.tunnelID != "")
    && (handler.Registering? || handler.Registered? ==>
      var r := handler.reservation;
      && r == (if handler.resuming || TrimSpace(handler.userID) == "" then NO_TUNNEL
               else TunnelReservation(TrimSpace(handler.userID), true))
      && (handler.Registered? ==> handler.tunnelID != ""))
  }

  predicate ReservedOk(w: World, userID: string) {
    Reserved(w.tracker, userID) == Holders(w.handlers, userID)
  }

  ghost predicate AttendedOk(t: Tracker, handlers: seq<Handler>, userID: string) {
    forall tunnelID <- Active(t, userID) ::
      userID != "" && tunnelID != "" && Attended(handlers, userID, tunnelID)
  }

  /** The cap, with tunnels brought back by a resume not counted. */
  predicate CapOk(t: Tracker, restored: set<string>, userID: string) {
    t.limits.maxActiveTunnels > 0 && userID != "" ==>
      |Active(t, userID) - restored| + Reserved(t, userID) <= t.limits.maxActiveTunnels
  }

  ghost predicate UserOk(w: World, userID: string) {
    && ReservedOk(w, userID)
    && AttendedOk(w.tracker, w.handlers, userID)
    && CapOk(w.tracker, RestoredFor(w, userID), userID)
  }

  ghost predicate Inv(w: World) {
    && (forall i | 0 <= i < |w.handlers| :: HandlerOk(w.handlers[i]))
    && (forall userID :: UserOk(w, userID))
  }

  lemma HoldersPut(handlers: seq<Handler>, i: nat, handler: Handler, userID: string)
    requires i < |handlers|
    ensures Holders(handlers[i := handler], userID) ==
            Holders(handlers, userID) - (if Holds(handlers[i], userID) then 1 else 0)
            + (if Holds(handler, userID) then 1 else 0)
    ensures Holders(handlers, userID) >= if Holds(handlers[i], userID) then 1 else 0
  {
    var v := if Holds(handler, userID) then 1 else 0;
    assert Holdings(handlers[i := handler], userID) == Holdings(handlers, userID)[i := v];
    Counting.SumUpdate(Holdings(handlers, userID), i, v);
    Counting.SumAtLeast(Holdings(handlers, userID), i);
  }

  /** Replacing a handler that is not live leaves every tunnel attended. */
  lemma AttendedPut(handlers: seq<Handler>, i: nat, handler: Handler, userID: string, tunnelID: string)
    requires i < |handlers| && Attended(handlers, userID, tunnelID)
    requires handlers[i].Live? ==> TrimSpace(handlers[i].userID) != userID || handlers[i].tunnelID != tunnelID
    ensures Attended(handlers[i := handler], userID, tunnelID)
  {
    var j :| 0 <= j < |handlers| && handlers[j].Live?
      && TrimSpace(handlers[j].userID) == userID && handlers[j].tunnelID == tunnelID;
    assert handlers[i := handler][j] == handlers[j];
  }

  lemma AllAttendedPut(t: Tracker, handlers: seq<Handler>, i: nat, handler: Handler, userID: string)
    requires i < |handlers| && AttendedOk(t, handlers, userID) && !handlers[i].Live?
    ensures AttendedOk(t, handlers[i := handler], userID)
  {
    forall tunnelID | tunnelID in Active(t, userID) ensures Attended(handlers[i := handler], userID, tunnelID) {
      AttendedPut(handlers, i, handler, userID, tunnelID);
    }
  }

  // What each tracker operation does to one user's slots.

  lemma TouchKeepsTunnels(t: Tracker, userID: string, now: Time)
    ensures var t' := TouchBucket(t, userID, now);
      t'.activeTunnels == t.activeTunnels && t'.reservedTunnels == t.reservedTunnels && t'.limits == t.limits
  {
  }

  lemma ReserveEffect(t: Tracker, rawUserID: string, u: string)
    ensures var (t', result) := ReserveTunnel(t, rawUserID);
      && t'.limits == t.limits && Active(t', u) == Active(t, u)
      && (result.Granted? ==>
            && result.value == (if TrimSpace(rawUserID) == "" then NO_TUNNEL else TunnelReservation(TrimSpace(rawUserID), true))
            && Reserved(t', u) == Reserved(t, u) + (if result.value.acquired && u == TrimSpace(rawUserID) then 1 else 0)
            && (result.value.acquired && u == TrimSpace(rawUserID) && t.limits.maxActiveTunnels > 0 ==>
                  |Active(t', u)| + Reserved(t', u) <= t.limits.maxActiveTunnels))
      && (result.LimitHit? ==> t' == t)
  {
  }

  lemma ReleaseEffect(t: Tracker, r: TunnelReservation, u: string)
    requires r.acquired && r.userID == u && u != "" ==> Reserved(t, u) > 0
    requires r.acquired ==> r.userID != ""
    ensures var t' := ReleaseTunnelReservation(t, r);
      && t'.limits == t.limits && Active(t', u) == Active(t, u)
      && Reserved(t', u) == Reserved(t, u) - (if r.acquired && r.userID == u then 1 else 0)
  {
  }

  /** Adding a tunnel to a user's active set. */
  function WithActive(t: Tracker, userID: string, tunnelID: string): Tracker {
    t.(activeTunnels := t.activeTunnels[userID := Active(t, userID) + {tunnelID}])
  }

  lemma WithActiveEffect(t: Tracker, userID: string, tunnelID: string, u: string)
    ensures var t' := WithActive(t, userID, tunnelID);
      && t'.limits == t.limits && Reserved(t', u) == Reserved(t, u)
      && Active(t', u) == Active(t, u) + (if userID == u then {tunnelID} else {})
  {
  }

  lemma UnreserveEffect(t: Tracker, userID: string, u: string)
    requires userID == u ==> Reserved(t, u) > 0
    ensures var t' := Unreserve(t, userID);
      && t'.limits == t.limits && Active(t', u) == Active(t, u)
      && Reserved(t', u) == Reserved(t, u) - (if userID == u then 1 else 0)
  {
  }

  lemma ConfirmEffect(t: Tracker, r: TunnelReservation, tunnelID: string, now: Time, u: string)
    requires tunnelID != "" && (r.acquired ==> r.userID != "")
    requires r.acquired && r.userID == u ==> Reserved(t, u) > 0
    ensures var t' := ConfirmTunnel(t, r, tunnelID, now);
      && t'.limits == t.limits
      && Active(t', u) == Active(t, u) + (if r.acquired && r.userID == u then {tunnelID} else {})
      && Reserved(t', u) == Reserved(t, u) - (if r.acquired && r.userID == u then 1 else 0)
  {
    if r.acquired {
      UnreserveEffect(t, r.userID, u);
      WithActiveEffect(Unreserve(t, r.userID), r.userID, tunnelID, u);
      TouchKeepsTunnels(WithActive(Unreserve(t, r.userID), r.userID, tunnelID), r.userID, now);
    }
  }

  lemma RestoreEffect(t: Tracker, rawUserID: string, tunnelID: string, now: Time, u: string)
    requires tunnelID != ""
    ensures var t' := RestoreTunnel(t, rawUserID, tunnelID, now);
      && t'.limits == t.limits && Reserved(t', u) == Reserved(t, u)
      && Active(t', u) == Active(t, u) + (if u == TrimSpace(rawUserID) && u != "" then {tunnelID} else {})
  {
    var userID := TrimSpace(rawUserID);
    if userID != "" {
      TouchKeepsTunnels(t.(activeTunnels := t.activeTunnels[userID := Active(t, userID) + {tunnelID}]), userID, now);
    }
  }

  lemma CloseEffect(t: Tracker, rawUserID: string, tunnelID: string, now: Time, u: string)
    requires tunnelID != ""
    ensures var t' := TrackTunnelClosed(t, rawUserID, tunnelID, now);
      && t'.limits == t.limits && Reserved(t', u) == Reserved(t, u)
      && Active(t', u) == Active(t, u) - (if u == TrimSpace(rawUserID) && u != "" then {tunnelID} else {})
  {
    var userID := TrimSpace(rawUserID);
    var left := Active(t, userID) - {tunnelID};
    if userID == "" {
    } else if userID !in t.activeTunnels {
      TouchKeepsTunnels(t, userID, now);
    } else if left == {} {
      TouchKeepsTunnels(t.(activeTunnels := t.activeTunnels - {userID}), userID, now);
    } else {
      TouchKeepsTunnels(t.(activeTunnels := t.activeTunnels[userID := left]), userID, now);
    }
  }

  // Each step keeps each user's slots in order.

  lemma AcceptOk(w: World, userID: string, resuming: bool, u: string)
    requires UserOk(w, u)
    ensures UserOk(Apply(w, Accept(userID, resuming)), u)
  {
    var h := Handshake(userID, resuming);
    assert Holdings(w.handlers + [h], u) == Holdings(w.handlers, u) + [0];
    Counting.SumAppend(Holdings(w.handlers, u), 0);
    forall tunnelID | tunnelID in Active(w.tracker, u) ensures Attended(w.handlers + [h], u, tunnelID) {
      var j :| 0 <= j < |w.handlers| && w.handlers[j].Live?
        && TrimSpace(w.handlers[j].userID) == u && w.handlers[j].tunnelID == tunnelID;
      assert (w.handlers + [h])[j] == w.handlers[j];
    }
  }

  lemma QuietOk(w: World, i: nat, handler: Handler, u: string)
    requires UserOk(w, u) && i < |w.handlers| && !w.handlers[i].Live?
    requires Holds(handler, u) <==> Holds(w.handlers[i], u)
    ensures UserOk(Put(w, i, handler), u)
  {
    HoldersPut(w.handlers, i, handler, u);
    AllAttendedPut(w.tracker, w.handlers, i, handler, u);
  }

  lemma ReserveOk(w: World, i: nat, u: string)
    requires UserOk(w, u) && Enabled(w, ReserveSlot(i))
    ensures UserOk(Apply(w, ReserveSlot(i)), u)
  {
    var h := w.handlers[i];
    var (t, result) := ReserveTunnel(w.tracker, h.userID);
    ReserveEffect(w.tracker, h.userID, u);
    if !h.resuming && result.Granted? {
      var handler := Registering(h.userID, false, result.value);
      HoldersPut(w.handlers, i, handler, u);
      AllAttendedPut(w.tracker, w.handlers, i, handler, u);
      SubsetSize(Active(w.tracker, u) - RestoredFor(w, u), Active(w.tracker, u));
    } else {
      QuietOk(w, i, Apply(w, ReserveSlot(i)).handlers[i], u);
    }
  }

  lemma SubsetSize(a: set<string>, b: set<string>)
    requires a <= b
    ensures |a| <= |b|
  {
    if a != b {
      assert b == a + (b - a);
    }
  }

  lemma RegistrationFailsOk(w: World, i: nat, u: string)
    requires UserOk(w, u) && Enabled(w, RegistrationFails(i)) && HandlerOk(w.handlers[i])
    ensures UserOk(Apply(w, RegistrationFails(i)), u)
  {
    HoldersPut(w.handlers, i, Gone, u);
    ReleaseEffect(w.tracker, w.handlers[i].reservation, u);
    AllAttendedPut(w.tracker, w.handlers, i, Gone, u);
  }

  predicate Owns(handler: Handler, u: string) {
    handler.Registered? && TrimSpace(handler.userID) == u && u != ""
  }

  lemma ActivateEffect(w: World, i: nat, now: Time, u: string)
    requires ReservedOk(w, u) && Enabled(w, Activate(i, now)) && HandlerOk(w.handlers[i])
    ensures var h, t, t' := w.handlers[i], w.tracker, DoActivate(w, i, now).tracker;
      && t'.limits == t.limits
      && Active(t', u) == Active(t, u) + (if Owns(h, u) then {h.tunnelID} else {})
      && Reserved(t', u) == Reserved(t, u) - (if Holds(h, u) then 1 else 0)
      && (Holds(h, u) ==> Reserved(t, u) > 0)
  {
    var h := w.handlers[i];
    HoldersPut(w.handlers, i, Live(h.userID, h.tunnelID), u);
    if h.resuming {
      RestoreEffect(w.tracker, h.userID, h.tunnelID, now, u);
    } else {
      ConfirmEffect(w.tracker, h.reservation, h.tunnelID, now, u);
    }
  }

  lemma AttendedGrows(t: Tracker, t': Tracker, handlers: seq<Handler>, u: string, added: set<string>)
    requires AttendedOk(t, handlers, u) && Active(t', u) == Active(t, u) + added
    requires forall tunnelID <- added :: u != "" && tunnelID != "" && Attended(handlers, u, tunnelID)
    ensures AttendedOk(t', handlers, u)
  {
  }

  lemma ActivateAttended(w: World, i: nat, now: Time, u: string)
    requires UserOk(w, u) && Enabled(w, Activate(i, now)) && HandlerOk(w.handlers[i])
    ensures AttendedOk(DoActivate(w, i, now).tracker, w.handlers[i := Live(w.handlers[i].userID, w.handlers[i].tunnelID)], u)
  {
    var h := w.handlers[i];
    var live := Live(h.userID, h.tunnelID);
    var handlers := w.handlers[i := live];
    AllAttendedPut(w.tracker, w.handlers, i, live, u);
    ActivateEffect(w, i, now, u);
    assert handlers[i] == live;
    AttendedGrows(w.tracker, DoActivate(w, i, now).tracker, handlers, u, if Owns(h, u) then {h.tunnelID} else {});
  }

  /** A resumed tunnel does not count; a confirmed one uses its reservation. */
  lemma CountedTunnels(active: set<string>, restored: set<string>, tunnelID: string)
    ensures |(active + {tunnelID}) - (restored + {tunnelID})| <= |active - restored|
    ensures |(active + {tunnelID}) - (restored - {tunnelID})| <= |active - restored| + 1
  {
    SubsetSize((active + {tunnelID}) - (restored + {tunnelID}), active - restored);
    SubsetSize((active + {tunnelID}) - (restored - {tunnelID}), (active - restored) + {tunnelID});
  }

  lemma RestoredEffect(w: World, i: nat, now: Time, u: string)
    requires Enabled(w, Activate(i, now))
    ensures var h, w' := w.handlers[i], DoActivate(w, i, now);
      RestoredFor(w', u) ==
      if TrimSpace(h.userID) != u then RestoredFor(w, u)
      else if h.resuming then RestoredFor(w, u) + {h.tunnelID}
      else RestoredFor(w, u) - {h.tunnelID}
  {
  }

  lemma ActivateReserved(w: World, i: nat, now: Time, u: string)
    requires UserOk(w, u) && Enabled(w, Activate(i, now)) && HandlerOk(w.handlers[i])
    ensures ReservedOk(DoActivate(w, i, now), u)
  {
    var h := w.handlers[i];
    HoldersPut(w.handlers, i, Live(h.userID, h.tunnelID), u);
    ActivateEffect(w, i, now, u);
    assert DoActivate(w, i, now).handlers == w.handlers[i := Live(h.userID, h.tunnelID)];
  }

  lemma ActivateCap(w: World, i: nat, now: Time, u: string)
    requires UserOk(w, u) && Enabled(w, Activate(i, now)) && HandlerOk(w.handlers[i])
    ensures CapOk(DoActivate(w, i, now).tracker, RestoredFor(DoActivate(w, i, now), u), u)
  {
    var h, restored := w.handlers[i], RestoredFor(w, u);
    RestoredEffect(w, i, now, u);
    ActivateEffect(w, i, now, u);
    CountedTunnels(Active(w.tracker, u), restored, h.tunnelID);
    if u != "" && TrimSpace(h.userID) == u {
      assert Owns(h, u) && (Holds(h, u) <==> !h.resuming);
    } else {
      assert !Owns(h, u) && (u != "" ==> !Holds(h, u));
      assert Active(w.tracker, u) + {} == Active(w.tracker, u);
    }
  }

  lemma DisconnectEffect(w: World, i: nat, now: Time, u: string)
    requires Enabled(w, Disconnect(i, now)) && w.handlers[i].tunnelID != ""
    ensures var h, t, t' := w.handlers[i], w.tracker, Apply(w, Disconnect(i, now)).tracker;
      && t'.limits == t.limits && Reserved(t', u) == Reserved(t, u)
      && Active(t', u) == Active(t, u) - (if TrimSpace(h.userID) == u && u != "" then {h.tunnelID} else {})
  {
    var h := w.handlers[i];
    assert TrimSpace("") == "";
    CloseEffect(w.tracker, h.userID, h.tunnelID, now, u);
  }

  lemma DisconnectOk(w: World, i: nat, now: Time, u: string)
    requires UserOk(w, u) && Enabled(w, Disconnect(i, now)) && HandlerOk(w.handlers[i])
    ensures UserOk(Apply(w, Disconnect(i, now)), u)
  {
    var t' := Apply(w, Disconnect(i, now)).tracker;
    HoldersPut(w.handlers, i, Gone, u);
    DisconnectEffect(w, i, now, u);
    forall tunnelID | tunnelID in Active(t', u) ensures Attended(w.handlers[i := Gone], u, tunnelID) {
      AttendedPut(w.handlers, i, Gone, u, tunnelID);
    }
    SubsetSize(Active(t', u) - RestoredFor(w, u), Active(w.tracker, u) - RestoredFor(w, u));
  }

  lemma ReservedHandlerOk(t: Tracker, h: Handler)
    requires h.Handshake?
    ensures HandlerOk(Registering(h.userID, true, NO_TUNNEL))
    ensures !h.resuming && ReserveTunnel(t, h.userID).1.Granted? ==>
              HandlerOk(Registering(h.userID, false, ReserveTunnel(t, h.userID).1.value))
  {
  }

  /** A step changes one handler or adds one, and that one is in order. */
  lemma HandlersOk(w: World, step: Step)
    requires Inv(w) && Enabled(w, step)
    ensures forall i | 0 <= i < |Apply(w, step).handlers| :: HandlerOk(Apply(w, step).handlers[i])
  {
    if step.ReserveSlot? {
      ReservedHandlerOk(w.tracker, w.handlers[step.i]);
    }
  }

  lemma UserActivates(w: World, i: nat, now: Time, u: string)
    requires UserOk(w, u) && Enabled(w, Activate(i, now)) && HandlerOk(w.handlers[i])
    ensures UserOk(DoActivate(w, i, now), u)
  {
    ActivateAttended(w, i, now, u);
    ActivateReserved(w, i, now, u);
    ActivateCap(w, i, now, u);
  }

  lemma UserStep(w: World, step: Step, u: string)
    requires Inv(w) && Enabled(w, step)
    ensures UserOk(Apply(w, step), u)
  {
    assert UserOk(w, u);
    match step {
      case Accept(userID, resuming) => AcceptOk(w, userID, resuming, u);
      case HandshakeFails(i) => QuietOk(w, i, Gone, u);
      case ReserveSlot(i) => ReserveOk(w, i, u);
      case RegistrationFails(i) => RegistrationFailsOk(w, i, u);
      case RegistrationSucceeds(i, tunnelID) => QuietOk(w, i, Apply(w, step).handlers[i], u);
      case Activate(i, now) => UserActivates(w, i, now, u);
      case Disconnect(i, now) => DisconnectOk(w, i, now, u);
    }
  }

  lemma InvStep(w: World, step: Step)
    requires Inv(w) && Enabled(w, step)
    ensures Inv(Apply(w, step))
  {
    HandlersOk(w, step);
    forall u ensures UserOk(Apply(w, step), u) {
      UserStep(w, step, u);
    }
  }

  lemma {:induction false} InvRun(w: World, steps: seq<Step>)
    requires Inv(w) && Feasible(w, steps)
    ensures Inv(Run(w, steps))
    decreases |steps|
  {
    if steps != [] {
      InvStep(w, steps[0]);
      InvRun(Apply(w, steps[0]), steps[1..]);
    }
  }

  /** Over every run of handshakes, resumes and disconnects, for every user: slots
      reserved are exactly those of handshakes still holding one, so each granted
      reservation is settled once on every exit path; every active tunnel has a
      live connection; the cap holds save for resumed tunnels; and when every
      connection is gone nothing is reserved or active. */
  lemma SlotsConserved(period: Period, limits: Limits, steps: seq<Step>, userID: string)
    requires Feasible(Init(period, limits), steps)
    ensures var w := Run(Init(period, limits), steps);
      && Reserved(w.tracker, userID) == Holders(w.handlers, userID)
      && (forall tunnelID <- Active(w.tracker, userID) :: Attended(w.handlers, userID, tunnelID))
      && CapOk(w.tracker, RestoredFor(w, userID), userID)
      && ((forall i | 0 <= i < |w.handlers| :: w.handlers[i].Gone?) ==>
            Reserved(w.tracker, userID) == 0 && Active(w.tracker, userID) == {})
  {
    InvRun(Init(period, limits), steps);
    var w := Run(Init(period, limits), steps);
    assert UserOk(w, userID);
    if forall i | 0 <= i < |w.handlers| :: w.handlers[i].Gone? {
      Counting.SumZero(Holdings(w.handlers, userID));
    }
  }

  lemma {:induction false} LimitsKept(w: World, steps: seq<Step>)
    requires Feasible(w, steps)
    ensures Run(w, steps).tracker.limits == w.tracker.limits
    decreases |steps|
  {
    if steps != [] {
      LimitsStep(w, steps[0]);
      LimitsKept(Apply(w, steps[0]), steps[1..]);
    }
  }

  lemma LimitsStep(w: World, step: Step)
    requires Enabled(w, step)
    ensures Apply(w, step).tracker.limits == w.tracker.limits
  {
    match step {
      case Activate(i, now) =>
        var h := w.handlers[i];
        RestoreLimits(w.tracker, h.userID, h.tunnelID, now);
        ConfirmLimits(w.tracker, h.reservation, h.tunnelID, now);
      case Disconnect(i, now) => CloseLimits(w.tracker, w.handlers[i].userID, w.handlers[i].tunnelID, now);
      case _ =>
    }
  }

  lemma RestoreLimits(t: Tracker, rawUserID: string, tunnelID: string, now: Time)
    ensures RestoreTunnel(t, rawUserID, tunnelID, now).limits == t.limits
  {
    TouchKeepsTunnels(WithActive(t, TrimSpace(rawUserID), tunnelID), TrimSpace(rawUserID), now);
  }

  lemma ConfirmLimits(t: Tracker, r: TunnelReservation, tunnelID: string, now: Time)
    ensures ConfirmTunnel(t, r, tunnelID, now).limits == t.limits
  {
    TouchKeepsTunnels(WithActive(Unreserve(t, r.userID), r.userID, tunnelID), r.userID, now);
  }

  lemma CloseLimits(t: Tracker, rawUserID: string, tunnelID: string, now: Time)
    ensures TrackTunnelClosed(t, rawUserID, tunnelID, now).limits == t.limits
  {
  }

  /** A handshake of a named user gets its slot, after any run, exactly when the
      user's active tunnels and the handshakes holding a slot for the user leave one
      under the cap; otherwise the refusal names the cap and what would be used. */
  lemma SlotGrantedExactly(period: Period, limits: Limits, steps: seq<Step>, rawUserID: string)
    requires Feasible(Init(period, limits), steps) && TrimSpace(rawUserID) != ""
    ensures var w, userID := Run(Init(period, limits), steps), TrimSpace(rawUserID);
      var used := |Active(w.tracker, userID)| + Holders(w.handlers, userID);
      ReserveTunnel(w.tracker, rawUserID).1 ==
      if limits.maxActiveTunnels <= 0 || used < limits.maxActiveTunnels then Granted(TunnelReservation(userID, true))
      else LimitHit(ActiveTunnels, limits.maxActiveTunnels, used + 1)
  {
    InvRun(Init(period, limits), steps);
    LimitsKept(Init(period, limits), steps);
    assert UserOk(Run(Init(period, limits), steps), TrimSpace(rawUserID));
  }
}
