/** The persisted kill switch and its audit trail. */
module KillSwitches {
  import opened Wrappers

  datatype RiskEventKind = LIMIT_BREACH | KILL_SWITCH | KILL_SWITCH_RESET | REJECTION

  /** The singleton kill-switch row together with the risk_events log. */
  datatype KillState = KillState(tripped: bool, consecutiveErrors: nat, events: seq<RiskEventKind>)

  const CLEAR := KillState(false, 0, [])

  function Log(k: KillState, e: RiskEventKind): KillState { k.(events := k.events + [e]) }

  /** Idempotent: tripping a tripped switch logs nothing. */
  function Trip(k: KillState): KillState {
    if k.tripped then k else Log(k.(tripped := true), KILL_SWITCH)
  }

  function Reset(k: KillState): Result<KillState> {
    if !k.tripped then Err(KillSwitchNotTripped)
    else Ok(Log(k.(tripped := false, consecutiveErrors := 0), KILL_SWITCH_RESET))
  }

  function RecordError(k: KillState, limit: nat): KillState {
    var k' := k.(consecutiveErrors := k.consecutiveErrors + 1);
    if k'.consecutiveErrors >= limit && !k'.tripped then Trip(k') else k'
  }

  function RecordSuccess(k: KillState): KillState { k.(consecutiveErrors := 0) }

  // ---- What every history of the switch keeps ----

  predicate IsSwitchEvent(e: RiskEventKind) { e == KILL_SWITCH || e == KILL_SWITCH_RESET }

  function SwitchEvents(events: seq<RiskEventKind>): seq<RiskEventKind> {
    if events == [] then []
    else SwitchEvents(events[..|events|-1]) + (if IsSwitchEvent(events[|events|-1]) then [events[|events|-1]] else [])
  }

  /** Trips and resets alternate, starting with a trip. */
  ghost predicate Alternates(s: seq<RiskEventKind>) {
    forall k :: 0 <= k < |s| ==> s[k] == if k % 2 == 0 then KILL_SWITCH else KILL_SWITCH_RESET
  }

  ghost predicate SwitchOk(k: KillState, limit: nat) {
    && (!k.tripped ==> k.consecutiveErrors < limit)
    && Alternates(SwitchEvents(k.events))
    && (k.tripped <==> |SwitchEvents(k.events)| % 2 == 1)
  }

  lemma LogKeeps(k: KillState, e: RiskEventKind)
    ensures SwitchEvents(Log(k, e).events) == SwitchEvents(k.events) + (if IsSwitchEvent(e) then [e] else [])
  {
    assert (k.events + [e])[..|k.events|] == k.events;
  }

  lemma AlternatesAppend(s: seq<RiskEventKind>)
    requires Alternates(s)
    ensures Alternates(s + [if |s| % 2 == 0 then KILL_SWITCH else KILL_SWITCH_RESET])
  {
  }

  lemma TripKeeps(k: KillState, limit: nat)
    requires limit >= 1 && (k.tripped ==> SwitchOk(k, limit))
    requires Alternates(SwitchEvents(k.events)) && (k.tripped <==> |SwitchEvents(k.events)| % 2 == 1)
    ensures SwitchOk(Trip(k), limit) && Trip(k).tripped
  {
    hide SwitchEvents, Alternates;
    LogKeeps(k.(tripped := true), KILL_SWITCH);
    AlternatesAppend(SwitchEvents(k.events));
  }

  lemma ResetKeeps(k: KillState, limit: nat)
    requires limit >= 1 && SwitchOk(k, limit)
    ensures Reset(k).Ok? <==> k.tripped
    ensures Reset(k).Ok? ==> SwitchOk(Reset(k).value, limit)
    ensures Reset(k).Ok? ==> !Reset(k).value.tripped && Reset(k).value.consecutiveErrors == 0
  {
    hide SwitchEvents, Alternates;
    LogKeeps(k.(tripped := false, consecutiveErrors := 0), KILL_SWITCH_RESET);
    AlternatesAppend(SwitchEvents(k.events));
  }

  lemma RecordErrorKeeps(k: KillState, limit: nat)
    requires limit >= 1 && SwitchOk(k, limit)
    ensures SwitchOk(RecordError(k, limit), limit)
    ensures RecordError(k, limit).consecutiveErrors == k.consecutiveErrors + 1
    ensures RecordError(k, limit).tripped <==> k.tripped || k.consecutiveErrors + 1 >= limit
  {
    hide SwitchEvents, Alternates;
    var k' := k.(consecutiveErrors := k.consecutiveErrors + 1);
    TripKeeps(if k.tripped then k else k', limit);
  }

  lemma OtherEventKeeps(k: KillState, e: RiskEventKind, limit: nat)
    requires SwitchOk(k, limit) && !IsSwitchEvent(e)
    ensures SwitchOk(Log(k, e), limit)
  {
    hide SwitchEvents, Alternates;
    LogKeeps(k, e);
    assert SwitchEvents(k.events) + [] == SwitchEvents(k.events);
  }

  class KillSwitch {
    var tripped: bool
    var consecutiveErrors: nat
    var events: seq<RiskEventKind>

    function State(): KillState
      reads this
    {
      KillState(tripped, consecutiveErrors, events)
    }

    constructor ()
      ensures State() == CLEAR
    {
      tripped, consecutiveErrors, events := false, 0, [];
    }

    /** Undo everything since the row and the log were `k`. */
    method Rollback(k: KillState)
      modifies this
      ensures State() == k
    {
      tripped, consecutiveErrors, events := k.tripped, k.consecutiveErrors, k.events;
    }

    method DoTrip()
      modifies this
      ensures State() == Trip(old(State()))
    {
      if tripped { return; }
      tripped := true;
      events := events + [KILL_SWITCH];
    }

    method DoReset() returns (error: Option<Error>)
      modifies this
      ensures match Reset(old(State()))
              case Err(e) => error == Some(e) && State() == old(State())
              case Ok(k) => error == None && State() == k
    {
      if !tripped { return Some(KillSwitchNotTripped); }
      tripped := false;
      consecutiveErrors := 0;
      events := events + [KILL_SWITCH_RESET];
      error := None;
    }

    method DoRecordError(limit: nat)
      modifies this
      ensures State() == RecordError(old(State()), limit)
    {
      consecutiveErrors := consecutiveErrors + 1;
      if consecutiveErrors >= limit && !tripped {
        DoTrip();
      }
    }

    method DoRecordSuccess()
      modifies this
      ensures State() == RecordSuccess(old(State()))
    {
      if consecutiveErrors != 0 { consecutiveErrors := 0; }
    }

    method DoLog(e: RiskEventKind)
      modifies this`events
      ensures State() == Log(old(State()), e)
    {
      events := events + [e];
    }
  }
}
