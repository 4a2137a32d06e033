/** Blue-green rotation of the single executor instance, with a hot standby: what exists at the
    cloud provider at every moment, compared with what the state file says. */
module NrtRotator {
  import opened Common

  type Id = nat

  const COOLDOWN_S := 60

  /** Why an instance may keep running although nothing refers to it any more. */
  datatype Cause = DestroyFailed | NeverActive | RsyncRaised | UnreadableCount | CronRaised | SaveRaised

  datatype Fault = Fault(id: Id, cause: Cause)

  /** A picture taken after every change at the provider. `procs` is the verified number of
      service processes on the instance being brought up. */
  datatype Snap = Snap(live: set<Id>, primary: Id, standby: Option<Id>, building: Option<Id>, procs: nat,
                       faults: seq<Fault>, unsaved: bool)

  /** `unsaved` says that the primary on file has been destroyed and the save of its replacement raised. */
  datatype World = World(
    primary: Id, standby: Option<Id>, lastRotatedAt: int,  // the state file
    live: set<Id>, used: set<Id>, faults: seq<Fault>,      // the provider, and what was abandoned there
    log: seq<Snap>, unsaved: bool)

  datatype Outcome = Done | Raised

  /** Replies while an instance is created and booted; `active` false is the wait timing out. */
  datatype Boot = CreateFailed | Created(id: Id, active: bool, sshReady: bool)

  datatype RotateReplies = RotateReplies(
    standbyHealthy: bool, standbyGone: bool,
    boot: Boot, rsyncRaised: bool, procs: Option<nat>, newGone: bool,
    cronRaised: bool, oldGone: bool, now: int, saveRaised: bool)

  datatype StandbyReplies = StandbyReplies(
    stillHealthy: bool, boot: Boot, rsyncRaised: bool, procs: Option<nat>, healthy: bool, gone: bool, saveRaised: bool)

  datatype Tick = Tick(now: int, blocked: bool, rotation: RotateReplies, standby: StandbyReplies)

  // ----- Provider calls -----

  function Note(w: World, building: Option<Id>, procs: nat): World {
    w.(log := w.log + [Snap(w.live, w.primary, w.standby, building, procs, w.faults, w.unsaved)])
  }

  function Create(w: World, id: Id): World {
    Note(w.(live := w.live + {id}, used := w.used + {id}), Some(id), 0)
  }

  function Abandon(w: World, id: Id, cause: Cause): World {
    w.(faults := w.faults + [Fault(id, cause)])
  }

  /** A destroy call; when it fails the error is swallowed or re-raised, but never retried. */
  function Destroy(w: World, id: Id, gone: bool, building: Option<Id>, procs: nat): World {
    if gone then Note(w.(live := w.live - {id}), building, procs)
    else Note(Abandon(w, id, DestroyFailed), building, procs)
  }

  // ----- Rotation -----

  /** Use the standby if it answers, otherwise get rid of it. */
  function PickStandby(w: World, r: RotateReplies): (World, Option<Id>) {
    if w.standby.None? then (w, None)
    else if r.standbyHealthy then (w, w.standby)
    else (Destroy(w, w.standby.value, r.standbyGone, None, 0), None)
  }

  /** Create an instance and wait for it; None when that raised. */
  function BootNew(w: World, boot: Boot, gone: bool): (World, Option<Id>) {
    if boot.CreateFailed? then (w, None)
    else
      var w1 := Create(w, boot.id);
      if !boot.active then (Note(Abandon(w1, boot.id, NeverActive), None, 0), None)
      else if !boot.sshReady then (Destroy(w1, boot.id, gone, None, 0), None)
      else (w1, Some(boot.id))
  }

  /** An exception leaves a cold-created instance behind; a promoted standby is still on file. */
  function GiveUp(w: World, id: Id, cold: bool, cause: Cause): World {
    if cold then Note(Abandon(w, id, cause), None, 0) else w
  }

  function Promote(w: World, id: Id, cold: bool, r: RotateReplies): (World, Outcome) {
    if r.rsyncRaised then (GiveUp(w, id, cold, RsyncRaised), Raised)
    else if r.procs.None? then (GiveUp(w, id, cold, UnreadableCount), Raised)
    else if r.procs.value < 2 then (Destroy(w, id, r.newGone, None, 0), Raised)
    else if r.cronRaised then (GiveUp(w, id, cold, CronRaised), Raised)
    else
      Swap(Destroy(w, w.primary, r.oldGone, Some(id), r.procs.value), id, cold, r)
  }

  /** The new state is saved after the old primary is gone; when that raises, the file keeps the old one. */
  function Swap(w: World, id: Id, cold: bool, r: RotateReplies): (World, Outcome) {
    if r.saveRaised then
      var w1 := w.(unsaved := w.unsaved || r.oldGone);
      (Note(if cold then Abandon(w1, id, SaveRaised) else w1, None, 0), Raised)
    else
      (Note(w.(primary := id, standby := None, lastRotatedAt := r.now, unsaved := false), None, 0), Done)
  }

  function RotateOnly(w: World, r: RotateReplies): (World, Outcome) {
    var (w1, hot) := PickStandby(w, r);
    if hot.Some? then Promote(w1, hot.value, false, r)
    else
      var (w2, booted) := BootNew(w1, r.boot, r.newGone);
      if booted.None? then (w2, Raised) else Promote(w2, booted.value, true, r)
  }

  function Provision(w: World, r: StandbyReplies): World {
    if w.standby.Some? && r.stillHealthy then w
    else
      var (w1, booted) := BootNew(w, r.boot, r.gone);
      if booted.None? then w1
      else if r.rsyncRaised then GiveUp(w1, booted.value, true, RsyncRaised)
      else if r.procs.None? then GiveUp(w1, booted.value, true, UnreadableCount)
      else if r.procs.value < 1 || !r.healthy then Destroy(w1, booted.value, r.gone, None, 0)
      else if r.saveRaised then GiveUp(w1, booted.value, true, SaveRaised)
      else Note(w1.(standby := booted), None, 0)
  }

  function Rotate(w: World, r: RotateReplies, s: StandbyReplies): (World, Outcome) {
    var (w1, outcome) := RotateOnly(w, r);
    if outcome.Done? then (Provision(w1, s), Done) else (w1, outcome)
  }

  function Once(w: World, t: Tick): World {
    if t.now - w.lastRotatedAt < COOLDOWN_S then w
    else if t.blocked then Rotate(w, t.rotation, t.standby).0
    else if w.standby.None? then Provision(w, t.standby)
    else w
  }

  function Watch(w: World, ts: seq<Tick>): World
    decreases |ts|
  {
    if ts == [] then w else Watch(Once(w, ts[0]), ts[1..])
  }

  // ----- Safety -----

  function Strays(faults: seq<Fault>): set<Id> { set f | f in faults :: f.id }

  function Opt(id: Option<Id>): set<Id> { if id.Some? then {id.value} else {} }

  /** Only the primary and one other instance exist, plus what was abandoned by a recorded fault;
      and the primary exists, or the one replacing it does and has shown two service processes, or the
      save after a swap raised. */
  predicate SnapSafe(p: Snap) {
    && p.live <= {p.primary} + Opt(if p.building.Some? then p.building else p.standby) + Strays(p.faults)
    && (p.primary in p.live || p.unsaved || (p.building.Some? && p.building.value in p.live && p.procs >= 2))
  }

  predicate LogSafe(log: seq<Snap>) {
    forall i :: 0 <= i < |log| ==> SnapSafe(log[i])
  }

  /** What holds whenever no command is running. */
  predicate AtRest(w: World) {
    && (w.primary in w.live <==> !w.unsaved)
    && w.standby != Some(w.primary)
    && w.live <= {w.primary} + Opt(w.standby) + Strays(w.faults)
    && w.live <= w.used && {w.primary} + Opt(w.standby) <= w.used
    && LogSafe(w.log)
  }

  /** The same while instance `id` is being brought up. */
  predicate Building(w: World, id: Id) {
    && (w.primary in w.live <==> !w.unsaved) && id in w.live && id != w.primary
    && w.standby != Some(w.primary)
    && w.live <= {w.primary, id} + Strays(w.faults)
    && w.live <= w.used && {w.primary} + Opt(w.standby) <= w.used
    && LogSafe(w.log)
  }

  /** The provider never hands out an id twice. */
  predicate FreshBoot(w: World, boot: Boot) { boot.Created? ==> boot.id !in w.used }

  predicate FreshRotation(w: World, r: RotateReplies, s: StandbyReplies) {
    FreshBoot(w, r.boot) && FreshBoot(RotateOnly(w, r).0, s.boot)
  }

  predicate FreshTick(w: World, t: Tick) {
    FreshRotation(w, t.rotation, t.standby) && FreshBoot(w, t.standby.boot)
  }

  ghost predicate FreshRun(w: World, ts: seq<Tick>)
    decreases |ts|
  {
    ts == [] || (FreshTick(w, ts[0]) && FreshRun(Once(w, ts[0]), ts[1..]))
  }

  lemma StraysAppend(faults: seq<Fault>, f: Fault)
    ensures Strays(faults + [f]) == Strays(faults) + {f.id}
  {}

  /** Leaving the instance behind, on record, is safe. */
  lemma AbandonSafe(w: World, id: Id, cause: Cause)
    requires Building(w, id)
    ensures AtRest(Note(Abandon(w, id, cause), None, 0))
    ensures w.live <= {w.primary} + Strays(w.faults + [Fault(id, cause)])
  {
    StraysAppend(w.faults, Fault(id, cause));
  }

  /** So is destroying it, whether or not the call works. */
  lemma DestroyNewSafe(w: World, id: Id, gone: bool)
    requires Building(w, id)
    ensures AtRest(Destroy(w, id, gone, None, 0))
    ensures Destroy(w, id, gone, None, 0).live <= {w.primary} + Strays(Destroy(w, id, gone, None, 0).faults)
  {
    StraysAppend(w.faults, Fault(id, DestroyFailed));
  }

  /** While the old primary is being destroyed, only the verified replacement is certain to be live. */
  lemma DestroyOldSafe(w: World, id: Id, r: RotateReplies)
    requires Building(w, id) && r.procs.Some? && r.procs.value >= 2
    ensures var w1 := Destroy(w, w.primary, r.oldGone, Some(id), r.procs.value);
      && LogSafe(w1.log) && id in w1.live && w1.live <= {w.primary, id} + Strays(w1.faults)
      && w1.used == w.used && w1.unsaved == w.unsaved && w1.primary == w.primary && w1.standby == w.standby
      && (w.primary in w1.live <==> w.primary in w.live && !r.oldGone)
      && (w.primary in w1.live ==> !r.oldGone && Strays(w1.faults) == Strays(w.faults) + {w.primary})
  {
    StraysAppend(w.faults, Fault(w.primary, DestroyFailed));
    var w1 := Destroy(w, w.primary, r.oldGone, Some(id), r.procs.value);
    assert SnapSafe(w1.log[|w.log|]);
  }

  lemma SwapSafe(w: World, id: Id, cold: bool, r: RotateReplies)
    requires Building(w, id) && r.procs.Some? && r.procs.value >= 2 && (!cold ==> w.standby == Some(id))
    ensures var (w1, outcome) := Swap(Destroy(w, w.primary, r.oldGone, Some(id), r.procs.value), id, cold, r);
      AtRest(w1) && (outcome.Done? <==> !r.saveRaised) && (outcome.Done? ==> w1.standby.None? && w1.primary == id)
  {
    DestroyOldSafe(w, id, r);
    StraysAppend(Destroy(w, w.primary, r.oldGone, Some(id), r.procs.value).faults, Fault(id, SaveRaised));
  }

  lemma CreateSafe(w: World, id: Id)
    requires AtRest(w) && id !in w.used && w.live <= {w.primary} + Strays(w.faults)
    ensures Building(Create(w, id), id)
  {}

  lemma BootSafe(w: World, boot: Boot, gone: bool)
    requires AtRest(w) && FreshBoot(w, boot)
    requires w.live <= {w.primary} + Strays(w.faults)
    ensures var (w1, booted) := BootNew(w, boot, gone);
      && w1.primary == w.primary && w1.standby == w.standby && w1.lastRotatedAt == w.lastRotatedAt
      && w1.unsaved == w.unsaved
      && w1.used == w.used + (if boot.Created? then {boot.id} else {})
      && (booted.Some? ==> Building(w1, booted.value) && booted.value == boot.id)
      && (booted.None? ==> AtRest(w1) && w1.live <= {w1.primary} + Strays(w1.faults))
  {
    if boot.Created? {
      CreateSafe(w, boot.id);
      AbandonSafe(Create(w, boot.id), boot.id, NeverActive);
      DestroyNewSafe(Create(w, boot.id), boot.id, gone);
    }
  }

  lemma GiveUpSafe(w: World, id: Id, cold: bool, cause: Cause)
    requires Building(w, id) && (!cold ==> w.standby == Some(id))
    ensures AtRest(GiveUp(w, id, cold, cause))
  {
    AbandonSafe(w, id, cause);
  }

  lemma PromoteSafe(w: World, id: Id, cold: bool, r: RotateReplies)
    requires Building(w, id)
    requires !cold ==> w.standby == Some(id)
    ensures var (w1, outcome) := Promote(w, id, cold, r);
      AtRest(w1) && (outcome.Done? ==> w1.standby.None? && w1.primary == id)
  {
    if r.rsyncRaised {
      GiveUpSafe(w, id, cold, RsyncRaised);
    } else if r.procs.None? {
      GiveUpSafe(w, id, cold, UnreadableCount);
    } else if r.procs.value < 2 {
      DestroyNewSafe(w, id, r.newGone);
    } else if r.cronRaised {
      GiveUpSafe(w, id, cold, CronRaised);
    } else {
      SwapSafe(w, id, cold, r);
    }
  }

  lemma RotateOnlySafe(w: World, r: RotateReplies)
    requires AtRest(w) && FreshBoot(w, r.boot)
    requires w.standby.Some? && r.standbyHealthy ==> w.standby.value in w.live
    ensures var (w1, outcome) := RotateOnly(w, r);
      AtRest(w1) && (outcome.Done? ==> w1.standby.None?)
  {
    var (w1, hot) := PickStandby(w, r);
    if w.standby.Some? { StraysAppend(w.faults, Fault(w.standby.value, DestroyFailed)); }
    if hot.Some? {
      PromoteSafe(w1, hot.value, false, r);
    } else {
      BootSafe(w1, r.boot, r.newGone);
      var (w2, booted) := BootNew(w1, r.boot, r.newGone);
      if booted.Some? { PromoteSafe(w2, booted.value, true, r); }
    }
  }

  lemma ProvisionSafe(w: World, r: StandbyReplies)
    requires AtRest(w) && w.standby.None? && FreshBoot(w, r.boot)
    ensures AtRest(Provision(w, r))
  {
    BootSafe(w, r.boot, r.gone);
    var (w1, booted) := BootNew(w, r.boot, r.gone);
    if booted.Some? {
      var id := booted.value;
      if r.rsyncRaised {
        GiveUpSafe(w1, id, true, RsyncRaised);
      } else if r.procs.None? {
        GiveUpSafe(w1, id, true, UnreadableCount);
      } else if r.procs.value < 1 || !r.healthy {
        DestroyNewSafe(w1, id, r.gone);
      } else if r.saveRaised {
        GiveUpSafe(w1, id, true, SaveRaised);
      } else {
        RegisterSafe(w1, id);
      }
    }
  }

  lemma RegisterSafe(w: World, id: Id)
    requires Building(w, id) && id in w.used
    ensures AtRest(Note(w.(standby := Some(id)), None, 0))
  {}

  /** A standby that answers its health check exists. */
  predicate HonestTick(w: World, t: Tick) {
    w.standby.Some? && t.rotation.standbyHealthy ==> w.standby.value in w.live
  }

  ghost predicate HonestRun(w: World, ts: seq<Tick>)
    decreases |ts|
  {
    ts == [] || (HonestTick(w, ts[0]) && HonestRun(Once(w, ts[0]), ts[1..]))
  }

  lemma OnceSafe(w: World, t: Tick)
    requires AtRest(w) && FreshTick(w, t) && HonestTick(w, t)
    ensures AtRest(Once(w, t))
  {
    if t.now - w.lastRotatedAt < COOLDOWN_S {
    } else if t.blocked {
      RotateOnlySafe(w, t.rotation);
      var (w1, outcome) := RotateOnly(w, t.rotation);
      if outcome.Done? { ProvisionSafe(w1, t.standby); }
    } else if w.standby.None? {
      ProvisionSafe(w, t.standby);
    }
  }

  /** Rotation safety over every run of the watch loop, whatever fails: at every moment the live
      instances are the primary, one standby or replacement, and abandoned ones each named by a
      recorded fault; and whenever a command has returned or failed, the primary on file is live unless
      the save after destroying it raised. */
  lemma {:induction false} WatchSafe(w: World, ts: seq<Tick>)
    requires AtRest(w) && FreshRun(w, ts) && HonestRun(w, ts)
    ensures AtRest(Watch(w, ts))
    decreases |ts|
  {
    if ts != [] {
      OnceSafe(w, ts[0]);
      WatchSafe(Once(w, ts[0]), ts[1..]);
    }
  }

  lemma {:induction false} StraysBound(faults: seq<Fault>)
    ensures |Strays(faults)| <= |faults|
  {
    if faults != [] {
      var k := |faults| - 1;
      StraysBound(faults[..k]);
      assert faults == faults[..k] + [faults[k]];
      StraysAppend(faults[..k], faults[k]);
    }
  }

  lemma SubsetSize(a: set<Id>, b: set<Id>)
    requires a <= b
    ensures |a| <= |b|
  {
    assert b == a + (b - a);
  }

  /** So never more than two instances exist beyond the number of faults so far; without faults,
      never more than two. */
  lemma AtMostTwoPlusFaults(w: World, ts: seq<Tick>, i: nat)
    requires AtRest(w) && FreshRun(w, ts) && HonestRun(w, ts) && i < |Watch(w, ts).log|
    ensures |Watch(w, ts).log[i].live| <= 2 + |Watch(w, ts).log[i].faults|
  {
    WatchSafe(w, ts);
    var p := Watch(w, ts).log[i];
    assert SnapSafe(p);
    StraysBound(p.faults);
    var other := Opt(if p.building.Some? then p.building else p.standby);
    SubsetSize(p.live, {p.primary} + other + Strays(p.faults));
    assert |{p.primary} + other| <= 2;
    assert |{p.primary} + other + Strays(p.faults)| <= |{p.primary} + other| + |Strays(p.faults)|;
  }

  // ----- What a fault costs -----

  /** The replies of a rotation with no fault in it. */
  predicate CleanRotation(r: RotateReplies) {
    && r.standbyGone && r.newGone && r.oldGone && !r.rsyncRaised && r.procs.Some? && !r.cronRaised && !r.saveRaised
    && (r.boot.Created? ==> r.boot.active)
  }

  predicate CleanStandby(s: StandbyReplies) {
    && s.gone && !s.rsyncRaised && s.procs.Some? && !s.saveRaised && (s.boot.Created? ==> s.boot.active)
  }

  predicate CleanTick(t: Tick) { CleanRotation(t.rotation) && CleanStandby(t.standby) }

  /** From `w` to `w1` no fault was added, and every new picture has the faults of `w`. */
  predicate AddsNoFault(w: World, w1: World) {
    && w1.faults == w.faults && w.log <= w1.log
    && forall i :: |w.log| <= i < |w1.log| ==> w1.log[i].faults == w.faults
  }

  lemma BootClean(w: World, boot: Boot)
    requires boot.Created? ==> boot.active
    ensures AddsNoFault(w, BootNew(w, boot, true).0)
  {}

  lemma PromoteClean(w: World, id: Id, cold: bool, r: RotateReplies)
    requires CleanRotation(r)
    ensures AddsNoFault(w, Promote(w, id, cold, r).0)
  {}

  lemma RotateOnlyClean(w: World, r: RotateReplies)
    requires CleanRotation(r)
    ensures AddsNoFault(w, RotateOnly(w, r).0)
  {
    var (w1, hot) := PickStandby(w, r);
    if hot.Some? {
      PromoteClean(w1, hot.value, false, r);
    } else {
      BootClean(w1, r.boot);
      var (w2, booted) := BootNew(w1, r.boot, true);
      if booted.Some? { PromoteClean(w2, booted.value, true, r); }
    }
  }

  lemma ProvisionClean(w: World, s: StandbyReplies)
    requires CleanStandby(s)
    ensures AddsNoFault(w, Provision(w, s))
  {
    BootClean(w, s.boot);
  }

  /** A tick adds to the fault list only if one of its replies was a fault. */
  lemma CleanTickAddsNoFault(w: World, t: Tick)
    requires CleanTick(t)
    ensures AddsNoFault(w, Once(w, t))
  {
    RotateOnlyClean(w, t.rotation);
    ProvisionClean(RotateOnly(w, t.rotation).0, t.standby);
    ProvisionClean(w, t.standby);
  }

  predicate FaultFree(w: World) { w.faults == [] && forall i :: 0 <= i < |w.log| ==> w.log[i].faults == [] }

  lemma {:induction false} CleanRunStaysFaultFree(w: World, ts: seq<Tick>)
    requires FaultFree(w) && forall i :: 0 <= i < |ts| ==> CleanTick(ts[i])
    ensures FaultFree(Watch(w, ts))
    decreases |ts|
  {
    if ts != [] {
      CleanTickAddsNoFault(w, ts[0]);
      CleanRunStaysFaultFree(Once(w, ts[0]), ts[1..]);
    }
  }

  /** Over every run whose calls all return, at most two instances are live at any moment: the primary
      and the standby, or the one being built. */
  lemma CleanRunKeepsTwo(w: World, ts: seq<Tick>, i: nat)
    requires AtRest(w) && FaultFree(w) && FreshRun(w, ts) && HonestRun(w, ts)
    requires (forall k :: 0 <= k < |ts| ==> CleanTick(ts[k])) && i < |Watch(w, ts).log|
    ensures var p := Watch(w, ts).log[i];
      |p.live| <= 2 && p.live <= {p.primary} + Opt(if p.building.Some? then p.building else p.standby)
  {
    CleanRunStaysFaultFree(w, ts);
    AtMostTwoPlusFaults(w, ts, i);
    WatchSafe(w, ts);
    assert SnapSafe(Watch(w, ts).log[i]);
  }

  predicate BootsCold(r: RotateReplies) { r.boot.Created? && r.boot.active && r.boot.sshReady }

  predicate Verified(r: RotateReplies) {
    !r.rsyncRaised && r.procs.Some? && r.procs.value >= 2 && !r.cronRaised
  }

  /** The rotation gets as far as destroying the old primary. */
  predicate Swaps(w: World, r: RotateReplies) {
    ((w.standby.Some? && r.standbyHealthy) || BootsCold(r)) && Verified(r)
  }

  /** One rotation from a live primary leaves the primary on file dead exactly when it destroyed it and
      then could not save the new state. */
  lemma PrimaryOnFileLiveIff(w: World, r: RotateReplies)
    requires AtRest(w) && !w.unsaved && FreshBoot(w, r.boot)
    requires w.standby.Some? && r.standbyHealthy ==> w.standby.value in w.live
    ensures var w1 := RotateOnly(w, r).0;
      w1.primary in w1.live <==> !(Swaps(w, r) && r.oldGone && r.saveRaised)
  {
    RotateOnlySafe(w, r);
  }

  lemma SavedTickStaysSaved(w: World, t: Tick)
    requires !w.unsaved && !t.rotation.saveRaised
    ensures !Once(w, t).unsaved
  {
    SavedRotationStaysSaved(w, t.rotation);
    ProvisionKeepsSaved(w, t.standby);
    ProvisionKeepsSaved(RotateOnly(w, t.rotation).0, t.standby);
  }

  lemma SavedRotationStaysSaved(w: World, r: RotateReplies)
    requires !w.unsaved && !r.saveRaised
    ensures !RotateOnly(w, r).0.unsaved
  {}

  lemma ProvisionKeepsSaved(w: World, s: StandbyReplies)
    ensures Provision(w, s).unsaved == w.unsaved
  {}

  /** Over every run of the watch loop in which no save after a swap raises, the primary on file is live. */
  lemma {:induction false} SavedPrimaryStaysLive(w: World, ts: seq<Tick>)
    requires AtRest(w) && !w.unsaved && FreshRun(w, ts) && HonestRun(w, ts)
    requires forall i :: 0 <= i < |ts| ==> !ts[i].rotation.saveRaised
    ensures Watch(w, ts).primary in Watch(w, ts).live
    decreases |ts|
  {
    if ts != [] {
      OnceSafe(w, ts[0]);
      SavedTickStaysSaved(w, ts[0]);
      SavedPrimaryStaysLive(Once(w, ts[0]), ts[1..]);
    }
  }

  predicate DeadStandby(w: World) { w.standby.Some? && w.standby.value !in w.live }

  predicate SameFile(w: World, out: (World, Outcome)) {
    out.1.Raised? && out.0.primary == w.primary && out.0.standby == w.standby
  }

  lemma DeadAfterHot(w: World, r: RotateReplies)
    requires AtRest(w) && w.standby.Some? && w.standby.value in w.live && r.standbyHealthy
    ensures DeadStandby(RotateOnly(w, r).0) <==> !r.rsyncRaised && r.procs.Some? && r.procs.value < 2 && r.newGone
    ensures DeadStandby(RotateOnly(w, r).0) ==> SameFile(w, RotateOnly(w, r))
  {
    assert RotateOnly(w, r) == Promote(w, w.standby.value, false, r);
  }

  lemma DeadAfterCold(w: World, r: RotateReplies)
    requires AtRest(w) && FreshBoot(w, r.boot) && w.standby.Some? && w.standby.value in w.live && !r.standbyHealthy
    ensures DeadStandby(RotateOnly(w, r).0) <==> r.standbyGone && !(BootsCold(r) && Verified(r) && !r.saveRaised)
    ensures DeadStandby(RotateOnly(w, r).0) ==> SameFile(w, RotateOnly(w, r))
  {
    var w1 := Destroy(w, w.standby.value, r.standbyGone, None, 0);
    var (w2, booted) := BootNew(w1, r.boot, r.newGone);
    assert RotateOnly(w, r) == if booted.None? then (w2, Raised) else Promote(w2, booted.value, true, r);
    assert booted.Some? <==> BootsCold(r);
    assert w2.standby == w.standby && (w.standby.value in w2.live <==> !r.standbyGone);
  }

  /** From a live standby on file, a rotation leaves a dead one there exactly in two cases: it took the
      healthy standby and destroyed it for want of service processes, or it destroyed the unhealthy one
      and the cold replacement did not get as far as a saved state. The file is then what it was. */
  lemma DeadStandbyOnFileIff(w: World, r: RotateReplies)
    requires AtRest(w) && FreshBoot(w, r.boot) && w.standby.Some? && w.standby.value in w.live
    ensures DeadStandby(RotateOnly(w, r).0) <==>
      if r.standbyHealthy then !r.rsyncRaised && r.procs.Some? && r.procs.value < 2 && r.newGone
      else r.standbyGone && !(BootsCold(r) && Verified(r) && !r.saveRaised)
    ensures DeadStandby(RotateOnly(w, r).0) ==> SameFile(w, RotateOnly(w, r))
  {
    if r.standbyHealthy { DeadAfterHot(w, r); } else { DeadAfterCold(w, r); }
  }

  /** As long as the primary is not blocked, no tick ever provisions a working standby again:
      while the file names one, dead or alive, the watch loop changes nothing. */
  lemma {:induction false} StaleStandbyIsNeverReplaced(w: World, ts: seq<Tick>)
    requires w.standby.Some? && forall i :: 0 <= i < |ts| ==> !ts[i].blocked
    ensures Watch(w, ts) == w
    decreases |ts|
  {
    if ts != [] { StaleStandbyIsNeverReplaced(w, ts[1..]); }
  }

  // ----- What one tick does, reply by reply -----

  /** The instance a rotation would promote: the standby if it answers, otherwise a new one. */
  function Candidate(w: World, r: RotateReplies): Option<Id> {
    if w.standby.Some? && r.standbyHealthy then w.standby
    else if r.boot.Created? && r.boot.active && r.boot.sshReady then Some(r.boot.id)
    else None
  }

  /** Everything after that works: cookies, two service processes, the cron line and the save. */
  predicate Promotes(w: World, r: RotateReplies) {
    && Candidate(w, r).Some? && !r.rsyncRaised && r.procs.Some? && r.procs.value >= 2
    && !r.cronRaised && !r.saveRaised
  }

  /** A new standby boots, is wired up with its collector running, answers, and is saved. */
  predicate StandbyComesUp(s: StandbyReplies) {
    && s.boot.Created? && s.boot.active && s.boot.sshReady && !s.rsyncRaised
    && s.procs.Some? && s.procs.value >= 1 && s.healthy && !s.saveRaised
  }

  lemma ProvisionIff(w: World, s: StandbyReplies)
    requires w.standby.None?
    ensures var w1 := Provision(w, s);
      && w1.primary == w.primary && w1.lastRotatedAt == w.lastRotatedAt
      && w1.standby == (if StandbyComesUp(s) then Some(s.boot.id) else None)
      && w1.live <= w.live + (if s.boot.Created? then {s.boot.id} else {})
      && (StandbyComesUp(s) ==> w1.live == w.live + {s.boot.id})
  {}

  predicate SameState(w: World, w1: World) {
    w1.primary == w.primary && w1.standby == w.standby && w1.lastRotatedAt == w.lastRotatedAt
  }

  lemma PromoteIff(w: World, id: Id, cold: bool, r: RotateReplies)
    ensures var (w1, outcome) := Promote(w, id, cold, r);
      if !r.rsyncRaised && r.procs.Some? && r.procs.value >= 2 && !r.cronRaised && !r.saveRaised then
        && w1.primary == id && w1.standby.None? && w1.lastRotatedAt == r.now && outcome.Done?
        && (r.oldGone ==> w.primary !in w1.live)
      else
        SameState(w, w1) && outcome.Raised?
  {}

  lemma BootIff(w: World, boot: Boot, gone: bool)
    ensures var (w1, booted) := BootNew(w, boot, gone);
      SameState(w, w1) && booted == if boot.Created? && boot.active && boot.sshReady then Some(boot.id) else None
  {}

  lemma RotateOnlyIff(w: World, r: RotateReplies)
    ensures var (w1, outcome) := RotateOnly(w, r);
      if Promotes(w, r) then
        && w1.primary == Candidate(w, r).value && w1.standby.None? && w1.lastRotatedAt == r.now && outcome.Done?
        && (r.oldGone ==> w.primary !in w1.live)
      else
        SameState(w, w1) && outcome.Raised?
  {
    var (w1, hot) := PickStandby(w, r);
    assert SameState(w, w1);
    if hot.Some? {
      PromoteIff(w1, hot.value, false, r);
    } else {
      BootIff(w1, r.boot, r.newGone);
      var (w2, booted) := BootNew(w1, r.boot, r.newGone);
      if booted.Some? { PromoteIff(w2, booted.value, true, r); }
    }
  }

  /** A tick within the minute after the last rotation does nothing. After that, a blocked primary is
      replaced by the candidate exactly when the promotion goes through; the rotation time is then that of
      the reply and the next standby is whichever comes up. Otherwise the file stays as it is. */
  lemma BlockedTickRotatesIff(w: World, t: Tick)
    requires t.blocked
    ensures var w1, r := Once(w, t), t.rotation;
      if t.now - w.lastRotatedAt >= 60 && Promotes(w, r) then
        && w1.primary == Candidate(w, r).value && w1.lastRotatedAt == r.now
        && w1.standby == if StandbyComesUp(t.standby) then Some(t.standby.boot.id) else None
      else
        SameState(w, w1)
    ensures t.now - w.lastRotatedAt < 60 ==> Once(w, t) == w
  {
    RotateOnlyIff(w, t.rotation);
    if Promotes(w, t.rotation) { ProvisionIff(RotateOnly(w, t.rotation).0, t.standby); }
  }

  /** The replaced primary is gone when its destroy works, and the new one is live. */
  lemma RotatedPrimaryIsGone(w: World, t: Tick)
    requires AtRest(w) && FreshTick(w, t) && HonestTick(w, t)
    requires t.blocked && t.now - w.lastRotatedAt >= 60 && Promotes(w, t.rotation)
    ensures t.rotation.oldGone ==> w.primary !in Once(w, t).live
    ensures Once(w, t).primary != w.primary && Once(w, t).primary in Once(w, t).live
  {
    var w1 := RotateOnly(w, t.rotation).0;
    RotateOnlyIff(w, t.rotation);
    RotateOnlySafe(w, t.rotation);
    ProvisionIff(w1, t.standby);
    ProvisionSafe(w1, t.standby);
    ProvisionKeepsSaved(w1, t.standby);
    assert w.primary in w1.used;
    assert !w1.unsaved;
  }

  /** A healthy primary without a standby gets one on such a tick exactly when it comes up; with a standby
      on file nothing is done. */
  lemma HealthyTickProvisionsIff(w: World, t: Tick)
    requires !t.blocked
    ensures var w1 := Once(w, t);
      if t.now - w.lastRotatedAt >= 60 && w.standby.None? then
        && w1.primary == w.primary && w1.lastRotatedAt == w.lastRotatedAt
        && w1.standby == (if StandbyComesUp(t.standby) then Some(t.standby.boot.id) else None)
        && (StandbyComesUp(t.standby) ==> w1.live == w.live + {t.standby.boot.id})
      else
        w1 == w
  {
    if w.standby.None? { ProvisionIff(w, t.standby); }
  }

  // ----- The rotator itself -----

  class Rotator {
    // the state file
    var id: Id
    var standbyId: Option<Id>
    var lastRotatedAt: int
    // the provider
    ghost var live: set<Id>
    ghost var used: set<Id>
    ghost var faults: seq<Fault>
    ghost var log: seq<Snap>
    ghost var unsaved: bool

    ghost function View(): World
      reads this
    {
      World(id, standbyId, lastRotatedAt, live, used, faults, log, unsaved)
    }

    constructor (id: Id)
      ensures View() == World(id, None, 0, {id}, {id}, [], [], false) && AtRest(View())
    {
      this.id, standbyId, lastRotatedAt := id, None, 0;
      live, used, faults, log, unsaved := {id}, {id}, [], [], false;
    }

    method TakeNote(ghost building: Option<Id>, ghost procs: nat)
      modifies this`log
      ensures View() == Note(old(View()), building, procs)
    {
      log := log + [Snap(live, id, standbyId, building, procs, faults, unsaved)];
    }

    method DestroyInstance(victim: Id, ghost gone: bool, ghost building: Option<Id>, ghost procs: nat)
      modifies this`live, this`faults, this`log
      ensures View() == Destroy(old(View()), victim, gone, building, procs)
    {
      if gone { live := live - {victim}; } else { faults := faults + [Fault(victim, DestroyFailed)]; }
      TakeNote(building, procs);
    }

    method GiveUpOn(victim: Id, cold: bool, ghost cause: Cause)
      modifies this`faults, this`log
      ensures View() == GiveUp(old(View()), victim, cold, cause)
    {
      if cold {
        faults := faults + [Fault(victim, cause)];
        TakeNote(None, 0);
      }
    }

    method BootInstance(boot: Boot, ghost gone: bool) returns (booted: Option<Id>)
      modifies this`live, this`used, this`faults, this`log
      ensures (View(), booted) == BootNew(old(View()), boot, gone)
    {
      if boot.CreateFailed? { return None; }
      live, used := live + {boot.id}, used + {boot.id};
      TakeNote(Some(boot.id), 0);
      if !boot.active {
        GiveUpOn(boot.id, true, NeverActive);
        return None;
      }
      if !boot.sshReady {
        DestroyInstance(boot.id, gone, None, 0);
        return None;
      }
      return Some(boot.id);
    }

    method PromoteInstance(newId: Id, cold: bool, r: RotateReplies) returns (outcome: Outcome)
      modifies this
      ensures (View(), outcome) == Promote(old(View()), newId, cold, r)
    {
      if r.rsyncRaised {
        GiveUpOn(newId, cold, RsyncRaised);
        return Raised;
      }
      if r.procs.None? {
        GiveUpOn(newId, cold, UnreadableCount);
        return Raised;
      }
      if r.procs.value < 2 {
        DestroyInstance(newId, r.newGone, None, 0);
        return Raised;
      }
      if r.cronRaised {
        GiveUpOn(newId, cold, CronRaised);
        return Raised;
      }
      DestroyInstance(id, r.oldGone, Some(newId), r.procs.value);
      if r.saveRaised {
        unsaved := unsaved || r.oldGone;
        if cold { faults := faults + [Fault(newId, SaveRaised)]; }
        TakeNote(None, 0);
        return Raised;
      }
      id, standbyId, lastRotatedAt := newId, None, r.now;
      unsaved := false;
      TakeNote(None, 0);
      return Done;
    }

    method RotateNow(r: RotateReplies, s: StandbyReplies) returns (outcome: Outcome)
      modifies this
      ensures (View(), outcome) == Rotate(old(View()), r, s)
    {
      var newId: Option<Id> := None;
      var cold := true;
      if standbyId.Some? {
        if r.standbyHealthy {
          newId, cold := standbyId, false;
        } else {
          DestroyInstance(standbyId.value, r.standbyGone, None, 0);
        }
      }
      if cold { newId := BootInstance(r.boot, r.newGone); }
      if newId.None? { return Raised; }
      outcome := PromoteInstance(newId.value, cold, r);
      if outcome.Done? { ProvisionStandby(s); }
    }

    method ProvisionStandby(s: StandbyReplies)
      modifies this
      ensures View() == Provision(old(View()), s)
    {
      if standbyId.Some? && s.stillHealthy { return; }
      var booted := BootInstance(s.boot, s.gone);
      if booted.None? { return; }
      if s.rsyncRaised {
        GiveUpOn(booted.value, true, RsyncRaised);
        return;
      }
      if s.procs.None? {
        GiveUpOn(booted.value, true, UnreadableCount);
        return;
      }
      if s.procs.value < 1 || !s.healthy {
        DestroyInstance(booted.value, s.gone, None, 0);
        return;
      }
      if s.saveRaised {
        GiveUpOn(booted.value, true, SaveRaised);
        return;
      }
      standbyId := booted;
      TakeNote(None, 0);
    }

    method RunOnce(t: Tick)
      modifies this
      ensures View() == Once(old(View()), t)
    {
      if t.now - lastRotatedAt < COOLDOWN_S { return; }
      if t.blocked {
        var _ := RotateNow(t.rotation, t.standby);
      } else if standbyId.None? {
        ProvisionStandby(t.standby);
      }
    }

    /** The daemon: whatever the replies, the primary on file is live unless the save after destroying
        it raised, and no instance keeps running that neither the file nor the fault list names. */
    method RunWatch(ts: seq<Tick>)
      requires AtRest(View()) && FreshRun(View(), ts) && HonestRun(View(), ts)
      modifies this
      ensures View() == Watch(old(View()), ts)
      ensures (id in live <==> !unsaved) && live <= {id} + Opt(standbyId) + Strays(faults)
      ensures LogSafe(log)
    {
      ghost var start := View();
      WatchSafe(start, ts);
      var i := 0;
      while i < |ts|
        invariant 0 <= i <= |ts|
        invariant Watch(View(), ts[i..]) == Watch(start, ts)
      {
        assert ts[i..][1..] == ts[i + 1..];
        RunOnce(ts[i]);
        i := i + 1;
      }
      assert ts[i..] == [];
    }
  }
}
