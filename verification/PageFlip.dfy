/**
 The page-flip protocol of the DRM backend: render requests, idle callbacks, VBlanks, pausing, resuming
 and device hotplug as interleaved steps.
 */
module PageFlip {

  type DevId = nat
  type Crtc = nat
  type Head = (DevId, Crtc)

  datatype Surface = Surface(flipPending: bool)
  datatype Device = Device(active: bool, surfaces: map<Crtc, Surface>)

  /** How one rendering ends: gated or without damage, queued, or refused by the driver; and whether it asks for another. */
  datatype Result = Skipped | Queued | Refused
  datatype Outcome = Outcome(result: Result, again: bool)

  /**
   `inFlight` is the hardware's view: the flips submitted and not completed.  `fault` records that a
   frame was queued on a head whose flip was in flight, or on a paused device.
   */
  datatype Kms = Kms(devices: map<DevId, Device>, idle: multiset<Head>, inFlight: set<Head>, fault: bool)

  predicate Known(s: Kms, d: DevId, c: Crtc) {
    d in s.devices && c in s.devices[d].surfaces
  }

  predicate Active(s: Kms, d: DevId) {
    d in s.devices && s.devices[d].active
  }

  predicate Pending(s: Kms, d: DevId, c: Crtc) {
    Known(s, d, c) && s.devices[d].surfaces[c].flipPending
  }

  function SetPending(s: Kms, d: DevId, c: Crtc, pending: bool): Kms
    requires Known(s, d, c)
  {
    s.(devices := s.devices[d := s.devices[d].(surfaces := s.devices[d].surfaces[c := Surface(pending)])])
  }

  function Heads(devices: map<DevId, Device>): set<Head> {
    set d, c | d in devices && c in devices[d].surfaces :: (d, c)
  }

  /** One idle callback per output. */
  function ScheduleRender(s: Kms): Kms {
    s.(idle := s.idle + multiset(Heads(s.devices)))
  }

  function QueueFrame(s: Kms, d: DevId, c: Crtc): Kms
    requires Known(s, d, c)
  {
    SetPending(s, d, c, true).(
      inFlight := s.inFlight + {(d, c)},
      fault := s.fault || (d, c) in s.inFlight || !s.devices[d].active)
  }

  function OnVblank(s: Kms, d: DevId, c: Crtc, o: Outcome): Kms {
    if !Active(s, d) || !Known(s, d, c) then s
    else
      var t := if o.result == Queued then QueueFrame(s, d, c) else s;
      if o.again then ScheduleRender(t) else t
  }

  /** An idle callback scheduled earlier. */
  function RunIdle(s: Kms, d: DevId, c: Crtc, o: Outcome): Kms {
    if s.idle[(d, c)] == 0 then s
    else
      var t := s.(idle := s.idle[(d, c) := s.idle[(d, c)] - 1]);
      if !Active(t, d) || !Known(t, d, c) || Pending(t, d, c) then t else OnVblank(t, d, c, o)
  }

  /** The completion event of a flip in flight, delivered even to a paused device. */
  function HandleVblank(s: Kms, d: DevId, c: Crtc, o: Outcome): Kms {
    if (d, c) !in s.inFlight then s
    else
      var t := s.(inFlight := s.inFlight - {(d, c)});
      OnVblank(if Known(t, d, c) then SetPending(t, d, c, false) else t, d, c, o)
  }

  function Pause(s: Kms): Kms {
    s.(devices := map d | d in s.devices :: s.devices[d].(active := false))
  }

  /** Connectors a rescan found, each on a CRTC of its own, and how their first rendering ended. */
  function SetupAll(s: Kms, d: DevId, found: seq<(Crtc, Outcome)>): Kms {
    if found == [] then s
    else
      var t := SetupAll(s, d, found[..|found| - 1]);
      var (c, o) := found[|found| - 1];
      if d !in t.devices then t
      else
        var u := t.(devices := t.devices[d := t.devices[d].(surfaces := t.devices[d].surfaces[c := Surface(false)])]);
        OnVblank(ScheduleRender(u), d, c, o)
  }

  function KickAll(s: Kms, d: DevId, kicks: seq<(Crtc, Outcome)>): Kms {
    if kicks == [] then s
    else OnVblank(KickAll(s, d, kicks[..|kicks| - 1]), d, kicks[|kicks| - 1].0, kicks[|kicks| - 1].1)
  }

  /** Re-activation: the kernel has discarded the device's flips, so every pending flag is cleared. */
  function Reactivated(s: Kms, d: DevId): Kms
    requires d in s.devices
  {
    var dev := s.devices[d];
    s.(devices := s.devices[d := Device(true, map c | c in dev.surfaces :: Surface(false))],
       inFlight := set h | h in s.inFlight && h.0 != d)
  }

  function ResumeDevice(s: Kms, d: DevId, ok: bool, found: seq<(Crtc, Outcome)>, kicks: seq<(Crtc, Outcome)>): Kms {
    if d !in s.devices || s.devices[d].active || !ok then s
    else KickAll(SetupAll(Reactivated(s, d), d, found), d, kicks)
  }

  function RemoveDevice(s: Kms, d: DevId): Kms {
    s.(devices := s.devices - {d}, inFlight := set h | h in s.inFlight && h.0 != d)
  }

  datatype Step =
    | Schedule
    | Idle(d: DevId, c: Crtc, o: Outcome)
    | Vblank(d: DevId, c: Crtc, o: Outcome)
    | PauseAll
    | Resume(d: DevId, ok: bool, found: seq<(Crtc, Outcome)>, kicks: seq<(Crtc, Outcome)>)
    | Rescan(d: DevId, found: seq<(Crtc, Outcome)>)
    | DeviceAdded(d: DevId, found: seq<(Crtc, Outcome)>)
    | DeviceRemoved(d: DevId)

  /** CRTCs taken by a rescan are distinct and drive no output yet (see `Connectors`). */
  predicate Unclaimed(surfaces: map<Crtc, Surface>, found: seq<(Crtc, Outcome)>) {
    && (forall i :: 0 <= i < |found| ==> found[i].0 !in surfaces)
    && (forall i, j :: 0 <= i < j < |found| ==> found[i].0 != found[j].0)
  }

  /** After a resume every output the device then has is rendered once. */
  predicate KicksEach(s: Kms, d: DevId, kicks: seq<(Crtc, Outcome)>) {
    && d in s.devices
    && (forall i :: 0 <= i < |kicks| ==> kicks[i].0 in s.devices[d].surfaces)
    && (forall c :: c in s.devices[d].surfaces ==> exists i :: 0 <= i < |kicks| && kicks[i].0 == c)
    && (forall i, j :: 0 <= i < j < |kicks| ==> kicks[i].0 != kicks[j].0)
  }

  predicate Possible(s: Kms, step: Step) {
    match step
    case Resume(d, _, found, kicks) =>
      d in s.devices ==> Unclaimed(s.devices[d].surfaces, found) && KicksEach(SetupAll(Reactivated(s, d), d, found), d, kicks)
    case Rescan(d, found) => d in s.devices && Unclaimed(s.devices[d].surfaces, found)
    case DeviceAdded(d, found) => d !in s.devices && Unclaimed(map[], found)
    case _ => true
  }

  function Next(s: Kms, step: Step): Kms {
    if !Possible(s, step) then s
    else
      match step
      case Schedule => ScheduleRender(s)
      case Idle(d, c, o) => RunIdle(s, d, c, o)
      case Vblank(d, c, o) => HandleVblank(s, d, c, o)
      case PauseAll => Pause(s)
      case Resume(d, ok, found, kicks) => ResumeDevice(s, d, ok, found, kicks)
      case Rescan(d, found) => SetupAll(s, d, found)
      case DeviceAdded(d, found) => SetupAll(s.(devices := s.devices[d := Device(true, map[])]), d, found)
      case DeviceRemoved(d) => RemoveDevice(s, d)
  }

  function Run(s: Kms, steps: seq<Step>): Kms {
    if steps == [] then s else Next(Run(s, steps[..|steps| - 1]), steps[|steps| - 1])
  }

  const Start: Kms := Kms(map[], multiset{}, {}, false)

  // Safety.

  /** The flag kept per output says exactly whether its flip is in flight. */
  ghost predicate Synced(s: Kms) {
    && !s.fault
    && forall d: DevId, c: Crtc :: (d, c) in s.inFlight <==> Pending(s, d, c)
  }

  lemma OnVblankSynced(s: Kms, d: DevId, c: Crtc, o: Outcome)
    requires Synced(s) && !Pending(s, d, c)
    ensures Synced(OnVblank(s, d, c, o))
    ensures forall e: DevId, b: Crtc :: (e, b) != (d, c) ==> (Pending(OnVblank(s, d, c, o), e, b) <==> Pending(s, e, b))
    ensures forall e: DevId, b: Crtc :: Known(OnVblank(s, d, c, o), e, b) <==> Known(s, e, b)
    ensures OnVblank(s, d, c, o).devices.Keys == s.devices.Keys
  {
  }

  lemma {:induction false} SetupAllSynced(s: Kms, d: DevId, found: seq<(Crtc, Outcome)>)
    requires Synced(s) && d in s.devices && Unclaimed(s.devices[d].surfaces, found)
    ensures var t := SetupAll(s, d, found);
            && Synced(t) && d in t.devices
            && forall c: Crtc :: Known(t, d, c) ==> Known(s, d, c) || exists i :: 0 <= i < |found| && found[i].0 == c
  {
    if found != [] {
      var n := |found| - 1;
      SetupAllSynced(s, d, found[..n]);
      var t := SetupAll(s, d, found[..n]);
      var (c, o) := found[n];
      assert !Known(t, d, c);
      var u := t.(devices := t.devices[d := t.devices[d].(surfaces := t.devices[d].surfaces[c := Surface(false)])]);
      assert Synced(ScheduleRender(u));
      OnVblankSynced(ScheduleRender(u), d, c, o);
    }
  }

  /** Rendering a list of distinct outputs none of whose flips is in flight. */
  lemma {:induction false} KickAllSynced(s: Kms, d: DevId, kicks: seq<(Crtc, Outcome)>)
    requires Synced(s)
    requires forall i, j :: 0 <= i < j < |kicks| ==> kicks[i].0 != kicks[j].0
    requires forall i :: 0 <= i < |kicks| ==> !Pending(s, d, kicks[i].0)
    ensures Synced(KickAll(s, d, kicks))
    ensures forall c: Crtc :: (forall i :: 0 <= i < |kicks| ==> kicks[i].0 != c) ==> !Pending(s, d, c) ==> !Pending(KickAll(s, d, kicks), d, c)
  {
    if kicks != [] {
      var n := |kicks| - 1;
      KickAllSynced(s, d, kicks[..n]);
      OnVblankSynced(KickAll(s, d, kicks[..n]), d, kicks[n].0, kicks[n].1);
    }
  }

  lemma ReactivatedSynced(s: Kms, d: DevId)
    requires Synced(s) && d in s.devices
    ensures Synced(Reactivated(s, d)) && d in Reactivated(s, d).devices
    ensures forall c: Crtc :: !Pending(Reactivated(s, d), d, c)
    ensures forall c: Crtc :: Known(Reactivated(s, d), d, c) <==> Known(s, d, c)
  {
  }

  /** A step that is not a resume finding new connectors. */
  predicate Quiet(step: Step) {
    step.Resume? ==> step.found == []
  }

  lemma NextSynced(s: Kms, step: Step)
    requires Synced(s) && Quiet(step)
    ensures Synced(Next(s, step))
  {
    hide OnVblank, SetupAll, KickAll, Reactivated, KicksEach;
    if Possible(s, step) {
      match step
      case Schedule =>
      case Idle(d, c, o) =>
        if s.idle[(d, c)] > 0 {
          var t := s.(idle := s.idle[(d, c) := s.idle[(d, c)] - 1]);
          if Active(t, d) && Known(t, d, c) && !Pending(t, d, c) {
            OnVblankSynced(t, d, c, o);
          }
        }
      case Vblank(d, c, o) =>
        if (d, c) in s.inFlight {
          var t := s.(inFlight := s.inFlight - {(d, c)});
          assert Pending(s, d, c);
          OnVblankSynced(SetPending(t, d, c, false), d, c, o);
        }
      case PauseAll =>
      case Resume(d, ok, found, kicks) =>
        if d in s.devices && !s.devices[d].active && ok {
          ResumeSynced(s, d, ok, kicks);
        }
      case Rescan(d, found) => SetupAllSynced(s, d, found);
      case DeviceAdded(d, found) =>
        SetupAllSynced(s.(devices := s.devices[d := Device(true, map[])]), d, found);
      case DeviceRemoved(d) =>
    }
  }

  lemma ResumeSynced(s: Kms, d: DevId, ok: bool, kicks: seq<(Crtc, Outcome)>)
    requires Synced(s) && d in s.devices && !s.devices[d].active && ok
    requires KicksEach(SetupAll(Reactivated(s, d), d, []), d, kicks)
    ensures Synced(ResumeDevice(s, d, ok, [], kicks))
  {
    hide OnVblank, KickAll, Reactivated;
    ReactivatedSynced(s, d);
    KickAllSynced(Reactivated(s, d), d, kicks);
  }

  /**
   Over every interleaving in which no resume finds a new connector, no frame is ever queued on an
   output whose previous flip is in flight, and none on a paused device.
   */
  lemma {:induction false} FlipsNeverOverlap(steps: seq<Step>)
    requires forall i :: 0 <= i < |steps| ==> Quiet(steps[i])
    ensures Synced(Run(Start, steps))
  {
    hide Next, Quiet;
    if steps != [] {
      var n := |steps| - 1;
      FlipsNeverOverlap(steps[..n]);
      NextSynced(Run(Start, steps[..n]), steps[n]);
    }
  }

  // Resuming with new connectors.

  /** The flags match the hardware, whether or not a fault has happened. */
  ghost predicate Matched(s: Kms) {
    forall d: DevId, c: Crtc :: (d, c) in s.inFlight <==> Pending(s, d, c)
  }

  lemma OnVblankEffect(s: Kms, d: DevId, c: Crtc, o: Outcome)
    requires Matched(s) && Active(s, d) && Known(s, d, c)
    ensures var t := OnVblank(s, d, c, o);
            && Matched(t) && Active(t, d)
            && (t.fault <==> s.fault || (o.result == Queued && Pending(s, d, c)))
            && (forall b: Crtc :: Pending(t, d, b) <==> Pending(s, d, b) || (b == c && o.result == Queued))
            && (forall b: Crtc :: Known(t, d, b) <==> Known(s, d, b))
  {
  }

  ghost predicate Queues(list: seq<(Crtc, Outcome)>, c: Crtc) {
    exists i :: 0 <= i < |list| && list[i].0 == c && list[i].1.result == Queued
  }

  ghost predicate Names(list: seq<(Crtc, Outcome)>, c: Crtc) {
    exists i :: 0 <= i < |list| && list[i].0 == c
  }

  lemma NamesSnoc(list: seq<(Crtc, Outcome)>, n: nat, c: Crtc)
    requires |list| == n + 1
    ensures Names(list, c) <==> Names(list[..n], c) || list[n].0 == c
  {
    if Names(list[..n], c) {
      var i :| 0 <= i < n && list[..n][i].0 == c;
      assert list[i].0 == c;
    }
    if Names(list, c) {
      var i :| 0 <= i < |list| && list[i].0 == c;
      if i < n {
        assert list[..n][i].0 == c;
      }
    }
  }

  lemma QueuesSnoc(list: seq<(Crtc, Outcome)>, n: nat, c: Crtc)
    requires |list| == n + 1
    ensures Queues(list, c) <==> Queues(list[..n], c) || (list[n].0 == c && list[n].1.result == Queued)
  {
    if Queues(list[..n], c) {
      var i :| 0 <= i < n && list[..n][i].0 == c && list[..n][i].1.result == Queued;
      assert list[i].0 == c;
    }
    if Queues(list, c) {
      var i :| 0 <= i < |list| && list[i].0 == c && list[i].1.result == Queued;
      if i < n {
        assert list[..n][i].0 == c;
      }
    }
  }

  lemma {:induction false} SetupAllEffect(s: Kms, d: DevId, found: seq<(Crtc, Outcome)>)
    requires Matched(s) && Active(s, d) && Unclaimed(s.devices[d].surfaces, found)
    ensures var t := SetupAll(s, d, found);
            && Matched(t) && Active(t, d) && t.fault == s.fault
            && (forall b: Crtc :: Pending(t, d, b) <==> Pending(s, d, b) || Queues(found, b))
            && (forall b: Crtc :: Known(t, d, b) <==> Known(s, d, b) || Names(found, b))
  {
    hide OnVblank;
    if found != [] {
      var n := |found| - 1;
      SetupAllEffect(s, d, found[..n]);
      var t := SetupAll(s, d, found[..n]);
      var (c, o) := found[n];
      assert !Known(t, d, c);
      var u := ScheduleRender(t.(devices := t.devices[d := t.devices[d].(surfaces := t.devices[d].surfaces[c := Surface(false)])]));
      forall b: Crtc
        ensures Pending(u, d, b) <==> Pending(t, d, b)
      {
      }
      OnVblankEffect(u, d, c, o);
      forall b: Crtc
        ensures Queues(found, b) <==> Queues(found[..n], b) || (found[n].0 == b && found[n].1.result == Queued)
      {
        QueuesSnoc(found, n, b);
      }
      forall b: Crtc
        ensures Names(found, b) <==> Names(found[..n], b) || found[n].0 == b
      {
        NamesSnoc(found, n, b);
      }
      hide Queues, Names;
    }
  }

  lemma {:induction false} KickAllEffect(s: Kms, d: DevId, kicks: seq<(Crtc, Outcome)>)
    requires Matched(s) && Active(s, d)
    requires forall i :: 0 <= i < |kicks| ==> Known(s, d, kicks[i].0)
    requires forall i, j :: 0 <= i < j < |kicks| ==> kicks[i].0 != kicks[j].0
    ensures var t := KickAll(s, d, kicks);
            && Matched(t) && Active(t, d)
            && (t.fault <==> s.fault || exists i :: 0 <= i < |kicks| && kicks[i].1.result == Queued && Pending(s, d, kicks[i].0))
            && (forall b: Crtc :: Pending(t, d, b) <==> Pending(s, d, b) || Queues(kicks, b))
            && (forall b: Crtc :: Known(t, d, b) <==> Known(s, d, b))
  {
    hide OnVblank;
    if kicks != [] {
      var n := |kicks| - 1;
      KickAllEffect(s, d, kicks[..n]);
      OnVblankEffect(KickAll(s, d, kicks[..n]), d, kicks[n].0, kicks[n].1);
      assert !Queues(kicks[..n], kicks[n].0);
      forall b: Crtc
        ensures Queues(kicks, b) <==> Queues(kicks[..n], b) || (kicks[n].0 == b && kicks[n].1.result == Queued)
      {
        QueuesSnoc(kicks, n, b);
      }
      hide Queues;
    }
  }

  /**
   Exactly when a resume goes wrong: some new connector's first rendering queued a frame, and so did
   the rendering that every output of the device, the new ones included, gets right after.
   */
  lemma ResumeFaults(s: Kms, d: DevId, found: seq<(Crtc, Outcome)>, kicks: seq<(Crtc, Outcome)>)
    requires Synced(s) && d in s.devices && !s.devices[d].active
    requires Possible(s, Resume(d, true, found, kicks))
    ensures ResumeDevice(s, d, true, found, kicks).fault
            <==> exists i :: 0 <= i < |kicks| && kicks[i].1.result == Queued && Queues(found, kicks[i].0)
  {
    hide SetupAll, KickAll, Queues;
    ReactivatedSynced(s, d);
    SetupAllEffect(Reactivated(s, d), d, found);
    KickAllEffect(SetupAll(Reactivated(s, d), d, found), d, kicks);
  }

  function AllQueued(list: seq<(Crtc, Outcome)>): (r: seq<(Crtc, Outcome)>)
    ensures |r| == |list|
    ensures forall i :: 0 <= i < |list| ==> r[i] == (list[i].0, Outcome(Queued, false))
  {
    if list == [] then [] else AllQueued(list[..|list| - 1]) + [(list[|list| - 1].0, Outcome(Queued, false))]
  }

  /** So a resume is safe however its renderings end if and only if its rescan finds no new connector. */
  lemma ResumeSafeIff(s: Kms, d: DevId, found: seq<(Crtc, Outcome)>, kicks: seq<(Crtc, Outcome)>)
    requires Synced(s) && d in s.devices && !s.devices[d].active
    requires Possible(s, Resume(d, true, found, kicks))
    ensures found == [] ==> !ResumeDevice(s, d, true, found, kicks).fault
    ensures found != [] ==>
      && Possible(s, Resume(d, true, AllQueued(found), AllQueued(kicks)))
      && ResumeDevice(s, d, true, AllQueued(found), AllQueued(kicks)).fault
  {
    hide SetupAll, KickAll, ResumeDevice;
    ReactivatedSynced(s, d);
    ResumeFaults(s, d, found, kicks);
    if found != [] {
      var r := Reactivated(s, d);
      var fs, ks := AllQueued(found), AllQueued(kicks);
      SetupAllEffect(r, d, found);
      SetupAllEffect(r, d, fs);
      var t, u := SetupAll(r, d, found), SetupAll(r, d, fs);
      forall b: Crtc
        ensures Known(u, d, b) <==> Known(t, d, b)
      {
        SameNames(found, fs, b);
      }
      assert Names(found, found[0].0);
      assert Known(t, d, found[0].0);
      KicksCarryOver(t, u, d, kicks, ks);
      var i :| 0 <= i < |kicks| && kicks[i].0 == found[0].0;
      assert fs[0].0 == ks[i].0 && fs[0].1.result == Queued;
      assert Queues(fs, ks[i].0);
      ResumeFaults(s, d, fs, ks);
    }
  }

  lemma SameNames(a: seq<(Crtc, Outcome)>, b: seq<(Crtc, Outcome)>, c: Crtc)
    requires |a| == |b| && forall i :: 0 <= i < |a| ==> a[i].0 == b[i].0
    ensures Names(a, c) <==> Names(b, c)
  {
    if Names(a, c) {
      var i :| 0 <= i < |a| && a[i].0 == c;
      assert b[i].0 == c;
    }
  }

  lemma KicksCarryOver(t: Kms, u: Kms, d: DevId, kicks: seq<(Crtc, Outcome)>, ks: seq<(Crtc, Outcome)>)
    requires KicksEach(t, d, kicks) && d in u.devices && ks == AllQueued(kicks)
    requires forall b: Crtc :: Known(u, d, b) <==> Known(t, d, b)
    ensures KicksEach(u, d, ks)
  {
    forall i | 0 <= i < |ks|
      ensures ks[i].0 in u.devices[d].surfaces
    {
      assert Known(t, d, kicks[i].0);
    }
    forall c | c in u.devices[d].surfaces
      ensures exists i :: 0 <= i < |ks| && ks[i].0 == c
    {
      assert Known(u, d, c);
      assert Known(t, d, c);
      var i :| 0 <= i < |kicks| && kicks[i].0 == c;
      assert ks[i].0 == c;
    }
  }

  // The backend that updates all this in place.

  lemma DevicesPossible(s: Kms, step: Step)
    requires Possible(s, step)
    ensures step.Rescan? ==> step.d in s.devices
    ensures step.DeviceAdded? ==> step.d !in s.devices
  {
  }

  lemma NothingIdle(s: Kms, d: DevId, c: Crtc, o: Outcome)
    ensures (d, c) !in s.idle ==> RunIdle(s, d, c, o) == s
  {
  }

  class Backend {
    var devices: map<DevId, Device>
    /** Idle callbacks waiting in the event loop. */
    var idle: multiset<Head>
    ghost var inFlight: set<Head>
    ghost var fault: bool

    ghost function Abs(): Kms
      reads this
    {
      Kms(devices, idle, inFlight, fault)
    }

    constructor ()
      ensures Abs() == Start
    {
      devices, idle, inFlight, fault := map[], multiset{}, {}, false;
    }

    method RequestRender()
      modifies this`idle
      ensures Abs() == ScheduleRender(old(Abs()))
    {
      idle := idle + multiset(Heads(devices));
    }

    method SetFlag(d: DevId, c: Crtc, pending: bool)
      requires Known(Abs(), d, c)
      modifies this`devices
      ensures Abs() == SetPending(old(Abs()), d, c, pending)
    {
      var dev := devices[d];
      devices := devices[d := dev.(surfaces := dev.surfaces[c := Surface(pending)])];
    }

    /** The guard and the queueing of one rendering; `o` is how the rendering itself ends. */
    method Render(d: DevId, c: Crtc, o: Outcome)
      modifies this
      ensures Abs() == OnVblank(old(Abs()), d, c, o)
    {
      if d !in devices || !devices[d].active || c !in devices[d].surfaces {
        return;
      }
      if o.result == Queued {
        fault := fault || (d, c) in inFlight || !devices[d].active;
        inFlight := inFlight + {(d, c)};
        SetFlag(d, c, true);
      }
      if o.again {
        RequestRender();
      }
    }

    method IdleCallback(d: DevId, c: Crtc, o: Outcome)
      requires (d, c) in idle
      modifies this
      ensures Abs() == RunIdle(old(Abs()), d, c, o)
    {
      idle := idle[(d, c) := idle[(d, c)] - 1];
      if d !in devices || !devices[d].active {
        return;
      }
      var flipPending := if c in devices[d].surfaces then devices[d].surfaces[c].flipPending else true;
      if !flipPending {
        Render(d, c, o);
      }
    }

    method VblankEvent(d: DevId, c: Crtc, o: Outcome)
      requires (d, c) in inFlight
      modifies this
      ensures Abs() == HandleVblank(old(Abs()), d, c, o)
    {
      inFlight := inFlight - {(d, c)};
      if d in devices && c in devices[d].surfaces {
        SetFlag(d, c, false);
      }
      Render(d, c, o);
    }

    method PauseDevices()
      modifies this`devices
      ensures Abs() == Pause(old(Abs()))
    {
      var todo := devices.Keys;
      while todo != {}
        invariant todo <= devices.Keys == old(devices).Keys
        invariant forall d :: d in devices ==>
          devices[d] == if d in todo then old(devices)[d] else old(devices)[d].(active := false)
      {
        var d :| d in todo;
        devices := devices[d := devices[d].(active := false)];
        todo := todo - {d};
      }
      assert devices == (map d | d in old(devices) :: old(devices)[d].(active := false));
    }

    method SetupConnectors(d: DevId, found: seq<(Crtc, Outcome)>)
      requires d in devices
      modifies this
      ensures Abs() == SetupAll(old(Abs()), d, found) && d in devices
    {
      var k := 0;
      while k < |found|
        invariant k <= |found| && d in devices
        invariant Abs() == SetupAll(old(Abs()), d, found[..k])
      {
        assert found[..k + 1][..k] == found[..k];
        var dev := devices[d];
        devices := devices[d := dev.(surfaces := dev.surfaces[found[k].0 := Surface(false)])];
        RequestRender();
        Render(d, found[k].0, found[k].1);
        k := k + 1;
      }
      assert found[..k] == found;
    }

    /** The rendering every output of a device gets after a resume. */
    method KickOutputs(d: DevId, kicks: seq<(Crtc, Outcome)>)
      modifies this
      ensures Abs() == KickAll(old(Abs()), d, kicks)
    {
      hide OnVblank;
      var k := 0;
      while k < |kicks|
        invariant k <= |kicks|
        invariant Abs() == KickAll(old(Abs()), d, kicks[..k])
      {
        assert kicks[..k + 1][..k] == kicks[..k];
        Render(d, kicks[k].0, kicks[k].1);
        k := k + 1;
      }
      assert kicks[..k] == kicks;
    }

    /** Session resume for one device. */
    method ResumeOne(d: DevId, ok: bool, found: seq<(Crtc, Outcome)>, kicks: seq<(Crtc, Outcome)>)
      modifies this
      ensures Abs() == ResumeDevice(old(Abs()), d, ok, found, kicks)
    {
      hide SetupAll, KickAll;
      if d !in devices || devices[d].active || !ok {
        return;
      }
      var dev := devices[d];
      devices := devices[d := Device(true, map c | c in dev.surfaces :: Surface(false))];
      inFlight := set h | h in inFlight && h.0 != d;
      assert Abs() == Reactivated(old(Abs()), d);
      SetupConnectors(d, found);
      KickOutputs(d, kicks);
    }

    method AddDevice(d: DevId, found: seq<(Crtc, Outcome)>)
      requires d !in devices
      modifies this
      ensures Abs() == SetupAll(old(Abs()).(devices := old(devices)[d := Device(true, map[])]), d, found)
    {
      devices := devices[d := Device(true, map[])];
      SetupConnectors(d, found);
    }

    method DropDevice(d: DevId)
      modifies this
      ensures Abs() == RemoveDevice(old(Abs()), d)
    {
      devices := devices - {d};
      inFlight := set h | h in inFlight && h.0 != d;
    }

    /** Any step of the protocol, in place; the driver completes only flips in flight. */
    method Perform(step: Step)
      requires Possible(Abs(), step) && (step.Vblank? ==> (step.d, step.c) in inFlight)
      modifies this
      ensures Abs() == Next(old(Abs()), step)
    {
      hide Possible, ScheduleRender, RunIdle, HandleVblank, Pause, ResumeDevice, SetupAll, RemoveDevice;
      assert step.Rescan? ==> step.d in devices by { DevicesPossible(Abs(), step); }
      assert step.DeviceAdded? ==> step.d !in devices by { DevicesPossible(Abs(), step); }
      match step
      case Schedule => RequestRender();
      case Idle(d, c, o) =>
        if (d, c) in idle {
          IdleCallback(d, c, o);
        } else {
          NothingIdle(Abs(), d, c, o);
        }
      case Vblank(d, c, o) =>
        VblankEvent(d, c, o);
      case PauseAll => PauseDevices();
      case Resume(d, ok, found, kicks) => ResumeOne(d, ok, found, kicks);
      case Rescan(d, found) => SetupConnectors(d, found);
      case DeviceAdded(d, found) => AddDevice(d, found);
      case DeviceRemoved(d) => DropDevice(d);
    }
  }
}
