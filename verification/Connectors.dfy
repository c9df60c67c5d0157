/** Assigning CRTCs to the connected connectors of a device during one rescan. */
module Connectors {
  import opened Sequences
  import opened PageFlip

  /** A connector: its handle, whether a display is attached, whether it has a mode, and its compatible CRTCs in encoder order. */
  datatype Connector = Connector(handle: nat, connected: bool, hasMode: bool, crtcs: seq<Crtc>)

  predicate Usable(c: Connector) {
    c.connected && c.hasMode
  }

  /** The first compatible CRTC that nothing uses yet. */
  function FirstFree(crtcs: seq<Crtc>, taken: set<Crtc>): (r: Option<Crtc>)
    ensures r.Some? ==> r.value in crtcs && r.value !in taken
    ensures r.None? ==> forall c :: c in crtcs ==> c in taken
  {
    if crtcs == [] then None
    else if crtcs[0] !in taken then Some(crtcs[0])
    else FirstFree(crtcs[1..], taken)
  }

  /** A connector that got a CRTC. */
  datatype Claim = Claim(handle: nat, crtc: Crtc)

  function Used(claims: seq<Claim>): (r: set<Crtc>)
    ensures forall c :: c in r <==> exists i :: 0 <= i < |claims| && claims[i].crtc == c
  {
    if claims == [] then {}
    else
      assert forall i :: 0 <= i < |claims| ==> claims[i] == (claims[..|claims| - 1] + [claims[|claims| - 1]])[i];
      Used(claims[..|claims| - 1]) + {claims[|claims| - 1].crtc}
  }

  /** A claim names a usable connector and one of its CRTCs. */
  ghost predicate Granted(connectors: seq<Connector>, claims: seq<Claim>) {
    forall claim :: claim in claims ==> exists c :: c in connectors && Grants(c, claim)
  }

  /** A usable connector goes without only if all its CRTCs are taken. */
  ghost predicate Served(connectors: seq<Connector>, driven: set<Crtc>, claims: seq<Claim>) {
    forall c :: c in connectors && Usable(c) ==>
      (exists claim :: claim in claims && Grants(c, claim)) || forall r :: r in c.crtcs ==> r in driven || r in Used(claims)
  }

  ghost predicate Exclusive(driven: set<Crtc>, claims: seq<Claim>) {
    && (forall i, j :: 0 <= i < j < |claims| ==> claims[i].crtc != claims[j].crtc)
    && (forall i :: 0 <= i < |claims| ==> claims[i].crtc !in driven)
  }

  /** What a rescan must deliver: besides that, every CRTC drives at most one output. */
  ghost predicate Fair(connectors: seq<Connector>, driven: set<Crtc>, claims: seq<Claim>) {
    && Exclusive(driven, claims)
    && Granted(connectors, claims)
    && Served(connectors, driven, claims)
  }

  predicate Grants(c: Connector, claim: Claim) {
    Usable(c) && claim.handle == c.handle && claim.crtc in c.crtcs
  }

  lemma UsedGrows(claims: seq<Claim>, claim: Claim)
    ensures Used(claims + [claim]) == Used(claims) + {claim.crtc}
  {
    assert (claims + [claim])[..|claims|] == claims;
  }

  /** What a scan claims, connector by connector; whether one already drives an output plays no part. */
  function ClaimsOf(connectors: seq<Connector>, driven: set<Crtc>): (claims: seq<Claim>)
    ensures Fair(connectors, driven, claims)
  {
    if connectors == [] then []
    else
      var k := |connectors| - 1;
      var before := ClaimsOf(connectors[..k], driven);
      var c := connectors[k];
      var free := FirstFree(c.crtcs, driven + Used(before));
      var claims := if Usable(c) && free.Some? then before + [Claim(c.handle, free.value)] else before;
      FairNext(connectors, driven, before, claims, k);
      assert connectors[..k + 1] == connectors;
      claims
  }

  method CollectConnInfos(connectors: seq<Connector>, driven: set<Crtc>) returns (claims: seq<Claim>)
    ensures claims == ClaimsOf(connectors, driven) && Fair(connectors, driven, claims)
  {
    hide Fair;
    claims := [];
    var claimed: set<Crtc> := {};
    for k := 0 to |connectors|
      invariant claimed == Used(claims)
      invariant claims == ClaimsOf(connectors[..k], driven)
    {
      assert connectors[..k + 1][..k] == connectors[..k];
      var c := connectors[k];
      if Usable(c) {
        var crtc := FirstFree(c.crtcs, driven + claimed);
        if crtc.Some? {
          UsedGrows(claims, Claim(c.handle, crtc.value));
          claimed := claimed + {crtc.value};
          claims := claims + [Claim(c.handle, crtc.value)];
        }
      }
    }
    assert connectors[..|connectors|] == connectors;
  }

  lemma ServedNext(connectors: seq<Connector>, driven: set<Crtc>, before: seq<Claim>, after: seq<Claim>, c: Connector)
    requires Served(connectors, driven, before) && before <= after && Used(before) <= Used(after)
    requires Usable(c) ==>
      (exists claim :: claim in after && Grants(c, claim)) || forall r :: r in c.crtcs ==> r in driven || r in Used(after)
    ensures Served(connectors + [c], driven, after)
  {
    hide Used;
    forall d | d in connectors + [c] && Usable(d)
      ensures (exists claim :: claim in after && Grants(d, claim)) || forall r :: r in d.crtcs ==> r in driven || r in Used(after)
    {
      if d in connectors {
        if claim :| claim in before && Grants(d, claim) {
          assert claim in after;
        }
      }
    }
  }

  lemma ExclusiveNext(driven: set<Crtc>, claims: seq<Claim>, claim: Claim)
    requires Exclusive(driven, claims) && claim.crtc !in driven && claim.crtc !in Used(claims)
    ensures Exclusive(driven, claims + [claim])
  {
    assert forall i :: 0 <= i < |claims| ==> claims[i].crtc in Used(claims);
  }

  lemma GrantedNext(connectors: seq<Connector>, claims: seq<Claim>, c: Connector, extra: seq<Claim>)
    requires Granted(connectors, claims) && forall claim :: claim in extra ==> Grants(c, claim)
    ensures Granted(connectors + [c], claims + extra)
  {
    forall claim | claim in claims + extra
      ensures exists d :: d in connectors + [c] && Grants(d, claim)
    {
      if claim in claims {
        var d :| d in connectors && Grants(d, claim);
        assert d in connectors + [c];
      } else {
        assert c in connectors + [c];
      }
    }
  }

  lemma FairNext(connectors: seq<Connector>, driven: set<Crtc>, before: seq<Claim>, after: seq<Claim>, k: nat)
    requires k < |connectors| && Fair(connectors[..k], driven, before)
    requires
      var c := connectors[k];
      var free := FirstFree(c.crtcs, driven + Used(before));
      after == if Usable(c) && free.Some? then before + [Claim(c.handle, free.value)] else before
    ensures Fair(connectors[..k + 1], driven, after)
  {
    hide FirstFree, Served, Granted, Exclusive, Used;
    var c := connectors[k];
    assert connectors[..k + 1] == connectors[..k] + [c];
    var extra := after[|before|..];
    assert after == before + extra;
    if extra != [] {
      UsedGrows(before, extra[0]);
      ExclusiveNext(driven, before, extra[0]);
      assert extra[0] in after && Grants(c, extra[0]);
    }
    GrantedNext(connectors[..k], before, c, extra);
    ServedNext(connectors[..k], driven, before, after, c);
  }

  /** So the outputs set up after a rescan never overwrite one another or an existing output. */
  lemma FairIsUnclaimed(connectors: seq<Connector>, surfaces: map<Crtc, Surface>, claims: seq<Claim>, found: seq<(Crtc, Outcome)>)
    requires Fair(connectors, surfaces.Keys, claims)
    requires |found| == |claims| && forall i :: 0 <= i < |claims| ==> found[i].0 == claims[i].crtc
    ensures Unclaimed(surfaces, found)
  {
  }

  /** A scan claims nothing exactly when every CRTC of every usable connector drives an output. */
  lemma NothingClaimedIff(connectors: seq<Connector>, driven: set<Crtc>, claims: seq<Claim>)
    requires Fair(connectors, driven, claims)
    ensures claims == [] <==> forall c :: c in connectors && Usable(c) ==> forall r :: r in c.crtcs ==> r in driven
  {
    if claims == [] {
      assert Used(claims) == {};
    } else {
      assert claims[0] in claims;
      var c :| c in connectors && Grants(c, claims[0]);
      assert claims[0].crtc in c.crtcs && claims[0].crtc !in driven;
    }
  }

  /** The handles of a device's connectors are distinct. */
  ghost predicate DistinctHandles(connectors: seq<Connector>) {
    forall i, j :: 0 <= i < j < |connectors| ==> connectors[i].handle != connectors[j].handle
  }

  ghost predicate HasClaim(claims: seq<Claim>, handle: nat) {
    exists claim :: claim in claims && claim.handle == handle
  }

  lemma {:induction false} ClaimedIff(connectors: seq<Connector>, driven: set<Crtc>, k: nat)
    requires DistinctHandles(connectors) && k < |connectors|
    ensures HasClaim(ClaimsOf(connectors, driven), connectors[k].handle)
            <==> Usable(connectors[k]) &&
                 exists r :: r in connectors[k].crtcs && r !in driven && r !in Used(ClaimsOf(connectors[..k], driven))
  {
    hide Fair, Used;
    var n := |connectors| - 1;
    var init, c := connectors[..n], connectors[n];
    var before := ClaimsOf(init, driven);
    var free := FirstFree(c.crtcs, driven + Used(before));
    if k < n {
      ClaimedIff(init, driven, k);
      assert init[..k] == connectors[..k];
      assert c.handle != connectors[k].handle;
    } else {
      assert !HasClaim(before, c.handle) by { OnlyOwnClaims(init, driven, c.handle); }
      if Usable(c) && free.Some? {
        assert Claim(c.handle, free.value) in ClaimsOf(connectors, driven);
      }
    }
  }

  lemma OnlyOwnClaims(connectors: seq<Connector>, driven: set<Crtc>, handle: nat)
    requires forall c :: c in connectors ==> c.handle != handle
    ensures !HasClaim(ClaimsOf(connectors, driven), handle)
  {
    forall claim | claim in ClaimsOf(connectors, driven)
      ensures claim.handle != handle
    {
      var c :| c in connectors && Grants(c, claim);
    }
  }

  /**
   A connector that already drives an output on one CRTC is claimed a second time exactly when another of
   its CRTCs is free when the scan comes to it: nothing needs to have been plugged.
   */
  lemma ClaimedAgainIff(connectors: seq<Connector>, driver: map<Crtc, nat>, k: nat, crtc: Crtc)
    requires DistinctHandles(connectors) && k < |connectors| && Usable(connectors[k])
    requires crtc in driver && driver[crtc] == connectors[k].handle
    ensures HasClaim(ClaimsOf(connectors, driver.Keys), connectors[k].handle)
            <==> exists r :: r in connectors[k].crtcs && r != crtc && r !in driver
                             && r !in Used(ClaimsOf(connectors[..k], driver.Keys))
  {
    hide ClaimsOf, Used;
    ClaimedIff(connectors, driver.Keys, k);
  }

  /** One display, two CRTCs, one of them driving it: the scan claims the other as well. */
  lemma ClaimedAgainExample()
    ensures ClaimsOf([Connector(7, true, true, [0, 1])], {0}) == [Claim(7, 1)]
  {
    var c := Connector(7, true, true, [0, 1]);
    assert [c][..0] == [] && ClaimsOf([], {0}) == [];
    assert FirstFree(c.crtcs, {0}) == Some(1) by { assert c.crtcs[1..] == [1]; }
  }

  // What this means for resuming.

  /** The outputs set up are those among the claims whose surface could be built. */
  ghost predicate SetUp(claims: seq<Claim>, found: seq<(Crtc, Outcome)>) {
    && (forall i :: 0 <= i < |found| ==> found[i].0 in Used(claims))
    && (forall i, j :: 0 <= i < j < |found| ==> found[i].0 != found[j].0)
  }

  lemma {:induction false} Enumerate(cs: set<Crtc>) returns (list: seq<(Crtc, Outcome)>)
    ensures forall i :: 0 <= i < |list| ==> list[i].0 in cs && list[i].1.result == Queued
    ensures forall c :: c in cs ==> exists i :: 0 <= i < |list| && list[i].0 == c
    ensures forall i, j :: 0 <= i < j < |list| ==> list[i].0 != list[j].0
    decreases |cs|
  {
    list := [];
    if cs != {} {
      var c :| c in cs;
      var rest := Enumerate(cs - {c});
      list := rest + [(c, Outcome(Queued, false))];
      forall d | d in cs
        ensures exists i :: 0 <= i < |list| && list[i].0 == d
      {
        if d == c {
          assert list[|rest|].0 == d;
        } else {
          assert d in cs - {c};
          var i :| 0 <= i < |rest| && rest[i].0 == d;
          assert list[i].0 == d;
        }
      }
    }
  }

  /** A resume that can go wrong, given what a scan of these connectors would claim. */
  ghost predicate MayFault(s: Kms, d: DevId, connectors: seq<Connector>) {
    exists found, kicks ::
      && d in s.devices && SetUp(ClaimsOf(connectors, s.devices[d].surfaces.Keys), found)
      && Possible(s, Resume(d, true, found, kicks)) && ResumeDevice(s, d, true, found, kicks).fault
  }

  /**
   So whether a resume is safe, however its set-ups and renderings end, can be told beforehand: exactly when
   every CRTC of every usable connector drives an output.
   */
  lemma ResumeSafeBeforehand(s: Kms, d: DevId, connectors: seq<Connector>)
    requires Synced(s) && d in s.devices && !s.devices[d].active
    ensures !MayFault(s, d, connectors)
            <==> forall c :: c in connectors && Usable(c) ==> forall r :: r in c.crtcs ==> r in s.devices[d].surfaces
  {
    hide Possible, ResumeDevice, ClaimsOf, Synced, Fair;
    var driven := s.devices[d].surfaces.Keys;
    var claims := ClaimsOf(connectors, driven);
    NothingClaimedIff(connectors, driven, claims);
    if claims == [] {
      forall found: seq<(Crtc, Outcome)>, kicks: seq<(Crtc, Outcome)> | SetUp(claims, found) && Possible(s, Resume(d, true, found, kicks))
        ensures !ResumeDevice(s, d, true, found, kicks).fault
      {
        assert found != [] ==> found[0].0 in Used(claims);
        ResumeSafeIff(s, d, found, kicks);
      }
    } else {
      FirstClaimFaults(s, d, connectors);
    }
  }

  lemma FirstClaimFaults(s: Kms, d: DevId, connectors: seq<Connector>)
    requires Synced(s) && d in s.devices && !s.devices[d].active
    requires ClaimsOf(connectors, s.devices[d].surfaces.Keys) != []
    ensures MayFault(s, d, connectors)
  {
    hide ResumeDevice, ClaimsOf, Synced, Possible;
    var surfaces := s.devices[d].surfaces;
    var claims := ClaimsOf(connectors, surfaces.Keys);
    var found := [(claims[0].crtc, Outcome(Queued, false))];
    assert claims[0].crtc in Used(claims) && claims[0].crtc !in surfaces.Keys;
    assert Unclaimed(surfaces, found);
    hide Fair;
    var kicks := Enumerate(surfaces.Keys + {claims[0].crtc});
    KicksPossible(s, d, found, kicks);
    ResumeFaults(s, d, found, kicks);
    var i :| 0 <= i < |kicks| && kicks[i].0 == claims[0].crtc;
    assert Queues(found, kicks[i].0) by { assert found[0].0 == kicks[i].0; }
  }

  lemma KicksPossible(s: Kms, d: DevId, found: seq<(Crtc, Outcome)>, kicks: seq<(Crtc, Outcome)>)
    requires Synced(s) && d in s.devices && |found| == 1 && Unclaimed(s.devices[d].surfaces, found)
    requires forall i :: 0 <= i < |kicks| ==> kicks[i].0 in s.devices[d].surfaces.Keys + {found[0].0}
    requires forall c :: c in s.devices[d].surfaces.Keys + {found[0].0} ==> exists i :: 0 <= i < |kicks| && kicks[i].0 == c
    requires forall i, j :: 0 <= i < j < |kicks| ==> kicks[i].0 != kicks[j].0
    ensures Possible(s, Resume(d, true, found, kicks))
  {
    hide SetupAll;
    ReactivatedSynced(s, d);
    SetupAllEffect(Reactivated(s, d), d, found);
    var t := SetupAll(Reactivated(s, d), d, found);
    forall c: Crtc
      ensures c in t.devices[d].surfaces <==> c in s.devices[d].surfaces.Keys + {found[0].0}
    {
      assert Known(t, d, c) <==> Known(Reactivated(s, d), d, c) || Names(found, c);
      assert Names(found, c) <==> found[0].0 == c;
    }
  }

  /** A run from start-up in which a frame is queued on top of a flip: two CRTCs, a pause and a resume. */
  lemma FaultExample()
    ensures var queued := Outcome(Queued, false);
            Run(Start, [DeviceAdded(0, [(0, queued)]), PauseAll, Resume(0, true, [(1, queued)], [(0, queued), (1, queued)])]).fault
  {
    hide Next, ResumeDevice, SetupAll, Unclaimed;
    var queued := Outcome(Queued, false);
    var found, kicks := [(1, queued)], [(0, queued), (1, queued)];
    var steps := [DeviceAdded(0, [(0, queued)]), PauseAll];
    var s := Run(Start, steps);
    PausedExample();
    assert Synced(s) by { FlipsNeverOverlap(steps); }
    assert Unclaimed(s.devices[0].surfaces, found) by { OneUnclaimed(s.devices[0].surfaces, 1, queued); }
    assert kicks[0].0 == 0 && kicks[1].0 == 1;
    KicksPossible(s, 0, found, kicks);
    hide Synced;
    ResumeFaults(s, 0, found, kicks);
    assert Queues(found, 1) by { assert found[0].0 == 1; }
    ResumeStep(s, 0, found, kicks);
    var all := [DeviceAdded(0, [(0, queued)]), PauseAll, Resume(0, true, found, kicks)];
    assert all[..2] == steps;
  }

  lemma OneUnclaimed(surfaces: map<Crtc, Surface>, c: Crtc, o: Outcome)
    requires c !in surfaces
    ensures Unclaimed(surfaces, [(c, o)])
  {
  }

  lemma ResumeStep(s: Kms, d: DevId, found: seq<(Crtc, Outcome)>, kicks: seq<(Crtc, Outcome)>)
    requires Possible(s, Resume(d, true, found, kicks))
    ensures Next(s, Resume(d, true, found, kicks)) == ResumeDevice(s, d, true, found, kicks)
  {
    hide ResumeDevice;
  }

  lemma PausedExample()
    ensures var s := Run(Start, [DeviceAdded(0, [(0, Outcome(Queued, false))]), PauseAll]);
            0 in s.devices && !s.devices[0].active && s.devices[0].surfaces.Keys == {0}
  {
    hide Next;
    var queued := Outcome(Queued, false);
    var steps := [DeviceAdded(0, [(0, queued)]), PauseAll];
    assert steps[..1][..0] == [] && steps[..1] == [steps[0]];
    assert Run(Start, []) == Start;
    assert Run(Start, steps[..1]) == Next(Start, steps[0]);
    var t := SetupAll(Start.(devices := map[0 := Device(true, map[])]), 0, [(0, queued)]);
    AddedExample();
    assert Run(Start, steps) == Next(t, PauseAll);
    assert Next(t, PauseAll) == Pause(t) by { PauseStep(t); }
  }

  lemma PauseStep(s: Kms)
    ensures Next(s, PauseAll) == Pause(s)
  {
    hide Pause;
  }

  lemma AddedExample()
    ensures var t := SetupAll(Start.(devices := map[0 := Device(true, map[])]), 0, [(0, Outcome(Queued, false))]);
            && Next(Start, DeviceAdded(0, [(0, Outcome(Queued, false))])) == t
            && 0 in t.devices && t.devices[0].surfaces.Keys == {0}
  {
    hide ScheduleRender;
    var found := [(0, Outcome(Queued, false))];
    var s := Start.(devices := map[0 := Device(true, map[])]);
    assert found[..0] == [] && SetupAll(s, 0, []) == s;
    OneUnclaimed(map[], 0, Outcome(Queued, false));
    assert Start.devices[0 := Device(true, map[])] == map[0 := Device(true, map[])];
    SetupAllEffect(s, 0, found);
    var t := SetupAll(s, 0, found);
    forall c: Crtc
      ensures c in t.devices[0].surfaces <==> c == 0
    {
      assert Known(t, 0, c) <==> Known(s, 0, c) || Names(found, c);
    }
  }
}
