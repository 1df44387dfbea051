/** What the device codes of src/identity.ts guarantee in every state and over every run of calls. */
module DeviceCodeRuns {

  import opened DeviceCodes

  // ---- the two maps are each other's inverse ---------------------------------------------------

  predicate Inverse(s: Store) {
    && (forall d :: d in s.byDevice ==> s.byDevice[d].userCode in s.byUser && s.byUser[s.byDevice[d].userCode] == d)
    && (forall u :: u in s.byUser ==> s.byUser[u] in s.byDevice && s.byDevice[s.byUser[u]].userCode == u)
  }

  lemma CollectedKeepsInverse(s: Store, now: int)
    requires Inverse(s)
    ensures Inverse(Collected(s, now))
  {
  }

  /** Issuing keeps the two maps inverse exactly when the device code drawn is not live already: a
      record it displaces leaves its user code behind. */
  lemma IssuingKeepsInverse(s: Store, ip: string, device: string, u: string, now: int)
    requires Inverse(s) && u !in s.byUser
    ensures Inverse(WithCode(s, ip, device, u, now)) <==> device !in s.byDevice
  {
    var t := WithCode(s, ip, device, u, now);
    if device in s.byDevice {
      var displaced := s.byDevice[device].userCode;
      assert displaced in t.byUser && t.byUser[displaced] == device && t.byDevice[device].userCode == u;
    }
  }

  // ---- runs ------------------------------------------------------------------------------------

  datatype Call = Start(ip: string, device: string, draws: seq<string>) | Approve(typed: string) | Deny(typed: string) | Poll(device: string)

  datatype Timed = Timed(now: int, call: Call)

  /** A start that finds neither cap hit and draws a free user code; one that never draws one does not
      return. */
  predicate Issues(s: Store, e: Timed) {
    && e.call.Start?
    && var c := Collected(s, e.now);
       !Full(c, e.call.ip) && FirstFree(e.call.draws, c.byUser).Some?
  }

  function Stepped(s: Store, e: Timed): Store {
    match e.call
    case Start(ip, device, draws) =>
      var c := Collected(s, e.now);
      if Issues(s, e) then WithCode(c, ip, device, FirstFree(draws, c.byUser).value, e.now) else c
    case Approve(typed) =>
      if ApproveAnswer(s, typed, e.now).Ok? then Marked(s, Find(s, typed).value, Approved) else s
    case Deny(typed) =>
      if DenyAnswer(s, typed, e.now) then Marked(s, Find(s, typed).value, Denied) else s
    case Poll(device) => PolledStore(s, device, e.now)
  }

  /** `at[i]` is the store before call `i`. */
  ghost predicate IsRun(run: seq<Timed>, at: seq<Store>) {
    && |at| == |run| + 1 && at[0] == Store(map[], map[])
    && forall i :: 0 <= i < |run| ==> at[i + 1] == Stepped(at[i], run[i])
  }

  /** The call draws a device code that is live. */
  predicate Collides(s: Store, e: Timed) {
    Issues(s, e) && e.call.device in Collected(s, e.now).byDevice
  }

  lemma StepKeepsInverse(s: Store, e: Timed)
    requires Inverse(s)
    ensures Inverse(Stepped(s, e)) <==> !Collides(s, e)
  {
    if e.call.Start? {
      var c := Collected(s, e.now);
      CollectedKeepsInverse(s, e.now);
      if Issues(s, e) {
        IssuingKeepsInverse(c, e.call.ip, e.call.device, FirstFree(e.call.draws, c.byUser).value, e.now);
      }
    }
  }

  /** The maps are each other's inverse throughout a run exactly when no live device code is drawn
      again. */
  lemma {:induction false} AlwaysInverse(run: seq<Timed>, at: seq<Store>, n: nat)
    requires IsRun(run, at) && n <= |run|
    ensures (forall i :: 0 <= i <= n ==> Inverse(at[i])) <==> (forall i :: 0 <= i < n ==> !Collides(at[i], run[i]))
  {
    if n > 0 {
      AlwaysInverse(run, at, n - 1);
      if Inverse(at[n - 1]) {
        StepKeepsInverse(at[n - 1], run[n - 1]);
      }
      assert (forall i :: 0 <= i <= n ==> Inverse(at[i])) <==> (forall i :: 0 <= i <= n - 1 ==> Inverse(at[i])) && Inverse(at[n]);
      assert at[n] == Stepped(at[n - 1], run[n - 1]);
    }
  }

  // ---- the caps --------------------------------------------------------------------------------

  ghost predicate Capped(s: Store) {
    |s.byDevice| <= MAX_CODES && forall ip :: |OfIp(s, ip)| <= MAX_PER_IP
  }

  lemma FewerStayCapped(s: Store, t: Store)
    requires Capped(s) && t.byDevice.Keys <= s.byDevice.Keys
    requires forall d :: d in t.byDevice ==> t.byDevice[d].ip == s.byDevice[d].ip
    ensures Capped(t)
  {
    SubsetIsSmaller(t.byDevice.Keys, s.byDevice.Keys);
    forall ip ensures |OfIp(t, ip)| <= MAX_PER_IP {
      SubsetIsSmaller(OfIp(t, ip), OfIp(s, ip));
    }
  }

  lemma IssuingStaysCapped(s: Store, ip: string, device: string, u: string, now: int)
    requires Capped(s) && !Full(s, ip)
    ensures Capped(WithCode(s, ip, device, u, now))
  {
    var t := WithCode(s, ip, device, u, now);
    SubsetIsSmaller(t.byDevice.Keys, s.byDevice.Keys + {device});
    forall other ensures |OfIp(t, other)| <= MAX_PER_IP {
      SubsetIsSmaller(OfIp(t, other), if other == ip then OfIp(s, other) + {device} else OfIp(s, other));
    }
  }

  lemma StepStaysCapped(s: Store, e: Timed)
    requires Capped(s)
    ensures Capped(Stepped(s, e))
  {
    if e.call.Start? {
      var c := Collected(s, e.now);
      FewerStayCapped(s, c);
      if Issues(s, e) {
        IssuingStaysCapped(c, e.call.ip, e.call.device, FirstFree(e.call.draws, c.byUser).value, e.now);
      }
    } else {
      FewerStayCapped(s, Stepped(s, e));
    }
  }

  /** In every state of every run there are at most 2000 live codes, at most 20 of them from one
      address. */
  lemma {:induction false} AlwaysCapped(run: seq<Timed>, at: seq<Store>, n: nat)
    requires IsRun(run, at) && n <= |run|
    ensures Capped(at[n])
  {
    if n > 0 {
      AlwaysCapped(run, at, n - 1);
      StepStaysCapped(at[n - 1], run[n - 1]);
    } else {
      forall ip ensures |OfIp(at[0], ip)| <= MAX_PER_IP {
        assert OfIp(at[0], ip) == {};
      }
    }
  }

  // ---- approved at most once, after an approval, before expiry ---------------------------------

  /** The call issues `device`, to live until `expiresAt`. */
  predicate IssuesCode(s: Store, e: Timed, device: string, expiresAt: int) {
    Issues(s, e) && e.call.device == device && e.now + TTL_MS == expiresAt
  }

  /** The call approves `device` and is told so. */
  predicate SaysOk(s: Store, e: Timed, device: string) {
    e.call.Approve? && ApproveAnswer(s, e.call.typed, e.now).Ok? && Find(s, e.call.typed) == Some(device)
  }

  /** The call collects `device`: its poll is answered `approved`. */
  predicate Collects(s: Store, e: Timed, device: string) {
    e.call == Poll(device) && PollAnswer(s, device, e.now).IsApproved?
  }

  ghost predicate AccountedFor(run: seq<Timed>, at: seq<Store>, n: nat, device: string, r: Record)
    requires IsRun(run, at) && n <= |run|
  {
    exists k :: && 0 <= k < n && IssuesCode(at[k], run[k], device, r.expiresAt)
                && (r.status == Approved ==> exists i :: k < i < n && SaysOk(at[i], run[i], device))
  }

  /** What one call does to one record. */
  lemma RecordStep(s: Store, e: Timed, device: string)
    requires device in Stepped(s, e).byDevice
    ensures var r := Stepped(s, e).byDevice[device];
            || (IssuesCode(s, e, device, r.expiresAt) && r.status == Pending)
            || (&& device in s.byDevice && s.byDevice[device].expiresAt == r.expiresAt
                && (r.status == Approved ==> s.byDevice[device].status == Approved || SaysOk(s, e, device)))
  {
  }

  lemma {:induction false} EveryRecordIsAccountedFor(run: seq<Timed>, at: seq<Store>, n: nat)
    requires IsRun(run, at) && n <= |run|
    ensures forall d :: d in at[n].byDevice ==> AccountedFor(run, at, n, d, at[n].byDevice[d])
  {
    if n > 0 {
      EveryRecordIsAccountedFor(run, at, n - 1);
      var s, e := at[n - 1], run[n - 1];
      forall d | d in at[n].byDevice
        ensures AccountedFor(run, at, n, d, at[n].byDevice[d])
      {
        RecordStep(s, e, d);
        var r := at[n].byDevice[d];
        if !(IssuesCode(s, e, d, r.expiresAt) && r.status == Pending) {
          var k :| && 0 <= k < n - 1 && IssuesCode(at[k], run[k], d, r.expiresAt)
                   && (s.byDevice[d].status == Approved ==> exists i :: k < i < n - 1 && SaysOk(at[i], run[i], d));
          assert r.status == Approved && s.byDevice[d].status != Approved ==> SaysOk(at[n - 1], run[n - 1], d);
        }
      }
    }
  }

  /** A poll is answered `approved` only for a code issued earlier, after an approval of that very code
      that returned `ok`, and strictly before the code expires. */
  lemma ApprovedOnlyAfterOk(run: seq<Timed>, at: seq<Store>, j: nat, device: string)
    requires IsRun(run, at) && j < |run| && Collects(at[j], run[j], device)
    ensures exists k, i :: && 0 <= k < i < j && SaysOk(at[i], run[i], device)
                           && IssuesCode(at[k], run[k], device, run[k].now + TTL_MS) && run[j].now < run[k].now + TTL_MS
  {
    EveryRecordIsAccountedFor(run, at, j);
    var r := at[j].byDevice[device];
    var k :| && 0 <= k < j && IssuesCode(at[k], run[k], device, r.expiresAt)
             && (r.status == Approved ==> exists i :: k < i < j && SaysOk(at[i], run[i], device));
    var i :| k < i < j && SaysOk(at[i], run[i], device);
    assert IssuesCode(at[k], run[k], device, run[k].now + TTL_MS);
  }

  /** The code is issued once in the run: it is 40 random characters. */
  ghost predicate IssuedOnce(run: seq<Timed>, at: seq<Store>, device: string)
    requires IsRun(run, at)
  {
    forall i, j :: 0 <= i < j < |run| && Issues(at[i], run[i]) && Issues(at[j], run[j]) && run[i].call.device == device ==>
      run[j].call.device != device
  }

  predicate IssuesIt(s: Store, e: Timed, device: string) {
    e.call.Start? && e.call.device == device && Issues(s, e)
  }

  lemma NotBack(s: Store, e: Timed, device: string)
    requires device !in s.byDevice && !IssuesIt(s, e, device)
    ensures device !in Stepped(s, e).byDevice
  {
  }

  ghost predicate NotIssuedFrom(run: seq<Timed>, at: seq<Store>, i: nat, device: string)
    requires IsRun(run, at)
  {
    forall m :: i <= m < |run| ==> !IssuesIt(at[m], run[m], device)
  }

  predicate StaysGone(at: seq<Store>, m: nat, device: string)
    requires m + 1 < |at|
  {
    device !in at[m].byDevice ==> device !in at[m + 1].byDevice
  }

  lemma {:induction false} GoneThroughout(at: seq<Store>, i: nat, n: nat, device: string)
    requires i <= n < |at| && device !in at[i].byDevice && forall m :: i <= m < n ==> StaysGone(at, m, device)
    ensures device !in at[n].byDevice
  {
    if i < n {
      GoneThroughout(at, i, n - 1, device);
      assert StaysGone(at, n - 1, device);
    }
  }

  lemma GoneForGood(run: seq<Timed>, at: seq<Store>, i: nat, n: nat, device: string)
    requires IsRun(run, at) && i <= n <= |run| && device !in at[i].byDevice && NotIssuedFrom(run, at, i, device)
    ensures device !in at[n].byDevice
  {
    forall m | i <= m < n ensures StaysGone(at, m, device) {
      assert !IssuesIt(at[m], run[m], device);
      if device !in at[m].byDevice {
        NotBack(at[m], run[m], device);
      }
    }
    GoneThroughout(at, i, n, device);
  }

  /** Over a whole run a device code is answered `approved` at most once: whatever polls it afterwards
      is told it is unknown. */
  lemma ApprovedAtMostOnce(run: seq<Timed>, at: seq<Store>, i: nat, j: nat, device: string)
    requires IsRun(run, at) && IssuedOnce(run, at, device)
    requires i < j < |run| && Collects(at[i], run[i], device) && run[j].call == Poll(device)
    ensures PollAnswer(at[j], device, run[j].now).IsUnknown?
  {
    ApprovedOnlyAfterOk(run, at, i, device);
    var k :| 0 <= k < i && IssuesCode(at[k], run[k], device, run[k].now + TTL_MS);
    forall m | i < m < |run| ensures !IssuesIt(at[m], run[m], device) {
      assert Issues(at[m], run[m]) && Issues(at[k], run[k]) ==> run[m].call.device != device;
    }
    GoneForGood(run, at, i + 1, j, device);
  }

  /** Why a code may be issued only once: three calls issue, approve and collect it and leave the store
      as they found it, so issued again it is collected again. */
  lemma ReissuedCodeIsCollectedAgain(ip: string, device: string, u: string)
    requires device != "" && Normalize(u) == u
    ensures var empty := Store(map[], map[]);
            var issued := WithCode(empty, ip, device, u, 0);
            var approved := Marked(issued, device, Approved);
            && Stepped(empty, Timed(0, Start(ip, device, [u]))) == issued
            && Stepped(issued, Timed(0, Approve(u))) == approved
            && Collects(approved, Timed(0, Poll(device)), device)
            && Stepped(approved, Timed(0, Poll(device))) == empty
  {
    var empty := Store(map[], map[]);
    assert Collected(empty, 0) == empty && OfIp(empty, ip) == {};
  }
}
