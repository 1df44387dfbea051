/** What becomes of an issued device code, from the calls of a run alone: it is pending until somebody who types
    its user code decides on it, the first decision before it expires stands, and the poll that reports a
    decision or the expiry is the last one that knows the code. */
module DeviceCodeFates {
  import opened DeviceCodes
  import opened DeviceCodeRuns

  // ---- when a code is issued -------------------------------------------------------------------

  /** The device codes that have not expired. */
  function Live(s: Store, now: int): set<string> {
    set d | d in s.byDevice && now < s.byDevice[d].expiresAt
  }

  function LiveOf(s: Store, ip: string, now: int): set<string> {
    set d | d in s.byDevice && now < s.byDevice[d].expiresAt && s.byDevice[d].ip == ip
  }

  predicate IsTaken(s: Store, u: string, now: int) {
    exists d :: d in Live(s, now) && s.byDevice[d].userCode == u
  }

  /** `u` is the first code drawn that no live code has. */
  predicate IsDrawn(s: Store, draws: seq<string>, now: int, u: string) {
    !IsTaken(s, u, now) && exists i :: 0 <= i < |draws| && draws[i] == u && forall j :: 0 <= j < i ==> IsTaken(s, draws[j], now)
  }

  lemma {:induction false} FirstFreeIs(draws: seq<string>, byUser: map<string, string>, i: nat)
    requires i < |draws| && draws[i] !in byUser && forall j :: 0 <= j < i ==> draws[j] in byUser
    ensures FirstFree(draws, byUser) == Some(draws[i])
  {
    if i > 0 {
      FirstFreeIs(draws[1..], byUser, i - 1);
    }
  }

  lemma {:induction false} FirstFreeAt(draws: seq<string>, byUser: map<string, string>) returns (i: nat)
    requires FirstFree(draws, byUser).Some?
    ensures i < |draws| && draws[i] == FirstFree(draws, byUser).value && forall j :: 0 <= j < i ==> draws[j] in byUser
  {
    if draws[0] !in byUser {
      i := 0;
    } else {
      i := FirstFreeAt(draws[1..], byUser);
      i := i + 1;
    }
  }

  lemma TakenAre(s: Store, now: int, u: string)
    requires Inverse(s)
    ensures IsTaken(s, u, now) <==> u in Collected(s, now).byUser
  {
    var c := Collected(s, now);
    CollectedKeepsInverse(s, now);
    if u in c.byUser {
      assert c.byUser[u] in Live(s, now);
    }
  }

  lemma LiveAre(s: Store, now: int, ip: string)
    ensures var c := Collected(s, now);
            && c.byDevice.Keys == Live(s, now) && OfIp(c, ip) == LiveOf(s, ip, now)
            && forall d :: d in Live(s, now) ==> c.byDevice[d] == s.byDevice[d]
  {
  }

  lemma DrawnIs(s: Store, draws: seq<string>, now: int, u: string)
    requires Inverse(s)
    ensures IsDrawn(s, draws, now, u) <==> FirstFree(draws, Collected(s, now).byUser) == Some(u)
  {
    var byUser := Collected(s, now).byUser;
    forall x ensures IsTaken(s, x, now) <==> x in byUser {
      TakenAre(s, now, x);
    }
    if FirstFree(draws, byUser) == Some(u) {
      var i := FirstFreeAt(draws, byUser);
    }
    if IsDrawn(s, draws, now, u) {
      var i :| 0 <= i < |draws| && draws[i] == u && forall j :: 0 <= j < i ==> IsTaken(s, draws[j], now);
      FirstFreeIs(draws, byUser, i);
    }
  }

  /** A start issues `u` exactly when fewer than 2000 codes are live, fewer than 20 of them from its address,
      and `u` is the first code drawn that is free; it is then good for a quarter of an hour, and nothing
      live is touched. */
  lemma WhatAStartIssues(s: Store, now: int, ip: string, device: string, draws: seq<string>, u: string)
    requires Inverse(s) && device !in Live(s, now)
    ensures var t := Stepped(s, Timed(now, Start(ip, device, draws)));
            && (device in t.byDevice && t.byDevice[device] == Record(u, ip, Pending, now + 900000) <==>
                  |Live(s, now)| < 2000 && |LiveOf(s, ip, now)| < 20 && IsDrawn(s, draws, now, u))
            && (forall d :: d in Live(s, now) ==> d in t.byDevice && t.byDevice[d] == s.byDevice[d])
            && t.byDevice.Keys <= Live(s, now) + {device}
  {
    LiveAre(s, now, ip);
    DrawnIs(s, draws, now, u);
  }

  // ---- what becomes of it ----------------------------------------------------------------------

  /** Somebody types the user code, to approve it or to deny it. */
  predicate Types(e: Timed, u: string) {
    (e.call.Approve? || e.call.Deny?) && Normalize(e.call.typed) == u
  }

  /** The verdict after one more call. */
  function Decide(before: Status, e: Timed, u: string, expiresAt: int): Status {
    if before == Pending && Types(e, u) && e.now < expiresAt then (if e.call.Approve? then Approved else Denied) else before
  }

  /** What was decided between steps `k` and `n`: the first decision before `expiresAt` stands. */
  function Verdict(run: seq<Timed>, k: nat, n: nat, u: string, expiresAt: int): Status
    requires n <= |run|
    decreases n
  {
    if n <= k + 1 then Pending
    else
      Decide(Verdict(run, k, n - 1, u, expiresAt), run[n - 1], u, expiresAt)
  }

  /** Step `i` is the last to know the code: a poll that finds it decided or expired, or a start after it
      expired. */
  predicate IsLast(run: seq<Timed>, k: nat, i: nat, device: string, u: string, expiresAt: int)
    requires i < |run|
  {
    || (run[i].call.Start? && expiresAt <= run[i].now)
    || (run[i].call == Poll(device) && (expiresAt <= run[i].now || Verdict(run, k, i, u, expiresAt) != Pending))
  }

  /** Step `k` issued the code, and no live device code is ever drawn again. */
  ghost predicate IsIssued(run: seq<Timed>, at: seq<Store>, k: nat, ip: string, device: string, u: string, expiresAt: int)
    requires IsRun(run, at)
  {
    && k < |run| && device != "" && run[k].call.Start? && run[k].call.device == device && Issues(at[k], run[k])
    && device in at[k + 1].byDevice && at[k + 1].byDevice[device] == Record(u, ip, Pending, expiresAt)
    && forall i :: 0 <= i < |run| ==> !Collides(at[i], run[i])
  }

  predicate Keeps(s: Store, ip: string, device: string, u: string, status: Status, expiresAt: int) {
    && device in s.byDevice && s.byDevice[device] == Record(u, ip, status, expiresAt)
    && u in s.byUser && s.byUser[u] == device
  }

  /** One call that is not the last to know the code. */
  lemma StepKeepsCode(s: Store, e: Timed, ip: string, device: string, u: string, status: Status, expiresAt: int)
    requires Inverse(s) && device != "" && Keeps(s, ip, device, u, status, expiresAt) && !Collides(s, e)
    requires !(e.call.Start? && expiresAt <= e.now)
    requires !(e.call == Poll(device) && (expiresAt <= e.now || status != Pending))
    ensures Keeps(Stepped(s, e), ip, device, u, Decide(status, e, u, expiresAt), expiresAt)
  {
    if e.call.Start? {
      var c := Collected(s, e.now);
      CollectedKeepsInverse(s, e.now);
      assert Keeps(c, ip, device, u, status, expiresAt);
    }
  }

  lemma InverseAt(run: seq<Timed>, at: seq<Store>, n: nat)
    requires IsRun(run, at) && n <= |run| && forall i :: 0 <= i < |run| ==> !Collides(at[i], run[i])
    ensures Inverse(at[n])
  {
    AlwaysInverse(run, at, |run|);
  }

  /** Call `i` leaves the maps inverse. */
  predicate StepsWell(run: seq<Timed>, at: seq<Store>, i: nat)
    requires i < |run| && |at| == |run| + 1
  {
    Inverse(at[i]) && at[i + 1] == Stepped(at[i], run[i]) && !Collides(at[i], run[i])
  }

  ghost predicate RunsWell(run: seq<Timed>, at: seq<Store>) {
    |at| == |run| + 1 && forall i :: 0 <= i < |run| ==> StepsWell(run, at, i)
  }

  lemma RunIsWell(run: seq<Timed>, at: seq<Store>)
    requires IsRun(run, at) && forall i :: 0 <= i < |run| ==> !Collides(at[i], run[i])
    ensures RunsWell(run, at)
  {
    forall i | 0 <= i < |run| ensures StepsWell(run, at, i) {
      InverseAt(run, at, i);
    }
  }

  lemma KeptOn(run: seq<Timed>, at: seq<Store>, k: nat, n: nat, ip: string, device: string, u: string, expiresAt: int)
    requires n < |run| && |at| == |run| + 1 && StepsWell(run, at, n) && !IsLast(run, k, n, device, u, expiresAt)
    requires k < n && device != "" && Keeps(at[n], ip, device, u, Verdict(run, k, n, u, expiresAt), expiresAt)
    ensures Keeps(at[n + 1], ip, device, u, Verdict(run, k, n + 1, u, expiresAt), expiresAt)
  {
    StepKeepsCode(at[n], run[n], ip, device, u, Verdict(run, k, n, u, expiresAt), expiresAt);
  }

  /** Call `n` leaves the code as it was decided, if it was so before. */
  predicate KeepsOn(run: seq<Timed>, at: seq<Store>, k: nat, n: nat, ip: string, device: string, u: string, expiresAt: int)
    requires n < |run| && |at| == |run| + 1
  {
    Keeps(at[n], ip, device, u, Verdict(run, k, n, u, expiresAt), expiresAt) ==>
      Keeps(at[n + 1], ip, device, u, Verdict(run, k, n + 1, u, expiresAt), expiresAt)
  }

  lemma {:induction false} KeptThroughout(run: seq<Timed>, at: seq<Store>, k: nat, n: nat, ip: string, device: string, u: string, expiresAt: int)
    requires |at| == |run| + 1 && k < n <= |run| && Keeps(at[k + 1], ip, device, u, Pending, expiresAt)
    requires forall i :: k < i < n ==> KeepsOn(run, at, k, i, ip, device, u, expiresAt)
    ensures Keeps(at[n], ip, device, u, Verdict(run, k, n, u, expiresAt), expiresAt)
    decreases n
  {
    if n > k + 1 {
      KeptThroughout(run, at, k, n - 1, ip, device, u, expiresAt);
      assert KeepsOn(run, at, k, n - 1, ip, device, u, expiresAt);
    }
  }

  /** Until then the code is kept, as it was decided. */
  lemma CodeIsKept(run: seq<Timed>, at: seq<Store>, k: nat, n: nat, ip: string, device: string, u: string, expiresAt: int)
    requires IsRun(run, at) && IsIssued(run, at, k, ip, device, u, expiresAt) && k < n <= |run|
    requires forall i :: k < i < n ==> !IsLast(run, k, i, device, u, expiresAt)
    ensures Keeps(at[n], ip, device, u, Verdict(run, k, n, u, expiresAt), expiresAt)
  {
    RunIsWell(run, at);
    InverseAt(run, at, k + 1);
    forall i | k < i < n ensures KeepsOn(run, at, k, i, ip, device, u, expiresAt) {
      assert StepsWell(run, at, i);
      if Keeps(at[i], ip, device, u, Verdict(run, k, i, u, expiresAt), expiresAt) {
        KeptOn(run, at, k, i, ip, device, u, expiresAt);
      }
    }
    KeptThroughout(run, at, k, n, ip, device, u, expiresAt);
  }

  /** What a poll is answered: the verdict, if it comes before the code expires, and pending while there is
      none; after that, that it expired. */
  lemma WhatAPollIsAnswered(run: seq<Timed>, at: seq<Store>, k: nat, j: nat, ip: string, device: string, u: string, expiresAt: int)
    requires IsRun(run, at) && IsIssued(run, at, k, ip, device, u, expiresAt) && k < j < |run|
    requires run[j].call == Poll(device) && forall i :: k < i < j ==> !IsLast(run, k, i, device, u, expiresAt)
    ensures PollAnswer(at[j], device, run[j].now) ==
            if expiresAt <= run[j].now then IsExpired
            else if Verdict(run, k, j, u, expiresAt) == Pending then IsPending
            else if Verdict(run, k, j, u, expiresAt) == Approved then IsApproved
            else IsDenied
  {
    CodeIsKept(run, at, k, j, ip, device, u, expiresAt);
  }

  /** What somebody is answered who types the code: the first decision is accepted, every other one is told
      that there is one, and none is accepted once the code has expired. */
  lemma WhatADecisionIsAnswered(run: seq<Timed>, at: seq<Store>, k: nat, j: nat, ip: string, device: string, u: string, expiresAt: int)
    requires IsRun(run, at) && IsIssued(run, at, k, ip, device, u, expiresAt) && k < j < |run|
    requires Types(run[j], u) && forall i :: k < i < j ==> !IsLast(run, k, i, device, u, expiresAt)
    ensures var verdict, now := Verdict(run, k, j, u, expiresAt), run[j].now;
            && ApproveAnswer(at[j], run[j].call.typed, now) == (if expiresAt <= now then TooLate else if verdict == Pending then Ok else Already)
            && (DenyAnswer(at[j], run[j].call.typed, now) <==> now < expiresAt && verdict == Pending)
  {
    CodeIsKept(run, at, k, j, ip, device, u, expiresAt);
  }

  /** After the last step that knows it, no poll is ever told anything of the code again. So a code that was
      denied is reported as denied exactly once, and so is one that was approved. */
  lemma ThenItIsUnknown(run: seq<Timed>, at: seq<Store>, k: nat, i: nat, j: nat, ip: string, device: string, u: string, expiresAt: int)
    requires IsRun(run, at) && IsIssued(run, at, k, ip, device, u, expiresAt) && IssuedOnce(run, at, device) && k < i < j < |run|
    requires IsLast(run, k, i, device, u, expiresAt) && forall m :: k < m < i ==> !IsLast(run, k, m, device, u, expiresAt)
    ensures PollAnswer(at[j], device, run[j].now) == IsUnknown
  {
    CodeIsKept(run, at, k, i, ip, device, u, expiresAt);
    forall m | k < m < |run| ensures !IssuesIt(at[m], run[m], device) {
      assert Issues(at[m], run[m]) ==> run[m].call.device != device;
    }
    assert !IssuesIt(at[i], run[i], device);
    assert device !in at[i + 1].byDevice;
    GoneForGood(run, at, i + 1, j, device);
  }
}
