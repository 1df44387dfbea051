/** The device-authorization codes of src/identity.ts (sections 3.4 and 3.5 of RFC 8628): a long code
    the CLI polls with, a short one a human approves, each of them good once and for 15 minutes. */
module DeviceCodes {

  datatype Option<T> = None | Some(value: T)

  datatype Status = Pending | Approved | Denied

  datatype Record = Record(userCode: string, ip: string, status: Status, expiresAt: int)

  const TTL_MS := 15 * 60 * 1000
  const MAX_CODES := 2000
  const MAX_PER_IP := 20

  datatype Approval = Ok | NotFound | TooLate | Already

  /** Where a start stands: the route answers 429, a code was issued, or all that was drawn is taken and it
      goes on drawing. */
  datatype Starting = Refused | Issued(userCode: string) | StillDrawing

  datatype Polling = IsApproved | IsPending | IsDenied | IsExpired | IsUnknown

  // ---- user codes as people type them ----------------------------------------------------------

  function Upper(c: char): char {
    if 'a' <= c <= 'z' then ((c as int) - 32) as char else c
  }

  function Lower(c: char): char {
    if 'A' <= c <= 'Z' then ((c as int) + 32) as char else c
  }

  function LowerAll(s: string): string {
    seq(|s|, i requires 0 <= i < |s| => Lower(s[i]))
  }

  function Fold(c: char): string {
    var u := Upper(c);
    if 'A' <= u <= 'Z' || '0' <= u <= '9' then [u] else []
  }

  /** Upper case, and everything but letters and digits dropped. */
  function Normalize(s: string): string {
    if |s| == 0 then [] else Fold(s[0]) + Normalize(s[1..])
  }

  /** What a user code is drawn from: `L` is in, whatever the comment on the alphabet says. */
  predicate InAlphabet(c: char) {
    ('A' <= c <= 'Z' && c != 'I' && c != 'O') || '2' <= c <= '9'
  }

  /** How a code is shown: two groups of four. */
  function Display(u: string): string
    requires |u| >= 4
  {
    u[..4] + ['-'] + u[4..]
  }

  // ---- what the operations do ------------------------------------------------------------------

  datatype Store = Store(byDevice: map<string, Record>, byUser: map<string, string>)

  function Collected(s: Store, now: int): Store {
    Store(map d | d in s.byDevice && s.byDevice[d].expiresAt > now :: s.byDevice[d],
          s.byUser - (set d | d in s.byDevice && s.byDevice[d].expiresAt <= now :: s.byDevice[d].userCode))
  }

  function Consumed(s: Store, device: string): Store
    requires device in s.byDevice
  {
    Store(s.byDevice - {device}, s.byUser - {s.byDevice[device].userCode})
  }

  function Find(s: Store, typed: string): Option<string> {
    var u := Normalize(typed);
    if u in s.byUser && s.byUser[u] != "" && s.byUser[u] in s.byDevice then Some(s.byUser[u]) else None
  }

  function OfIp(s: Store, ip: string): set<string> {
    set d | d in s.byDevice && s.byDevice[d].ip == ip
  }

  /** The first code drawn that no live record has; None while there is none yet. */
  function FirstFree(draws: seq<string>, byUser: map<string, string>): (u: Option<string>)
    ensures u.Some? ==> u.value in draws && u.value !in byUser
    ensures u.None? ==> forall i :: 0 <= i < |draws| ==> draws[i] in byUser
  {
    if draws == [] then None
    else if draws[0] !in byUser then Some(draws[0])
    else FirstFree(draws[1..], byUser)
  }

  predicate Full(s: Store, ip: string) {
    |s.byDevice| >= MAX_CODES || |OfIp(s, ip)| >= MAX_PER_IP
  }

  function WithCode(s: Store, ip: string, device: string, u: string, now: int): Store {
    Store(s.byDevice[device := Record(u, ip, Pending, now + TTL_MS)], s.byUser[u := device])
  }

  function Marked(s: Store, device: string, status: Status): Store
    requires device in s.byDevice
  {
    s.(byDevice := s.byDevice[device := s.byDevice[device].(status := status)])
  }

  function ApproveAnswer(s: Store, typed: string, now: int): Approval {
    match Find(s, typed)
    case None => NotFound
    case Some(d) =>
      if s.byDevice[d].expiresAt <= now then TooLate
      else if s.byDevice[d].status != Pending then Already
      else Ok
  }

  function DenyAnswer(s: Store, typed: string, now: int): bool {
    match Find(s, typed)
    case None => false
    case Some(d) => s.byDevice[d].expiresAt > now && s.byDevice[d].status == Pending
  }

  function PollAnswer(s: Store, device: string, now: int): Polling {
    if device !in s.byDevice then IsUnknown
    else if s.byDevice[device].expiresAt <= now then IsExpired
    else
      match s.byDevice[device].status
      case Approved => IsApproved
      case Denied => IsDenied
      case Pending => IsPending
  }

  function PolledStore(s: Store, device: string, now: int): Store {
    if PollAnswer(s, device, now) in {IsUnknown, IsPending} then s
    else if device in s.byDevice then Consumed(s, device)
    else s
  }

  // ---- the program -----------------------------------------------------------------------------

  class DeviceCodeStore {
    var byDevice: map<string, Record>
    var byUser: map<string, string>

    function State(): Store
      reads this
    {
      Store(byDevice, byUser)
    }

    constructor ()
      ensures State() == Store(map[], map[])
    {
      byDevice, byUser := map[], map[];
    }

    method Gc(now: int)
      modifies this
      ensures State() == Collected(old(State()), now)
    {
      var todo := byDevice.Keys;
      while todo != {}
        invariant todo <= byDevice.Keys
        invariant byDevice == map d | d in old(byDevice) && (d in todo || old(byDevice)[d].expiresAt > now) :: old(byDevice)[d]
        invariant byUser == old(byUser) - (set d | d in old(byDevice) && d !in todo && old(byDevice)[d].expiresAt <= now :: old(byDevice)[d].userCode)
        decreases todo
      {
        var d :| d in todo;
        todo := todo - {d};
        var r := byDevice[d];
        if r.expiresAt <= now {
          byDevice := byDevice - {d};
          byUser := byUser - {r.userCode};
        }
      }
    }

    method Consume(device: string)
      requires device in byDevice
      modifies this
      ensures State() == Consumed(old(State()), device)
    {
      var r := byDevice[device];
      byDevice := byDevice - {device};
      byUser := byUser - {r.userCode};
    }

    /** Whether `ip` has as many live codes as it may have: the count stops as soon as it knows. */
    method AtIpCap(ip: string) returns (full: bool)
      ensures full <==> |OfIp(State(), ip)| >= MAX_PER_IP
    {
      var perIp := 0;
      var todo := byDevice.Keys;
      ghost var counted: set<string> := {};
      while todo != {}
        invariant todo <= byDevice.Keys && perIp == |counted| && perIp < MAX_PER_IP
        invariant counted == set d | d in OfIp(State(), ip) && d !in todo
        decreases todo
      {
        var d :| d in todo;
        todo := todo - {d};
        if byDevice[d].ip == ip {
          perIp := perIp + 1;
          counted := counted + {d};
          if perIp >= MAX_PER_IP {
            SubsetIsSmaller(counted, OfIp(State(), ip));
            return true;
          }
        }
      }
      assert counted == OfIp(State(), ip);
      return false;
    }

    /** `start`, on the random codes it has drawn so far. */
    method Start(ip: string, device: string, draws: seq<string>, now: int) returns (r: Starting)
      modifies this
      ensures var s := Collected(old(State()), now);
              && (r.Refused? <==> Full(s, ip))
              && (r.StillDrawing? ==> forall i :: 0 <= i < |draws| ==> draws[i] in s.byUser)
              && (r.Issued? ==> Some(r.userCode) == FirstFree(draws, s.byUser))
              && State() == if r.Issued? then WithCode(s, ip, device, r.userCode, now) else s
    {
      Gc(now);
      if |byDevice| >= MAX_CODES {
        return Refused;
      }
      var full := AtIpCap(ip);
      if full {
        return Refused;
      }
      var n := 0;
      while n < |draws| && draws[n] in byUser
        invariant 0 <= n <= |draws| && forall i :: 0 <= i < n ==> draws[i] in byUser
        invariant FirstFree(draws[n..], byUser) == FirstFree(draws, byUser)
      {
        assert draws[n..][0] == draws[n] && draws[n..][1..] == draws[n + 1..];
        n := n + 1;
      }
      if n == |draws| {
        return StillDrawing;
      }
      assert draws[n..][0] == draws[n];
      var userCode := draws[n];
      byDevice := byDevice[device := Record(userCode, ip, Pending, now + TTL_MS)];
      byUser := byUser[userCode := device];
      r := Issued(userCode);
    }

    method Approve(typed: string, now: int) returns (answer: Approval)
      modifies this
      ensures answer == ApproveAnswer(old(State()), typed, now)
      ensures State() == if answer.Ok? then Marked(old(State()), Find(old(State()), typed).value, Approved) else old(State())
    {
      var found := Find(State(), typed);
      if found.None? {
        return NotFound;
      }
      var rec := byDevice[found.value];
      if rec.expiresAt <= now {
        return TooLate;
      }
      if rec.status != Pending {
        return Already;
      }
      byDevice := byDevice[found.value := rec.(status := Approved)];
      return Ok;
    }

    method Deny(typed: string, now: int) returns (answer: bool)
      modifies this
      ensures answer == DenyAnswer(old(State()), typed, now)
      ensures State() == if answer then Marked(old(State()), Find(old(State()), typed).value, Denied) else old(State())
    {
      var found := Find(State(), typed);
      if found.None? || byDevice[found.value].expiresAt <= now || byDevice[found.value].status != Pending {
        return false;
      }
      byDevice := byDevice[found.value := byDevice[found.value].(status := Denied)];
      return true;
    }

    method Poll(device: string, now: int) returns (answer: Polling)
      modifies this
      ensures answer == PollAnswer(old(State()), device, now)
      ensures State() == PolledStore(old(State()), device, now)
    {
      if device !in byDevice {
        return IsUnknown;
      }
      var rec := byDevice[device];
      if rec.expiresAt <= now {
        Consume(device);
        return IsExpired;
      }
      if rec.status == Approved {
        Consume(device);
        return IsApproved;
      }
      if rec.status == Denied {
        Consume(device);
        return IsDenied;
      }
      return IsPending;
    }
  }

  lemma {:induction false} SubsetIsSmaller(a: set<string>, b: set<string>)
    requires a <= b
    ensures |a| <= |b|
  {
    if a != {} {
      var x :| x in a;
      SubsetIsSmaller(a - {x}, b - {x});
    }
  }

  // ---- what is shown can be typed back ---------------------------------------------------------

  predicate IsUserCode(u: string) {
    |u| == 8 && forall c :: c in u ==> InAlphabet(c)
  }

  lemma {:induction false} NormalizeConcat(a: string, b: string)
    ensures Normalize(a + b) == Normalize(a) + Normalize(b)
  {
    if |a| == 0 {
      assert a + b == b;
    } else {
      NormalizeConcat(a[1..], b);
      assert (a + b)[1..] == a[1..] + b;
    }
  }

  lemma LowerAllConcat(a: string, b: string)
    ensures LowerAll(a + b) == LowerAll(a) + LowerAll(b)
  {
  }

  lemma {:induction false} NormalizeKeeps(u: string)
    requires forall c :: c in u ==> InAlphabet(c)
    ensures Normalize(u) == u && Normalize(LowerAll(u)) == u
  {
    if |u| > 0 {
      NormalizeKeeps(u[1..]);
      assert InAlphabet(u[0]);
      assert Fold(u[0]) == [u[0]] && Fold(Lower(u[0])) == [u[0]];
      assert LowerAll(u)[1..] == LowerAll(u[1..]);
    }
  }

  /** A user code typed as it is shown, grouped or not and in either case, is the stored code. */
  lemma TypedAsShown(u: string)
    requires IsUserCode(u)
    ensures Normalize(Display(u)) == u && Normalize(LowerAll(Display(u))) == u && Normalize(u) == u
  {
    var a, b := u[..4], u[4..];
    NormalizeKeeps(u);
    NormalizeKeeps(a);
    NormalizeKeeps(b);
    NormalizeConcat(a + ['-'], b);
    NormalizeConcat(a, ['-']);
    LowerAllConcat(a + ['-'], b);
    LowerAllConcat(a, ['-']);
    NormalizeConcat(LowerAll(a + ['-']), LowerAll(b));
    NormalizeConcat(LowerAll(a), LowerAll(['-']));
    assert Normalize(['-']) == [] && LowerAll(['-']) == ['-'];
    assert u == a + b;
  }
}
