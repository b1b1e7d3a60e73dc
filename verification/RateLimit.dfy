// internal/middleware/ratelimit.go: the fixed-window limiter in front of the login route. Requests
// and the cleanup loop take turns under one mutex, so each of them is one step.
module RateLimit {
  import opened Wrappers

  datatype Window = Window(count: int, resetAt: int)

  // window is the length of one counting window.
  datatype Policy = Policy(maxRequests: int, window: int) {
    // What one counting window admits: its first request always passes.
    function Quota(): (n: int)
      ensures n >= 1 && n >= maxRequests
    {
      if maxRequests > 1 then maxRequests else 1
    }
  }

  // ----- One address: the counter a request meets, and what it leaves -----

  function Alive(w: Option<Window>, now: int): Option<Window> {
    if w.Some? && now > w.value.resetAt then None else w
  }

  function Charge(policy: Policy, w: Option<Window>, now: int): Window {
    if Alive(w, now).None? then Window(1, now + policy.window) else Window(w.value.count + 1, w.value.resetAt)
  }

  predicate Admits(policy: Policy, w: Option<Window>, now: int) {
    Alive(w, now).None? || w.value.count + 1 <= policy.maxRequests
  }

  // ----- The table of counters -----

  function At(m: map<string, Window>, ip: string): Option<Window> {
    if ip in m then Some(m[ip]) else None
  }

  function Sweep(m: map<string, Window>, now: int): map<string, Window> {
    map ip | ip in m && !(now > m[ip].resetAt) :: m[ip]
  }

  class Entry {
    var count: int
    const resetAt: int

    constructor (count: int, resetAt: int)
      ensures this.count == count && this.resetAt == resetAt
    {
      this.count := count;
      this.resetAt := resetAt;
    }
  }

  class Limiter {
    const policy: Policy
    var ipCounts: map<string, Entry>

    // No two addresses share a counter.
    ghost predicate Valid()
      reads this
    {
      forall x, y | x in ipCounts && y in ipCounts && ipCounts[x] == ipCounts[y] :: x == y
    }

    ghost function Contents(): map<string, Window>
      reads this, ipCounts.Values
    {
      map ip | ip in ipCounts :: Window(ipCounts[ip].count, ipCounts[ip].resetAt)
    }

    constructor (maxRequests: int, window: int)
      ensures Valid() && policy == Policy(maxRequests, window) && Contents() == map[]
    {
      policy := Policy(maxRequests, window);
      ipCounts := map[];
    }

    method Request(ip: string, now: int) returns (admitted: bool)
      requires Valid()
      modifies this, ipCounts.Values
      ensures Valid() && admitted == Admits(policy, At(old(Contents()), ip), now)
      ensures Contents() == old(Contents())[ip := Charge(policy, At(old(Contents()), ip), now)]
    {
      if ip !in ipCounts || now > ipCounts[ip].resetAt {
        var e := new Entry(1, now + policy.window);
        ipCounts := ipCounts[ip := e];
        return true;
      }
      var e := ipCounts[ip];
      e.count := e.count + 1;
      return e.count <= policy.maxRequests;
    }

    // One round of the cleanup loop.
    method Cleanup(now: int)
      requires Valid()
      modifies this
      ensures Valid() && Contents() == Sweep(old(Contents()), now)
    {
      var todo := ipCounts.Keys;
      while todo != {}
        invariant Valid()
        invariant forall ip | ip in ipCounts :: ip in old(ipCounts) && ipCounts[ip] == old(ipCounts[ip])
        invariant forall ip | ip in todo :: ip in ipCounts
        invariant forall ip | ip in old(ipCounts) && ip !in todo ::
          ip in ipCounts <==> !(now > old(ipCounts[ip].resetAt))
        decreases todo
      {
        var ip :| ip in todo;
        if now > ipCounts[ip].resetAt { ipCounts := ipCounts - {ip}; }
        todo := todo - {ip};
      }
    }
  }

  // ----- Runs -----

  datatype Event = Hit(ip: string, now: int) | Clean(now: int)

  // The clock never goes back.
  ghost predicate Ordered(es: seq<Event>) { forall i, j | 0 <= i < j < |es| :: es[i].now <= es[j].now }

  ghost function Run(policy: Policy, es: seq<Event>): map<string, Window> {
    if es == [] then map[]
    else
      var m, e := Run(policy, es[..|es| - 1]), es[|es| - 1];
      match e
      case Hit(ip, now) => m[ip := Charge(policy, At(m, ip), now)]
      case Clean(now) => Sweep(m, now)
  }

  ghost predicate Admitted(policy: Policy, es: seq<Event>, i: nat)
    requires i < |es| && es[i].Hit?
  {
    Admits(policy, At(Run(policy, es[..i]), es[i].ip), es[i].now)
  }

  // One address alone, with no cleanup: the times of its requests so far.
  ghost function Solo(policy: Policy, ts: seq<int>): Option<Window> {
    if ts == [] then None else Some(Charge(policy, Solo(policy, ts[..|ts| - 1]), ts[|ts| - 1]))
  }

  ghost function Times(es: seq<Event>, ip: string): seq<int> {
    if es == [] then []
    else if es[|es| - 1].Hit? && es[|es| - 1].ip == ip then Times(es[..|es| - 1], ip) + [es[|es| - 1].now]
    else Times(es[..|es| - 1], ip)
  }

  // Of the counter of one address, other addresses and cleanups only ever drop what has run out.
  lemma {:induction false} SameCounter(policy: Policy, es: seq<Event>, ip: string, now: int)
    requires Ordered(es) && forall i | 0 <= i < |es| :: es[i].now <= now
    ensures Alive(At(Run(policy, es), ip), now) == Alive(Solo(policy, Times(es, ip)), now)
    decreases |es|
  {
    if es != [] {
      var before, e := es[..|es| - 1], es[|es| - 1];
      SameCounter(policy, before, ip, e.now);
      if e.Hit? && e.ip == ip { SoloStep(policy, Times(before, ip), e.now); }
    }
  }

  lemma SoloStep(policy: Policy, ts: seq<int>, t: int)
    ensures Solo(policy, ts + [t]) == Some(Charge(policy, Solo(policy, ts), t))
    ensures forall a, b :: 
      SoloCount(policy, ts + [t], a, b) ==
      SoloCount(policy, ts, a, b) + if a <= t <= b && Admits(policy, Solo(policy, ts), t) then 1 else 0
  {
    assert (ts + [t])[..|ts|] == ts;
  }

  // The decisions for one address are those of a single counter that sees that address alone.
  lemma DecidedAlone(policy: Policy, es: seq<Event>, i: nat)
    requires Ordered(es) && i < |es| && es[i].Hit?
    ensures Admitted(policy, es, i) <==> Admits(policy, Solo(policy, Times(es[..i], es[i].ip)), es[i].now)
  {
    SameCounter(policy, es[..i], es[i].ip, es[i].now);
  }

  function Erase(es: seq<Event>): seq<Event> {
    if es == [] then []
    else if es[|es| - 1].Clean? then Erase(es[..|es| - 1])
    else Erase(es[..|es| - 1]) + [es[|es| - 1]]
  }

  lemma {:induction false} EraseTimes(es: seq<Event>, ip: string)
    ensures Times(Erase(es), ip) == Times(es, ip)
    decreases |es|
  {
    if es != [] {
      EraseTimes(es[..|es| - 1], ip);
      if es[|es| - 1].Hit? { assert Erase(es)[..|Erase(es)| - 1] == Erase(es[..|es| - 1]); }
    }
  }

  lemma {:induction false} EraseOrdered(es: seq<Event>, now: int)
    requires Ordered(es) && forall i | 0 <= i < |es| :: es[i].now <= now
    ensures Ordered(Erase(es)) && forall i | 0 <= i < |Erase(es)| :: Erase(es)[i].now <= now
    decreases |es|
  {
    if es != [] { EraseOrdered(es[..|es| - 1], es[|es| - 1].now); }
  }

  // A limiter that never cleans up takes every decision as this one does.
  lemma CleanupIsInvisible(policy: Policy, es: seq<Event>, i: nat)
    requires Ordered(es) && i < |es| && es[i].Hit?
    ensures var bare := Erase(es[..i]) + [es[i]]; Admitted(policy, es, i) <==> Admitted(policy, bare, |bare| - 1)
  {
    var before, e := es[..i], es[i];
    EraseTimes(before, e.ip);
    EraseOrdered(before, e.now);
    assert (Erase(before) + [e])[..|Erase(before)|] == Erase(before);
    SameCounter(policy, before, e.ip, e.now);
    SameCounter(policy, Erase(before), e.ip, e.now);
  }

  lemma SweptAt(policy: Policy, es: seq<Event>, ip: string, now: int)
    ensures At(Run(policy, es + [Clean(now)]), ip) == Alive(At(Run(policy, es), ip), now)
  {
    assert (es + [Clean(now)])[..|es|] == es;
  }

  // After a cleanup the table holds exactly the addresses whose own requests left a window that still runs,
  // with the counters a lone counter would have.
  lemma CleanupKeepsRunning(policy: Policy, es: seq<Event>, ip: string, now: int)
    requires Ordered(es) && forall i | 0 <= i < |es| :: es[i].now <= now
    ensures At(Run(policy, es + [Clean(now)]), ip) == Alive(Solo(policy, Times(es, ip)), now)
  {
    hide Run, Times, Solo;
    SweptAt(policy, es, ip, now);
    SameCounter(policy, es, ip, now);
  }

  // ----- How much one address gets through -----

  // Requests of ip admitted from a to b.
  ghost function Count(policy: Policy, es: seq<Event>, ip: string, a: int, b: int): nat {
    if es == [] then 0
    else
      var e := es[|es| - 1];
      Count(policy, es[..|es| - 1], ip, a, b) +
      if e.Hit? && e.ip == ip && a <= e.now <= b && Admitted(policy, es, |es| - 1) then 1 else 0
  }

  ghost function SoloCount(policy: Policy, ts: seq<int>, a: int, b: int): nat {
    if ts == [] then 0
    else
      var before, t := ts[..|ts| - 1], ts[|ts| - 1];
      SoloCount(policy, before, a, b) + if a <= t <= b && Admits(policy, Solo(policy, before), t) then 1 else 0
  }

  lemma {:induction false} CountAlone(policy: Policy, es: seq<Event>, ip: string, a: int, b: int)
    requires Ordered(es)
    ensures Count(policy, es, ip, a, b) == SoloCount(policy, Times(es, ip), a, b)
    decreases |es|
  {
    if es != [] {
      var before, e := es[..|es| - 1], es[|es| - 1];
      CountAlone(policy, before, ip, a, b);
      if e.Hit? && e.ip == ip {
        DecidedAlone(policy, es, |es| - 1);
        SoloStep(policy, Times(before, ip), e.now);
      }
    }
  }

  lemma {:induction false} TimesOrdered(es: seq<Event>, ip: string, now: int)
    requires Ordered(es) && forall i | 0 <= i < |es| :: es[i].now <= now
    ensures forall k | 0 <= k < |Times(es, ip)| :: Times(es, ip)[k] <= now
    ensures forall j, k | 0 <= j < k < |Times(es, ip)| :: Times(es, ip)[j] <= Times(es, ip)[k]
    decreases |es|
  {
    if es != [] { TimesOrdered(es[..|es| - 1], ip, es[|es| - 1].now); }
  }

  // A window that began before a has let at most its quota less the opening request into [a, a + window];
  // one that began later came after at most one such window.
  lemma {:induction false} SoloBound(policy: Policy, ts: seq<int>, a: int)
    requires policy.window >= 0 && forall j, k | 0 <= j < k < |ts| :: ts[j] <= ts[k]
    ensures SoloCount(policy, ts, a, a + policy.window) <= 2 * policy.Quota() - 1
    ensures ts != [] ==>
      var n, w := SoloCount(policy, ts, a, a + policy.window), Solo(policy, ts).value;
      var start, used := w.resetAt - policy.window, if w.count < policy.Quota() then w.count else policy.Quota();
      && w.count >= 1 && start <= ts[|ts| - 1] <= w.resetAt
      && (ts[|ts| - 1] < a ==> n == 0)
      && (start < a ==> n <= used - 1)
      && (a <= start <= a + policy.window ==> n <= policy.Quota() - 1 + used)
    decreases |ts|
  {
    if ts != [] { SoloBound(policy, ts[..|ts| - 1], a); }
  }

  // Any closed interval as long as a window holds fewer than twice the quota of admitted requests of one address.
  lemma AtMostTwoWindows(policy: Policy, es: seq<Event>, ip: string, a: int)
    requires Ordered(es)
    ensures Count(policy, es, ip, a, a + policy.window) <= 2 * policy.Quota() - 1
  {
    CountAlone(policy, es, ip, a, a + policy.window);
    if policy.window >= 0 {
      if es != [] { TimesOrdered(es, ip, es[|es| - 1].now); }
      SoloBound(policy, Times(es, ip), a);
    } else {
      NoneInside(policy, Times(es, ip), a, a + policy.window);
    }
  }

  lemma {:induction false} NoneInside(policy: Policy, ts: seq<int>, a: int, b: int)
    requires b < a
    ensures SoloCount(policy, ts, a, b) == 0
    decreases |ts|
  {
    if ts != [] { NoneInside(policy, ts[..|ts| - 1], a, b); }
  }

  // ----- The bound is reached -----

  function Burst(ip: string, t: int, n: nat): seq<Event> { seq(n, _ => Hit(ip, t)) }

  lemma RunStep(policy: Policy, es: seq<Event>, ip: string, now: int)
    ensures Run(policy, es + [Hit(ip, now)]) == Run(policy, es)[ip := Charge(policy, At(Run(policy, es), ip), now)]
    ensures forall a, b ::
      Count(policy, es + [Hit(ip, now)], ip, a, b) ==
      Count(policy, es, ip, a, b) + if a <= now <= b && Admits(policy, At(Run(policy, es), ip), now) then 1 else 0
  {
    assert (es + [Hit(ip, now)])[..|es|] == es;
  }

  // Requests inside a running window are all let through while the quota lasts.
  lemma {:induction false} BurstPasses(policy: Policy, es: seq<Event>, ip: string, t: int, n: nat, a: int, b: int)
    requires a <= t <= b && ip in Run(policy, es)
    requires var w := Run(policy, es)[ip]; t <= w.resetAt && 1 <= w.count && w.count + n <= policy.Quota()
    ensures var es', w := es + Burst(ip, t, n), Run(policy, es)[ip];
      && Count(policy, es', ip, a, b) == Count(policy, es, ip, a, b) + n
      && ip in Run(policy, es') && Run(policy, es')[ip] == Window(w.count + n, w.resetAt)
    decreases n
  {
    var es' := es + Burst(ip, t, n);
    if n == 0 {
      assert es' == es;
    } else {
      BurstPasses(policy, es, ip, t, n - 1, a, b);
      assert es' == es + Burst(ip, t, n - 1) + [Hit(ip, t)];
      RunStep(policy, es + Burst(ip, t, n - 1), ip, t);
    }
  }

  // One request at 0, the rest of its quota at the last moment of the window, and the whole next quota right after.
  function Rush(policy: Policy, ip: string): seq<Event> {
    [Hit(ip, 0)] + Burst(ip, policy.window, policy.Quota() - 1)
    + [Hit(ip, policy.window + 1)] + Burst(ip, policy.window + 1, policy.Quota() - 1)
  }

  lemma BoundIsReached(policy: Policy, ip: string)
    requires policy.window >= 1
    ensures Ordered(Rush(policy, ip))
    ensures Count(policy, Rush(policy, ip), ip, 1, 1 + policy.window) == 2 * policy.Quota() - 1
  {
    hide Run, Count, Burst;
    var w, q := policy.window, policy.Quota();
    var one := [] + [Hit(ip, 0)];
    assert one == [Hit(ip, 0)];
    var two := one + Burst(ip, w, q - 1);
    RushStarts(policy);
    RunStep(policy, [], ip, 0);
    BurstPasses(policy, one, ip, w, q - 1, 1, 1 + w);
    RunStep(policy, two, ip, w + 1);
    BurstPasses(policy, two + [Hit(ip, w + 1)], ip, w + 1, q - 1, 1, 1 + w);
    RushOrdered(policy, ip);
  }

  lemma RushStarts(policy: Policy)
    ensures Run(policy, []) == map[] && forall ip, a, b :: Count(policy, [], ip, a, b) == 0
  {
  }

  lemma RushOrdered(policy: Policy, ip: string)
    requires policy.window >= 1
    ensures Ordered(Rush(policy, ip))
  {
  }
}
