/** The gateway's sliding-window rate limiter over a Redis sorted set. */
module RateLimiters {
  import opened Prelude

  datatype Bucket = Reads | Writes

  datatype Key = Key(bucket: Bucket, identity: string)

  /** A member of the sorted set: its text is made of the time and of the limiter that added it. */
  datatype Member = Member(time: real, limiter: nat)

  /** A sorted set with its time to live. */
  datatype Entry = Entry(members: set<Member>, expiresAt: real)

  type Store = map<Key, Entry>

  datatype Settings = Settings(enabled: bool, readLimit: nat, writeLimit: nat, window: nat)

  /** A request as the limiter sees it; `up` is false while Redis cannot be reached. */
  datatype Request = Request(key: Key, now: real, limiter: nat, up: bool)

  datatype Verdict = Unlimited | Admitted(limit: nat, remaining: nat) | Rejected(limit: nat)

  /** `httpMethod` in upper case. */
  predicate IsWrite(httpMethod: string) {
    httpMethod == "POST" || httpMethod == "PUT" || httpMethod == "PATCH" || httpMethod == "DELETE"
  }

  function BucketOf(httpMethod: string): Bucket {
    if IsWrite(httpMethod) then Writes else Reads
  }

  function LimitOf(c: Settings, b: Bucket): nat {
    match b
    case Reads => c.readLimit
    case Writes => c.writeLimit
  }

  // ------------------------------------------------------------ one check

  /** What Redis still has under the key: nothing once its time to live is over. */
  function Live(store: Store, key: Key, now: real): set<Member> {
    if key in store && now < store[key].expiresAt then store[key].members else {}
  }

  /** `ZREMRANGEBYSCORE key 0 (now - window)`. */
  function Trimmed(members: set<Member>, now: real, window: nat): set<Member> {
    set m | m in members && !(0.0 <= m.time <= now - window as real)
  }

  function Counted(c: Settings, store: Store, r: Request): set<Member> {
    Trimmed(Live(store, r.key, r.now), r.now, c.window) + {Member(r.now, r.limiter)}
  }

  predicate Counts(c: Settings, r: Request) {
    c.enabled && r.up
  }

  function StoreAfter(c: Settings, store: Store, r: Request): Store {
    if Counts(c, r) then store[r.key := Entry(Counted(c, store, r), r.now + c.window as real + 1.0)] else store
  }

  /** `check`. The request is counted whether or not it is then rejected; it fails open. */
  function VerdictOn(c: Settings, store: Store, r: Request): Verdict {
    if !Counts(c, r) then Unlimited
    else
      var limit, used := LimitOf(c, r.key.bucket), |Counted(c, store, r)|;
      if used > limit then Rejected(limit) else Admitted(limit, limit - used)
  }

  class RateLimiter {
    const settings: Settings
    const id: nat
    var store: Store

    constructor (settings: Settings, id: nat, store: Store)
      ensures this.settings == settings && this.id == id && this.store == store
    {
      this.settings, this.id, this.store := settings, id, store;
    }

    /** Consume one unit of budget. */
    method Check(identity: string, httpMethod: string, now: real, up: bool) returns (verdict: Verdict)
      modifies this`store
      ensures var r := Request(Key(BucketOf(httpMethod), identity), now, id, up);
        verdict == VerdictOn(settings, old(store), r) && store == StoreAfter(settings, old(store), r)
    {
      if !settings.enabled {
        return Unlimited;
      }
      var limit := if IsWrite(httpMethod) then settings.writeLimit else settings.readLimit;
      var key := Key(if IsWrite(httpMethod) then Writes else Reads, identity);
      if !up {
        return Unlimited;
      }
      var members := if key in store && now < store[key].expiresAt then store[key].members else {};
      members := set m | m in members && !(0.0 <= m.time <= now - settings.window as real);
      members := members + {Member(now, id)};
      var used := |members|;
      store := store[key := Entry(members, now + settings.window as real + 1.0)];
      if used > limit {
        return Rejected(limit);
      }
      return Admitted(limit, limit - used);
    }
  }

  // ------------------------------------------------------------ histories

  function StoreOf(c: Settings, history: seq<Request>): Store {
    if |history| == 0 then map[] else StoreAfter(c, StoreOf(c, history[..|history| - 1]), history[|history| - 1])
  }

  function VerdictAt(c: Settings, history: seq<Request>, k: nat): Verdict
    requires k < |history|
  {
    VerdictOn(c, StoreOf(c, history[..k]), history[k])
  }

  /** Time does not run backwards for a key. */
  ghost predicate Forward(history: seq<Request>, key: Key) {
    && (forall i :: 0 <= i < |history| ==> history[i].now >= 0.0)
    && (forall i, j :: 0 <= i < j < |history| && history[i].key == key == history[j].key ==>
          history[i].now <= history[j].now)
  }

  /** No two requests of a key are counted as the same member. */
  ghost predicate Apart(history: seq<Request>, key: Key) {
    forall i, j :: 0 <= i < j < |history| && history[i].key == key == history[j].key ==>
      Member(history[i].now, history[i].limiter) != Member(history[j].now, history[j].limiter)
  }

  /** The counted requests of `key` later than `after`. */
  function Since(c: Settings, history: seq<Request>, key: Key, after: real): set<nat> {
    set i: nat | i < |history| && history[i].key == key && Counts(c, history[i]) && history[i].now > after
  }

  function MemberOf(history: seq<Request>, i: nat): Member {
    if i < |history| then Member(history[i].now, history[i].limiter) else Member(0.0, 0)
  }

  function MembersOf(history: seq<Request>, indices: set<nat>): set<Member> {
    set i | i in indices :: MemberOf(history, i)
  }

  /** The time of the key's last counted request. */
  function LastOf(c: Settings, history: seq<Request>, key: Key): Option<real> {
    if |history| == 0 then None
    else
      var r := history[|history| - 1];
      if r.key == key && Counts(c, r) then Some(r.now) else LastOf(c, history[..|history| - 1], key)
  }

  /** What the store holds for a key: the members of its last window, for one second longer than that. */
  ghost predicate Holds(c: Settings, history: seq<Request>, key: Key) {
    var store, last := StoreOf(c, history), LastOf(c, history, key);
    match last
    case None => key !in store && forall after: real :: Since(c, history, key, after) == {}
    case Some(t) =>
      && key in store
      && store[key].expiresAt == t + c.window as real + 1.0
      && store[key].members == MembersOf(history, Since(c, history, key, t - c.window as real))
      && forall i: nat :: i < |history| && history[i].key == key && Counts(c, history[i]) ==> history[i].now <= t
  }

  lemma SinceSnoc(c: Settings, history: seq<Request>, r: Request, key: Key, after: real)
    ensures Since(c, history + [r], key, after)
         == Since(c, history, key, after) + (if r.key == key && Counts(c, r) && r.now > after then {|history|} else {})
  {
  }

  lemma MembersSnoc(history: seq<Request>, r: Request, indices: set<nat>)
    requires forall i :: i in indices ==> i < |history|
    ensures MembersOf(history + [r], indices) == MembersOf(history, indices)
    ensures MembersOf(history + [r], indices + {|history|}) == MembersOf(history, indices) + {Member(r.now, r.limiter)}
  {
    var all := history + [r];
    forall i | i in indices
      ensures MemberOf(all, i) == MemberOf(history, i)
    {
    }
    assert MemberOf(all, |history|) == Member(r.now, r.limiter);
    forall m | m in MembersOf(history, indices)
      ensures m in MembersOf(all, indices) && m in MembersOf(all, indices + {|history|})
    {
      var i :| i in indices && MemberOf(history, i) == m;
      assert MemberOf(all, i) == m;
    }
  }

  /** After trimming, the stored members are those of the counted requests in the new window. */
  lemma TrimmedIsWindow(c: Settings, history: seq<Request>, key: Key, now: real)
    requires Holds(c, history, key) && forall i :: 0 <= i < |history| ==> history[i].now >= 0.0
    requires LastOf(c, history, key).Some? ==> LastOf(c, history, key).value <= now
    ensures Trimmed(Live(StoreOf(c, history), key, now), now, c.window)
         == MembersOf(history, Since(c, history, key, now - c.window as real))
  {
    var store := StoreOf(c, history);
    var window := Since(c, history, key, now - c.window as real);
    var trimmed := Trimmed(Live(store, key, now), now, c.window);
    if LastOf(c, history, key).Some? {
      var t := LastOf(c, history, key).value;
      var stored := Since(c, history, key, t - c.window as real);
      forall m | m in trimmed
        ensures m in MembersOf(history, window)
      {
        var i :| i in stored && MemberOf(history, i) == m;
        assert i in window;
      }
      forall m | m in MembersOf(history, window)
        ensures m in trimmed
      {
        var i :| i in window && MemberOf(history, i) == m;
        assert i in stored && MemberOf(history, i) in store[key].members;
      }
    }
  }

  lemma LastSnoc(c: Settings, history: seq<Request>, r: Request, key: Key)
    ensures StoreOf(c, history + [r]) == StoreAfter(c, StoreOf(c, history), r)
    ensures LastOf(c, history + [r], key) == if r.key == key && Counts(c, r) then Some(r.now) else LastOf(c, history, key)
  {
    assert (history + [r])[..|history|] == history;
  }

  lemma {:induction false} LastIsEarlier(c: Settings, history: seq<Request>, key: Key) returns (i: nat)
    requires LastOf(c, history, key).Some?
    ensures i < |history| && history[i].key == key && LastOf(c, history, key) == Some(history[i].now)
  {
    i := |history| - 1;
    if !(history[i].key == key && Counts(c, history[i])) {
      i := LastIsEarlier(c, history[..i], key);
    }
  }

  /** A counted request of the key: what the limiter counts is its window, the request included. */
  lemma CountedIsWindow(c: Settings, history: seq<Request>, r: Request)
    requires c.window > 0 && Holds(c, history, r.key) && Forward(history + [r], r.key) && Counts(c, r)
    ensures Counted(c, StoreOf(c, history), r)
         == MembersOf(history + [r], Since(c, history + [r], r.key, r.now - c.window as real))
  {
    var all := history + [r];
    forall i | 0 <= i < |history|
      ensures history[i].now >= 0.0
    {
      assert all[i] == history[i];
    }
    if LastOf(c, history, r.key).Some? {
      var i := LastIsEarlier(c, history, r.key);
      assert all[i] == history[i] && all[|history|] == r;
    }
    TrimmedIsWindow(c, history, r.key, r.now);
    SinceSnoc(c, history, r, r.key, r.now - c.window as real);
    MembersSnoc(history, r, Since(c, history, r.key, r.now - c.window as real));
  }

  lemma HoldsOther(c: Settings, history: seq<Request>, r: Request, key: Key)
    requires Holds(c, history, key) && !(r.key == key && Counts(c, r))
    ensures Holds(c, history + [r], key)
  {
    LastSnoc(c, history, r, key);
    forall after: real
      ensures Since(c, history + [r], key, after) == Since(c, history, key, after)
    {
      SinceSnoc(c, history, r, key, after);
    }
    if LastOf(c, history, key).Some? {
      MembersSnoc(history, r, Since(c, history, key, LastOf(c, history, key).value - c.window as real));
    }
  }

  lemma HoldsCounted(c: Settings, history: seq<Request>, r: Request)
    requires c.window > 0 && Holds(c, history, r.key) && Forward(history + [r], r.key) && Counts(c, r)
    ensures Holds(c, history + [r], r.key)
  {
    var all := history + [r];
    LastSnoc(c, history, r, r.key);
    CountedIsWindow(c, history, r);
    forall i: nat | i < |all| && all[i].key == r.key && Counts(c, all[i])
      ensures all[i].now <= r.now
    {
      assert all[|history|] == r;
    }
  }

  lemma {:induction false} AlwaysHolds(c: Settings, history: seq<Request>, key: Key)
    requires c.window > 0 && Forward(history, key)
    ensures Holds(c, history, key)
  {
    if |history| > 0 {
      var init, r := history[..|history| - 1], history[|history| - 1];
      assert history == init + [r];
      AlwaysHolds(c, init, key);
      if r.key == key && Counts(c, r) {
        HoldsCounted(c, init, r);
      } else {
        HoldsOther(c, init, r, key);
      }
    }
  }

  // ------------------------------------------------------------ what is admitted

  lemma ForwardPrefix(history: seq<Request>, key: Key, k: nat)
    requires Forward(history, key) && k <= |history|
    ensures Forward(history[..k], key)
  {
    assert forall i :: 0 <= i < k ==> history[..k][i] == history[i];
  }

  /** A request is admitted exactly when its window, rejected requests included, has no more distinct
      members than the limit. */
  lemma AdmittedIffWindowFits(c: Settings, history: seq<Request>, k: nat)
    requires c.window > 0 && k < |history| && Forward(history, history[k].key) && Counts(c, history[k])
    ensures var r := history[k];
      VerdictAt(c, history, k).Admitted? <==>
        |MembersOf(history[..k + 1], Since(c, history[..k + 1], r.key, r.now - c.window as real))|
        <= LimitOf(c, r.key.bucket)
  {
    ForwardPrefix(history, history[k].key, k);
    ForwardPrefix(history, history[k].key, k + 1);
    AlwaysHolds(c, history[..k], history[k].key);
    assert history[..k + 1] == history[..k] + [history[k]];
    CountedIsWindow(c, history[..k], history[k]);
  }

  /** Distinct requests make distinct members, so they are counted one by one. */
  lemma {:induction false} ImageSize(history: seq<Request>, indices: set<nat>)
    requires forall i, j :: i in indices && j in indices && i != j ==> MemberOf(history, i) != MemberOf(history, j)
    ensures |MembersOf(history, indices)| == |indices|
    decreases |indices|
  {
    if indices != {} {
      var i :| i in indices;
      var rest := indices - {i};
      ImageSize(history, rest);
      assert indices == rest + {i};
      MembersOfPlus(history, rest, i);
      assert MemberOf(history, i) !in MembersOf(history, rest);
    } else {
      assert MembersOf(history, indices) == {};
    }
  }

  lemma MembersOfPlus(history: seq<Request>, indices: set<nat>, i: nat)
    ensures MembersOf(history, indices + {i}) == MembersOf(history, indices) + {MemberOf(history, i)}
  {
  }

  /** The admitted requests of `key` among `indices`. */
  ghost predicate AllAdmitted(c: Settings, history: seq<Request>, key: Key, indices: set<nat>) {
    forall i :: i in indices ==>
      i < |history| && history[i].key == key && Counts(c, history[i]) && VerdictAt(c, history, i).Admitted?
  }

  lemma {:induction false} Latest(indices: set<nat>) returns (k: nat)
    requires indices != {}
    ensures k in indices && forall i :: i in indices ==> i <= k
    decreases |indices|
  {
    var first :| first in indices;
    var rest := indices - {first};
    k := first;
    if rest != {} {
      var other := Latest(rest);
      k := if first < other then other else first;
    }
    forall i | i in indices
      ensures i <= k
    {
      assert i == first || i in rest;
    }
  }

  /** What holds of any requests: those admitted in a span shorter than the window, wherever it starts,
      have no more distinct members than the limit. */
  lemma DistinctBound(c: Settings, history: seq<Request>, key: Key, indices: set<nat>)
    requires c.window > 0 && Forward(history, key) && AllAdmitted(c, history, key, indices)
    requires forall i, j :: i in indices && j in indices ==> history[j].now - history[i].now < c.window as real
    ensures |MembersOf(history, indices)| <= LimitOf(c, key.bucket)
  {
    if indices == {} {
      assert MembersOf(history, indices) == {};
    } else {
      var k := Latest(indices);
      var upTo := history[..k + 1];
      var window := Since(c, upTo, key, history[k].now - c.window as real);
      forall m | m in MembersOf(history, indices)
        ensures m in MembersOf(upTo, window)
      {
        var i :| i in indices && MemberOf(history, i) == m;
        assert upTo[i] == history[i] && i in window && MemberOf(upTo, i) == m;
      }
      SubsetSize(MembersOf(history, indices), MembersOf(upTo, window));
      AdmittedIffWindowFits(c, history, k);
    }
  }

  /** The true sliding window: of the requests in any span shorter than the window, wherever it
      starts, no more than the limit are admitted when no two are one member. */
  lemma SlidingWindowBound(c: Settings, history: seq<Request>, key: Key, indices: set<nat>)
    requires c.window > 0 && Forward(history, key) && Apart(history, key) && AllAdmitted(c, history, key, indices)
    requires forall i, j :: i in indices && j in indices ==> history[j].now - history[i].now < c.window as real
    ensures |indices| <= LimitOf(c, key.bucket)
  {
    forall i, j | i in indices && j in indices && i != j
      ensures MemberOf(history, i) != MemberOf(history, j)
    {
      var a, b := if i < j then i else j, if i < j then j else i;
      assert Member(history[a].now, history[a].limiter) != Member(history[b].now, history[b].limiter);
    }
    ImageSize(history, indices);
    DistinctBound(c, history, key, indices);
  }

  /** Half-open windows, closed on either side. */
  lemma WindowsAreBounded(c: Settings, history: seq<Request>, key: Key, start: real, indices: set<nat>)
    requires c.window > 0 && Forward(history, key) && Apart(history, key) && AllAdmitted(c, history, key, indices)
    requires || (forall i :: i in indices ==> start <= history[i].now < start + c.window as real)
             || (forall i :: i in indices ==> start < history[i].now <= start + c.window as real)
    ensures |indices| <= LimitOf(c, key.bucket)
  {
    SlidingWindowBound(c, history, key, indices);
  }

  /** The limit of a request's method. */
  function MethodLimit(c: Settings, httpMethod: string): nat {
    if httpMethod in {"POST", "PUT", "PATCH", "DELETE"} then c.writeLimit else c.readLimit
  }

  /** The window, by the request's method: what one identity gets admitted of writes, and apart from them of
      reads, in any span shorter than the window, is within the limit for them. */
  lemma MethodBound(c: Settings, history: seq<Request>, httpMethod: string, identity: string, indices: set<nat>)
    requires c.window > 0
    requires var key := Key(BucketOf(httpMethod), identity); Forward(history, key) && AllAdmitted(c, history, key, indices)
    requires forall i, j :: i in indices && j in indices ==> history[j].now - history[i].now < c.window as real
    ensures |MembersOf(history, indices)| <= MethodLimit(c, httpMethod)
    ensures Apart(history, Key(BucketOf(httpMethod), identity)) ==> |indices| <= MethodLimit(c, httpMethod)
  {
    var key := Key(BucketOf(httpMethod), identity);
    DistinctBound(c, history, key, indices);
    if Apart(history, key) {
      SlidingWindowBound(c, history, key, indices);
    }
  }

  /** Two methods share a budget exactly when both write or neither does. */
  lemma BudgetsAreApart(a: string, b: string)
    ensures BucketOf(a) == BucketOf(b) <==>
      (a in {"POST", "PUT", "PATCH", "DELETE"} <==> b in {"POST", "PUT", "PATCH", "DELETE"})
  {
  }

  /** The exact answer: unlimited while the limiter is off or cannot reach its store; otherwise the window's
      distinct members, this request included, are compared with the method's limit, and what is left of it
      is reported. */
  lemma CheckAnswers(c: Settings, history: seq<Request>, httpMethod: string, identity: string, now: real, limiter: nat, up: bool)
    requires var r := Request(Key(BucketOf(httpMethod), identity), now, limiter, up);
      c.window > 0 && Forward(history + [r], r.key)
    ensures var r := Request(Key(BucketOf(httpMethod), identity), now, limiter, up);
      var all := history + [r];
      var used := |MembersOf(all, Since(c, all, r.key, now - c.window as real))|;
      VerdictAt(c, all, |history|) ==
        if !c.enabled || !up then Unlimited
        else if used > MethodLimit(c, httpMethod) then Rejected(MethodLimit(c, httpMethod))
        else Admitted(MethodLimit(c, httpMethod), MethodLimit(c, httpMethod) - used)
  {
    var r := Request(Key(BucketOf(httpMethod), identity), now, limiter, up);
    var all := history + [r];
    assert all[..|history|] == history && all[|history|] == r;
    if Counts(c, r) {
      ForwardPrefix(all, r.key, |history|);
      AlwaysHolds(c, history, r.key);
      CountedIsWindow(c, history, r);
    }
  }

  /** The same request `n` times over. */
  function Burst(r: Request, n: nat): seq<Request> {
    seq(n, _ => r)
  }

  /** The indices below `n`. */
  function FirstOf(n: nat): (indices: set<nat>)
    ensures forall i :: i in indices ==> i < n
    ensures |indices| == n
  {
    if n == 0 then {} else FirstOf(n - 1) + {n - 1}
  }

  lemma BurstAdmits(c: Settings, r: Request, n: nat, k: nat)
    requires c.enabled && c.window > 0 && LimitOf(c, r.key.bucket) >= 1 && r.now >= 0.0 && r.up && k < n
    ensures VerdictAt(c, Burst(r, n), k).Admitted?
  {
    var burst := Burst(r, n);
    var upTo := burst[..k + 1];
    var members := MembersOf(upTo, Since(c, upTo, r.key, r.now - c.window as real));
    SubsetSize(members, {Member(r.now, r.limiter)});
    AdmittedIffWindowFits(c, burst, k);
  }

  /** `Apart` is needed, whatever the limit: requests that one limiter sees at one instant are one
      member, so any number of them is admitted on a single unit. */
  lemma SameInstantIsOneUnit(c: Settings, key: Key, now: real, limiter: nat, n: nat)
    requires c.enabled && c.window > 0 && LimitOf(c, key.bucket) >= 1 && now >= 0.0
    ensures var burst := Burst(Request(key, now, limiter, true), n);
      Forward(burst, key) && AllAdmitted(c, burst, key, FirstOf(n)) && |FirstOf(n)| == |burst| == n
  {
    var r := Request(key, now, limiter, true);
    forall k | k in FirstOf(n)
      ensures VerdictAt(c, Burst(r, n), k).Admitted?
    {
      BurstAdmits(c, r, n, k);
    }
  }
}
