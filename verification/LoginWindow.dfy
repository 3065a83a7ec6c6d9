/**
 The window of password attempts (internal/auth/local.go).  Times are seconds
 of one clock that does not go back, read once per call.
 */
module LoginWindow {
  const LIMIT := 8
  const WINDOW := 300
  const CAPACITY := 1000

  datatype Attempt = Attempt(count: nat, until: int)

  type Attempts = map<string, Attempt>

  /** The entries whose window is still open. */
  function Live(m: Attempts, now: int): Attempts {
    map k | k in m && m[k].until > now :: m[k]
  }

  function CountOf(m: Attempts, key: string): nat {
    if key in m then m[key].count else 0
  }

  predicate Allows(m: Attempts, key: string, now: int) {
    CountOf(Live(m, now), key) < LIMIT && |Live(m, now)| < CAPACITY
  }

  function Permitted(m: Attempts, key: string, now: int): Attempts {
    var live := Live(m, now);
    if !Allows(m, key, now) then live
    else if CountOf(live, key) == 0 then live[key := Attempt(1, now + WINDOW)]
    else live[key := Attempt(live[key].count + 1, live[key].until)]
  }

  function Forgotten(m: Attempts, key: string): Attempts {
    map k | k in m && k != key :: m[k]
  }

  // ----- histories -----

  /** One call: an attempt with its answer, or the reset of a successful login. */
  datatype Call = Attempted(key: string, at: int, ok: bool) | Succeeded(key: string, at: int)

  function Replay(h: seq<Call>): Attempts {
    if h == [] then map[]
    else
      var m, c := Replay(h[..|h| - 1]), h[|h| - 1];
      match c
      case Attempted(key, at, _) => Permitted(m, key, at)
      case Succeeded(key, _) => Forgotten(m, key)
  }

  predicate Answered(h: seq<Call>, i: int)
    requires 0 <= i < |h|
  {
    h[i].Attempted? ==> (h[i].ok <==> Allows(Replay(h[..i]), h[i].key, h[i].at))
  }

  /** A history of the manager: every answer is the one its map gave, and time does not go back. */
  predicate History(h: seq<Call>) {
    && (forall i :: 0 <= i < |h| ==> Answered(h, i))
    && forall i, j :: 0 <= i < j < |h| ==> h[i].at <= h[j].at
  }

  /** No call was later than `now`. */
  predicate Until(h: seq<Call>, now: int) {
    forall i :: 0 <= i < |h| ==> h[i].at <= now
  }

  lemma {:induction false} HistoryGrows(h: seq<Call>, c: Call)
    requires History(h) && Until(h, c.at)
    requires c.Attempted? ==> (c.ok <==> Allows(Replay(h), c.key, c.at))
    ensures History(h + [c]) && Until(h + [c], c.at)
  {
    hide Allows, Replay;
    var g := h + [c];
    forall i | 0 <= i < |g|
      ensures Answered(g, i)
    {
      assert g[..i] == h[..i];
      if i < |h| { assert Answered(h, i); }
      assert h[..|h|] == h;
    }
  }

  lemma {:induction false} ReplayNext(h: seq<Call>, c: Call)
    ensures Replay(h + [c]) == match c
      case Attempted(key, at, _) => Permitted(Replay(h), key, at)
      case Succeeded(key, _) => Forgotten(Replay(h), key)
  {
    hide Permitted, Forgotten;
    assert (h + [c])[..|h|] == h;
  }

  class Manager {
    var attempts: Attempts
    ghost var history: seq<Call>

    /** The map is what the calls so far have made of it, with the answers they gave. */
    ghost predicate Valid()
      reads this
    {
      History(history) && attempts == Replay(history)
    }

    constructor ()
      ensures Valid() && attempts == map[] && history == []
    {
      attempts := map[];
      history := [];
    }

    /** `permitLogin`: drops the closed windows, then counts the attempt or refuses it. */
    method Permit(key: string, now: int) returns (ok: bool)
      modifies this
      ensures ok <==> Allows(old(attempts), key, now)
      ensures attempts == Permitted(old(attempts), key, now)
      ensures history == old(history) + [Attempted(key, now, ok)]
      ensures old(Valid()) && Until(old(history), now) ==> Valid() && Until(history, now)
    {
      var keys := attempts.Keys;
      ghost var before := attempts;
      while keys != {}
        invariant keys <= before.Keys && history == old(history)
        invariant attempts == map k | k in before && (k in keys || before[k].until > now) :: before[k]
      {
        var k :| k in keys;
        if attempts[k].until <= now {
          attempts := attempts - {k};
        }
        keys := keys - {k};
      }
      assert attempts == Live(before, now);
      var a := if key in attempts then attempts[key] else Attempt(0, 0);
      ok := a.count < LIMIT && |attempts| < CAPACITY;
      if ok {
        if a.count == 0 {
          a := a.(until := now + WINDOW);
        }
        a := a.(count := a.count + 1);
        attempts := attempts[key := a];
      }
      Took(Attempted(key, now, ok), before);
    }

    /** What a successful login does to the window. */
    method Succeed(key: string, ghost now: int)
      modifies this
      ensures attempts == Forgotten(old(attempts), key)
      ensures history == old(history) + [Succeeded(key, now)]
      ensures old(Valid()) && Until(old(history), now) ==> Valid() && Until(history, now)
    {
      ghost var before := attempts;
      attempts := attempts - {key};
      Took(Succeeded(key, now), before);
    }

    /** Records the call that has made the map what it is. */
    ghost method Took(c: Call, before: Attempts)
      requires attempts == match c
        case Attempted(key, at, _) => Permitted(before, key, at)
        case Succeeded(key, _) => Forgotten(before, key)
      requires c.Attempted? ==> (c.ok <==> Allows(before, c.key, c.at))
      modifies this`history
      ensures history == old(history) + [c]
      ensures History(old(history)) && before == Replay(old(history)) && Until(old(history), c.at)
        ==> Valid() && Until(history, c.at)
    {
      hide Permitted, Forgotten, Allows;
      ReplayNext(history, c);
      if History(history) && before == Replay(history) && Until(history, c.at) {
        HistoryGrows(history, c);
      }
      history := history + [c];
    }
  }

  /** The permitted attempts of a key in the half-open interval of one window's length from `from`. */
  function Count(h: seq<Call>, key: string, from: int): nat {
    if h == [] then 0
    else
      var c := h[|h| - 1];
      Count(h[..|h| - 1], key, from)
      + if c.Attempted? && c.ok && c.key == key && from <= c.at < from + WINDOW then 1 else 0
  }

  predicate NoSuccess(h: seq<Call>, key: string, from: int) {
    forall i :: 0 <= i < |h| && h[i].Succeeded? && h[i].key == key ==> h[i].at < from || h[i].at >= from + WINDOW
  }

  lemma {:induction false} HistoryFront(h: seq<Call>)
    requires History(h) && h != []
    ensures History(h[..|h| - 1])
    ensures h[|h| - 1].Attempted? ==> (h[|h| - 1].ok <==> Allows(Replay(h[..|h| - 1]), h[|h| - 1].key, h[|h| - 1].at))
    ensures forall i :: 0 <= i < |h| ==> h[i].at <= h[|h| - 1].at
  {
    hide Allows, Replay;
    var g := h[..|h| - 1];
    assert Answered(h, |h| - 1);
    forall i | 0 <= i < |g|
      ensures Answered(g, i)
    {
      assert Answered(h, i) && g[..i] == h[..i];
    }
  }

  /** The map never holds more than a thousand entries, and no entry counts more than eight attempts. */
  lemma {:induction false} Bounded(h: seq<Call>)
    requires History(h)
    ensures |Replay(h)| <= 1000
    ensures forall k :: k in Replay(h) ==> 1 <= Replay(h)[k].count <= 8
  {
    if h != [] {
      HistoryFront(h);
      Bounded(h[..|h| - 1]);
      var m, c := Replay(h[..|h| - 1]), h[|h| - 1];
      if c.Attempted? {
        FewerKeys(Live(m, c.at), m);
        assert Permitted(m, c.key, c.at).Keys <= Live(m, c.at).Keys + {c.key};
        OneMoreKey(Permitted(m, c.key, c.at), Live(m, c.at), c.key);
      } else {
        FewerKeys(Forgotten(m, c.key), m);
      }
    }
  }

  lemma {:induction false} SubsetSize<T>(s: set<T>, t: set<T>)
    requires s <= t
    ensures |s| <= |t|
  {
    assert t == s + (t - s);
  }

  lemma {:induction false} FewerKeys(a: Attempts, b: Attempts)
    requires a.Keys <= b.Keys
    ensures |a| <= |b|
  {
    SubsetSize(a.Keys, b.Keys);
    assert |a| == |a.Keys| && |b| == |b.Keys|;
  }

  lemma {:induction false} OneMoreKey(a: Attempts, b: Attempts, key: string)
    requires a.Keys <= b.Keys + {key}
    ensures |a| <= |b| + 1
  {
    SubsetSize(a.Keys, b.Keys + {key});
    assert |a| == |a.Keys| && |b| == |b.Keys|;
  }

  /** The call that opened the window an entry counts. */
  predicate OpenedBy(h: seq<Call>, key: string, i: int)
    requires 0 <= i < |h|
  {
    && h[i].Attempted? && h[i].ok && h[i].key == key
    && forall j :: i < j < |h| && h[j].Succeeded? ==> h[j].key != key
  }

  /** All permitted attempts of a key from the call `i` on. */
  function CountFrom(h: seq<Call>, key: string, i: int): nat
    decreases |h|
  {
    if |h| <= i || h == [] then 0
    else
      var c := h[|h| - 1];
      CountFrom(h[..|h| - 1], key, i) + if c.Attempted? && c.ok && c.key == key then 1 else 0
  }

  /**
   The entry of a key counts exactly the attempts permitted since the call that
   opened its window, which closes one window's length after that call; so one
   window sees at most eight.
   */
  lemma {:induction false} WindowHoldsEight(h: seq<Call>, key: string) returns (i: nat)
    requires History(h) && key in Replay(h)
    ensures i < |h| && OpenedBy(h, key, i) && Replay(h)[key].until == h[i].at + 300
    ensures CountFrom(h, key, i) == Replay(h)[key].count <= 8
  {
    hide History, Answered;
    HistoryFront(h);
    Bounded(h);
    var g, c := h[..|h| - 1], h[|h| - 1];
    var m := Replay(g);
    if c.Attempted? && c.key == key && Allows(m, key, c.at) && CountOf(Live(m, c.at), key) == 0 {
      i := |h| - 1;
      Bounded(g);
      assert CountFrom(g, key, i) == 0;
    } else {
      i := WindowHoldsEight(g, key);
    }
  }

  lemma {:induction false} NothingAhead(h: seq<Call>, key: string, from: int)
    requires forall i :: 0 <= i < |h| ==> h[i].at < from
    ensures Count(h, key, from) == 0
  {
    if h != [] {
      NothingAhead(h[..|h| - 1], key, from);
    }
  }

  /** How many attempts the interval has seen, by the window that is current. */
  predicate Seen(h: seq<Call>, key: string, from: int, n: nat) {
    var m := Replay(h);
    if key !in m then n <= LIMIT - 1
    else if m[key].until - WINDOW < from then n <= m[key].count - 1
    else n <= LIMIT - 1 + m[key].count
  }

  lemma {:induction false} SeenSoFar(h: seq<Call>, key: string, from: int)
    requires History(h) && NoSuccess(h, key, from)
    requires forall i :: 0 <= i < |h| ==> h[i].at < from + WINDOW
    ensures Seen(h, key, from, Count(h, key, from))
  {
    if h != [] {
      hide History, Answered;
      HistoryFront(h);
      var g, c := h[..|h| - 1], h[|h| - 1];
      assert forall i :: 0 <= i < |g| ==> g[i] == h[i];
      SeenSoFar(g, key, from);
      Bounded(g);
      Bounded(h);
      if c.at < from {
        NothingAhead(h, key, from);
        NothingAhead(g, key, from);
      }
    }
  }

  /** In any half-open interval of five minutes without a successful login, at most fifteen attempts are permitted. */
  lemma {:induction false} AtMostFifteen(h: seq<Call>, key: string, from: int)
    requires History(h) && NoSuccess(h, key, from)
    ensures Count(h, key, from) <= 15
  {
    if h != [] {
      hide History, Answered, Seen;
      HistoryFront(h);
      var g, c := h[..|h| - 1], h[|h| - 1];
      if c.at >= from + WINDOW {
        assert forall i :: 0 <= i < |g| ==> g[i] == h[i];
        AtMostFifteen(g, key, from);
      } else {
        SeenSoFar(h, key, from);
        Bounded(h);
        SeenBound(h, key, from, Count(h, key, from));
      }
    }
  }

  lemma {:induction false} SeenBound(h: seq<Call>, key: string, from: int, n: nat)
    requires Seen(h, key, from, n) && History(h)
    ensures n <= 2 * LIMIT - 1
  {
    hide History;
    Bounded(h);
  }

  // ----- the bound is reached -----

  lemma {:induction false} Appended(h: seq<Call>, key: string, from: int, at: int)
    requires History(h) && NoSuccess(h, key, from) && Allows(Replay(h), key, at)
    requires forall i :: 0 <= i < |h| ==> h[i].at <= at
    ensures var g := h + [Attempted(key, at, true)];
      History(g) && NoSuccess(g, key, from) && Replay(g) == Permitted(Replay(h), key, at)
      && Count(g, key, from) == Count(h, key, from) + (if from <= at < from + WINDOW then 1 else 0)
      && forall i :: 0 <= i < |g| ==> g[i].at <= at
  {
    hide Allows, Permitted;
    var g := h + [Attempted(key, at, true)];
    assert g[..|h|] == h;
    HistoryGrows(h, Attempted(key, at, true));
    ReplayNext(h, Attempted(key, at, true));
  }

  lemma {:induction false} Again(h: seq<Call>, key: string, a: Attempt, from: int, at: int,
      n: nat) returns (g: seq<Call>)
    requires History(h) && Replay(h) == map[key := a] && NoSuccess(h, key, from)
    requires a.until > at && a.count >= 1 && a.count + n <= LIMIT && from <= at < from + WINDOW
    requires forall i :: 0 <= i < |h| ==> h[i].at <= at
    ensures History(g) && Replay(g) == map[key := a.(count := a.count + n)] && NoSuccess(g, key, from)
    ensures Count(g, key, from) == Count(h, key, from) + n
    ensures forall i :: 0 <= i < |g| ==> g[i].at <= at
    decreases n
  {
    hide History, NoSuccess, Count;
    if n == 0 {
      g := h;
    } else {
      var f := Again(h, key, a, from, at, n - 1);
      assert Live(Replay(f), at) == Replay(f);
      Appended(f, key, from, at);
      g := f + [Attempted(key, at, true)];
    }
  }

  lemma {:induction false} Opening(h: seq<Call>, key: string, from: int, at: int) returns (g: seq<Call>)
    requires History(h) && NoSuccess(h, key, from) && Live(Replay(h), at) == map[]
    requires forall i :: 0 <= i < |h| ==> h[i].at <= at
    ensures History(g) && Replay(g) == map[key := Attempt(1, at + WINDOW)] && NoSuccess(g, key, from)
    ensures Count(g, key, from) == Count(h, key, from) + if from <= at < from + WINDOW then 1 else 0
    ensures forall i :: 0 <= i < |g| ==> g[i].at <= at
  {
    hide History, NoSuccess;
    Appended(h, key, from, at);
    g := h + [Attempted(key, at, true)];
  }

  /** Fifteen attempts in an interval do happen: seven late in one window and eight early in the next. */
  lemma {:induction false} FifteenIsReached(key: string) returns (h: seq<Call>)
    ensures History(h) && NoSuccess(h, key, 1) && Count(h, key, 1) == 15
  {
    hide History, NoSuccess;
    EmptyHistory(key);
    h := Opening([], key, 1, 0);
    h := Again(h, key, Attempt(1, WINDOW), 1, WINDOW - 1, 7);
    assert Live(Replay(h), WINDOW) == map[];
    h := Opening(h, key, 1, WINDOW);
    h := Again(h, key, Attempt(1, 2 * WINDOW), 1, WINDOW, 7);
  }

  lemma {:induction false} EmptyHistory(key: string)
    ensures History([]) && NoSuccess([], key, 1)
  {
  }

  /**
   An attempt is refused exactly when the key's window is open and has counted
   eight attempts, or a thousand keys have an open window.
   */
  lemma {:induction false} RefusedIff(h: seq<Call>, key: string, at: int)
    requires History(h)
    ensures !Allows(Replay(h), key, at) <==>
      (key in Replay(h) && Replay(h)[key].until > at && Replay(h)[key].count == 8)
      || |set k | k in Replay(h) && Replay(h)[k].until > at| == 1000
  {
    hide Replay, History;
    Bounded(h);
    FewerKeys(Live(Replay(h), at), Replay(h));
    assert Live(Replay(h), at).Keys == set k | k in Replay(h) && Replay(h)[k].until > at;
  }

  /** A successful login gives its key a fresh start, and no other key. */
  lemma {:induction false} SuccessForgets(h: seq<Call>, key: string, at: int)
    ensures var m := Replay(h + [Succeeded(key, at)]);
      && key !in m
      && forall k :: k != key ==> (k in m <==> k in Replay(h)) && (k in m ==> m[k] == Replay(h)[k])
  {
    ReplayNext(h, Succeeded(key, at));
  }
}
