// The active-request counter: http.server.active_requests as AccessLog drives it.
module Metrics {
  import opened Domain

  // The attribute set of one measurement; the start of a request has no status yet.
  datatype Attrs = Attrs(httpMethod: string, route: string, status: Option<int>)

  type Counter = map<Attrs, int>

  function Value(c: Counter, a: Attrs): int {
    if a in c then c[a] else 0
  }

  function Add(c: Counter, a: Attrs, delta: int): Counter {
    c[a := Value(c, a) + delta]
  }

  // The counter reads delta more at this attribute set, and the same at every other.
  ghost predicate ChangedAt(c: Counter, c': Counter, at: Attrs, delta: int) {
    && c'.Keys == c.Keys + {at}
    && forall a :: Value(c', a) == Value(c, a) + if a == at then delta else 0
  }

  // There is one counter of which this is true.
  lemma ChangedIsAdded(c: Counter, c': Counter, at: Attrs, delta: int)
    requires ChangedAt(c, c', at, delta)
    ensures c' == Add(c, at, delta)
  {
    forall a | a in c' ensures c'[a] == Add(c, at, delta)[a] {
      assert Value(c', a) == c'[a];
    }
  }

  // The sum over all attribute sets.
  ghost function Total(c: Counter): int
    decreases |c|
  {
    if c == map[] then 0
    else
      var a :| a in c;
      RestIsSmaller(c, a);
      c[a] + Total(c - {a})
  }

  lemma RestIsSmaller(c: Counter, a: Attrs)
    requires a in c
    ensures |c - {a}| < |c|
  {
    assert (c - {a}).Keys == c.Keys - {a};
    assert |c - {a}| == |(c - {a}).Keys| && |c| == |c.Keys|;
  }

  lemma {:induction false} TotalTakesAny(c: Counter, a: Attrs)
    requires a in c
    ensures Total(c) == c[a] + Total(c - {a})
    decreases |c|
  {
    var b :| b in c && Total(c) == c[b] + Total(c - {b});
    if b != a {
      RestIsSmaller(c, a);
      RestIsSmaller(c, b);
      TotalTakesAny(c - {b}, a);
      TotalTakesAny(c - {a}, b);
      assert (c - {b}) - {a} == (c - {a}) - {b};
    }
  }

  lemma TotalOfAdd(c: Counter, a: Attrs, delta: int)
    ensures Total(Add(c, a, delta)) == Total(c) + delta
  {
    var c' := Add(c, a, delta);
    TotalTakesAny(c', a);
    assert c' - {a} == c - {a};
    if a in c {
      TotalTakesAny(c, a);
    } else {
      assert c - {a} == c;
    }
  }

  // The finished series of one method and route, over all statuses.
  function Finished(c: Counter, m: string, r: string): Counter {
    map a | a in c && a.httpMethod == m && a.route == r && a.status.Some? :: c[a]
  }

  lemma FinishedOfAdd(c: Counter, a: Attrs, delta: int, m: string, r: string)
    ensures Total(Finished(Add(c, a, delta), m, r)) ==
      Total(Finished(c, m, r)) + if a.httpMethod == m && a.route == r && a.status.Some? then delta else 0
  {
    var f, f' := Finished(c, m, r), Finished(Add(c, a, delta), m, r);
    if a.httpMethod == m && a.route == r && a.status.Some? {
      assert f' == Add(f, a, delta);
      TotalOfAdd(f, a, delta);
    } else {
      assert f' == f;
    }
  }

  class Instruments {
    var activeRequests: Counter
    var requestDuration: seq<(Attrs, int)>

    constructor ()
      ensures activeRequests == map[] && requestDuration == []
    {
      activeRequests := map[];
      requestDuration := [];
    }

    method IncActive(httpMethod: string, route: string)
      modifies this
      ensures ChangedAt(old(activeRequests), activeRequests, Attrs(httpMethod, route, None), 1)
      ensures requestDuration == old(requestDuration)
    {
      var attrs := Attrs(httpMethod, route, None);
      var before := if attrs in activeRequests then activeRequests[attrs] else 0;
      activeRequests := activeRequests[attrs := before + 1];
    }

    method RecordRequest(httpMethod: string, route: string, status: int, durationMs: int)
      modifies this
      ensures ChangedAt(old(activeRequests), activeRequests, Attrs(httpMethod, route, Some(status)), -1)
      ensures requestDuration == old(requestDuration) + [(Attrs(httpMethod, route, Some(status)), durationMs)]
    {
      var attrs := Attrs(httpMethod, route, Some(status));
      requestDuration := requestDuration + [(attrs, durationMs)];
      var before := if attrs in activeRequests then activeRequests[attrs] else 0;
      activeRequests := activeRequests[attrs := before - 1];
    }
  }

  // --- Which requests are measured, and under which route ---

  const DEFAULT_EXCLUDED_PATHS: seq<string> := ["/health", "/health/ready", "/health/live"]

  // fold gives every character the one its case variants are compared by.
  predicate EqualFold(a: string, b: string, fold: char -> char) {
    |a| == |b| && forall i :: 0 <= i < |a| ==> fold(a[i]) == fold(b[i])
  }

  // The paths that are left out, and how case is folded.
  datatype Exclusion = Exclusion(paths: seq<string>, fold: char -> char)

  predicate Excluded(path: string, excluded: Exclusion) {
    exists i :: 0 <= i < |excluded.paths| && EqualFold(path, excluded.paths[i], excluded.fold)
  }

  method IsExcluded(path: string, excluded: Exclusion) returns (r: bool)
    ensures r == Excluded(path, excluded)
  {
    for i := 0 to |excluded.paths|
      invariant forall j :: 0 <= j < i ==> !EqualFold(path, excluded.paths[j], excluded.fold)
    {
      if EqualFold(path, excluded.paths[i], excluded.fold) {
        return true;
      }
    }
    return false;
  }

  // The paths left out of the log when the caller names none.
  function Exclusions(excludedPaths: seq<string>, fold: char -> char): Exclusion {
    Exclusion(if |excludedPaths| > 0 then excludedPaths else DEFAULT_EXCLUDED_PATHS, fold)
  }

  // A path with every character folded.
  function FoldAll(s: string, fold: char -> char): string {
    if s == "" then "" else [fold(s[0])] + FoldAll(s[1..], fold)
  }

  lemma {:induction false} FoldedAlike(a: string, b: string, fold: char -> char)
    ensures EqualFold(a, b, fold) <==> FoldAll(a, fold) == FoldAll(b, fold)
  {
    if a != "" && b != "" {
      FoldedAlike(a[1..], b[1..], fold);
      assert a == [a[0]] + a[1..] && b == [b[0]] + b[1..];
      assert FoldAll(a, fold)[0] == fold(a[0]) && FoldAll(a, fold)[1..] == FoldAll(a[1..], fold);
      assert FoldAll(b, fold)[0] == fold(b[0]) && FoldAll(b, fold)[1..] == FoldAll(b[1..], fold);
    }
  }

  lemma ExcludedTells(path: string, excluded: Exclusion)
    ensures Excluded(path, excluded) <==>
      exists p :: p in excluded.paths && FoldAll(p, excluded.fold) == FoldAll(path, excluded.fold)
  {
    hide EqualFold, FoldAll;
    forall i | 0 <= i < |excluded.paths|
      ensures EqualFold(path, excluded.paths[i], excluded.fold) <==>
        FoldAll(path, excluded.fold) == FoldAll(excluded.paths[i], excluded.fold)
    {
      FoldedAlike(path, excluded.paths[i], excluded.fold);
    }
    if p :| p in excluded.paths && FoldAll(p, excluded.fold) == FoldAll(path, excluded.fold) {
      var i :| 0 <= i < |excluded.paths| && excluded.paths[i] == p;
      assert EqualFold(path, excluded.paths[i], excluded.fold);
    }
  }

  // Without names from the caller the three health checks are left out, in any case
  // of letters, and nothing else; with names the paths named are.
  lemma ExcludedExactly(excludedPaths: seq<string>, fold: char -> char, path: string)
    ensures var folded := FoldAll(path, fold);
      Excluded(path, Exclusions(excludedPaths, fold)) <==>
        if excludedPaths == [] then
          || folded == FoldAll("/health", fold)
          || folded == FoldAll("/health/ready", fold)
          || folded == FoldAll("/health/live", fold)
        else
          exists p :: p in excludedPaths && FoldAll(p, fold) == folded
  {
    hide Excluded, FoldAll;
    var excluded := Exclusions(excludedPaths, fold);
    ExcludedTells(path, excluded);
    if excludedPaths == [] {
      assert excluded.paths[0] == "/health" && excluded.paths[1] == "/health/ready";
      assert excluded.paths[2] == "/health/live";
    }
  }

  // The matched pattern if the router knows one, else the path.
  function RouteOf(path: string, pattern: Option<string>): string {
    if pattern.Some? && pattern.value != "" then pattern.value else path
  }

  lemma PatternsNameRoutes(path: string, pattern: string)
    ensures RouteOf(path, None) == path && RouteOf(path, Some("")) == path
    ensures pattern != "" ==> RouteOf(path, Some(pattern)) == pattern
  {
  }

  // What a handler does to its response writer.
  datatype Write = Header(status: int) | Body(bytes: nat)

  // The status last written, 200 if none was.
  function StatusAfter(writes: seq<Write>): int {
    if writes == [] then 200
    else
      var last := writes[|writes| - 1];
      if last.Header? then last.status else StatusAfter(writes[..|writes| - 1])
  }

  function BytesAfter(writes: seq<Write>): nat {
    if writes == [] then 0
    else
      var last := writes[|writes| - 1];
      BytesAfter(writes[..|writes| - 1]) + if last.Body? then last.bytes else 0
  }

  // The recorder keeps the last status of any number of them, and all the bytes.
  lemma {:induction false} LastStatusStands(writes: seq<Write>, i: nat)
    requires i < |writes| && writes[i].Header?
    requires forall j :: i < j < |writes| ==> writes[j].Body?
    ensures StatusAfter(writes) == writes[i].status
  {
    if i < |writes| - 1 {
      LastStatusStands(writes[..|writes| - 1], i);
    }
  }

  lemma {:induction false} NoStatusIsOk(writes: seq<Write>)
    requires forall j :: 0 <= j < |writes| ==> writes[j].Body?
    ensures StatusAfter(writes) == 200
  {
    if writes != [] {
      NoStatusIsOk(writes[..|writes| - 1]);
    }
  }

  lemma {:induction false} BytesAddUp(writes: seq<Write>, more: seq<Write>)
    ensures BytesAfter(writes + more) == BytesAfter(writes) + BytesAfter(more)
    ensures forall w :: BytesAfter([w]) == if w.Body? then w.bytes else 0
  {
    assert forall w: Write :: [w][..0] == [];
    if more == [] {
      assert writes + [] == writes;
    } else {
      var n := |more| - 1;
      assert (writes + more)[..|writes| + n] == writes + more[..n];
      BytesAddUp(writes, more[..n]);
    }
  }

  class StatusRecorder {
    var status: int
    var bytes: nat

    constructor ()
      ensures status == 200 && bytes == 0
    {
      status := 200;
      bytes := 0;
    }

    method Record(w: Write)
      modifies this
      ensures status == if w.Header? then w.status else old(status)
      ensures bytes == old(bytes) + if w.Body? then w.bytes else 0
    {
      match w
      case Header(st) => status := st;
      case Body(n) => bytes := bytes + n;
    }
  }

  datatype Entry = Entry(httpMethod: string, path: string, status: int, bytes: nat, durationMs: int)

  // One request alone, from its arrival to its log entry; m may be nil. The two
  // measurements leave the total as it was, and no series but these two changed.
  method AccessLog(m: Instruments?, excludedPaths: seq<string>, fold: char -> char, httpMethod: string, path: string,
                   pattern: Option<string>, writes: seq<Write>, durationMs: int) returns (entry: Option<Entry>)
    modifies if m != null then {m} else {}
    ensures Excluded(path, Exclusions(excludedPaths, fold)) ==>
      entry == None
      && (m != null ==> m.activeRequests == old(m.activeRequests) && m.requestDuration == old(m.requestDuration))
    ensures !Excluded(path, Exclusions(excludedPaths, fold)) ==>
      var route := if pattern == None || pattern == Some("") then path else pattern.value;
      var status := StatusAfter(writes);
      && entry == Some(Entry(httpMethod, path, status, BytesAfter(writes), durationMs))
      && (m != null ==>
            && (forall a :: Value(m.activeRequests, a) == Value(old(m.activeRequests), a) +
                  One(a == Attrs(httpMethod, route, None)) - One(a == Attrs(httpMethod, route, Some(status))))
            && Total(m.activeRequests) == Total(old(m.activeRequests))
            && m.requestDuration == old(m.requestDuration) + [(Attrs(httpMethod, route, Some(status)), durationMs)])
  {
    var excluded := IsExcluded(path, Exclusions(excludedPaths, fold));
    if excluded {
      return None;
    }
    var route := path;
    if pattern.Some? && pattern.value != "" {
      route := pattern.value;
    }
    ghost var before := if m != null then m.activeRequests else map[];
    if m != null {
      m.IncActive(httpMethod, route);
    }
    ghost var started := if m != null then m.activeRequests else map[];
    var rec := new StatusRecorder();
    for i := 0 to |writes|
      modifies rec
      invariant rec.status == StatusAfter(writes[..i]) && rec.bytes == BytesAfter(writes[..i])
    {
      rec.Record(writes[i]);
      assert writes[..i + 1][..i] == writes[..i];
    }
    assert writes[..|writes|] == writes;
    if m != null {
      m.RecordRequest(httpMethod, route, rec.status, durationMs);
      ChangedIsAdded(before, started, Attrs(httpMethod, route, None), 1);
      TotalOfAdd(before, Attrs(httpMethod, route, None), 1);
      ChangedIsAdded(started, m.activeRequests, Attrs(httpMethod, route, Some(rec.status)), -1);
      TotalOfAdd(started, Attrs(httpMethod, route, Some(rec.status)), -1);
    }
    return Some(Entry(httpMethod, path, rec.status, rec.bytes, durationMs));
  }

  // --- Any number of requests at once ---

  datatype Request =
    | Unmeasured
    | Running(httpMethod: string, route: string)
    | Served(httpMethod: string, route: string, status: int)
    | Panicked(httpMethod: string, route: string)

  datatype State = State(active: Counter, requests: map<nat, Request>)

  datatype Action =
    | Start(id: nat, httpMethod: string, path: string, pattern: Option<string>)
    | Finish(id: nat, status: int)
    | Panic(id: nat)              // nothing is deferred, so nothing is recorded

  function Next(excluded: Exclusion, s: State, a: Action): State {
    match a
    case Start(id, httpMethod, path, pattern) =>
      if id in s.requests then s
      else if Excluded(path, excluded) then s.(requests := s.requests[id := Unmeasured])
      else
        var route := RouteOf(path, pattern);
        State(Add(s.active, Attrs(httpMethod, route, None), 1), s.requests[id := Running(httpMethod, route)])
    case Finish(id, status) =>
      if id in s.requests && s.requests[id].Running? then
        var q := s.requests[id];
        State(Add(s.active, Attrs(q.httpMethod, q.route, Some(status)), -1),
              s.requests[id := Served(q.httpMethod, q.route, status)])
      else s
    case Panic(id) =>
      if id in s.requests && s.requests[id].Running? then
        s.(requests := s.requests[id := Panicked(s.requests[id].httpMethod, s.requests[id].route)])
      else s
  }

  function Run(excluded: Exclusion, actions: seq<Action>): State {
    if actions == [] then State(map[], map[])
    else Next(excluded, Run(excluded, actions[..|actions| - 1]), actions[|actions| - 1])
  }

  // A request that nothing comes between measures what AccessLog does.
  lemma AloneIsAccessLog(excluded: Exclusion, s: State, id: nat, httpMethod: string, path: string,
                         pattern: Option<string>, status: int)
    requires id !in s.requests && !Excluded(path, excluded)
    ensures var s' := Next(excluded, Next(excluded, s, Start(id, httpMethod, path, pattern)), Finish(id, status));
      var route := if pattern == None || pattern == Some("") then path else pattern.value;
      && s'.requests == s.requests[id := Served(httpMethod, route, status)]
      && forall a :: Value(s'.active, a) == Value(s.active, a)
           + One(a == Attrs(httpMethod, route, None)) - One(a == Attrs(httpMethod, route, Some(status)))
  {
  }

  // --- Counting requests ---

  function Ids(requests: map<nat, Request>, p: Request -> bool): set<nat> {
    set id | id in requests && p(requests[id])
  }

  function Count(requests: map<nat, Request>, p: Request -> bool): int {
    |Ids(requests, p)|
  }

  function InFlight(): Request -> bool { (q: Request) => q.Running? }
  function Lost(): Request -> bool { (q: Request) => q.Panicked? }
  function InFlightOn(m: string, r: string): Request -> bool { (q: Request) => q == Running(m, r) }
  function LostOn(m: string, r: string): Request -> bool { (q: Request) => q == Panicked(m, r) }
  function ServedOn(m: string, r: string): Request -> bool {
    (q: Request) => q.Served? && q.httpMethod == m && q.route == r
  }
  function ServedWith(m: string, r: string, st: int): Request -> bool { (q: Request) => q == Served(m, r, st) }

  function One(b: bool): int {
    if b then 1 else 0
  }

  lemma CountAfter(requests: map<nat, Request>, id: nat, q: Request, p: Request -> bool)
    ensures Count(requests[id := q], p) == Count(requests, p) + One(p(q)) - One(id in requests && p(requests[id]))
  {
    var before, after := Ids(requests, p), Ids(requests[id := q], p);
    assert after == if p(q) then before + {id} else before - {id};
  }

  // The counter tells exactly the requests it has seen.
  ghost predicate Balanced(s: State) {
    && (forall m, r :: Value(s.active, Attrs(m, r, None)) ==
          Count(s.requests, InFlightOn(m, r)) + Count(s.requests, ServedOn(m, r)) + Count(s.requests, LostOn(m, r)))
    && (forall m, r, st :: Value(s.active, Attrs(m, r, Some(st))) == -Count(s.requests, ServedWith(m, r, st)))
    && (forall m, r :: Total(Finished(s.active, m, r)) == -Count(s.requests, ServedOn(m, r)))
    && Total(s.active) == Count(s.requests, InFlight()) + Count(s.requests, Lost())
  }

  // One request moves on to q, and with it one measurement is made, or none.
  lemma MoveBalances(s: State, id: nat, q: Request, active': Counter)
    requires Balanced(s)
    requires
      || (id !in s.requests && q.Unmeasured? && active' == s.active)
      || (id !in s.requests && q.Running? && active' == Add(s.active, Attrs(q.httpMethod, q.route, None), 1))
      || (id in s.requests && q.Served? && s.requests[id] == Running(q.httpMethod, q.route)
          && active' == Add(s.active, Attrs(q.httpMethod, q.route, Some(q.status)), -1))
      || (id in s.requests && q.Panicked? && s.requests[id] == Running(q.httpMethod, q.route) && active' == s.active)
    ensures Balanced(State(active', s.requests[id := q]))
  {
    hide Count, Total, Finished;
    var requests' := s.requests[id := q];
    forall m, r
      ensures Value(active', Attrs(m, r, None)) ==
        Count(requests', InFlightOn(m, r)) + Count(requests', ServedOn(m, r)) + Count(requests', LostOn(m, r))
      ensures Total(Finished(active', m, r)) == -Count(requests', ServedOn(m, r))
    {
      CountAfter(s.requests, id, q, InFlightOn(m, r));
      CountAfter(s.requests, id, q, ServedOn(m, r));
      CountAfter(s.requests, id, q, LostOn(m, r));
      if q.Running? {
        FinishedOfAdd(s.active, Attrs(q.httpMethod, q.route, None), 1, m, r);
      } else if q.Served? {
        FinishedOfAdd(s.active, Attrs(q.httpMethod, q.route, Some(q.status)), -1, m, r);
      }
    }
    forall m, r, st ensures Value(active', Attrs(m, r, Some(st))) == -Count(requests', ServedWith(m, r, st)) {
      CountAfter(s.requests, id, q, ServedWith(m, r, st));
    }
    CountAfter(s.requests, id, q, InFlight());
    CountAfter(s.requests, id, q, Lost());
    if q.Running? {
      TotalOfAdd(s.active, Attrs(q.httpMethod, q.route, None), 1);
    } else if q.Served? {
      TotalOfAdd(s.active, Attrs(q.httpMethod, q.route, Some(q.status)), -1);
    }
  }

  lemma NextBalances(excluded: Exclusion, s: State, a: Action)
    requires Balanced(s)
    ensures Balanced(Next(excluded, s, a))
  {
    hide Balanced;
    var s' := Next(excluded, s, a);
    if s' != s {
      MoveBalances(s, a.id, s'.requests[a.id], s'.active);
      assert s'.requests == s.requests[a.id := s'.requests[a.id]];
    }
  }

  lemma {:induction false} RunBalances(excluded: Exclusion, actions: seq<Action>)
    ensures Balanced(Run(excluded, actions))
  {
    hide Next;
    if actions == [] {
      assert forall m, r :: Finished(map[], m, r) == map[];
      assert forall p :: Ids(map[], p) == {};
    } else {
      RunBalances(excluded, actions[..|actions| - 1]);
      NextBalances(excluded, Run(excluded, actions[..|actions| - 1]), actions[|actions| - 1]);
    }
  }

  // A panic leaks: one request less is in flight, and the counter does not move; a
  // request that finishes takes its one off.
  lemma EndsAreCounted(excluded: Exclusion, s: State, id: nat, status: int)
    requires id in s.requests && s.requests[id].Running?
    ensures var lost, done := Next(excluded, s, Panic(id)), Next(excluded, s, Finish(id, status));
      && Count(lost.requests, InFlight()) == Count(done.requests, InFlight()) == Count(s.requests, InFlight()) - 1
      && Total(lost.active) == Total(s.active) && Total(done.active) == Total(s.active) - 1
  {
    hide Count, Total;
    var q := s.requests[id];
    CountAfter(s.requests, id, Panicked(q.httpMethod, q.route), InFlight());
    CountAfter(s.requests, id, Served(q.httpMethod, q.route, status), InFlight());
    TotalOfAdd(s.active, Attrs(q.httpMethod, q.route, Some(status)), -1);
  }

  // For every method and route, the started series is the requests in flight there,
  // plus those that finished (the finished series over all statuses, negated), plus
  // those that panicked; so the total over all attribute sets is the number of
  // requests in flight exactly when no handler has panicked.
  lemma CounterTellsInFlight(excluded: Exclusion, actions: seq<Action>)
    ensures var s := Run(excluded, actions);
      && (forall m, r :: Value(s.active, Attrs(m, r, None)) ==
            Count(s.requests, InFlightOn(m, r)) - Total(Finished(s.active, m, r)) + Count(s.requests, LostOn(m, r)))
      && (forall m, r, st :: -Value(s.active, Attrs(m, r, Some(st))) == Count(s.requests, ServedWith(m, r, st)))
      && Total(s.active) == Count(s.requests, InFlight()) + Count(s.requests, Lost())
      && (Total(s.active) == Count(s.requests, InFlight()) <==>
            forall id :: id in s.requests ==> !s.requests[id].Panicked?)
  {
    hide Run;
    RunBalances(excluded, actions);
    var s := Run(excluded, actions);
    if id :| id in s.requests && s.requests[id].Panicked? {
      assert id in Ids(s.requests, Lost());
    } else {
      assert Ids(s.requests, Lost()) == {};
    }
  }

  // --- Excluded paths ---

  // Every request has an id of its own.
  ghost predicate DistinctStarts(actions: seq<Action>) {
    forall i, j :: 0 <= i < j < |actions| && actions[i].Start? && actions[j].Start? ==> actions[i].id != actions[j].id
  }

  function Measured(excluded: Exclusion, actions: seq<Action>): seq<Action> {
    if actions == [] then []
    else
      var n := |actions| - 1;
      Measured(excluded, actions[..n]) +
      if actions[n].Start? && Excluded(actions[n].path, excluded) then [] else [actions[n]]
  }

  // The same counter, and the same requests but for the unmeasured ones.
  ghost predicate SameMeasured(s: State, t: State) {
    && s.active == t.active
    && (forall id :: id in t.requests <==> id in s.requests && !s.requests[id].Unmeasured?)
    && forall id :: id in t.requests ==> id in s.requests && t.requests[id] == s.requests[id]
  }

  lemma {:induction false} RequestsWereStarted(excluded: Exclusion, actions: seq<Action>)
    ensures forall id :: id in Run(excluded, actions).requests ==>
      exists i :: 0 <= i < |actions| && actions[i].Start? && actions[i].id == id
  {
    if actions != [] {
      var n := |actions| - 1;
      RequestsWereStarted(excluded, actions[..n]);
      forall id | id in Run(excluded, actions).requests
        ensures exists i :: 0 <= i < |actions| && actions[i].Start? && actions[i].id == id
      {
        if id in Run(excluded, actions[..n]).requests {
          var i :| 0 <= i < n && actions[..n][i].Start? && actions[..n][i].id == id;
          assert actions[i].Start? && actions[i].id == id;
        } else {
          assert actions[n].Start? && actions[n].id == id;
        }
      }
    }
  }

  lemma NextSameMeasured(excluded: Exclusion, s: State, t: State, a: Action)
    requires SameMeasured(s, t) && (a.Start? ==> a.id !in s.requests)
    ensures SameMeasured(Next(excluded, s, a),
                         if a.Start? && Excluded(a.path, excluded) then t else Next(excluded, t, a))
  {
  }

  // Requests for excluded paths add nothing: the counter is what it would be had
  // they never come.
  lemma {:induction false} ExcludedPathsAddNothing(excluded: Exclusion, actions: seq<Action>)
    requires DistinctStarts(actions)
    ensures SameMeasured(Run(excluded, actions), Run(excluded, Measured(excluded, actions)))
  {
    hide Next;
    if actions != [] {
      var n := |actions| - 1;
      var before, last := actions[..n], actions[n];
      ExcludedPathsAddNothing(excluded, before);
      RequestsWereStarted(excluded, before);
      NextSameMeasured(excluded, Run(excluded, before), Run(excluded, Measured(excluded, before)), last);
      var rest := Measured(excluded, before);
      assert rest + [] == rest && (rest + [last])[..|rest|] == rest;
    }
  }
}
