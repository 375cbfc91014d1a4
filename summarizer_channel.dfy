/*
 * The Node.js side of the summarisation worker channel
 * (backend/services/summarization/summarizer.js).
 *
 * The module keeps a FIFO of pending requests and a buffer of the worker's
 * stdout. A request is identified by its promise's resolve function; the model
 * gives each request a fresh number instead. Timers are explicit events that
 * carry the current time; a timer can fire only while it is armed, that is while
 * its request is still pending, and not before its deadline. JSON.parse is the
 * abstract partial function `parse`.
 */
module SummarizerChannel {
  import opened Common

  /** Every request is rejected when 20 000 ms pass without an answer. */
  const TIMEOUT_MS: int := 20000
  const TIMEOUT_REASON: string := "Summarization timeout."
  const CPU_BANNER: string := "Device set to use cpu"
  const MPS_BANNER: string := "Device set to use mps"

  /** A pending request: its identity and the time its timer is due. */
  datatype Request = Request(id: nat, deadline: int)

  /** How a request's promise is settled. */
  datatype Settlement = Resolved(id: nat, value: Json) | Rejected(id: nat, reason: string)
  {
    function Id(): nat { match this case Resolved(i, _) => i case Rejected(i, _) => i }
  }

  /** The module-level state: `pendingRequests`, `outputBuffer`, and the next fresh identity. */
  datatype State = State(pending: seq<Request>, buffer: string, nextId: nat)

  /** What can happen to the channel. */
  datatype Event =
    | Submit(now: int)           // summarizeBatch is called
    | Stdout(chunk: string)      // the worker writes to stdout
    | Timer(id: nat, now: int)   // the timer of request `id` would fire at `now`
    | Exit                       // the worker process exits
    | Stderr(chunk: string)      // the worker writes to stderr

  function Ids(p: seq<Request>): (ids: seq<nat>)
    ensures |ids| == |p|
    ensures forall i :: 0 <= i < |p| ==> ids[i] == p[i].id
  {
    seq(|p|, i requires 0 <= i < |p| => p[i].id)
  }

  /** Pending identities are strictly increasing (submission order) and all
      smaller than the next fresh identity. */
  predicate Valid(s: State)
  {
    Increasing(s.pending) && Below(s.pending, s.nextId)
  }

  predicate Increasing(p: seq<Request>)
  {
    forall i, j :: 0 <= i < j < |p| ==> p[i].id < p[j].id
  }

  predicate Below(p: seq<Request>, n: nat)
  {
    forall i :: 0 <= i < |p| ==> p[i].id < n
  }

  function Initial(): (s: State)
    ensures Valid(s) && s.pending == [] && s.buffer == []
  {
    State([], "", 0)
  }

  // ------------------------------------------------------------------ events

  /** summarizeBatch: the new request goes to the back of the queue. */
  function OnSubmit(s: State, now: int): (State, nat)
  {
    (State(s.pending + [Request(s.nextId, now + TIMEOUT_MS)], s.buffer, s.nextId + 1), s.nextId)
  }

  /** The stdout `data` handler. */
  function OnChunk(s: State, chunk: string, parse: string -> Option<Json>): (State, Option<Settlement>)
  {
    var buffer := s.buffer + chunk;
    if !TrimmedEndsWith(buffer, ']') then
      (s.(buffer := buffer), None)
    else
      match parse(buffer)
      case None => (s.(buffer := ""), None)
      case Some(v) =>
        if s.pending == [] then (s.(buffer := ""), None)
        else (s.(pending := s.pending[1..], buffer := ""), Some(Resolved(s.pending[0].id, v)))
  }

  /** `pendingRequests.filter((r) => r.resolve !== resolve)`. */
  function WithoutId(p: seq<Request>, id: nat): (r: seq<Request>)
    ensures |r| <= |p|
  {
    if p == [] then []
    else (if p[0].id == id then [] else [p[0]]) + WithoutId(p[1..], id)
  }

  /** The position of the pending request with identity `id`, if any. */
  function Find(p: seq<Request>, id: nat): (r: Option<nat>)
    ensures r.Some? ==> r.value < |p| && p[r.value].id == id
    ensures r.None? ==> forall i :: 0 <= i < |p| ==> p[i].id != id
  {
    if p == [] then None
    else if p[0].id == id then Some(0)
    else match Find(p[1..], id) { case None => None case Some(k) => Some(k + 1) }
  }

  /** A timer fires only while armed (its request pending) and once due. */
  function OnTimer(s: State, id: nat, now: int): (State, Option<Settlement>)
  {
    match Find(s.pending, id)
    case Some(k) =>
      if s.pending[k].deadline <= now then
        (s.(pending := WithoutId(s.pending, id)), Some(Rejected(id, TIMEOUT_REASON)))
      else (s, None)
    case None => (s, None)
  }

  /** Whether a stderr chunk is a harmless device banner, not worth logging. */
  predicate IsDeviceBanner(chunk: string)
  {
    var msg := Trim(chunk);
    Contains(msg, CPU_BANNER) || Contains(msg, MPS_BANNER)
  }

  function Settled(o: Option<Settlement>): seq<Settlement>
  {
    if o.Some? then [o.value] else []
  }

  /** One event: the new state and the promises it settles. */
  function Step(s: State, e: Event, parse: string -> Option<Json>): (State, seq<Settlement>)
  {
    match e
    case Submit(now) => (OnSubmit(s, now).0, [])
    case Stdout(chunk) => var (s', o) := OnChunk(s, chunk, parse); (s', Settled(o))
    case Timer(id, now) => var (s', o) := OnTimer(s, id, now); (s', Settled(o))
    case Exit => (s, [])
    case Stderr(_) => (s, [])
  }

  /** A run of events from a state: the final state and every settlement, in order. */
  function Run(s: State, es: seq<Event>, parse: string -> Option<Json>): (State, seq<Settlement>)
    decreases |es|
  {
    if es == [] then (s, [])
    else
      var (s1, o) := Step(s, es[0], parse);
      var (s2, out) := Run(s1, es[1..], parse);
      (s2, o + out)
  }

  // ------------------------------------------------------------------ properties of one event

  lemma IncreasingTail(p: seq<Request>)
    requires Increasing(p) && p != []
    ensures Increasing(p[1..])
  {
    forall i, j | 0 <= i < j < |p| - 1 ensures p[1..][i].id < p[1..][j].id {
      assert p[1..][i] == p[i + 1] && p[1..][j] == p[j + 1];
    }
  }

  lemma {:induction false} WithoutIdAbsent(p: seq<Request>, id: nat)
    requires forall i :: 0 <= i < |p| ==> p[i].id != id
    ensures WithoutId(p, id) == p
  {
    if p != [] {
      WithoutIdAbsent(p[1..], id);
      assert p == [p[0]] + p[1..];
    }
  }

  /** Removing one identity from an increasing queue removes exactly that
      entry and keeps every other entry in its relative order. */
  lemma {:induction false} WithoutIdRemovesOne(p: seq<Request>, k: nat)
    requires k < |p| && Increasing(p)
    ensures WithoutId(p, p[k].id) == p[..k] + p[k + 1..]
  {
    IncreasingTail(p);
    if k == 0 {
      forall i | 0 <= i < |p| - 1 ensures p[1..][i].id != p[0].id {
        assert p[1..][i] == p[i + 1];
      }
      WithoutIdAbsent(p[1..], p[0].id);
      assert p[..0] + p[1..] == p[1..];
    } else {
      assert p[1..][k - 1] == p[k];
      WithoutIdRemovesOne(p[1..], k - 1);
      assert p[1..][..k - 1] == p[1..k];
      assert p[1..][k..] == p[k + 1..];
      assert p[..k] == [p[0]] + p[1..k];
    }
  }

  /** In an increasing queue an identity is found exactly where it stands. */
  lemma FindUnique(p: seq<Request>, k: nat)
    requires k < |p| && Increasing(p)
    ensures Find(p, p[k].id) == Some(k)
  {
    assert Find(p, p[k].id).Some?;
    var j := Find(p, p[k].id).value;
    assert !(j < k) && !(k < j);
  }

  lemma RemoveAtIncreasing(p: seq<Request>, k: nat)
    requires k < |p| && Increasing(p)
    ensures Increasing(p[..k] + p[k + 1..])
  {
    var r := p[..k] + p[k + 1..];
    forall i, j | 0 <= i < j < |r| ensures r[i].id < r[j].id {
      var i' := if i < k then i else i + 1;
      var j' := if j < k then j else j + 1;
      assert r[i] == p[i'] && r[j] == p[j'];
    }
  }

  /** A timer that fires removes its own request, and only it, and rejects it
      with the timeout reason; the other requests keep their order. */
  lemma TimerRemovesOnlyItsRequest(s: State, k: nat, now: int)
    requires Valid(s) && k < |s.pending| && s.pending[k].deadline <= now
    ensures OnTimer(s, s.pending[k].id, now) ==
      (s.(pending := s.pending[..k] + s.pending[k + 1..]),
       Some(Rejected(s.pending[k].id, TIMEOUT_REASON)))
  {
    FindUnique(s.pending, k);
    WithoutIdRemovesOne(s.pending, k);
  }

  /** A timer never fires before its deadline, nor for a request no longer pending. */
  lemma TimerIdleUnlessDue(s: State, id: nat, now: int)
    requires forall i :: 0 <= i < |s.pending| && s.pending[i].id == id ==> now < s.pending[i].deadline
    ensures OnTimer(s, id, now) == (s, None)
  {
  }

  /** Every stdout chunk is appended to the buffer, and nothing is settled or
      removed unless the trimmed buffer ends with `]`. */
  lemma ChunkWithoutBracketOnlyBuffers(s: State, chunk: string, parse: string -> Option<Json>)
    requires !TrimmedEndsWith(s.buffer + chunk, ']')
    ensures OnChunk(s, chunk, parse) == (State(s.pending, s.buffer + chunk, s.nextId), None)
  {
  }

  /** A parsed response goes to the oldest pending request: it is removed, the
      rest keep their order, and the buffer is emptied. */
  lemma ParsedResponseResolvesOldest(s: State, chunk: string, parse: string -> Option<Json>, v: Json)
    requires TrimmedEndsWith(s.buffer + chunk, ']') && parse(s.buffer + chunk) == Some(v)
    requires s.pending != []
    ensures OnChunk(s, chunk, parse) ==
      (State(s.pending[1..], "", s.nextId), Some(Resolved(s.pending[0].id, v)))
  {
  }

  /** A parse attempt that fails, or that succeeds with nobody waiting, only
      empties the buffer. */
  lemma UndeliverableResponseIsDropped(s: State, chunk: string, parse: string -> Option<Json>)
    requires TrimmedEndsWith(s.buffer + chunk, ']')
    requires parse(s.buffer + chunk).None? || s.pending == []
    ensures OnChunk(s, chunk, parse) == (State(s.pending, "", s.nextId), None)
  {
  }

  /** The worker exiting settles nothing and leaves the queue and buffer as they are. */
  lemma ExitLeavesChannel(s: State, parse: string -> Option<Json>)
    ensures Step(s, Exit, parse) == (s, [])
  {
  }

  // ------------------------------------------------------------------ settlements

  function SettledIds(out: seq<Settlement>): (ids: seq<nat>)
    ensures |ids| == |out|
    ensures forall i :: 0 <= i < |out| ==> ids[i] == out[i].Id()
  {
    seq(|out|, i requires 0 <= i < |out| => out[i].Id())
  }

  /** The identities of the resolved requests, in the order they were resolved. */
  function ResolvedIds(out: seq<Settlement>): seq<nat>
  {
    if out == [] then []
    else (if out[0].Resolved? then [out[0].id] else []) + ResolvedIds(out[1..])
  }

  predicate StrictlyIncreasing(xs: seq<nat>)
  {
    forall i, j :: 0 <= i < j < |xs| ==> xs[i] < xs[j]
  }

  predicate Distinct(xs: seq<nat>)
  {
    forall i, j :: 0 <= i < j < |xs| ==> xs[i] != xs[j]
  }

  /** How the requests of `s` and the fresh ones end up after `s` becomes `s'`
      while `out` is settled: each settled request was pending or fresh and is
      pending no more, no request is settled twice, each unsettled request
      stays, and nothing else joins the queue. */
  predicate Accounts(s: State, s': State, out: seq<Settlement>)
  {
    && s.nextId <= s'.nextId
    && (forall i :: 0 <= i < |s'.pending| ==> s'.pending[i] in s.pending || s.nextId <= s'.pending[i].id)
    && (forall i :: 0 <= i < |s.pending| && s.pending[i].id !in SettledIds(out) ==> s.pending[i] in s'.pending)
    && (forall x :: x in SettledIds(out) ==> x in Ids(s.pending) || s.nextId <= x < s'.nextId)
    && (forall x :: x in SettledIds(out) ==> x !in Ids(s'.pending))
    && Distinct(SettledIds(out))
  }

  /** Every resolution so far went to a request older than all those still
      pending, and older than any request yet to come. */
  predicate ResolvedBefore(out: seq<Settlement>, s': State)
  {
    forall x :: x in ResolvedIds(out) ==>
      x < s'.nextId && forall i :: 0 <= i < |s'.pending| ==> x < s'.pending[i].id
  }

  /** Removing the request at position `k` while settling it accounts for
      every request. */
  lemma RemovalAccounts(s: State, s': State, k: nat, out: seq<Settlement>)
    requires Valid(s) && k < |s.pending|
    requires s'.pending == s.pending[..k] + s.pending[k + 1..] && s'.nextId == s.nextId
    requires SettledIds(out) == [s.pending[k].id]
    ensures Valid(s') && Accounts(s, s', out)
  {
    var p := s.pending;
    var r := s'.pending;
    RemoveAtIncreasing(p, k);
    forall i | 0 <= i < |r| ensures r[i] in p && r[i].id != p[k].id {
      if i < k { assert r[i] == p[i]; } else { assert r[i] == p[i + 1]; }
    }
    forall i | 0 <= i < |p| && p[i].id != p[k].id ensures p[i] in r {
      if i < k { assert r[i] == p[i]; } else { assert i != k && r[i - 1] == p[i]; }
    }
    assert p[k].id in Ids(p) by { assert Ids(p)[k] == p[k].id; }
  }

  lemma ShiftAccounts(s: State, v: Json)
    requires Valid(s) && s.pending != []
    ensures var s' := s.(pending := s.pending[1..], buffer := "");
      Valid(s') && Accounts(s, s', [Resolved(s.pending[0].id, v)])
      && ResolvedBefore([Resolved(s.pending[0].id, v)], s')
  {
    var p := s.pending;
    var s' := s.(pending := p[1..], buffer := "");
    var out := [Resolved(p[0].id, v)];
    assert SettledIds(out) == [p[0].id];
    assert p[..0] + p[1..] == p[1..];
    RemovalAccounts(s, s', 0, out);
    ShiftResolvedBefore(s, s', out);
  }

  lemma ShiftResolvedBefore(s: State, s': State, out: seq<Settlement>)
    requires Valid(s) && s.pending != []
    requires s'.pending == s.pending[1..] && s'.nextId == s.nextId
    requires |out| == 1 && out[0].Resolved? && out[0].id == s.pending[0].id
    ensures ResolvedBefore(out, s')
  {
    assert ResolvedIds(out) == [s.pending[0].id] by { assert out[1..] == []; }
    forall i | 0 <= i < |s'.pending| ensures s.pending[0].id < s'.pending[i].id {
      assert s'.pending[i] == s.pending[i + 1];
    }
  }

  lemma TimerAccounts(s: State, k: nat)
    requires Valid(s) && k < |s.pending|
    ensures var s' := s.(pending := s.pending[..k] + s.pending[k + 1..]);
      Valid(s') && Accounts(s, s', [Rejected(s.pending[k].id, TIMEOUT_REASON)])
      && ResolvedBefore([Rejected(s.pending[k].id, TIMEOUT_REASON)], s')
  {
    var p := s.pending;
    var s' := s.(pending := p[..k] + p[k + 1..]);
    var out := [Rejected(p[k].id, TIMEOUT_REASON)];
    assert SettledIds(out) == [p[k].id];
    RemovalAccounts(s, s', k, out);
    assert ResolvedIds(out) == [] by { assert out[1..] == []; }
  }

  lemma NothingSettled(s: State, s': State)
    requires Valid(s) && Valid(s') && s.pending == s'.pending && s.nextId == s'.nextId
    ensures Accounts(s, s', []) && ResolvedBefore([], s')
  {
    assert SettledIds([]) == [];
  }

  lemma SubmitAccounts(s: State, now: int)
    requires Valid(s)
    ensures var s' := OnSubmit(s, now).0; Valid(s') && Accounts(s, s', []) && ResolvedBefore([], s')
  {
    var s' := OnSubmit(s, now).0;
    assert SettledIds([]) == [];
    forall i | 0 <= i < |s.pending| ensures s.pending[i] in s'.pending {
      assert s'.pending[i] == s.pending[i];
    }
    forall i | 0 <= i < |s'.pending| ensures s'.pending[i] in s.pending || s.nextId <= s'.pending[i].id {
      if i < |s.pending| { assert s'.pending[i] == s.pending[i]; }
    }
  }

  /** Every event keeps the queue valid, accounts for every request, and
      resolves only the oldest pending request. */
  lemma StepAccounts(s: State, e: Event, parse: string -> Option<Json>)
    requires Valid(s)
    ensures var (s', out) := Step(s, e, parse);
      Valid(s') && Accounts(s, s', out) && ResolvedBefore(out, s')
  {
    match e {
      case Submit(now) => SubmitAccounts(s, now);
      case Stdout(chunk) =>
        var (s', o) := OnChunk(s, chunk, parse);
        if o.Some? {
          ShiftAccounts(s, o.value.value);
        } else {
          NothingSettled(s, s');
        }
      case Timer(id, now) =>
        match Find(s.pending, id) {
          case None => NothingSettled(s, s);
          case Some(k) =>
            if s.pending[k].deadline <= now {
              TimerRemovesOnlyItsRequest(s, k, now);
              TimerAccounts(s, k);
            } else {
              NothingSettled(s, s);
            }
        }
      case Exit => NothingSettled(s, s);
      case Stderr(_) => NothingSettled(s, s);
    }
  }

  lemma SettledIdsAppend(a: seq<Settlement>, b: seq<Settlement>)
    ensures SettledIds(a + b) == SettledIds(a) + SettledIds(b)
  {
  }

  lemma {:induction false} ResolvedIdsAppend(a: seq<Settlement>, b: seq<Settlement>)
    ensures ResolvedIds(a + b) == ResolvedIds(a) + ResolvedIds(b)
    decreases |a|
  {
    if a != [] {
      assert (a + b)[1..] == a[1..] + b;
      ResolvedIdsAppend(a[1..], b);
    } else {
      assert a + b == b;
    }
  }

  lemma {:induction false} ResolvedAreSettled(out: seq<Settlement>)
    ensures forall x :: x in ResolvedIds(out) ==> x in SettledIds(out)
    decreases |out|
  {
    if out != [] {
      ResolvedAreSettled(out[1..]);
      assert out == [out[0]] + out[1..];
      SettledIdsAppend([out[0]], out[1..]);
    }
  }

  /** Accounting composes: two stretches of a run account for their concatenation. */
  lemma AccountsCompose(s: State, s1: State, s2: State, o: seq<Settlement>, rest: seq<Settlement>)
    requires Valid(s) && Valid(s1) && Valid(s2)
    requires Accounts(s, s1, o) && Accounts(s1, s2, rest)
    ensures Accounts(s, s2, o + rest)
  {
    SettledIdsAppend(o, rest);
    var ids := SettledIds(o + rest);
    forall i | 0 <= i < |s2.pending| ensures s2.pending[i] in s.pending || s.nextId <= s2.pending[i].id {
      var q := s2.pending[i];
      if q in s1.pending {
        var j :| 0 <= j < |s1.pending| && s1.pending[j] == q;
      }
    }
    forall i | 0 <= i < |s.pending| && s.pending[i].id !in ids ensures s.pending[i] in s2.pending {
      var j :| 0 <= j < |s1.pending| && s1.pending[j] == s.pending[i];
    }
    forall x | x in SettledIds(rest) ensures x in Ids(s.pending) || s.nextId <= x < s2.nextId {
      if x in Ids(s1.pending) {
        var j :| 0 <= j < |s1.pending| && Ids(s1.pending)[j] == x;
        if s1.pending[j] in s.pending {
          var i :| 0 <= i < |s.pending| && s.pending[i] == s1.pending[j];
          assert Ids(s.pending)[i] == x;
        }
      }
    }
    forall x | x in SettledIds(o) ensures x !in Ids(s2.pending) && x !in SettledIds(rest) {
      if x in Ids(s.pending) {
        var i :| 0 <= i < |s.pending| && Ids(s.pending)[i] == x;
      }
      assert x < s1.nextId && x !in Ids(s1.pending);
      forall j | 0 <= j < |s2.pending| ensures s2.pending[j].id != x {
        if s2.pending[j] in s1.pending {
          var k :| 0 <= k < |s1.pending| && s1.pending[k] == s2.pending[j];
          assert Ids(s1.pending)[k] == s2.pending[j].id;
        }
      }
    }
    forall i, j | 0 <= i < j < |ids| ensures ids[i] != ids[j] {
      if i < |o| && j >= |o| {
        assert ids[i] in SettledIds(o) && ids[j] == SettledIds(rest)[j - |o|];
      } else if i >= |o| {
        assert ids[i] == SettledIds(rest)[i - |o|] && ids[j] == SettledIds(rest)[j - |o|];
      }
    }
  }

  /** Resolution order composes: what a later stretch resolves is newer than
      what an earlier one resolved. */
  lemma ResolvedBeforeCompose(s1: State, s2: State, o: seq<Settlement>, rest: seq<Settlement>)
    requires Valid(s1) && Valid(s2)
    requires StrictlyIncreasing(ResolvedIds(o)) && ResolvedBefore(o, s1)
    requires StrictlyIncreasing(ResolvedIds(rest)) && ResolvedBefore(rest, s2)
    requires Accounts(s1, s2, rest)
    ensures StrictlyIncreasing(ResolvedIds(o + rest)) && ResolvedBefore(o + rest, s2)
  {
    ResolvedIdsAppend(o, rest);
    ResolvedAreSettled(rest);
    var a, b := ResolvedIds(o), ResolvedIds(rest);
    forall x, y | x in a && y in b ensures x < y {
      assert y in SettledIds(rest);
      if y in Ids(s1.pending) {
        var j :| 0 <= j < |s1.pending| && Ids(s1.pending)[j] == y;
      }
    }
    forall i, j | 0 <= i < j < |a + b| ensures (a + b)[i] < (a + b)[j] {
      if i < |a| && j >= |a| {
        assert (a + b)[i] in a && (a + b)[j] in b;
      } else if i >= |a| {
        assert (a + b)[i] == b[i - |a|] && (a + b)[j] == b[j - |a|];
      }
    }
    forall x | x in a ensures x < s2.nextId && forall i :: 0 <= i < |s2.pending| ==> x < s2.pending[i].id {
      forall i | 0 <= i < |s2.pending| ensures x < s2.pending[i].id {
        if s2.pending[i] in s1.pending {
          var j :| 0 <= j < |s1.pending| && s1.pending[j] == s2.pending[i];
        }
      }
    }
  }

  // ------------------------------------------------------------------ properties of a run

  /** Over any run of events the queue stays valid, every request is accounted
      for (settled at most once, or still pending), and responses are matched
      to requests in submission order: resolved identities increase and each is
      older than every request still pending. */
  lemma {:induction false} RunAccounts(s: State, es: seq<Event>, parse: string -> Option<Json>)
    requires Valid(s)
    ensures var (s', out) := Run(s, es, parse);
      && Valid(s')
      && Accounts(s, s', out)
      && StrictlyIncreasing(ResolvedIds(out))
      && ResolvedBefore(out, s')
    decreases |es|
  {
    if es == [] {
      NothingSettled(s, s);
    } else {
      var (s1, o) := Step(s, es[0], parse);
      StepAccounts(s, es[0], parse);
      assert StrictlyIncreasing(ResolvedIds(o)) by {
        assert |o| <= 1;
        if o != [] { assert o[1..] == []; }
      }
      RunAccounts(s1, es[1..], parse);
      var (s2, rest) := Run(s1, es[1..], parse);
      AccountsCompose(s, s1, s2, o, rest);
      ResolvedBeforeCompose(s1, s2, o, rest);
    }
  }

  // ------------------------------------------------------------------ the module state

  /** The module-level variables of summarizer.js, updated in place by its handlers. */
  class Channel {
    var pending: seq<Request>
    var outputBuffer: string
    var nextId: nat
    /** Everything written to the worker's stdin, one payload per call. */
    var written: seq<string>

    function Snapshot(): State
      reads this
    {
      State(pending, outputBuffer, nextId)
    }

    constructor ()
      ensures Snapshot() == Initial() && written == []
    {
      pending := [];
      outputBuffer := "";
      nextId := 0;
      written := [];
    }

    /** summarizeBatch: enqueue one request with a 20 s timer, write one JSON line. */
    method SummarizeBatch(texts: seq<string>, now: int) returns (id: nat)
      requires Valid(Snapshot())
      modifies this
      ensures Valid(Snapshot())
      ensures (Snapshot(), id) == OnSubmit(old(Snapshot()), now)
      ensures pending == old(pending) + [Request(id, now + TIMEOUT_MS)]
      ensures written == old(written) + [StringArrayText(texts, ",") + "\n"]
    {
      id := nextId;
      nextId := nextId + 1;
      pending := pending + [Request(id, now + TIMEOUT_MS)];
      written := written + [StringArrayText(texts, ",") + "\n"];
    }

    /** The stdout `data` handler. */
    method OnStdout(chunk: string, parse: string -> Option<Json>) returns (settled: Option<Settlement>)
      requires Valid(Snapshot())
      modifies this
      ensures Valid(Snapshot())
      ensures (Snapshot(), settled) == OnChunk(old(Snapshot()), chunk, parse)
      ensures written == old(written)
    {
      settled := None;
      outputBuffer := outputBuffer + chunk;
      if TrimmedEndsWith(outputBuffer, ']') {
        var parsed := parse(outputBuffer);
        if parsed.Some? {
          if |pending| > 0 {
            var request := pending[0];
            pending := pending[1..];
            settled := Some(Resolved(request.id, parsed.value));
          }
          outputBuffer := "";
        } else {
          outputBuffer := "";
        }
      }
    }

    /** The timeout callback of request `id`, at time `now`. */
    method OnTimeout(id: nat, now: int) returns (settled: Option<Settlement>)
      requires Valid(Snapshot())
      modifies this
      ensures Valid(Snapshot())
      ensures (Snapshot(), settled) == OnTimer(old(Snapshot()), id, now)
      ensures written == old(written)
    {
      settled := None;
      var k := Find(pending, id);
      if k.Some? && pending[k.value].deadline <= now {
        settled := Some(Rejected(id, TIMEOUT_REASON));
        TimerRemovesOnlyItsRequest(Snapshot(), k.value, now);
        TimerAccounts(Snapshot(), k.value);
        pending := WithoutId(pending, id);
      }
    }

    /** The stderr `data` handler: whether the chunk is logged as an error. */
    method OnStderr(chunk: string) returns (logged: bool)
      ensures logged <==> !IsDeviceBanner(chunk)
    {
      var errorMsg := Trim(chunk);
      if Contains(errorMsg, CPU_BANNER) {
        return false;
      }
      if Contains(errorMsg, MPS_BANNER) {
        return false;
      }
      logged := true;
    }
  }
}
