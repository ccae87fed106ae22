// The TV volume client: the UI thread edits an optimistic cache, the loop thread
// keeps one setVolume and one getVolume call going and reconciles the two.
module LunaVolume {
  import opened Bytes

  const STALL_US := 2000000

  /** A reading of the TV's volume. */
  datatype Reading = Reading(volume: nat, muted: bool)

  /** What the loop thread does next; every boundary is a point where the UI thread can run. */
  datatype Loop =
    | Idle
    | Exchange(after: After)
    | CallSet(pct: nat, carries: nat, after: After)
    | AfterStall(now: nat)
    | Check(now: nat)
    | Capture(now: nat)
    | CallGet(now: nat)
    | Store(reading: Reading, token: nat, inFlight: bool, exposed: bool)

  datatype After = Return | ToAfterStall(now: nat) | ToCheck(now: nat)

  datatype Ui = UiIdle | Edited | Attaching

  /** One reading written to the cache: the newest edit then, the edit its get was issued after, the edits
    * settled when it was issued, and whether the loop, when the reply came, still held the call for in
    * flight and was exposed to it. */
  datatype Write = Write(edits: nat, issuedAfter: nat, settledThen: nat, inFlight: bool, exposed: bool)

  /** The get call behind a token: the newest edit and the newest settled edit when it was captured. */
  datatype Issued = Issued(edits: nat, settled: nat)

  datatype Cache = Cache(volume: int, muted: bool, available: bool, replies: nat)

  /** One kind of call: the flag, token and start time the loop keeps, the calls the bus still owes a reply,
    * and those of them whose cancellation failed. owed and lost only record. */
  datatype Line = Line(inFlight: bool, token: nat, at: nat, owed: set<nat>, lost: set<nat>)

  /** edits doubles as edit_generation. carries, settled, issued and writes only record: the edit a
    * set in flight carries, the newest edit whose set was answered, cancelled or refused, the gets issued
    * and the writes made. */
  datatype State = State(cache: Cache, edits: nat, desired: Option<nat>, queued: bool, ready: bool,
                         pending: nat, handle: bool, ui: Ui, loop: Loop, put: Line, get: Line,
                         refreshGen: nat, nextToken: nat,
                         carries: nat, settled: nat, issued: map<nat, Issued>, writes: seq<Write>)

  datatype Step =
    | Edit(pct: int)
    | UiStep
    | Boot
    | Dispatch(now: nat, cancelled: bool)
    | Refresh(now: nat, cancelled: bool)
    | LoopStep(now: nat, accepted: bool, cancelled: bool, clears: bool)
    | SetReply(token: nat)
    | GetReply(token: nat, reading: Option<Reading>)

  // ------------------------------------------------------------ UI thread

  /** The locked part of native_luna_volume_set. */
  function Editing(s: State, pct: int): State {
    var value := if pct < 0 then 0 else if pct > 100 then 100 else pct;
    s.(edits := s.edits + 1, cache := s.cache.(volume := value), desired := Some(value), ui := Edited)
  }

  /** At most one dispatch is queued into the loop. */
  function UiNext(s: State): State {
    match s.ui
    case UiIdle => s
    case Edited => if s.queued then s.(ui := UiIdle) else s.(queued := true, ui := Attaching)
    case Attaching => if s.ready then s.(pending := s.pending + 1, ui := UiIdle) else s.(queued := false, ui := UiIdle)
  }

  // ---------------------------------------------------------- loop thread

  predicate Stalled(line: Line, now: nat) {
    line.inFlight && now >= line.at + STALL_US
  }

  /** A stalled call is cancelled before it is replaced; a failed cancellation leaves its record on the bus. */
  function GiveUp(line: Line, cancelled: bool): Line {
    if cancelled then line.(inFlight := false, owed := line.owed - {line.token})
    else line.(inFlight := false, lost := line.lost + {line.token})
  }

  function Issue(line: Line, token: nat, now: nat): Line {
    line.(inFlight := true, token := token, at := now, owed := line.owed + {token})
  }

  function Answer(line: Line, token: nat): Line {
    line.(inFlight := line.inFlight && token != line.token, owed := line.owed - {token})
  }

  function CancelSet(s: State, cancelled: bool): State {
    s.(put := GiveUp(s.put, cancelled), settled := s.carries)
  }

  function Resume(after: After): Loop {
    match after
    case Return => Idle
    case ToAfterStall(now) => AfterStall(now)
    case ToCheck(now) => Check(now)
  }

  /** luna_volume_dispatch_cb up to the exchange. */
  function Dispatching(s: State, now: nat, cancelled: bool): State
    requires s.pending > 0
  {
    var t := s.(pending := s.pending - 1, queued := false);
    if !t.put.inFlight then t.(loop := Exchange(Return))
    else if Stalled(t.put, now) then CancelSet(t, cancelled).(loop := Exchange(Return))
    else t
  }

  /** luna_volume_refresh_cb up to its first possible send. */
  function Refreshing(s: State, now: nat, cancelled: bool): State {
    if !s.handle then s
    else if Stalled(s.put, now) then CancelSet(s, cancelled).(loop := Exchange(ToAfterStall(now)))
    else s.(loop := AfterStall(now))
  }

  function Exchanging(s: State, after: After): State {
    if s.desired.None? then s.(loop := Resume(after))
    else if !s.handle then s.(desired := None, settled := s.edits, loop := Resume(after))
    else s.(desired := None, loop := CallSet(s.desired.value, s.edits, after))
  }

  /** A refused call may leave the old token in place or clear it. */
  function Refuse(line: Line, clears: bool): Line {
    if clears then line.(token := 0) else line
  }

  function CallingSet(s: State, carries: nat, after: After, now: nat, accepted: bool, clears: bool): State {
    if !accepted then s.(put := Refuse(s.put, clears), settled := carries, loop := Resume(after))
    else s.(put := Issue(s.put, s.nextToken, now), nextToken := s.nextToken + 1, carries := carries,
            loop := Resume(after))
  }

  /** Between the stall recovery and the gate of the refresh. */
  function Chaining(s: State, now: nat): State {
    s.(loop := if !s.put.inFlight && s.desired.Some? then Exchange(ToCheck(now)) else Check(now))
  }

  function Checking(s: State, now: nat, cancelled: bool): State {
    if s.put.inFlight || s.desired.Some? then s.(loop := Idle)
    else if !s.get.inFlight then s.(loop := Capture(now))
    else if Stalled(s.get, now) then s.(get := GiveUp(s.get, cancelled), loop := Capture(now))
    else s.(loop := Idle)
  }

  /** The locked part of the refresh. */
  function Capturing(s: State, now: nat): State {
    if s.desired.Some? then s.(loop := Idle) else s.(refreshGen := s.edits, loop := CallGet(now))
  }

  function CallingGet(s: State, now: nat, accepted: bool, clears: bool): State {
    if !accepted then s.(get := Refuse(s.get, clears), loop := Idle)
    else s.(get := Issue(s.get, s.nextToken, now), nextToken := s.nextToken + 1, loop := Idle,
            issued := s.issued[s.nextToken := Issued(s.refreshGen, s.settled)])
  }

  function IssuedAt(s: State, token: nat): Issued {
    if token in s.issued then s.issued[token] else Issued(0, 0)
  }

  /** The locked part of a getVolume reply. */
  function Storing(s: State, reading: Reading, token: nat, inFlight: bool, exposed: bool): State {
    if s.refreshGen == s.edits && !s.put.inFlight && s.desired.None? then
      var i := IssuedAt(s, token);
      s.(cache := Cache(reading.volume, reading.muted, true, s.cache.replies + 1), loop := Idle,
         writes := s.writes + [Write(s.edits, i.edits, i.settled, inFlight, exposed)])
    else s.(loop := Idle)
  }

  function LoopNext(s: State, now: nat, accepted: bool, cancelled: bool, clears: bool): State {
    match s.loop
    case Idle => s
    case Exchange(after) => Exchanging(s, after)
    case CallSet(_, carries, after) => CallingSet(s, carries, after, now, accepted, clears)
    case AfterStall(start) => Chaining(s, start)
    case Check(start) => Checking(s, start, cancelled)
    case Capture(start) => Capturing(s, start)
    case CallGet(start) => CallingGet(s, start, accepted, clears)
    case Store(reading, token, inFlight, exposed) => Storing(s, reading, token, inFlight, exposed)
  }

  /** A set reply frees the slot and chains the newest value left behind; a superseded one is ignored. */
  function SetReplied(s: State, token: nat): State {
    if token != s.put.token then s.(put := Answer(s.put, token))
    else s.(put := Answer(s.put, token), settled := if s.put.inFlight then s.carries else s.settled,
            loop := if s.desired.Some? then Exchange(Return) else Idle)
  }

  /** The get the loop holds the token of has been given up, but the bus still owes its reply, and a later
    * edit has been captured since without another get going out. */
  predicate Exposed(s: State, token: nat) {
    && token == s.get.token && token in s.get.owed && !s.get.inFlight
    && token in s.issued && s.issued[token].edits < s.refreshGen
  }

  function GetReplied(s: State, token: nat, reading: Option<Reading>): State {
    s.(get := Answer(s.get, token),
       loop := if token == s.get.token && reading.Some?
               then Store(reading.value, token, s.get.inFlight, Exposed(s, token)) else Idle)
  }

  predicate Enabled(s: State, step: Step) {
    match step
    case Edit(_) => s.ui.UiIdle?
    case UiStep => !s.ui.UiIdle?
    case Boot => !s.ready
    case Dispatch(_, _) => s.ready && s.loop.Idle? && s.pending > 0
    case Refresh(_, _) => s.ready && s.loop.Idle?
    case LoopStep(_, _, _, _) => !s.loop.Idle?
    case SetReply(token) => s.loop.Idle? && token in s.put.owed
    case GetReply(token, _) => s.loop.Idle? && token in s.get.owed
  }

  function Apply(s: State, step: Step): State {
    if !Enabled(s, step) then s
    else match step
      case Edit(pct) => Editing(s, pct)
      case UiStep => UiNext(s)
      case Boot => s.(ready := true)
      case Dispatch(now, cancelled) => Dispatching(s, now, cancelled)
      case Refresh(now, cancelled) => Refreshing(s, now, cancelled)
      case LoopStep(now, accepted, cancelled, clears) => LoopNext(s, now, accepted, cancelled, clears)
      case SetReply(token) => SetReplied(s, token)
      case GetReply(token, reading) => GetReplied(s, token, reading)
  }

  function Run(s: State, steps: seq<Step>): State {
    if steps == [] then s else Apply(Run(s, steps[..|steps| - 1]), steps[|steps| - 1])
  }

  const NO_CALL := Line(false, 0, 0, {}, {})

  const FRESH := State(Cache(-1, false, false, 0), 0, None, false, false, 0, true, UiIdle, Idle,
                       NO_CALL, NO_CALL, 0, 1, 0, 0, map[], [])

  predicate Init(s: State) {
    s == FRESH.(handle := s.handle)
  }

  // ------------------------------------------------------------- invariant

  /** What the loop thread relies on at each of its points. */
  predicate LoopOk(s: State) {
    match s.loop
    case CallSet(_, carries, _) => !s.put.inFlight && carries <= s.edits && (s.desired.None? ==> carries == s.edits)
    case Exchange(_) => !s.put.inFlight
    case Capture(_) => !s.put.inFlight && !s.get.inFlight
    case CallGet(_) => !s.put.inFlight && !s.get.inFlight && s.settled >= s.refreshGen
    case _ => true
  }

  /** Unless the newest edit is waiting or on its way, its set has been answered, cancelled or refused. */
  predicate EditsOk(s: State) {
    && s.settled <= s.edits && s.carries <= s.edits && s.refreshGen <= s.edits && LoopOk(s)
    && (s.desired.None? && !s.loop.CallSet? ==> if s.put.inFlight then s.carries == s.edits else s.settled == s.edits)
  }

  /** Of the calls of one kind that the bus still owes, all but those given up on are the one in flight. */
  predicate Owed(line: Line, next: nat) {
    && line.token < next
    && (forall t :: t in line.owed ==> 0 < t < next) && (forall t :: t in line.lost ==> t < next)
    && (forall t :: t in line.owed && t !in line.lost ==> line.inFlight && t == line.token)
    && (line.inFlight ==> line.token in line.owed && line.token !in line.lost)
  }

  /** A get was captured no later than the newest capture; the one in flight was captured then. */
  predicate IssuedOk(s: State) {
    && (forall t :: t in s.issued ==> t < s.nextToken && s.issued[t].edits <= s.issued[t].settled)
    && (forall t :: t in s.issued ==> s.issued[t].edits <= s.refreshGen)
    && (forall t :: t in s.get.owed ==> t in s.issued)
    && (s.get.inFlight ==> s.get.token in s.issued && s.issued[s.get.token].edits == s.refreshGen)
    && (s.loop.Store? ==>
          && s.loop.token in s.issued && (s.loop.inFlight ==> !s.loop.exposed)
          && (s.loop.exposed <==> s.issued[s.loop.token].edits < s.refreshGen))
  }

  /** A write is coherent if its get was issued after the newest edit and that edit had been settled. */
  predicate Coherent(w: Write) {
    w.issuedAfter == w.edits <= w.settledThen
  }

  predicate WritesOk(writes: seq<Write>) {
    forall j :: 0 <= j < |writes| ==>
      (writes[j].inFlight ==> !writes[j].exposed) && (Coherent(writes[j]) <==> !writes[j].exposed)
  }

  predicate QueueOk(s: State) {
    s.pending + (if s.ui.Attaching? then 1 else 0) == (if s.queued then 1 else 0)
  }

  predicate Inv(s: State) {
    EditsOk(s) && Owed(s.put, s.nextToken) && Owed(s.get, s.nextToken)
    && IssuedOk(s) && WritesOk(s.writes) && QueueOk(s)
  }

  // -------------------------------------------------------------- each step

  lemma OwedChanges(line: Line, next: nat, token: nat, cancelled: bool, now: nat)
    requires Owed(line, next)
    ensures Owed(line, next + 1) && Owed(GiveUp(line, cancelled), next) && Owed(Answer(line, token), next)
    ensures !line.inFlight ==> Owed(Issue(line, next, now), next + 1) && (next > 0 ==> Owed(line.(token := 0), next))
  {
  }

  lemma IssuedKept(s: State, t: State)
    requires IssuedOk(s) && t.issued == s.issued && s.nextToken <= t.nextToken && s.refreshGen <= t.refreshGen
    requires t.get.owed <= s.get.owed
    requires t.get.inFlight ==> s.get.inFlight && t.get.token == s.get.token && t.refreshGen == s.refreshGen
    requires t.loop.Store? ==> t.refreshGen == s.refreshGen && t.loop == s.loop
    ensures IssuedOk(t)
  {
  }

  lemma UiInv(s: State, pct: int)
    requires Inv(s)
    ensures s.ui.UiIdle? ==> Inv(Editing(s, pct))
    ensures Inv(UiNext(s)) && Inv(s.(ready := true))
  {
    IssuedKept(s, Editing(s, pct));
    IssuedKept(s, UiNext(s));
    IssuedKept(s, s.(ready := true));
    hide Owed, IssuedOk, WritesOk;
  }

  lemma DispatchInv(s: State, now: nat, cancelled: bool)
    requires Inv(s) && s.loop.Idle? && s.pending > 0
    ensures Inv(Dispatching(s, now, cancelled))
  {
    OwedChanges(s.put, s.nextToken, 0, cancelled, now);
    IssuedKept(s, Dispatching(s, now, cancelled));
    hide Owed, IssuedOk, WritesOk, GiveUp;
    assert !GiveUp(s.put, cancelled).inFlight by { GivenUp(s.put, cancelled); }
  }

  lemma GivenUp(line: Line, cancelled: bool)
    ensures !GiveUp(line, cancelled).inFlight && GiveUp(line, cancelled).token == line.token
  {
  }

  lemma RefreshKeepsGet(s: State, now: nat, cancelled: bool)
    ensures var t := Refreshing(s, now, cancelled);
            && t.get == s.get && t.issued == s.issued && t.nextToken == s.nextToken && t.refreshGen == s.refreshGen
            && (t.loop.Store? ==> t.loop == s.loop)
  {
    hide GiveUp, Stalled;
  }

  lemma RefreshInv(s: State, now: nat, cancelled: bool)
    requires Inv(s) && s.loop.Idle?
    ensures Inv(Refreshing(s, now, cancelled))
  {
    OwedChanges(s.put, s.nextToken, 0, cancelled, now);
    RefreshKeepsGet(s, now, cancelled);
    IssuedKept(s, Refreshing(s, now, cancelled));
    GivenUp(s.put, cancelled);
    hide Owed, IssuedOk, WritesOk, GiveUp, Stalled;
  }

  lemma ExchangeInv(s: State)
    requires Inv(s) && s.loop.Exchange?
    ensures Inv(Exchanging(s, s.loop.after))
  {
    IssuedKept(s, Exchanging(s, s.loop.after));
    hide Owed, IssuedOk, WritesOk;
  }

  lemma CallSetInv(s: State, now: nat, accepted: bool, clears: bool)
    requires Inv(s) && s.loop.CallSet?
    ensures Inv(CallingSet(s, s.loop.carries, s.loop.after, now, accepted, clears))
  {
    OwedChanges(s.put, s.nextToken, 0, false, now);
    OwedChanges(s.get, s.nextToken, 0, false, now);
    IssuedKept(s, CallingSet(s, s.loop.carries, s.loop.after, now, accepted, clears));
    hide Owed, IssuedOk, WritesOk;
  }

  lemma ChainInv(s: State)
    requires Inv(s) && s.loop.AfterStall?
    ensures Inv(Chaining(s, s.loop.now))
  {
    IssuedKept(s, Chaining(s, s.loop.now));
    hide Owed, IssuedOk, WritesOk;
  }

  lemma CheckEdits(s: State, cancelled: bool)
    requires EditsOk(s) && s.loop.Check?
    ensures EditsOk(Checking(s, s.loop.now, cancelled))
  {
    GivenUp(s.get, cancelled);
    hide GiveUp, Stalled;
  }

  lemma CheckInv(s: State, cancelled: bool)
    requires Inv(s) && s.loop.Check?
    ensures Inv(Checking(s, s.loop.now, cancelled))
  {
    CheckEdits(s, cancelled);
    OwedChanges(s.get, s.nextToken, 0, cancelled, 0);
    GivenUp(s.get, cancelled);
    IssuedKept(s, Checking(s, s.loop.now, cancelled));
    hide Owed, IssuedOk, WritesOk, GiveUp, Stalled, EditsOk;
  }

  lemma CaptureInv(s: State)
    requires Inv(s) && s.loop.Capture?
    ensures Inv(Capturing(s, s.loop.now))
  {
    IssuedKept(s, Capturing(s, s.loop.now));
    hide Owed, IssuedOk, WritesOk;
  }

  lemma CallGetInv(s: State, accepted: bool, clears: bool)
    requires Inv(s) && s.loop.CallGet?
    ensures Inv(CallingGet(s, s.loop.now, accepted, clears))
  {
    OwedChanges(s.get, s.nextToken, 0, false, s.loop.now);
    OwedChanges(s.put, s.nextToken, 0, false, 0);
    CallGetIssued(s, accepted, clears);
    assert s.nextToken > 0;
    hide Owed, IssuedOk, WritesOk;
  }

  lemma CallGetIssued(s: State, accepted: bool, clears: bool)
    requires IssuedOk(s) && s.loop.CallGet? && !s.get.inFlight && s.settled >= s.refreshGen
    ensures IssuedOk(CallingGet(s, s.loop.now, accepted, clears))
  {
    var t := CallingGet(s, s.loop.now, accepted, clears);
    if accepted {
      assert t.issued == s.issued[s.nextToken := Issued(s.refreshGen, s.settled)];
      forall k | k in t.issued
        ensures k < t.nextToken && t.issued[k].edits <= t.issued[k].settled && t.issued[k].edits <= t.refreshGen
      {
        if k != s.nextToken { assert k in s.issued; }
      }
    }
  }

  lemma StoreInv(s: State)
    requires Inv(s) && s.loop.Store?
    ensures Inv(Storing(s, s.loop.reading, s.loop.token, s.loop.inFlight, s.loop.exposed))
  {
    var t := Storing(s, s.loop.reading, s.loop.token, s.loop.inFlight, s.loop.exposed);
    IssuedKept(s, t);
    hide Owed;
    assert WritesOk(t.writes) by { hide EditsOk; }
    hide IssuedOk, WritesOk;
  }

  lemma SetReplyInv(s: State, token: nat)
    requires Inv(s) && s.loop.Idle?
    ensures Inv(SetReplied(s, token))
  {
    OwedChanges(s.put, s.nextToken, token, false, 0);
    IssuedKept(s, SetReplied(s, token));
    hide Owed, IssuedOk, WritesOk;
  }

  lemma GetReplyInv(s: State, token: nat, reading: Option<Reading>)
    requires Inv(s) && s.loop.Idle? && token in s.get.owed
    ensures Inv(GetReplied(s, token, reading))
  {
    OwedChanges(s.get, s.nextToken, token, false, 0);
    IssuedKept(s, s.(get := Answer(s.get, token)));
    ReplyExposed(s, token, reading);
    hide Owed, IssuedOk, WritesOk, Exposed;
  }

  /** A reply that passes the token test is exposed exactly if its get is older than the newest capture. */
  lemma ReplyExposed(s: State, token: nat, reading: Option<Reading>)
    requires IssuedOk(s) && Owed(s.get, s.nextToken) && token in s.get.owed && s.loop.Idle?
    ensures IssuedOk(GetReplied(s, token, reading))
  {
  }

  lemma LoopInv(s: State, now: nat, accepted: bool, cancelled: bool, clears: bool)
    requires Inv(s)
    ensures Inv(LoopNext(s, now, accepted, cancelled, clears))
  {
    hide Inv, Exchanging, CallingSet, Chaining, Checking, Capturing, CallingGet, Storing;
    match s.loop {
      case Idle =>
      case Exchange(_) => ExchangeInv(s);
      case CallSet(_, _, _) => CallSetInv(s, now, accepted, clears);
      case AfterStall(_) => ChainInv(s);
      case Check(_) => CheckInv(s, cancelled);
      case Capture(_) => CaptureInv(s);
      case CallGet(_) => CallGetInv(s, accepted, clears);
      case Store(_, _, _, _) => StoreInv(s);
    }
  }

  lemma ApplyInv(s: State, step: Step)
    requires Inv(s)
    ensures Inv(Apply(s, step))
  {
    hide Inv, Editing, UiNext, Dispatching, Refreshing, LoopNext, SetReplied, GetReplied;
    if Enabled(s, step) {
      match step {
        case Edit(pct) => UiInv(s, pct);
        case UiStep => UiInv(s, 0);
        case Boot => UiInv(s, 0);
        case Dispatch(now, cancelled) => DispatchInv(s, now, cancelled);
        case Refresh(now, cancelled) => RefreshInv(s, now, cancelled);
        case SetReply(token) => SetReplyInv(s, token);
        case GetReply(token, reading) => GetReplyInv(s, token, reading);
        case LoopStep(now, accepted, cancelled, clears) => LoopInv(s, now, accepted, cancelled, clears);
      }
    }
  }

  lemma {:induction false} RunInv(s: State, steps: seq<Step>)
    requires Init(s)
    ensures Inv(Run(s, steps))
    decreases |steps|
  {
    hide Apply, Inv;
    if steps == [] {
      InitInv(s);
    } else {
      RunInv(s, steps[..|steps| - 1]);
      ApplyInv(Run(s, steps[..|steps| - 1]), steps[|steps| - 1]);
    }
  }

  lemma InitInv(s: State)
    requires Init(s)
    ensures Inv(s)
  {
  }

  // -------------------------------------------------------------- theorems

  /** In every run: of each kind at most one call is owed that has not been given up, it is the one whose
    * token the loop holds, and at most one dispatch is queued. */
  lemma OneCallOfEachKind(s: State, steps: seq<Step>)
    requires Init(s)
    ensures var t := Run(s, steps);
            && t.put.owed - t.put.lost == (if t.put.inFlight then {t.put.token} else {})
            && t.get.owed - t.get.lost == (if t.get.inFlight then {t.get.token} else {})
            && t.pending <= 1
  {
    RunInv(s, steps);
    hide Run, EditsOk, IssuedOk, WritesOk;
  }

  /** In every run: with nothing waiting and no set in flight, the newest edit has been answered, cancelled
    * or refused. */
  lemma EditsAreSettled(s: State, steps: seq<Step>)
    requires Init(s)
    ensures var t := Run(s, steps);
            t.desired.None? && !t.put.inFlight && !t.loop.CallSet? ==> t.settled == t.edits
  {
    RunInv(s, steps);
    hide Run, Owed, IssuedOk, WritesOk;
  }

  /** In every run: a reading answered by the call held for in flight reaches the cache only if that call
    * was issued after the newest edit and after that edit had been answered, cancelled or refused. */
  lemma WritesCoherent(s: State, steps: seq<Step>, j: nat)
    requires Init(s) && j < |Run(s, steps).writes| && Run(s, steps).writes[j].inFlight
    ensures Coherent(Run(s, steps).writes[j])
  {
    RunInv(s, steps);
    hide Run, Owed, IssuedOk, EditsOk;
  }

  predicate AllInFlight(s: State) {
    && (forall j :: 0 <= j < |s.writes| ==> s.writes[j].inFlight)
    && (s.loop.Store? ==> s.loop.inFlight)
  }

  lemma LostOnlyGrows(s: State, step: Step)
    ensures s.get.lost <= Apply(s, step).get.lost
  {
    hide LoopNext, Refreshing, Dispatching;
    match step {
      case LoopStep(now, accepted, cancelled, clears) => LoopLostGrows(s, now, accepted, cancelled, clears);
      case Dispatch(now, cancelled) => if s.pending > 0 { PollLostGrows(s, now, cancelled); }
      case Refresh(now, cancelled) => RefreshLostGrows(s, now, cancelled);
      case _ =>
    }
  }

  lemma PollLostGrows(s: State, now: nat, cancelled: bool)
    requires s.pending > 0
    ensures Dispatching(s, now, cancelled).get == s.get
  {
    hide GiveUp;
  }

  lemma RefreshLostGrows(s: State, now: nat, cancelled: bool)
    ensures Refreshing(s, now, cancelled).get == s.get
  {
    hide GiveUp;
  }

  lemma LoopLostGrows(s: State, now: nat, accepted: bool, cancelled: bool, clears: bool)
    ensures s.get.lost <= LoopNext(s, now, accepted, cancelled, clears).get.lost
  {
    hide Storing, Exchanging, CallingSet;
    match s.loop {
      case Exchange(after) => ExchangeKeepsGet(s, after);
      case CallSet(_, carries, after) => CallSetKeepsGet(s, carries, after, now, accepted, clears);
      case Store(reading, token, inFlight, exposed) => StoreKeepsGet(s, reading, token, inFlight, exposed);
      case _ =>
    }
  }

  lemma ExchangeKeepsGet(s: State, after: After)
    ensures Exchanging(s, after).get == s.get && Exchanging(s, after).writes == s.writes
    ensures !Exchanging(s, after).loop.Store?
  {
  }

  lemma CallSetKeepsGet(s: State, carries: nat, after: After, now: nat, accepted: bool, clears: bool)
    ensures CallingSet(s, carries, after, now, accepted, clears).get == s.get
    ensures CallingSet(s, carries, after, now, accepted, clears).writes == s.writes
    ensures !CallingSet(s, carries, after, now, accepted, clears).loop.Store?
  {
  }

  lemma StoreKeepsGet(s: State, reading: Reading, token: nat, inFlight: bool, exposed: bool)
    ensures Storing(s, reading, token, inFlight, exposed).get == s.get
  {
  }

  lemma ReplyInFlight(s: State, token: nat, reading: Option<Reading>)
    requires Owed(s.get, s.nextToken) && s.get.lost == {} && token in s.get.owed
    ensures GetReplied(s, token, reading).loop.Store? ==> GetReplied(s, token, reading).loop.inFlight
  {
  }

  lemma StoresKept(s: State, t: State)
    requires AllInFlight(s) && t.writes == s.writes && !t.loop.Store?
    ensures AllInFlight(t)
  {
  }

  lemma StoredInFlight(s: State)
    requires AllInFlight(s) && s.loop.Store?
    ensures AllInFlight(Storing(s, s.loop.reading, s.loop.token, s.loop.inFlight, s.loop.exposed))
  {
    hide IssuedAt;
  }

  lemma LoopStores(s: State, now: nat, accepted: bool, cancelled: bool, clears: bool)
    requires AllInFlight(s)
    ensures AllInFlight(LoopNext(s, now, accepted, cancelled, clears))
  {
    if s.loop.Store? {
      StoredInFlight(s);
      hide Storing, AllInFlight;
    } else {
      NoWrite(s, now, accepted, cancelled, clears);
      if !s.loop.Idle? { StoresKept(s, LoopNext(s, now, accepted, cancelled, clears)); }
      hide LoopNext, AllInFlight;
    }
  }

  lemma NoWrite(s: State, now: nat, accepted: bool, cancelled: bool, clears: bool)
    requires !s.loop.Store?
    ensures LoopNext(s, now, accepted, cancelled, clears).writes == s.writes
    ensures !LoopNext(s, now, accepted, cancelled, clears).loop.Store?
  {
    hide Exchanging, CallingSet, Checking, CallingGet;
    match s.loop {
      case Exchange(after) => ExchangeKeepsGet(s, after);
      case CallSet(_, carries, after) => CallSetKeepsGet(s, carries, after, now, accepted, clears);
      case Check(start) => CheckKeepsWrites(s, start, cancelled);
      case CallGet(start) => CallGetKeepsWrites(s, start, accepted, clears);
      case _ =>
    }
  }

  lemma CheckKeepsWrites(s: State, now: nat, cancelled: bool)
    ensures Checking(s, now, cancelled).writes == s.writes && !Checking(s, now, cancelled).loop.Store?
  {
    hide GiveUp, Stalled;
  }

  lemma CallGetKeepsWrites(s: State, now: nat, accepted: bool, clears: bool)
    ensures CallingGet(s, now, accepted, clears).writes == s.writes
    ensures !CallingGet(s, now, accepted, clears).loop.Store?
  {
    hide Issue, Refuse;
  }

  lemma KeptInFlight(s: State, step: Step)
    requires Inv(s) && s.get.lost == {} && AllInFlight(s)
    ensures AllInFlight(Apply(s, step))
  {
    assert Owed(s.get, s.nextToken);
    hide Inv, LoopNext, GetReplied;
    if Enabled(s, step) {
      match step {
        case LoopStep(now, accepted, cancelled, clears) => LoopStores(s, now, accepted, cancelled, clears);
        case GetReply(token, reading) => ReplyInFlight(s, token, reading); hide Owed; SameWrites(s, token, reading);
        case _ => hide Owed, GiveUp, Answer;
      }
    }
  }

  lemma SameWrites(s: State, token: nat, reading: Option<Reading>)
    ensures GetReplied(s, token, reading).writes == s.writes
  {
  }

  /** As long as no cancellation of a getVolume call has failed, every write is coherent. */
  lemma {:induction false} CoherentWhileCancelsWork(s: State, steps: seq<Step>)
    requires Init(s) && Run(s, steps).get.lost == {}
    ensures AllInFlight(Run(s, steps))
    ensures forall j :: 0 <= j < |Run(s, steps).writes| ==> Coherent(Run(s, steps).writes[j])
    decreases |steps|
  {
    hide Apply, Inv;
    if steps != [] {
      var before := steps[..|steps| - 1];
      var t := Run(s, before);
      LostOnlyGrows(t, steps[|steps| - 1]);
      CoherentWhileCancelsWork(s, before);
      RunInv(s, before);
      KeptInFlight(t, steps[|steps| - 1]);
      RunInv(s, steps);
      AllCoherent(Run(s, steps));
    }
  }

  lemma AllCoherent(s: State)
    requires Inv(s) && AllInFlight(s)
    ensures forall j :: 0 <= j < |s.writes| ==> Coherent(s.writes[j])
  {
    hide EditsOk, IssuedOk, Owed;
  }

  /** In every run: a write is coherent exactly if its reply did not come in an exposed state. */
  lemma WritesExactly(s: State, steps: seq<Step>, j: nat)
    requires Init(s) && j < |Run(s, steps).writes|
    ensures var w := Run(s, steps).writes[j]; Coherent(w) <==> !w.exposed
  {
    RunInv(s, steps);
    hide Run, Owed, IssuedOk, EditsOk;
  }

  predicate OnlyUi(steps: seq<Step>) {
    forall k :: 0 <= k < |steps| ==> steps[k].Edit? || steps[k].UiStep? || steps[k].Boot?
  }

  /** What the loop thread holds does not change while only the UI thread runs. */
  lemma {:induction false} UiKeeps(s: State, steps: seq<Step>)
    requires OnlyUi(steps)
    ensures var t := Run(s, steps);
            && t.loop == s.loop && t.put == s.put && t.get == s.get && t.refreshGen == s.refreshGen
            && t.issued == s.issued && t.writes == s.writes
    decreases |steps|
  {
    if steps != [] { UiKeeps(s, steps[..|steps| - 1]); }
  }

  /** The gate a reading has to pass after the reply in state t and whatever the UI did until state u. */
  predicate Passes(t: State, u: State, token: nat) {
    token == t.get.token && u.edits == t.refreshGen && !u.put.inFlight && u.desired.None?
  }

  /** In every run, whatever the UI thread does between a reply and its locked write: a reading is written
    * exactly if it passes the gate, and what is written is coherent exactly if the state the reply came in
    * was not exposed to it. */
  lemma IncoherentExactly(s: State, before: seq<Step>, token: nat, reading: Reading, between: seq<Step>)
    requires Init(s) && Enabled(Run(s, before), GetReply(token, Some(reading))) && OnlyUi(between)
    ensures var t := Run(s, before); var u := Run(Apply(t, GetReply(token, Some(reading))), between);
            forall now, accepted, cancelled, clears ::
              var v := Apply(u, LoopStep(now, accepted, cancelled, clears));
              if Passes(t, u, token)
              then |v.writes| == |t.writes| + 1 && (Coherent(v.writes[|t.writes|]) <==> !Exposed(t, token))
              else v.writes == t.writes
  {
    var t := Run(s, before);
    var replied := Apply(t, GetReply(token, Some(reading)));
    var u := Run(replied, between);
    UiKeeps(replied, between);
    RunInv(s, before);
    hide Run, Apply, WritesOk, EditsOk, Exposed, Passes;
    forall now, accepted, cancelled, clears
      ensures var v := Apply(u, LoopStep(now, accepted, cancelled, clears));
              if Passes(t, u, token)
              then |v.writes| == |t.writes| + 1 && (Coherent(v.writes[|t.writes|]) <==> !Exposed(t, token))
              else v.writes == t.writes
    {
      Stored(t, replied, u, token, reading, LoopStep(now, accepted, cancelled, clears));
    }
  }

  lemma Stored(t: State, replied: State, u: State, token: nat, reading: Reading, step: Step)
    requires IssuedOk(t) && Owed(t.get, t.nextToken) && token in t.get.owed && t.loop.Idle? && step.LoopStep?
    requires replied == Apply(t, GetReply(token, Some(reading))) && u.loop == replied.loop && u.put == replied.put
    requires u.refreshGen == replied.refreshGen && u.issued == replied.issued && u.writes == replied.writes
    ensures var v := Apply(u, step);
            if Passes(t, u, token)
            then |v.writes| == |t.writes| + 1 && (Coherent(v.writes[|t.writes|]) <==> !Exposed(t, token))
            else v.writes == t.writes
  {
    assert token in t.issued;
    if token == t.get.token && t.get.inFlight {
      assert !Exposed(t, token);
    }
    assert replied == GetReplied(t, token, Some(reading));
    if token == t.get.token {
      assert Apply(u, step) == Storing(u, reading, token, t.get.inFlight, Exposed(t, token));
      hide Apply, Owed;
    } else {
      assert u.loop.Idle?;
      assert Apply(u, step) == u;
    }
  }

  /** A getVolume call that the bus refuses in this step leaves no token behind. */
  predicate RefusalClears(s: State, step: Step) {
    s.loop.CallGet? && step.LoopStep? && !step.accepted ==> step.clears
  }

  /** The token the loop holds is that of a get captured last, or of no call the bus owes. */
  predicate TokenFresh(s: State) {
    && (s.get.token in s.get.owed && !s.loop.CallGet? ==>
          s.get.token in s.issued && s.issued[s.get.token].edits == s.refreshGen)
    && (s.loop.Store? ==> !s.loop.exposed)
    && (forall j :: 0 <= j < |s.writes| ==> !s.writes[j].exposed)
  }

  lemma FreshKept(s: State, t: State)
    requires TokenFresh(s) && !s.loop.CallGet? && !t.loop.CallGet?
    requires t.get.owed <= s.get.owed && t.get.token == s.get.token
    requires t.issued == s.issued && t.refreshGen == s.refreshGen && t.writes == s.writes
    requires t.loop.Store? ==> !t.loop.exposed
    ensures TokenFresh(t)
  {
  }

  lemma CallGetFresh(s: State, now: nat, accepted: bool, clears: bool)
    requires Owed(s.get, s.nextToken) && TokenFresh(s) && s.loop.CallGet? && (!accepted ==> clears)
    ensures TokenFresh(CallingGet(s, now, accepted, clears))
  {
  }

  lemma StoreFresh(s: State)
    requires TokenFresh(s) && s.loop.Store?
    ensures TokenFresh(Storing(s, s.loop.reading, s.loop.token, s.loop.inFlight, s.loop.exposed))
  {
  }

  lemma CaptureFresh(s: State, now: nat)
    requires TokenFresh(s) && s.loop.Capture?
    ensures TokenFresh(Capturing(s, now))
  {
  }

  lemma ReplyFresh(s: State, token: nat, reading: Option<Reading>)
    requires TokenFresh(s) && s.loop.Idle? && token in s.get.owed
    ensures TokenFresh(GetReplied(s, token, reading))
  {
    FreshKept(s, GetReplied(s, token, reading));
  }

  lemma LoopFresh(s: State, now: nat, accepted: bool, cancelled: bool, clears: bool)
    requires Owed(s.get, s.nextToken) && TokenFresh(s) && (s.loop.CallGet? && !accepted ==> clears)
    ensures TokenFresh(LoopNext(s, now, accepted, cancelled, clears))
  {
    hide TokenFresh, Owed, Exchanging, CallingSet, Chaining, Checking, Capturing, CallingGet, Storing;
    match s.loop {
      case Idle =>
      case AfterStall(start) => ChainFresh(s, start);
      case Check(start) => CheckFresh(s, start, cancelled);
      case Exchange(after) => ExchangeFresh(s, after);
      case CallSet(_, carries, after) => CallSetFresh(s, carries, after, now, accepted, clears);
      case Capture(start) => CaptureFresh(s, start);
      case CallGet(start) => CallGetFresh(s, start, accepted, clears);
      case Store(_, _, _, _) => StoreFresh(s);
    }
  }

  lemma ChainFresh(s: State, now: nat)
    requires TokenFresh(s) && s.loop.AfterStall?
    ensures TokenFresh(Chaining(s, now))
  {
    FreshKept(s, Chaining(s, now));
    hide TokenFresh;
  }

  lemma CheckFresh(s: State, now: nat, cancelled: bool)
    requires TokenFresh(s) && s.loop.Check?
    ensures TokenFresh(Checking(s, now, cancelled))
  {
    FreshKept(s, Checking(s, now, cancelled));
    hide TokenFresh;
  }

  lemma ExchangeFresh(s: State, after: After)
    requires TokenFresh(s) && s.loop.Exchange?
    ensures TokenFresh(Exchanging(s, after))
  {
    FreshKept(s, Exchanging(s, after));
    hide TokenFresh;
  }

  lemma CallSetFresh(s: State, carries: nat, after: After, now: nat, accepted: bool, clears: bool)
    requires TokenFresh(s) && s.loop.CallSet?
    ensures TokenFresh(CallingSet(s, carries, after, now, accepted, clears))
  {
    FreshKept(s, CallingSet(s, carries, after, now, accepted, clears));
    hide TokenFresh;
  }

  lemma TokenStaysFresh(s: State, step: Step)
    requires Inv(s) && TokenFresh(s) && RefusalClears(s, step)
    ensures TokenFresh(Apply(s, step))
  {
    hide WritesOk, EditsOk, IssuedOk, LoopNext, GetReplied, TokenFresh, GiveUp;
    if Enabled(s, step) {
      match step {
        case LoopStep(now, accepted, cancelled, clears) => LoopFresh(s, now, accepted, cancelled, clears);
        case GetReply(token, reading) => ReplyFresh(s, token, reading);
        case UiStep => UiFresh(s);
        case Dispatch(now, cancelled) => PollFresh(s, now, cancelled);
        case Refresh(now, cancelled) => PollFresh(s, now, cancelled);
        case _ => OtherFresh(s, step);
      }
    }
  }

  lemma UiFresh(s: State)
    requires TokenFresh(s)
    ensures TokenFresh(UiNext(s))
  {
  }

  lemma PollFresh(s: State, now: nat, cancelled: bool)
    requires TokenFresh(s) && s.loop.Idle?
    ensures s.pending > 0 ==> TokenFresh(Dispatching(s, now, cancelled))
    ensures TokenFresh(Refreshing(s, now, cancelled))
  {
    hide TokenFresh, GiveUp;
    if s.pending > 0 { FreshKept(s, Dispatching(s, now, cancelled)); }
    FreshKept(s, Refreshing(s, now, cancelled));
  }

  lemma OtherFresh(s: State, step: Step)
    requires TokenFresh(s) && Enabled(s, step) && (step.Edit? || step.Boot? || step.SetReply?)
    ensures TokenFresh(Apply(s, step))
  {
  }

  /** Whatever the cancellations do: if every refused getVolume call clears the token, every write of the
    * run is coherent. */
  lemma {:induction false} CoherentIfRefusalsClear(s: State, steps: seq<Step>)
    requires Init(s) && forall k :: 0 <= k < |steps| ==> RefusalClears(Run(s, steps[..k]), steps[k])
    ensures TokenFresh(Run(s, steps))
    ensures forall j :: 0 <= j < |Run(s, steps).writes| ==> Coherent(Run(s, steps).writes[j])
    decreases |steps|
  {
    hide Apply, Inv, RefusalClears;
    if steps != [] {
      var before := steps[..|steps| - 1];
      assert forall k :: 0 <= k < |before| ==> before[..k] == steps[..k];
      CoherentIfRefusalsClear(s, before);
      RunInv(s, before);
      assert RefusalClears(Run(s, steps[..|steps| - 1]), steps[|steps| - 1]);
      TokenStaysFresh(Run(s, before), steps[|steps| - 1]);
    }
    forall j | 0 <= j < |Run(s, steps).writes| ensures Coherent(Run(s, steps).writes[j]) {
      WritesExactly(s, steps, j);
    }
  }

  lemma RunMore(s: State, steps: seq<Step>, step: Step)
    ensures Run(s, steps + [step]) == Apply(Run(s, steps), step)
  {
    assert (steps + [step])[..|steps|] == steps;
  }

  /** The state after a first getVolume call has gone out unanswered. */
  const ASKED := FRESH.(ready := true, get := Line(true, 1, 0, {1}, {}), nextToken := 2,
                          issued := map[1 := Issued(0, 0)])

  /** And after the user has then set the volume to 50 and the TV has confirmed it. */
  const CONFIRMED := ASKED.(cache := Cache(50, false, false, 0), edits := 1,
                              put := Line(false, 2, 1, {}, {}), nextToken := 3,
                            carries := 1, settled := 1)

  const LOOP := LoopStep(1, true, false, false)

  lemma Asking() returns (steps: seq<Step>)
    ensures Run(FRESH, steps) == ASKED
  {
    steps := [];
    RunMore(FRESH, steps, Boot); steps := steps + [Boot];
    RunMore(FRESH, steps, Refresh(0, true)); steps := steps + [Refresh(0, true)];
    assert Run(FRESH, steps) == FRESH.(ready := true, loop := AfterStall(0));
    RunMore(FRESH, steps, LOOP); steps := steps + [LOOP];
    RunMore(FRESH, steps, LOOP); steps := steps + [LOOP];
    assert Run(FRESH, steps) == FRESH.(ready := true, loop := Capture(0));
    RunMore(FRESH, steps, LOOP); steps := steps + [LOOP];
    RunMore(FRESH, steps, LOOP); steps := steps + [LOOP];
  }

  lemma Confirming(before: seq<Step>) returns (steps: seq<Step>)
    requires Run(FRESH, before) == ASKED
    ensures Run(FRESH, steps) == CONFIRMED
  {
    steps := before;
    RunMore(FRESH, steps, Edit(50)); steps := steps + [Edit(50)];
    RunMore(FRESH, steps, UiStep); steps := steps + [UiStep];
    RunMore(FRESH, steps, UiStep); steps := steps + [UiStep];
    var edited := ASKED.(cache := Cache(50, false, false, 0), edits := 1,
                         desired := Some(50), queued := true, pending := 1);
    assert Run(FRESH, steps) == edited;
    RunMore(FRESH, steps, Dispatch(1, true)); steps := steps + [Dispatch(1, true)];
    RunMore(FRESH, steps, LOOP); steps := steps + [LOOP];
    RunMore(FRESH, steps, LOOP); steps := steps + [LOOP];
    assert Run(FRESH, steps) == CONFIRMED.(put := Line(true, 2, 1, {2}, {}), settled := 0);
    RunMore(FRESH, steps, SetReply(2)); steps := steps + [SetReply(2)];
  }

  /** The stalled get cannot be cancelled, and its replacement is refused without a new token. */
  lemma Replacing(before: seq<Step>) returns (steps: seq<Step>)
    requires Run(FRESH, before) == CONFIRMED
    ensures Run(FRESH, steps) == CONFIRMED.(get := Line(false, 1, 0, {1}, {1}), refreshGen := 1)
  {
    steps := before;
    RunMore(FRESH, steps, Refresh(3000000, false)); steps := steps + [Refresh(3000000, false)];
    RunMore(FRESH, steps, LOOP); steps := steps + [LOOP];
    RunMore(FRESH, steps, LOOP); steps := steps + [LOOP];
    assert Run(FRESH, steps) == CONFIRMED.(get := Line(false, 1, 0, {1}, {1}), loop := Capture(3000000));
    RunMore(FRESH, steps, LOOP); steps := steps + [LOOP];
    var refused := LoopStep(1, false, false, false);
    RunMore(FRESH, steps, refused); steps := steps + [refused];
  }

  /** The one way round the gate: the stalled getVolume cannot be cancelled, its replacement is refused and
    * leaves the old token in place, and the old call answers after all. Its reading, taken before the
    * confirmed edit, then overwrites that edit. */
  lemma StaleReadingGetsThrough() returns (steps: seq<Step>)
    ensures var t := Run(FRESH, steps);
            && t.settled == t.edits == 1 && t.cache.volume == 10
            && t.writes == [Write(1, 0, 0, false, true)] && !Coherent(t.writes[0])
  {
    var asking := Asking();
    var confirming := Confirming(asking);
    steps := Replacing(confirming);
    var reply := GetReply(1, Some(Reading(10, false)));
    RunMore(FRESH, steps, reply); steps := steps + [reply];
    RunMore(FRESH, steps, LOOP); steps := steps + [LOOP];
  }
}
