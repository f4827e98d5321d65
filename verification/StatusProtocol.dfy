/** The status worker and its callers in every interleaving: lock-held regions, the unlocked requests and sink calls,
    and the lock-free cancel() in reconfigure() are single steps. */
module StatusProtocol {
  import opened Basics
  import opened Config
  import opened StatusLoop

  datatype Worker =
    | NotRunning                              // not joinable
    | Top                                     // holds the lock, about to look at stop_
    | Working(configured: bool, drop: bool)   // unlocked: drop_now() if asked, then poll()
    | Deciding(configured: bool)              // locked again
    | Sinking(configured: bool)               // unlocked, before sink_(state_)
    | Waiting(usable: bool)                   // in wait_for, or in the wait without a timer if the key is unusable
    | Exited

  /** What sink_ was called with, under which settings it was asked, and what was true at the call. */
  datatype Publish = Publish(state: ServerState, config: nat, heard: nat, epoch: nat, consumed: nat)

  datatype Wait = Wait(streaming: bool, ms: nat, streak: nat, failures: nat)

  datatype State = State(
    loop: Loop, worker: Worker,
    config: nat, configured: bool,  // the newest settings, numbered by config::set()
    midway: nat,                    // callers of reconfigure() between cancel() and the flag
    now: nat,
    // history
    flagged: seq<nat>,              // the settings each time the reconfigure flag was raised
    caught: seq<bool>,              // was the worker between its check of the flag and the sink then
    heard: nat,                     // how many of those the worker has picked up
    publishes: seq<Publish>,
    requests: seq<nat>,             // when take-off requests were accepted
    consumed: nat, consumedWithKey: nat, deletes: nat,
    streak: nat, waits: seq<Wait>,
    pokes: nat, served: nat,
    outcome: Drop,                  // what became of the latest take-off
    misses: nat,                    // polls that failed since the last answered one, or the last new key
    bare: bool,                     // an iteration had no key since the account was last asked for, or the last new key
    quiet: nat)                     // iterations that ended with neither flag up

  datatype Event =
    | SetConfig(on: bool)
    | CancelFirst | RaiseFlag        // reconfigure()
    | Poke | StoreStreaming(on: bool) | RequestTakeOff
    | Start | SetStop | CancelLast | Join
    | Begin | TakeOff(r: Http) | PollServer(a: Answers) | SkipPoll | Decide | Sink | Wake(timeout: bool)
    | Tick(ns: nat)

  /** The predicate of the condition variable. */
  predicate Woken(s: State)
    requires s.worker.Waiting?
  {
    s.loop.stop || s.loop.reconfigure || s.loop.drop || (s.worker.usable && s.loop.poke)
  }

  /** The backoff shift is never negative. */
  predicate ShiftDefined(l: Loop) {
    l.state.link.Offline? ==> l.failures >= 1
  }

  predicate Enabled(s: State, e: Event) {
    match e
    case RaiseFlag => s.midway > 0
    case Start => s.worker.NotRunning?
    case SetStop => !s.worker.NotRunning?
    case CancelLast => s.loop.stop
    case Join => s.worker.Exited?
    case Begin => s.worker.Top?
    case TakeOff(_) => s.worker == Working(true, true)
    case PollServer(_) => s.worker == Working(true, false)
    case SkipPoll => s.worker.Working? && !s.worker.configured
    case Decide => s.worker.Deciding? && ShiftDefined(s.loop)
    case Sink => s.worker.Sinking? && ShiftDefined(s.loop)
    case Wake(timeout) => s.worker.Waiting? && (Woken(s) || (timeout && s.worker.usable))
    case _ => true
  }

  function Raise(s: State): State {
    s.(loop := s.loop.(reconfigure := true), flagged := s.flagged + [s.config],
       caught := s.caught + [s.worker.Sinking?])
  }

  function BeginStep(s: State): State {
    if s.loop.stop then s.(worker := Exited)
    else
      var d := if s.loop.drop then 1 else 0;
      s.(loop := BeginIteration(s.loop, s.config), worker := Working(s.configured, s.loop.drop), heard := |s.flagged|,
         consumed := s.consumed + d, consumedWithKey := if s.configured then s.consumedWithKey + d else s.consumedWithKey,
         streak := if s.loop.reconfigure then s.streak + 1 else s.streak, served := s.pokes,
         misses := if s.loop.reconfigure then 0 else s.misses, bare := s.bare && !s.loop.reconfigure)
  }

  function PollStep(s: State, a: Answers): State {
    var l := Poll(s.loop, a, s.now);
    s.(loop := l, worker := Deciding(true), streak := if l.failures < s.loop.failures then s.streak + 1 else s.streak,
       misses := if a.beta.Ok() then 0 else if Rejects(a) then s.misses else s.misses + 1,
       bare := s.bare && s.loop.accountFetched)
  }

  /** The iteration of an unconfigured plugin: no request, and a take-off counted as failed. */
  function SkipStep(s: State): State
    requires s.worker.Working?
  {
    var cleared := Reset(s.loop.state);
    s.(loop := s.loop.(state := if s.worker.drop then Answered(cleared, DropFailed) else cleared), worker := Deciding(false),
       outcome := if s.worker.drop then DropFailed else s.outcome, bare := true)
  }

  /** The wait that ends an iteration. */
  function IntoWait(s: State, configured: bool): State
    requires ShiftDefined(s.loop)
  {
    if !configured || s.loop.state.link.KeyRejected? then s.(worker := Waiting(false))
    else
      var ms := PollInterval(s.loop.streaming, s.loop.state.link, s.loop.failures);
      s.(worker := Waiting(true), waits := s.waits + [Wait(s.loop.streaming, ms, s.streak, s.misses)])
  }

  function DecideStep(s: State): State
    requires Enabled(s, Decide)
  {
    if s.loop.stop then s.(worker := Exited)
    else if !s.loop.reconfigure then s.(worker := Sinking(s.worker.configured))
    else IntoWait(s, s.worker.configured)
  }

  function Published(s: State): Publish {
    Publish(s.loop.state, s.loop.clientConfig, s.heard, |s.flagged|, s.consumed)
  }

  function SinkStep(s: State): State
    requires Enabled(s, Sink)
  {
    IntoWait(s.(publishes := s.publishes + [Published(s)]), s.worker.configured)
  }

  function RequestStep(s: State): State {
    s.(loop := RequestDrop(s.loop, s.now), requests := if AcceptsDrop(s.loop, s.now) then s.requests + [s.now] else s.requests)
  }

  function Apply(s: State, e: Event): State
    requires Enabled(s, e)
  {
    match e
    case SetConfig(on) => s.(config := s.config + 1, configured := on)
    case CancelFirst => s.(loop := s.loop.(cancelled := true), midway := s.midway + 1)
    case RaiseFlag => Raise(s).(midway := s.midway - 1)
    case Poke => s.(loop := s.loop.(poke := true), pokes := s.pokes + 1)
    case StoreStreaming(on) => s.(loop := s.loop.(streaming := on))
    case RequestTakeOff => RequestStep(s)
    case Start => Raise(s.(loop := s.loop.(stop := false))).(worker := Top)
    case SetStop => s.(loop := s.loop.(stop := true))
    case CancelLast => s.(loop := s.loop.(cancelled := true))
    case Join => s.(worker := NotRunning)
    case Begin => BeginStep(s)
    case TakeOff(r) =>
      s.(loop := s.loop.(state := Answered(s.loop.state, DropOutcome(r))), worker := Working(true, false), deletes := s.deletes + 1,
        outcome := if !r.Ok() then DropFailed else if r.flag then Dropped else NothingOnAir)
    case PollServer(a) => PollStep(s, a)
    case SkipPoll => SkipStep(s)
    case Decide => DecideStep(s).(quiet := if s.loop.stop || s.loop.reconfigure then s.quiet else s.quiet + 1)
    case Sink => SinkStep(s)
    case Wake(_) => s.(worker := Top)
    case Tick(ns) => s.(now := s.now + ns)
  }

  predicate Initial(s: State) {
    && s.loop == Loop(false, false, false, false, 0, false, false, 0, NOT_ASKED, false, 0)
    && s.worker.NotRunning? && s.config == 0 && s.midway == 0
    && s.flagged == [] && s.caught == [] && s.heard == 0 && s.publishes == [] && s.requests == []
    && s.consumed == s.consumedWithKey == s.deletes == 0
    && s.streak == 0 && s.waits == [] && s.pokes == s.served == 0
    && s.outcome == NoDrop && s.misses == 0 && !s.bare && s.quiet == 0
  }

  // ---------------------------------------------------------------- the invariant, part by part

  predicate CancelInv(s: State) {
    s.loop.cancelled ==> s.loop.reconfigure || s.midway > 0 || s.loop.stop || s.worker.NotRunning?
  }

  predicate UnderConfig(f: Option<Fact>, config: nat) {
    f.Some? ==> f.value.config == config
  }

  /** Everything the server said in this state was asked under one configuration. */
  predicate FactsUnder(s: ServerState, config: nat) {
    UnderConfig(s.account, config) && UnderConfig(s.token, config) && UnderConfig(s.beta, config) && UnderConfig(s.orders, config)
  }

  predicate InIteration(w: Worker) {
    w.Working? || w.Deciding? || w.Sinking?
  }

  ghost predicate EpochInv(flagged: seq<nat>, heard: nat, raised: bool, config: nat, clientConfig: nat, state: ServerState) {
    && heard <= |flagged| && (raised <==> heard < |flagged|)
    && (forall i :: 0 <= i < |flagged| ==> flagged[i] <= config)
    && clientConfig <= config
    && (forall i :: 0 <= i < heard ==> flagged[i] <= clientConfig)
    && FactsUnder(state, clientConfig)
  }

  ghost predicate PublishInv(publishes: seq<Publish>, flagged: seq<nat>, heard: nat, w: Worker) {
    && (forall i :: 0 <= i < |publishes| ==>
          && publishes[i].heard <= publishes[i].epoch <= |flagged|
          && FactsUnder(publishes[i].state, publishes[i].config)
          && publishes[i].state.dropSeq == publishes[i].consumed % U32)
    && (forall i, e :: 0 <= i < |publishes| && 0 <= e < publishes[i].heard ==> flagged[e] <= publishes[i].config)
    && (forall i, j :: 0 <= i < j < |publishes| ==> publishes[i].epoch <= publishes[j].heard)
    && (InIteration(w) ==> forall i :: 0 <= i < |publishes| ==> publishes[i].epoch <= heard)
  }

  function InHand(w: Worker): nat {
    if w.Working? && w.drop then 1 else 0
  }

  predicate DropInv(s: State) {
    && InHand(s.worker) <= s.consumed
    && s.loop.state.dropSeq == (s.consumed - InHand(s.worker)) % U32
    && s.deletes + (if s.worker == Working(true, true) then 1 else 0) == s.consumedWithKey <= s.consumed
    && s.consumed + (if s.loop.drop then 1 else 0) <= |s.requests|
  }

  ghost predicate RequestInv(requests: seq<nat>, last: nat, now: nat) {
    && last == (if requests == [] then 0 else requests[|requests| - 1])
    && last <= now
    && (forall i :: 0 < i < |requests| ==> requests[i - 1] == 0 || requests[i - 1] + DROP_COOLDOWN_NS <= requests[i])
  }

  function WaitFor(streaming: bool, failures: nat): nat {
    PollInterval(streaming, if failures == 0 then Online else Offline, failures)
  }

  ghost predicate BackoffInv(l: Loop, w: Worker, streak: nat, waits: seq<Wait>) {
    && ShiftDefined(l)
    && (l.state.link.Online? ==> l.failures == 0)
    && ((w == Deciding(true) || w == Sinking(true)) ==> !l.state.link.Unknown?)
    && (forall i :: 0 <= i < |waits| ==>
          && waits[i].ms == WaitFor(waits[i].streaming, waits[i].failures)
          && waits[i].streak <= streak && (waits[i].streak == streak ==> waits[i].failures <= l.failures))
    && (forall i, j :: 0 <= i < j < |waits| ==>
          waits[i].streak <= waits[j].streak && (waits[i].streak == waits[j].streak ==> waits[i].failures <= waits[j].failures))
  }

  predicate PokeInv(s: State) {
    s.served <= s.pokes && (s.loop.poke <==> s.served < s.pokes)
  }

  ghost predicate Epochs(s: State) {
    EpochInv(s.flagged, s.heard, s.loop.reconfigure, s.config, s.loop.clientConfig, s.loop.state)
  }

  /** A state asked for before raise number e of the flag, published after it. */
  predicate Straddles(p: Publish, e: nat) {
    p.heard <= e < p.epoch
  }

  /** A raise is straddled by a publish, or about to be, exactly when it caught the worker at the sink. */
  ghost predicate CaughtInv(publishes: seq<Publish>, caught: seq<bool>, count: nat, heard: nat, w: Worker) {
    && |caught| == count
    && (forall e :: 0 <= e < |caught| ==>
          (caught[e] <==> (exists p :: p in publishes && Straddles(p, e)) || (w.Sinking? && heard <= e)))
  }

  ghost predicate Caught(s: State) {
    CaughtInv(s.publishes, s.caught, |s.flagged|, s.heard, s.worker)
  }

  ghost predicate Publishes(s: State) {
    PublishInv(s.publishes, s.flagged, s.heard, s.worker)
  }

  ghost predicate Requests(s: State) {
    RequestInv(s.requests, s.loop.lastDropRequest, s.now)
  }

  ghost predicate Backoff(s: State) {
    BackoffInv(s.loop, s.worker, s.streak, s.waits)
  }

  /** Nothing the server said is in it. */
  predicate Blank(s: ServerState) {
    s.link == Unknown && s.account == s.token == s.beta == s.orders == None
  }

  /** The worker's fields against their history. */
  predicate Remembered(s: State) {
    && s.loop.failures == s.misses
    && s.loop.state.lastDrop == s.outcome
    && (s.loop.accountFetched && !s.bare ==> s.loop.state.account.Some? && s.loop.state.token.Some?)
    && (s.loop.accountFetched && s.bare ==> s.loop.state.account.None? && s.loop.state.token.None?)
    && (s.loop.state.link == KeyRejected ==> !s.loop.accountFetched)
    && (s.worker == Deciding(false) || s.worker == Sinking(false) ==> Blank(s.loop.state))
    && s.quiet == |s.publishes| + if s.worker.Sinking? then 1 else 0
  }

  ghost predicate Inv(s: State) {
    Remembered(s) && CancelInv(s) && PokeInv(s) && DropInv(s) && Epochs(s) && Publishes(s) && Caught(s) && Requests(s) && Backoff(s)
  }

  // ---------------------------------------------------------------- each part is kept

  predicate OfWorker(e: Event) {
    e.Begin? || e.TakeOff? || e.PollServer? || e.SkipPoll? || e.Decide? || e.Sink? || e.Wake?
  }

  lemma FetchFrame(l: Loop, a: Answers)
    ensures var m := FetchAccount(l, a);
            && m == l.(state := m.state, accountFetched := m.accountFetched)
            && m.state == l.state.(account := m.state.account, token := m.state.token)
            && (FactsUnder(l.state, l.clientConfig) ==> FactsUnder(m.state, l.clientConfig))
  {
    hide IsToken;
  }

  predicate AskKeeps(l: Loop, m: Loop) {
    && m == l.(state := m.state, accountFetched := m.accountFetched, failures := m.failures)
    && m.state.dropSeq == l.state.dropSeq
    && (FactsUnder(l.state, l.clientConfig) ==> FactsUnder(m.state, l.clientConfig))
    && ShiftDefined(m) && !m.state.link.Unknown?
    && (m.state.link.Online? ==> m.failures == 0)
    && (m.failures >= l.failures || m.failures == 0)
  }

  lemma RefusedKeeps(l: Loop)
    ensures AskKeeps(l, Refused(l))
  {
  }

  lemma FailedKeeps(l: Loop, now: nat)
    ensures AskKeeps(l, PollFailed(l, now))
  {
    hide PollInterval;
  }

  lemma LearnedKeeps(l: Loop, a: Answers)
    ensures AskKeeps(l, Learned(l, a))
  {
  }

  /** What poll() leaves alone, and what it guarantees. */
  lemma PollFrame(l: Loop, a: Answers, now: nat)
    ensures AskKeeps(l, Poll(l, a, now))
  {
    hide Refused, PollFailed, Learned, FetchAccount, FactsUnder;
    FetchFrame(l, a);
    var f := if l.accountFetched then l else FetchAccount(l, a);
    RefusedKeeps(f);
    FailedKeeps(f, now);
    LearnedKeeps(f, a);
  }

  lemma IntoWaitFrame(s: State, configured: bool)
    requires ShiftDefined(s.loop)
    ensures var t := IntoWait(s, configured);
            t == s.(worker := t.worker, waits := t.waits) && t.worker.Waiting?
  {
    hide PollInterval;
  }

  /** What an iteration's last two steps leave alone. */
  lemma WaitFrame(s: State, e: Event)
    requires (e.Decide? || e.Sink?) && Enabled(s, e)
    ensures var t := Apply(s, e);
            && t == s.(worker := t.worker, publishes := t.publishes, waits := t.waits, quiet := t.quiet)
            && !t.worker.NotRunning? && !t.worker.Working?
  {
    hide IntoWait;
    IntoWaitFrame(s, s.worker.configured);
    if e.Sink? {
      IntoWaitFrame(s.(publishes := s.publishes + [Published(s)]), s.worker.configured);
    }
  }

  lemma CancelOfWorker(s: State, e: Event)
    requires CancelInv(s) && PokeInv(s) && Enabled(s, e) && OfWorker(e)
    ensures CancelInv(Apply(s, e)) && PokeInv(Apply(s, e))
  {
    hide Poll, Answered, Reset, DecideStep, SinkStep;
    if e.PollServer? { PollFrame(s.loop, e.a, s.now); }
    if e.Decide? || e.Sink? { WaitFrame(s, e); }
  }

  lemma CancelOfCallers(s: State, e: Event)
    requires CancelInv(s) && PokeInv(s) && Enabled(s, e) && !OfWorker(e)
    ensures CancelInv(Apply(s, e)) && PokeInv(Apply(s, e))
  {
  }

  lemma OneMore(n: int)
    requires n >= 0
    ensures (n % U32 + 1) % U32 == (n + 1) % U32
  {
  }

  lemma DropOfAnswers(s: State, e: Event)
    requires DropInv(s) && Enabled(s, e) && (e.TakeOff? || e.SkipPoll?)
    ensures DropInv(Apply(s, e))
  {
    OneMore(s.consumed - InHand(s.worker));
  }

  lemma DropOfWorker(s: State, e: Event)
    requires DropInv(s) && Enabled(s, e) && OfWorker(e) && !e.TakeOff? && !e.SkipPoll?
    ensures DropInv(Apply(s, e))
  {
    hide Poll, DecideStep, SinkStep;
    if e.PollServer? { PollFrame(s.loop, e.a, s.now); }
    if e.Decide? || e.Sink? { WaitFrame(s, e); }
  }

  lemma DropOfCallers(s: State, e: Event)
    requires DropInv(s) && Enabled(s, e) && !OfWorker(e)
    ensures DropInv(Apply(s, e))
  {
  }

  lemma EpochsOfWorker(s: State, e: Event)
    requires Epochs(s) && Enabled(s, e) && OfWorker(e)
    ensures Epochs(Apply(s, e))
  {
    hide Poll, DecideStep, SinkStep;
    if e.PollServer? { PollFrame(s.loop, e.a, s.now); }
    if e.Decide? || e.Sink? { WaitFrame(s, e); }
  }

  lemma EpochsOfCallers(s: State, e: Event)
    requires Epochs(s) && Enabled(s, e) && !OfWorker(e)
    ensures Epochs(Apply(s, e))
  {
  }

  lemma RequestsOfWorker(s: State, e: Event)
    requires Requests(s) && Enabled(s, e) && OfWorker(e)
    ensures Requests(Apply(s, e))
  {
    hide Poll, DecideStep, SinkStep, Answered, Reset, RequestInv;
    if e.PollServer? { PollFrame(s.loop, e.a, s.now); }
    if e.Decide? || e.Sink? { WaitFrame(s, e); }
  }

  lemma RequestsOfCallers(s: State, e: Event)
    requires Requests(s) && Enabled(s, e) && !OfWorker(e)
    ensures Requests(Apply(s, e))
  {
  }

  lemma PublishedOfSink(s: State)
    requires Publishes(s) && Epochs(s) && DropInv(s) && Enabled(s, Sink)
    ensures Publishes(Apply(s, Sink))
  {
    hide IntoWait, FactsUnder;
    IntoWaitFrame(s.(publishes := s.publishes + [Published(s)]), s.worker.configured);
  }

  lemma PublishedOfBegin(s: State)
    requires Publishes(s) && Epochs(s) && Enabled(s, Begin)
    ensures Publishes(Apply(s, Begin))
  {
    hide Reset, FactsUnder;
  }

  lemma NothingPublished(s: State, e: Event)
    requires Enabled(s, e) && OfWorker(e) && !e.Sink? && !e.Begin?
    ensures var t := Apply(s, e);
            && t.publishes == s.publishes && t.flagged == s.flagged && t.heard == s.heard
            && (InIteration(t.worker) ==> InIteration(s.worker))
  {
    hide Poll, Answered, Reset, IntoWait;
    if e.Decide? { IntoWaitFrame(s, s.worker.configured); }
  }

  lemma PublishedOfWorker(s: State, e: Event)
    requires Publishes(s) && Enabled(s, e) && OfWorker(e) && !e.Sink? && !e.Begin?
    ensures Publishes(Apply(s, e))
  {
    hide Apply, Enabled, FactsUnder;
    NothingPublished(s, e);
  }

  lemma PublishedOfCallers(s: State, e: Event)
    requires Publishes(s) && Enabled(s, e) && !OfWorker(e)
    ensures Publishes(Apply(s, e))
  {
    hide FactsUnder;
  }

  lemma MissesAre(s: State)
    requires Remembered(s)
    ensures s.loop.failures == s.misses
  {
  }

  lemma RememberedOfPoll(s: State, a: Answers)
    requires Remembered(s) && Enabled(s, PollServer(a))
    ensures Remembered(Apply(s, PollServer(a)))
  {
    hide Poll, PollInterval, IsToken;
    PollMeans(s.loop, a, s.now);
  }

  lemma RememberedOfWait(s: State, e: Event)
    requires Remembered(s) && Enabled(s, e) && (e.Decide? || e.Sink?)
    ensures Remembered(Apply(s, e))
  {
    hide IntoWait;
    IntoWaitFrame(if e.Sink? then s.(publishes := s.publishes + [Published(s)]) else s, s.worker.configured);
  }

  lemma RememberedOfWorker(s: State, e: Event)
    requires Remembered(s) && Enabled(s, e) && (e.Begin? || e.TakeOff? || e.SkipPoll? || e.Wake?)
    ensures Remembered(Apply(s, e))
  {
  }

  lemma RememberedOfCallers(s: State, e: Event)
    requires Remembered(s) && Enabled(s, e) && !OfWorker(e)
    ensures Remembered(Apply(s, e))
  {
  }

  lemma CaughtOfSink(s: State)
    requires Caught(s) && Epochs(s) && Enabled(s, Sink)
    ensures Caught(Apply(s, Sink))
  {
    hide IntoWait, FactsUnder;
    var now := Published(s);
    IntoWaitFrame(s.(publishes := s.publishes + [now]), s.worker.configured);
    forall e | 0 <= e < |s.caught|
      ensures s.caught[e] <==> exists p :: p in s.publishes + [now] && Straddles(p, e)
    {
      assert Straddles(now, e) <==> s.heard <= e;
      assert now in s.publishes + [now];
    }
  }

  lemma CaughtOfWorker(s: State, e: Event)
    requires Caught(s) && Epochs(s) && Enabled(s, e) && OfWorker(e) && !e.Sink?
    ensures Caught(Apply(s, e))
  {
    hide Poll, Answered, Reset, IntoWait, FactsUnder, Straddles;
    if e.Decide? { IntoWaitFrame(s, s.worker.configured); }
  }

  lemma CaughtOfCallers(s: State, e: Event)
    requires Caught(s) && Epochs(s) && Publishes(s) && Enabled(s, e) && !OfWorker(e)
    ensures Caught(Apply(s, e))
  {
    hide FactsUnder;
    forall p | p in s.publishes ensures p.epoch <= |s.flagged| {
      var i :| 0 <= i < |s.publishes| && s.publishes[i] == p;
    }
  }

  lemma BackoffOfPoll(s: State, a: Answers)
    requires Backoff(s) && Enabled(s, PollServer(a))
    ensures Backoff(Apply(s, PollServer(a)))
  {
    hide Poll, WaitFor;
    PollFrame(s.loop, a, s.now);
  }

  /** What the end of an iteration leads into: a timed wait of the length the failures call for, or, without a usable key,
      one without a timer. */
  lemma IntoWaitMeans(s: State, configured: bool)
    requires ShiftDefined(s.loop)
    ensures var t := IntoWait(s, configured);
            if !configured || s.loop.state.link == KeyRejected then t == s.(worker := Waiting(false))
            else t.worker == Waiting(true) && |t.waits| == |s.waits| + 1
                 && t == s.(worker := t.worker, waits := s.waits + [t.waits[|s.waits|]])
                 && t.waits[|s.waits|] == Wait(s.loop.streaming, t.waits[|s.waits|].ms, s.streak, s.misses)
                 && (s.loop.state.link == Offline ==> t.waits[|s.waits|].ms == WaitFor(s.loop.streaming, s.loop.failures))
                 && (s.loop.state.link == Online ==> t.waits[|s.waits|].ms == WaitFor(s.loop.streaming, 0))
  {
    hide PollInterval, WaitFor;
    if s.loop.state.link.Online? { SameInterval(s.loop.streaming, s.loop.failures); }
    if s.loop.state.link.Offline? { OfflineInterval(s.loop.streaming, s.loop.failures); }
  }

  lemma OneWaitMore(l: Loop, w: Worker, streak: nat, waits: seq<Wait>, x: Wait)
    requires BackoffInv(l, w, streak, waits)
    requires x.ms == WaitFor(x.streaming, x.failures) && x.streak == streak && x.failures == l.failures
    ensures BackoffInv(l, Waiting(true), streak, waits + [x])
  {
    hide WaitFor;
  }

  lemma BackoffOfWait(s: State, e: Event)
    requires Backoff(s) && s.loop.failures == s.misses && Enabled(s, e) && (e.Decide? || e.Sink?)
    ensures Backoff(Apply(s, e))
  {
    hide IntoWait, WaitFor;
    var r := if e.Sink? then s.(publishes := s.publishes + [Published(s)]) else s;
    IntoWaitMeans(r, s.worker.configured);
    var t := IntoWait(r, s.worker.configured);
    if t.worker == Waiting(true) { OneWaitMore(s.loop, s.worker, s.streak, s.waits, t.waits[|s.waits|]); }
  }

  lemma OfflineInterval(streaming: bool, failures: nat)
    requires failures > 0
    ensures PollInterval(streaming, Offline, failures) == WaitFor(streaming, failures)
  {
  }

  lemma SameInterval(streaming: bool, failures: nat)
    ensures PollInterval(streaming, Online, failures) == WaitFor(streaming, 0)
  {
  }

  lemma BackoffOfOthers(s: State, e: Event)
    requires Backoff(s) && Enabled(s, e) && !e.PollServer? && !e.Decide? && !e.Sink?
    ensures Backoff(Apply(s, e))
  {
    hide WaitFor;
  }

  lemma StepKeepsInv(s: State, e: Event)
    requires Inv(s) && Enabled(s, e)
    ensures Inv(Apply(s, e))
  {
    hide Remembered, CancelInv, PokeInv, DropInv, Epochs, Publishes, Caught, Requests, Backoff, Apply, Enabled;
    assert s.loop.failures == s.misses by { MissesAre(s); }
    if e.PollServer? { RememberedOfPoll(s, e.a); }
    else if e.Decide? || e.Sink? { RememberedOfWait(s, e); }
    else if OfWorker(e) { RememberedOfWorker(s, e); }
    else { RememberedOfCallers(s, e); }
    if e.TakeOff? || e.SkipPoll? { DropOfAnswers(s, e); } else if OfWorker(e) { DropOfWorker(s, e); }
    if e.Sink? { CaughtOfSink(s); } else if OfWorker(e) { CaughtOfWorker(s, e); } else { CaughtOfCallers(s, e); }
    if OfWorker(e) {
      CancelOfWorker(s, e); EpochsOfWorker(s, e); RequestsOfWorker(s, e);
    } else {
      CancelOfCallers(s, e); DropOfCallers(s, e); EpochsOfCallers(s, e); RequestsOfCallers(s, e);
    }
    if e.Sink? { PublishedOfSink(s); }
    else if e.Begin? { PublishedOfBegin(s); }
    else if OfWorker(e) { PublishedOfWorker(s, e); }
    else { PublishedOfCallers(s, e); }
    if e.PollServer? { BackoffOfPoll(s, e.a); }
    else if e.Decide? || e.Sink? { BackoffOfWait(s, e); }
    else { BackoffOfOthers(s, e); }
  }

  predicate CanRun(s: State, events: seq<Event>)
    decreases |events|
  {
    events == [] || (Enabled(s, events[0]) && CanRun(Apply(s, events[0]), events[1..]))
  }

  function Run(s: State, events: seq<Event>): State
    requires CanRun(s, events)
    decreases |events|
  {
    if events == [] then s else Run(Apply(s, events[0]), events[1..])
  }

  lemma {:induction false} RunKeepsInv(s: State, events: seq<Event>)
    requires Inv(s) && CanRun(s, events)
    ensures Inv(Run(s, events))
    decreases |events|
  {
    hide Inv, Apply, Enabled;
    if events != [] {
      StepKeepsInv(s, events[0]);
      RunKeepsInv(Apply(s, events[0]), events[1..]);
    }
  }

  ghost predicate Reachable(t: State) {
    exists s: State, events: seq<Event> :: Initial(s) && CanRun(s, events) && t == Run(s, events)
  }

  lemma InitialIsInv(s: State)
    requires Initial(s)
    ensures Inv(s)
  {
  }

  lemma ReachableIsInv(t: State)
    requires Reachable(t)
    ensures Inv(t)
  {
    hide Inv, Initial, CanRun, Run;
    var s: State, events: seq<Event> :| Initial(s) && CanRun(s, events) && t == Run(s, events);
    InitialIsInv(s);
    RunKeepsInv(s, events);
  }

  // ---------------------------------------------------------------- what every reachable state promises

  /** The client never stays cancelled: a cancel is always about to be followed by a reconfigure the worker will see, or
      the loop is stopping; and the iteration that sees it lifts the cancel unless another caller is already midway. */
  lemma NeverStaysCancelled(t: State)
    requires Reachable(t)
    ensures t.loop.cancelled ==> t.loop.reconfigure || t.midway > 0 || t.loop.stop || t.worker.NotRunning?
    ensures Enabled(t, Begin) && !t.loop.stop && t.midway == 0 ==> !Apply(t, Begin).loop.cancelled
  {
    hide Reachable, Remembered, Epochs, Publishes, Caught, Requests, Backoff;
    ReachableIsInv(t);
  }

  /** Once reconfigure() number e has returned, at most one state asked for before it still reaches the sink: whatever
      that state holds, and whether or not the settings changed. */
  lemma AtMostOneStalePublish(t: State, e: nat, i: nat, j: nat)
    requires Reachable(t) && i < |t.publishes| && j < |t.publishes|
    requires Straddles(t.publishes[i], e) && Straddles(t.publishes[j], e)
    ensures i == j
  {
    hide Reachable, Remembered, CancelInv, PokeInv, DropInv, Epochs, Caught, Requests, Backoff;
    ReachableIsInv(t);
  }

  /** So at most one state of older settings, with or without facts in it. */
  lemma AtMostOneOfOlderSettings(t: State, e: nat, i: nat, j: nat)
    requires Reachable(t) && e < |t.flagged| && i < |t.publishes| && j < |t.publishes|
    requires e < t.publishes[i].epoch && t.publishes[i].config < t.flagged[e]
    requires e < t.publishes[j].epoch && t.publishes[j].config < t.flagged[e]
    ensures i == j
  {
    hide Reachable, Remembered, CancelInv, PokeInv, DropInv, Epochs, Caught, Requests, Backoff;
    ReachableIsInv(t);
    AtMostOneStalePublish(t, e, i, j);
  }

  /** And exactly when: a state asked for before raise number e is published after it, or is at the sink for that,
      if and only if the raise came between the worker's check of the flag and its call of the sink. */
  lemma StalePublishExactly(t: State, e: nat)
    requires Reachable(t) && e < |t.flagged|
    ensures |t.caught| == |t.flagged|
    ensures t.caught[e] <==> (exists p :: p in t.publishes && Straddles(p, e)) || (t.worker.Sinking? && t.heard <= e)
    ensures t.worker.Sinking? && t.heard <= e ==>
      Enabled(t, Sink) && Apply(t, Sink).publishes == t.publishes + [Published(t)] && Straddles(Published(t), e)
  {
    hide Reachable, Remembered, CancelInv, PokeInv, DropInv, Requests, IntoWait;
    ReachableIsInv(t);
    if t.worker.Sinking? { IntoWaitFrame(t.(publishes := t.publishes + [Published(t)]), t.worker.configured); }
  }

  /** A state is only ever published whole: everything in it was asked under one configuration, and its drop_seq counts
      the take-offs consumed until then, modulo 2^32, across any number of reconfigures. */
  lemma PublishedStates(t: State, i: nat)
    requires Reachable(t) && i < |t.publishes|
    ensures var p := t.publishes[i]; FactsUnder(p.state, p.config) && p.state.dropSeq == p.consumed % U32
  {
    hide Reachable, Remembered, CancelInv, PokeInv, DropInv, Epochs, Requests, Backoff, Caught;
    ReachableIsInv(t);
  }

  /** One DELETE per take-off consumed with a key, none otherwise, and never more than were asked for. */
  lemma DeletesAccounted(t: State)
    requires Reachable(t)
    ensures t.deletes <= t.consumedWithKey <= t.deletes + 1 && t.consumedWithKey <= t.consumed <= |t.requests|
    ensures !t.worker.Working? ==> t.deletes == t.consumedWithKey
  {
    hide Reachable, Remembered, CancelInv, PokeInv, Epochs, Publishes, Requests, Backoff, Caught;
    ReachableIsInv(t);
  }

  /** Exactly when a request is accepted: none was before, or the last one was at clock zero, or 3 s have gone by. */
  lemma AcceptedWhen(t: State)
    requires Reachable(t)
    ensures var n := |t.requests|; var next := Apply(t, RequestTakeOff).requests;
            if n == 0 || t.requests[n - 1] == 0 || t.requests[n - 1] + 3_000_000_000 <= t.now then next == t.requests + [t.now]
            else next == t.requests
  {
    hide Reachable, Remembered, CancelInv, PokeInv, DropInv, Epochs, Publishes, Caught, Backoff;
    ReachableIsInv(t);
  }

  /** An accepted request is never lost: it raises the flag, nothing but an iteration lowers it, and that iteration's first
      act, given a key, is the DELETE. */
  lemma TakeOffNotLost(t: State, e: Event, r: Http)
    requires Reachable(t) && Enabled(t, e)
    ensures |Apply(t, e).requests| > |t.requests| ==> Apply(t, e).loop.drop
    ensures t.loop.drop && (!e.Begin? || t.loop.stop) ==> Apply(t, e).loop.drop
    ensures t.loop.drop && e.Begin? && !t.loop.stop ==>
      var u := Apply(t, e);
      && u.consumed == t.consumed + 1
      && (if t.configured then Enabled(u, TakeOff(r)) && Apply(u, TakeOff(r)).deletes == t.deletes + 1
          else Enabled(u, SkipPoll) && Apply(u, SkipPoll).outcome == DropFailed)
  {
    hide Reachable, Poll, IntoWait, Answered, Reset, DropOutcome;
    if e.PollServer? { PollFrame(t.loop, e.a, t.now); }
    if e.Decide? || e.Sink? { IntoWaitFrame(if e.Sink? then t.(publishes := t.publishes + [Published(t)]) else t, t.worker.configured); }
  }

  /** The exception is real: two requests at clock zero are both accepted. */
  lemma TwoRequestsAtZero(s: State)
    requires Initial(s) && s.now == 0
    ensures var events := [RequestTakeOff, RequestTakeOff]; CanRun(s, events) && Run(s, events).requests == [0, 0]
  {
    assert [RequestTakeOff, RequestTakeOff][1..] == [RequestTakeOff];
    assert CanRun(Apply(s, RequestTakeOff), [RequestTakeOff]);
  }

  /** Accepted requests are 3 s apart, unless the clock stood at zero: there the last request looks like none. */
  lemma RequestsSpaced(t: State, i: nat)
    requires Reachable(t) && 0 < i < |t.requests|
    ensures t.requests[i - 1] == 0 || t.requests[i - 1] + 3_000_000_000 <= t.requests[i]
  {
    hide Reachable, Remembered, CancelInv, PokeInv, DropInv, Epochs, Publishes, Backoff, Caught;
    ReachableIsInv(t);
  }

  /** Along one failure streak, with streaming unchanged, waits never shrink and stay within [base, 60000] ms; the
      backoff shift is always defined and in [0, 4], so the guards of Decide and Sink never fail. */
  lemma WaitsGrow(t: State, i: nat, j: nat)
    requires Reachable(t) && i < j < |t.waits|
    requires t.waits[i].streak == t.waits[j].streak && t.waits[i].streaming == t.waits[j].streaming
    ensures var base := if t.waits[i].streaming then ON_AIR_POLL_MS else OFF_AIR_POLL_MS;
            base <= t.waits[i].ms <= t.waits[j].ms <= MAX_BACKOFF_MS
  {
    hide Reachable, Remembered, CancelInv, PokeInv, DropInv, Epochs, Publishes, Requests, PollInterval, Caught;
    ReachableIsInv(t);
    WaitBounds(t.waits[i].streaming, t.waits[i].failures, t.waits[j].failures);
  }

  lemma WaitBounds(streaming: bool, failures: nat, more: nat)
    requires failures <= more
    ensures var base := if streaming then ON_AIR_POLL_MS else OFF_AIR_POLL_MS;
            base <= WaitFor(streaming, failures) <= WaitFor(streaming, more) <= MAX_BACKOFF_MS
  {
    hide Shl;
    if more > 0 { BackoffBounds(streaming, if failures > 0 then failures else 1, more); }
  }

  lemma ShiftInRange(t: State)
    requires Reachable(t) && t.loop.state.link.Offline?
    ensures 0 <= BackoffShift(t.loop.failures) <= 4
  {
    hide Reachable, Remembered, CancelInv, PokeInv, DropInv, Epochs, Publishes, Requests, Caught;
    ReachableIsInv(t);
  }

  /** A poke, and so a set_streaming(), since the current iteration began is never lost while there is a key to ask with:
      no timer is needed to leave the wait, and the next iteration serves it. */
  lemma PokeNotLost(t: State)
    requires Reachable(t) && t.served < t.pokes && t.worker == Waiting(true)
    ensures Enabled(t, Wake(false))
    ensures var next := Apply(t, Wake(false));
            Enabled(next, Begin) && (!t.loop.stop ==> Apply(next, Begin).worker.Working? && Apply(next, Begin).served == t.pokes)
  {
    hide Reachable, Remembered, CancelInv, DropInv, Epochs, Publishes, Requests, Backoff, Caught;
    ReachableIsInv(t);
  }

  /** And only serving it clears it. */
  lemma PokeWaits(t: State, e: Event)
    requires Reachable(t) && t.served < t.pokes && Enabled(t, e) && !e.Begin?
    ensures Apply(t, e).served < Apply(t, e).pokes && Apply(t, e).loop.poke
  {
    hide Reachable, Remembered, Epochs, Publishes, Requests, Backoff, DropInv, PollInterval, Caught;
    ReachableIsInv(t);
    StepKeepsInv(t, e);
    if e.Decide? || e.Sink? { WaitFrame(t, e); }
  }

  /** The waits are exactly those of BackoffDoubles, and what they count is the polls that failed since the last answered
      one or the last new key. */
  lemma WaitsExactly(t: State, i: nat)
    requires Reachable(t) && i < |t.waits|
    ensures var w := t.waits[i];
            w.ms == if w.failures == 0 then (if w.streaming then 5000 else 30000) else PollInterval(w.streaming, Offline, w.failures)
    ensures t.loop.failures == t.misses
  {
    hide Reachable, CancelInv, PokeInv, DropInv, Epochs, Publishes, Caught, Requests, PollInterval;
    ReachableIsInv(t);
    SameInterval(t.waits[i].streaming, 1);
    BackoffDoubles(t.waits[i].streaming, Online, 1);
    if t.waits[i].failures > 0 { OfflineInterval(t.waits[i].streaming, t.waits[i].failures); }
  }

  // ---------------------------------------------------------------- the account

  /** While the worker believes it has the account it does have both halves, except exactly when an iteration without a
      key has run since it asked and no new key has been served; and under a rejected key it does not believe so. */
  lemma AccountKnown(t: State)
    requires Reachable(t) && t.loop.accountFetched
    ensures !t.bare <==> t.loop.state.account.Some? && t.loop.state.token.Some?
    ensures t.loop.state.link != KeyRejected
  {
    hide Reachable, CancelInv, PokeInv, DropInv, Epochs, Publishes, Caught, Requests, Backoff;
    ReachableIsInv(t);
  }

  /** After a new key the first poll asks for the account: answered well, both halves are there under the new settings,
      with or without a take-off before it, and they are asked for once more only if the key was rejected. */
  lemma NewKeyAsks(t: State, r: Http, a: Answers)
    requires Reachable(t) && Enabled(t, Begin) && t.loop.reconfigure && !t.loop.stop && t.configured && Introduces(a)
    ensures var u := Apply(t, Begin);
            && (if t.loop.drop then Enabled(u, TakeOff(r)) else Enabled(u, PollServer(a)))
            && var v := if t.loop.drop then Apply(u, TakeOff(r)) else u;
               && Enabled(v, PollServer(a))
               && var w := Apply(v, PollServer(a)).loop;
                  && w.state.account == Some(Fact(t.config, a.me.text)) && w.state.token == Some(Fact(t.config, a.token.text))
                  && (w.accountFetched <==> !Rejects(a))
  {
    hide Reachable, Poll, IsToken, Answered, Rejects;
    var u := Apply(t, Begin);
    var v := if t.loop.drop then Apply(u, TakeOff(r)) else u;
    PollMeans(v.loop, a, v.now);
  }

  /** A poll that need not ask keeps both halves; one after a rejected key asks again. */
  lemma PollKeepsAccount(t: State, a: Answers)
    requires Reachable(t) && Enabled(t, PollServer(a))
    ensures var m := Apply(t, PollServer(a)).loop.state;
            && (t.loop.accountFetched ==> m.account == t.loop.state.account && m.token == t.loop.state.token)
            && (t.loop.state.link == KeyRejected && Introduces(a) ==>
                  m.account == Some(Fact(t.loop.clientConfig, a.me.text)) && m.token == Some(Fact(t.loop.clientConfig, a.token.text)))
  {
    hide Reachable, CancelInv, PokeInv, DropInv, Epochs, Publishes, Caught, Requests, Backoff, Poll, IsToken;
    ReachableIsInv(t);
    PollMeans(t.loop, a, t.now);
  }

  // ---------------------------------------------------------------- how an iteration ends

  /** Every iteration that ends with neither flag up calls the sink once, and no other does; without a key it shows nothing
      the server ever said. What it shows of take-offs is what became of the latest one. */
  lemma PublishesOnce(t: State)
    requires Reachable(t)
    ensures t.quiet == |t.publishes| + if t.worker.Sinking? then 1 else 0
    ensures t.worker == Sinking(false) ==> Blank(Published(t).state)
    ensures t.loop.state.lastDrop == t.outcome
  {
    hide Reachable, CancelInv, PokeInv, DropInv, Epochs, Publishes, Caught, Requests, Backoff;
    ReachableIsInv(t);
  }

  /** Whether the stream is on is what set_streaming() said last, and the next timed wait goes by it. */
  lemma StreamingTakesEffect(t: State, e: Event)
    requires Reachable(t) && Enabled(t, e)
    ensures Apply(t, e).loop.streaming == if e.StoreStreaming? then e.on else t.loop.streaming
    ensures |Apply(t, e).waits| > |t.waits| ==> Apply(t, e).waits[|t.waits|].streaming == t.loop.streaming
  {
    hide Reachable, Poll, IntoWait;
    if e.PollServer? { PollFrame(t.loop, e.a, t.now); }
    if e.Decide? || e.Sink? { IntoWaitMeans(if e.Sink? then t.(publishes := t.publishes + [Published(t)]) else t, t.worker.configured); }
  }

  /** An iteration ends in a wait without a timer exactly when its key was missing or has been rejected; only a flag or a
      take-off request ends that one. */
  lemma WaitsWithoutTimer(t: State, e: Event)
    requires Reachable(t) && (e.Decide? || e.Sink?) && Enabled(t, e) && Apply(t, e).worker.Waiting?
    ensures Apply(t, e).worker.usable <==> t.worker.configured && t.loop.state.link != KeyRejected
    ensures |Apply(t, e).waits| == |t.waits| + if Apply(t, e).worker.usable then 1 else 0
    ensures var u := Apply(t, e);
            !u.worker.usable ==> (Enabled(u, Wake(true)) <==> u.loop.stop || u.loop.reconfigure || u.loop.drop)
  {
    hide Reachable, IntoWait;
    IntoWaitMeans(if e.Sink? then t.(publishes := t.publishes + [Published(t)]) else t, t.worker.configured);
  }

  // ---------------------------------------------------------------- the worker comes round

  /** Steps until the worker looks at its flags again. */
  function Distance(w: Worker): nat {
    match w
    case Working(_, drop) => if drop then 5 else 4
    case Deciding(_) => 3
    case Sinking(_) => 2
    case Waiting(_) => 1
    case _ => 0
  }

  predicate Busy(w: Worker) {
    w.Working? || w.Deciding? || w.Sinking? || w.Waiting?
  }

  /** After a stop, a reconfigure or a take-off request, a busy worker always has a step, every step of its own brings it
      nearer to Begin or to its end, and no step of a caller takes it further away: five steps at most. */
  lemma ComesRound(t: State, e: Event)
    requires Reachable(t) && Busy(t.worker) && (t.loop.stop || t.loop.reconfigure || t.loop.drop)
    ensures exists x :: OfWorker(x) && Enabled(t, x)
    ensures Distance(t.worker) <= 5
    ensures Enabled(t, e) ==> if OfWorker(e) then Distance(Apply(t, e).worker) < Distance(t.worker)
                              else Apply(t, e).worker == t.worker
  {
    hide Reachable, Remembered, CancelInv, PokeInv, DropInv, Epochs, Publishes, Caught, Requests, Poll, IntoWait;
    ReachableIsInv(t);
    NextStep(t);
    if Enabled(t, e) && (e.Decide? || e.Sink?) {
      IntoWaitFrame(if e.Sink? then t.(publishes := t.publishes + [Published(t)]) else t, t.worker.configured);
    }
  }

  lemma NextStep(t: State)
    requires Backoff(t) && Busy(t.worker) && (t.loop.stop || t.loop.reconfigure || t.loop.drop)
    ensures exists x :: OfWorker(x) && Enabled(t, x)
  {
    match t.worker
    case Working(configured, drop) =>
      if !configured { assert Enabled(t, SkipPoll); }
      else if drop { assert Enabled(t, TakeOff(Http(0, "", false))); }
      else { assert Enabled(t, PollServer(ALL_OK)); }
    case Deciding(_) => assert Enabled(t, Decide);
    case Sinking(_) => assert Enabled(t, Sink);
    case Waiting(_) => assert Enabled(t, Wake(false));
  }

  /** There the flags are served: a stop ends the loop and stop() can join, a reconfigure takes the newest settings. */
  lemma Served(t: State)
    requires Reachable(t) && t.worker.Top?
    ensures Enabled(t, Begin)
    ensures var next := Apply(t, Begin);
            if t.loop.stop then next.worker.Exited? && Enabled(next, Join)
            else !next.loop.reconfigure && !next.loop.drop && (t.loop.reconfigure ==> next.loop.clientConfig == t.config)
  {
    hide Reachable;
  }

  // ---------------------------------------------------------------- the bound is tight

  const ALL_OK := Answers(Http(200, "name", false), Http(200, "token", false), Http(200, "Approved", true), Http(200, "[]", false))

  const FIRST_POLL := [SetConfig(true), Start, Begin]
  const CHECKED := [PollServer(ALL_OK), Decide]
  const NEW_KEY := [SetConfig(true), CancelFirst, RaiseFlag, Sink]

  lemma {:induction false} RunOn(s: State, xs: seq<Event>, ys: seq<Event>)
    requires CanRun(s, xs) && CanRun(Run(s, xs), ys)
    ensures CanRun(s, xs + ys) && Run(s, xs + ys) == Run(Run(s, xs), ys)
    decreases |xs|
  {
    hide Apply, Enabled;
    if xs == [] {
      assert xs + ys == ys;
    } else {
      RunOn(Apply(s, xs[0]), xs[1..], ys);
      assert (xs + ys)[1..] == xs[1..] + ys;
    }
  }

  lemma FirstPollRuns(s: State)
    requires Initial(s)
    ensures CanRun(s, FIRST_POLL)
    ensures var t := Run(s, FIRST_POLL);
            && t.worker == Working(true, false) && t.config == 1 && t.loop.clientConfig == 1 && t.midway == 0
            && t.flagged == [1] && t.caught == [false] && t.heard == 1 && t.publishes == [] && !t.loop.reconfigure && !t.loop.stop && !t.loop.drop
  {
    var a := Apply(s, SetConfig(true));
    var b := Apply(a, Start);
    assert b.flagged == [1];
    OneByOne(s, SetConfig(true), Start, Begin);
  }

  lemma OneByOne(s: State, x: Event, y: Event, z: Event)
    requires Enabled(s, x) && Enabled(Apply(s, x), y) && Enabled(Apply(Apply(s, x), y), z)
    ensures CanRun(s, [x, y, z]) && Run(s, [x, y, z]) == Apply(Apply(Apply(s, x), y), z)
  {
    hide Apply, Enabled;
    assert [x, y, z][1..] == [y, z] && [y, z][1..] == [z] && [z][1..] == [];
    var a := Apply(s, x);
    var b := Apply(a, y);
    assert CanRun(b, [z]) && Run(b, [z]) == Apply(b, z);
    assert CanRun(a, [y, z]) && Run(a, [y, z]) == Apply(b, z);
  }

  lemma CheckedRuns(s: State)
    requires s.worker == Working(true, false) && !s.loop.reconfigure && !s.loop.stop
    ensures CanRun(s, CHECKED)
    ensures var t := Run(s, CHECKED);
            && t.worker == Sinking(true) && t.loop.state.beta == Some(Fact(s.loop.clientConfig, "Approved"))
            && t.loop.state.link.Online? && t.loop.clientConfig == s.loop.clientConfig
            && t == s.(loop := t.loop, worker := t.worker, streak := t.streak, misses := t.misses, bare := t.bare,
                    quiet := t.quiet)
  {
    hide FetchAccount;
    FetchFrame(s.loop, ALL_OK);
    var a := Apply(s, PollServer(ALL_OK));
    assert CHECKED[1..] == [Decide] && [Decide][1..] == [];
  }

  lemma NewKeyRuns(s: State)
    requires s.worker == Sinking(true) && s.loop.state.link.Online? && s.publishes == [] && s.midway == 0 && s.heard == 1
    requires s.flagged == [1] && s.config == 1 && s.loop.state.beta == Some(Fact(1, "Approved"))
    ensures CanRun(s, NEW_KEY)
    ensures var t := Run(s, NEW_KEY);
            && |t.publishes| == 1 && t.flagged == [1, 2] && Straddles(t.publishes[0], 1)
            && t.publishes[0].config == s.loop.clientConfig && t.publishes[0].state == s.loop.state
  {
    hide IntoWait;
    OneByOne(s, SetConfig(true), CancelFirst, RaiseFlag);
    var r := Run(s, [SetConfig(true), CancelFirst, RaiseFlag]);
    assert r.flagged == [1, 2] && r.worker == s.worker && r.heard == 1 && r.publishes == []
           && r.loop == s.loop.(cancelled := true, reconfigure := true);
    IntoWaitFrame(r.(publishes := r.publishes + [Published(r)]), true);
    assert [Sink][1..] == [];
    RunOn(s, [SetConfig(true), CancelFirst, RaiseFlag], [Sink]);
    assert NEW_KEY == [SetConfig(true), CancelFirst, RaiseFlag] + [Sink];
  }

  /** One stale state can indeed be published after reconfigure() has returned: between the worker's check of the flag
      and its call of the sink. */
  lemma OneStalePublishHappens(s: State)
    requires Initial(s)
    ensures var events := FIRST_POLL + CHECKED + NEW_KEY;
            && CanRun(s, events)
            && var t := Run(s, events);
               && |t.publishes| == 1 && |t.flagged| == 2 && Straddles(t.publishes[0], 1)
               && t.publishes[0].config < t.flagged[1] && t.publishes[0].state.beta == Some(Fact(t.publishes[0].config, "Approved"))
  {
    hide Apply, Enabled;
    FirstPollRuns(s);
    var a := Run(s, FIRST_POLL);
    CheckedRuns(a);
    var b := Run(a, CHECKED);
    NewKeyRuns(b);
    RunOn(s, FIRST_POLL, CHECKED);
    RunOn(s, FIRST_POLL + CHECKED, NEW_KEY);
  }

  // ---------------------------------------------------------------- the account can be forgotten

  const SIGNED_IN := Answers(Http(200, "name", false), Http(200, "abcdefghijklmnop", false), Http(200, "Approved", true),
                             Http(200, "[]", false))

  const KEY_GONE := [SetConfig(false), Wake(true), Begin]

  predicate SignedIn(s: State) {
    s.loop.accountFetched && s.loop.state.link == Online && !s.loop.reconfigure && !s.loop.stop && !s.loop.drop
  }

  lemma SignsIn(s: State)
    requires s.worker == Working(true, false) && !s.loop.reconfigure && !s.loop.stop && !s.loop.drop
    ensures var t := Apply(s, PollServer(SIGNED_IN)); t.worker == Deciding(true) && SignedIn(t)
  {
    hide Poll;
    PollMeans(s.loop, SIGNED_IN, s.now);
    PollFrame(s.loop, SIGNED_IN, s.now);
  }

  lemma Settles(s: State)
    requires s.worker == Deciding(true) && SignedIn(s)
    ensures Enabled(s, Decide) && Enabled(Apply(s, Decide), Sink)
    ensures var t := Apply(Apply(s, Decide), Sink); t.worker == Waiting(true) && SignedIn(t)
  {
    hide IntoWait;
    var b := Apply(s, Decide);
    IntoWaitMeans(b.(publishes := b.publishes + [Published(b)]), true);
  }

  lemma SignedInRuns(s: State)
    requires s.worker == Working(true, false) && !s.loop.reconfigure && !s.loop.stop && !s.loop.drop
    ensures var events := [PollServer(SIGNED_IN), Decide, Sink];
            CanRun(s, events) && Run(s, events).worker == Waiting(true) && SignedIn(Run(s, events))
  {
    assert Enabled(s, PollServer(SIGNED_IN));
    hide Apply, Enabled;
    SignsIn(s);
    Settles(Apply(s, PollServer(SIGNED_IN)));
    OneByOne(s, PollServer(SIGNED_IN), Decide, Sink);
  }

  lemma KeyGoneRuns(s: State)
    requires s.worker == Waiting(true) && SignedIn(s)
    ensures CanRun(s, KEY_GONE)
    ensures var t := Run(s, KEY_GONE); t.worker == Working(false, false) && t.loop.accountFetched
  {
    OneByOne(s, SetConfig(false), Wake(true), Begin);
  }

  /** The exception of AccountKnown is real: settings without a key that an iteration sees before reconfigure() raises its
      flag wipe the account, while the worker still believes it has it. */
  lemma AccountForgotten(s: State)
    requires Initial(s)
    ensures var events := FIRST_POLL + [PollServer(SIGNED_IN), Decide, Sink] + KEY_GONE + [SkipPoll];
            && CanRun(s, events)
            && var t := Run(s, events).loop; t.accountFetched && t.state.account.None? && t.state.token.None?
  {
    hide Apply, Enabled;
    FirstPollRuns(s);
    var xs := [PollServer(SIGNED_IN), Decide, Sink];
    var a := Run(s, FIRST_POLL);
    SignedInRuns(a);
    var b := Run(a, xs);
    KeyGoneRuns(b);
    var c := Run(b, KEY_GONE);
    SkipRuns(c);
    RunOn(s, FIRST_POLL, xs);
    RunOn(s, FIRST_POLL + xs, KEY_GONE);
    RunOn(s, FIRST_POLL + xs + KEY_GONE, [SkipPoll]);
  }

  lemma SkipRuns(s: State)
    requires s.worker == Working(false, false) && s.loop.accountFetched
    ensures CanRun(s, [SkipPoll])
    ensures var t := Run(s, [SkipPoll]).loop; t.accountFetched && t.state.account.None? && t.state.token.None?
  {
    assert [SkipPoll][1..] == [];
  }
}
