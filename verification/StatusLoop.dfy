/** The worker and the lock-held regions of src/dock/status-loop.cpp. StatusProtocol interleaves them. */
module StatusLoop {
  import opened Basics
  import opened Config

  const ON_AIR_POLL_MS := 5000
  const OFF_AIR_POLL_MS := 30000
  const MAX_BACKOFF_MS := 60000
  const DROP_COOLDOWN_NS := 3_000_000_000

  /** What a request came back with; status 0 means it never got an answer. JSON parsing is not modelled: `text` is the
      field the code looks for, `flag` the boolean one. */
  datatype Http = Http(status: nat, text: string, flag: bool) {
    predicate Ok() { 200 <= status < 300 }
  }

  datatype Link = Unknown | Online | Offline | KeyRejected
  datatype Drop = NoDrop | Dropped | NothingOnAir | DropFailed

  /** A fact from the server and the configuration it was asked under. */
  datatype Fact = Fact(config: nat, text: string)

  datatype ServerState = ServerState(
    link: Link, retryAt: nat,
    account: Option<Fact>, token: Option<Fact>, beta: Option<Fact>, orders: Option<Fact>,
    lastDrop: Drop, dropSeq: nat)

  const NOT_ASKED := ServerState(Unknown, 0, None, None, None, None, NoDrop, 0)

  datatype Loop = Loop(
    // under the mutex
    stop: bool, reconfigure: bool, poke: bool, drop: bool, lastDropRequest: nat,
    // atomics
    streaming: bool, cancelled: bool,
    // the worker's own
    clientConfig: nat, state: ServerState, accountFetched: bool, failures: nat)

  // ---------------------------------------------------------------- regions as functions

  /** Everything forgotten except the outcome and number of the latest take-off. */
  function Reset(s: ServerState): ServerState {
    NOT_ASKED.(lastDrop := s.lastDrop, dropSeq := s.dropSeq)
  }

  function Shl(base: nat, n: nat): nat
    decreases n
  {
    if n == 0 then base else Shl(2 * base, n - 1)
  }

  /** The shift amount the code computes; it must not be negative. */
  function BackoffShift(failures: nat): int {
    Min(failures - 1, 4)
  }

  function PollInterval(streaming: bool, link: Link, failures: nat): nat
    requires link.Offline? ==> failures >= 1
  {
    var base := if streaming then ON_AIR_POLL_MS else OFF_AIR_POLL_MS;
    if !link.Offline? then base else Min(Shl(base, BackoffShift(failures)), MAX_BACKOFF_MS)
  }

  /** Zero stands for "no request yet". */
  predicate AcceptsDrop(l: Loop, now: nat) {
    l.lastDropRequest == 0 || now - l.lastDropRequest >= DROP_COOLDOWN_NS
  }

  function RequestDrop(l: Loop, now: nat): Loop {
    if AcceptsDrop(l, now) then l.(lastDropRequest := now, drop := true) else l
  }

  /** The locked region at the top of an iteration. */
  function BeginIteration(l: Loop, config: nat): Loop {
    var m := l.(poke := false, drop := false);
    if l.reconfigure
    then m.(reconfigure := false, clientConfig := config, cancelled := false, state := Reset(l.state),
            accountFetched := false, failures := 0)
    else m
  }

  function Answered(s: ServerState, outcome: Drop): ServerState {
    s.(lastDrop := outcome, dropSeq := (s.dropSeq + 1) % U32)
  }

  function DropOutcome(r: Http): Drop {
    if !r.Ok() then DropFailed else if r.flag then Dropped else NothingOnAir
  }

  datatype Answers = Answers(me: Http, token: Http, beta: Http, orders: Http)

  function FetchAccount(l: Loop, a: Answers): Loop {
    var named := if a.me.Ok() then l.state.(account := Some(Fact(l.clientConfig, a.me.text))) else l.state;
    var good := a.token.Ok() && IsToken(a.token.text);
    var s := if good then named.(token := Some(Fact(l.clientConfig, a.token.text))) else named;
    l.(state := s, accountFetched := a.me.Ok() && good)
  }

  /** A 401 or 403: the link says so, and the account is asked for again at the next poll. */
  function Refused(l: Loop): Loop {
    l.(state := l.state.(link := KeyRejected), accountFetched := false)
  }

  function PollFailed(l: Loop, now: nat): Loop {
    var wait := PollInterval(l.streaming, Offline, l.failures + 1);
    l.(failures := l.failures + 1, state := l.state.(link := Offline, retryAt := now + wait * 1_000_000))
  }

  /** An answered poll; the orders change only if they were answered too. */
  function Learned(l: Loop, a: Answers): Loop {
    var orders := if a.orders.Ok() then Some(Fact(l.clientConfig, a.orders.text)) else l.state.orders;
    l.(failures := 0,
       state := l.state.(link := Online, beta := Some(Fact(l.clientConfig, a.beta.text)), orders := orders))
  }

  function Ask(l: Loop, a: Answers, now: nat): Loop {
    if a.beta.status == 401 || a.beta.status == 403 then Refused(l)
    else if !a.beta.Ok() then PollFailed(l, now)
    else Learned(l, a)
  }

  function Poll(l: Loop, a: Answers, now: nat): Loop {
    Ask(if l.accountFetched then l else FetchAccount(l, a), a, now)
  }

  // ---------------------------------------------------------------- the same in the source's own form

  class StatusLoop {
    var stop: bool
    var reconfigure: bool
    var poke: bool
    var drop: bool
    var lastDropRequest: nat
    var streaming: bool
    var cancelled: bool
    var clientConfig: nat
    var state: ServerState
    var accountFetched: bool
    var failures: nat

    ghost function Snapshot(): Loop
      reads this
    {
      Loop(stop, reconfigure, poke, drop, lastDropRequest, streaming, cancelled, clientConfig, state, accountFetched, failures)
    }

    constructor ()
      ensures Snapshot() == Loop(false, false, false, false, 0, false, false, 0, NOT_ASKED, false, 0)
    {
      stop, reconfigure, poke, drop, lastDropRequest := false, false, false, false, 0;
      streaming, cancelled := false, false;
      clientConfig, state, accountFetched, failures := 0, NOT_ASKED, false, 0;
    }

    method ResetState()
      modifies this`state
      ensures state == Reset(old(state))
    {
      var lastDrop := state.lastDrop;
      var dropSeq := state.dropSeq;
      state := NOT_ASKED;
      state := state.(lastDrop := lastDrop);
      state := state.(dropSeq := dropSeq);
    }

    method DropOrder(now: nat) returns (accepted: bool)
      modifies this`lastDropRequest, this`drop
      ensures Snapshot() == RequestDrop(old(Snapshot()), now)
      ensures accepted <==> AcceptsDrop(old(Snapshot()), now)
    {
      if lastDropRequest != 0 && now - lastDropRequest < DROP_COOLDOWN_NS {
        return false;
      }
      lastDropRequest := now;
      drop := true;
      return true;
    }

    /** The locked head of the loop in run(). */
    method Begin(config: nat) returns (dropRequested: bool)
      modifies this
      ensures Snapshot() == BeginIteration(old(Snapshot()), config) && dropRequested == old(drop)
    {
      if reconfigure {
        reconfigure := false;
        clientConfig := config;
        cancelled := false;
        ResetState();
        accountFetched := false;
        failures := 0;
      }
      poke := false;
      dropRequested := drop;
      drop := false;
    }

    /** r is the answer to the one DELETE this sends. */
    method DropNow(r: Http)
      modifies this`state
      ensures state == Answered(old(state), DropOutcome(r))
    {
      state := state.(dropSeq := (state.dropSeq + 1) % U32);
      if !r.Ok() {
        state := state.(lastDrop := DropFailed);
        return;
      }
      state := state.(lastDrop := if r.flag then Dropped else NothingOnAir);
    }

    method PollIntervalMs() returns (ms: nat)
      requires state.link.Offline? ==> failures >= 1
      ensures ms == PollInterval(streaming, state.link, failures)
    {
      var base := if streaming then ON_AIR_POLL_MS else OFF_AIR_POLL_MS;
      if !state.link.Offline? {
        return base;
      }
      return Min(Shl(base, Min(failures - 1, 4)), MAX_BACKOFF_MS);
    }

    method FetchTheAccount(me: Http, token: Http)
      modifies this`state, this`accountFetched
      ensures forall beta, orders ::
        Snapshot() == FetchAccount(old(Snapshot()), Answers(me, token, beta, orders))
    {
      if me.Ok() {
        state := state.(account := Some(Fact(clientConfig, me.text)));
      }
      var overlayToken := if token.Ok() then token.text else "";
      if IsToken(overlayToken) {
        state := state.(token := Some(Fact(clientConfig, overlayToken)));
      }
      accountFetched := me.Ok() && IsToken(overlayToken);
    }

    method PollNow(a: Answers, now: nat)
      modifies this`state, this`accountFetched, this`failures
      ensures Snapshot() == Poll(old(Snapshot()), a, now)
    {
      if !accountFetched {
        FetchTheAccount(a.me, a.token);
        assert Snapshot() == FetchAccount(old(Snapshot()), Answers(a.me, a.token, a.beta, a.orders));
      }
      if a.beta.status == 401 || a.beta.status == 403 {
        state := state.(link := KeyRejected);
        accountFetched := false;
        return;
      }
      if !a.beta.Ok() {
        failures := failures + 1;
        state := state.(link := Offline);
        var wait := PollIntervalMs();
        state := state.(retryAt := now + wait * 1_000_000);
        return;
      }
      failures := 0;
      state := state.(link := Online);
      state := state.(beta := Some(Fact(clientConfig, a.beta.text)));
      if a.orders.Ok() {
        state := state.(orders := Some(Fact(clientConfig, a.orders.text)));
      }
    }
  }

  // ---------------------------------------------------------------- the backoff

  lemma {:induction false} ShlIsMonotone(base: nat, m: nat, n: nat)
    requires m <= n
    ensures base <= Shl(base, m) <= Shl(base, n)
    decreases n
  {
    if n > 0 {
      if m == 0 { ShlIsMonotone(2 * base, 0, n - 1); } else { ShlIsMonotone(2 * base, m - 1, n - 1); }
    }
  }

  /** Waits are within [base, 60000] ms and never shrink as failures add up. */
  lemma BackoffBounds(streaming: bool, failures: nat, more: nat)
    requires 1 <= failures <= more
    ensures 0 <= BackoffShift(failures) <= 4
    ensures var base := if streaming then ON_AIR_POLL_MS else OFF_AIR_POLL_MS;
            base <= PollInterval(streaming, Offline, failures) <= PollInterval(streaming, Offline, more) <= MAX_BACKOFF_MS
  {
    var base := if streaming then ON_AIR_POLL_MS else OFF_AIR_POLL_MS;
    ShlIsMonotone(base, BackoffShift(failures), BackoffShift(more));
  }

  /** The wait is the base while the server answers; the first failure costs it once, and each further one doubles it up
      to a minute. */
  lemma BackoffDoubles(streaming: bool, link: Link, failures: nat)
    requires failures >= 1
    ensures link != Offline ==> PollInterval(streaming, link, failures) == if streaming then 5000 else 30000
    ensures PollInterval(streaming, Offline, 1) == if streaming then 5000 else 30000
    ensures PollInterval(streaming, Offline, failures + 1) == Min(2 * PollInterval(streaming, Offline, failures), 60000)
  {
    var base := if streaming then ON_AIR_POLL_MS else OFF_AIR_POLL_MS;
    assert Shl(base, 0) == base;
    ShlDoubles(base, 0);
    ShlDoubles(base, 1);
    ShlDoubles(base, 2);
    ShlDoubles(base, 3);
    hide Shl;
    if failures == 1 {} else if failures == 2 {} else if failures == 3 {} else if failures == 4 {} else {}
  }

  lemma {:induction false} ShlDoubles(base: nat, n: nat)
    ensures Shl(base, n + 1) == 2 * Shl(base, n)
    decreases n
  {
    if n > 0 { ShlDoubles(2 * base, n - 1); }
  }

  // ---------------------------------------------------------------- what the answers do

  predicate Rejects(a: Answers) {
    a.beta.status == 401 || a.beta.status == 403
  }

  /** Both halves of the account: a name, and a token fit for an address. */
  predicate Introduces(a: Answers) {
    a.me.Ok() && a.token.Ok() && IsToken(a.token.text)
  }

  lemma FetchMeans(l: Loop, a: Answers)
    ensures var m := FetchAccount(l, a);
            && m == l.(state := l.state.(account := m.state.account, token := m.state.token), accountFetched := m.accountFetched)
            && m.state.account == (if a.me.Ok() then Some(Fact(l.clientConfig, a.me.text)) else l.state.account)
            && m.state.token == (if a.token.Ok() && IsToken(a.token.text) then Some(Fact(l.clientConfig, a.token.text)) else l.state.token)
            && (m.accountFetched <==> Introduces(a))
  {
    hide IsToken;
  }

  lemma FailedMeans(l: Loop, now: nat)
    ensures var m := PollFailed(l, now);
            m == l.(failures := l.failures + 1,
                    state := l.state.(link := Offline, retryAt := now + PollInterval(l.streaming, Offline, m.failures) * 1_000_000))
  {
    hide PollInterval;
  }

  lemma AskMeans(l: Loop, a: Answers, now: nat)
    ensures var m := Ask(l, a, now);
            && m == l.(state := m.state, failures := m.failures, accountFetched := l.accountFetched && !Rejects(a))
            && m.state == l.state.(link := m.state.link, retryAt := m.state.retryAt, beta := m.state.beta, orders := m.state.orders)
            && m.state.link == (if Rejects(a) then KeyRejected else if a.beta.Ok() then Online else Offline)
    ensures var m := Ask(l, a, now);
            && m.state.beta == (if a.beta.Ok() then Some(Fact(l.clientConfig, a.beta.text)) else l.state.beta)
            && m.state.orders == (if a.beta.Ok() && a.orders.Ok() then Some(Fact(l.clientConfig, a.orders.text)) else l.state.orders)
            && m.failures == (if a.beta.Ok() then 0 else if Rejects(a) then l.failures else l.failures + 1)
            && m.state.retryAt == (if m.state.link == Offline then now + PollInterval(l.streaming, Offline, m.failures) * 1_000_000
                                   else l.state.retryAt)
  {
    hide PollInterval, PollFailed;
    FailedMeans(l, now);
    if Rejects(a) {} else if a.beta.Ok() {} else {}
  }

  /** The account is asked for until both halves are there, and again after a rejected key; nothing is overwritten by an
      answer that did not come. Exactly a 401 or 403 rejects the key, exactly another failure counts and sets the time of
      the next try, and the take-off's answer is nobody else's business. */
  lemma PollMeans(l: Loop, a: Answers, now: nat)
    ensures var m := Poll(l, a, now); var asks := !l.accountFetched;
            && m.state.account == (if asks && a.me.Ok() then Some(Fact(l.clientConfig, a.me.text)) else l.state.account)
            && m.state.token == (if asks && a.token.Ok() && IsToken(a.token.text) then Some(Fact(l.clientConfig, a.token.text))
                                 else l.state.token)
            && (m.accountFetched <==> !Rejects(a) && (l.accountFetched || Introduces(a)))
            && (m.state.link == KeyRejected <==> Rejects(a))
            && (m.state.link == Online <==> a.beta.Ok())
            && m.state.link != Unknown
            && m.state.lastDrop == l.state.lastDrop && m.state.dropSeq == l.state.dropSeq
    ensures var m := Poll(l, a, now);
            && m.state.beta == (if a.beta.Ok() then Some(Fact(l.clientConfig, a.beta.text)) else l.state.beta)
            && m.state.orders == (if a.beta.Ok() && a.orders.Ok() then Some(Fact(l.clientConfig, a.orders.text)) else l.state.orders)
            && m.failures == (if a.beta.Ok() then 0 else if Rejects(a) then l.failures else l.failures + 1)
            && m.state.retryAt == (if m.state.link == Offline then now + PollInterval(l.streaming, Offline, m.failures) * 1_000_000
                                   else l.state.retryAt)
  {
    hide FetchAccount, Ask, Introduces, IsToken, PollInterval;
    FetchMeans(l, a);
    AskMeans(if l.accountFetched then l else FetchAccount(l, a), a, now);
  }

  /** Only an answer in the 200s says whether something was taken off the air. */
  lemma DropMeans(r: Http)
    ensures DropOutcome(r) == Dropped <==> 200 <= r.status < 300 && r.flag
    ensures DropOutcome(r) == NothingOnAir <==> 200 <= r.status < 300 && !r.flag
    ensures DropOutcome(r) == DropFailed <==> r.status < 200 || r.status >= 300
  {
  }
}
