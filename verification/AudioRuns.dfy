/** What the ears of AudioPipeline can always do: finish when stopped, and, run after run, post what they hear. */
module AudioRuns {
  import opened Basics
  import opened Wav
  import opened VadSpec
  import opened VadSegmenter
  import opened AudioLoop
  import opened SampleRing
  import R = RingProtocol
  import opened Bits
  import opened AudioPipeline

  // ---------------------------------------------------------------- stop() finishes

  /** How many of the first n cells a reader has still to copy. */
  function Missing(n: nat, got: map<nat, Sample>): nat {
    if n == 0 then 0 else Missing(n - 1, got) + if n - 1 in got then 0 else 1
  }

  lemma {:induction false} MissingFalls(n: nat, got: map<nat, Sample>, i: nat, x: Sample)
    ensures Missing(n, got[i := x]) == Missing(n, got) - if i < n && i !in got then 1 else 0
  {
    if n > 0 { MissingFalls(n - 1, got, i, x); }
  }

  lemma {:induction false} MissingMeans(n: nat, got: map<nat, Sample>)
    ensures Missing(n, got) <= n
    ensures Missing(n, got) == 0 <==> forall j: nat :: j < n ==> j in got
  {
    if n > 0 { MissingMeans(n - 1, got); }
  }

  /** An upper bound on the steps the VAD worker still takes once the stop flag is up. */
  function VadWork(vad: VadWorker, reader: R.Reader): nat {
    match vad
    case VNone => 0
    case VExited => 0
    case VGivingUp => 1
    case VTop => 1
    case VLoading => 2
    case VFeeding(rest) => 2 + |rest|
    case VReading =>
      match reader
      case RIdle => 2
      case ROwn(count, _) => 4 + 2 * count
      case RCopy(_, n, got) => 3 + n + Missing(n, got)
  }

  function SenderWork(sender: Sender): nat {
    match sender
    case SNone => 0
    case SExited => 0
    case SWaiting => 1
    case SGivingUp(_) => 1
    case SAnswered(_) => 2
    case SPosting(_) => 3
    case SReady(_) => 4
    case SHolding(_) => 5
  }

  /** stop() has raised the flag and not yet joined both workers. */
  predicate Stopping(ui: Ui) {
    ui.UStopping? || ui.UCancelled? || ui.UVadJoined?
  }

  predicate CopiesAgain(s: State, r: R.Event) {
    r.RCell? && s.ring.reader.RCopy? && r.i in s.ring.reader.got
  }

  /** One copy, load or store of read() never adds to the work, and one of them takes some away. */
  lemma ReaderStep(o: Oracle, s: State, r: R.Event)
    requires Enabled(s, VReads(r))
    ensures VadWork(Apply(o, s, VReads(r)).vad, Apply(o, s, VReads(r)).ring.reader)
         <= VadWork(s.vad, s.ring.reader) - if CopiesAgain(s, r) then 0 else 1
  {
    hide Mod, Sub64;
    var t := R.Apply(s.ring, r);
    match r
    case RLoad => if t.reader.RCopy? { MissingMeans(t.reader.n, map[]); }
    case RCell(i) => MissingFalls(s.ring.reader.n, s.ring.reader.got, i, t.reader.got[i]);
    case RStore =>
  }

  lemma ReaderMoves(s: State)
    requires s.vad.VReading? && !s.ring.reader.RIdle? && |s.ring.ring.cells| > 0
    ensures exists r :: Enabled(s, VReads(r)) && !CopiesAgain(s, r)
  {
    match s.ring.reader
    case ROwn(_, _) => assert Enabled(s, VReads(R.RLoad));
    case RCopy(_, n, got) =>
      if j: nat :| j < n && j !in got { assert Enabled(s, VReads(R.RCell(j))); }
      else { assert Enabled(s, VReads(R.RStore)); }
  }

  predicate VadMoves(o: Oracle, s: State, e: Event) {
    OfVad(e) && Enabled(s, e) && VadWork(Apply(o, s, e).vad, Apply(o, s, e).ring.reader) < VadWork(s.vad, s.ring.reader)
  }

  predicate SenderMoves(o: Oracle, s: State, e: Event) {
    OfSender(e) && Enabled(s, e) && SenderWork(Apply(o, s, e).sender) < SenderWork(s.sender)
  }

  lemma VadNext(o: Oracle, s: State)
    requires (s.vad.VReading? <==> !s.ring.reader.RIdle?) && |s.ring.ring.cells| > 0 && s.shared.stop
    requires VadWork(s.vad, s.ring.reader) > 0
    ensures exists e :: VadMoves(o, s, e)
  {
    hide Apply, Enabled, VadMoves;
    match s.vad
    case VFeeding(_) => FeedingNext(o, s);
    case VReading => ReadingNext(o, s);
    case _ => IdlingNext(o, s);
  }

  lemma IdlingNext(o: Oracle, s: State)
    requires s.vad.VLoading? || s.vad.VGivingUp? || (s.vad.VTop? && s.shared.stop && s.ring.reader.RIdle?)
    ensures exists e :: VadMoves(o, s, e)
  {
    hide R.Apply, R.Enabled;
    var e := if s.vad.VLoading? then VLoaded else if s.vad.VGivingUp? then VStops else VLooks;
    assert VadMoves(o, s, e);
  }

  lemma FeedingNext(o: Oracle, s: State)
    requires s.vad.VFeeding?
    ensures exists e :: VadMoves(o, s, e)
  {
    if s.vad.rest != [] { FeedShape(o, s); }
    assert Enabled(s, VFeeds);
    assert s.vad.rest == [] ==> Feed(o, s).vad == VTop;
    hide Feed, Enabled;
    assert VadMoves(o, s, VFeeds);
  }

  lemma ReadingNext(o: Oracle, s: State)
    requires s.vad.VReading? && !s.ring.reader.RIdle? && |s.ring.ring.cells| > 0
    ensures exists e :: VadMoves(o, s, e)
  {
    hide Apply, Enabled, VadWork, CopiesAgain;
    ReaderMoves(s);
    var r :| Enabled(s, VReads(r)) && !CopiesAgain(s, r);
    ReaderStep(o, s, r);
    assert VadMoves(o, s, VReads(r));
  }

  lemma SenderNext(o: Oracle, s: State)
    requires s.shared.stop && SenderWork(s.sender) > 0 && (s.sender.SReady? ==> s.sender.index < |s.emitted|)
    ensures exists e :: SenderMoves(o, s, e)
  {
    hide R.Enabled, Handle;
    match s.sender
    case SWaiting => assert SenderMoves(o, s, STakes);
    case SGivingUp(_) => assert SenderMoves(o, s, SStops);
    case SAnswered(_) => HandleShape(s); assert SenderMoves(o, s, SHandles);
    case SPosting(_) => assert SenderMoves(o, s, SGets(200));
    case SReady(_) => assert SenderMoves(o, s, SSends);
    case SHolding(_) => assert SenderMoves(o, s, SChecks);
  }

  lemma VadStep(o: Oracle, s: State, e: Event)
    requires s.shared.stop && Enabled(s, e) && OfVad(e)
    ensures VadWork(Apply(o, s, e).vad, Apply(o, s, e).ring.reader) <= VadWork(s.vad, s.ring.reader)
  {
    hide SlicesAfter, SegmentOf, Enqueued, R.Apply, R.Enabled;
    if e.VReads? { ReaderStep(o, s, e.e); }
  }

  lemma SenderStep(o: Oracle, s: State, e: Event)
    requires s.shared.stop && Enabled(s, e) && OfSender(e)
    ensures SenderWork(Apply(o, s, e).sender) <= SenderWork(s.sender)
  {
    hide R.Enabled, Handle;
    if e.SHandles? { HandleShape(s); }
  }

  lemma OfVadAlone(o: Oracle, s: State, e: Event)
    requires s.shared.stop && Enabled(s, e) && OfVad(e)
    ensures var t := Apply(o, s, e); t.shared.stop && t.sender == s.sender
  {
    hide R.Apply, R.Enabled, SlicesAfter, SegmentOf, Enqueued;
  }

  lemma OfOthers(o: Oracle, s: State, e: Event)
    requires Stopping(s.ui) && s.shared.stop && Enabled(s, e) && !OfVad(e) && !OfSender(e)
    ensures var t := Apply(o, s, e);
            && t.shared.stop && (t.sender == s.sender || t.sender.SNone?)
            && ((t.vad == s.vad && t.ring.reader == s.ring.reader) || t.vad.VNone?)
  {
    hide Mod, Sub64;
  }

  lemma NoStepBack(o: Oracle, s: State, e: Event)
    requires Stopping(s.ui) && s.shared.stop && Enabled(s, e)
    ensures VadWork(Apply(o, s, e).vad, Apply(o, s, e).ring.reader) <= VadWork(s.vad, s.ring.reader)
    ensures SenderWork(Apply(o, s, e).sender) <= SenderWork(s.sender)
    ensures Apply(o, s, e).shared.stop
  {
    hide Apply, Enabled;
    if OfVad(e) { VadStep(o, s, e); OfVadAlone(o, s, e); }
    else if OfSender(e) { SenderStep(o, s, e); SenderFrame(o, s, e); }
    else { OfOthers(o, s, e); }
  }

  /** stop() always comes to its end. From its flag to its joins, a worker that has not finished always has a step that
      leaves it less to do, no step of any thread leaves it more, the flag stays up, and a worker with nothing left to do
      can be joined. */
  lemma StopFinishes(o: Oracle, t: State, k: nat, e: Event)
    requires Reachable(o, t, k) && Stopping(t.ui)
    ensures VadWork(t.vad, t.ring.reader) > 0 ==> exists x :: VadMoves(o, t, x)
    ensures SenderWork(t.sender) > 0 ==> exists x :: SenderMoves(o, t, x)
    ensures Enabled(t, e) ==>
      var u := Apply(o, t, e);
      && VadWork(u.vad, u.ring.reader) <= VadWork(t.vad, t.ring.reader) && SenderWork(u.sender) <= SenderWork(t.sender)
      && u.shared.stop
    ensures t.ui.UCancelled? || t.ui.UVadJoined? ==> t.cancelled
    ensures t.ui.UCancelled? && VadWork(t.vad, t.ring.reader) == 0 ==> Enabled(t, UJoinVad)
    ensures t.ui.UVadJoined? && SenderWork(t.sender) == 0 ==> Enabled(t, UJoinSender)
  {
    hide Reachable, Queued, Posted, Healthy, Paused, AudioPipeline.Answered, EmissionsOf, Apply, VadMoves, SenderMoves;
    ReachableIsInv(o, t, k);
    GuardsHold(o, t, k);
    if VadWork(t.vad, t.ring.reader) > 0 { VadNext(o, t); }
    if SenderWork(t.sender) > 0 { SenderNext(o, t); }
    if Enabled(t, e) { NoStepBack(o, t, e); }
  }

  // ---------------------------------------------------------------- runs that exist

  ghost predicate Leads(o: Oracle, s: State, t: State) {
    exists events: seq<Event> :: CanRun(o, s, events) && Run(o, s, events) == t
  }

  lemma {:induction false} RunOneMore(o: Oracle, s: State, events: seq<Event>, e: Event)
    requires CanRun(o, s, events) && Enabled(Run(o, s, events), e)
    ensures CanRun(o, s, events + [e]) && Run(o, s, events + [e]) == Apply(o, Run(o, s, events), e)
    decreases |events|
  {
    hide Apply, Enabled;
    if events == [] {
      assert [] + [e] == [e] && [e][1..] == [];
    } else {
      RunOneMore(o, Apply(o, s, events[0]), events[1..], e);
      assert (events + [e])[1..] == events[1..] + [e];
    }
  }

  lemma Stay(o: Oracle, s: State)
    ensures Leads(o, s, s)
  {
    assert CanRun(o, s, []) && Run(o, s, []) == s;
  }

  lemma Go(o: Oracle, s: State, t: State, e: Event)
    requires Leads(o, s, t) && Enabled(t, e)
    ensures Leads(o, s, Apply(o, t, e))
  {
    hide Apply, Enabled, CanRun, Run;
    var events: seq<Event> :| CanRun(o, s, events) && Run(o, s, events) == t;
    RunOneMore(o, s, events, e);
  }

  /** Where a run can lead is reachable. */
  lemma LeadsIsReachable(o: Oracle, s: State, t: State, k: nat)
    requires Initial(s, k) && Leads(o, s, t)
    ensures Reachable(o, t, k)
  {
  }

  // ---------------------------------------------------------------- one sample through the ring

  predicate AtRest(r: R.State) {
    r.writer.WIdle? && r.reader.RIdle?
  }

  lemma OneFits(r: R.State, k: nat, x: Sample)
    requires R.Inv(r, k) && |r.accepted| == |r.returned| && r.writer.WOwn? && r.writer.src == [x]
    ensures R.Apply(r, R.WLoad).writer == R.WCopy([x], r.writer.pos, {}) && |r.ring.cells| > 0
  {
    hide Mod, Pow2;
    R.Fill(r, k);
    CapacityDivides(k);
    ModSmall(|r.ring.cells|, WORD);
    assert [x][..1] == [x];
  }

  lemma OneWaits(r: R.State, k: nat)
    requires R.Inv(r, k) && |r.accepted| == |r.returned| + 1 && r.reader.ROwn? && r.reader.count > 0
    ensures R.Apply(r, R.RLoad).reader == R.RCopy(r.reader.pos, 1, map[]) && |r.ring.cells| > 0
  {
    hide Mod, Pow2;
    R.Fill(r, k);
  }

  /** The callback delivers one sample while everything before it has been read. */
  lemma Writes(o: Oracle, s: State, t: State, k: nat, x: Sample) returns (u: State)
    requires Leads(o, s, t) && R.Inv(t.ring, k) && AtRest(t.ring) && t.ring.accepted == t.ring.returned && t.tapRunning
    ensures Leads(o, s, u) && u == t.(ring := u.ring) && R.Inv(u.ring, k) && AtRest(u.ring)
    ensures u.ring.accepted == t.ring.accepted + [x] && u.ring.returned == t.ring.returned
  {
    hide R.Inv, Leads, Mod, Sub64, R.RingInv, R.WriterInv, R.ReaderInv;
    var a := Apply(o, t, AudioThread(R.WBegin([x])));
    Go(o, s, t, AudioThread(R.WBegin([x])));
    R.StepKeepsInv(t.ring, R.WBegin([x]), k);
    OneFits(a.ring, k, x);
    var b := Apply(o, a, AudioThread(R.WLoad));
    Go(o, s, a, AudioThread(R.WLoad));
    R.StepKeepsInv(a.ring, R.WLoad, k);
    var c := Apply(o, b, AudioThread(R.WCell(0)));
    Go(o, s, b, AudioThread(R.WCell(0)));
    R.StepKeepsInv(b.ring, R.WCell(0), k);
    u := Apply(o, c, AudioThread(R.WStore));
    Go(o, s, c, AudioThread(R.WStore));
    R.StepKeepsInv(c.ring, R.WStore, k);
  }

  /** The VAD worker sees it. */
  lemma Loads(o: Oracle, s: State, t: State, k: nat) returns (u: State)
    requires Leads(o, s, t) && R.Inv(t.ring, k) && AtRest(t.ring) && |t.ring.accepted| == |t.ring.returned| + 1
    requires t.vad.VTop? && !t.shared.stop
    ensures Leads(o, s, u) && R.Inv(u.ring, k) && |u.ring.ring.cells| > 0
    ensures u == t.(ring := t.ring.(reader := u.ring.reader), vad := VReading)
    ensures u.ring.reader.RCopy? && u.ring.reader.n == 1
  {
    hide R.Inv, Leads, Mod, Sub64;
    var a := Apply(o, t, VLooks);
    Go(o, s, t, VLooks);
    R.StepKeepsInv(t.ring, R.RBegin(READ_CHUNK), k);
    OneWaits(a.ring, k);
    u := Apply(o, a, VReads(R.RLoad));
    Go(o, s, a, VReads(R.RLoad));
    R.StepKeepsInv(a.ring, R.RLoad, k);
  }

  lemma OneRead(r: R.State, k: nat)
    requires R.Inv(r, k) && |r.accepted| == |r.returned| + 1 && r.reader.RCopy? && r.reader.n == 1 && 0 in r.reader.got
    ensures R.Enabled(r, R.RStore) && R.Delivered(r.reader) == [r.accepted[|r.returned|]]
    ensures R.Apply(r, R.RStore).accepted == r.accepted == R.Apply(r, R.RStore).returned
  {
    hide Mod, Pow2;
    R.ReaderStore(r, k);
  }

  /** And reads it. */
  lemma Reads(o: Oracle, s: State, t: State, k: nat) returns (u: State)
    requires Leads(o, s, t) && R.Inv(t.ring, k) && AtRest(t.ring) && |t.ring.accepted| == |t.ring.returned| + 1
    requires t.vad.VTop? && !t.shared.stop
    ensures Leads(o, s, u) && R.Inv(u.ring, k) && AtRest(u.ring)
    ensures u == t.(ring := u.ring, vad := VFeeding([t.ring.accepted[|t.ring.returned|]]))
    ensures u.ring.accepted == t.ring.accepted == u.ring.returned
  {
    hide R.Inv, Leads, Mod, Sub64;
    var b := Loads(o, s, t, k);
    var c := Apply(o, b, VReads(R.RCell(0)));
    Go(o, s, b, VReads(R.RCell(0)));
    R.StepKeepsInv(b.ring, R.RCell(0), k);
    OneRead(c.ring, k);
    u := Apply(o, c, VReads(R.RStore));
    Go(o, s, c, VReads(R.RStore));
    R.StepKeepsInv(c.ring, R.RStore, k);
  }

  // ---------------------------------------------------------------- a run that posts

  /** Both workers idle and listening, everything accepted has been fed, and what was emitted waits in the queue. */
  predicate AllEars(t: State) {
    && t.ui.UReady? && t.tapRunning && t.vad.VTop? && t.sender.SWaiting?
    && !t.shared.stop && !t.cancelled && t.pausedUntil <= t.now
    && AtRest(t.ring) && t.ring.accepted == t.ring.returned
    && (t.emitted != [] ==> t.shared.queue != [])
  }

  predicate Stopped(t: State) {
    t.ui.UReady? && t.vad.VNone?
  }

  predicate SameHistory(t: State, u: State) {
    u.archive == t.archive && u.posts == t.posts && u.limits == t.limits && u.now == t.now
  }

  /** The segmenter takes it; a segment that closes waits in the queue. */
  lemma Feeds(o: Oracle, s: State, t: State, x: Sample) returns (u: State)
    requires Leads(o, s, t) && t.vad == VFeeding([x]) && (t.emitted != [] ==> t.shared.queue != [])
    ensures Leads(o, s, u) && u.fed == t.fed + [x] && u.shared.stop == t.shared.stop
    ensures u.emitted != [] ==> u.shared.queue != []
    ensures u == t.(vad := VTop, fed := u.fed, emitted := u.emitted, shared := u.shared, head := u.head, fates := u.fates)
  {
    hide Leads, SlicesAfter, SegmentOf, Enqueued;
    assert forall q: seq<Emission>, y :: Enqueued(q, y) != [];
    var a := Feed(o, t);
    Go(o, s, t, VFeeds);
    u := Apply(o, a, VFeeds);
    Go(o, s, a, VFeeds);
  }

  lemma HearsOne(o: Oracle, s: State, t: State, k: nat, x: Sample) returns (u: State)
    requires Leads(o, s, t) && R.Inv(t.ring, k) && AllEars(t)
    ensures Leads(o, s, u) && R.Inv(u.ring, k) && AllEars(u) && SameHistory(t, u) && u.fed == t.fed + [x]
  {
    hide R.Inv, Leads;
    var a := Writes(o, s, t, k, x);
    var b := Reads(o, s, a, k);
    u := Feeds(o, s, b, x);
  }

  lemma {:induction false} Hears(o: Oracle, s: State, t: State, k: nat, xs: seq<Sample>) returns (u: State)
    requires Leads(o, s, t) && R.Inv(t.ring, k) && AllEars(t)
    ensures Leads(o, s, u) && R.Inv(u.ring, k) && AllEars(u) && SameHistory(t, u) && u.fed == t.fed + xs
    decreases |xs|
  {
    hide R.Inv, Leads, AllEars;
    if xs == [] {
      u := t;
    } else {
      var a := HearsOne(o, s, t, k, xs[0]);
      u := Hears(o, s, a, k, xs[1..]);
      assert xs == [xs[0]] + xs[1..];
    }
  }

  /** start() after a stop(), and the model loaded. The sender of the new run knows of no pause. */
  lemma StartsUp(o: Oracle, s: State, t: State, k: nat) returns (u: State)
    requires Leads(o, s, t) && R.Inv(t.ring, k) && Stopped(t) && !t.tapRunning && AtRest(t.ring)
    ensures Leads(o, s, u) && R.Inv(u.ring, k) && AllEars(u) && u.fed == []
    ensures u.archive == t.archive + [t.ring.accepted] && u.posts == t.posts && u.limits == t.limits && u.now == t.now
  {
    hide R.Inv, Leads;
    var a := Apply(o, t, UStart);
    Go(o, s, t, UStart);
    R.StepKeepsInv(t.ring, R.Clear, k);
    var b := Apply(o, a, USpawnVad);
    Go(o, s, a, USpawnVad);
    var c := Apply(o, b, USpawnSender);
    Go(o, s, b, USpawnSender);
    u := Apply(o, c, VLoaded);
    Go(o, s, c, VLoaded);
  }

  lemma PostsOne(o: Oracle, s: State, t: State) returns (u: State)
    requires Leads(o, s, t) && AllEars(t) && t.emitted != [] && Queued(t)
    ensures Leads(o, s, u) && t.head < |t.emitted|
    ensures u.posts == t.posts + [Post(|t.archive|, t.head, t.emitted[t.head], t.now)]
    ensures u == t.(sender := SPosting(t.head), posts := u.posts, head := u.head, fates := u.fates, shared := u.shared)
    ensures u.shared.stop == t.shared.stop
  {
    hide Leads, FateCount;
    var a := Apply(o, t, STakes);
    Go(o, s, t, STakes);
    var b := Apply(o, a, SChecks);
    Go(o, s, a, SChecks);
    u := Apply(o, b, SSends);
    Go(o, s, b, SSends);
  }

  lemma LeadsKeepsInv(o: Oracle, s: State, t: State, k: nat)
    requires Initial(s, k) && Leads(o, s, t)
    ensures Inv(o, t, k)
  {
    hide Inv, Initial, Leads;
    LeadsIsReachable(o, s, t, k);
    ReachableIsInv(o, t, k);
  }

  lemma HeardIsEmitted(o: Oracle, t: State)
    requires Fed(o, t) && SlicesAfter(o, t.fed) != []
    ensures t.emitted != []
  {
    hide SlicesAfter, SegmentOf;
    assert |SlicesOf(t.emitted)| == |t.emitted|;
  }

  /** Whatever the detector finds a segment in can be heard and posted, from every state in which the ears are off and
      without any time going by. */
  lemma CanPost(o: Oracle, s: State, t: State, k: nat, xs: seq<Sample>) returns (u: State)
    requires Initial(s, k) && Leads(o, s, t) && Stopped(t) && SlicesAfter(o, xs) != []
    ensures Leads(o, s, u) && u.sender.SPosting? && u.vad.VTop? && u.ui.UReady?
    ensures !u.shared.stop && u.tapRunning && AtRest(u.ring)
    ensures |u.archive| == |t.archive| + 1 && u.now == t.now && u.limits == t.limits
    ensures exists p: Post :: u.posts == t.posts + [p] && p.run == |t.archive| + 1 && p.at == t.now
  {
    hide R.Inv, R.Apply, Leads, Initial, SlicesAfter, FeedInv, PostInv, PauseInv, RespectInv, HealthInv, AnswerInv, FateCount;
    LeadsKeepsInv(o, s, t, k);
    GuardsHold(o, t, k);
    var a := StartsUp(o, s, t, k);
    var b := Hears(o, s, a, k, xs);
    assert b.fed == xs;
    LeadsKeepsInv(o, s, b, k);
    HeardIsEmitted(o, b);
    u := PostsOne(o, s, b);
    assert u.posts == t.posts + [Post(|b.archive|, b.head, b.emitted[b.head], b.now)];
  }

  /** A 429, and the sender waits for the next segment. */
  lemma IsLimited(o: Oracle, s: State, t: State) returns (u: State)
    requires Leads(o, s, t) && t.sender.SPosting?
    ensures Leads(o, s, u) && u.shared.stop == t.shared.stop
    ensures u == t.(sender := SWaiting, answers := u.answers, shared := u.shared, pausedUntil := u.pausedUntil,
                    limits := t.limits + [Limit(|t.archive|, t.now, |t.posts|)])
  {
    hide Leads;
    var a := Apply(o, t, SGets(429));
    Go(o, s, t, SGets(429));
    u := Apply(o, a, SHandles);
    Go(o, s, a, SHandles);
  }

  /** stop(), up to both workers being told. */
  lemma TellsToStop(o: Oracle, s: State, t: State) returns (u: State)
    requires Leads(o, s, t) && t.ui.UReady? && !t.vad.VNone? && t.ring.writer.WIdle?
    ensures Leads(o, s, u) && u == t.(ui := UCancelled, tapRunning := false, shared := u.shared, cancelled := true)
    ensures u.shared.stop
  {
    hide Leads;
    var a := Apply(o, t, UTapStop);
    Go(o, s, t, UTapStop);
    var b := Apply(o, a, USetStop);
    Go(o, s, a, USetStop);
    u := Apply(o, b, UCancel);
    Go(o, s, b, UCancel);
  }

  lemma Stops(o: Oracle, s: State, t: State) returns (u: State)
    requires Leads(o, s, t) && t.ui.UReady? && t.vad.VTop? && t.sender.SWaiting? && AtRest(t.ring)
    ensures Leads(o, s, u) && Stopped(u) && SameHistory(t, u)
  {
    hide Leads;
    var a := TellsToStop(o, s, t);
    var b := Apply(o, a, VLooks);
    Go(o, s, a, VLooks);
    var c := Apply(o, b, STakes);
    Go(o, s, b, STakes);
    var d := Apply(o, c, UJoinVad);
    Go(o, s, c, UJoinVad);
    var e := Apply(o, d, UJoinSender);
    Go(o, s, d, UJoinSender);
    u := Apply(o, e, USetIdle);
    Go(o, s, e, USetIdle);
  }

  /** A sender that start() has made knows nothing of a pause, whatever 429 there was before. */
  lemma RestartForgetsPause(o: Oracle, t: State, k: nat)
    requires Reachable(o, t, k) && Stopped(t)
    ensures var events := [UStart, USpawnVad, USpawnSender];
            && CanRun(o, t, events)
            && var u := Run(o, t, events); u.sender.SWaiting? && u.pausedUntil == 0 && u.limits == t.limits && u.now == t.now
  {
    hide Reachable, Inv, R.Apply, R.Enabled;
    ReachableIsInv(o, t, k);
    GuardsHold(o, t, k);
    var a := Apply(o, t, UStart);
    var b := Apply(o, a, USpawnVad);
    assert [USpawnSender][1..] == [] && [USpawnVad, USpawnSender][1..] == [USpawnSender];
    assert CanRun(o, b, [USpawnSender]);
    assert CanRun(o, a, [USpawnVad, USpawnSender]);
    assert [UStart, USpawnVad, USpawnSender][1..] == [USpawnVad, USpawnSender];
  }

  /** So the 10 s are not kept over a restart: for every model and all samples it finds a segment in there is a run in
      which a POST begins at the very moment of the 429 that an earlier run was answered. */
  lemma PauseLostOverRestart(o: Oracle, s: State, k: nat, xs: seq<Sample>) returns (t: State, l: Limit, j: nat)
    requires Initial(s, k) && SlicesAfter(o, xs) != []
    ensures Reachable(o, t, k) && l in t.limits && l.postsBefore <= j < |t.posts|
    ensures t.posts[j].run == l.run + 1 && t.posts[j].at == l.at
  {
    hide Leads, Initial, Reachable, SlicesAfter;
    assert Stopped(s) by { StoppedFirst(s, k); }
    Stay(o, s);
    var a := CanPost(o, s, s, k, xs);
    var b := IsLimited(o, s, a);
    var c := Stops(o, s, b);
    t := CanPost(o, s, c, k, xs);
    LeadsIsReachable(o, s, t, k);
    l, j := Limit(|a.archive|, a.now, |a.posts|), |c.posts|;
  }

  lemma StoppedFirst(s: State, k: nat)
    requires Initial(s, k)
    ensures Stopped(s) && s.posts == []
  {
  }

  /** And there are such models and samples: one that hears speech in everything, and 12 s of anything. */
  lemma MonologueIsPosted(s: State, k: nat, xs: seq<Sample>) returns (t: State)
    requires Initial(s, k) && |xs| == 375 * WINDOW
    ensures SlicesAfter(Always, xs) != []
    ensures Reachable(Always, t, k) && |t.posts| == 1
  {
    hide Leads, Initial, Reachable;
    assert |xs| / WINDOW == 375;
    MonologueIsCut(xs);
    assert Stopped(s) && s.posts == [] by { StoppedFirst(s, k); }
    Stay(Always, s);
    t := CanPost(Always, s, s, k, xs);
    LeadsIsReachable(Always, s, t, k);
  }
}
