/** The ears end to end: the OBS audio thread, the VAD worker, the sender and the UI thread of
    src/audio/audio-loop.cpp and src/audio/audio-tap.cpp, interleaved at every lock and every shared access. */
module AudioPipeline {
  import opened Basics
  import opened Wav
  import opened VadSpec
  import opened VadSegmenter
  import opened AudioLoop
  import opened SampleRing
  import R = RingProtocol
  import opened Bits

  const READ_CHUNK := 4096

  /** What the segmenter hands to enqueue(), with the slice of the stream it came from. */
  datatype Emission = Emission(slice: Slice, segment: Segment)

  /** A POST that was put on the wire. */
  datatype Post = Post(run: nat, index: nat, emission: Emission, at: nat)

  /** A 429 answer: in which run, when, and after how many POSTs. */
  datatype Limit = Limit(run: nat, at: nat, postsBefore: nat)

  /** Where the emitted segments that have left the queue went, by number. */
  datatype Fates = Fates(overflow: set<nat>, pauseDropped: set<nat>, aborted: set<nat>, posted: seq<nat>)

  const NOTHING_LEFT := Fates({}, {}, {}, [])

  datatype VadWorker =
    | VNone                        // not joinable
    | VLoading                     // silero_vad.onnx
    | VGivingUp                    // health set, stop not yet
    | VTop                         // about to look at stop_
    | VReading                     // inside tap_.read()
    | VFeeding(rest: seq<Sample>)  // inside segmenter.push()
    | VExited

  datatype Sender =
    | SNone
    | SWaiting
    | SHolding(index: nat)         // popped, the pause not yet checked
    | SReady(index: nat)           // about to call post_file()
    | SPosting(index: nat)
    | SAnswered(status: nat)
    | SGivingUp(reason: Health)    // health set, stop not yet
    | SExited

  datatype Ui = UReady | UTapOn | UVadOn | UTapOff | UStopping | UCancelled | UVadJoined | UBothJoined

  datatype State = State(
    ring: R.State, tapRunning: bool,
    vad: VadWorker, sender: Sender, ui: Ui,
    shared: Shared<Emission>, cancelled: bool, pausedUntil: nat, now: nat,
    // history of this run
    fed: seq<Sample>, emitted: seq<Emission>, head: nat, fates: Fates,
    answers: seq<nat>, gaveUp: Option<Health>,
    // history of all runs
    archive: seq<seq<Sample>>, posts: seq<Post>, limits: seq<Limit>)

  datatype Event =
    | AudioThread(e: R.Event)
    | VLoaded | VLoadFailed | VStops | VLooks | VReads(e: R.Event) | VFeeds
    | STakes | SChecks | SSends | SGets(status: nat) | SHandles | SStops
    | UStart | USpawnVad | USpawnSender | UTapStop | USetStop | UCancel | UJoinVad | UJoinSender | USetIdle
    | Tick(ns: nat)

  predicate Enabled(s: State, e: Event) {
    match e
    case AudioThread(r) => ((r.WBegin? && s.tapRunning) || r.WLoad? || r.WCell? || r.WStore?) && R.Enabled(s.ring, r)
    case VLoaded => s.vad.VLoading?
    case VLoadFailed => s.vad.VLoading?
    case VStops => s.vad.VGivingUp?
    case VLooks => s.vad.VTop? && s.ring.reader.RIdle?
    case VReads(r) => s.vad.VReading? && (r.RLoad? || r.RCell? || r.RStore?) && R.Enabled(s.ring, r)
    case VFeeds => s.vad.VFeeding?
    case STakes => s.sender.SWaiting? && (s.shared.stop || s.shared.queue != [])
    case SChecks => s.sender.SHolding?
    case SSends => s.sender.SReady? && s.sender.index < |s.emitted|
    case SGets(_) => s.sender.SPosting?
    case SHandles => s.sender.SAnswered?
    case SStops => s.sender.SGivingUp?
    case UStart => s.ui.UReady? && s.vad.VNone? && !s.tapRunning && R.Enabled(s.ring, R.Clear)
    case USpawnVad => s.ui.UTapOn?
    case USpawnSender => s.ui.UVadOn?
    case UTapStop => s.ui.UReady? && !s.vad.VNone? && s.ring.writer.WIdle?
    case USetStop => s.ui.UTapOff?
    case UCancel => s.ui.UStopping?
    case UJoinVad => s.ui.UCancelled? && s.vad.VExited?
    case UJoinSender => s.ui.UVadJoined? && s.sender.SExited?
    case USetIdle => s.ui.UBothJoined?
    case Tick(_) => true
  }

  // ---------------------------------------------------------------- the VAD worker

  function SlicesAfter(o: Oracle, fed: seq<Sample>): seq<Slice> {
    After(o, fed, |fed| / WINDOW).slices
  }

  /** One turn of the push() loop: at most one segment closes, and it goes to enqueue(). */
  function Feed(o: Oracle, s: State): State
    requires s.vad.VFeeding?
  {
    if s.vad.rest == [] then s.(vad := VTop)
    else
      var fed := s.fed + [s.vad.rest[0]];
      var slices := SlicesAfter(o, fed);
      var t := s.(fed := fed, vad := VFeeding(s.vad.rest[1..]));
      if |slices| > |s.emitted| then
        var x := Emission(slices[|s.emitted|], SegmentOf(fed, slices[|s.emitted|]));
        var full := |s.shared.queue| >= QUEUE_LIMIT;
        t.(emitted := s.emitted + [x],
           shared := s.shared.(queue := Enqueued(s.shared.queue, x)),
           head := if full then s.head + 1 else s.head,
           fates := if full then s.fates.(overflow := s.fates.overflow + {s.head}) else s.fates)
      else t
  }

  function ReadStep(s: State, r: R.Event): State
    requires Enabled(s, VReads(r))
  {
    var ring := R.Apply(s.ring, r);
    var vad := if r.RStore? then VFeeding(R.Delivered(s.ring.reader))
               else if ring.reader.RIdle? then VTop
               else VReading;
    s.(ring := ring, vad := vad)
  }

  // ---------------------------------------------------------------- the sender

  function Take(s: State): State
    requires Enabled(s, STakes)
  {
    if s.shared.stop then s.(sender := SExited)
    else s.(sender := SHolding(s.head), head := s.head + 1, shared := Taken(s.shared))
  }

  /** The clock against the pause, with the segment already in hand. */
  function CheckPause(s: State): State
    requires s.sender.SHolding?
  {
    if s.now < s.pausedUntil then s.(sender := SWaiting, fates := s.fates.(pauseDropped := s.fates.pauseDropped + {s.sender.index}))
    else s.(sender := SReady(s.sender.index))
  }

  /** A cancelled client answers status 0 without touching the network. */
  function Send(s: State): State
    requires Enabled(s, SSends)
  {
    var i := s.sender.index;
    if s.cancelled then s.(sender := SAnswered(0), answers := s.answers + [0], fates := s.fates.(aborted := s.fates.aborted + {i}))
    else s.(sender := SPosting(i), fates := s.fates.(posted := s.fates.posted + [i]),
            posts := s.posts + [Post(|s.archive|, i, s.emitted[i], s.now)])
  }

  function Get(s: State, status: nat): State {
    s.(sender := SAnswered(status), answers := s.answers + [status],
       limits := if status == 429 then s.limits + [Limit(|s.archive|, s.now, |s.posts|)] else s.limits)
  }

  function GiveUp(s: State, reason: Health): State {
    s.(shared := WithHealth(s.shared, reason, 0, s.now), gaveUp := Some(reason))
  }

  function Handle(s: State): State
    requires s.sender.SAnswered?
  {
    var status := s.sender.status;
    if 200 <= status < 300 then s.(shared := WithHealth(s.shared, Listening, 0, s.now), sender := SWaiting)
    else if status == 403 then GiveUp(s, SpeechDisabled).(sender := SGivingUp(SpeechDisabled))
    else if status == 401 then GiveUp(s, KeyRejected).(sender := SGivingUp(KeyRejected))
    else if status == 429 then
      s.(shared := WithHealth(s.shared, Retrying, RETRY_SECONDS, s.now), sender := SWaiting,
         pausedUntil := s.now + RETRY_SECONDS * NS)
    else if !s.cancelled then s.(shared := WithHealth(s.shared, Retrying, RETRY_SECONDS, s.now), sender := SWaiting)
    else s.(sender := SWaiting)
  }

  // ---------------------------------------------------------------- the UI thread

  /** start() up to the callback being on; no other thread is running yet, so this is one step. */
  function Start(s: State): State
    requires Enabled(s, UStart)
  {
    s.(ring := R.Apply(s.ring, R.Clear), tapRunning := true, ui := UTapOn, cancelled := false,
       shared := Begun(), fed := [], emitted := [], head := 0, fates := NOTHING_LEFT, answers := [],
       archive := s.archive + [s.ring.accepted])
  }

  function Apply(o: Oracle, s: State, e: Event): State
    requires Enabled(s, e)
  {
    match e
    case AudioThread(r) => s.(ring := R.Apply(s.ring, r))
    case VLoaded => s.(vad := VTop)
    case VLoadFailed => GiveUp(s, VadFailed).(vad := VGivingUp)
    case VStops => s.(vad := VExited, shared := s.shared.(stop := true))
    case VLooks =>
      if s.shared.stop then s.(vad := VExited)
      else s.(vad := VReading, ring := R.Apply(s.ring, R.RBegin(READ_CHUNK)))
    case VReads(r) => ReadStep(s, r)
    case VFeeds => Feed(o, s)
    case STakes => Take(s)
    case SChecks => CheckPause(s)
    case SSends => Send(s)
    case SGets(status) => Get(s, status)
    case SHandles => Handle(s)
    case SStops => s.(sender := SExited, shared := s.shared.(stop := true))
    case UStart => Start(s)
    case USpawnVad => s.(ui := UVadOn, vad := VLoading)
    case USpawnSender => s.(ui := UReady, sender := SWaiting, pausedUntil := 0)
    case UTapStop => s.(ui := UTapOff, tapRunning := false)
    case USetStop => s.(ui := UStopping, shared := s.shared.(stop := true))
    case UCancel => s.(ui := UCancelled, cancelled := true)
    case UJoinVad => s.(ui := UVadJoined, vad := VNone)
    case UJoinSender => s.(ui := UBothJoined, sender := SNone)
    case USetIdle => s.(ui := UReady, shared := WithHealth(s.shared, Idle, 0, s.now), gaveUp := None)
    case Tick(ns) => s.(now := s.now + ns)
  }

  ghost predicate Initial(s: State, k: nat) {
    && R.Fresh(s.ring, k) && !s.tapRunning
    && s.vad.VNone? && s.sender.SNone? && s.ui.UReady?
    && s.shared == Shared(false, [], Idle, 0) && !s.cancelled
    && s.fed == [] && s.emitted == [] && s.head == 0
    && s.fates == NOTHING_LEFT && s.answers == [] && s.gaveUp.None?
    && s.archive == [] && s.posts == [] && s.limits == []
  }

  // ---------------------------------------------------------------- the invariant, part by part

  function Pending(vad: VadWorker): seq<Sample> {
    if vad.VFeeding? then vad.rest else []
  }

  function SlicesOf(emitted: seq<Emission>): seq<Slice> {
    seq(|emitted|, i requires 0 <= i < |emitted| => emitted[i].slice)
  }

  ghost predicate EmissionsOf(o: Oracle, fed: seq<Sample>, emitted: seq<Emission>) {
    && SlicesOf(emitted) == SlicesAfter(o, fed)
    && (forall i :: 0 <= i < |emitted| ==> emitted[i].segment == SegmentOf(fed, emitted[i].slice))
  }

  /** What the segmenter has been fed is what the ring has returned, and its output is what VadSpec says. */
  ghost predicate FeedInv(o: Oracle, returned: seq<Sample>, readerIdle: bool, vad: VadWorker,
                          fed: seq<Sample>, emitted: seq<Emission>)
  {
    && returned == fed + Pending(vad)
    && EmissionsOf(o, fed, emitted)
    && (readerIdle <==> !vad.VReading?)
  }

  predicate Holds(sender: Sender, i: nat) {
    sender == SHolding(i) || sender == SReady(i)
  }

  /** How many fates segment i has met: being held by the sender, before its POST is decided, counts as one. */
  function FateCount(f: Fates, sender: Sender, i: nat): nat {
    (if i in f.overflow then 1 else 0) + (if i in f.pauseDropped then 1 else 0) + (if i in f.aborted then 1 else 0)
    + (if i in f.posted then 1 else 0) + (if Holds(sender, i) then 1 else 0)
  }

  ghost predicate QueueInv(emitted: seq<Emission>, queue: seq<Emission>, head: nat, f: Fates, sender: Sender) {
    && head <= |emitted| && queue == emitted[head..] && |queue| <= QUEUE_LIMIT
    && (forall i: nat :: FateCount(f, sender, i) == if i < head then 1 else 0)
    && (forall a, b :: 0 <= a < b < |f.posted| ==> f.posted[a] < f.posted[b])
    && (forall i: nat, a :: Holds(sender, i) && 0 <= a < |f.posted| ==> f.posted[a] < i)
  }

  predicate Before(p: Post, q: Post) {
    p.run < q.run || (p.run == q.run && p.index < q.index)
  }

  /** Emission number i is the i-th segment VadSpec finds in the accepted samples, cut out of them. */
  ghost predicate CutFrom(o: Oracle, accepted: seq<Sample>, i: nat, x: Emission) {
    && i < |SlicesAfter(o, accepted)| && x.slice == SlicesAfter(o, accepted)[i]
    && x.segment == SegmentOf(accepted, x.slice)
  }

  ghost predicate PostInv(o: Oracle, archive: seq<seq<Sample>>, emitted: seq<Emission>, posted: seq<nat>, posts: seq<Post>) {
    && |posted| <= |posts|
    && (forall j :: 0 <= j < |posts| - |posted| ==>
          posts[j].run < |archive| && CutFrom(o, archive[posts[j].run], posts[j].index, posts[j].emission))
    && (forall j :: |posts| - |posted| <= j < |posts| ==>
          && posts[j].run == |archive| && posts[j].index == posted[j - (|posts| - |posted|)] < |emitted|
          && posts[j].emission == emitted[posts[j].index])
    && (forall a, b :: 0 <= a < b < |posts| ==> Before(posts[a], posts[b]))
  }

  ghost predicate PhaseInv(ui: Ui, vad: VadWorker, sender: Sender, tap: bool, stop: bool, cancelled: bool, writerIdle: bool,
                           fed: seq<Sample>, emitted: seq<Emission>)
  {
    && (!tap ==> writerIdle)
    && (ui.UCancelled? || ui.UVadJoined? || ui.UBothJoined? ==> cancelled)
    && (vad.VLoading? || vad.VGivingUp? ==> fed == [] && emitted == [])
    && match ui
       case UReady => if vad.VNone? then sender.SNone? && !tap else !sender.SNone? && tap
       case UTapOn => vad.VNone? && sender.SNone? && tap && fed == [] && emitted == []
       case UVadOn => !vad.VNone? && sender.SNone? && tap
       case UTapOff => !vad.VNone? && !sender.SNone? && !tap
       case UStopping => !vad.VNone? && !sender.SNone? && !tap && stop
       case UCancelled => !vad.VNone? && !sender.SNone? && !tap && stop
       case UVadJoined => vad.VNone? && !sender.SNone? && !tap && stop
       case UBothJoined => vad.VNone? && sender.SNone? && !tap
  }

  predicate Resting(sender: Sender) {
    sender.SNone? || sender.SWaiting? || sender.SExited?
  }

  ghost predicate HealthInv(gaveUp: Option<Health>, health: Health, sender: Sender, vad: VadWorker, ui: Ui,
                            emitted: seq<Emission>)
  {
    && (!Resting(sender) ==> emitted != [])
    && (sender.SGivingUp? ==> gaveUp == Some(sender.reason))
    && (vad.VGivingUp? ==> gaveUp == Some(VadFailed))
    && (gaveUp.Some? ==>
          && health == gaveUp.value && health in {VadFailed, SpeechDisabled, KeyRejected}
          && !(ui.UReady? && vad.VNone?) && !ui.UTapOn?
          && (ui.UVadOn? ==> gaveUp.value == VadFailed)
          && (if gaveUp.value == VadFailed then emitted == [] && (vad.VGivingUp? || vad.VExited? || vad.VNone?) && Resting(sender)
              else emitted != [] && (sender.SGivingUp? || sender.SExited? || sender.SNone?)))
  }

  /** The POST was sent by a later run than got the 429, or at least 10 s after it. */
  predicate Respects(p: Post, l: Limit) {
    p.run > l.run || l.at + RETRY_SECONDS * NS <= p.at
  }

  ghost predicate PauseInv(limits: seq<Limit>, posts: seq<Post>, run: nat, pausedUntil: nat, sender: Sender, ui: Ui, now: nat) {
    && (forall l :: l in limits ==> l.run <= run && l.postsBefore <= |posts|)
    && (ui.UTapOn? || ui.UVadOn? ==> forall l :: l in limits ==> l.run < run)
    && (forall l :: l in limits && l.run == run ==> l.at + RETRY_SECONDS * NS <= pausedUntil || sender == SAnswered(429))
    && (forall l :: l in limits ==> l.at <= now)
    && (sender.SReady? ==> pausedUntil <= now)
  }

  ghost predicate RespectInv(limits: seq<Limit>, posts: seq<Post>) {
    forall l, j :: l in limits && l.postsBefore <= j < |posts| ==> Respects(posts[j], l)
  }

  /** The give-up an answer calls for. */
  function Verdict(status: nat): Option<Health> {
    if status == 403 then Some(SpeechDisabled) else if status == 401 then Some(KeyRejected) else None
  }

  predicate Finishing(sender: Sender, reason: Health) {
    sender == SGivingUp(reason) || sender.SExited? || sender.SNone?
  }

  /** A 401 or 403 is the last answer of its run, and no give-up of the sender comes from anything else. */
  ghost predicate AnswerInv(answers: seq<nat>, sender: Sender, gaveUp: Option<Health>, ui: Ui, emitted: seq<Emission>) {
    && (ui.UTapOn? || ui.UVadOn? ==> answers == [])
    && (answers != [] ==> emitted != [])
    && (sender.SAnswered? ==> answers != [] && answers[|answers| - 1] == sender.status)
    && (forall i :: 0 <= i < |answers| && Verdict(answers[i]).Some? ==>
          i == |answers| - 1 && (sender == SAnswered(answers[i]) || Finishing(sender, Verdict(answers[i]).value)))
    && (gaveUp.Some? && gaveUp.value != VadFailed ==> answers != [] && Verdict(answers[|answers| - 1]) == gaveUp)
  }

  ghost predicate Fed(o: Oracle, s: State) {
    FeedInv(o, s.ring.returned, s.ring.reader.RIdle?, s.vad, s.fed, s.emitted)
  }

  ghost predicate Queued(s: State) {
    QueueInv(s.emitted, s.shared.queue, s.head, s.fates, s.sender)
  }

  ghost predicate Posted(o: Oracle, s: State) {
    PostInv(o, s.archive, s.emitted, s.fates.posted, s.posts)
  }

  ghost predicate Phase(s: State) {
    PhaseInv(s.ui, s.vad, s.sender, s.tapRunning, s.shared.stop, s.cancelled, s.ring.writer.WIdle?, s.fed, s.emitted)
  }

  ghost predicate Healthy(s: State) {
    HealthInv(s.gaveUp, s.shared.health, s.sender, s.vad, s.ui, s.emitted)
  }

  ghost predicate Paused(s: State) {
    PauseInv(s.limits, s.posts, |s.archive|, s.pausedUntil, s.sender, s.ui, s.now) && RespectInv(s.limits, s.posts)
  }

  ghost predicate Answered(s: State) {
    AnswerInv(s.answers, s.sender, s.gaveUp, s.ui, s.emitted)
  }

  ghost predicate Inv(o: Oracle, s: State, k: nat) {
    R.Inv(s.ring, k) && Fed(o, s) && Queued(s) && Posted(o, s) && Phase(s) && Healthy(s) && Paused(s) && Answered(s)
  }

  /** The guards that keep the model's steps well defined follow from the others: clear() always finds the ring at rest,
      the VAD worker always finds its side idle, and the sender only holds emitted segments. */
  lemma GuardsHold(o: Oracle, s: State, k: nat)
    requires Inv(o, s, k)
    ensures s.ui.UReady? && s.vad.VNone? ==> !s.tapRunning && R.Enabled(s.ring, R.Clear)
    ensures s.vad.VTop? ==> s.ring.reader.RIdle?
    ensures s.sender.SReady? ==> s.sender.index < |s.emitted|
  {
    hide R.Inv, Posted, Healthy, Paused, EmissionsOf;
    if s.sender.SReady? { assert FateCount(s.fates, s.sender, s.sender.index) >= 1; }
  }

  // ---------------------------------------------------------------- each part is kept

  predicate OfVad(e: Event) { e.VLoaded? || e.VLoadFailed? || e.VStops? || e.VLooks? || e.VReads? || e.VFeeds? }
  predicate OfSender(e: Event) { e.STakes? || e.SChecks? || e.SSends? || e.SGets? || e.SHandles? || e.SStops? }
  predicate OfUi(e: Event) { !OfVad(e) && !OfSender(e) && !e.AudioThread? && !e.Tick? }

  lemma PhaseOfVad(o: Oracle, s: State, e: Event)
    requires Phase(s) && Enabled(s, e) && OfVad(e)
    ensures Phase(Apply(o, s, e))
  {
    hide SlicesAfter, SegmentOf, Mod, Enqueued;
  }

  lemma HandleFrame(s: State)
    requires s.sender.SAnswered?
    ensures var t := Handle(s);
            && t == s.(shared := t.shared, sender := t.sender, pausedUntil := t.pausedUntil, gaveUp := t.gaveUp)
            && t.shared.stop == s.shared.stop && !t.sender.SNone?
  {
  }

  /** The sender touches neither the ring nor the other threads, and only ever raises the stop flag. */
  lemma SenderFrame(o: Oracle, s: State, e: Event)
    requires Enabled(s, e) && OfSender(e)
    ensures var t := Apply(o, s, e);
            && t.ui == s.ui && t.vad == s.vad && t.tapRunning == s.tapRunning && t.ring == s.ring
            && t.fed == s.fed && t.emitted == s.emitted && t.cancelled == s.cancelled
            && (s.shared.stop ==> t.shared.stop) && !s.sender.SNone? && !t.sender.SNone?
  {
    hide R.Enabled, Handle;
    if e.SHandles? { HandleFrame(s); }
  }

  lemma PhaseOfSender(o: Oracle, s: State, e: Event)
    requires Phase(s) && Enabled(s, e) && OfSender(e)
    ensures Phase(Apply(o, s, e))
  {
    SenderFrame(o, s, e);
    hide Apply, Enabled;
  }

  lemma PhaseOfOthers(o: Oracle, s: State, e: Event)
    requires Phase(s) && Enabled(s, e) && !OfVad(e) && !OfSender(e)
    ensures Phase(Apply(o, s, e))
  {
    hide Mod;
  }

  lemma HealthOfVad(o: Oracle, s: State, e: Event)
    requires Phase(s) && Healthy(s) && Enabled(s, e) && OfVad(e) && !e.VFeeds?
    ensures Healthy(Apply(o, s, e))
  {
    hide R.Apply, R.Enabled;
  }

  lemma HealthOfFeeding(o: Oracle, s: State)
    requires Healthy(s) && Enabled(s, VFeeds)
    ensures Healthy(Apply(o, s, VFeeds))
  {
    hide SlicesAfter, SegmentOf, Enqueued, R.Enabled;
  }

  lemma HealthOfTaking(o: Oracle, s: State, e: Event)
    requires Phase(s) && Healthy(s) && Enabled(s, e) && (e.STakes? || e.SChecks? || e.SSends? || e.SGets?)
    requires e.STakes? ==> |s.shared.queue| <= |s.emitted|
    ensures Healthy(Apply(o, s, e))
  {
    hide R.Enabled, PhaseInv;
  }

  /** What an answer does to the sender and the report: a 401 or 403 gives up, any other lets it go on. */
  lemma HandleShape(s: State)
    requires s.sender.SAnswered?
    ensures var t := Handle(s); var v := Verdict(s.sender.status);
            if v.Some? then t.sender == SGivingUp(v.value) && t.gaveUp == v && t.shared.health == v.value
            else t.sender == SWaiting && t.gaveUp == s.gaveUp
    ensures Handle(s).pausedUntil == if s.sender.status == 429 then s.now + RETRY_SECONDS * NS else s.pausedUntil
  {
    hide WithHealth;
    assert forall h, n, now :: WithHealth(s.shared, h, n, now).health == h by { Reports(s.shared); }
  }

  /** What the dock is told once an answer has been handled: a failure that is no refusal counts down ten seconds, whether
      or not the sender pauses for it, and after stop() has cancelled the client nothing but a real answer is reported. */
  lemma HandleReports(s: State)
    requires s.sender.SAnswered?
    ensures var r := Reported(Handle(s).shared, s.now); var status := s.sender.status;
            && (200 <= status < 300 ==> r == AudioHealth(Listening, 0))
            && (status == 403 ==> r == AudioHealth(SpeechDisabled, 0))
            && (status == 401 ==> r == AudioHealth(KeyRejected, 0))
            && (status == 429 ==> r == AudioHealth(Retrying, 10))
    ensures var status := s.sender.status;
            !(200 <= status < 300) && status !in {401, 403, 429} ==>
              if s.cancelled then Handle(s).shared == s.shared else Reported(Handle(s).shared, s.now) == AudioHealth(Retrying, 10)
  {
  }

  lemma Reports(s: Shared<Emission>)
    ensures forall h, n, now :: WithHealth(s, h, n, now).health == h
  {
  }

  lemma HealthOfHandling(o: Oracle, s: State)
    requires Healthy(s) && Phase(s) && Enabled(s, SHandles)
    ensures Healthy(Apply(o, s, SHandles))
  {
    hide R.Enabled, Handle;
    HandleFrame(s);
    HandleShape(s);
  }

  lemma HealthOfStopping(o: Oracle, s: State)
    requires Healthy(s) && Enabled(s, SStops)
    ensures Healthy(Apply(o, s, SStops))
  {
    hide R.Enabled;
  }

  lemma HealthOfOthers(o: Oracle, s: State, e: Event)
    requires Phase(s) && Healthy(s) && Enabled(s, e) && !OfVad(e) && !OfSender(e)
    ensures Healthy(Apply(o, s, e))
  {
    hide R.Apply, R.Enabled;
  }

  lemma PauseOfAsking(o: Oracle, s: State, e: Event)
    requires Paused(s) && Phase(s) && Enabled(s, e) && (e.SSends? || e.SGets?)
    ensures Paused(Apply(o, s, e))
  {
    hide R.Apply, R.Enabled;
  }

  lemma PauseOfSender(o: Oracle, s: State, e: Event)
    requires Paused(s) && Phase(s) && Enabled(s, e) && (e.STakes? || e.SChecks? || e.SStops?)
    ensures Paused(Apply(o, s, e))
  {
    hide R.Apply, R.Enabled, RespectInv;
  }

  lemma PauseOfHandling(o: Oracle, s: State)
    requires Paused(s) && Enabled(s, SHandles)
    ensures Paused(Apply(o, s, SHandles))
  {
    hide R.Apply, R.Enabled, Handle, RespectInv;
    HandleFrame(s);
    HandleShape(s);
  }

  lemma PauseOfOthers(o: Oracle, s: State, e: Event)
    requires Paused(s) && Phase(s) && Enabled(s, e) && !OfSender(e)
    ensures Paused(Apply(o, s, e))
  {
    hide R.Apply, R.Enabled, SlicesAfter, SegmentOf, Enqueued, WithHealth;
  }

  lemma AnsweredOfAsking(o: Oracle, s: State, e: Event)
    requires Answered(s) && Phase(s) && Healthy(s) && Enabled(s, e) && (e.SSends? || e.SGets?)
    ensures Answered(Apply(o, s, e))
  {
    hide R.Apply, R.Enabled, WithHealth;
    assert forall i :: 0 <= i < |s.answers| ==> Verdict(s.answers[i]).None?;
  }

  lemma AnsweredOfSender(o: Oracle, s: State, e: Event)
    requires Answered(s) && Enabled(s, e) && (e.STakes? || e.SChecks? || e.SStops?)
    ensures Answered(Apply(o, s, e))
  {
    hide R.Apply, R.Enabled, WithHealth;
  }

  lemma AnsweredOfHandling(o: Oracle, s: State)
    requires Answered(s) && Healthy(s) && Enabled(s, SHandles)
    ensures Answered(Apply(o, s, SHandles))
  {
    hide R.Apply, R.Enabled, WithHealth;
  }

  lemma AnsweredOfUi(o: Oracle, s: State, e: Event)
    requires Answered(s) && Phase(s) && Healthy(s) && Enabled(s, e) && OfUi(e)
    ensures Answered(Apply(o, s, e))
  {
    hide R.Apply, R.Enabled, WithHealth;
  }

  lemma AnsweredOfOthers(o: Oracle, s: State, e: Event)
    requires Answered(s) && Phase(s) && Healthy(s) && Enabled(s, e) && !OfSender(e) && !OfUi(e)
    ensures Answered(Apply(o, s, e))
  {
    hide R.Apply, R.Enabled, SlicesAfter, SegmentOf, Enqueued, WithHealth;
  }

  // ---------------------------------------------------------------- the stream through the segmenter

  lemma StepGrows(o: Oracle, v: Vad, w: seq<Sample>, n: nat)
    requires n >= WINDOW && Between(v, n - WINDOW)
    ensures v.slices <= StepWindow(o, v, w, n).slices && |StepWindow(o, v, w, n).slices| <= |v.slices| + 1
  {
    hide Between, Process, Hear;
    HearFrame(v, w);
    var h := Hear(v, w);
    if h.speaking { SpeakingKeeps(h, o(h.calls), n); } else { QuietKeeps(h, o(h.calls), n); }
  }

  /** One more sample closes at most one more segment and leaves the earlier ones alone. */
  lemma SlicesGrow(o: Oracle, fed: seq<Sample>, x: Sample)
    ensures SlicesAfter(o, fed) <= SlicesAfter(o, fed + [x]) && |SlicesAfter(o, fed + [x])| <= |SlicesAfter(o, fed)| + 1
  {
    hide StepWindow, Between;
    var k := |fed| / WINDOW;
    var t := fed + [x];
    AfterPrefix(o, fed, t, k);
    if |t| / WINDOW == k + 1 {
      AlwaysBetween(o, t, k);
      StepGrows(o, After(o, t, k), Window(t, k), WINDOW * (k + 1));
    } else {
      assert |t| / WINDOW == k;
    }
  }

  lemma GoodSlices(o: Oracle, fed: seq<Sample>)
    ensures forall i :: 0 <= i < |SlicesAfter(o, fed)| ==>
      var s := SlicesAfter(o, fed)[i]; GoodSlice(s) && s.From() <= s.closedAt <= |fed|
  {
    hide After;
    var k := |fed| / WINDOW;
    AlwaysBetween(o, fed, k);
    forall i | 0 <= i < |SlicesAfter(o, fed)|
      ensures var s := SlicesAfter(o, fed)[i]; GoodSlice(s) && s.From() <= s.closedAt <= |fed|
    {
      SegmentBounds(o, fed, k, i);
    }
  }

  /** The emissions after one more sample. */
  function EmittedBy(o: Oracle, fed: seq<Sample>, emitted: seq<Emission>): seq<Emission> {
    var slices := SlicesAfter(o, fed);
    if |slices| > |emitted| then emitted + [Emission(slices[|emitted|], SegmentOf(fed, slices[|emitted|]))] else emitted
  }

  lemma EmissionsGrow(o: Oracle, fed: seq<Sample>, emitted: seq<Emission>, x: Sample)
    requires EmissionsOf(o, fed, emitted)
    ensures EmissionsOf(o, fed + [x], EmittedBy(o, fed + [x], emitted))
  {
    hide SlicesAfter, SegmentOf, GoodSlice, Slice.From;
    var t := fed + [x];
    SlicesGrow(o, fed, x);
    GoodSlices(o, fed);
    assert |SlicesOf(emitted)| == |emitted|;
    forall i | 0 <= i < |emitted| ensures emitted[i].segment == SegmentOf(t, emitted[i].slice) {
      assert SlicesOf(emitted)[i] == emitted[i].slice;
      SameCut(fed, t, emitted[i].slice);
    }
    assert SlicesOf(EmittedBy(o, t, emitted)) == SlicesAfter(o, t);
  }

  lemma FeedShape(o: Oracle, s: State)
    requires Enabled(s, VFeeds) && s.vad.rest != []
    ensures var t := Feed(o, s);
            && t.fed == s.fed + [s.vad.rest[0]] && t.vad == VFeeding(s.vad.rest[1..])
            && t.emitted == EmittedBy(o, t.fed, s.emitted)
            && t.ring == s.ring && t.sender == s.sender
            && (t.emitted == s.emitted ==> t.shared == s.shared && t.head == s.head && t.fates == s.fates)
            && (t.emitted != s.emitted ==>
                  && |t.emitted| == |s.emitted| + 1 && s.emitted <= t.emitted
                  && t.shared.queue == Enqueued(s.shared.queue, t.emitted[|s.emitted|])
                  && (if |s.shared.queue| >= QUEUE_LIMIT
                      then t.head == s.head + 1 && t.fates == s.fates.(overflow := s.fates.overflow + {s.head})
                      else t.head == s.head && t.fates == s.fates))
  {
    hide SlicesAfter, SegmentOf, Enqueued, R.Enabled;
  }

  lemma FedOfFeeding(o: Oracle, s: State)
    requires Fed(o, s) && Enabled(s, VFeeds)
    ensures Fed(o, Apply(o, s, VFeeds))
  {
    hide EmittedBy, EmissionsOf, SlicesAfter, SegmentOf, R.Enabled, Enqueued;
    if s.vad.rest != [] {
      var x := s.vad.rest[0];
      EmissionsGrow(o, s.fed, s.emitted, x);
      FeedShape(o, s);
      hide Feed;
      FeedMoves(s.fed, s.vad.rest);
    }
  }

  lemma FeedMoves(fed: seq<Sample>, rest: seq<Sample>)
    requires rest != []
    ensures fed + rest == fed + [rest[0]] + rest[1..]
  {
  }

  lemma FedOfVad(o: Oracle, s: State, e: Event)
    requires Fed(o, s) && Enabled(s, e) && OfVad(e) && !e.VFeeds?
    ensures Fed(o, Apply(o, s, e))
  {
    hide SlicesAfter, SegmentOf, Mod;
  }

  lemma FedOfOthers(o: Oracle, s: State, e: Event)
    requires Fed(o, s) && Phase(s) && Enabled(s, e) && !OfVad(e) && !e.UStart?
    ensures Fed(o, Apply(o, s, e))
  {
    hide EmissionsOf, Mod;
    if OfSender(e) {
      hide Apply, Enabled;
      SenderFrame(o, s, e);
    }
  }

  lemma FedOfStart(o: Oracle, s: State)
    requires Enabled(s, UStart)
    ensures Fed(o, Apply(o, s, UStart))
  {
    hide EmissionsOf, Mod;
    assert EmissionsOf(o, [], []) by { NothingEmitted(o); }
  }

  lemma NothingEmitted(o: Oracle)
    ensures EmissionsOf(o, [], [])
  {
    assert SlicesAfter(o, []) == [];
  }

  // ---------------------------------------------------------------- the queue and its fates

  lemma QueuedOfFeeding(o: Oracle, s: State)
    requires Queued(s) && Enabled(s, VFeeds)
    ensures Queued(Apply(o, s, VFeeds))
  {
    hide EmittedBy, SlicesAfter, SegmentOf, R.Enabled;
    if s.vad.rest != [] {
      FeedShape(o, s);
      var t := Feed(o, s);
      hide Feed, FateCount;
      if |t.emitted| > |s.emitted| && |s.shared.queue| >= QUEUE_LIMIT {
        forall i: nat ensures FateCount(t.fates, t.sender, i) == if i < t.head then 1 else 0 {
          assert FateCount(s.fates, s.sender, i) == if i < s.head then 1 else 0;
          OverflowCounts(s.fates, s.sender, s.head, i);
        }
      }
    }
  }

  lemma OverflowCounts(f: Fates, sender: Sender, head: nat, i: nat)
    requires i == head ==> FateCount(f, sender, i) == 0
    ensures FateCount(f.(overflow := f.overflow + {head}), sender, i)
         == FateCount(f, sender, i) + if i == head then 1 else 0
  {
  }

  predicate EmptyHanded(sender: Sender) {
    !sender.SHolding? && !sender.SReady?
  }

  lemma SameFates(emitted: seq<Emission>, queue: seq<Emission>, head: nat, f: Fates, a: Sender, b: Sender)
    requires QueueInv(emitted, queue, head, f, a) && EmptyHanded(a) && EmptyHanded(b)
    ensures QueueInv(emitted, queue, head, f, b)
  {
    forall i: nat ensures FateCount(f, b, i) == if i < head then 1 else 0 {
      assert FateCount(f, a, i) == if i < head then 1 else 0;
    }
  }

  lemma QueuedOfTaking(o: Oracle, s: State)
    requires Queued(s) && Enabled(s, STakes)
    ensures Queued(Apply(o, s, STakes))
  {
    hide R.Enabled;
    var t := Apply(o, s, STakes);
    if s.shared.stop {
      SameFates(s.emitted, s.shared.queue, s.head, s.fates, s.sender, t.sender);
    } else {
      forall i: nat ensures FateCount(t.fates, t.sender, i) == if i < t.head then 1 else 0 {
        assert FateCount(s.fates, s.sender, i) == if i < s.head then 1 else 0;
      }
      forall a | 0 <= a < |s.fates.posted| ensures s.fates.posted[a] < s.head {
        var p := s.fates.posted[a];
        assert FateCount(s.fates, s.sender, p) == if p < s.head then 1 else 0;
      }
    }
  }

  lemma QueuedOfDeciding(o: Oracle, s: State, e: Event)
    requires Queued(s) && Enabled(s, e) && (e.SChecks? || e.SSends?)
    ensures Queued(Apply(o, s, e))
  {
    hide R.Enabled;
    var t := Apply(o, s, e);
    assert Holds(s.sender, s.sender.index);
    forall i: nat ensures FateCount(t.fates, t.sender, i) == if i < t.head then 1 else 0 {
      assert FateCount(s.fates, s.sender, i) == if i < s.head then 1 else 0;
    }
  }

  lemma QueuedOfAnswers(o: Oracle, s: State, e: Event)
    requires Queued(s) && Enabled(s, e) && (e.SGets? || e.SHandles? || e.SStops?)
    ensures Queued(Apply(o, s, e))
  {
    hide R.Enabled, QueueInv;
    SameFates(s.emitted, s.shared.queue, s.head, s.fates, s.sender, Apply(o, s, e).sender);
  }

  lemma QueuedOfOthers(o: Oracle, s: State, e: Event)
    requires Queued(s) && Phase(s) && Enabled(s, e) && !OfSender(e) && !e.VFeeds? && !e.UStart?
    ensures Queued(Apply(o, s, e))
  {
    hide R.Apply, R.Enabled, QueueInv;
    var t := Apply(o, s, e);
    if t.sender != s.sender { SameFates(s.emitted, s.shared.queue, s.head, s.fates, s.sender, t.sender); }
  }

  lemma QueuedOfStart(o: Oracle, s: State)
    requires Phase(s) && Enabled(s, UStart)
    ensures Queued(Apply(o, s, UStart))
  {
    hide R.Apply, R.Enabled;
  }

  // ---------------------------------------------------------------- posts, over all runs

  lemma PostedOfSending(o: Oracle, s: State)
    requires Posted(o, s) && Queued(s) && Enabled(s, SSends)
    ensures Posted(o, Apply(o, s, SSends))
  {
    hide R.Enabled, FateCount, CutFrom;
    if !s.cancelled {
      hide Queued, PostInv;
      NewestPost(o, s);
      OnePostMore(o, s.archive, s.emitted, s.fates.posted, s.posts, Post(|s.archive|, s.sender.index, s.emitted[s.sender.index], s.now));
    }
  }

  lemma NewestPost(o: Oracle, s: State)
    requires Posted(o, s) && Queued(s) && Enabled(s, SSends)
    ensures forall j :: 0 <= j < |s.posts| ==>
      Before(s.posts[j], Post(|s.archive|, s.sender.index, s.emitted[s.sender.index], s.now))
  {
    hide R.Enabled, FateCount, CutFrom;
    assert Holds(s.sender, s.sender.index);
    var n := |s.posts| - |s.fates.posted|;
    forall j | n <= j < |s.posts| ensures s.posts[j].index < s.sender.index {
      assert s.posts[j].index == s.fates.posted[j - n];
    }
  }

  lemma OnePostMore(o: Oracle, archive: seq<seq<Sample>>, emitted: seq<Emission>, posted: seq<nat>, posts: seq<Post>, p: Post)
    requires PostInv(o, archive, emitted, posted, posts)
    requires p.run == |archive| && p.index < |emitted| && p.emission == emitted[p.index]
    requires forall j :: 0 <= j < |posts| ==> Before(posts[j], p)
    ensures PostInv(o, archive, emitted, posted + [p.index], posts + [p])
  {
    hide CutFrom, Before;
    var n := |posts| - |posted|;
    forall j | n <= j < |posts| + 1 ensures (posts + [p])[j].index == (posted + [p.index])[j - n] {
      if j < |posts| { assert posts[j].index == posted[j - n]; }
    }
  }

  lemma PostedOfFeeding(o: Oracle, s: State)
    requires Posted(o, s) && Enabled(s, VFeeds)
    ensures Posted(o, Apply(o, s, VFeeds))
  {
    hide R.Enabled, PostInv, SlicesAfter, SegmentOf, Enqueued, EmittedBy;
    var t := Feed(o, s);
    assert t.archive == s.archive && t.posts == s.posts && t.fates.posted == s.fates.posted;
    if s.vad.rest != [] {
      FeedShape(o, s);
      hide Feed;
      MoreEmitted(o, s.archive, s.emitted, t.emitted, s.fates.posted, s.posts);
    }
  }

  lemma MoreEmitted(o: Oracle, archive: seq<seq<Sample>>, emitted: seq<Emission>, more: seq<Emission>, posted: seq<nat>, posts: seq<Post>)
    requires PostInv(o, archive, emitted, posted, posts) && emitted <= more
    ensures PostInv(o, archive, more, posted, posts)
  {
    hide CutFrom, Before;
    forall j | |posts| - |posted| <= j < |posts|
      ensures && posts[j].run == |archive| && posts[j].index == posted[j - (|posts| - |posted|)] < |more|
              && posts[j].emission == more[posts[j].index]
    {
      assert posts[j].index < |emitted| && posts[j].emission == emitted[posts[j].index];
    }
  }

  lemma PostedOfOthers(o: Oracle, s: State, e: Event)
    requires Posted(o, s) && Enabled(s, e) && !e.SSends? && !e.VFeeds? && !e.UStart?
    ensures Posted(o, Apply(o, s, e))
  {
    hide R.Enabled, R.Apply, PostInv;
  }

  lemma {:induction false} SlicesMonotone(o: Oracle, s: seq<Sample>, t: seq<Sample>)
    requires s <= t
    ensures SlicesAfter(o, s) <= SlicesAfter(o, t)
    decreases |t|
  {
    hide SlicesAfter;
    if |s| < |t| {
      var u := t[..|t| - 1];
      SlicesMonotone(o, s, u);
      SlicesGrow(o, u, t[|u|]);
      assert u + [t[|u|]] == t;
    } else {
      assert s == t;
    }
  }

  /** What has been emitted so far is cut from what the ring has accepted so far. */
  lemma EmissionsAreCuts(o: Oracle, s: State, k: nat, i: nat)
    requires R.Inv(s.ring, k) && Fed(o, s) && i < |s.emitted|
    ensures CutFrom(o, s.ring.accepted, i, s.emitted[i])
  {
    hide SlicesAfter, SegmentOf, GoodSlice, Slice.From, Pow2, Mod;
    GoodSlices(o, s.fed);
    assert SlicesOf(s.emitted)[i] == s.emitted[i].slice;
    assert s.fed <= s.ring.accepted;
    SlicesMonotone(o, s.fed, s.ring.accepted);
    SameCut(s.fed, s.ring.accepted, s.emitted[i].slice);
  }

  lemma PostedOfStart(o: Oracle, s: State, k: nat)
    requires R.Inv(s.ring, k) && Fed(o, s) && Posted(o, s) && Enabled(s, UStart)
    ensures Posted(o, Apply(o, s, UStart))
  {
    hide R.Inv, R.Enabled, FeedInv, CutFrom;
    forall j | |s.posts| - |s.fates.posted| <= j < |s.posts|
      ensures CutFrom(o, s.ring.accepted, s.posts[j].index, s.posts[j].emission)
    {
      EmissionsAreCuts(o, s, k, s.posts[j].index);
    }
  }

  // ---------------------------------------------------------------- every step, every run

  lemma RingKept(o: Oracle, s: State, e: Event, k: nat)
    requires R.Inv(s.ring, k) && Enabled(s, e)
    ensures R.Inv(Apply(o, s, e).ring, k)
  {
    hide R.Inv, R.Apply, R.Enabled, SlicesAfter, SegmentOf, Enqueued, WithHealth;
    match e
    case AudioThread(r) => R.StepKeepsInv(s.ring, r, k);
    case VReads(r) => R.StepKeepsInv(s.ring, r, k);
    case VLooks => RBeginEnabled(s.ring); R.StepKeepsInv(s.ring, R.RBegin(READ_CHUNK), k);
    case UStart => R.StepKeepsInv(s.ring, R.Clear, k);
    case _ =>
  }

  lemma RBeginEnabled(r: R.State)
    ensures r.reader.RIdle? ==> R.Enabled(r, R.RBegin(READ_CHUNK))
  {
  }

  lemma StepKeepsInv(o: Oracle, s: State, e: Event, k: nat)
    requires Inv(o, s, k) && Enabled(s, e)
    ensures Inv(o, Apply(o, s, e), k)
  {
    hide R.Inv, Fed, Queued, Posted, Phase, Healthy, Paused, Answered, Apply, R.Enabled;
    RingKept(o, s, e, k);
    if e.SHandles? { AnsweredOfHandling(o, s); }
    else if e.SSends? || e.SGets? { AnsweredOfAsking(o, s, e); }
    else if OfSender(e) { AnsweredOfSender(o, s, e); }
    else if OfUi(e) { AnsweredOfUi(o, s, e); }
    else { AnsweredOfOthers(o, s, e); }
    if OfVad(e) {
      if e.VFeeds? { FedOfFeeding(o, s); QueuedOfFeeding(o, s); PostedOfFeeding(o, s); }
      else { FedOfVad(o, s, e); QueuedOfOthers(o, s, e); PostedOfOthers(o, s, e); }
      PhaseOfVad(o, s, e); PauseOfOthers(o, s, e);
      if e.VFeeds? { HealthOfFeeding(o, s); } else { HealthOfVad(o, s, e); }
    } else if OfSender(e) {
      FedOfOthers(o, s, e); PhaseOfSender(o, s, e);
      if e.SHandles? { PauseOfHandling(o, s); }
      else if e.SSends? || e.SGets? { PauseOfAsking(o, s, e); }
      else { PauseOfSender(o, s, e); }
      QueueFits(s);
      if e.SHandles? { HealthOfHandling(o, s); } else if e.SStops? { HealthOfStopping(o, s); } else { HealthOfTaking(o, s, e); }
      if e.STakes? { QueuedOfTaking(o, s); }
      else if e.SChecks? || e.SSends? { QueuedOfDeciding(o, s, e); }
      else { QueuedOfAnswers(o, s, e); }
      if e.SSends? { PostedOfSending(o, s); } else { PostedOfOthers(o, s, e); }
    } else {
      PhaseOfOthers(o, s, e); HealthOfOthers(o, s, e); PauseOfOthers(o, s, e);
      if e.UStart? { FedOfStart(o, s); QueuedOfStart(o, s); PostedOfStart(o, s, k); }
      else { FedOfOthers(o, s, e); QueuedOfOthers(o, s, e); PostedOfOthers(o, s, e); }
    }
  }

  lemma QueueFits(s: State)
    requires Queued(s)
    ensures |s.shared.queue| <= |s.emitted|
  {
    hide FateCount;
  }

  predicate CanRun(o: Oracle, s: State, events: seq<Event>)
    decreases |events|
  {
    events == [] || (Enabled(s, events[0]) && CanRun(o, Apply(o, s, events[0]), events[1..]))
  }

  function Run(o: Oracle, s: State, events: seq<Event>): State
    requires CanRun(o, s, events)
    decreases |events|
  {
    if events == [] then s else Run(o, Apply(o, s, events[0]), events[1..])
  }

  lemma {:induction false} RunKeepsInv(o: Oracle, s: State, events: seq<Event>, k: nat)
    requires Inv(o, s, k) && CanRun(o, s, events)
    ensures Inv(o, Run(o, s, events), k)
    decreases |events|
  {
    hide Inv, Apply, Enabled;
    if events != [] {
      StepKeepsInv(o, s, events[0], k);
      RunKeepsInv(o, Apply(o, s, events[0]), events[1..], k);
    }
  }

  lemma InitialIsInv(o: Oracle, s: State, k: nat)
    requires Initial(s, k)
    ensures Inv(o, s, k)
  {
    hide Pow2, SlicesAfter, Mod;
    ModSmall(0, WORD);
    NothingEmitted(o);
  }

  // ---------------------------------------------------------------- what every reachable state promises

  ghost predicate Reachable(o: Oracle, t: State, k: nat) {
    exists s: State, events: seq<Event> :: Initial(s, k) && CanRun(o, s, events) && t == Run(o, s, events)
  }

  lemma ReachableIsInv(o: Oracle, t: State, k: nat)
    requires Reachable(o, t, k)
    ensures Inv(o, t, k)
  {
    hide Inv, Initial, CanRun, Run;
    var s: State, events: seq<Event> :| Initial(s, k) && CanRun(o, s, events) && t == Run(o, s, events);
    InitialIsInv(o, s, k);
    RunKeepsInv(o, s, events, k);
  }

  /** All samples the ring accepted in a run, so far if it is the current one. */
  function AcceptedIn(s: State, run: nat): seq<Sample>
    requires run <= |s.archive|
  {
    if run < |s.archive| then s.archive[run] else s.ring.accepted
  }

  lemma PostIsCut(o: Oracle, t: State, k: nat, j: nat)
    requires Inv(o, t, k) && j < |t.posts|
    ensures t.posts[j].run <= |t.archive|
    ensures CutFrom(o, AcceptedIn(t, t.posts[j].run), t.posts[j].index, t.posts[j].emission)
  {
    hide R.Inv, Fed, Queued, Phase, Healthy, Paused, CutFrom;
    if j >= |t.posts| - |t.fates.posted| { EmissionsAreCuts(o, t, k, t.posts[j].index); }
  }

  lemma CutDecodes(o: Oracle, accepted: seq<Sample>, i: nat, x: Emission)
    requires CutFrom(o, accepted, i, x)
    ensures x.slice.From() <= x.slice.closedAt <= |accepted|
    ensures ParseWav(x.segment.wav)
         == Some(Audio(MONO_16K, Quantised(accepted[x.slice.From()..x.slice.closedAt]) + seq(POST_ROLL, _ => 0)))
    ensures Plays(x.segment, accepted[x.slice.From()..x.slice.closedAt])
  {
    hide WavBytes, ParseWav, Quantised, After, Plays;
    EmittedDecodes(o, accepted, |accepted| / WINDOW, i);
  }

  /** End to end: whatever the interleaving and however often the loop was started and stopped, post number j of run r
      carries the segment with its number that VadSpec finds in the samples the ring accepted in run r, and its WAV reads
      back as that contiguous slice, every sample as its 16-bit value, followed by 1600 zeros. Nothing of another run is ever in it. */
  lemma EndToEnd(o: Oracle, t: State, k: nat, j: nat)
    requires Reachable(o, t, k) && j < |t.posts|
    ensures t.posts[j].run <= |t.archive|
    ensures var p := t.posts[j]; var accepted := AcceptedIn(t, p.run); var x := p.emission.slice;
            && p.index < |SlicesAfter(o, accepted)| && x == SlicesAfter(o, accepted)[p.index]
            && x.From() <= x.closedAt <= |accepted|
            && ParseWav(p.emission.segment.wav)
               == Some(Audio(MONO_16K, Quantised(accepted[x.From()..x.closedAt]) + seq(POST_ROLL, _ => 0)))
            && Plays(p.emission.segment, accepted[x.From()..x.closedAt])
  {
    hide Inv, Reachable, ParseWav, Quantised, SlicesAfter, SegmentOf, Slice.From, Plays;
    ReachableIsInv(o, t, k);
    PostIsCut(o, t, k, j);
    CutDecodes(o, AcceptedIn(t, t.posts[j].run), t.posts[j].index, t.posts[j].emission);
  }

  /** Posts go out in emission order, run after run, and every run number is one that has been started. */
  lemma PostsInOrder(o: Oracle, t: State, k: nat, a: nat, b: nat)
    requires Reachable(o, t, k) && a < b < |t.posts|
    ensures Before(t.posts[a], t.posts[b]) && t.posts[b].run <= |t.archive|
  {
    hide Reachable, R.Inv, Fed, Queued, Phase, Healthy, Paused, CutFrom;
    ReachableIsInv(o, t, k);
  }

  /** The queue is the newest part of what has been emitted, five segments at most, and every segment has exactly one
      fate: overflowed, dropped in a pause, refused by a cancelled client, posted, in the sender's hand, or queued. */
  lemma QueueAndFates(o: Oracle, t: State, k: nat, i: nat)
    requires Reachable(o, t, k) && i < |t.emitted|
    ensures |t.shared.queue| <= 5 && |t.shared.queue| <= |t.emitted|
    ensures t.shared.queue == t.emitted[|t.emitted| - |t.shared.queue|..]
    ensures FateCount(t.fates, t.sender, i) + (if i >= |t.emitted| - |t.shared.queue| then 1 else 0) == 1
  {
    hide Reachable, R.Inv, Fed, Posted, Phase, Healthy, Paused, FateCount;
    ReachableIsInv(o, t, k);
  }

  lemma FeedLoses(o: Oracle, s: State)
    requires Queued(s) && Enabled(s, VFeeds)
    ensures var f := Feed(o, s).fates;
            && f.pauseDropped == s.fates.pauseDropped
            && (f.overflow != s.fates.overflow ==>
                  |s.shared.queue| == 5 && f.overflow == s.fates.overflow + {|s.emitted| - 5})
  {
    hide SlicesAfter, SegmentOf, Enqueued, R.Enabled, FateCount;
    if s.vad.rest != [] {
      FeedShape(o, s);
      hide Feed;
    }
  }

  /** A segment is lost to a newer one only when five are waiting, and then it is the oldest of them; one is lost to a pause
      only while that lasts. */
  lemma LossesMean(o: Oracle, t: State, k: nat, e: Event)
    requires Reachable(o, t, k) && Enabled(t, e) && !e.UStart?
    ensures var f := Apply(o, t, e).fates;
            && (f.overflow != t.fates.overflow ==>
                  e.VFeeds? && |t.shared.queue| == 5 && f.overflow == t.fates.overflow + {|t.emitted| - 5})
            && (f.pauseDropped != t.fates.pauseDropped ==> e.SChecks? && t.now < t.pausedUntil)
  {
    hide Reachable, R.Inv, R.Apply, R.Enabled, Fed, Posted, Phase, Healthy, Paused, Answered, FateCount, Feed, WithHealth;
    ReachableIsInv(o, t, k);
    if e.VFeeds? { FeedLoses(o, t); }
  }

  /** Of all runs: a POST that follows a 429 begins at least 10 s after it, or belongs to a later run. */
  lemma RateLimitRespected(o: Oracle, t: State, k: nat, l: Limit, j: nat)
    requires Reachable(o, t, k) && l in t.limits && l.postsBefore <= j < |t.posts|
    ensures t.posts[j].run > l.run || l.at + 10_000_000_000 <= t.posts[j].at
  {
    hide Reachable, R.Inv, Fed, Posted, Phase, Healthy, Answered, Queued;
    ReachableIsInv(o, t, k);
  }

  /** Once stop() has cancelled the client no POST begins until the next start(). */
  lemma QuietAfterCancel(o: Oracle, t: State, e: Event)
    requires t.cancelled && Enabled(t, e)
    ensures Apply(o, t, e).posts == t.posts
    ensures !e.UStart? ==> Apply(o, t, e).cancelled
  {
    hide R.Enabled, R.Apply, SlicesAfter, SegmentOf, Enqueued, WithHealth;
  }

  /** After a give-up no POST can begin, and the dock is told the reason until stop() is through. */
  lemma GivenUpStaysGivenUp(o: Oracle, t: State, k: nat, e: Event)
    requires Reachable(o, t, k) && t.gaveUp.Some?
    ensures !Enabled(t, SSends) && Reported(t.shared, t.now).state == t.gaveUp.value
    ensures Enabled(t, e) && !e.USetIdle? ==> Apply(o, t, e).gaveUp == t.gaveUp
  {
    hide Reachable, R.Inv, Fed, Posted, Queued, Paused, R.Enabled, R.Apply, SlicesAfter, SegmentOf, Enqueued;
    ReachableIsInv(o, t, k);
  }

  /** The sender gives up for a 401 or a 403 and for nothing else, and such an answer is the last one of its run. */
  lemma GivesUpForItsAnswer(o: Oracle, t: State, k: nat, i: nat)
    requires Reachable(o, t, k) && i < |t.answers|
    ensures Verdict(t.answers[i]).Some? ==> i == |t.answers| - 1
    ensures t.gaveUp.Some? ==> t.gaveUp == Verdict(t.answers[|t.answers| - 1])
  {
    hide Reachable, R.Inv, Fed, Posted, Queued, Paused, PhaseInv;
    ReachableIsInv(o, t, k);
  }

  /** A worker that gives up has told the dock why, and its next step raises the stop flag for the other one and ends it. */
  lemma GivingUpStops(o: Oracle, t: State, k: nat)
    requires Reachable(o, t, k)
    ensures Enabled(t, VLoadFailed) ==>
      var u := Apply(o, t, VLoadFailed); u.vad.VGivingUp? && u.gaveUp == Some(VadFailed) && Reported(u.shared, u.now).state == VadFailed
    ensures t.vad.VGivingUp? ==>
      && Reported(t.shared, t.now).state == VadFailed
      && Enabled(t, VStops) && Apply(o, t, VStops).vad.VExited? && Apply(o, t, VStops).shared.stop
    ensures t.sender.SGivingUp? ==>
      && Reported(t.shared, t.now).state == t.sender.reason
      && Enabled(t, SStops) && Apply(o, t, SStops).sender.SExited? && Apply(o, t, SStops).shared.stop
  {
    hide Reachable, R.Inv, Fed, Posted, Queued, Paused, Phase, Answered, R.Enabled, R.Apply;
    ReachableIsInv(o, t, k);
  }

  /** clear() only ever runs with both sides of the ring at rest. */
  lemma ClearIsQuiescent(o: Oracle, t: State, k: nat)
    requires Reachable(o, t, k) && t.ui.UReady? && t.vad.VNone?
    ensures t.ring.writer.WIdle? && t.ring.reader.RIdle? && Enabled(t, UStart)
  {
    hide Reachable, Inv;
    ReachableIsInv(o, t, k);
    GuardsHold(o, t, k);
  }
}
