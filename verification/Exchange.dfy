/** The dialogue between the controller's `exchange` and the child's `Serve`, over
    frames that the wire layer has already delivered. */
module Exchange {
  import opened Basics

  const MAX_HEARTBEATS := 32

  datatype Binding = Binding(
    task: string, operation: string, attempt: string, lease: string, generation: nat,
    correlation: string, offer: string, worker: string, provider: string, model: string)

  datatype Job = Job(
    taskId: string, operationId: string, attemptId: string, leaseId: string, generation: nat,
    correlationId: string, messageId: string, worker: string, provider: string, model: string,
    input: string, outputBytes: int, units: int)

  function Bind(j: Job): Binding {
    Binding(j.taskId, j.operationId, j.attemptId, j.leaseId, j.generation,
            j.correlationId, j.messageId, j.worker, j.provider, j.model)
  }

  datatype Claim = Claim(output: string, units: int)

  datatype Frame = Frame(
    kind: string, binding: Binding, job: Option<Job>, claim: Option<Claim>, reason: string, pid: int)

  /** The error classes the transport distinguishes; a refused heartbeat passes
      through unchanged. */
  datatype Fault = Wire | Limit | Provider | Unsupported | Timeout | WasCancelled | Refused(code: int)

  datatype Reply<+T> = Good(value: T) | Bad(fault: Fault)

  datatype End = CleanEof | WireError

  /** The controller's surroundings: whether its k-th write succeeds (write 0 is the
      job) and what its k-th heartbeat call answers. */
  datatype World = World(writes: nat -> bool, beats: nat -> Option<Fault>)

  predicate WithinLimits(j: Job, c: Claim) {
    |c.output| <= j.outputBytes && 0 <= c.units <= j.units
  }

  // ---- the controller -------------------------------------------------------

  /** Reading frames, or holding a result until the stream ends, or finished; each
      with the number of continue frames sent. */
  datatype Controller =
    | Reading(sent: nat)
    | Holding(claim: Claim, sent: nat)
    | Finished(result: Reply<Claim>, sent: nat)

  function ErrorFault(reason: string): Fault {
    if reason == "provider_failed" then Provider
    else if reason == "budget_exceeded" then Limit
    else if reason == "unsupported" then Unsupported
    else if reason == "timeout" then Timeout
    else if reason == "cancelled" then WasCancelled
    else Wire
  }

  /** One frame while reading; every heartbeat so far was answered, so the count of
      continue frames is also the count of heartbeats. */
  function OnFrame(w: World, j: Job, pid: int, c: Controller, f: Frame): Controller {
    match c
    case Finished(_, _) => c
    case Holding(_, sent) => Finished(Bad(Wire), sent)
    case Reading(sent) =>
      if f.binding != Bind(j) || f.pid != pid || f.job.Some? then Finished(Bad(Wire), sent)
      else if f.kind == "heartbeat" then
        if f.claim.Some? || f.reason != "" || sent >= MAX_HEARTBEATS then Finished(Bad(Wire), sent)
        else if w.beats(sent).Some? then Finished(Bad(w.beats(sent).value), sent)
        else if !w.writes(sent + 1) then Finished(Bad(Wire), sent)
        else Reading(sent + 1)
      else if f.kind == "result" then
        if f.claim.None? || f.reason != "" then Finished(Bad(Wire), sent)
        else if !WithinLimits(j, f.claim.value) then Finished(Bad(Limit), sent)
        else Holding(f.claim.value, sent)
      else if f.kind == "error" then
        if f.claim.Some? then Finished(Bad(Wire), sent) else Finished(Bad(ErrorFault(f.reason)), sent)
      else Finished(Bad(Wire), sent)
  }

  function OnEnd(c: Controller, end: End): Controller {
    match c
    case Finished(_, _) => c
    case Reading(sent) => Finished(Bad(Wire), sent)
    case Holding(claim, sent) => Finished(if end == CleanEof then Good(claim) else Bad(Wire), sent)
  }

  function Feed(w: World, j: Job, pid: int, c: Controller, frames: seq<Frame>): Controller
    decreases |frames|
  {
    if frames == [] then c else Feed(w, j, pid, OnFrame(w, j, pid, c, frames[0]), frames[1..])
  }

  /** `exchange` against a child that sends these frames and then ends like that. */
  function Exchanged(w: World, j: Job, pid: int, frames: seq<Frame>, end: End): Controller {
    if !w.writes(0) then Finished(Bad(Wire), 0)
    else OnEnd(Feed(w, j, pid, Reading(0), frames), end)
  }

  /** The child's output as the controller consumes it. */
  class Stream {
    var frames: seq<Frame>
    const end: End

    method ReadFrame() returns (f: Option<Frame>)
      modifies this
      ensures old(frames) == [] ==> f == None && frames == []
      ensures old(frames) != [] ==> f == Some(old(frames)[0]) && frames == old(frames)[1..]
    {
      if frames == [] {
        return None;
      }
      f := Some(frames[0]);
      frames := frames[1..];
    }
  }

  lemma FeedFinished(w: World, j: Job, pid: int, c: Controller, frames: seq<Frame>)
    requires c.Finished?
    ensures Feed(w, j, pid, c, frames) == c
    decreases |frames|
  {
  }

  lemma FeedOne(w: World, j: Job, pid: int, c: Controller, f: Frame)
    ensures Feed(w, j, pid, c, [f]) == OnFrame(w, j, pid, c, f)
  {
    assert [f][1..] == [];
  }

  lemma FeedHolding(w: World, j: Job, pid: int, c: Controller, frames: seq<Frame>)
    requires c.Holding? && frames != []
    ensures Feed(w, j, pid, c, frames) == Finished(Bad(Wire), c.sent)
  {
    FeedFinished(w, j, pid, Finished(Bad(Wire), c.sent), frames[1..]);
  }

  /** The read loop with its heartbeat counter. */
  method Converse(w: World, j: Job, pid: int, output: Stream) returns (result: Reply<Claim>, sent: nat)
    modifies output
    ensures Finished(result, sent) == Exchanged(w, j, pid, old(output.frames), output.end)
  {
    sent := 0;
    if !w.writes(0) {
      return Bad(Wire), sent;
    }
    var beats := 0;
    while true
      invariant beats == sent
      invariant Feed(w, j, pid, Reading(0), old(output.frames)) == Feed(w, j, pid, Reading(sent), output.frames)
      decreases |output.frames|
    {
      ghost var left := output.frames;
      var read := output.ReadFrame();
      if read == None {
        return Bad(Wire), sent;
      }
      var f := read.value;
      ghost var c := OnFrame(w, j, pid, Reading(sent), f);
      assert Feed(w, j, pid, Reading(sent), left) == Feed(w, j, pid, c, output.frames);
      if c.Finished? {
        FeedFinished(w, j, pid, c, output.frames);
      }
      if f.binding != Bind(j) || f.pid != pid || f.job.Some? {
        return Bad(Wire), sent;
      }
      if f.kind == "heartbeat" {
        if f.claim.Some? || f.reason != "" || beats >= MAX_HEARTBEATS {
          return Bad(Wire), sent;
        }
        var answer := w.beats(beats);
        if answer.Some? {
          return Bad(answer.value), sent;
        }
        if !w.writes(beats + 1) {
          return Bad(Wire), sent;
        }
        beats := beats + 1;
        sent := sent + 1;
      } else if f.kind == "result" {
        if f.claim.None? || f.reason != "" {
          return Bad(Wire), sent;
        }
        if |f.claim.value.output| > j.outputBytes || f.claim.value.units < 0 || f.claim.value.units > j.units {
          return Bad(Limit), sent;
        }
        if output.frames != [] {
          FeedHolding(w, j, pid, c, output.frames);
        }
        var after := output.ReadFrame();
        if after != None || output.end != CleanEof {
          return Bad(Wire), sent;
        }
        return Good(f.claim.value), sent;
      } else if f.kind == "error" {
        if f.claim.Some? {
          return Bad(Wire), sent;
        }
        return Bad(ErrorFault(f.reason)), sent;
      } else {
        return Bad(Wire), sent;
      }
    }
  }

  // ---- which streams yield a claim ------------------------------------------

  function HeartbeatFrame(j: Job, pid: int): Frame {
    Frame("heartbeat", Bind(j), None, None, "", pid)
  }

  function ResultFrame(j: Job, pid: int, c: Claim): Frame {
    Frame("result", Bind(j), None, Some(c), "", pid)
  }

  function ErrorFrame(j: Job, pid: int, reason: string): Frame {
    Frame("error", Bind(j), None, None, reason, pid)
  }

  /** Some heartbeats and then one result, and nothing else. */
  ghost predicate CleanDialogue(j: Job, pid: int, frames: seq<Frame>, k: nat, c: Claim) {
    && |frames| == k + 1
    && (forall i :: 0 <= i < k ==> frames[i] == HeartbeatFrame(j, pid))
    && frames[k] == ResultFrame(j, pid, c)
  }

  /** The k-th heartbeat call succeeds and so does the continue frame after it. */
  predicate Answered(w: World, k: nat) {
    w.beats(k) == None && w.writes(k + 1)
  }

  ghost predicate Undisturbed(w: World, from: nat, to: nat) {
    forall i: nat :: from <= i < to ==> Answered(w, i)
  }

  lemma UndisturbedTail(w: World, from: nat, to: nat)
    requires from < to
    ensures Undisturbed(w, from, to) <==> Answered(w, from) && Undisturbed(w, from + 1, to)
  {
    hide Answered;
  }

  /** From a controller that has answered `sent` heartbeats. */
  lemma {:induction false} FeedExact(w: World, j: Job, pid: int, sent: nat, frames: seq<Frame>, end: End, c: Claim, total: nat)
    ensures OnEnd(Feed(w, j, pid, Reading(sent), frames), end) == Finished(Good(c), total) <==>
            && end == CleanEof && sent <= total && (total == sent || total <= MAX_HEARTBEATS)
            && CleanDialogue(j, pid, frames, total - sent, c)
            && Undisturbed(w, sent, total) && WithinLimits(j, c)
    decreases |frames|
  {
    if frames != [] {
      var f := frames[0];
      var next := OnFrame(w, j, pid, Reading(sent), f);
      if total > sent {
        UndisturbedTail(w, sent, total);
      }
      match next
      case Finished(_, _) =>
        FeedFinished(w, j, pid, next, frames[1..]);
      case Holding(claim, _) =>
        if frames[1..] != [] {
          FeedHolding(w, j, pid, next, frames[1..]);
        }
        assert f == ResultFrame(j, pid, claim);
      case Reading(_) =>
        assert f == HeartbeatFrame(j, pid);
        FeedExact(w, j, pid, sent + 1, frames[1..], end, c, total);
        if total > sent {
          DialogueTail(j, pid, frames, total - sent, c);
        }
    }
  }

  lemma DialogueTail(j: Job, pid: int, frames: seq<Frame>, k: nat, c: Claim)
    requires frames != [] && frames[0] == HeartbeatFrame(j, pid) && k > 0
    ensures CleanDialogue(j, pid, frames, k, c) <==> CleanDialogue(j, pid, frames[1..], k - 1, c)
  {
    assert forall i :: 0 <= i < |frames[1..]| ==> frames[1..][i] == frames[i + 1];
    if CleanDialogue(j, pid, frames[1..], k - 1, c) {
      forall i | 0 <= i < k
        ensures frames[i] == HeartbeatFrame(j, pid)
      {
        if i > 0 {
          assert frames[i] == frames[1..][i - 1];
        }
      }
    }
  }

  /** A claim is returned exactly when the child's stream is at most 32 heartbeats,
      one result within limits and a clean end, all bound to this job and process,
      and every heartbeat call and write succeeds; then one continue frame was sent
      per heartbeat. */
  lemma ClaimExact(w: World, j: Job, pid: int, frames: seq<Frame>, end: End, c: Claim, k: nat)
    ensures Exchanged(w, j, pid, frames, end) == Finished(Good(c), k) <==>
            && w.writes(0) && end == CleanEof && k <= 32
            && CleanDialogue(j, pid, frames, k, c)
            && Undisturbed(w, 0, k) && WithinLimits(j, c)
  {
    FeedExact(w, j, pid, 0, frames, end, c, k);
  }

  /** The frame that ends a conversation with a fault of its own, after `k` answered
      heartbeats: a heartbeat whose call was refused, a result beyond its limits, or
      an error with a known reason. */
  predicate Faulty(w: World, j: Job, pid: int, f: Frame, k: nat, fault: Fault) {
    && f.binding == Bind(j) && f.pid == pid && f.job == None
    && ((f == HeartbeatFrame(j, pid) && k < MAX_HEARTBEATS && w.beats(k) == Some(fault))
        || (f.kind == "result" && f.reason == "" && f.claim.Some? && fault == Limit
            && (|f.claim.value.output| > j.outputBytes || f.claim.value.units < 0 || f.claim.value.units > j.units))
        || (f.kind == "error" && f.claim == None
            && (f.reason, fault) in {("provider_failed", Provider), ("budget_exceeded", Limit), ("unsupported", Unsupported),
                                     ("timeout", Timeout), ("cancelled", WasCancelled)}))
  }

  /** From a controller that has answered `sent` heartbeats. */
  lemma {:induction false} FeedFaults(w: World, j: Job, pid: int, sent: nat, frames: seq<Frame>, end: End, fault: Fault, total: nat)
    requires fault != Wire
    ensures OnEnd(Feed(w, j, pid, Reading(sent), frames), end) == Finished(Bad(fault), total) <==>
            && sent <= total && (total == sent || total <= MAX_HEARTBEATS) && total - sent < |frames|
            && (forall i :: 0 <= i < total - sent ==> frames[i] == HeartbeatFrame(j, pid))
            && Undisturbed(w, sent, total) && Faulty(w, j, pid, frames[total - sent], total, fault)
    decreases |frames|
  {
    hide Faulty, Undisturbed;
    if frames != [] {
      var f := frames[0];
      var next := OnFrame(w, j, pid, Reading(sent), f);
      FaultyNow(w, j, pid, sent, f, fault);
      match next
      case Finished(_, _) =>
        FeedFinished(w, j, pid, next, frames[1..]);
        NoneBetween(w, sent);
        if total > sent && f == HeartbeatFrame(j, pid) {
          UndisturbedTail(w, sent, total);
        }
      case Holding(claim, _) =>
        if frames[1..] != [] {
          FeedHolding(w, j, pid, next, frames[1..]);
        }
      case Reading(_) =>
        FeedFaults(w, j, pid, sent + 1, frames[1..], end, fault, total);
        if total > sent {
          UndisturbedTail(w, sent, total);
          assert forall i :: 0 <= i < |frames[1..]| ==> frames[1..][i] == frames[i + 1];
          assert forall i :: 1 <= i < |frames| ==> frames[i] == frames[1..][i - 1];
        }
    } else {
      assert !(sent <= total && total - sent < |frames|);
    }
  }

  lemma FaultyNow(w: World, j: Job, pid: int, sent: nat, f: Frame, fault: Fault)
    requires fault != Wire
    ensures Faulty(w, j, pid, f, sent, fault) <==> OnFrame(w, j, pid, Reading(sent), f) == Finished(Bad(fault), sent)
    ensures OnFrame(w, j, pid, Reading(sent), f).Reading? ==>
              f == HeartbeatFrame(j, pid) && Answered(w, sent) && OnFrame(w, j, pid, Reading(sent), f) == Reading(sent + 1)
              && sent < MAX_HEARTBEATS
    ensures f == HeartbeatFrame(j, pid) && OnFrame(w, j, pid, Reading(sent), f).Finished? ==>
              !Answered(w, sent) || sent >= MAX_HEARTBEATS
    ensures OnFrame(w, j, pid, Reading(sent), f).Holding? ==> f.kind == "result"
  {
  }

  lemma NoneBetween(w: World, from: nat)
    ensures Undisturbed(w, from, from)
  {
  }

  /** The conversation ends with a fault other than a wire error exactly when some
      answered heartbeats are followed by a frame that says so; with `ClaimExact` this
      leaves a wire error for every other stream. */
  lemma FaultExact(w: World, j: Job, pid: int, frames: seq<Frame>, end: End, fault: Fault, k: nat)
    requires fault != Wire
    ensures Exchanged(w, j, pid, frames, end) == Finished(Bad(fault), k) <==>
            && w.writes(0) && k <= 32 && k < |frames|
            && (forall i :: 0 <= i < k ==> frames[i] == HeartbeatFrame(j, pid))
            && Undisturbed(w, 0, k) && Faulty(w, j, pid, frames[k], k, fault)
  {
    hide Faulty, Undisturbed;
    FeedFaults(w, j, pid, 0, frames, end, fault, k);
  }

  // ---- the child ------------------------------------------------------------

  /** What the provider does after the job is accepted: a number of checkpoints and
      then a claim or an error. */
  datatype Program = Program(beats: nat, outcome: Reply<Claim>)

  function ReasonFor(f: Fault): string {
    match f
    case Limit => "budget_exceeded"
    case Unsupported => "unsupported"
    case Timeout => "timeout"
    case WasCancelled => "cancelled"
    case _ => "provider_failed"
  }

  function LastFrame(j: Job, pid: int, outcome: Reply<Claim>): Frame {
    match outcome
    case Good(c) => ResultFrame(j, pid, c)
    case Bad(f) => ErrorFrame(j, pid, ReasonFor(f))
  }

  predicate IsContinue(j: Job, f: Frame) {
    f == Frame("continue", Bind(j), None, None, "", 0)
  }

  /** Everything the child sends when it reads these frames after its job. */
  function Served(j: Job, pid: int, p: Program, done: nat, input: seq<Frame>): seq<Frame>
    decreases |input|
  {
    if done >= p.beats then [LastFrame(j, pid, p.outcome)]
    else if done >= MAX_HEARTBEATS then [LastFrame(j, pid, Bad(Limit))]
    else if input == [] || !IsContinue(j, input[0]) then [HeartbeatFrame(j, pid), LastFrame(j, pid, Bad(Wire))]
    else [HeartbeatFrame(j, pid)] + Served(j, pid, p, done + 1, input[1..])
  }

  /** `Serve` after its job was accepted, with the heartbeat counter of its closure. */
  method Serve(j: Job, pid: int, p: Program, input: Stream) returns (out: seq<Frame>)
    modifies input
    ensures out == Served(j, pid, p, 0, old(input.frames))
  {
    hide LastFrame, HeartbeatFrame, IsContinue;
    out := [];
    var heartbeats := 0;
    while heartbeats < p.beats
      invariant heartbeats <= p.beats
      invariant out + Served(j, pid, p, heartbeats, input.frames) == Served(j, pid, p, 0, old(input.frames))
      decreases p.beats - heartbeats
    {
      if heartbeats >= MAX_HEARTBEATS {
        out := out + [LastFrame(j, pid, Bad(Limit))];
        return;
      }
      ghost var before, left := out, input.frames;
      out := out + [HeartbeatFrame(j, pid)];
      var ack := input.ReadFrame();
      if ack == None || !IsContinue(j, ack.value) {
        out := out + [LastFrame(j, pid, Bad(Wire))];
        assert out == before + Served(j, pid, p, heartbeats, left);
        return;
      }
      assert before + ([HeartbeatFrame(j, pid)] + Served(j, pid, p, heartbeats + 1, left[1..])) ==
             out + Served(j, pid, p, heartbeats + 1, left[1..]);
      heartbeats := heartbeats + 1;
    }
    out := out + [LastFrame(j, pid, p.outcome)];
  }

  /** So many heartbeats and then one last frame. */
  function Beating(j: Job, pid: int, n: nat, last: Frame): (out: seq<Frame>)
    ensures |out| == n + 1 && out[n] == last && forall i :: 0 <= i < n ==> out[i] == HeartbeatFrame(j, pid)
    decreases n
  {
    if n == 0 then [last] else [HeartbeatFrame(j, pid)] + Beating(j, pid, n - 1, last)
  }

  /** The child sends one heartbeat per checkpoint as long as each before it was
      answered, and then one last frame: its outcome; the exceeded budget after 32
      answers; or, when an answer is missing or wrong, a failure of the provider. */
  lemma {:induction false} ServedExact(j: Job, pid: int, p: Program, done: nat, input: seq<Frame>, n: nat)
    requires n <= |input| && (forall i :: 0 <= i < n ==> IsContinue(j, input[i]))
    requires n == |input| || !IsContinue(j, input[n])
    requires done <= MAX_HEARTBEATS && done <= p.beats
    ensures Served(j, pid, p, done, input) ==
            if p.beats <= MAX_HEARTBEATS && p.beats - done <= n then
              Beating(j, pid, p.beats - done, LastFrame(j, pid, p.outcome))
            else if p.beats > MAX_HEARTBEATS && MAX_HEARTBEATS - done <= n then
              Beating(j, pid, MAX_HEARTBEATS - done, ErrorFrame(j, pid, "budget_exceeded"))
            else
              Beating(j, pid, n + 1, ErrorFrame(j, pid, "provider_failed"))
    decreases |input|
  {
    hide HeartbeatFrame, IsContinue, ErrorFrame, ResultFrame;
    if done < p.beats && done < MAX_HEARTBEATS {
      if n == 0 {
        assert Beating(j, pid, 1, ErrorFrame(j, pid, "provider_failed")) ==
               [HeartbeatFrame(j, pid), ErrorFrame(j, pid, "provider_failed")];
      } else {
        ServedExact(j, pid, p, done + 1, input[1..], n - 1);
      }
    }
  }

  // ---- both ends together ---------------------------------------------------

  /** The frames that cross when the controller answers each heartbeat while it is
      still reading, and the child goes on after each answer. */
  function Dialogue(w: World, j: Job, pid: int, p: Program, c: Controller, done: nat): Controller
    requires done <= MAX_HEARTBEATS
    decreases MAX_HEARTBEATS - done
  {
    if done >= p.beats then OnEnd(OnFrame(w, j, pid, c, LastFrame(j, pid, p.outcome)), CleanEof)
    else if done >= MAX_HEARTBEATS then OnEnd(OnFrame(w, j, pid, c, LastFrame(j, pid, Bad(Limit))), CleanEof)
    else
      var next := OnFrame(w, j, pid, c, HeartbeatFrame(j, pid));
      if next.Reading? then Dialogue(w, j, pid, p, next, done + 1) else OnEnd(next, WireError)
  }

  /** The continue frames a controller sends while `n` heartbeats go well. */
  function Continues(j: Job, n: nat): seq<Frame> {
    seq(n, i requires 0 <= i < n => Frame("continue", Bind(j), None, None, "", 0))
  }

  /** The two ends on each other's output: the child reads `n` continue frames after
      its job, and the controller reads what the child then sends. */
  function Joined(w: World, j: Job, pid: int, p: Program, n: nat): Controller {
    Exchanged(w, j, pid, Served(j, pid, p, 0, Continues(j, n)), CleanEof)
  }

  /** The same from a point where `sent` heartbeats have been answered. */
  function JoinedFrom(w: World, j: Job, pid: int, p: Program, sent: nat, n: nat): Controller {
    OnEnd(Feed(w, j, pid, Reading(sent), Served(j, pid, p, sent, Continues(j, n))), CleanEof)
  }

  lemma JoinedStep(w: World, j: Job, pid: int, p: Program, sent: nat, n: nat)
    requires sent < p.beats && sent < MAX_HEARTBEATS
    ensures var next := OnFrame(w, j, pid, Reading(sent), HeartbeatFrame(j, pid));
            && (next == Reading(sent + 1) || (next.Finished? && next.sent == sent))
            && (next.Finished? ==> JoinedFrom(w, j, pid, p, sent, n) == next)
            && (next.Reading? && n > 0 ==> JoinedFrom(w, j, pid, p, sent, n) == JoinedFrom(w, j, pid, p, sent + 1, n - 1))
            && (next.Reading? && n == 0 ==> JoinedFrom(w, j, pid, p, sent, n).sent == sent + 1)
  {
    var next := OnFrame(w, j, pid, Reading(sent), HeartbeatFrame(j, pid));
    var more := Continues(j, n);
    var served := Served(j, pid, p, sent, more);
    assert served[0] == HeartbeatFrame(j, pid);
    if next.Finished? {
      FeedFinished(w, j, pid, next, served[1..]);
    } else if n > 0 {
      assert more[1..] == Continues(j, n - 1);
      assert served[1..] == Served(j, pid, p, sent + 1, more[1..]);
    } else {
      assert served[1..] == [LastFrame(j, pid, Bad(Wire))];
      FeedOne(w, j, pid, next, LastFrame(j, pid, Bad(Wire)));
    }
  }

  lemma JoinedEnd(w: World, j: Job, pid: int, p: Program, sent: nat, n: nat)
    requires sent <= MAX_HEARTBEATS && (sent >= p.beats || sent >= MAX_HEARTBEATS)
    ensures JoinedFrom(w, j, pid, p, sent, n) == Dialogue(w, j, pid, p, Reading(sent), sent)
    ensures JoinedFrom(w, j, pid, p, sent, n).Finished? && JoinedFrom(w, j, pid, p, sent, n).sent == sent
  {
    FeedOne(w, j, pid, Reading(sent), LastFrame(j, pid, if sent >= p.beats then p.outcome else Bad(Limit)));
  }

  /** The dialogue is what the two ends do on each other's output, whether it goes
      well or not: the child reads the continue frames the controller sent, and the
      controller reads the frames the child sends in return. */
  lemma {:induction false} DialogueIsJoint(w: World, j: Job, pid: int, p: Program, sent: nat)
    requires sent <= MAX_HEARTBEATS
    ensures var last := Dialogue(w, j, pid, p, Reading(sent), sent);
            && last.Finished? && last.sent >= sent
            && JoinedFrom(w, j, pid, p, sent, last.sent - sent) == last
    decreases MAX_HEARTBEATS - sent
  {
    hide JoinedFrom, OnFrame, LastFrame;
    if sent < p.beats && sent < MAX_HEARTBEATS {
      var next := OnFrame(w, j, pid, Reading(sent), HeartbeatFrame(j, pid));
      JoinedStep(w, j, pid, p, sent, 0);
      if next.Reading? {
        DialogueIsJoint(w, j, pid, p, sent + 1);
        var last := Dialogue(w, j, pid, p, Reading(sent + 1), sent + 1);
        JoinedStep(w, j, pid, p, sent, last.sent - sent);
      }
    } else {
      JoinedEnd(w, j, pid, p, sent, 0);
    }
  }

  /** There is only one way in which the ends can fit together: when the child has
      read exactly the continue frames that the controller sent. */
  lemma {:induction false} JointIsDialogue(w: World, j: Job, pid: int, p: Program, sent: nat, n: nat)
    requires sent <= MAX_HEARTBEATS && JoinedFrom(w, j, pid, p, sent, n).sent == sent + n
    ensures JoinedFrom(w, j, pid, p, sent, n) == Dialogue(w, j, pid, p, Reading(sent), sent)
    decreases MAX_HEARTBEATS - sent
  {
    hide JoinedFrom, OnFrame, LastFrame;
    if sent < p.beats && sent < MAX_HEARTBEATS {
      JoinedStep(w, j, pid, p, sent, n);
      if OnFrame(w, j, pid, Reading(sent), HeartbeatFrame(j, pid)).Reading? {
        JointIsDialogue(w, j, pid, p, sent + 1, n - 1);
      }
    } else {
      JoinedEnd(w, j, pid, p, sent, n);
    }
  }

  /** The class of error the controller ends with when the provider failed. */
  function ClassOf(f: Fault): Fault {
    if f in {Limit, Unsupported, Timeout, WasCancelled} then f else Provider
  }

  function Expected(j: Job, p: Program): Reply<Claim> {
    if p.beats > MAX_HEARTBEATS then Bad(Limit)
    else
      match p.outcome
      case Good(c) => if WithinLimits(j, c) then Good(c) else Bad(Limit)
      case Bad(f) => Bad(ClassOf(f))
  }

  /** Undisturbed, the controller ends with the provider's own claim, or with the
      class of the provider's error. */
  lemma {:induction false} DialogueDelivers(w: World, j: Job, pid: int, p: Program, done: nat)
    requires done <= MAX_HEARTBEATS && done <= p.beats && Undisturbed(w, done, MAX_HEARTBEATS)
    ensures var last := Dialogue(w, j, pid, p, Reading(done), done);
            last.Finished? && last.result == Expected(j, p)
            && last.sent == if p.beats <= MAX_HEARTBEATS then p.beats else MAX_HEARTBEATS
    decreases MAX_HEARTBEATS - done
  {
    if done < p.beats && done < MAX_HEARTBEATS {
      UndisturbedTail(w, done, MAX_HEARTBEATS);
      DialogueDelivers(w, j, pid, p, done + 1);
    }
  }

  /** Both ends together, undisturbed: they fit together in exactly one way, and the
      controller then ends with the provider's own claim or the class of its error,
      having sent one continue frame for each checkpoint it allowed. */
  lemma EndsDeliver(w: World, j: Job, pid: int, p: Program, n: nat)
    requires w.writes(0) && Undisturbed(w, 0, MAX_HEARTBEATS)
    ensures Joined(w, j, pid, p, n).sent == n <==> n == if p.beats <= MAX_HEARTBEATS then p.beats else MAX_HEARTBEATS
    ensures Joined(w, j, pid, p, n).sent == n ==> Joined(w, j, pid, p, n) == Finished(Expected(j, p), n)
  {
    DialogueIsJoint(w, j, pid, p, 0);
    DialogueDelivers(w, j, pid, p, 0);
    if Joined(w, j, pid, p, n).sent == n {
      JointIsDialogue(w, j, pid, p, 0, n);
    }
  }

  /** Whatever the child reads after its job, and however the stream and the
      controller's surroundings behave, a claim that arrives is the provider's own. */
  lemma {:induction false} ServedHonest(w: World, j: Job, pid: int, p: Program, done: nat, sent: nat, input: seq<Frame>, end: End)
    ensures var last := OnEnd(Feed(w, j, pid, Reading(sent), Served(j, pid, p, done, input)), end);
            last.Finished? && (last.result.Good? ==> p.outcome == last.result && WithinLimits(j, last.result.value))
    decreases |input|
  {
    if done < p.beats && done < MAX_HEARTBEATS {
      var next := OnFrame(w, j, pid, Reading(sent), HeartbeatFrame(j, pid));
      var served := Served(j, pid, p, done, input);
      assert served[0] == HeartbeatFrame(j, pid);
      if next.Finished? {
        FeedFinished(w, j, pid, next, served[1..]);
      } else if input != [] && IsContinue(j, input[0]) {
        assert served[1..] == Served(j, pid, p, done + 1, input[1..]);
        ServedHonest(w, j, pid, p, done + 1, sent + 1, input[1..], end);
      } else {
        assert served[1..] == [LastFrame(j, pid, Bad(Wire))];
        FeedOne(w, j, pid, next, LastFrame(j, pid, Bad(Wire)));
      }
    } else {
      FeedOne(w, j, pid, Reading(sent), LastFrame(j, pid, if done >= p.beats then p.outcome else Bad(Limit)));
    }
  }

  /** Both ends together, whatever goes wrong in between. */
  lemma EndsHonest(w: World, j: Job, pid: int, p: Program, input: seq<Frame>, end: End)
    ensures var last := Exchanged(w, j, pid, Served(j, pid, p, 0, input), end);
            last.Finished? && (last.result.Good? ==> p.outcome == last.result && WithinLimits(j, last.result.value))
  {
    ServedHonest(w, j, pid, p, 0, 0, input, end);
  }

  lemma DialogueHonest(w: World, j: Job, pid: int, p: Program, done: nat)
    requires done <= MAX_HEARTBEATS
    ensures var last := Dialogue(w, j, pid, p, Reading(done), done);
            last.Finished? && (last.result.Good? ==> p.outcome == last.result && WithinLimits(j, last.result.value))
  {
    DialogueIsJoint(w, j, pid, p, done);
    var n := Dialogue(w, j, pid, p, Reading(done), done).sent - done;
    ServedHonest(w, j, pid, p, done, done, Continues(j, n), CleanEof);
  }
}
