/** What each case of the message-queue main routine does, as functions: the tracker
    handshake and the send side share one select loop. */
module RabbitLogic {
  import opened Defs
  import opened Mq
  import opened Trackers
  import opened SendCache

  datatype Rabbit = Rabbit(tracks: Handshake, sending: Sending, queue: seq<MqData>)

  function Fresh(mode: UserMode): Rabbit {
    Rabbit(Begin(mode), IDLE, [])
  }

  /** What the select loop may pick. A ticker may find no connection, or fail to open a
      channel; publications may fail. */
  datatype MainPick =
    | PickDialled
    | PickTicker(connected: bool, opens: bool, failing: set<nat>)
    | PickBroken
    | PickStart
    | PickStop
    | PickStarted
    | PickStopped
    | PickSend(fails: bool)

  function TakeFromQueue(r: Rabbit, fails: bool): Rabbit {
    if r.queue == [] then r
    else r.(queue := r.queue[1..], sending := Take(r.sending, r.queue[0], fails))
  }

  function MainStep(r: Rabbit, p: MainPick): Rabbit {
    match p
    case PickDialled => r.(sending := Break(r.sending))
    case PickTicker(connected, opens, failing) =>
      if connected && opens then r.(sending := OpenChannel(r.sending, failing)) else r
    case PickBroken => r.(sending := Break(r.sending))
    case PickStart => r.(tracks := TakeStart(r.tracks))
    case PickStop => r.(tracks := TakeStop(r.tracks))
    case PickStarted => r.(tracks := TakeStarted(r.tracks))
    case PickStopped => r.(tracks := TakeStopped(r.tracks))
    case PickSend(fails) => TakeFromQueue(r, fails)
  }

  function MainRun(r: Rabbit, picks: seq<MainPick>): Rabbit {
    if picks == [] then r else MainStep(MainRun(r, picks[..|picks| - 1]), picks[|picks| - 1])
  }

  function Offer(r: Rabbit, d: MqData): Rabbit {
    r.(queue := Push(r.queue, SEND_CAPACITY, d))
  }

  /** No publication of the pick fails. */
  predicate Lossless(p: MainPick) {
    (p.PickTicker? ==> p.failing == {}) && (p.PickSend? ==> !p.fails)
  }

  /** The steps of the send side a pick amounts to. */
  function SendStepsOf(r: Rabbit, p: MainPick): seq<SendStep> {
    match p
    case PickDialled => [Breaks]
    case PickBroken => [Breaks]
    case PickTicker(connected, opens, failing) => if connected && opens then [Opens(failing)] else []
    case PickSend(fails) => if r.queue == [] then [] else [TakesData(r.queue[0], fails)]
    case _ => []
  }

  lemma ProgressOnce(s: Sending, steps: seq<SendStep>, more: seq<SendStep>)
    requires |more| <= 1
    ensures Progress(s, steps + more) == if more == [] then Progress(s, steps) else Proceed(Progress(s, steps), more[0])
  {
    if more == [] {
      assert steps + more == steps;
    } else {
      assert (steps + more)[..|steps|] == steps;
    }
  }

  /** One pick is at most one step of the send side, and takes from the head of the queue. */
  lemma MainStepSends(r: Rabbit, p: MainPick)
    ensures |SendStepsOf(r, p)| <= 1
    ensures Lossless(p) ==> forall a | a in SendStepsOf(r, p) :: Succeeds(a)
    ensures MainStep(r, p).sending
         == if SendStepsOf(r, p) == [] then r.sending else Proceed(r.sending, SendStepsOf(r, p)[0])
    ensures MainStep(r, p).sending.dequeued + MainStep(r, p).queue == r.sending.dequeued + r.queue
  {
    if p.PickSend? && r.queue != [] {
      assert r.queue == [r.queue[0]] + r.queue[1..];
    }
  }

  function AllSendSteps(r: Rabbit, picks: seq<MainPick>): seq<SendStep> {
    if picks == [] then []
    else
      var before := picks[..|picks| - 1];
      AllSendSteps(r, before) + SendStepsOf(MainRun(r, before), picks[|picks| - 1])
  }

  /** The send side of the select loop is a course of the send cache: taken in order from
      the send queue, whatever else the loop picks in between. */
  lemma {:induction false} MainRunSends(r: Rabbit, picks: seq<MainPick>)
    ensures MainRun(r, picks).sending == Progress(r.sending, AllSendSteps(r, picks))
    ensures (forall p | p in picks :: Lossless(p)) ==> forall a | a in AllSendSteps(r, picks) :: Succeeds(a)
    ensures MainRun(r, picks).sending.dequeued + MainRun(r, picks).queue == r.sending.dequeued + r.queue
  {
    if picks != [] {
      var before, p := picks[..|picks| - 1], picks[|picks| - 1];
      MainRunSends(r, before);
      assert p in picks && forall x | x in before :: x in picks;
      MainStepSends(MainRun(r, before), p);
      ProgressOnce(r.sending, AllSendSteps(r, before), SendStepsOf(MainRun(r, before), p));
    }
  }

  /** The step of the tracker handshake a pick is. */
  function TrackStepsOf(p: MainPick): (steps: seq<TrackStep>)
    ensures |steps| <= 1
  {
    match p
    case PickStart => [TakesStart]
    case PickStop => [TakesStop]
    case PickStarted => [TakesStarted]
    case PickStopped => [TakesStopped]
    case _ => []
  }

  function AllTrackSteps(picks: seq<MainPick>): seq<TrackStep> {
    if picks == [] then [] else AllTrackSteps(picks[..|picks| - 1]) + TrackStepsOf(picks[|picks| - 1])
  }

  lemma CourseOnce(h: Handshake, steps: seq<TrackStep>, more: seq<TrackStep>)
    requires |more| <= 1
    ensures Course(h, steps + more) == if more == [] then Course(h, steps) else Advance(Course(h, steps), more[0])
  {
    if more == [] {
      assert steps + more == steps;
    } else {
      assert (steps + more)[..|steps|] == steps;
    }
  }

  lemma MainStepTracks(r: Rabbit, p: MainPick)
    ensures MainStep(r, p).tracks
         == if TrackStepsOf(p) == [] then r.tracks else Advance(r.tracks, TrackStepsOf(p)[0])
  {
  }

  /** And the tracker map goes through a course of the handshake: the main routine's part of it,
      in the order of the picks, whatever it sends in between. */
  lemma {:induction false} MainRunTracks(r: Rabbit, picks: seq<MainPick>)
    ensures MainRun(r, picks).tracks == Course(r.tracks, AllTrackSteps(picks))
  {
    if picks != [] {
      var before, p := picks[..|picks| - 1], picks[|picks| - 1];
      MainRunTracks(r, before);
      MainStepTracks(MainRun(r, before), p);
      CourseOnce(r.tracks, AllTrackSteps(before), TrackStepsOf(p));
    }
  }

  // ---- with the data that come in ----

  /** The bus object is given a datum to send, or its main routine makes a pick. */
  datatype Work = Gets(d: MqData) | Picks(p: MainPick)

  function Worked(r: Rabbit, w: Work): Rabbit {
    match w
    case Gets(d) => Offer(r, d)
    case Picks(p) => MainStep(r, p)
  }

  function WorkRun(r: Rabbit, work: seq<Work>): Rabbit {
    if work == [] then r else Worked(WorkRun(r, work[..|work| - 1]), work[|work| - 1])
  }

  /** The data given that the send queue had room for. */
  function Accepted(r: Rabbit, work: seq<Work>): seq<MqData> {
    if work == [] then []
    else
      var before, w := work[..|work| - 1], work[|work| - 1];
      Accepted(r, before)
      + (if w.Gets? && |WorkRun(r, before).queue| < SEND_CAPACITY then [w.d] else [])
  }

  /** Whatever is given and picked in between: what the main routine has taken, followed by what
      is still queued, are the data accepted, in order. */
  lemma {:induction false} AcceptedDataAreTaken(mode: UserMode, work: seq<Work>)
    ensures var r := WorkRun(Fresh(mode), work);
            r.sending.dequeued + r.queue == Accepted(Fresh(mode), work)
  {
    if work != [] {
      var before, w := work[..|work| - 1], work[|work| - 1];
      var r := WorkRun(Fresh(mode), before);
      AcceptedDataAreTaken(mode, before);
      match w
      case Gets(d) =>
        if |r.queue| < SEND_CAPACITY {
          assert r.sending.dequeued + (r.queue + [d]) == (r.sending.dequeued + r.queue) + [d];
        }
      case Picks(p) => MainStepSends(r, p);
    }
  }
}
