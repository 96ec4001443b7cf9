/** The send side told by its steps alone: when the channel is open, what the cache holds and
    what goes on the wire are functions of the connects, breaks and sends, of no state. */
module SendCourses {
  import opened Defs
  import opened Mq
  import opened SendCache
  import opened RabbitLogic

  /** The last step that opened or broke the channel opened it. */
  predicate LeftOpen(steps: seq<SendStep>) {
    steps != [] &&
    var a := steps[|steps| - 1];
    a.Opens? || (!a.Breaks? && LeftOpen(steps[..|steps| - 1]))
  }

  /** All data taken from the send queue, in order. */
  function Taken(steps: seq<SendStep>): seq<MqData> {
    if steps == [] then []
    else
      var a := steps[|steps| - 1];
      Taken(steps[..|steps| - 1]) + (if a.TakesData? then [a.d] else [])
  }

  /** Those taken while the channel was closed. */
  function TakenWhileClosed(steps: seq<SendStep>): seq<MqData> {
    if steps == [] then []
    else
      var before, a := steps[..|steps| - 1], steps[|steps| - 1];
      TakenWhileClosed(before) + (if a.TakesData? && !LeftOpen(before) then [a.d] else [])
  }

  /** What goes on the wire: each datum taken while the channel is open, at once, and at each
      opening of a closed channel everything ever taken while it was closed; a publication
      that fails is left out. */
  function Wire(steps: seq<SendStep>): seq<Publication> {
    if steps == [] then []
    else
      var before, a := steps[..|steps| - 1], steps[|steps| - 1];
      Wire(before)
      + match a
        case TakesData(d, fails) => if LeftOpen(before) && !fails then [Direct(d)] else []
        case Opens(failing) => if LeftOpen(before) then [] else Flush(TakenWhileClosed(before), failing)
        case Breaks => []
  }

  /** The send side is what its steps say. */
  lemma {:induction false} StepsTellAll(steps: seq<SendStep>)
    ensures var s := Progress(IDLE, steps);
            && (s.open <==> LeftOpen(steps))
            && s.cache == TakenWhileClosed(steps) && s.log == Wire(steps) && s.dequeued == Taken(steps)
  {
    if steps != [] {
      StepsTellAll(steps[..|steps| - 1]);
    }
  }

  /** A flush puts each cached datum that does not fail on the wire, in order. */
  lemma {:induction false} FlushPlaces(cache: seq<MqData>, failing: set<nat>, i: nat)
    requires i < |cache|
    ensures Flush(cache[..i], failing) <= Flush(cache, failing)
    ensures i !in failing ==> Flush(cache[..i], failing) + [Flushed(cache[i])] <= Flush(cache, failing)
    ensures (forall j | i <= j < |cache| :: j in failing) ==> Flush(cache, failing) == Flush(cache[..i], failing)
  {
    var front := cache[..|cache| - 1];
    if i < |front| {
      FlushPlaces(front, failing, i);
      assert front[..i] == cache[..i];
    }
  }

  // ---- the same for the main routine ----

  /** The last pick that opened or broke the channel opened it. */
  predicate ChannelUp(picks: seq<MainPick>) {
    picks != [] &&
    var p := picks[|picks| - 1];
    || (p.PickTicker? && p.connected && p.opens)
    || (!p.PickDialled? && !p.PickBroken? && ChannelUp(picks[..|picks| - 1]))
  }

  lemma ChannelStep(r: Rabbit, p: MainPick)
    ensures MainStep(r, p).sending.open
            <==> (p.PickTicker? && p.connected && p.opens) || (!p.PickDialled? && !p.PickBroken? && r.sending.open)
  {
  }

  /** After any picks of the main routine the channel is open exactly if a ticker that found
      the connection up opened it and neither a break nor a new connection came since. */
  lemma {:induction false} ChannelUpIff(mode: UserMode, picks: seq<MainPick>)
    ensures MainRun(Fresh(mode), picks).sending.open <==> ChannelUp(picks)
  {
    if picks != [] {
      ChannelUpIff(mode, picks[..|picks| - 1]);
      ChannelStep(MainRun(Fresh(mode), picks[..|picks| - 1]), picks[|picks| - 1]);
    }
  }
}
