/** What the servicers are shown of a talk's status: the one it has when it is read. */
module CurrentCards {
  import opened Defs
  import opened TalkStore
  import opened Hubs
  import opened Sides
  import opened Engine
  import opened Shapes
  import opened EngineFacts
  import opened Lifetimes
  import opened SendShapes
  import opened CallShapes
  import opened BusCalls
  import opened TrueShapes
  import SL = ServicerLogic

  lemma AttachedCurrent(st: Store, u: nat, f: Faults)
    requires StoreOk(st)
    ensures AllCurrent(st, AttachedSends(st, u, f))
  {
    var talks := Attached(st, u);
    forall i | 0 <= i < |talks|
      ensures CurrentCard(st, SL.WithMessages(st, talks, f.messages)[i].talk)
    {
      assert talks[i] in talks;
      InAttached(st, u, talks[i]);
    }
  }

  lemma PendingCurrent(st: Store, failed: bool)
    requires StoreOk(st)
    ensures AllCurrent(st, PendingSends(st, failed))
  {
    var talks := Pending(st);
    forall i | 0 <= i < |talks|
      ensures CurrentCard(st, SL.Cards(talks)[i])
    {
      assert talks[i] in talks;
      InPending(st, talks[i]);
    }
  }

  lemma TaskCurrent(st: Store, task: ServicerTask, f: Faults, u: nat)
    requires !task.TellDetach?
    ensures AllCurrent(st, TaskSends(st, task, f, u))
  {
  }

  lemma PicksCurrent(e: State, p: ServicerPick, q: nat)
    requires StoreOk(e.store) && q in e.s.hub.sess && !p.ServeRunner?
    ensures AllCurrent(e.store, Sends(e, p, q))
  {
    var u := e.s.hub.sess[q].key;
    match p
    case ServeInstall(f) => AttachedCurrent(e.store, u, f); PendingCurrent(e.store, f.second);
    case ServeQueryAttached(_, f) => AttachedCurrent(e.store, u, f);
    case ServeQueryPending(_, f) => PendingCurrent(e.store, f.read);
    case _ =>
  }

  /** Every card the servicer loop sends shows the status its talk has then, except for the
      release notice, which shows the talk as its closure holds it. */
  lemma CardsAreCurrent(e: State, p: ServicerPick, q: nat)
    requires StoreOk(e.store) && q in e.s.hub.sess
    ensures if p.ServeRunner? && e.sPosted != [] && e.sPosted[0].TellDetach? then
              forall r | r in Sends(e, p, q) :: ShowsReleased(r, e.sPosted[0].talk)
            else AllCurrent(e.store, Sends(e, p, q))
  {
    if !p.ServeRunner? {
      PicksCurrent(e, p, q);
    } else if e.sPosted != [] && !e.sPosted[0].TellDetach? {
      TaskCurrent(e.store, e.sPosted[0], p.f, e.s.hub.sess[q].key);
    }
  }

  /** And that closure holds the talk as it is when the release is posted. */
  lemma ReleaseHoldsTheTalk(e: State, a: Step, k: ServicerTask)
    requires EngineOk(e) && ServicerQueued(e, a) == Some(k) && k.TellDetach?
    ensures Next(e, a).sPosted != [] && Next(e, a).sPosted[|Next(e, a).sPosted| - 1] == k
    ensures k.talk.id in e.store.talks && k.talk.info == e.store.talks[k.talk.id]
  {
    StepPosts(e, a);
  }
}
