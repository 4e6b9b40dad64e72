/** What the refreshers of the mirror decide about the requests in their queues, over every run. */
module QueueTheorems {
  import opened Basics
  import opened Catalogue
  import opened Index
  import opened Mirror
  import opened MirrorTheorems
  import opened Outcomes
  import Inst = Instance
  import IT = InstanceTheorems
  import RP = RefreshProgram

  ghost predicate AllDecided(w: World) {
    forall i :: i in w.instances ==> OutcomeInv(w.instances[i])
  }

  lemma StepKeepsDecided(w: World, step: Step)
    requires Inv(w) && Do(w, step).Some? && AllDecided(w)
    ensures AllDecided(Do(w, step).value)
  {
    var w' := Do(w, step).value;
    forall i | i in w'.instances ensures OutcomeInv(w'.instances[i]) {
      if step.Local? && step.i == i {
        MoverDecided(w, step);
      } else {
        BystanderDecided(w, step, i);
      }
    }
  }

  lemma MoverDecided(w: World, step: Step)
    requires InstancesInv(w.instances, w.log) && Do(w, step).Some? && step.Local? && AllDecided(w)
    ensures step.i in Do(w, step).value.instances && OutcomeInv(Do(w, step).value.instances[step.i])
  {
    LocalMoves(w, step.i, step.local, step.drawn, step.lost);
    assert InstanceInv(w.instances[step.i], w.log, step.i);
    StepKeepsOutcomes(w.instances[step.i], step.local, w.log, step.i);
  }

  lemma BystanderDecided(w: World, step: Step, i: nat)
    requires Do(w, step).Some? && AllDecided(w) && i in Do(w, step).value.instances && !(step.Local? && step.i == i)
    ensures OutcomeInv(Do(w, step).value.instances[i])
  {
    if i in w.instances {
      BystanderStays(w, step, i);
    } else {
      NewcomerIsBooted(w, step, i);
      BootedOutcomes(step.interval, step.now);
    }
  }

  lemma NewcomerIsBooted(w: World, step: Step, i: nat)
    requires Do(w, step).Some? && i in Do(w, step).value.instances && i !in w.instances
    ensures step.Boot? && Do(w, step).value.instances[i] == Inst.Booted(step.interval, step.now)
  {
    if step.Local? {
      LocalMoves(w, step.i, step.local, step.drawn, step.lost);
    }
  }

  lemma {:induction false} RunKeepsDecided(w: World, steps: seq<Step>, w': World)
    requires Inv(w) && AllDecided(w) && Leads(w, steps, w')
    ensures AllDecided(w')
  {
    if steps != [] {
      var mid := LastStep(w, steps, w');
      RunKeepsDecided(w, Init(steps), mid);
      StepKeepsDecided(mid, Last(steps));
    }
  }

  lemma ReachableDecided(prefix: string, w: World)
    requires Reachable(prefix, w)
    ensures AllDecided(w)
  {
    var steps :| Leads(Mirror.Start(prefix), steps, w);
    StartInv(prefix);
    RunKeepsDecided(Mirror.Start(prefix), steps, w);
  }

  /** In every reachable state, a request the refresher has dealt with was answered "not stale" if and only
      if its provider was remembered and was looked at within the interval, and upstream was not asked; a
      performed refresh leaves nothing remembered if and only if nothing was before and it failed, and it
      reports upstream's failure as it came, the response if its store took effect, and a failed store
      otherwise; and whoever waited for the answer was handed exactly that. */
  lemma DecidedByTheClock(prefix: string, w: World, i: nat, k: nat)
    requires Reachable(prefix, w) && i in w.instances && k < |w.instances[i].outcomes|
    ensures var x := w.instances[i]; var o := x.outcomes[k];
      && (o.reply.ProviderVersionNotStale? <==>
            o.recorded.Some? && o.checked.Some? && o.checked.value - o.recorded.value <= x.interval)
      && (o.after.None? <==> o.recorded.None? && o.reply.RefreshPerformed? && o.reply.result.Err?)
      && (o.reply.RefreshPerformed? <==> o.got.Some?)
      && (o.got.Some? && o.got.value.Err? ==> o.reply == RP.RefreshPerformed(Err(o.got.value.error)))
      && (o.got.Some? && o.got.value.Ok? ==>
            && o.stored.Some?
            && o.reply == RP.RefreshPerformed(if o.stored.value then o.got.value else Err(RP.StoreFailed)))
      && (k < |x.finished| ==>
            && x.finished[k] == o.msg
            && (o.msg.channel.Some? ==>
                  o.msg.channel.value in x.slots && x.slots[o.msg.channel.value] == Inst.Filled(o.reply)))
  {
    ReachableDecided(prefix, w);
    DecidedAt(w.instances[i], k);
  }

  lemma DecidedAt(x: Inst.Inst, k: nat)
    requires OutcomeInv(x) && k < |x.outcomes|
    ensures Judged(x.interval, x.clock, x.outcomes[k])
    ensures k < |x.finished| ==> x.finished[k] == x.outcomes[k].msg && HandedOver(x, k)
  {
    assert Messages(x.outcomes)[k] == x.outcomes[k].msg;
  }

  /** Over every run, for the requests about one provider that were in a queue together, once all of them
      are dealt with: exactly the first was answered with a refresh if and only if it did not find the
      provider fresh, the provider is remembered once it was served, and the others were looked at within
      the interval of that.  None was if and only if the first found the provider fresh and the others
      were looked at within the interval of the same refresh. */
  lemma OneRefreshForAQueue(prefix: string, w: World, steps: seq<Step>, w': World, i: nat, p: Provider)
    requires Reachable(prefix, w) && Leads(w, steps, w') && i in w.instances
    requires i in w'.instances && QueueServed(w.instances[i], w'.instances[i])
    ensures var x, y := w.instances[i], w'.instances[i]; var outs, start := Served(x, y, p), Before(x, y, p);
      && Messages(outs) == Asking(x.queue, p)
      && (x.refresher.worker.Idle? ==> start == Inst.Remembered(x.refresher.last, p))
      && (outs != [] ==>
            && (ExactlyFirst(outs) <==>
                  !LookedAtWithin(outs[0], start, y.interval) && OthersWithin(outs, outs[0].after, y.interval))
            && (NonePerformed(outs) <==>
                  LookedAtWithin(outs[0], start, y.interval) && OthersWithin(outs, start, y.interval))
            && (outs[0].after.None? <==> start.None? && Performed(outs[0]) && outs[0].reply.result.Err?))
  {
    Onwards(prefix, w, steps, w');
    ReachableDecided(prefix, w);
    RunKeepsDecided(w, steps, w');
    var x, y := w.instances[i], w'.instances[i];
    assert InstanceInv(x, w.log, i) && InstanceInv(y, w'.log, i);
    QueuedTogether(x, y, p);
    if x.refresher.worker.Idle? {
      BeforeIsNow(x, y, p);
    }
  }

  /** Over every run, while the clock is within the interval of a recorded refresh of a provider, upstream
      is not contacted for it again, and everything decided about it since, whoever asked, is "not
      stale". */
  lemma BurstsCostNothing(prefix: string, w: World, steps: seq<Step>, w': World, i: nat, p: Provider, k: nat)
    requires Reachable(prefix, w) && Leads(w, steps, w') && i in w.instances
    requires p in w.instances[i].stamps && k < |w.instances[i].stamps[p]|
    requires i in w'.instances && w'.instances[i].clock <= w.instances[i].stamps[p][k].end + w.instances[i].interval
    ensures var x, y := w.instances[i], w'.instances[i];
      && Inst.ContactsOf(y, p) == Inst.ContactsOf(x, p)
      && x.outcomes <= y.outcomes
      && forall m :: |x.outcomes| <= m < |y.outcomes| && y.outcomes[m].msg.provider == p ==>
           y.outcomes[m].reply.ProviderVersionNotStale?
  {
    Onwards(prefix, w, steps, w');
    ReachableDecided(prefix, w);
    RunKeepsDecided(w, steps, w');
    var x, y := w.instances[i], w'.instances[i];
    assert InstanceInv(x, w.log, i) && InstanceInv(y, w'.log, i);
    BurstContacts(x, y, w.log, w'.log, i, p, k);
    BurstOutcomes(x, y, p, k);
  }
}
