/** Phase A seen as two waves: the first copy of every duplicated entitlement, and the second ones. */
module RetryWave {
  import opened Domain
  import opened Accounts
  import opened Protocol
  import opened Invariants
  import V = VulnerableRun

  /** The events whose key has not occurred before. */
  function Firsts(events: seq<Event>): seq<Event> {
    if events == [] then []
    else
      var n := |events| - 1;
      Firsts(events[..n]) + (if events[n].key in EventKeys(events[..n]) then [] else [events[n]])
  }

  function Seconds(events: seq<Event>): seq<Event> {
    if events == [] then []
    else
      var n := |events| - 1;
      Seconds(events[..n]) + (if events[n].key in EventKeys(events[..n]) then [events[n]] else [])
  }

  lemma {:induction false} WavesHold(events: seq<Event>)
    ensures forall e :: e in Firsts(events) || e in Seconds(events) <==> e in events
  {
    if events != [] {
      var n := |events| - 1;
      WavesHold(events[..n]);
      assert events == events[..n] + [events[n]];
    }
  }

  lemma {:induction false} WavesSum(events: seq<Event>)
    ensures Sum(EventAmounts(Firsts(events))) + Sum(EventAmounts(Seconds(events))) == Sum(EventAmounts(events))
  {
    if events != [] {
      var n := |events| - 1;
      WavesSum(events[..n]);
      assert events == events[..n] + [events[n]];
      DebitedAppend(events[..n], events[n]);
      DebitedAppend(Firsts(events[..n]), events[n]);
      DebitedAppend(Seconds(events[..n]), events[n]);
      assert Firsts(events[..n]) + [] == Firsts(events[..n]) && Seconds(events[..n]) + [] == Seconds(events[..n]);
    }
  }

  /** No identifier of one list occurs in the other. */
  ghost predicate Apart(xs: seq<Event>, ys: seq<Event>) {
    forall i, j :: 0 <= i < |xs| && 0 <= j < |ys| ==> xs[i].deliveryId != ys[j].deliveryId
  }

  lemma AppendApart(xs: seq<Event>, ys: seq<Event>, e: Event)
    requires DistinctIds(xs) && Apart(xs, ys) && forall x :: x in xs || x in ys ==> x.deliveryId != e.deliveryId
    ensures DistinctIds(xs + [e]) && Apart(xs + [e], ys) && Apart(ys, xs + [e])
  {
    assert forall i :: 0 <= i < |xs| ==> xs[i] in xs;
    assert forall i :: 0 <= i < |ys| ==> ys[i] in ys;
  }

  lemma {:induction false} WavesApart(events: seq<Event>)
    requires DistinctIds(events)
    ensures DistinctIds(Firsts(events)) && DistinctIds(Seconds(events)) && Apart(Firsts(events), Seconds(events))
  {
    if events != [] {
      var n := |events| - 1;
      var front, e := events[..n], events[n];
      WavesApart(front);
      WavesHold(front);
      forall x | x in Firsts(front) || x in Seconds(front) ensures x.deliveryId != e.deliveryId {
        assert x in front;
      }
      if e.key in EventKeys(front) {
        AppendApart(Seconds(front), Firsts(front), e);
        assert Firsts(events) == Firsts(front);
      } else {
        AppendApart(Firsts(front), Seconds(front), e);
        assert Seconds(events) == Seconds(front);
      }
    }
  }

  lemma ConcatDistinct(xs: seq<Event>, ys: seq<Event>)
    requires DistinctIds(xs) && DistinctIds(ys) && Apart(xs, ys)
    ensures DistinctIds(xs + ys)
  {
  }

  lemma KeyCountAppend(events: seq<Event>, e: Event, k: Key)
    ensures KeyCount(events + [e], k) == KeyCount(events, k) + (if e.key == k then 1 else 0)
  {
    assert EventKeys(events + [e]) == EventKeys(events) + [e.key];
  }

  /** Every key that occurs has exactly one first. */
  lemma {:induction false} FirstsOnce(events: seq<Event>, k: Key)
    ensures KeyCount(Firsts(events), k) == if k in EventKeys(events) then 1 else 0
  {
    if events == [] {
      assert EventKeys(events) == [];
    } else {
      var n := |events| - 1;
      var front, e := events[..n], events[n];
      FirstsOnce(front, k);
      assert EventKeys(events) == EventKeys(front) + [e.key];
      if e.key !in EventKeys(front) {
        KeyCountAppend(Firsts(front), e, k);
      } else {
        assert Firsts(events) == Firsts(front);
      }
    }
  }

  lemma {:induction false} OnceSums(eligible: seq<Entry>, once: multiset<Key>, a: multiset<Key>)
    requires forall i :: 0 <= i < |eligible| ==>
               (a[eligible[i].key] == 2 && once[eligible[i].key] == 1)
                 || (a[eligible[i].key] == 0 && once[eligible[i].key] == 0)
    ensures PaidTo(eligible, once) == Misallocated(eligible, a)
  {
    if eligible != [] {
      var n := |eligible| - 1;
      assert forall i :: 0 <= i < n ==> eligible[..n][i] == eligible[i];
      OnceSums(eligible[..n], once, a);
    }
  }

  /** The first wave, and so the second, asks for what the duplicated entitlements are owed. */
  lemma WaveSums(cfg: Setup)
    requires ValidSetup(cfg)
    ensures Sum(EventAmounts(Firsts(cfg.planA))) == V.DuplicatedOwed(cfg)
    ensures Sum(EventAmounts(Seconds(cfg.planA))) == V.DuplicatedOwed(cfg)
  {
    var firsts, a := Firsts(cfg.planA), multiset(EventKeys(cfg.planA));
    FirstsByKey(cfg);
    forall i | 0 <= i < |cfg.eligible| ensures CoveredOnce(cfg, multiset(EventKeys(firsts)), cfg.eligible[i].key) {
      FirstsCover(cfg, i);
    }
    OnceSums(cfg.eligible, multiset(EventKeys(firsts)), a);
    WavesSum(cfg.planA);
    V.PhaseSums(cfg);
  }

  lemma FirstsByKey(cfg: Setup)
    requires ValidSetup(cfg)
    ensures var firsts := Firsts(cfg.planA);
            Sum(EventAmounts(firsts)) == PaidTo(cfg.eligible, multiset(EventKeys(firsts)))
  {
    var firsts := Firsts(cfg.planA);
    WavesHold(cfg.planA);
    V.PlansOwed(cfg);
    forall i | 0 <= i < |firsts| ensures OwedEvent(cfg.eligible, firsts[i]) {
      assert firsts[i] in cfg.planA;
      var j :| 0 <= j < |cfg.planA| && cfg.planA[j] == firsts[i];
    }
    V.EventsByKey(cfg.eligible, firsts);
  }

  ghost predicate CoveredOnce(cfg: Setup, once: multiset<Key>, k: Key) {
    || (KeyCount(cfg.planA, k) == 2 && KeyCount(cfg.planB, k) == 0 && once[k] == 1)
    || (KeyCount(cfg.planA, k) == 0 && KeyCount(cfg.planB, k) == 1 && once[k] == 0)
  }

  /** The first copies cover the duplicated entitlements once each, and nobody else. */
  lemma FirstsCover(cfg: Setup, i: nat)
    requires ValidSetup(cfg) && i < |cfg.eligible|
    ensures CoveredOnce(cfg, multiset(EventKeys(Firsts(cfg.planA))), cfg.eligible[i].key)
  {
    var k := cfg.eligible[i].key;
    assert Covered(cfg, k);
    FirstsOnce(cfg.planA, k);
  }

  /** The first wave costs no more than everything that is owed. */
  lemma FirstsFit(cfg: Setup)
    requires ValidSetup(cfg) && FullBudget(cfg)
    ensures Sum(EventAmounts(Firsts(cfg.planA))) == V.DuplicatedOwed(cfg) <= cfg.budget
  {
    WaveSums(cfg);
    V.PhaseSums(cfg);
    PhaseBCosts(cfg);
  }

  lemma PhaseBCosts(cfg: Setup)
    requires ValidSetup(cfg)
    ensures Sum(EventAmounts(cfg.planB)) >= 0
  {
    forall i | 0 <= i < |cfg.planB| ensures EventAmounts(cfg.planB)[i] >= 0 {
      assert Plan(cfg)[|cfg.planA| + i] == cfg.planB[i];
      V.OwedIsPositive(cfg, |cfg.planA| + i);
    }
    SumNonNegative(EventAmounts(cfg.planB));
  }

  /** Phase A in two waves is still a list of distinct, planned, affordable-or-not deliveries. */
  lemma WavesOfPlan(cfg: Setup)
    requires ValidSetup(cfg)
    ensures DistinctIds(Firsts(cfg.planA) + Seconds(cfg.planA))
    ensures forall e :: e in Firsts(cfg.planA) + Seconds(cfg.planA) <==> e in cfg.planA
    ensures forall e :: e in cfg.planA ==> e.amount >= 1
  {
    PlanADistinct(cfg);
    WavesApart(cfg.planA);
    ConcatDistinct(Firsts(cfg.planA), Seconds(cfg.planA));
    WavesHold(cfg.planA);
    forall e | e in cfg.planA ensures e.amount >= 1 {
      var i :| 0 <= i < |cfg.planA| && cfg.planA[i] == e;
      assert Plan(cfg)[i] == e;
      V.OwedIsPositive(cfg, i);
    }
  }

  /** The other copy of a second one is among the first ones. */
  lemma HasFirst(events: seq<Event>, e: Event) returns (f: nat)
    requires e in Seconds(events)
    ensures f < |Firsts(events)| && Firsts(events)[f].key == e.key
  {
    var k := e.key;
    WavesHold(events);
    var j :| 0 <= j < |events| && events[j] == e;
    assert EventKeys(events)[j] == k;
    FirstsOnce(events, k);
    assert k in multiset(EventKeys(Firsts(events)));
    f :| 0 <= f < |EventKeys(Firsts(events))| && EventKeys(Firsts(events))[f] == k;
  }
}
