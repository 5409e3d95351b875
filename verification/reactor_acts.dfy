/** What whole passes make the slots do: exactly those of the events they deliver, in order. */
module ReactorActs {
  import opened ReactorModel
  import opened ReactorRegistry
  import opened ReactorEvents
  import opened ReactorLimits
  import opened ReactorSelect

  /** What the slots do when a report about dispatcher i is processed; the Signaler has none. */
  function ActsOfReport(w: World, i: nat, r: Report, h: Handlers): seq<Act>
    requires i < |w.socks|
  {
    if i == 0 then [] else EventActs(i, EventFlags(w, i, r), h)
  }

  lemma ProcessingActs(w: World, key: nat, i: nat, r: Report, h: Handlers)
    requires i < |w.socks|
    ensures ProcessEvents(w, key, i, r, h).hist.acts == w.hist.acts + ActsOfReport(w, i, r, h)
  {
    var ff := EventFlags(w, i, r);
    var logged := w.(hist := w.hist.(delivered := w.hist.delivered + [(key, i, ff)]));
    if ff != 0 && i != 0 {
      AtMostOneUpdate(logged, i, ff, h);
    }
    assert w.hist.acts + [] == w.hist.acts;
  }

  lemma OneAfterTheOther(log: seq<Act>, first: seq<Act>, second: seq<Act>)
    ensures log + first + second == log + (first + second)
  {
  }

  function ActsOfEvent(w: World, e: Event): seq<Act> {
    if e.key in w.byKey && w.byKey[e.key] < |w.socks| then ActsOfReport(w, w.byKey[e.key], e.report, e.handlers) else []
  }

  /** The acts of the events of a batch, each in the world that the ones before it left. */
  function ActsOfPass(w: World, events: seq<Event>): seq<Act>
    decreases |events|
  {
    if events == [] then []
    else
      var before := events[..|events| - 1];
      ActsOfPass(w, before) + ActsOfEvent(ProcessBatch(w, before), events[|events| - 1])
  }

  /**
   A pass over epoll events performs, for each event in turn whose key is still registered, the slots of the flags it
   tells, and nothing else.
   */
  lemma {:induction false} PassPerforms(w: World, events: seq<Event>)
    ensures ProcessBatch(w, events).hist.acts == w.hist.acts + ActsOfPass(w, events)
    decreases |events|
  {
    if events == [] {
      assert w.hist.acts + [] == w.hist.acts;
    } else {
      var before, last := events[..|events| - 1], events[|events| - 1];
      PassPerforms(w, before);
      var w1 := ProcessBatch(w, before);
      DeliveryPerforms(w1, last);
      OneAfterTheOther(w.hist.acts, ActsOfPass(w, before), ActsOfEvent(w1, last));
    }
  }

  lemma DeliveryPerforms(w: World, e: Event)
    ensures DeliverEvent(w, e).hist.acts == w.hist.acts + ActsOfEvent(w, e)
  {
    if e.key in w.byKey && w.byKey[e.key] < |w.socks| {
      ProcessingActs(w, e.key, w.byKey[e.key], e.report, e.handlers);
    }
  }

  function ActsOfVisit(s: Sel, v: Visit): seq<Act> {
    if v.key in s.w.byKey && s.w.byKey[v.key] < |s.w.socks| then
      var i := s.w.byKey[v.key];
      var r, w := s.w.socks[i].fd in s.readable, s.w.socks[i].fd in s.writable;
      ActsOfReport(s.w, i, Report(r, w, r || w, v.errcode, v.eof), v.handlers)
    else []
  }

  function ActsOfVisits(s: Sel, visits: seq<Visit>): seq<Act>
    decreases |visits|
  {
    if visits == [] then []
    else
      var before := visits[..|visits| - 1];
      ActsOfVisits(s, before) + ActsOfVisit(VisitAll(s, before), visits[|visits| - 1])
  }

  /** A pass of WaitSelect likewise, with the bits that are still set when a key is reached. */
  lemma {:induction false} VisitsPerform(s: Sel, visits: seq<Visit>)
    ensures VisitAll(s, visits).w.hist.acts == s.w.hist.acts + ActsOfVisits(s, visits)
    decreases |visits|
  {
    if visits == [] {
      assert s.w.hist.acts + [] == s.w.hist.acts;
    } else {
      var before, last := visits[..|visits| - 1], visits[|visits| - 1];
      VisitsPerform(s, before);
      var s1 := VisitAll(s, before);
      VisitPerforms(s1, last);
      OneAfterTheOther(s.w.hist.acts, ActsOfVisits(s, before), ActsOfVisit(s1, last));
    }
  }

  lemma VisitPerforms(s: Sel, v: Visit)
    ensures VisitKey(s, v).w.hist.acts == s.w.hist.acts + ActsOfVisit(s, v)
  {
    if v.key in s.w.byKey && s.w.byKey[v.key] < |s.w.socks| {
      var i := s.w.byKey[v.key];
      var r, w := s.w.socks[i].fd in s.readable, s.w.socks[i].fd in s.writable;
      ProcessingActs(s.w, v.key, i, Report(r, w, r || w, v.errcode, v.eof), v.handlers);
    }
  }
}
