/** The scheduler of layouts: requests are gathered, and served together when the event loop is idle. */
module Transaction {
  import opened Lists
  import opened Options

  datatype Tag = Tag(output: nat, index: nat)

  /**
   `armed`: the idle callback is installed. `serving`: it is running. `flagged`: the tags with a
   pending request. `waiting`: the outputs with one. `exist`: the outputs that are there. `laid`:
   the tags laid out so far. `served`: the outputs served so far.
   */
  datatype State = State(
    armed: bool, tags: seq<Tag>, outputPending: bool, paused: bool, serving: bool,
    flagged: set<Tag>, waiting: set<nat>, exist: set<nat>, laid: seq<Tag>, served: multiset<nat>)

  datatype Event =
    | ScheduleTag(tag: Tag)
    | ScheduleOutput(output: nat)
    | Pause
    | Resume
    | Idle
    | Vanish(output: nat)
    | Return(output: nat)  // the requests of its tags are forgotten

  function Started(s: State): State {
    if s.armed || s.paused then s else s.(armed := true)
  }

  function Existing(tags: seq<Tag>, exist: set<nat>): seq<Tag> {
    if tags == [] then []
    else Existing(tags[..|tags| - 1], exist)
         + if tags[|tags| - 1].output in exist then [tags[|tags| - 1]] else []
  }

  /** The outputs that the callback serves. */
  function Due(s: State): set<nat> {
    if s.outputPending then s.waiting * s.exist else {}
  }

  function Cleared(flagged: set<Tag>, laid: seq<Tag>): set<Tag> {
    flagged - set t | t in laid
  }

  /** While requests are served, new ones are ignored. */
  function Step(s: State, e: Event): State {
    match e
    case ScheduleTag(t) =>
      if t in s.flagged || s.serving then s else Started(s.(tags := s.tags + [t], flagged := s.flagged + {t}))
    case ScheduleOutput(o) =>
      if s.serving then s else Started(s).(waiting := s.waiting + {o}, outputPending := true)
    case Pause => s.(armed := false, paused := true)
    case Resume => Started(s.(paused := false))
    case Idle =>
      if !s.armed || s.serving then s
      else
        var laid := Existing(s.tags, s.exist);
        s.(armed := false, tags := [], outputPending := false, laid := s.laid + laid,
           waiting := s.waiting - Due(s), served := s.served + multiset(Due(s)),
           flagged := Cleared(s.flagged, laid))
    case Vanish(o) => s.(exist := s.exist - {o})
    case Return(o) =>
      s.(exist := s.exist + {o}, waiting := s.waiting - {o}, flagged := set t | t in s.flagged && t.output != o)
  }

  // ---- the callback, turn by turn ----

  /** The callback begins: outputs are served. */
  function Begun(s: State): State {
    s.(serving := true, outputPending := false, waiting := s.waiting - Due(s), served := s.served + multiset(Due(s)))
  }

  /** Some of the outputs have been served, if they had a request. */
  function Seen(s: State, done: set<nat>): State {
    s.(waiting := s.waiting - done, served := s.served + multiset(s.waiting * done))
  }

  lemma SeenOne(s: State, done: set<nat>, o: nat)
    requires o !in done
    ensures var (u, v) := (Seen(s, done), Seen(s, done + {o}));
            v == u.(waiting := u.waiting - {o}, served := u.served + if o in u.waiting then multiset{o} else multiset{})
  {
    assert s.waiting * (done + {o}) == s.waiting * done + if o in s.waiting then {o} else {};
    assert multiset(s.waiting * done + {o}) == multiset(s.waiting * done) + multiset{o};
    assert s.waiting - (done + {o}) == s.waiting - done - {o};
  }

  /** The outputs that are there, but for those that are done. */
  ghost predicate Left(exist: set<nat>, todo: set<nat>, done: set<nat>) {
    todo == exist - done && done <= exist
  }

  lemma LeftLess(exist: set<nat>, todo: set<nat>, done: set<nat>, o: nat)
    requires Left(exist, todo, done) && o in todo
    ensures o in exist && o !in done && Left(exist, todo - {o}, done + {o})
  {
  }

  lemma LeftNone(exist: set<nat>, done: set<nat>)
    ensures Left(exist, {}, done) ==> done == exist
    ensures Left(exist, exist, {})
  {
    if Left(exist, {}, done) {
      assert forall x :: x in exist && x !in done ==> x in exist - done;
    }
  }

  lemma SeenAll(s: State)
    ensures Seen(s, {}) == s
    ensures s.serving && s.outputPending ==> Begun(s) == Seen(s, s.exist).(outputPending := false)
  {
    assert s.waiting - {} == s.waiting && s.waiting * {} == {};
    assert s.waiting - s.waiting * s.exist == s.waiting - s.exist;
  }

  /** The turn of the i-th tag. */
  function Turn(s: State, i: nat): State
    requires i < |s.tags|
  {
    var t := s.tags[i];
    if t.output in s.exist then s.(laid := s.laid + [t], flagged := s.flagged - {t}) else s
  }

  /** The turns of the tags from the i-th up to the j-th, without that. */
  function Turns(s: State, i: nat, j: nat): (r: State)
    requires i <= j <= |s.tags|
    ensures r.tags == s.tags
    decreases j - i
  {
    if i == j then s else Turns(Turn(s, i), i + 1, j)
  }

  function Ended(s: State): State {
    s.(tags := [], armed := false, serving := false)
  }

  /**
   Between servings: work is queued without the callback only while paused; a tag that has a
   pending request is queued, unless its output was gone when it was served.
   */
  predicate Steady(s: State) {
    && !s.serving
    && ((s.tags != [] || s.outputPending) && !s.paused ==> s.armed)
    && (s.paused ==> !s.armed)
    && (forall t :: t in s.flagged && t.output in s.exist ==> t in s.tags)
    && (forall o :: o in s.waiting && o in s.exist ==> s.outputPending)
  }

  /** No tag is queued twice, and all tags queued have a pending request. */
  ghost predicate Once(s: State) {
    && Distinct(s.tags)
    && (forall t :: t in s.tags ==> t in s.flagged)
  }

  /** The event is not the return of an output that has tags queued. */
  predicate Calm(s: State, e: Event) {
    e.Return? ==> forall t :: t in s.tags ==> t.output != e.output
  }

  lemma {:induction false} ExistingOnly(tags: seq<Tag>, exist: set<nat>)
    ensures forall t :: t in Existing(tags, exist) <==> t in tags && t.output in exist
  {
    if tags != [] {
      var init := tags[..|tags| - 1];
      ExistingOnly(init, exist);
      assert tags == init + [tags[|tags| - 1]];
    }
  }

  /** What is queued once is laid out once. */
  lemma {:induction false} ExistingOnce(tags: seq<Tag>, exist: set<nat>)
    requires Distinct(tags)
    ensures Distinct(Existing(tags, exist))
  {
    if tags != [] {
      var init := tags[..|tags| - 1];
      assert forall i :: 0 <= i < |init| ==> init[i] == tags[i];
      ExistingOnce(init, exist);
      ExistingOnly(init, exist);
      assert tags[|tags| - 1] !in Existing(init, exist);
    }
  }

  lemma StepSteady(s: State, e: Event)
    requires Steady(s)
    ensures Steady(Step(s, e))
  {
    if e.Idle? && s.armed { ExistingOnly(s.tags, s.exist); }
  }

  /** A step keeps every tag queued once exactly when it is not the return of an output with queued tags. */
  lemma StepOnce(s: State, e: Event)
    requires Once(s)
    ensures Once(Step(s, e)) <==> Calm(s, e)
  {
    if e.Return? && !Calm(s, e) {
      var t :| t in s.tags && t.output == e.output;
      assert t in Step(s, e).tags && t !in Step(s, e).flagged;
    }
  }

  ghost function Run(s: State, es: seq<Event>): State
    decreases |es|
  {
    if es == [] then s else Run(Step(s, es[0]), es[1..])
  }

  lemma {:induction false} RunSteady(s: State, es: seq<Event>)
    requires Steady(s)
    ensures Steady(Run(s, es))
    decreases |es|
  {
    if es != [] {
      StepSteady(s, es[0]);
      RunSteady(Step(s, es[0]), es[1..]);
    }
  }

  lemma {:induction false} RunQueued(s: State, es: seq<Event>, t: Tag)
    requires t in s.tags && t.output in s.exist
    requires forall e :: e in es ==> e != Idle && e != Vanish(t.output)
    ensures t in Run(s, es).tags && t.output in Run(s, es).exist
    decreases |es|
  {
    if es != [] {
      assert es[0] in es && forall e :: e in es[1..] ==> e in es;
      RunQueued(Step(s, es[0]), es[1..], t);
    }
  }

  /** No output returns in the run while tags of it are queued. */
  ghost predicate AllCalm(s: State, es: seq<Event>)
    decreases |es|
  {
    es != [] ==> Calm(s, es[0]) && AllCalm(Step(s, es[0]), es[1..])
  }

  lemma {:induction false} RunOnce(s: State, es: seq<Event>)
    requires Once(s) && AllCalm(s, es)
    ensures Once(Run(s, es))
    decreases |es|
  {
    if es != [] {
      StepOnce(s, es[0]);
      RunOnce(Step(s, es[0]), es[1..]);
    }
  }

  /**
   A request made between servings is not lost: whatever happens after a request for a tag of an
   output that stays, the callback is installed unless the scheduler is paused, and the next time
   it runs it lays out the tag and leaves the queue empty. It lays out no tag that was not asked for,
   and none twice when no output has returned to its queued tags.
   */
  lemma Served(s: State, t: Tag, es: seq<Event>)
    requires Steady(s) && t.output in s.exist
    requires forall e :: e in es ==> e != Idle && e != Vanish(t.output)
    ensures var s' := Run(Step(s, ScheduleTag(t)), es);
            && (!s'.paused ==> s'.armed)
            && (s'.armed ==>
                  var laid := Existing(s'.tags, s'.exist);
                  && t in laid && Step(s', Idle).laid == s'.laid + laid && Step(s', Idle).tags == []
                  && (forall x :: x in laid ==> x in s.tags || x == t || ScheduleTag(x) in es)
                  && (Once(s) && AllCalm(Step(s, ScheduleTag(t)), es) ==> Distinct(laid)))
  {
    var s1 := Step(s, ScheduleTag(t));
    StepSteady(s, ScheduleTag(t));
    RunSteady(s1, es);
    RunQueued(s1, es, t);
    var s' := Run(s1, es);
    ExistingOnly(s'.tags, s'.exist);
    forall x | x in Existing(s'.tags, s'.exist) ensures x in s.tags || x == t || ScheduleTag(x) in es {
      QueuedAsked(s1, es, x);
    }
    if Once(s) && AllCalm(s1, es) {
      StepOnce(s, ScheduleTag(t));
      RunOnce(s1, es);
      ExistingOnce(s'.tags, s'.exist);
    }
  }

  /** A tag is queued only if it was before, or a request was made for it. */
  lemma {:induction false} QueuedAsked(s: State, es: seq<Event>, x: Tag)
    requires x in Run(s, es).tags
    ensures x in s.tags || ScheduleTag(x) in es
    decreases |es|
  {
    if es != [] {
      assert es[0] in es && forall e :: e in es[1..] ==> e in es;
      QueuedAsked(Step(s, es[0]), es[1..], x);
    }
  }

  lemma {:induction false} RunWaits(s: State, es: seq<Event>, o: nat)
    requires o in s.waiting && s.outputPending && o in s.exist
    requires forall e :: e in es ==> e != Idle && e != Vanish(o) && e != Return(o)
    ensures var s' := Run(s, es); o in s'.waiting && s'.outputPending && o in s'.exist
    decreases |es|
  {
    if es != [] {
      assert es[0] in es && forall e :: e in es[1..] ==> e in es;
      RunWaits(Step(s, es[0]), es[1..], o);
    }
  }

  /** An output waits only if it did before, or a request was made for it. */
  lemma {:induction false} WaitersAsked(s: State, es: seq<Event>, x: nat)
    requires x in Run(s, es).waiting
    ensures x in s.waiting || ScheduleOutput(x) in es
    decreases |es|
  {
    if es != [] {
      assert es[0] in es && forall e :: e in es[1..] ==> e in es;
      WaitersAsked(Step(s, es[0]), es[1..], x);
    }
  }

  /**
   The same for outputs: after a request between servings for an output that stays, the callback
   is installed unless the scheduler is paused, and the next time it runs it serves the output, no
   output twice, and none that has not asked.
   */
  lemma OutputServed(s: State, o: nat, es: seq<Event>)
    requires Steady(s) && o in s.exist
    requires forall e :: e in es ==> e != Idle && e != Vanish(o) && e != Return(o)
    ensures var s' := Run(Step(s, ScheduleOutput(o)), es);
            && o in s'.waiting && s'.outputPending && (!s'.paused ==> s'.armed)
            && (s'.armed ==>
                  var after := Step(s', Idle);
                  && after.served[o] == s'.served[o] + 1 && o !in after.waiting && !after.outputPending
                  && forall x :: after.served[x] != s'.served[x] ==>
                       && after.served[x] == s'.served[x] + 1 && x in s'.exist
                       && (x in s.waiting || x == o || ScheduleOutput(x) in es))
  {
    var s1 := Step(s, ScheduleOutput(o));
    StepSteady(s, ScheduleOutput(o));
    RunSteady(s1, es);
    RunWaits(s1, es, o);
    var s' := Run(s1, es);
    if s'.armed {
      var after := Step(s', Idle);
      forall x | after.served[x] != s'.served[x]
        ensures x in s'.exist && (x in s.waiting || x == o || ScheduleOutput(x) in es)
      {
        assert x in Due(s');
        WaitersAsked(s1, es, x);
      }
    }
  }

  /** While the scheduler is paused nothing is served, whatever happens. */
  lemma {:induction false} PausedHolds(s: State, es: seq<Event>)
    requires s.paused && !s.armed && forall e :: e in es ==> e != Resume
    ensures var s' := Run(s, es); s'.paused && !s'.armed && s'.laid == s.laid && s'.served == s.served
    decreases |es|
  {
    if es != [] {
      assert es[0] in es && forall e :: e in es[1..] ==> e in es;
      PausedHolds(Step(s, es[0]), es[1..]);
    }
  }

  /**
   A pause loses nothing: between it and the end of it nothing is served, and the callback that is
   installed then lays out every tag that was queued before, if its output stays.
   */
  lemma PauseKeeps(s: State, es: seq<Event>, t: Tag)
    requires Steady(s) && forall e :: e in es ==> e != Resume
    ensures var s' := Run(Step(s, Pause), es);
            && s'.paused && !s'.armed && s'.laid == s.laid && s'.served == s.served
            && var s'' := Step(s', Resume);
               && !s''.paused && s''.armed
               && (t in s.tags && t.output in s.exist && (forall e :: e in es ==> e != Vanish(t.output)) ==>
                     var done := Step(s'', Idle).laid; |done| >= |s.laid| && t in done[|s.laid|..])
  {
    var s1 := Step(s, Pause);
    PausedHolds(s1, es);
    var s' := Run(s1, es);
    StepSteady(s, Pause);
    RunSteady(s1, es);
    if t in s.tags && t.output in s.exist && forall e :: e in es ==> e != Vanish(t.output) {
      QueuedWhilePaused(s1, es, t);
      ExistingOnly(s'.tags, s'.exist);
    }
  }

  lemma {:induction false} QueuedWhilePaused(s: State, es: seq<Event>, t: Tag)
    requires s.paused && !s.armed && forall e :: e in es ==> e != Resume
    requires t in s.tags && t.output in s.exist && forall e :: e in es ==> e != Vanish(t.output)
    ensures t in Run(s, es).tags && t.output in Run(s, es).exist
    decreases |es|
  {
    if es != [] {
      assert es[0] in es && forall e :: e in es[1..] ==> e in es;
      QueuedWhilePaused(Step(s, es[0]), es[1..], t);
    }
  }

  /** An output is there exactly when the last that happened to it was its return, or nothing since it was. */
  lemma {:induction false} RunExists(s: State, es: seq<Event>, o: nat)
    ensures o in Run(s, es).exist <==>
            if LastOf(es, o) == None then o in s.exist else LastOf(es, o) == Some(Return(o))
    decreases |es|
  {
    if es != [] { RunExists(Step(s, es[0]), es[1..], o); }
  }

  /** The last loss or return of the output. */
  function LastOf(es: seq<Event>, o: nat): Option<Event>
    decreases |es|
  {
    if es == [] then None
    else if LastOf(es[1..], o) != None then LastOf(es[1..], o)
    else if es[0] == Vanish(o) || es[0] == Return(o) then Some(es[0])
    else None
  }

  /** A tag whose output vanishes and returns while it is queued can be queued again, and is laid out twice. */
  lemma LaidTwice(s: State, t: Tag)
    requires s.tags == [] && t !in s.flagged && t.output in s.exist && !s.paused && !s.serving
    ensures var s' := Step(Step(Step(Step(s, ScheduleTag(t)), Vanish(t.output)), Return(t.output)), ScheduleTag(t));
            Step(s', Idle).laid == s.laid + [t, t]
  {
    var exist := s.exist - {t.output} + {t.output};
    assert [t, t][..1] == [t] && [t][..0] == [];
    assert Existing([], exist) == [] && Existing([t], exist) == [t];
    assert Existing([t, t], exist) == [t, t];
  }

  lemma ExistingFirst(tags: seq<Tag>, i: nat, j: nat, exist: set<nat>)
    requires i < j <= |tags|
    ensures Existing(tags[i..j], exist)
         == (if tags[i].output in exist then [tags[i]] else []) + Existing(tags[i + 1..j], exist)
  {
    assert tags[i..j] == [tags[i]] + tags[i + 1..j];
    ExistingConcat([tags[i]], tags[i + 1..j], exist);
    assert [tags[i]][..0] == [];
  }

  lemma ClearedBoth(flagged: set<Tag>, a: seq<Tag>, b: seq<Tag>)
    ensures Cleared(Cleared(flagged, a), b) == Cleared(flagged, a + b)
  {
  }

  /** The tags named have been laid out. */
  function LaidOut(s: State, laid: seq<Tag>): State {
    s.(laid := s.laid + laid, flagged := Cleared(s.flagged, laid))
  }

  lemma LaidBoth(s: State, a: seq<Tag>, b: seq<Tag>)
    ensures LaidOut(LaidOut(s, a), b) == LaidOut(s, a + b)
  {
    ClearedBoth(s.flagged, a, b);
    assert s.laid + a + b == s.laid + (a + b);
  }

  lemma TurnLays(s: State, i: nat)
    requires i < |s.tags|
    ensures Turn(s, i) == LaidOut(s, if s.tags[i].output in s.exist then [s.tags[i]] else [])
  {
    assert Cleared(s.flagged, []) == s.flagged;
  }

  /** Each turn lays out one tag, if its output is there, and changes nothing else. */
  lemma {:induction false} TurnsLay(s: State, i: nat, j: nat)
    requires i <= j <= |s.tags|
    ensures Turns(s, i, j) == LaidOut(s, Existing(s.tags[i..j], s.exist))
    decreases j - i
  {
    if i < j {
      TurnLays(s, i);
      TurnsLay(Turn(s, i), i + 1, j);
      ExistingFirst(s.tags, i, j, s.exist);
      LaidBoth(s, if s.tags[i].output in s.exist then [s.tags[i]] else [], Existing(s.tags[i + 1..j], s.exist));
    }
  }

  lemma {:induction false} ExistingConcat(a: seq<Tag>, b: seq<Tag>, exist: set<nat>)
    ensures Existing(a + b, exist) == Existing(a, exist) + Existing(b, exist)
    decreases |b|
  {
    if b == [] {
      assert a + b == a;
    } else {
      assert (a + b)[..|a + b| - 1] == a + b[..|b| - 1];
      ExistingConcat(a, b[..|b| - 1], exist);
    }
  }

  lemma {:induction false} TurnsThen(s: State, i: nat, j: nat, k: nat)
    requires i <= j <= k <= |s.tags|
    ensures Turns(Turns(s, i, j), j, k) == Turns(s, i, k)
    decreases j - i
  {
    if i < j { TurnsThen(Turn(s, i), i + 1, j, k); }
  }

  /** The callback serves the outputs, gives each queued tag its turn, and ends. */
  lemma IdleByTurns(s: State)
    requires s.armed && !s.serving
    ensures Step(s, Idle) == Ended(Turns(Begun(s), 0, |s.tags|))
  {
    TurnsLay(Begun(s), 0, |s.tags|);
    assert s.tags[0..|s.tags|] == s.tags;
  }

  /**
   A request for a tag that is made while requests are served, when `i` tags have had their turn,
   changes nothing of what the callback does. So it is met exactly when the tag is queued behind
   those and its output there; and when the output is there nothing of it is left in the end.
   */
  lemma AskedWhileServing(s: State, i: nat, t: Tag)
    requires Steady(s) && s.armed && i <= |s.tags|
    ensures var mid := Turns(Begun(s), 0, i);
            var asked := Step(mid, ScheduleTag(t));
            && |asked.tags| == |s.tags|
            && var done := Ended(Turns(asked, i, |s.tags|));
               && done == Step(s, Idle)
               && |mid.laid| <= |done.laid|
               && (t in done.laid[|mid.laid|..] <==> t in s.tags[i..] && t.output in s.exist)
               && (t.output in s.exist ==> t !in done.tags && t !in done.flagged)
  {
    var b := Begun(s);
    TurnsLay(b, 0, i);
    TurnsThen(b, 0, i, |s.tags|);
    IdleByTurns(s);
    var mid := Turns(b, 0, i);
    TurnsLay(mid, i, |s.tags|);
    assert s.tags[i..|s.tags|] == s.tags[i..];
    ExistingOnly(s.tags[i..], s.exist);
    ExistingOnly(s.tags, s.exist);
  }

  class Scheduler {
    var armed: bool
    var tags: seq<Tag>
    var outputPending: bool
    var paused: bool
    var processing: bool
    var flagged: set<Tag>
    var waiting: set<nat>
    var exist: set<nat>
    ghost var laid: seq<Tag>
    ghost var served: multiset<nat>

    ghost function Whole(): State
      reads this
    {
      State(armed, tags, outputPending, paused, processing, flagged, waiting, exist, laid, served)
    }

    constructor ()
      ensures Steady(Whole()) && Once(Whole())
    {
      armed, tags, outputPending, paused, processing := false, [], false, false, false;
      flagged, waiting, exist, laid, served := {}, {}, {}, [], multiset{};
    }

    method Start()
      modifies this`armed
      ensures Whole() == Started(old(Whole()))
    {
      if armed || paused {
        return;
      }
      armed := true;
    }

    method TransactionPause()
      modifies this`armed, this`paused
      ensures Whole() == Step(old(Whole()), Pause)
    {
      armed := false;
      paused := true;
    }

    method TransactionResume()
      modifies this`armed, this`paused
      ensures Whole() == Step(old(Whole()), Resume)
    {
      paused := false;
      Start();
    }

    method ScheduleOutputLayout(o: nat)
      modifies this`armed, this`waiting, this`outputPending
      ensures Whole() == Step(old(Whole()), ScheduleOutput(o))
    {
      if processing {
        return;
      }
      Start();
      waiting := waiting + {o};
      outputPending := true;
    }

    method ScheduleTagLayout(t: Tag)
      modifies this`armed, this`tags, this`flagged
      ensures Whole() == Step(old(Whole()), ScheduleTag(t))
    {
      if t in flagged || processing {
        return;
      }
      tags := tags + [t];
      flagged := flagged + {t};
      Start();
    }

    /** Requests made while others are served. */
    method Ask(tags: seq<Tag>, outputs: seq<nat>)
      requires processing
      modifies this
      ensures Whole() == old(Whole())
    {
      for i := 0 to |tags|
        invariant Whole() == old(Whole())
      {
        ScheduleTagLayout(tags[i]);
      }
      for i := 0 to |outputs|
        invariant Whole() == old(Whole())
      {
        ScheduleOutputLayout(outputs[i]);
      }
    }

    /** Laying a tag out makes requests of its own. */
    method ProcessTag(i: nat, asks: seq<Tag>, outputs: seq<nat>)
      requires processing && i < |tags|
      modifies this
      ensures Whole() == Turn(old(Whole()), i)
    {
      var t := tags[i];
      if t.output !in exist {
        return;
      }
      Ask(asks, outputs);
      laid := laid + [t];
      flagged := flagged - {t};
    }

    /** Every queued tag in turn; the queue does not change meanwhile. */
    method ProcessTags(asks: Tag -> seq<Tag>, outputs: Tag -> seq<nat>)
      requires processing
      modifies this
      ensures Whole() == Turns(old(Whole()), 0, |old(tags)|)
    {
      ghost var s := Whole();
      for i := 0 to |tags|
        invariant tags == s.tags && processing && Whole() == Turns(s, 0, i)
      {
        ProcessTag(i, asks(tags[i]), outputs(tags[i]));
        TurnsThen(s, 0, i, i + 1);
      }
    }

    /** An output with a request is served; what that asks for is ignored. */
    method ProcessOutput(o: nat, asks: seq<Tag>, outputs: seq<nat>)
      requires processing && o in exist
      modifies this
      ensures var (s, asked) := (old(Whole()), o in old(waiting));
              Whole() == s.(waiting := s.waiting - {o}, served := s.served + if asked then multiset{o} else multiset{})
    {
      if o !in waiting {
        return;
      }
      Ask(asks, outputs);
      served := served + multiset{o};
      waiting := waiting - {o};
    }

    /** Every output that is there, in turn. */
    method ServeEach(asks: seq<Tag>, outputs: seq<nat>)
      requires processing
      modifies this
      ensures Whole() == Seen(old(Whole()), old(exist))
    {
      ghost var (s, done) := (Whole(), {});
      SeenAll(s);
      LeftNone(exist, {});
      var todo := exist;
      while todo != {}
        invariant Left(s.exist, todo, done) && processing && Whole() == Seen(s, done)
        decreases |todo|
      {
        var o :| o in todo;
        LeftLess(s.exist, todo, done, o);
        SeenOne(s, done, o);
        ProcessOutput(o, asks, outputs);
        todo, done := todo - {o}, done + {o};
      }
      LeftNone(s.exist, done);
    }

    method ProcessOutputs(asks: seq<Tag>, outputs: seq<nat>)
      requires processing
      modifies this
      ensures Whole() == Begun(old(Whole()))
    {
      if outputPending {
        SeenAll(Whole());
        ServeEach(asks, outputs);
        outputPending := false;
      }
    }

    /** The idle callback, with the requests that are made while outputs and tags are served. */
    method ProcessPending(asks: seq<Tag>, outputs: seq<nat>, tagAsks: Tag -> seq<Tag>, tagOutputs: Tag -> seq<nat>)
      requires armed && !processing
      modifies this
      ensures Whole() == Step(old(Whole()), Idle)
    {
      IdleByTurns(Whole());
      processing := true;
      ProcessOutputs(asks, outputs);
      ProcessTags(tagAsks, tagOutputs);
      tags := [];
      armed := false;
      processing := false;
    }
  }
}
