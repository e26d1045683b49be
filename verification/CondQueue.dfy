/**
 One BoundedQueue at the level of its mutex and its two condition variables.  A step is one
 locked section: from getting the mutex to releasing it by returning or by going to sleep.
 Threads may barge in ahead of woken ones, notify_one may pick any sleeper, and sleepers may
 wake spuriously.
 */
module CondQueue {
  import opened Options
  import opened Sums

  /**
   Consumers and producers inside pop() and push(): asleep on the condition variable and not
   notified, or notified and yet to get the mutex back.  A waiting producer carries its item.
   */
  datatype CondState<T> = CondState(capacity: nat, items: seq<T>, closed: bool, stop: bool,
                                    sleepPop: set<nat>, wokenPop: set<nat>,
                                    sleepPush: map<nat, T>, wokenPush: map<nat, T>)

  datatype CondLabel<T> =
    | EnterPop(t: nat, pick: nat)            // a new call, with the thread notify_one would pick
    | ResumePop(t: nat, pick: nat)           // a woken consumer gets the mutex
    | SpuriousPop(t: nat)
    | EnterPush(t: nat, item: T, pick: nat)
    | ResumePush(t: nat, pick: nat)
    | SpuriousPush(t: nat)
    | Close
    | Stop

  function CondInit<T>(capacity: nat): CondState<T>
  {
    CondState(capacity, [], false, false, {}, {}, map[], map[])
  }

  predicate PopReady<T>(s: CondState<T>)
  {
    s.stop || s.closed || s.items != []
  }

  predicate PushReady<T>(s: CondState<T>)
  {
    s.stop || s.closed || |s.items| < s.capacity
  }

  /** notify_one on not_full_: any one sleeper, if there is one. */
  function NotifyPush<T>(s: CondState<T>, pick: nat): CondState<T>
    requires s.sleepPush != map[] ==> pick in s.sleepPush
  {
    if s.sleepPush == map[] then s
    else s.(sleepPush := s.sleepPush - {pick}, wokenPush := s.wokenPush[pick := s.sleepPush[pick]])
  }

  function NotifyPop<T>(s: CondState<T>, pick: nat): CondState<T>
    requires s.sleepPop != {} ==> pick in s.sleepPop
  {
    if s.sleepPop == {} then s
    else s.(sleepPop := s.sleepPop - {pick}, wokenPop := s.wokenPop + {pick})
  }

  /** The locked section of pop by a thread that is now neither asleep nor woken. */
  function PopSection<T>(s: CondState<T>, t: nat, pick: nat): CondState<T>
    requires s.sleepPush != map[] ==> pick in s.sleepPush
  {
    if !PopReady(s) then s.(sleepPop := s.sleepPop + {t})
    else if s.items != [] then NotifyPush(s.(items := s.items[1..]), pick)
    else s
  }

  function PushSection<T>(s: CondState<T>, t: nat, item: T, pick: nat): CondState<T>
    requires s.sleepPop != {} ==> pick in s.sleepPop
  {
    if !PushReady(s) then s.(sleepPush := s.sleepPush[t := item])
    else if s.stop || s.closed then s
    else NotifyPop(s.(items := s.items + [item]), pick)
  }

  predicate CondEnabled<T>(s: CondState<T>, l: CondLabel<T>)
  {
    match l
    case EnterPop(t, pick) => t !in s.sleepPop && t !in s.wokenPop && (s.sleepPush != map[] ==> pick in s.sleepPush)
    case ResumePop(t, pick) => t in s.wokenPop && (s.sleepPush != map[] ==> pick in s.sleepPush)
    case SpuriousPop(t) => t in s.sleepPop
    case EnterPush(t, _, pick) => t !in s.sleepPush && t !in s.wokenPush && (s.sleepPop != {} ==> pick in s.sleepPop)
    case ResumePush(t, pick) => t in s.wokenPush && (s.sleepPop != {} ==> pick in s.sleepPop)
    case SpuriousPush(t) => t in s.sleepPush
    case Close => true
    case Stop => true
  }

  function CondNext<T>(s: CondState<T>, l: CondLabel<T>): CondState<T>
    requires CondEnabled(s, l)
  {
    match l
    case EnterPop(t, pick) => PopSection(s, t, pick)
    case ResumePop(t, pick) => PopSection(s.(wokenPop := s.wokenPop - {t}), t, pick)
    case SpuriousPop(t) => s.(sleepPop := s.sleepPop - {t}, wokenPop := s.wokenPop + {t})
    case EnterPush(t, x, pick) => PushSection(s, t, x, pick)
    case ResumePush(t, pick) => PushSection(s.(wokenPush := s.wokenPush - {t}), t, s.wokenPush[t], pick)
    case SpuriousPush(t) => s.(sleepPush := s.sleepPush - {t}, wokenPush := s.wokenPush[t := s.sleepPush[t]])
    case Close =>
      s.(closed := true, wokenPop := s.wokenPop + s.sleepPop, sleepPop := {},
         wokenPush := s.wokenPush + s.sleepPush, sleepPush := map[])
    case Stop => s.(stop := true)
  }

  /**
   No lost wakeup: while the queue is open and stop is unset, consumers sleep un-notified only
   if every item is spoken for by a notified consumer, and producers only if every free slot is.
   After close nobody sleeps.
   */
  predicate NoLostWakeup<T>(s: CondState<T>)
  {
    && |s.items| <= s.capacity
    && s.sleepPop !! s.wokenPop
    && s.sleepPush.Keys !! s.wokenPush.Keys
    && (s.closed ==> s.sleepPop == {} && s.sleepPush == map[])
    && (!s.stop && !s.closed && s.sleepPop != {} ==> |s.items| <= |s.wokenPop|)
    && (!s.stop && !s.closed && s.sleepPush != map[] ==> s.capacity - |s.items| <= |s.wokenPush.Keys|)
  }

  /** Taking an item frees a slot and wakes a producer for it. */
  lemma TakingKeeps<T>(s: CondState<T>, woken: set<nat>, pick: nat)
    requires NoLostWakeup(s) && s.items != [] && (s.sleepPush != map[] ==> pick in s.sleepPush)
    requires woken <= s.wokenPop && |woken| >= |s.wokenPop| - 1
    ensures NoLostWakeup(NotifyPush(s.(wokenPop := woken, items := s.items[1..]), pick))
  {
    if s.sleepPush != map[] {
      var s' := NotifyPush(s.(wokenPop := woken, items := s.items[1..]), pick);
      assert s'.wokenPush.Keys == s.wokenPush.Keys + {pick};
    }
  }

  lemma PopKeeps<T>(s: CondState<T>, l: CondLabel<T>)
    requires NoLostWakeup(s) && CondEnabled(s, l) && (l.EnterPop? || l.ResumePop?)
    ensures NoLostWakeup(CondNext(s, l))
  {
    var woken := if l.ResumePop? then s.wokenPop - {l.t} else s.wokenPop;
    if s.items != [] {
      TakingKeeps(s, woken, l.pick);
      assert CondNext(s, l) == NotifyPush(s.(wokenPop := woken, items := s.items[1..]), l.pick);
    }
  }

  /** A push that goes to sleep, where woken are the notified producers that are left. */
  lemma SleepingPushKeeps<T>(s: CondState<T>, woken: map<nat, T>, t: nat, item: T)
    requires NoLostWakeup(s) && !PushReady(s) && t !in woken && woken.Keys <= s.wokenPush.Keys
    ensures NoLostWakeup(s.(wokenPush := woken, sleepPush := s.sleepPush[t := item]))
  {
  }

  /** Putting an item takes a slot and wakes a consumer for it. */
  lemma PuttingKeeps<T>(s: CondState<T>, woken: map<nat, T>, item: T, pick: nat)
    requires NoLostWakeup(s) && PushReady(s) && (s.sleepPop != {} ==> pick in s.sleepPop)
    requires woken.Keys <= s.wokenPush.Keys && |woken.Keys| >= |s.wokenPush.Keys| - 1 && !s.stop && !s.closed
    ensures NoLostWakeup(NotifyPop(s.(wokenPush := woken, items := s.items + [item]), pick))
  {
  }

  lemma PushKeeps<T>(s: CondState<T>, l: CondLabel<T>)
    requires NoLostWakeup(s) && CondEnabled(s, l) && (l.EnterPush? || l.ResumePush?)
    ensures NoLostWakeup(CondNext(s, l))
  {
    var woken := if l.ResumePush? then s.wokenPush - {l.t} else s.wokenPush;
    var item := if l.ResumePush? then s.wokenPush[l.t] else l.item;
    assert l.ResumePush? ==> woken.Keys == s.wokenPush.Keys - {l.t};
    if !PushReady(s) {
      SleepingPushKeeps(s, woken, l.t, item);
    } else if !s.stop && !s.closed {
      PuttingKeeps(s, woken, item, l.pick);
    }
  }

  lemma SpuriousPushKeeps<T>(s: CondState<T>, t: nat)
    requires NoLostWakeup(s) && t in s.sleepPush
    ensures NoLostWakeup(s.(sleepPush := s.sleepPush - {t}, wokenPush := s.wokenPush[t := s.sleepPush[t]]))
  {
    assert s.wokenPush[t := s.sleepPush[t]].Keys == s.wokenPush.Keys + {t};
    assert s.sleepPush != map[];
  }

  lemma WakeKeeps<T>(s: CondState<T>, l: CondLabel<T>)
    requires NoLostWakeup(s) && CondEnabled(s, l) && !l.EnterPush? && !l.ResumePush? && !l.EnterPop? && !l.ResumePop?
    ensures NoLostWakeup(CondNext(s, l))
  {
    if l.SpuriousPush? {
      SpuriousPushKeeps(s, l.t);
    }
  }

  lemma CondKeeps<T>(s: CondState<T>, l: CondLabel<T>)
    requires NoLostWakeup(s) && CondEnabled(s, l)
    ensures NoLostWakeup(CondNext(s, l))
  {
    match l
    case EnterPop(_, _) => PopKeeps(s, l);
    case ResumePop(_, _) => PopKeeps(s, l);
    case EnterPush(_, _, _) => PushKeeps(s, l);
    case ResumePush(_, _) => PushKeeps(s, l);
    case _ => WakeKeeps(s, l);
  }

  /** The state after a sequence of locked sections, if each is enabled when its turn comes. */
  function Play<T>(s: CondState<T>, ls: seq<CondLabel<T>>): Option<CondState<T>>
    decreases |ls|
  {
    if ls == [] then Some(s)
    else if !CondEnabled(s, ls[0]) then None
    else Play(CondNext(s, ls[0]), ls[1..])
  }

  /** The invariant holds after every interleaving of locked sections on a fresh queue. */
  lemma {:induction false} NoWakeupIsLost<T>(s: CondState<T>, ls: seq<CondLabel<T>>)
    requires NoLostWakeup(s)
    ensures Play(s, ls).Some? ==> NoLostWakeup(Play(s, ls).value)
    decreases |ls|
  {
    if ls != [] && CondEnabled(s, ls[0]) {
      CondKeeps(s, ls[0]);
      NoWakeupIsLost(CondNext(s, ls[0]), ls[1..]);
    }
  }

  /**
   So a sleeping thread is never stranded: if the queue can serve it, some notified thread of
   its kind will find its guard true, pass on to an item or a slot, and never go back to sleep.
   */
  lemma SleepersAreServed<T>(capacity: nat, ls: seq<CondLabel<T>>, pick: nat)
    requires Play(CondInit<T>(capacity), ls).Some?
    ensures var s := Play(CondInit<T>(capacity), ls).value;
            && (s.sleepPop != {} && PopReady(s) && !s.stop ==>
                  exists t :: t in s.wokenPop
                    && (CondEnabled(s, ResumePop(t, pick)) ==> t !in CondNext(s, ResumePop(t, pick)).sleepPop))
            && (s.sleepPush != map[] && PushReady(s) && !s.stop ==>
                  exists t :: t in s.wokenPush
                    && (CondEnabled(s, ResumePush(t, pick)) ==> t !in CondNext(s, ResumePush(t, pick)).sleepPush))
  {
    var s := Play(CondInit<T>(capacity), ls).value;
    NoWakeupIsLost(CondInit<T>(capacity), ls);
    if s.sleepPop != {} && PopReady(s) && !s.stop {
      assert s.wokenPop != {};
      var t :| t in s.wokenPop;
      assert CondEnabled(s, ResumePop(t, pick)) ==> t !in CondNext(s, ResumePop(t, pick)).sleepPop;
    }
    if s.sleepPush != map[] && PushReady(s) && !s.stop {
      assert s.wokenPush.Keys != {};
      var t :| t in s.wokenPush.Keys;
      assert CondEnabled(s, ResumePush(t, pick)) ==> t !in CondNext(s, ResumePush(t, pick)).sleepPush;
    }
  }

  /** After close nobody sleeps, and no later call or wakeup puts anybody to sleep. */
  lemma {:induction false} NobodySleepsAfterClose<T>(s: CondState<T>, ls: seq<CondLabel<T>>)
    requires s.closed && s.sleepPop == {} && s.sleepPush == map[] && Play(s, ls).Some?
    ensures var s' := Play(s, ls).value; s'.closed && s'.sleepPop == {} && s'.sleepPush == map[]
    decreases |ls|
  {
    if ls != [] {
      NobodySleepsAfterClose(CondNext(s, ls[0]), ls[1..]);
    }
  }

  /** A stop request by itself wakes nobody: until close, a sleeper can be left asleep. */
  lemma StopAloneStrands() returns (s: CondState<int>)
    ensures Play(CondInit<int>(1), [EnterPop(0, 0), Stop]) == Some(s)
    ensures s.stop && s.sleepPop == {0} && s.wokenPop == {}
    ensures CondNext(s, Close).sleepPop == {}
  {
    var s0 := CondInit<int>(1);
    var s1 := CondNext(s0, EnterPop(0, 0));
    s := CondNext(s1, Stop);
    assert [EnterPop(0, 0), Stop][1..] == [CondLabel<int>.Stop];
    assert Play(s1, [CondLabel<int>.Stop]) == Play(s, []);
  }

  // ---------------------------------------------------------------- the guard level

  /** What the queue looks like when sleeping is forgotten. */
  datatype Atomic<T> = Atomic(items: seq<T>, closed: bool, stop: bool)

  function Forget<T>(s: CondState<T>): Atomic<T>
  {
    Atomic(s.items, s.closed, s.stop)
  }

  /** The item a push section carries. */
  function Cargo<T>(s: CondState<T>, l: CondLabel<T>): Option<T>
  {
    match l
    case EnterPush(_, x, _) => Some(x)
    case ResumePush(t, _) => if t in s.wokenPush then Some(s.wokenPush[t]) else None
    case _ => None
  }

  /** What a pop may do to the guard-level queue: take the front item, when there is one, and only then nothing. */
  predicate AtomicPop<T(==)>(a: Atomic<T>, b: Atomic<T>)
  {
    if a.items != [] then b == a.(items := a.items[1..]) else b == a
  }

  /** What a push may do: add its item if the queue is open, running and has room, and otherwise nothing. */
  predicate AtomicPush<T(==)>(capacity: nat, a: Atomic<T>, item: T, b: Atomic<T>)
  {
    if !a.stop && !a.closed && |a.items| < capacity then b == a.(items := a.items + [item]) else b == a
  }

  /** Each kind of locked section as one operation of the guard-level queue. */
  predicate AtomicStep<T(==)>(s: CondState<T>, l: CondLabel<T>, b: Atomic<T>)
  {
    var a := Forget(s);
    match l
    case EnterPop(_, _) => AtomicPop(a, b)
    case ResumePop(_, _) => AtomicPop(a, b)
    case EnterPush(_, x, _) => AtomicPush(s.capacity, a, x, b)
    case ResumePush(_, _) => Cargo(s, l).Some? && AtomicPush(s.capacity, a, Cargo(s, l).value, b)
    case SpuriousPop(_) => b == a
    case SpuriousPush(_) => b == a
    case Close => b == a.(closed := true)
    case Stop => b == a.(stop := true)
  }

  /**
   Every locked section is the atomic operation of its kind on the guard-level queue, and a
   caller is left asleep exactly when the guard of its operation is false.
   */
  lemma SectionsAreAtomic<T>(s: CondState<T>, l: CondLabel<T>)
    requires NoLostWakeup(s) && CondEnabled(s, l)
    ensures AtomicStep(s, l, Forget(CondNext(s, l)))
    ensures l.EnterPop? || l.ResumePop? ==> (l.t in CondNext(s, l).sleepPop <==> !PopReady(s))
    ensures l.EnterPush? || l.ResumePush? ==> (l.t in CondNext(s, l).sleepPush <==> !PushReady(s))
  {
  }
}
