// The timers of the zloop reactor: ids count up from one, and a timer started with
// zero repetitions fires until it is ended.
module EventLoop {

  datatype Handler = PollAgents | CheckTcam | EndThrottle

  datatype Timer = Timer(handler: Handler, period: nat, arg: int, due: nat)

  datatype Loop = Loop(timers: map<int, Timer>, lastId: nat, now: nat)

  function TimerStart(l: Loop, delay: nat, handler: Handler, arg: int): Loop {
    var id := l.lastId + 1;
    l.(timers := l.timers[id := Timer(handler, delay, arg, l.now + delay)], lastId := id)
  }

  function TimerEnd(l: Loop, id: int): Loop {
    l.(timers := l.timers - {id})
  }

  // The loop after the timer `id` has fired once.
  function Rearm(l: Loop, id: int): Loop
    requires id in l.timers
  {
    var t := l.timers[id];
    l.(timers := l.timers[id := t.(due := t.due + t.period)])
  }

  // Ids are never zero, and no timer is overdue.
  ghost predicate Punctual(l: Loop) {
    forall t :: t in l.timers ==> 0 < t <= l.lastId && l.now <= l.timers[t].due <= l.now + l.timers[t].period
  }
}
