/** kernel.go's scheduler state and the critical sections that change it. `Kernel` is the object
    as written, one method per locked region; `KState` and its functions say what each region
    does, and are what the interleavings in KernelRuns are built from. */
module KernelCore {

  import opened Options

  /** One unit of scheduled work. `every` is the recurrence period, `due` the next time it may
      run; both are nanoseconds. */
  datatype Task = Task(id: nat, instance: string, every: int, due: int)

  predicate Recurring(t: Task) { t.every > 0 }

  datatype Status = Ran | Blocked | Failed

  datatype Dispatch = Dispatch(taskId: nat, instance: string, status: Status, summary: string)

  /** The fields the kernel guards with its lock, and the one-slot wake channel. */
  datatype KState = KState(
    queue: seq<Task>,
    inFlight: set<string>,
    history: seq<Dispatch>,
    nextId: nat,
    dispatched: nat,
    wake: bool)

  const DEFAULT_HISTORY_LIMIT := 1024

  function Limit(configured: int): (limit: nat)
    ensures limit > 0
  {
    if configured <= 0 then DEFAULT_HISTORY_LIMIT else configured
  }

  // -- take ----------------------------------------------------------------------------------------

  /** A task a take at `now` may choose. */
  predicate Eligible(t: Task, now: int, reserve: bool, busy: set<string>) {
    t.due <= now && !(reserve && t.instance in busy)
  }

  /** The scan of the first `n` tasks: the soonest-due eligible one, the first on a tie. */
  function Best(q: seq<Task>, n: nat, now: int, reserve: bool, busy: set<string>): (best: Option<nat>)
    requires n <= |q|
    ensures best.Some? ==> best.value < n
  {
    if n == 0 then None
    else
      var prev := Best(q, n - 1, now, reserve, busy);
      if !Eligible(q[n - 1], now, reserve, busy) then prev
      else if prev == None || q[n - 1].due < q[prev.value].due then Some(n - 1)
      else prev
  }

  /** `i` comes before `j`: sooner due, or queued earlier when due together. */
  predicate Ahead(q: seq<Task>, i: nat, j: nat)
    requires i < |q| && j < |q|
  {
    q[i].due < q[j].due || (q[i].due == q[j].due && i < j)
  }

  lemma {:induction false} BestIsSoonest(q: seq<Task>, n: nat, now: int, reserve: bool, busy: set<string>)
    requires n <= |q|
    ensures var best := Best(q, n, now, reserve, busy);
            if best == None then forall j | 0 <= j < n :: !Eligible(q[j], now, reserve, busy)
            else
              && Eligible(q[best.value], now, reserve, busy)
              && (forall j | 0 <= j < n && Eligible(q[j], now, reserve, busy)
                     :: j == best.value || Ahead(q, best.value, j))
  {
    if n > 0 {
      BestIsSoonest(q, n - 1, now, reserve, busy);
    }
  }

  function Rearmed(t: Task, now: int): Task { t.(due := now + t.every) }

  function Without<T>(q: seq<T>, i: nat): seq<T>
    requires i < |q|
  {
    q[..i] + q[i + 1..]
  }

  /** The take-and-reserve of one task: re-armed in place if it recurs, removed if it does not. */
  function Take(k: KState, now: int, reserve: bool): (KState, Option<Task>) {
    match Best(k.queue, |k.queue|, now, reserve, k.inFlight)
    case None => (k, None)
    case Some(i) =>
      var t := k.queue[i];
      var queue := if Recurring(t) then k.queue[i := Rearmed(t, now)] else Without(k.queue, i);
      var inFlight := if reserve then k.inFlight + {t.instance} else k.inFlight;
      (k.(queue := queue, inFlight := inFlight), Some(if Recurring(t) then Rearmed(t, now) else t))
  }

  /** What a take does, told from the queue alone. It finds nothing exactly when every task is due later
      or, reserving, has a busy instance. Otherwise it picks the one due soonest, the first queued on a
      tie: a recurring one stays at its place, due one period after the reading, a one-shot one leaves,
      and no other task changes. */
  lemma TakeIs(k: KState, now: int, reserve: bool) returns (i: nat)
    ensures var (k', taken) := Take(k, now, reserve);
            && k' == k.(queue := k'.queue, inFlight := k'.inFlight)
            && (taken == None <==> forall t | t in k.queue :: now < t.due || (reserve && t.instance in k.inFlight))
            && (taken == None ==> k' == k)
    ensures var (k', taken) := Take(k, now, reserve);
            taken.Some? ==>
              && i < |k.queue| && k.queue[i].due <= now && !(reserve && k.queue[i].instance in k.inFlight)
              && (forall j | 0 <= j < |k.queue| && !(reserve && k.queue[j].instance in k.inFlight)
                    :: k.queue[i].due < k.queue[j].due || (k.queue[i].due == k.queue[j].due && i <= j))
              && k'.inFlight == k.inFlight + (if reserve then {k.queue[i].instance} else {})
              && (k.queue[i].every > 0 ==>
                    && |k'.queue| == |k.queue|
                    && k'.queue[i] == k.queue[i].(due := now + k.queue[i].every) == taken.value
                    && forall j | 0 <= j < |k.queue| && j != i :: k'.queue[j] == k.queue[j])
              && (k.queue[i].every <= 0 ==>
                    k.queue[i] == taken.value && k'.queue == k.queue[..i] + k.queue[i + 1..])
  {
    hide Best;
    BestIsSoonest(k.queue, |k.queue|, now, reserve, k.inFlight);
    match Best(k.queue, |k.queue|, now, reserve, k.inFlight) {
      case None =>
        i := 0;
        forall t | t in k.queue
          ensures now < t.due || (reserve && t.instance in k.inFlight)
        {
          var j :| 0 <= j < |k.queue| && k.queue[j] == t;
        }
      case Some(b) =>
        i := b;
        assert k.queue[b] in k.queue;
    }
  }

  // -- the other critical sections -----------------------------------------------------------------

  function Enqueue(k: KState, instance: string, every: int, due: int): KState {
    k.(nextId := k.nextId + 1, queue := k.queue + [Task(k.nextId + 1, instance, every, due)])
  }

  function IndexOfId(q: seq<Task>, id: nat): (i: Option<nat>)
    ensures i == None <==> forall j | 0 <= j < |q| :: q[j].id != id
    ensures i.Some? ==> i.value < |q| && q[i.value].id == id && forall j | 0 <= j < i.value :: q[j].id != id
  {
    if q == [] then None
    else if q[0].id == id then Some(0)
    else
      match IndexOfId(q[1..], id)
      case None => assert forall j | 0 < j < |q| :: q[j] == q[1..][j - 1]; None
      case Some(i) => assert forall j | 0 < j < |q| :: q[j] == q[1..][j - 1]; Some(i + 1)
  }

  function Unqueue(k: KState, id: nat): KState {
    match IndexOfId(k.queue, id)
    case None => k
    case Some(i) => k.(queue := Without(k.queue, i))
  }

  function Raise(k: KState): KState { k.(wake := true) }

  function Release(k: KState, instance: string): KState { k.(inFlight := k.inFlight - {instance}) }

  /** The most recent `n` entries. */
  function Latest<T>(s: seq<T>, n: nat): (r: seq<T>)
    ensures |r| == if |s| < n then |s| else n
  {
    if |s| <= n then s else s[|s| - n..]
  }

  function Record(k: KState, d: Dispatch, limit: nat): KState {
    k.(history := Latest(k.history + [d], limit), dispatched := k.dispatched + 1)
  }

  /** The gap from `now` to the earliest due time after it, over the first `n` tasks. */
  function Gap(q: seq<Task>, n: nat, now: int): Option<int>
    requires n <= |q|
  {
    if n == 0 then None
    else
      var prev := Gap(q, n - 1, now);
      var due := q[n - 1].due;
      if due > now && (prev == None || due - now < prev.value) then Some(due - now) else prev
  }

  lemma {:induction false} GapIsEarliest(q: seq<Task>, n: nat, now: int)
    requires n <= |q|
    ensures var gap := Gap(q, n, now);
            if gap == None then forall j | 0 <= j < n :: q[j].due <= now
            else
              && gap.value > 0
              && (exists j | 0 <= j < n :: q[j].due == now + gap.value)
              && (forall j | 0 <= j < n && q[j].due > now :: q[j].due >= now + gap.value)
  {
    if n > 0 {
      GapIsEarliest(q, n - 1, now);
      assert Gap(q, n, now) == Some(q[n - 1].due - now) ==> q[n - 1].due == now + Gap(q, n, now).value;
    }
  }

  // -- the object ----------------------------------------------------------------------------------

  class Kernel {
    const historyLimit: int

    var queue: seq<Task>
    var inFlight: set<string>
    var history: seq<Dispatch>
    var nextId: nat
    var dispatched: nat
    var wake: bool

    function View(): KState
      reads this
    {
      KState(queue, inFlight, history, nextId, dispatched, wake)
    }

    constructor (historyLimit: int)
      ensures View() == KState([], {}, [], 0, 0, false)
      ensures this.historyLimit == historyLimit
      ensures Limit(this.historyLimit) == if historyLimit > 0 then historyLimit else 1024
    {
      this.historyLimit := historyLimit;
      queue, inFlight, history, nextId, dispatched, wake := [], {}, [], 0, 0, false;
    }

    /** The locked half of Submit; Interrupt is its other half. */
    method Submit(instance: string, every: int, due: int) returns (id: nat)
      modifies this`queue, this`nextId
      ensures View() == Enqueue(old(View()), instance, every, due)
      ensures id == nextId == old(nextId) + 1 && queue == old(queue) + [Task(id, instance, every, due)]
    {
      nextId := nextId + 1;
      id := nextId;
      queue := queue + [Task(id, instance, every, due)];
    }

    /** Fills the wake slot; a slot already full is left as it is. */
    method Interrupt()
      modifies this`wake
      ensures View() == Raise(old(View()))
    {
      if !wake {
        wake := true;
      }
    }

    method Cancel(id: nat) returns (found: bool)
      modifies this`queue
      ensures View() == Unqueue(old(View()), id)
      ensures found <==> exists i | 0 <= i < |old(queue)| :: old(queue)[i].id == id
      ensures !found ==> queue == old(queue)
      ensures found ==> exists i | 0 <= i < |old(queue)| ::
                          old(queue)[i].id == id && queue == old(queue)[..i] + old(queue)[i + 1..]
    {
      var i := 0;
      while i < |queue|
        invariant 0 <= i <= |queue| && queue == old(queue)
        invariant forall j | 0 <= j < i :: queue[j].id != id
      {
        if queue[i].id == id {
          queue := queue[..i] + queue[i + 1..];
          return true;
        }
        i := i + 1;
      }
      found := false;
    }

    /** The scan of kernel.go:367-378. */
    method Soonest(now: int, reserve: bool) returns (best: Option<nat>)
      ensures best == Best(queue, |queue|, now, reserve, inFlight)
    {
      best := None;
      var i := 0;
      while i < |queue|
        invariant 0 <= i <= |queue|
        invariant best == Best(queue, i, now, reserve, inFlight)
      {
        var t := queue[i];
        if t.due <= now && !(reserve && t.instance in inFlight) {
          if best == None || t.due < queue[best.value].due {
            best := Some(i);
          }
        }
        i := i + 1;
      }
    }

    /** One scan of the queue, then the atomic take (and, with `reserve`, reservation). */
    method TakeReady(now: int, reserve: bool) returns (task: Option<Task>)
      modifies this`queue, this`inFlight
      ensures (View(), task) == Take(old(View()), now, reserve)
      ensures task == None ==> queue == old(queue) && inFlight == old(inFlight)
      ensures task.Some? ==> inFlight == old(inFlight) + (if reserve then {task.value.instance} else {})
      ensures task.Some? && task.value.every > 0 ==>
                task.value.due == now + task.value.every && task.value in queue && |queue| == |old(queue)|
      ensures task.Some? && task.value.every <= 0 ==> task.value in old(queue) && |queue| == |old(queue)| - 1
    {
      ghost var place := TakeIs(View(), now, reserve);
      var best := Soonest(now, reserve);
      if best == None {
        return None;
      }
      var t := queue[best.value];
      if t.every > 0 {
        t := t.(due := now + t.every);
        queue := queue[best.value := t];
      } else {
        queue := queue[..best.value] + queue[best.value + 1..];
      }
      if reserve {
        inFlight := inFlight + {t.instance};
      }
      task := Some(t);
    }

    /** The locked half of dispatchAndRelease's deferred exit. */
    method ReleaseInstance(instance: string)
      modifies this`inFlight
      ensures View() == Release(old(View()), instance)
    {
      inFlight := inFlight - {instance};
    }

    method RecordDispatch(d: Dispatch)
      modifies this`history, this`dispatched
      ensures View() == Record(old(View()), d, Limit(historyLimit))
      ensures var all := old(history) + [d];
              history == if |all| <= Limit(historyLimit) then all else all[|all| - Limit(historyLimit)..]
    {
      var limit := if historyLimit <= 0 then DEFAULT_HISTORY_LIMIT else historyLimit;
      history := history + [d];
      dispatched := dispatched + 1;
      var excess := |history| - limit;
      if excess > 0 {
        history := history[excess..];
      }
    }

    /** How long until the next task falls due; None means nothing is scheduled. */
    method UntilNext(now: int) returns (delay: Option<int>)
      ensures delay == Gap(queue, |queue|, now)
    {
      var soonest: Option<int> := None;
      var i := 0;
      while i < |queue|
        invariant 0 <= i <= |queue|
        invariant match Gap(queue, i, now)
                  case None => soonest == None
                  case Some(gap) => soonest == Some(now + gap)
      {
        var due := queue[i].due;
        if due > now && (soonest == None || due < soonest.value) {
          soonest := Some(due);
        }
        i := i + 1;
      }
      delay := if soonest == None then None else Some(soonest.value - now);
    }
  }

  // -- one shared clock reading --------------------------------------------------------------------

  /** With one reading for both, a take that finds nothing leaves only busy instances among the
      due tasks, and the sleep lasts exactly to the earliest later due time. */
  lemma NilTakeThenSleep(k: KState, now: int)
    requires Take(k, now, true).1 == None
    ensures forall t | t in k.queue && t.due <= now :: t.instance in k.inFlight
    ensures match Gap(k.queue, |k.queue|, now)
            case None => forall t | t in k.queue :: t.due <= now
            case Some(gap) =>
              (exists t :: t in k.queue && t.due == now + gap) &&
              (forall t | t in k.queue && t.due > now :: t.due >= now + gap)
  {
    BestIsSoonest(k.queue, |k.queue|, now, true, k.inFlight);
    GapIsEarliest(k.queue, |k.queue|, now);
    forall t | t in k.queue && t.due <= now
      ensures t.instance in k.inFlight
    {
      var j :| 0 <= j < |k.queue| && k.queue[j] == t;
      assert !Eligible(k.queue[j], now, true, k.inFlight);
    }
    if Gap(k.queue, |k.queue|, now).Some? {
      var gap := Gap(k.queue, |k.queue|, now).value;
      var j :| 0 <= j < |k.queue| && k.queue[j].due == now + gap;
      assert k.queue[j] in k.queue;
    }
  }

  /** The serial path reserves nothing: a take that does not reserve finds a task exactly when one is
      due, busy instance or not, and marks no instance. */
  lemma SerialTakeReservesNothing(k: KState, now: int)
    ensures Take(k, now, false).1.Some? <==> exists t :: t in k.queue && t.due <= now
    ensures Take(k, now, false).0.inFlight == k.inFlight
  {
    BestIsSoonest(k.queue, |k.queue|, now, false, k.inFlight);
    if t :| t in k.queue && t.due <= now {
      var j :| 0 <= j < |k.queue| && k.queue[j] == t;
      assert Eligible(k.queue[j], now, false, k.inFlight);
    }
  }
}
