/** The fixed slot array that passes requests between threads, as a bounded bag. */
module GlobalQueue {
  import opened Basics

  const MAX_TASKS: nat := 1024
  const MAX_DATA_SIZE: nat := 4096

  /** One element of g_tasks; `data` is the whole character array. */
  datatype Slot = Slot(fd: int, data: string, valid: bool)

  /** A request as its taker sees it. */
  datatype Request = Request(fd: int, text: string)

  // ---- The copied text ---------------------------------------------------------

  function Zeros(n: nat): string { seq(n, _ => '\0') }

  /** strncpy of MAX_DATA_SIZE - 1 characters, and the terminator after them. */
  function Copied(data: string): string {
    var text := Clip(UpToNul(data), MAX_DATA_SIZE);
    text + Zeros(MAX_DATA_SIZE - |text|)
  }

  lemma {:induction false} UpToNulPadded(text: string, n: nat)
    requires '\0' !in text
    ensures UpToNul(text + Zeros(n)) == text
  {
    if text == [] {
      assert text + Zeros(n) == Zeros(n);
    } else {
      UpToNulPadded(text[1..], n);
      assert (text + Zeros(n))[1..] == text[1..] + Zeros(n);
    }
  }

  /**
    The taker reads back the beginning of the text: it ends at the end of the data,
    right before its first NUL, or after 4095 characters, whichever comes first.
   */
  lemma TextSurvives(data: string)
    ensures |Copied(data)| == MAX_DATA_SIZE
    ensures UpToNul(Copied(data)) == Clip(UpToNul(data), MAX_DATA_SIZE)
    ensures var text := UpToNul(Copied(data));
            && text <= data && '\0' !in text && |text| <= 4095
            && (|text| == 4095 || |text| == |data| || data[|text|] == '\0')
    ensures '\0' !in data && |data| <= 4095 ==> UpToNul(Copied(data)) == data
  {
    var text := Clip(UpToNul(data), MAX_DATA_SIZE);
    UpToNulPadded(text, MAX_DATA_SIZE - |text|);
  }

  /** The request that a successful add puts in the bag. */
  function Wanted(fd: int, data: string): Request {
    Request(fd, Clip(UpToNul(data), MAX_DATA_SIZE))
  }

  // ---- The array as a bag ---------------------------------------------------------

  function One(x: Slot): multiset<Request> {
    if x.valid then multiset{Request(x.fd, UpToNul(x.data))} else multiset{}
  }

  /** The requests waiting in the array. */
  function Bag(slots: seq<Slot>): multiset<Request> {
    if slots == [] then multiset{} else Bag(slots[..|slots| - 1]) + One(slots[|slots| - 1])
  }

  lemma {:induction false} BagUpdate(slots: seq<Slot>, k: nat, x: Slot)
    requires k < |slots|
    ensures Bag(slots[k := x]) + One(slots[k]) == Bag(slots) + One(x)
  {
    var n, u := |slots| - 1, slots[k := x];
    if k == n {
      assert u[..n] == slots[..n];
      Swap(Bag(slots[..n]), One(x), One(slots[n]));
    } else {
      BagUpdate(slots[..n], k, x);
      assert u[..n] == slots[..n][k := x];
      Shuffle(Bag(u[..n]), One(slots[k]), Bag(slots[..n]), One(x), One(slots[n]));
    }
  }

  lemma Swap<T>(a: multiset<T>, b: multiset<T>, c: multiset<T>)
    ensures (a + b) + c == (a + c) + b
  {
  }

  lemma Shuffle<T>(a: multiset<T>, b: multiset<T>, c: multiset<T>, d: multiset<T>, e: multiset<T>)
    requires a + b == c + d
    ensures (a + e) + b == (c + e) + d
  {
    Swap(a, e, b);
    Swap(c, e, d);
  }

  lemma {:induction false} BagEmpty(slots: seq<Slot>)
    requires forall k | 0 <= k < |slots| :: !slots[k].valid
    ensures Bag(slots) == multiset{}
  {
    if slots != [] {
      BagEmpty(slots[..|slots| - 1]);
    }
  }

  /** A bag has at least as many requests as valid slots in front, and at most as many as slots. */
  lemma {:induction false} BagSize(slots: seq<Slot>, k: nat)
    requires k <= |slots| && forall j | 0 <= j < k :: slots[j].valid
    ensures k <= |Bag(slots)| <= |slots|
    ensures |Bag(slots)| == |slots| <==> forall j | 0 <= j < |slots| :: slots[j].valid
  {
    if slots != [] {
      var n := |slots| - 1;
      BagSize(slots[..n], if k <= n then k else n);
    }
  }

  /** The first slot that is free, or that is taken, as the two loops find it. */
  function FirstFree(slots: seq<Slot>): (k: nat)
    ensures k <= |slots| && (k < |slots| ==> !slots[k].valid)
    ensures forall j | 0 <= j < k :: slots[j].valid
  {
    if slots == [] || !slots[0].valid then 0 else 1 + FirstFree(slots[1..])
  }

  function FirstTaken(slots: seq<Slot>): (k: nat)
    ensures k <= |slots| && (k < |slots| ==> slots[k].valid)
    ensures forall j | 0 <= j < k :: !slots[j].valid
  {
    if slots == [] || slots[0].valid then 0 else 1 + FirstTaken(slots[1..])
  }

  function Added(slots: seq<Slot>, fd: int, data: string): seq<Slot> {
    var k := FirstFree(slots);
    if k < |slots| then slots[k := Slot(fd, Copied(data), true)] else slots
  }

  function Taken(slots: seq<Slot>): seq<Slot> {
    var k := FirstTaken(slots);
    if k < |slots| then slots[k := slots[k].(valid := false)] else slots
  }

  /** Adding fails exactly when the bag is full, and otherwise adds the request and nothing else. */
  lemma AddedBag(slots: seq<Slot>, fd: int, data: string)
    ensures FirstFree(slots) == |slots| <==> |Bag(slots)| == |slots|
    ensures FirstFree(slots) < |slots| ==>
              Bag(Added(slots, fd, data)) == Bag(slots) + multiset{Wanted(fd, data)}
  {
    var k := FirstFree(slots);
    BagSize(slots, k);
    if k < |slots| {
      TextSurvives(data);
      BagUpdate(slots, k, Slot(fd, Copied(data), true));
    }
  }

  /** Taking fails exactly when the bag is empty, and otherwise removes one request and nothing else. */
  lemma TakenBag(slots: seq<Slot>)
    ensures FirstTaken(slots) == |slots| <==> Bag(slots) == multiset{}
    ensures var k := FirstTaken(slots);
            k < |slots| ==> Bag(slots) == Bag(Taken(slots)) + multiset{Request(slots[k].fd, UpToNul(slots[k].data))}
  {
    var k := FirstTaken(slots);
    if k < |slots| {
      BagUpdate(slots, k, slots[k].(valid := false));
    } else {
      BagEmpty(slots);
    }
  }

  // ---- Any history ------------------------------------------------------------------

  datatype Op = Add(fd: int, data: string) | Take

  /** The array, what was ever accepted and handed out, and the largest occupancy so far. */
  datatype History = History(slots: seq<Slot>, accepted: multiset<Request>, handed: multiset<Request>, peak: nat)

  function Step(h: History, op: Op): History {
    match op
    case Add(fd, data) =>
      var slots := Added(h.slots, fd, data);
      var more := if FirstFree(h.slots) < |h.slots| then multiset{Wanted(fd, data)} else multiset{};
      History(slots, h.accepted + more, h.handed, if |Bag(slots)| > h.peak then |Bag(slots)| else h.peak)
    case Take =>
      var k := FirstTaken(h.slots);
      var one := if k < |h.slots| then multiset{Request(h.slots[k].fd, UpToNul(h.slots[k].data))} else multiset{};
      h.(slots := Taken(h.slots), handed := h.handed + one)
  }

  predicate After(h: History, ops: seq<Op>, g: History)
    decreases |ops|
  {
    if ops == [] then g == h else After(Step(h, ops[0]), ops[1..], g)
  }

  /** Nothing is lost or duplicated, and low slots are reused first. */
  predicate Tidy(h: History) {
    && h.accepted == h.handed + Bag(h.slots)
    && |Bag(h.slots)| <= h.peak <= |h.slots|
    && forall k | 0 <= k < |h.slots| && h.slots[k].valid :: k < h.peak
  }

  lemma OneMoved<T>(handed: multiset<T>, bag: multiset<T>, x: T)
    ensures |bag + multiset{x}| == |bag| + 1
    ensures handed + (bag + multiset{x}) == (handed + multiset{x}) + bag
    ensures handed + (bag + multiset{x}) == (handed + bag) + multiset{x}
  {
  }

  lemma TidyAdd(h: History, fd: int, data: string)
    requires Tidy(h)
    ensures Tidy(Step(h, Add(fd, data)))
  {
    var k := FirstFree(h.slots);
    AddedBag(h.slots, fd, data);
    if k < |h.slots| {
      OneFilled(h, Step(h, Add(fd, data)), k, Wanted(fd, data));
    } else {
      assert h.accepted + multiset{} == h.accepted;
    }
  }

  /** The first free slot is filled with request `r`. */
  lemma OneFilled(h: History, g: History, k: nat, r: Request)
    requires Tidy(h) && k < |h.slots| == |g.slots| && (forall j | 0 <= j < k :: h.slots[j].valid)
    requires forall j | 0 <= j < |h.slots| && j != k :: g.slots[j] == h.slots[j]
    requires Bag(g.slots) == Bag(h.slots) + multiset{r}
    requires g.accepted == h.accepted + multiset{r} && g.handed == h.handed
    requires g.peak == if |Bag(g.slots)| > h.peak then |Bag(g.slots)| else h.peak
    ensures Tidy(g)
  {
    BagSize(h.slots, k);
    BagSize(g.slots, 0);
    OneMoved(h.handed, Bag(h.slots), r);
  }

  lemma TidyTake(h: History)
    requires Tidy(h)
    ensures Tidy(Step(h, Take))
  {
    var g, k := Step(h, Take), FirstTaken(h.slots);
    TakenBag(h.slots);
    if k < |h.slots| {
      var r := Request(h.slots[k].fd, UpToNul(h.slots[k].data));
      OneMoved(h.handed, Bag(g.slots), r);
    }
  }

  /**
    Over any history what was accepted is what was handed out plus what waits, and
    every occupied slot lies below the largest number of requests that ever waited.
   */
  lemma {:induction false} HistoryIsABag(h: History, ops: seq<Op>, g: History)
    requires Tidy(h) && After(h, ops, g)
    ensures Tidy(g)
    decreases |ops|
  {
    if ops != [] {
      match ops[0] {
        case Add(fd, data) => TidyAdd(h, fd, data);
        case Take => TidyTake(h);
      }
      HistoryIsABag(Step(h, ops[0]), ops[1..], g);
    }
  }

  // ---- The array in memory -------------------------------------------------------------

  class Queue {
    const tasks: array<Slot>

    /** global_queue_init */
    constructor ()
      ensures fresh(tasks) && tasks.Length == MAX_TASKS && Bag(tasks[..]) == multiset{}
      ensures Tidy(History(tasks[..], multiset{}, multiset{}, 0))
    {
      tasks := new Slot[MAX_TASKS](_ => Slot(-1, Zeros(MAX_DATA_SIZE), false));
      new;
      BagEmpty(tasks[..]);
    }

    /** global_queue_add_task: false stands for the result -1. */
    method AddTask(fd: int, data: string) returns (ok: bool)
      modifies tasks
      ensures tasks[..] == Added(old(tasks[..]), fd, data)
      ensures ok <==> |old(Bag(tasks[..]))| < tasks.Length
      ensures ok ==> Bag(tasks[..]) == old(Bag(tasks[..])) + multiset{Wanted(fd, data)}
      ensures !ok ==> tasks[..] == old(tasks[..])
    {
      AddedBag(tasks[..], fd, data);
      BagSize(tasks[..], 0);
      for i := 0 to tasks.Length
        invariant tasks[..] == old(tasks[..]) && i <= FirstFree(tasks[..])
      {
        if !tasks[i].valid {
          assert tasks[..][i] == tasks[i];
          assert FirstFree(tasks[..]) == i;
          tasks[i] := Slot(fd, Copied(data), true);
          return true;
        }
        assert tasks[..][i].valid;
      }
      return false;
    }

    /** global_queue_get_task */
    method GetTask() returns (task: Option<Slot>)
      modifies tasks
      ensures tasks[..] == Taken(old(tasks[..]))
      ensures task == None <==> old(Bag(tasks[..])) == multiset{}
      ensures task.Some? ==>
                old(Bag(tasks[..])) == Bag(tasks[..]) + multiset{Request(task.value.fd, UpToNul(task.value.data))}
    {
      TakenBag(tasks[..]);
      for i := 0 to tasks.Length
        invariant tasks[..] == old(tasks[..]) && i <= FirstTaken(tasks[..])
      {
        if tasks[i].valid {
          assert tasks[..][i] == tasks[i];
          assert FirstTaken(tasks[..]) == i;
          task := Some(tasks[i]);
          tasks[i] := tasks[i].(valid := false);
          return;
        }
        assert !tasks[..][i].valid;
      }
      return None;
    }
  }
}
