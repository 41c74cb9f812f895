/** `call_rcu`: callbacks queued on any number of per-CPU or per-thread queues, each
    with a worker that takes the whole queue, waits for a grace period and runs it; a
    queue that is freed leaves what it still holds to the default queue.  Queue
    operations are atomic (module WfcQueue), sleeping and waking is left to module
    Worker, and grace periods to module GracePeriod. */
module CallRcu {
  import opened Sequences

  type Qid = nat
  type Sid = nat

  const DEFAULT: Qid := 0

  /** One `call_rcu`: `home` is the queue the caller chose. */
  datatype Cb = Cb(id: nat, home: Qid)

  datatype Pc = Splice | GpBegin | InGp(waitfor: set<Sid>) | Run | CheckStop | SetStopped | Ended

  /** `left` is in flight to the default queue; `taken` says that the queue is being
      freed and its leftovers have been taken off. */
  datatype Crdp = Crdp(queue: seq<Cb>, batch: seq<Cb>, w: Pc, stop: bool, left: seq<Cb>, taken: bool)

  /** `ran` is every callback invoked, in order.  History: `log` is every callback given
      to each queue, in order, and `owed` the read sections in progress when it was. */
  datatype State = State(
    crdp: map<Qid, Crdp>, ran: seq<Cb>, open: set<Sid>, begun: set<Sid>,
    log: map<Qid, seq<Cb>>, owed: map<Cb, set<Sid>>)

  datatype Action =
    | Begin(x: Sid) | End(x: Sid)
    | Create(q: Qid)
    | Call(c: Cb)
    | Work(q: Qid)
    | Stop(q: Qid) | Take(q: Qid) | Append(q: Qid)

  const EMPTY: Crdp := Crdp([], [], Splice, false, [], false)

  predicate Enabled(s: State, a: Action) {
    match a
    case Begin(x) => x !in s.begun
    case End(x) => x in s.open
    case Create(q) => q !in s.crdp
    case Call(c) => c.home in s.crdp && c.home in s.log && !s.crdp[c.home].taken && c !in s.owed
    case Work(q) => q in s.crdp && !s.crdp[q].w.Ended? && (s.crdp[q].w.InGp? ==> s.crdp[q].w.waitfor !! s.open)
    case Stop(q) => q in s.crdp && q != DEFAULT
    case Take(q) => q in s.crdp && q != DEFAULT && s.crdp[q].w.Ended? && !s.crdp[q].taken
    case Append(q) => q in s.crdp && q != DEFAULT && s.crdp[q].taken && DEFAULT in s.crdp
  }

  function Put(s: State, q: Qid, x: Crdp): State { s.(crdp := s.crdp[q := x]) }

  function DoCall(s: State, c: Cb, x: Crdp): State
    requires c.home in s.log
  {
    var t := Put(s, c.home, x.(queue := x.queue + [c]));
    t.(log := s.log[c.home := s.log[c.home] + [c]], owed := s.owed[c := s.open])
  }

  function DoWork(s: State, q: Qid, x: Crdp): State {
    match x.w
    case Splice =>
      Put(s, q, if x.queue == [] then x.(w := CheckStop) else x.(batch := x.queue, queue := [], w := GpBegin))
    case GpBegin => Put(s, q, x.(w := InGp(s.open)))
    case InGp(_) => Put(s, q, x.(w := Run))
    case Run =>
      if x.batch == [] then Put(s, q, x.(w := CheckStop))
      else Put(s, q, x.(batch := x.batch[1..])).(ran := s.ran + [x.batch[0]])
    case CheckStop => Put(s, q, x.(w := if x.stop then SetStopped else Splice))
    case SetStopped => Put(s, q, x.(w := Ended))
    case Ended => s
  }

  function DoAppend(s: State, q: Qid, x: Crdp, d: Crdp): State {
    s.(crdp := s.crdp[q := x.(left := [])][DEFAULT := d.(queue := d.queue + x.left)])
  }

  function Do(s: State, a: Action): State
    requires Enabled(s, a)
  {
    match a
    case Begin(x) => s.(open := s.open + {x}, begun := s.begun + {x})
    case End(x) => s.(open := s.open - {x})
    case Create(q) => Put(s, q, EMPTY).(log := s.log[q := []])
    case Call(c) => DoCall(s, c, s.crdp[c.home])
    case Work(q) => DoWork(s, q, s.crdp[q])
    case Stop(q) => Put(s, q, s.crdp[q].(stop := true))
    case Take(q) => Put(s, q, s.crdp[q].(left := s.crdp[q].queue, queue := [], taken := true))
    case Append(q) => DoAppend(s, q, s.crdp[q], s.crdp[DEFAULT])
  }

  predicate Init(s: State) { s == State(map[DEFAULT := EMPTY], [], {}, {}, map[DEFAULT := []], map[]) }

  // --- the invariant --------------------------------------------------------------------

  /** The callbacks of `w` that were given to `h`, in order. */
  function Of(w: seq<Cb>, h: Qid): seq<Cb> {
    if w == [] then [] else One(w[0], h) + Of(w[1..], h)
  }

  function One(c: Cb, h: Qid): seq<Cb> { if c.home == h then [c] else [] }

  lemma AssocEnd(a: seq<Cb>, b: seq<Cb>, c: seq<Cb>)
    ensures (a + (b + c)) + [] == (a + b) + c
  {
  }

  lemma OfOne(c: Cb, h: Qid)
    ensures Of([c], h) == One(c, h)
  {
    assert Of([c][1..], h) == [];
  }

  lemma {:induction false} OfAppend(v: seq<Cb>, w: seq<Cb>, h: Qid)
    ensures Of(v + w, h) == Of(v, h) + Of(w, h)
  {
    if v == [] {
      assert v + w == w;
    } else {
      OfAppend(v[1..], w, h);
      assert (v + w)[1..] == v[1..] + w && (v + w)[0] == v[0];
      Assoc(One(v[0], h), Of(v[1..], h), Of(w, h));
    }
  }

  predicate AllOf(w: seq<Cb>, h: Qid) { forall i {:trigger w[i]} | 0 <= i < |w| :: w[i].home == h }

  lemma {:induction false} OfAll(w: seq<Cb>, g: Qid, h: Qid)
    requires AllOf(w, g)
    ensures Of(w, h) == if g == h then w else []
  {
    if w != [] {
      assert AllOf(w[1..], g);
      OfAll(w[1..], g, h);
      assert w == [w[0]] + w[1..];
    }
  }

  /** What was given to `h` is what has run of it, then what is still to run, in order. */
  predicate PipeOk(s: State, h: Qid) {
    && DEFAULT in s.crdp
    && (h !in s.crdp ==> Of(s.ran, h) == [] && Of(s.crdp[DEFAULT].batch, h) == [] && Of(s.crdp[DEFAULT].queue, h) == [])
    && (h in s.crdp ==> QueuePipe(s, h))
  }

  predicate QueuePipe(s: State, h: Qid)
    requires h in s.crdp && DEFAULT in s.crdp
  {
      && h in s.log
      && var x := s.crdp[h]; var d := s.crdp[DEFAULT];
        && (h == DEFAULT || x.taken ==> s.log[h] == Of(s.ran, h) + Of(d.batch, h) + Of(d.queue, h) + x.left)
        && (h != DEFAULT && !x.taken ==>
              && s.log[h] == Of(s.ran, h) + x.batch + x.queue
              && Of(d.batch, h) == [] && Of(d.queue, h) == [] && x.left == [])
        && (h == DEFAULT ==> !x.taken && x.left == [])
        && (x.taken ==> x.w.Ended? && x.queue == [])
        && (x.batch != [] ==> x.w.GpBegin? || x.w.InGp? || x.w.Run?)
        && (h != DEFAULT ==> AllOf(x.batch, h) && AllOf(x.queue, h) && AllOf(x.left, h))
  }

  /** A callback in a batch: the grace period it waits for covers what it owes. */
  predicate CbOk(s: State, q: Qid, i: int) {
    q in s.crdp ==>
      && var x := s.crdp[q];
      && (0 <= i < |x.queue| ==> x.queue[i] in s.owed)
      && (0 <= i < |x.left| ==> x.left[i] in s.owed)
      && (0 <= i < |x.batch| ==>
        && x.batch[i] in s.owed
        && (x.w.InGp? ==> s.owed[x.batch[i]] * s.open <= x.w.waitfor)
        && (x.w.Run? ==> s.owed[x.batch[i]] !! s.open))
  }

  predicate OwedOk(s: State, c: Cb) {
    && (c in s.owed ==> s.owed[c] <= s.begun && c.home in s.log)
    && (c.home in s.log ==> (c in s.log[c.home] <==> c in s.owed))
  }

  /** How often `c` was given to its queue. */
  predicate OnceOk(s: State, c: Cb) { c.home in s.log ==> multiset(s.log[c.home])[c] <= 1 }

  ghost predicate Inv(s: State) {
    && DEFAULT in s.crdp && s.crdp.Keys == s.log.Keys && s.open <= s.begun
    && (forall h {:trigger PipeOk(s, h)} :: PipeOk(s, h))
    && (forall q, i {:trigger CbOk(s, q, i)} :: CbOk(s, q, i))
    && (forall c {:trigger OwedOk(s, c)} :: OwedOk(s, c))
    && (forall c {:trigger OnceOk(s, c)} :: OnceOk(s, c))
  }

  lemma InitInv(s: State)
    requires Init(s)
    ensures Inv(s)
  {
  }

  // --- every step keeps it --------------------------------------------------------------

  /** The worker's steps that leave the callbacks where they are. */
  lemma Moved(s: State, q: Qid, x: Crdp)
    requires Inv(s) && q in s.crdp
    requires x == s.crdp[q].(w := x.w, stop := x.stop) && PipeOk(Put(s, q, x), q)
    requires x.w.InGp? ==> x.w.waitfor == s.open
    requires x.w.Run? ==> s.crdp[q].w.Run? || (s.crdp[q].w.InGp? && s.crdp[q].w.waitfor !! s.open)
    ensures Inv(Put(s, q, x))
  {
    var t := Put(s, q, x);
    forall h {:trigger PipeOk(t, h)} ensures PipeOk(t, h) { assert PipeOk(s, h); }
    forall p, i {:trigger CbOk(t, p, i)} ensures CbOk(t, p, i) { assert CbOk(s, p, i); }
    forall c {:trigger OwedOk(t, c)} ensures OwedOk(t, c) { assert OwedOk(s, c); }
    forall c {:trigger OnceOk(t, c)} ensures OnceOk(t, c) { assert OnceOk(s, c); }
  }

  lemma SplicePipe(s: State, q: Qid, x: Crdp, h: Qid)
    requires Inv(s) && q in s.crdp && s.crdp[q].w.Splice? && s.crdp[q].queue != []
    requires x == s.crdp[q].(batch := s.crdp[q].queue, queue := [], w := GpBegin)
    ensures PipeOk(Put(s, q, x), h)
  {
    assert PipeOk(s, h) && PipeOk(s, q);
    if h in s.crdp {
      var d := s.crdp[DEFAULT];
      var r := Of(s.ran, h);
      assert r + [] == r;
      assert (r + Of(d.queue, h)) + [] == r + Of(d.queue, h);
      if h == q && h != DEFAULT { assert (r + s.crdp[q].queue) + [] == r + s.crdp[q].queue; }
    }
  }

  lemma SpliceKeeps(s: State, q: Qid, x: Crdp)
    requires Inv(s) && q in s.crdp && s.crdp[q].w.Splice? && s.crdp[q].queue != []
    requires x == s.crdp[q].(batch := s.crdp[q].queue, queue := [], w := GpBegin)
    ensures Inv(Put(s, q, x))
  {
    var t := Put(s, q, x);
    forall h {:trigger PipeOk(t, h)} ensures PipeOk(t, h) { SplicePipe(s, q, x, h); }
    forall p, i {:trigger CbOk(t, p, i)} ensures CbOk(t, p, i) { assert CbOk(s, p, i); }
    forall c {:trigger OwedOk(t, c)} ensures OwedOk(t, c) { assert OwedOk(s, c); }
    forall c {:trigger OnceOk(t, c)} ensures OnceOk(t, c) { assert OnceOk(s, c); }
  }

  lemma OfMoves(r: seq<Cb>, w: seq<Cb>, h: Qid)
    requires w != []
    ensures Of(r + [w[0]], h) + Of(w[1..], h) == Of(r, h) + Of(w, h)
    ensures Of(r, h) == [] && Of(w, h) == [] ==> Of(r + [w[0]], h) == [] && Of(w[1..], h) == []
  {
    OfAppend(r, [w[0]], h);
    OfOne(w[0], h);
    Assoc(Of(r, h), One(w[0], h), Of(w[1..], h));
  }

  /** The default queue's worker invokes a callback. */
  lemma RunDefault(s: State, x: Crdp, h: Qid)
    requires Inv(s) && s.crdp[DEFAULT].w.Run? && s.crdp[DEFAULT].batch != []
    requires x == s.crdp[DEFAULT].(batch := s.crdp[DEFAULT].batch[1..])
    ensures PipeOk(Put(s, DEFAULT, x).(ran := s.ran + [s.crdp[DEFAULT].batch[0]]), h)
  {
    assert PipeOk(s, h) && PipeOk(s, DEFAULT);
    OfMoves(s.ran, s.crdp[DEFAULT].batch, h);
    if h in s.crdp && h != DEFAULT && !s.crdp[h].taken { OfRunIgnores(s.ran, s.crdp[DEFAULT].batch, h); }
  }

  lemma OfRunIgnores(r: seq<Cb>, w: seq<Cb>, h: Qid)
    requires w != [] && Of(w, h) == []
    ensures Of(r + [w[0]], h) == Of(r, h) && Of(w[1..], h) == []
  {
    OfAppend(r, [w[0]], h);
    OfOne(w[0], h);
  }

  lemma RunOther(s: State, q: Qid, x: Crdp, h: Qid)
    requires Inv(s) && q in s.crdp && q != DEFAULT && s.crdp[q].w.Run? && s.crdp[q].batch != []
    requires x == s.crdp[q].(batch := s.crdp[q].batch[1..])
    ensures PipeOk(Put(s, q, x).(ran := s.ran + [s.crdp[q].batch[0]]), h)
  {
    assert PipeOk(s, h) && PipeOk(s, q);
    var c := s.crdp[q].batch[0];
    OfAppend(s.ran, [c], h);
    OfOne(c, h);
    if h == q {
      assert (Of(s.ran, h) + [c]) + x.batch == Of(s.ran, h) + s.crdp[q].batch;
    } else {
      assert Of(s.ran, h) + [] == Of(s.ran, h);
    }
  }

  lemma RunKeeps(s: State, q: Qid, x: Crdp, t: State)
    requires Inv(s) && q in s.crdp && s.crdp[q].w.Run? && s.crdp[q].batch != []
    requires x == s.crdp[q].(batch := s.crdp[q].batch[1..]) && t == Put(s, q, x).(ran := s.ran + [s.crdp[q].batch[0]])
    ensures Inv(t)
  {
    forall h {:trigger PipeOk(t, h)} ensures PipeOk(t, h) {
      if q == DEFAULT { RunDefault(s, x, h); } else { RunOther(s, q, x, h); }
    }
    forall p, i {:trigger CbOk(t, p, i)} ensures CbOk(t, p, i) { assert CbOk(s, p, i) && CbOk(s, p, i + 1); }
    forall c {:trigger OwedOk(t, c)} ensures OwedOk(t, c) { assert OwedOk(s, c); }
    forall c {:trigger OnceOk(t, c)} ensures OnceOk(t, c) { assert OnceOk(s, c); }
  }

  lemma EndGrows(r: seq<Cb>, q: seq<Cb>, c: Cb)
    ensures r + (q + [c]) + [] == (r + q + []) + [c]
  {
  }

  lemma CallDefaultOwn(s: State, c: Cb, t: State)
    requires PipeOk(s, DEFAULT) && c.home == DEFAULT && t == DoCall(s, c, s.crdp[DEFAULT])
    ensures PipeOk(t, DEFAULT)
  {
    var d := s.crdp[DEFAULT];
    OfAppend(d.queue, [c], DEFAULT);
    OfOne(c, DEFAULT);
    EndGrows(Of(s.ran, DEFAULT) + Of(d.batch, DEFAULT), Of(d.queue, DEFAULT), c);
  }

  lemma CallDefaultRest(s: State, c: Cb, t: State, h: Qid)
    requires PipeOk(s, h) && PipeOk(s, DEFAULT) && c.home == DEFAULT && h != DEFAULT
    requires t == DoCall(s, c, s.crdp[DEFAULT])
    ensures PipeOk(t, h)
  {
    OfAppend(s.crdp[DEFAULT].queue, [c], h);
    OfOne(c, h);
    assert Of(s.crdp[DEFAULT].queue, h) + [] == Of(s.crdp[DEFAULT].queue, h);
  }

  lemma CallDefault(s: State, c: Cb, t: State, h: Qid)
    requires Inv(s) && Enabled(s, Call(c)) && c.home == DEFAULT && t == DoCall(s, c, s.crdp[DEFAULT])
    ensures PipeOk(t, h)
  {
    assert PipeOk(s, h) && PipeOk(s, DEFAULT);
    if h == DEFAULT { CallDefaultOwn(s, c, t); } else { CallDefaultRest(s, c, t, h); }
  }

  lemma CallOther(s: State, c: Cb, t: State, h: Qid)
    requires Inv(s) && Enabled(s, Call(c)) && c.home != DEFAULT && t == DoCall(s, c, s.crdp[c.home])
    ensures PipeOk(t, h)
  {
    assert PipeOk(s, h) && PipeOk(s, c.home);
    if h == c.home {
      var r := Of(s.ran, h) + s.crdp[h].batch;
      assert r + (s.crdp[h].queue + [c]) == (r + s.crdp[h].queue) + [c];
    }
  }

  lemma CallKeeps(s: State, c: Cb, t: State)
    requires Inv(s) && Enabled(s, Call(c)) && t == DoCall(s, c, s.crdp[c.home])
    ensures Inv(t)
  {
    assert OwedOk(s, c) && OnceOk(s, c);
    forall h {:trigger PipeOk(t, h)} ensures PipeOk(t, h) {
      if c.home == DEFAULT { CallDefault(s, c, t, h); } else { CallOther(s, c, t, h); }
    }
    forall p, i {:trigger CbOk(t, p, i)} ensures CbOk(t, p, i) { assert CbOk(s, p, i); }
    forall e {:trigger OwedOk(t, e)} ensures OwedOk(t, e) { assert OwedOk(s, e); }
    forall e {:trigger OnceOk(t, e)} ensures OnceOk(t, e) { assert OnceOk(s, e); }
  }

  lemma TakeKeeps(s: State, q: Qid, t: State)
    requires Inv(s) && Enabled(s, Take(q)) && t == Do(s, Take(q))
    ensures Inv(t)
  {
    assert PipeOk(s, q);
    assert Of(s.ran, q) + [] + [] == Of(s.ran, q);
    assert Of(s.ran, q) + [] + s.crdp[q].queue == Of(s.ran, q) + s.crdp[q].queue;
    forall h {:trigger PipeOk(t, h)} ensures PipeOk(t, h) { assert PipeOk(s, h); }
    forall p, i {:trigger CbOk(t, p, i)} ensures CbOk(t, p, i) { assert CbOk(s, p, i); }
    forall e {:trigger OwedOk(t, e)} ensures OwedOk(t, e) { assert OwedOk(s, e); }
    forall e {:trigger OnceOk(t, e)} ensures OnceOk(t, e) { assert OnceOk(s, e); }
  }

  lemma AppendOwn(s: State, q: Qid, t: State)
    requires Inv(s) && Enabled(s, Append(q)) && t == DoAppend(s, q, s.crdp[q], s.crdp[DEFAULT])
    ensures PipeOk(t, q)
  {
    assert PipeOk(s, q) && PipeOk(s, DEFAULT);
    var x, d := s.crdp[q], s.crdp[DEFAULT];
    OfAppend(d.queue, x.left, q);
    OfAll(x.left, q, q);
    AssocEnd(Of(s.ran, q) + Of(d.batch, q), Of(d.queue, q), x.left);
  }

  lemma AppendPipe(s: State, q: Qid, t: State, h: Qid)
    requires Inv(s) && Enabled(s, Append(q)) && t == DoAppend(s, q, s.crdp[q], s.crdp[DEFAULT]) && h != q
    ensures PipeOk(t, h)
  {
    assert PipeOk(s, h) && PipeOk(s, q) && PipeOk(s, DEFAULT);
    OfAppend(s.crdp[DEFAULT].queue, s.crdp[q].left, h);
    OfAll(s.crdp[q].left, q, h);
    assert Of(s.crdp[DEFAULT].queue, h) + [] == Of(s.crdp[DEFAULT].queue, h);
  }

  lemma AppendKeeps(s: State, q: Qid, t: State)
    requires Inv(s) && Enabled(s, Append(q)) && t == DoAppend(s, q, s.crdp[q], s.crdp[DEFAULT])
    ensures Inv(t)
  {
    forall h {:trigger PipeOk(t, h)} ensures PipeOk(t, h) {
      if h == q { AppendOwn(s, q, t); } else { AppendPipe(s, q, t, h); }
    }
    forall p, i {:trigger CbOk(t, p, i)} ensures CbOk(t, p, i) {
      assert CbOk(s, p, i) && CbOk(s, q, i - |s.crdp[DEFAULT].queue|);
    }
    forall e {:trigger OwedOk(t, e)} ensures OwedOk(t, e) { assert OwedOk(s, e); }
    forall e {:trigger OnceOk(t, e)} ensures OnceOk(t, e) { assert OnceOk(s, e); }
  }

  lemma SectionKeeps(s: State, t: State)
    requires Inv(s) && t == s.(open := t.open, begun := t.begun) && s.begun <= t.begun && t.open <= t.begun
    requires forall x {:trigger x in t.open} | x in t.open :: x in s.open || x !in s.begun
    ensures Inv(t)
  {
    forall h {:trigger PipeOk(t, h)} ensures PipeOk(t, h) { assert PipeOk(s, h); }
    forall p, i {:trigger CbOk(t, p, i)} ensures CbOk(t, p, i) {
      assert CbOk(s, p, i);
      if p in s.crdp && 0 <= i < |s.crdp[p].batch| { assert OwedOk(s, s.crdp[p].batch[i]); }
    }
    forall e {:trigger OwedOk(t, e)} ensures OwedOk(t, e) { assert OwedOk(s, e); }
    forall e {:trigger OnceOk(t, e)} ensures OnceOk(t, e) { assert OnceOk(s, e); }
  }

  lemma CreateKeeps(s: State, q: Qid, t: State)
    requires Inv(s) && q !in s.crdp && t == Put(s, q, EMPTY).(log := s.log[q := []])
    ensures Inv(t)
  {
    forall h {:trigger PipeOk(t, h)} ensures PipeOk(t, h) { assert PipeOk(s, h) && PipeOk(s, q); }
    forall p, i {:trigger CbOk(t, p, i)} ensures CbOk(t, p, i) { assert CbOk(s, p, i); }
    forall e {:trigger OwedOk(t, e)} ensures OwedOk(t, e) { assert OwedOk(s, e); }
    forall e {:trigger OnceOk(t, e)} ensures OnceOk(t, e) { assert OnceOk(s, e); }
  }

  lemma WorkKeeps(s: State, q: Qid)
    requires Inv(s) && Enabled(s, Work(q))
    ensures Inv(DoWork(s, q, s.crdp[q]))
  {
    var x := s.crdp[q];
    assert PipeOk(s, q);
    match x.w
    case Splice =>
      if x.queue == [] {
        Moved(s, q, x.(w := CheckStop));
      } else {
        SpliceKeeps(s, q, x.(batch := x.queue, queue := [], w := GpBegin));
      }
    case GpBegin => Moved(s, q, x.(w := InGp(s.open)));
    case InGp(_) => Moved(s, q, x.(w := Run));
    case Run =>
      if x.batch == [] {
        Moved(s, q, x.(w := CheckStop));
      } else {
        RunKeeps(s, q, x.(batch := x.batch[1..]), DoWork(s, q, x));
      }
    case CheckStop => Moved(s, q, x.(w := if x.stop then SetStopped else Splice));
    case SetStopped => Moved(s, q, x.(w := Ended));
  }

  lemma StopKeeps(s: State, q: Qid)
    requires Inv(s) && q in s.crdp
    ensures Inv(Put(s, q, s.crdp[q].(stop := true)))
  {
    var t := Put(s, q, s.crdp[q].(stop := true));
    forall h {:trigger PipeOk(t, h)} ensures PipeOk(t, h) { assert PipeOk(s, h); }
    forall p, i {:trigger CbOk(t, p, i)} ensures CbOk(t, p, i) { assert CbOk(s, p, i); }
    forall c {:trigger OwedOk(t, c)} ensures OwedOk(t, c) { assert OwedOk(s, c); }
    forall c {:trigger OnceOk(t, c)} ensures OnceOk(t, c) { assert OnceOk(s, c); }
  }

  lemma StepInv(s: State, a: Action)
    requires Inv(s) && Enabled(s, a)
    ensures Inv(Do(s, a))
  {
    match a
    case Begin(x) => SectionKeeps(s, Do(s, a));
    case End(x) => SectionKeeps(s, Do(s, a));
    case Create(q) => CreateKeeps(s, q, Do(s, a));
    case Call(c) => CallKeeps(s, c, Do(s, a));
    case Work(q) => WorkKeeps(s, q);
    case Stop(q) => StopKeeps(s, q);
    case Take(q) => TakeKeeps(s, q, Do(s, a));
    case Append(q) => AppendKeeps(s, q, Do(s, a));
  }

  // --- runs -----------------------------------------------------------------------------

  ghost predicate IsRun(tr: seq<State>, acts: seq<Action>) {
    && |tr| == |acts| + 1 && Init(tr[0])
    && forall i {:trigger acts[i]} {:trigger tr[i + 1]} | 0 <= i < |acts| ::
      Enabled(tr[i], acts[i]) && tr[i + 1] == Do(tr[i], acts[i])
  }

  lemma {:induction false} Reachable(tr: seq<State>, acts: seq<Action>, i: nat)
    requires IsRun(tr, acts) && i < |tr|
    ensures Inv(tr[i])
  {
    if i == 0 {
      InitInv(tr[0]);
    } else {
      Reachable(tr, acts, i - 1);
      assert Enabled(tr[i - 1], acts[i - 1]) && tr[i] == Do(tr[i - 1], acts[i - 1]);
      StepInv(tr[i - 1], acts[i - 1]);
    }
  }

  /** What is still to run of the callbacks given to `h`, oldest first: in the default
      queue's batch and queue once `h` has been freed, in flight, and in its own. */
  function Waiting(s: State, h: Qid): seq<Cb>
    requires h in s.crdp && DEFAULT in s.crdp
  {
    var x, d := s.crdp[h], s.crdp[DEFAULT];
    if h == DEFAULT then Of(d.batch, h) + Of(d.queue, h)
    else Of(d.batch, h) + Of(d.queue, h) + x.left + x.batch + x.queue
  }

  /** Every callback given to a queue is invoked in the order it was given, or still
      waits in that order: none is lost, none repeated, none overtakes another, also
      when the queue is freed and its leftovers go to the default queue. */
  lemma PerQueueFifo(tr: seq<State>, acts: seq<Action>, i: nat, h: Qid)
    requires IsRun(tr, acts) && i < |tr| && h in tr[i].crdp
    ensures h in tr[i].log && DEFAULT in tr[i].crdp
    ensures tr[i].log[h] == Of(tr[i].ran, h) + Waiting(tr[i], h)
  {
    Reachable(tr, acts, i);
    assert PipeOk(tr[i], h);
    var s := tr[i];
    RegroupTaken(Of(s.ran, h), Of(s.crdp[DEFAULT].batch, h), Of(s.crdp[DEFAULT].queue, h),
                 s.crdp[h].left, s.crdp[h].batch, s.crdp[h].queue);
  }

  lemma RegroupTaken(r: seq<Cb>, a: seq<Cb>, b: seq<Cb>, c: seq<Cb>, d: seq<Cb>, e: seq<Cb>)
    ensures r + a + b + [] == r + (a + b)
    ensures d == e == [] ==> r + a + b + c == r + (a + b + c + d + e)
    ensures a == b == c == [] ==> r + d + e == r + (a + b + c + d + e)
  {
    assert r + a + b + [] == r + (a + b);
    if d == e == [] {
      assert a + b + c + [] + [] == a + b + c;
      assert r + a + b + c == r + (a + b + c);
    }
    if a == b == c == [] { assert [] + [] + [] + d + e == d + e; }
  }

  lemma {:induction false} OfCount(w: seq<Cb>, c: Cb)
    ensures multiset(Of(w, c.home))[c] == multiset(w)[c]
  {
    if w != [] {
      OfCount(w[1..], c);
      assert w == [w[0]] + w[1..];
    }
  }

  /** No callback is invoked twice. */
  lemma InvokedOnce(tr: seq<State>, acts: seq<Action>, i: nat, c: Cb)
    requires IsRun(tr, acts) && i < |tr|
    ensures multiset(tr[i].ran)[c] <= 1
  {
    Reachable(tr, acts, i);
    var s := tr[i];
    OfCount(s.ran, c);
    assert PipeOk(s, c.home);
    if c.home in s.crdp {
      PerQueueFifo(tr, acts, i, c.home);
      assert OnceOk(s, c);
      assert multiset(s.log[c.home]) == multiset(Of(s.ran, c.home)) + multiset(Waiting(s, c.home));
    }
  }

  lemma StepOwed(tr: seq<State>, acts: seq<Action>, k: nat, c: Cb)
    requires IsRun(tr, acts) && k < |acts| && c in tr[k].owed
    ensures c in tr[k + 1].owed && tr[k + 1].owed[c] == tr[k].owed[c]
  {
    assert Enabled(tr[k], acts[k]) && tr[k + 1] == Do(tr[k], acts[k]);
  }

  lemma {:induction false} OwedSinceCall(tr: seq<State>, acts: seq<Action>, i: nat, j: nat, c: Cb)
    requires IsRun(tr, acts) && i < j < |tr| && i < |acts| && acts[i] == Call(c)
    ensures c in tr[j].owed && tr[j].owed[c] == tr[i].open
  {
    if i + 1 == j {
      assert Enabled(tr[i], acts[i]) && tr[j] == Do(tr[i], acts[i]);
    } else {
      OwedSinceCall(tr, acts, i, j - 1, c);
      StepOwed(tr, acts, j - 1, c);
    }
  }

  /** Step `j` invokes `c`, on the worker of any queue. */
  predicate Invokes(s: State, a: Action, c: Cb) {
    a.Work? && a.q in s.crdp && s.crdp[a.q].w.Run? && s.crdp[a.q].batch != [] && s.crdp[a.q].batch[0] == c
  }

  /** A callback is invoked only when every read section in progress at its `call_rcu`
      has ended, whichever worker invokes it. */
  lemma NeverEarly(tr: seq<State>, acts: seq<Action>, i: nat, j: nat, c: Cb)
    requires IsRun(tr, acts) && i < j < |acts| && acts[i] == Call(c) && Invokes(tr[j], acts[j], c)
    ensures tr[i].open !! tr[j].open
  {
    Reachable(tr, acts, j);
    OwedSinceCall(tr, acts, i, j, c);
    assert CbOk(tr[j], acts[j].q, 0);
  }
}
