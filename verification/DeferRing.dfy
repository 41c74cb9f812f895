/** The per-thread ring of deferred callbacks: one, two or three words per callback,
    written by the owner thread and decoded by whoever runs the barrier. */
module DeferRing {
  import opened Sequences

  /** Entries in the ring. */
  const SIZE: nat := 4096

  /** The number of values of a word; the counters `head` and `tail` wrap there. */
  const WORDS: nat := 0x1_0000_0000_0000_0000

  type Word = w: int | 0 <= w < 0x1_0000_0000_0000_0000

  /** Every bit but the lowest. */
  const FCT_MARK: Word := 0xFFFF_FFFF_FFFF_FFFE

  datatype Call = Call(fct: Word, p: Word)

  predicate IsFctBit(x: Word) { x % 2 == 1 }

  function SetFctBit(x: Word): Word { x - x % 2 + 1 }

  function ClearFctBit(x: Word): Word { x - x % 2 }

  // --- the encoding ---------------------------------------------------------------------

  /** The words of one callback, after one whose function was `last`. */
  function Encode(last: Word, c: Call): seq<Word> {
    if last != c.fct || IsFctBit(c.p) || c.p == FCT_MARK then
      if IsFctBit(c.fct) || c.fct == FCT_MARK then [FCT_MARK, c.fct, c.p] else [SetFctBit(c.fct), c.p]
    else [c.p]
  }

  function EncodeAll(last: Word, calls: seq<Call>): seq<Word>
    decreases |calls|
  {
    if calls == [] then [] else Encode(last, calls[0]) + EncodeAll(calls[0].fct, calls[1..])
  }

  function LastFct(last: Word, calls: seq<Call>): Word { if calls == [] then last else calls[|calls| - 1].fct }

  datatype Decoded = Record(c: Call, length: nat) | PastEnd

  /** What the decoder makes of the first record of `w`: `last` is the function it
      remembers. */
  function DecodeOne(last: Word, w: seq<Word>): Decoded {
    if |w| == 0 then PastEnd
    else if IsFctBit(w[0]) then
      if |w| < 2 then PastEnd else Record(Call(ClearFctBit(w[0]), w[1]), 2)
    else if w[0] == FCT_MARK then
      if |w| < 3 then PastEnd else Record(Call(w[1], w[2]), 3)
    else Record(Call(last, w[0]), 1)
  }

  /** All the records of `w`, or None where the decoder would read past the end. */
  function DecodeAll(last: Word, w: seq<Word>): Option<seq<Call>>
    decreases |w|
  {
    if w == [] then Some([])
    else
      match DecodeOne(last, w)
      case PastEnd => None
      case Record(c, n) =>
        var rest := DecodeAll(c.fct, w[n..]);
        if rest.None? then None else Some([c] + rest.value)
  }

  /** The first record decodes to its callback, exactly its own words, and whatever
      follows is not looked at. */
  lemma FirstRecord(last: Word, c: Call, rest: seq<Word>)
    ensures DecodeOne(last, Encode(last, c) + rest) == Record(c, |Encode(last, c)|)
    ensures 1 <= |Encode(last, c)| <= 3
  {
  }

  /** The three forms of a record, told apart by their first word. */
  lemma RecordForms(last: Word, c: Call, w: seq<Word>)
    requires w == Encode(last, c)
    ensures 1 <= |w| <= 3
    ensures IsFctBit(w[0]) ==> |w| == 2 && ClearFctBit(w[0]) == c.fct && w[1] == c.p
    ensures w[0] == FCT_MARK ==> |w| == 3 && w[1] == c.fct && w[2] == c.p
    ensures !IsFctBit(w[0]) && w[0] != FCT_MARK ==> |w| == 1 && last == c.fct && w[0] == c.p
  {
  }

  /** Decoding undoes encoding, for any callbacks and any starting function. */
  lemma {:induction false} RoundTrip(last: Word, calls: seq<Call>)
    ensures DecodeAll(last, EncodeAll(last, calls)) == Some(calls)
    decreases |calls|
  {
    if calls == [] {
    } else {
      var c := calls[0];
      var rest := EncodeAll(c.fct, calls[1..]);
      var w := Encode(last, c) + rest;
      FirstRecord(last, c, rest);
      assert w[|Encode(last, c)|..] == rest;
      RoundTrip(c.fct, calls[1..]);
      assert [c] + calls[1..] == calls;
    }
  }

  lemma {:induction false} EncodeAppend(last: Word, calls: seq<Call>, more: seq<Call>)
    ensures EncodeAll(last, calls + more) == EncodeAll(last, calls) + EncodeAll(LastFct(last, calls), more)
    decreases |calls|
  {
    if calls == [] {
      assert calls + more == more;
    } else {
      var c := calls[0];
      assert (calls + more)[1..] == calls[1..] + more;
      EncodeAppend(c.fct, calls[1..], more);
      assert LastFct(last, calls) == LastFct(c.fct, calls[1..]);
      assert Encode(last, c) + (EncodeAll(c.fct, calls[1..]) + EncodeAll(LastFct(last, calls), more))
          == (Encode(last, c) + EncodeAll(c.fct, calls[1..])) + EncodeAll(LastFct(last, calls), more);
    }
  }

  lemma EncodeOne(last: Word, calls: seq<Call>, c: Call)
    ensures EncodeAll(last, calls + [c]) == EncodeAll(last, calls) + Encode(LastFct(last, calls), c)
    ensures LastFct(last, calls + [c]) == c.fct
  {
    EncodeAppend(last, calls, [c]);
    assert EncodeAll(c.fct, [c][1..]) == [];
  }

  lemma {:induction false} EncodeLength(last: Word, calls: seq<Call>)
    ensures |calls| <= |EncodeAll(last, calls)|
    decreases |calls|
  {
    if calls != [] { EncodeLength(calls[0].fct, calls[1..]); }
  }

  /** Two different sequences of callbacks never have the same words: the encoding can
      be read in one way only. */
  lemma Unambiguous(last: Word, calls: seq<Call>, more: seq<Call>)
    requires EncodeAll(last, calls) == EncodeAll(last, more)
    ensures calls == more
  {
    RoundTrip(last, calls);
    RoundTrip(last, more);
  }

  // --- counters that wrap ---------------------------------------------------------------

  function Slot(x: nat): nat { x % SIZE }

  function Wrap(x: nat): Word { x % WORDS }

  function Next(i: Word): Word { if i == WORDS - 1 then 0 else i + 1 }

  /** The unsigned difference of two words. */
  function Minus(a: Word, b: Word): Word { if a >= b then a - b else a + WORDS - b }

  lemma SlotOfWrap(x: nat)
    ensures Slot(Wrap(x)) == Slot(x)
  {
    var d, r := x / WORDS, x % WORDS;
    var k := WORDS / SIZE * d;
    assert x == WORDS * d + r;
    assert x == r + k * SIZE;
    ModPlus(r, k);
  }

  lemma ModPlus(r: nat, k: nat)
    ensures (r + k * SIZE) % SIZE == r % SIZE
  {
    var q := r / SIZE;
    assert r + k * SIZE == (q + k) * SIZE + r % SIZE;
  }

  lemma NextWraps(x: nat)
    ensures Next(Wrap(x)) == Wrap(x + 1)
  {
  }

  lemma MinusWraps(a: nat, b: nat)
    requires b <= a < b + WORDS
    ensures Minus(Wrap(a), Wrap(b)) == a - b
  {
  }

  /** Counters less than a turn apart are in different slots. */
  lemma SlotsApart(x: nat, y: nat)
    requires x < y < x + SIZE
    ensures Slot(x) != Slot(y)
  {
  }

  lemma WrapsApart(x: nat, y: nat)
    requires x <= y < x + WORDS
    ensures Wrap(x) == Wrap(y) <==> x == y
  {
  }

  // --- the ring -------------------------------------------------------------------------

  /** What the owner does while someone else runs the barrier: the callbacks it queues
      before load `j` of record `k`. */
  type Schedule = (nat, nat) -> seq<Call>

  /** The owner does nothing meanwhile, or runs the barrier itself. */
  ghost predicate Alone(sched: Schedule) { forall k, j {:trigger sched(k, j)} :: sched(k, j) == [] }

  predicate Suffixed<T(==)>(all: seq<T>, k: nat, w: seq<T>) { k <= |all| && all[k..] <= w }

  lemma SuffixStep<T>(all: seq<T>, k: nat, w: seq<T>, v: seq<T>)
    requires Suffixed(all, k, w) && w != [] && w[1..] <= v && k < |all|
    ensures Suffixed(all, k + 1, v) && all[k] == w[0]
  {
    assert all[k..][0] == w[0];
    forall j | 0 <= j < |all| - k - 1 ensures all[k + 1..][j] == v[j] {
      assert all[k..][j + 1] == w[j + 1] && w[1..][j] == v[j];
    }
  }

  /** Of `all`, the first `k` have moved behind `ran`, and the others are the first of
      `left`. */
  predicate Progress<T(==)>(all: seq<T>, k: nat, ran: seq<T>, done: seq<T>, left: seq<T>) {
    Suffixed(all, k, left) && done == ran + all[..k]
  }

  lemma ProgressStep<T>(all: seq<T>, k: nat, ran: seq<T>, i: seq<T>, w: seq<T>, i': seq<T>, v: seq<T>)
    requires Progress(all, k, ran, i, w) && k < |all| && w != [] && w[1..] <= v && i' == i + [w[0]]
    ensures Progress(all, k + 1, ran, i', v)
  {
    SuffixStep(all, k, w, v);
    assert all[..k + 1] == all[..k] + [w[0]];
  }

  /** The grace periods of the process, numbered from 1 as they begin (history). */
  class Clock {
    ghost var begun: nat
    ghost var ended: nat

    ghost predicate Valid()
      reads this
    {
      ended <= begun
    }

    constructor ()
      ensures Valid()
    {
      begun, ended := 0, 0;
    }
  }

  class DeferQueue {
    var head: Word
    var lastFctIn: Word
    var tail: Word
    var lastFctOut: Word
    const q: array<Word>
    const gp: Clock

    /** The callbacks run so far, oldest first. */
    var invoked: seq<Call>

    // History: where the ring's words are on counters that do not wrap.  Words `base`
    // to `put` may not be overwritten, `got` to `put` are not decoded yet, and they are
    // `calls`, after the function `cur`.  `stamps` counts the grace periods begun when
    // each was queued, `born` the same for those run, and `due` the grace periods ended
    // when each ran.
    ghost var base: nat
    ghost var got: nat
    ghost var put: nat
    ghost var cur: Word
    ghost var calls: seq<Call>
    ghost var stamps: seq<nat>
    ghost var born: seq<nat>
    ghost var due: seq<nat>

    /** The ring holds `w` from counter `from` on. */
    ghost predicate Holds(from: nat, w: seq<Word>)
      reads q
    {
      q.Length == SIZE && forall k {:trigger w[k]} | 0 <= k < |w| :: q[Slot(from + k)] == w[k]
    }

    /** The words and the counters. */
    ghost predicate Ring()
      reads this, q
    {
      && q.Length == SIZE && base <= got <= put <= base + SIZE
      && head == Wrap(put) && tail == Wrap(base)
      && |EncodeAll(cur, calls)| == put - got && Holds(got, EncodeAll(cur, calls))
      && lastFctIn == LastFct(cur, calls)
    }

    /** Every callback that has run was queued before a grace period began that had
        ended by then. */
    ghost predicate Aged()
      reads this, gp
    {
      && gp.Valid() && |stamps| == |calls| && |born| == |due| == |invoked|
      && (forall k {:trigger stamps[k]} | 0 <= k < |stamps| :: stamps[k] <= gp.begun)
      && (forall k {:trigger born[k]} {:trigger due[k]} | 0 <= k < |born| :: born[k] < due[k] <= gp.ended)
    }

    ghost predicate Valid()
      reads this, q, gp
    {
      Ring() && Aged()
    }

    /** No barrier is running. */
    ghost predicate Quiet()
      reads this
    {
      base == got && cur == lastFctOut
    }

    constructor (gp: Clock)
      requires gp.Valid()
      ensures Valid() && Quiet() && calls == [] && invoked == [] && fresh(q) && this.gp == gp
    {
      head, lastFctIn, tail, lastFctOut, invoked := 0, 0, 0, 0, [];
      q := new Word[SIZE](_ => 0);
      this.gp := gp;
      base, got, put, cur, calls, stamps, born, due := 0, 0, 0, 0, [], [], [], [];
    }

    /** `q[h++ & DEFER_QUEUE_MASK] = w`, behind the words `ws` that start at `from`. */
    method Store(h: Word, w: Word, ghost from: nat, ghost ws: seq<Word>) returns (h': Word)
      requires Holds(from, ws) && |ws| < SIZE && h == Wrap(from + |ws|)
      modifies q
      ensures Holds(from, ws + [w]) && h' == Wrap(from + |ws| + 1)
    {
      SlotOfWrap(from + |ws|);
      NextWraps(from + |ws|);
      forall k {:trigger ws[k]} | 0 <= k < |ws| ensures Slot(from + k) != Slot(from + |ws|) {
        SlotsApart(from + k, from + |ws|);
      }
      q[Slot(h)] := w;
      h' := Next(h);
    }

    /** The encoder's choice of words, written behind `ws`. */
    method WriteRecord(c: Call, h: Word, ghost from: nat, ghost ws: seq<Word>) returns (h': Word)
      requires Holds(from, ws) && |ws| + 3 <= SIZE && h == Wrap(from + |ws|)
      modifies this`lastFctIn, q
      ensures Holds(from, ws + Encode(old(lastFctIn), c))
      ensures h' == Wrap(from + |ws| + |Encode(old(lastFctIn), c)|)
      ensures lastFctIn == c.fct
    {
      h' := h;
      if lastFctIn != c.fct || IsFctBit(c.p) || c.p == FCT_MARK {
        lastFctIn := c.fct;
        if IsFctBit(c.fct) || c.fct == FCT_MARK {
          h' := Store(h', FCT_MARK, from, ws);
          h' := Store(h', c.fct, from, ws + [FCT_MARK]);
          h' := Store(h', c.p, from, ws + [FCT_MARK] + [c.fct]);
          assert ws + [FCT_MARK] + [c.fct] + [c.p] == ws + [FCT_MARK, c.fct, c.p];
        } else {
          h' := Store(h', SetFctBit(c.fct), from, ws);
          h' := Store(h', c.p, from, ws + [SetFctBit(c.fct)]);
          assert ws + [SetFctBit(c.fct)] + [c.p] == ws + [SetFctBit(c.fct), c.p];
        }
      } else {
        h' := Store(h', c.p, from, ws);
      }
    }

    /** What has run stays as it is, and so does the reader's end of the ring. */
    twostate predicate SameOut()
      reads this
    {
      && base == old(base) && got == old(got) && cur == old(cur) && tail == old(tail)
      && lastFctOut == old(lastFctOut) && invoked == old(invoked) && born == old(born) && due == old(due)
    }

    /** The encoder, once there is room. */
    method Put(c: Call)
      requires Valid() && put + 3 <= base + SIZE
      modifies this, q
      ensures Valid() && SameOut() && calls == old(calls) + [c] && stamps == old(stamps) + [gp.begun]
      ensures put == old(put) + |Encode(old(lastFctIn), c)|
    {
      PutWords(c);
      stamps := stamps + [gp.begun];
    }

    method PutWords(c: Call)
      requires Ring() && put + 3 <= base + SIZE
      modifies this`head, this`lastFctIn, this`put, this`calls, q
      ensures Ring() && calls == old(calls) + [c] && put == old(put) + |Encode(old(lastFctIn), c)|
    {
      ghost var ws, last := EncodeAll(cur, calls), lastFctIn;
      EncodeOne(cur, calls, c);
      head := WriteRecord(c, head, got, ws);
      put, calls := put + |Encode(last, c)|, calls + [c];
    }

    /** `head - tail >= DEFER_QUEUE_SIZE - 2`. */
    predicate Full()
      reads this
    {
      Minus(head, tail) >= SIZE - 2
    }

    /** Where there is no flush there is room for the longest record. */
    lemma RoomUnlessFull()
      requires Valid()
      ensures Full() <==> put + 2 >= base + SIZE
      ensures Minus(head, tail) == put - base
    {
      MinusWraps(put, base);
    }

    /** What everyone but the barrier leaves alone, and only adds to. */
    twostate predicate OnlyAdds()
      reads this
    {
      SameOut() && old(calls) <= calls && old(stamps) <= stamps
    }

    /** The owner has queued nothing. */
    twostate predicate Still()
      reads this
    {
      calls == old(calls) && stamps == old(stamps) && put == old(put)
    }

    /** The owner queues `more`, up to the callback for which it would have to run a
        barrier itself: there it waits for the mutex. */
    method Meanwhile(more: seq<Call>)
      requires Valid()
      modifies this, q
      ensures Valid() && OnlyAdds() && (more == [] ==> Still())
    {
      var k := 0;
      while k < |more| && !Full()
        invariant k <= |more| && Valid() && OnlyAdds() && (more == [] ==> Still())
      {
        RoomUnlessFull();
        Put(more[k]);
        k := k + 1;
      }
    }

    /** A load of `q[i++ & DEFER_QUEUE_MASK]`, the owner running beforehand. */
    method Load(i: Word, more: seq<Call>, ghost j: nat) returns (p: Word, i': Word)
      requires Valid() && j < put - got && i == Wrap(got + j)
      modifies this, q
      ensures Valid() && OnlyAdds() && (more == [] ==> Still()) && j < put - got
      ensures p == EncodeAll(cur, calls)[j] && i' == Wrap(got + j + 1)
    {
      Meanwhile(more);
      assert calls == old(calls) + calls[|old(calls)|..];
      EncodeAppend(cur, old(calls), calls[|old(calls)|..]);
      SlotOfWrap(got + j);
      NextWraps(got + j);
      p := q[Slot(i)];
      i' := Next(i);
    }

    /** The words behind the first record. */
    lemma RestHeld(n: nat)
      requires Ring() && calls != [] && n == |Encode(cur, calls[0])|
      ensures var rest := EncodeAll(calls[0].fct, calls[1..]);
        Holds(got + n, rest) && |rest| == put - got - n && LastFct(calls[0].fct, calls[1..]) == lastFctIn
    {
      var w, rest := EncodeAll(cur, calls), EncodeAll(calls[0].fct, calls[1..]);
      assert w == Encode(cur, calls[0]) + rest;
      forall k {:trigger rest[k]} | 0 <= k < |rest| ensures q[Slot(got + n + k)] == rest[k] {
        assert w[n + k] == rest[k];
      }
    }

    /** The first record is done with, its callback having run. */
    ghost method Advance()
      requires Ring() && calls != [] && stamps != []
      modifies this`got, this`cur, this`calls, this`stamps
      ensures Ring() && got == old(got) + |Encode(old(cur), old(calls)[0])|
      ensures cur == old(calls)[0].fct && calls == old(calls)[1..] && stamps == old(stamps)[1..]
    {
      RestHeld(|Encode(cur, calls[0])|);
      got, cur, calls, stamps := got + |Encode(cur, calls[0])|, calls[0].fct, calls[1..], stamps[1..];
    }

    /** The words of the first record, as the decoder reads them. */
    lemma FirstWords()
      requires Valid() && calls != []
      ensures var w := EncodeAll(cur, calls); var n := |Encode(cur, calls[0])|;
        1 <= n <= 3 && n <= |w| == put - got && w[..n] == Encode(cur, calls[0])
      ensures DecodeOne(cur, EncodeAll(cur, calls)) == Record(calls[0], |Encode(cur, calls[0])|)
    {
      FirstRecord(cur, calls[0], EncodeAll(calls[0].fct, calls[1..]));
    }

    /** A load of word `j` of the first record. */
    method LoadOf(ghost c: Call, ghost w: seq<Word>, i: Word, more: seq<Call>, ghost j: nat) returns (p: Word, i': Word)
      requires Valid() && calls != [] && calls[0] == c && w == Encode(cur, c) && j < |w| && i == Wrap(got + j)
      modifies this, q
      ensures Valid() && OnlyAdds() && (more == [] ==> Still()) && calls != [] && calls[0] == c
      ensures p == w[j] && i' == Wrap(got + j + 1)
    {
      FirstWords();
      p, i' := Load(i, more, j);
      FirstWords();
      assert EncodeAll(cur, calls)[..|w|][j] == p;
    }

    /** Like `OnlyAdds`, but for the function remembered. */
    twostate predicate OnlyRemembers()
      reads this
    {
      && base == old(base) && got == old(got) && cur == old(cur) && tail == old(tail)
      && invoked == old(invoked) && born == old(born) && due == old(due)
      && old(calls) <= calls && old(stamps) <= stamps
    }

    /** The loads of one record: the function is remembered, the data is returned. */
    method DecodeWords(ghost c: Call, ghost w: seq<Word>, i: Word, m1: seq<Call>, m2: seq<Call>, m3: seq<Call>)
      returns (p: Word, i': Word)
      requires Valid() && calls != [] && calls[0] == c && w == Encode(cur, c) && cur == lastFctOut && i == Wrap(got)
      modifies this, q
      ensures Valid() && OnlyRemembers() && (m1 == m2 == m3 == [] ==> Still())
      ensures calls != [] && calls[0] == c && lastFctOut == c.fct && p == c.p && i' == Wrap(got + |w|)
    {
      RecordForms(cur, c, w);
      p, i' := LoadOf(c, w, i, m1, 0);
      if IsFctBit(p) {
        lastFctOut := ClearFctBit(p);
        p, i' := LoadOf(c, w, i', m2, 1);
      } else if p == FCT_MARK {
        p, i' := LoadOf(c, w, i', m2, 1);
        lastFctOut := p;
        p, i' := LoadOf(c, w, i', m3, 2);
      }
    }

    /** One callback is run. */
    method Invoke(c: Call)
      requires Valid() && stamps != [] && stamps[0] < gp.ended
      modifies this`invoked, this`born, this`due
      ensures Valid() && invoked == old(invoked) + [c] && born == old(born) + [stamps[0]]
      ensures due == old(due) + [gp.ended]
    {
      invoked, born, due := invoked + [c], born + [stamps[0]], due + [gp.ended];
    }

    /** The first callback has run, and the owner has at most added to the others. */
    twostate predicate RanFirst()
      reads this, gp
    {
      && base == old(base) && tail == old(tail) && old(calls) != [] && old(stamps) != []
      && invoked == old(invoked) + [old(calls)[0]] && born == old(born) + [old(stamps)[0]]
      && due == old(due) + [gp.ended] && old(calls)[1..] <= calls && old(stamps)[1..] <= stamps
    }

    /** One turn of the decoder's loop: it runs the first callback not yet run, and
        leaves `i` right behind its words. */
    method DecodeRecord(i: Word, m1: seq<Call>, m2: seq<Call>, m3: seq<Call>) returns (i': Word)
      requires Valid() && calls != [] && stamps[0] < gp.ended && cur == lastFctOut && i == Wrap(got)
      modifies this, q
      ensures Valid() && RanFirst() && cur == lastFctOut && i' == Wrap(got)
      ensures got == old(got) + |Encode(old(cur), old(calls)[0])| && cur == old(calls)[0].fct
      ensures m1 == m2 == m3 == [] ==> calls == old(calls)[1..] && put == old(put)
    {
      ghost var c := calls[0];
      var p;
      p, i' := DecodeWords(c, Encode(cur, c), i, m1, m2, m3);
      Invoke(Call(lastFctOut, p));
      Advance();
    }

    /** The decoder has `n` callbacks to go before `stop`, and a grace period begun after
        each was queued has ended. */
    ghost predicate Before(n: nat, stop: Word)
      reads this, gp
    {
      n <= |calls| && n <= |stamps| && stop == Wrap(got + |EncodeAll(cur, calls[..n])|)
      && forall k {:trigger stamps[k]} | 0 <= k < n :: stamps[k] < gp.ended
    }

    lemma StopsAtBoundary(n: nat, stop: Word, i: Word)
      requires Valid() && Before(n, stop) && i == Wrap(got)
      ensures i == stop <==> n == 0
    {
      assert calls == calls[..n] + calls[n..];
      EncodeAppend(cur, calls[..n], calls[n..]);
      EncodeLength(cur, calls[..n]);
      WrapsApart(got, got + |EncodeAll(cur, calls[..n])|);
    }

    /** A turn of the loop, with `n` callbacks to go. */
    method Turn(i: Word, ghost n: nat, ghost stop: Word, m1: seq<Call>, m2: seq<Call>, m3: seq<Call>) returns (i': Word)
      requires Valid() && cur == lastFctOut && i == Wrap(got) && n > 0 && Before(n, stop)
      modifies this, q
      ensures Valid() && RanFirst() && cur == lastFctOut && i' == Wrap(got) && Before(n - 1, stop)
      ensures m1 == m2 == m3 == [] ==> calls == old(calls)[1..] && put == old(put)
    {
      ghost var was, at, marks := calls, cur, stamps;
      i' := DecodeRecord(i, m1, m2, m3);
      assert was[..n][1..] == calls[..n - 1];
      assert EncodeAll(at, was[..n]) == Encode(at, was[0]) + EncodeAll(cur, calls[..n - 1]);
      assert marks[1..n] == stamps[..n - 1];
      forall k {:trigger stamps[k]} | 0 <= k < n - 1 ensures stamps[k] < gp.ended {
        assert stamps[..n - 1][k] == marks[k + 1];
      }
    }

    /** The decoder's loop after `k` of the `n` callbacks `all[..n]`: it is at a record
        boundary, at `stop` exactly when all are run. */
    ghost predicate Going(i: Word, stop: Word, n: nat, k: nat)
      reads this, q, gp
    {
      Valid() && cur == lastFctOut && i == Wrap(got) && k <= n && Before(n - k, stop) && (i == stop <==> k == n)
    }

    /** All that has run since `n` had, has run after the latest grace period. */
    ghost predicate RanSince(n: nat)
      reads this, gp
    {
      n <= |due| && forall k {:trigger due[k]} | n <= k < |due| :: due[k] == gp.ended
    }

    /** What has run and what is left of the callbacks `all`, queued at `marks`. */
    ghost predicate Runs(k: nat, all: seq<Call>, marks: seq<nat>, ran: seq<Call>, bornThen: seq<nat>)
      reads this, gp
    {
      && Progress(all, k, ran, invoked, calls) && Progress(marks, k, bornThen, born, stamps)
      && RanSince(|bornThen|)
    }

    method LoopTurn(i: Word, ghost stop: Word, ghost n: nat, ghost k: nat,
                    ghost all: seq<Call>, ghost marks: seq<nat>, ghost ran: seq<Call>, ghost bornThen: seq<nat>,
                    m1: seq<Call>, m2: seq<Call>, m3: seq<Call>)
      returns (i': Word)
      requires Going(i, stop, n, k) && Runs(k, all, marks, ran, bornThen) && i != stop && n <= |all| == |marks|
      modifies this, q
      ensures Going(i', stop, n, k + 1) && Runs(k + 1, all, marks, ran, bornThen)
      ensures base == old(base) && tail == old(tail)
      ensures m1 == m2 == m3 == [] ==> |calls| == |old(calls)| - 1 && put == old(put)
    {
      ghost var was, stampsWere, ranWere, bornWere := calls, stamps, invoked, born;
      i' := Turn(i, n - k, stop, m1, m2, m3);
      StopsAtBoundary(n - k - 1, stop, i');
      ProgressStep(all, k, ran, ranWere, was, invoked, calls);
      ProgressStep(marks, k, bornThen, bornWere, stampsWere, born, stamps);
    }

    /** `rcu_defer_barrier_queue`, to be called once a grace period has ended: runs the
        callbacks up to `stop`, a value that `head` had, while the owner may be queueing
        more.  They are run in order, each once and none besides, and by `Valid` each
        was queued before a grace period began that has ended. */
    method BarrierQueue(stop: Word, ghost n: nat, sched: Schedule)
      requires Valid() && Quiet() && Before(n, stop)
      modifies this, q
      ensures Valid() && Quiet() && tail == stop
      ensures invoked == old(invoked) + old(calls)[..n] && born == old(born) + old(stamps)[..n]
      ensures RanSince(|old(born)|)
      ensures old(calls)[n..] <= calls && old(stamps)[n..] <= stamps
      ensures Alone(sched) ==> calls == old(calls)[n..] && put == old(put)
    {
      var i := tail;
      var k: nat := 0;
      ghost var all, marks, ran, bornThen := calls, stamps, invoked, born;
      StopsAtBoundary(n, stop, i);
      assert Runs(0, all, marks, ran, bornThen);
      while i != stop
        invariant Going(i, stop, n, k) && Runs(k, all, marks, ran, bornThen)
        invariant base == old(base) && tail == old(tail)
        invariant Alone(sched) ==> |calls| == |all| - k && put == old(put)
        decreases n - k
      {
        i := LoopTurn(i, stop, n, k, all, marks, ran, bornThen, sched(k, 0), sched(k, 1), sched(k, 2));
        k := k + 1;
      }
      tail, base := i, got;
    }

    /** A queue with no words has no callbacks. */
    lemma NoWordsNoCalls()
      requires Valid() && Quiet()
      ensures Minus(head, tail) == 0 <==> calls == []
    {
      MinusWraps(put, base);
      EncodeLength(cur, calls);
    }

    /** `stop` was the head when the callbacks were `all`, queued at `marks`. */
    ghost predicate Snapped(stop: Word, all: seq<Call>, marks: seq<nat>)
      reads this
    {
      && all <= calls && marks <= stamps && |marks| == |all| && stop == Wrap(got + |EncodeAll(cur, all)|)
    }

    /** A grace period that began after the heads were read has ended. */
    lemma Waited(stop: Word, all: seq<Call>, marks: seq<nat>, since: nat)
      requires Snapped(stop, all, marks) && since < gp.ended
      requires forall k {:trigger marks[k]} | 0 <= k < |marks| :: marks[k] <= since
      ensures Before(|all|, stop) && calls[..|all|] == all && stamps[..|all|] == marks
    {
      assert calls[..|all|] == all && stamps[..|all|] == marks;
      forall k {:trigger stamps[k]} | 0 <= k < |all| ensures stamps[k] < gp.ended { assert stamps[k] == marks[k]; }
    }

    /** `synchronize_rcu`, the owner running meanwhile. */
    method SynchronizeRcu(during: seq<Call>)
      requires Valid() && Quiet()
      modifies this, q, gp
      ensures Valid() && Quiet() && gp.begun == old(gp.begun) + 1 && gp.ended == gp.begun
      ensures OnlyAdds() && (during == [] ==> Still())
    {
      gp.begun := gp.begun + 1;
      Meanwhile(during);
      gp.ended := gp.begun;
    }

    /** The barrier on one queue: everything queued before it has run when it returns,
        each callback once, in order, after a grace period begun after it was queued. */
    method Barrier(during: seq<Call>, sched: Schedule)
      requires Valid() && Quiet()
      modifies this, q, gp
      ensures Valid() && Quiet()
      ensures invoked == old(invoked) + old(calls) && born == old(born) + old(stamps) && RanSince(|old(born)|)
      ensures old(calls) != [] ==> gp.begun == gp.ended == old(gp.begun) + 1
      ensures during == [] && Alone(sched) ==> calls == [] && head == tail == old(head)
    {
      NoWordsNoCalls();
      var stop := head;
      var items := Minus(stop, tail);
      if items == 0 {
        WrapsApart(base, put);
        return;
      }
      ghost var all, marks, since := calls, stamps, gp.begun;
      SynchronizeRcu(during);
      Waited(stop, all, marks, since);
      BarrierQueue(stop, |all|, sched);
      NoWordsNoCalls();
      if during == [] && Alone(sched) { WrapsApart(base, put); }
    }

    /** `_defer_rcu`: queues `c`, after running everything queued before where the ring
        might not hold one more record.  Nothing is lost or reordered. */
    method Defer(c: Call)
      requires Valid() && Quiet()
      modifies this, q, gp
      ensures Valid() && Quiet()
      ensures invoked + calls == old(invoked + calls) + [c] && born + stamps == old(born + stamps) + [gp.begun]
      ensures calls == (if old(Full()) then [] else old(calls)) + [c]
    {
      RoomUnlessFull();
      if Full() {
        assert Minus(head, tail) <= SIZE;
        var none: Schedule := (k, j) => [];
        Barrier([], none);
        RoomUnlessFull();
        assert Minus(head, tail) == 0;
      }
      Put(c);
    }
  }

  // --- the barrier on all rings ---------------------------------------------------------

  /** The registered rings are different, and share the process's grace periods. */
  ghost predicate Registered(gp: Clock, qs: seq<DeferQueue>) {
    && (forall i {:trigger qs[i]} | 0 <= i < |qs| :: qs[i].gp == gp)
    && forall i, j {:trigger qs[i], qs[j]} | 0 <= i < j < |qs| :: qs[i] != qs[j] && qs[i].q != qs[j].q
  }

  ghost predicate AtRest(r: DeferQueue)
    reads r, r.q, r.gp
  {
    r.Valid() && r.Quiet()
  }

  /** What a ring was when the barrier began. */
  datatype Snap = Snap(all: seq<Call>, marks: seq<nat>, ran: seq<Call>, born: seq<nat>)

  ghost function Now(r: DeferQueue): Snap
    reads r
  {
    Snap(r.calls, r.stamps, r.invoked, r.born)
  }

  /** `r` has only been added to since it was `x`, its head at `stop`, and `since` grace
      periods had begun by then. */
  ghost predicate Snapshot(r: DeferQueue, stop: Word, x: Snap, since: nat)
    reads r, r.q
  {
    && r.Ring() && r.Quiet() && r.Snapped(stop, x.all, x.marks) && r.invoked == x.ran && r.born == x.born
    && forall k {:trigger x.marks[k]} | 0 <= k < |x.marks| :: x.marks[k] <= since
  }

  ghost predicate Waiting(r: DeferQueue, stop: Word, x: Snap, since: nat)
    reads r, r.q, r.gp
  {
    Snapshot(r, stop, x, since) && r.Aged()
  }

  /** All that was queued on `r` when it was `x` has run since, after the latest grace
      period, and nothing else. */
  ghost predicate Flushed(r: DeferQueue, x: Snap)
    reads r, r.q, r.gp
  {
    AtRest(r) && r.invoked == x.ran + x.all && r.born == x.born + x.marks && r.RanSince(|x.born|)
  }

  lemma SnapNow(r: DeferQueue)
    requires AtRest(r)
    ensures Waiting(r, r.head, Now(r), r.gp.begun)
    ensures Minus(r.head, r.tail) == 0 <==> r.calls == []
  {
    r.NoWordsNoCalls();
  }

  ghost predicate NothingQueued(rings: seq<DeferQueue>)
    reads rings
  {
    forall i {:trigger rings[i]} | 0 <= i < |rings| :: rings[i].calls == []
  }

  /** The heads of all rings, and how many words are queued in all. */
  method SnapAll(gp: Clock, rings: seq<DeferQueue>) returns (stops: seq<Word>, items: nat)
    requires Registered(gp, rings) && forall i {:trigger rings[i]} | 0 <= i < |rings| :: AtRest(rings[i])
    ensures |stops| == |rings|
    ensures forall i {:trigger stops[i]} | 0 <= i < |rings| :: Waiting(rings[i], stops[i], Now(rings[i]), gp.begun)
    ensures items == 0 <==> NothingQueued(rings)
  {
    stops, items := [], 0;
    for i := 0 to |rings|
      invariant |stops| == i
      invariant forall j {:trigger stops[j]} | 0 <= j < i :: Waiting(rings[j], stops[j], Now(rings[j]), gp.begun)
      invariant items == 0 <==> forall j {:trigger rings[j]} | 0 <= j < i :: rings[j].calls == []
    {
      SnapNow(rings[i]);
      stops := stops + [rings[i].head];
      items := items + Minus(rings[i].head, rings[i].tail);
    }
  }

  /** The owner of one ring runs during the grace period. */
  method OwnerRuns(r: DeferQueue, during: seq<Call>, ghost stop: Word, ghost x: Snap, ghost since: nat)
    requires Waiting(r, stop, x, since)
    modifies r, r.q
    ensures Waiting(r, stop, x, since)
  {
    r.Meanwhile(during);
  }

  ghost predicate AllWaiting(rings: seq<DeferQueue>, stops: seq<Word>, snaps: seq<Snap>, since: nat)
    requires |stops| == |snaps| == |rings|
    reads rings, set i | 0 <= i < |rings| :: rings[i].q, set i | 0 <= i < |rings| :: rings[i].gp
  {
    forall i {:trigger rings[i]} | 0 <= i < |rings| :: Waiting(rings[i], stops[i], snaps[i], since)
  }

  method OneOwnerRuns(gp: Clock, rings: seq<DeferQueue>, i: nat, during: seq<Call>,
                      ghost stops: seq<Word>, ghost snaps: seq<Snap>, ghost since: nat)
    requires Registered(gp, rings) && |stops| == |snaps| == |rings| && i < |rings|
    requires AllWaiting(rings, stops, snaps, since)
    modifies rings[i], rings[i].q
    ensures AllWaiting(rings, stops, snaps, since)
  {
    OwnerRuns(rings[i], during, stops[i], snaps[i], since);
    forall j {:trigger rings[j]} | 0 <= j < |rings| && j != i ensures Waiting(rings[j], stops[j], snaps[j], since) {
      assert rings[j] != rings[i] && rings[j].q != rings[i].q;
    }
  }

  /** A grace period begins. */
  ghost method Begin(gp: Clock, rings: seq<DeferQueue>, stops: seq<Word>, snaps: seq<Snap>, since: nat)
    requires Registered(gp, rings) && |stops| == |snaps| == |rings| && gp.Valid()
    requires AllWaiting(rings, stops, snaps, since)
    modifies gp`begun
    ensures AllWaiting(rings, stops, snaps, since) && gp.Valid() && gp.begun == old(gp.begun) + 1
  {
    gp.begun := gp.begun + 1;
    forall i {:trigger rings[i]} | 0 <= i < |rings| ensures Waiting(rings[i], stops[i], snaps[i], since) {
      assert old(Waiting(rings[i], stops[i], snaps[i], since));
    }
  }

  /** It ends. */
  ghost method End(gp: Clock, rings: seq<DeferQueue>, stops: seq<Word>, snaps: seq<Snap>, since: nat)
    requires Registered(gp, rings) && |stops| == |snaps| == |rings| && gp.Valid()
    requires AllWaiting(rings, stops, snaps, since)
    modifies gp`ended
    ensures AllWaiting(rings, stops, snaps, since) && gp.ended == gp.begun
  {
    gp.ended := gp.begun;
    forall i {:trigger rings[i]} | 0 <= i < |rings| ensures Waiting(rings[i], stops[i], snaps[i], since) {
      assert old(Waiting(rings[i], stops[i], snaps[i], since));
    }
  }

  /** `synchronize_rcu`: one grace period for all the rings, whose owners run meanwhile. */
  method WaitAll(gp: Clock, rings: seq<DeferQueue>, during: nat -> seq<Call>,
                 ghost stops: seq<Word>, ghost snaps: seq<Snap>)
    requires Registered(gp, rings) && |stops| == |snaps| == |rings| && gp.Valid()
    requires AllWaiting(rings, stops, snaps, gp.begun)
    modifies gp, set i | 0 <= i < |rings| :: rings[i], set i | 0 <= i < |rings| :: rings[i].q
    ensures gp.begun == gp.ended == old(gp.begun) + 1 && AllWaiting(rings, stops, snaps, old(gp.begun))
  {
    ghost var since := gp.begun;
    Begin(gp, rings, stops, snaps, since);
    for i := 0 to |rings|
      invariant AllWaiting(rings, stops, snaps, since) && gp.Valid() && gp.begun == since + 1
    {
      OneOwnerRuns(gp, rings, i, during(i), stops, snaps, since);
    }
    End(gp, rings, stops, snaps, since);
  }

  method RunOne(r: DeferQueue, sched: Schedule, stop: Word, ghost x: Snap, ghost since: nat)
    requires Waiting(r, stop, x, since) && since < r.gp.ended
    modifies r, r.q
    ensures Flushed(r, x)
  {
    r.Waited(stop, x.all, x.marks, since);
    r.BarrierQueue(stop, |x.all|, sched);
  }

  /** The first `i` rings have been flushed, the others wait. */
  ghost predicate FlushedUpTo(rings: seq<DeferQueue>, stops: seq<Word>, snaps: seq<Snap>, since: nat, i: nat)
    requires |stops| == |snaps| == |rings|
    reads rings, set i | 0 <= i < |rings| :: rings[i].q, set i | 0 <= i < |rings| :: rings[i].gp
  {
    forall j {:trigger rings[j]} | 0 <= j < |rings| ::
      if j < i then Flushed(rings[j], snaps[j]) else Waiting(rings[j], stops[j], snaps[j], since)
  }

  method RunNext(gp: Clock, rings: seq<DeferQueue>, i: nat, sched: Schedule, stops: seq<Word>,
                 ghost snaps: seq<Snap>, ghost since: nat)
    requires Registered(gp, rings) && |stops| == |snaps| == |rings| && i < |rings| && since < gp.ended
    requires FlushedUpTo(rings, stops, snaps, since, i)
    modifies rings[i], rings[i].q
    ensures FlushedUpTo(rings, stops, snaps, since, i + 1)
  {
    RunOne(rings[i], sched, stops[i], snaps[i], since);
    forall j {:trigger rings[j]} | 0 <= j < |rings| && j != i
      ensures if j < i then Flushed(rings[j], snaps[j]) else Waiting(rings[j], stops[j], snaps[j], since)
    {
      assert rings[j] != rings[i] && rings[j].q != rings[i].q;
    }
  }

  method RunAll(gp: Clock, rings: seq<DeferQueue>, sched: nat -> Schedule, stops: seq<Word>,
                ghost snaps: seq<Snap>, ghost since: nat)
    requires Registered(gp, rings) && |stops| == |snaps| == |rings| && since < gp.ended
    requires AllWaiting(rings, stops, snaps, since)
    modifies set i | 0 <= i < |rings| :: rings[i], set i | 0 <= i < |rings| :: rings[i].q
    ensures forall i {:trigger rings[i]} | 0 <= i < |rings| :: Flushed(rings[i], snaps[i])
  {
    for i := 0 to |rings|
      invariant FlushedUpTo(rings, stops, snaps, since, i)
    {
      RunNext(gp, rings, i, sched(i), stops, snaps, since);
    }
  }

  /** One grace period, and then the callbacks of every ring. */
  method WaitAndRun(gp: Clock, rings: seq<DeferQueue>, during: nat -> seq<Call>, sched: nat -> Schedule,
                    stops: seq<Word>, ghost snaps: seq<Snap>)
    requires Registered(gp, rings) && |stops| == |snaps| == |rings| && gp.Valid()
    requires AllWaiting(rings, stops, snaps, gp.begun)
    modifies gp, set i | 0 <= i < |rings| :: rings[i], set i | 0 <= i < |rings| :: rings[i].q
    ensures gp.begun == gp.ended == old(gp.begun) + 1
    ensures forall i {:trigger rings[i]} | 0 <= i < |rings| :: Flushed(rings[i], snaps[i])
  {
    ghost var since := gp.begun;
    WaitAll(gp, rings, during, stops, snaps);
    RunAll(gp, rings, sched, stops, snaps, since);
  }

  lemma NothingToRun(r: DeferQueue)
    requires AtRest(r) && r.calls == []
    ensures Flushed(r, Now(r))
  {
  }

  /** `rcu_defer_barrier`: one grace period for all registered rings, unless nothing is
      queued on any; everything queued on them before the call has run when it returns,
      after that grace period, and nothing else. */
  method BarrierAll(gp: Clock, rings: seq<DeferQueue>, during: nat -> seq<Call>, sched: nat -> Schedule)
    requires gp.Valid() && Registered(gp, rings)
    requires forall i {:trigger rings[i]} | 0 <= i < |rings| :: AtRest(rings[i])
    modifies gp, set i | 0 <= i < |rings| :: rings[i], set i | 0 <= i < |rings| :: rings[i].q
    ensures forall i {:trigger rings[i]} | 0 <= i < |rings| :: Flushed(rings[i], old(Now(rings[i])))
    ensures if old(NothingQueued(rings)) then gp.begun == old(gp.begun) && gp.ended == old(gp.ended)
      else gp.begun == gp.ended == old(gp.begun) + 1
  {
    if |rings| == 0 { return; }
    var stops, items := SnapAll(gp, rings);
    if items == 0 {
      forall i {:trigger rings[i]} | 0 <= i < |rings| ensures Flushed(rings[i], Now(rings[i])) {
        NothingToRun(rings[i]);
      }
      return;
    }
    ghost var snaps := seq(|rings|, i requires 0 <= i < |rings| reads rings => Now(rings[i]));
    assert AllWaiting(rings, stops, snaps, gp.begun);
    WaitAndRun(gp, rings, during, sched, stops, snaps);
  }
}
