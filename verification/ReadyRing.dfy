/** The shared ready queue: a ring over a fixed array that keeps one slot free (10_9, lines 15-16, 34-36, 190-218). */
module ReadyRing {

  /** The ring as a value: the array, the index of the oldest element and the index of the next free slot. */
  datatype Ring = Ring(buf: seq<int>, head: nat, tail: nat) {

    predicate Valid() {
      head < |buf| && tail < |buf|
    }

    predicate IsEmpty() {
      head == tail
    }

    function Push(id: int): (r: Ring)
      requires Valid()
    {
      var next := (tail + 1) % |buf|;
      if next == head then this else Ring(buf[tail := id], head, next)
    }

    predicate Overflows()
      requires Valid()
    {
      (tail + 1) % |buf| == head
    }

    function Pop(): (r: Ring)
      requires Valid() && !IsEmpty()
    {
      Ring(buf, (head + 1) % |buf|, tail)
    }

    /** The queued elements, oldest first. */
    ghost function Contents(): seq<int>
      requires Valid()
    {
      if head <= tail then buf[head..tail] else buf[head..] + buf[..tail]
    }
  }

  lemma EmptyIff(r: Ring)
    requires r.Valid()
    ensures r.IsEmpty() <==> r.Contents() == []
    ensures |r.Contents()| < |r.buf|
  {
  }

  /** Advancing an index wraps exactly at the end of the array. */
  lemma Advance(i: nat, size: nat)
    requires i < size
    ensures (i + 1) % size == if i + 1 == size then 0 else i + 1
  {
    if i + 1 < size {
      assert (i + 1) % size == i + 1;
    }
  }

  lemma OverflowIff(r: Ring)
    requires r.Valid()
    ensures r.Overflows() <==> |r.Contents()| == |r.buf| - 1
  {
    Advance(r.tail, |r.buf|);
  }

  /** Push appends, unless the queue already holds one element less than the array has slots. */
  lemma PushAppends(r: Ring, id: int)
    requires r.Valid()
    ensures r.Push(id).Valid() && |r.Push(id).buf| == |r.buf|
    ensures r.Overflows() <==> |r.Contents()| == |r.buf| - 1
    ensures r.Push(id).Contents() == if r.Overflows() then r.Contents() else r.Contents() + [id]
  {
    OverflowIff(r);
    if !r.Overflows() {
      Advance(r.tail, |r.buf|);
      var next := if r.tail + 1 == |r.buf| then 0 else r.tail + 1;
      assert r.Push(id) == Ring(r.buf[r.tail := id], r.head, next);
      StoreAppends(r, id, next);
    }
  }

  lemma StoreAppends(r: Ring, id: int, next: nat)
    requires r.Valid() && next == (if r.tail + 1 == |r.buf| then 0 else r.tail + 1) && next != r.head
    ensures Ring(r.buf[r.tail := id], r.head, next).Contents() == r.Contents() + [id]
  {
  }

  /** Pop removes the oldest element, which is the one under `head`. */
  lemma PopTakesFirst(r: Ring)
    requires r.Valid() && !r.IsEmpty()
    ensures r.Pop().Valid() && |r.Pop().buf| == |r.buf|
    ensures r.Contents() == [r.buf[r.head]] + r.Pop().Contents()
  {
    Advance(r.head, |r.buf|);
    assert r.Contents() == [r.buf[r.head]] + r.Pop().Contents();
  }

  /** The queue of the program: one array and two indices, updated in place. */
  class ReadyQueue {
    const queue: array<int>
    var head: nat
    var tail: nat

    ghost predicate Valid()
      reads this, queue
    {
      View().Valid()
    }

    ghost function View(): Ring
      reads this, queue
    {
      Ring(queue[..], head, tail)
    }

    constructor (size: nat)
      requires 1 <= size
      ensures Valid() && fresh(queue)
      ensures queue.Length == size && View().Contents() == []
    {
      queue := new int[size](_ => 0);
      head, tail := 0, 0;
    }

    /** Appends `id`; a full queue stays as it is. */
    method Push(id: int)
      requires Valid()
      modifies this`tail, queue
      ensures Valid()
      ensures View() == old(View()).Push(id)
      ensures View().Contents() ==
              if |old(View().Contents())| == queue.Length - 1 then old(View().Contents())
              else old(View().Contents()) + [id]
    {
      PushAppends(View(), id);
      var next := (tail + 1) % queue.Length;
      if next == head {
        return;
      }
      queue[tail] := id;
      tail := next;
      assert View() == old(View()).Push(id);
    }

    /** Takes the oldest element; reports an empty queue with `ok == false`. */
    method Pop() returns (ok: bool, id: int)
      requires Valid()
      modifies this`head
      ensures Valid()
      ensures ok <==> old(View().Contents()) != []
      ensures ok ==> View() == old(View()).Pop() && [id] + View().Contents() == old(View().Contents())
      ensures !ok ==> View() == old(View())
    {
      EmptyIff(View());
      if head == tail {
        return false, 0;
      }
      PopTakesFirst(View());
      ok, id := true, queue[head];
      head := (head + 1) % queue.Length;
      assert View() == old(View()).Pop();
    }
  }
}
