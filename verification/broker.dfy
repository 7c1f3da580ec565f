/** The in-process queue (app/broker.py): a heap of messages ordered by due time, then by the
    order in which they were published. */
module Broker {
  import opened Tables

  datatype Entry = Entry(at: real, tick: nat, message: Message)

  predicate Earlier(e: Entry, f: Entry) {
    e.at < f.at || (e.at == f.at && e.tick < f.tick)
  }

  ghost predicate HeapOrdered(heap: seq<Entry>) {
    forall i, j | 0 <= i < j < |heap| :: Earlier(heap[i], heap[j])
  }

  /** Published before, so ahead of everything due at the same time from now on. */
  ghost predicate TicksBelow(heap: seq<Entry>, tick: nat) {
    forall i | 0 <= i < |heap| :: heap[i].tick <= tick
  }

  /** `heappush` */
  function Push(heap: seq<Entry>, e: Entry): (r: seq<Entry>)
    ensures |r| == |heap| + 1 && r != []
    ensures r[0] == e || (heap != [] && r[0] == heap[0])
  {
    if heap == [] then [e]
    else if Earlier(e, heap[0]) then [e] + heap
    else [heap[0]] + Push(heap[1..], e)
  }

  function Texts(heap: seq<Entry>): seq<Message> {
    if heap == [] then [] else [heap[0].message] + Texts(heap[1..])
  }

  /** The messages waiting, whatever their due times. */
  function Contents(heap: seq<Entry>): multiset<Message> {
    multiset(Texts(heap))
  }

  lemma {:induction false} PushAdds(heap: seq<Entry>, e: Entry)
    ensures Contents(Push(heap, e)) == Contents(heap) + multiset{e.message}
  {
    if heap == [] {
      assert [e][1..] == [];
      assert Texts([e]) == [e.message];
    } else if Earlier(e, heap[0]) {
      assert ([e] + heap)[1..] == heap;
      assert Texts([e] + heap) == [e.message] + Texts(heap);
    } else {
      var rest := Push(heap[1..], e);
      PushAdds(heap[1..], e);
      assert ([heap[0]] + rest)[1..] == rest;
      assert Texts([heap[0]] + rest) == [heap[0].message] + Texts(rest);
      assert multiset([heap[0].message] + Texts(rest)) == multiset{heap[0].message} + Contents(rest);
      assert multiset([heap[0].message] + Texts(heap[1..])) == multiset{heap[0].message} + Contents(heap[1..]);
    }
  }

  /** Everything that was waiting is waiting still, under its own due time. */
  lemma {:induction false} PushKeeps(heap: seq<Entry>, e: Entry)
    ensures multiset(Push(heap, e)) == multiset(heap) + multiset{e}
  {
    if heap != [] {
      assert heap == [heap[0]] + heap[1..];
      if !Earlier(e, heap[0]) {
        PushKeeps(heap[1..], e);
      }
    }
  }

  ghost predicate AllAfter(e: Entry, heap: seq<Entry>) {
    forall i | 0 <= i < |heap| :: Earlier(e, heap[i])
  }

  lemma {:induction false} PushAfter(e: Entry, heap: seq<Entry>, f: Entry)
    requires AllAfter(e, heap) && Earlier(e, f)
    ensures AllAfter(e, Push(heap, f))
  {
    if heap != [] && !Earlier(f, heap[0]) {
      PushAfter(e, heap[1..], f);
    }
  }

  lemma {:induction false} PushOrdered(heap: seq<Entry>, e: Entry)
    requires HeapOrdered(heap) && forall i | 0 <= i < |heap| :: heap[i].tick < e.tick
    ensures HeapOrdered(Push(heap, e)) && TicksBelow(Push(heap, e), e.tick)
  {
    if heap != [] {
      if Earlier(e, heap[0]) {
        forall i | 0 <= i < |heap| ensures Earlier(e, heap[i]) {
          assert i > 0 ==> Earlier(heap[0], heap[i]);
        }
      } else {
        PushOrdered(heap[1..], e);
        assert AllAfter(heap[0], heap[1..]);
        PushAfter(heap[0], heap[1..], e);
      }
    }
  }

  class InMemoryBroker {
    var heap: seq<Entry>
    var dead: seq<Message>
    var counter: nat
    var clock: real // the latest reading of the monotonic clock

    ghost predicate Valid()
      reads this
    {
      HeapOrdered(heap) && TicksBelow(heap, counter)
    }

    constructor ()
      ensures Valid() && heap == [] && dead == []
    {
      heap, dead, counter, clock := [], [], 0, 0.0;
    }

    /** `time.monotonic()` */
    method Monotonic() returns (now: real)
      modifies this`clock
      ensures now == clock >= old(clock)
    {
      var reading: real := *;
      now := if reading >= clock then reading else clock;
      clock := now;
    }

    method Sleep(seconds: real)
      modifies this`clock
      ensures clock >= old(clock) && clock >= old(clock) + seconds
    {
      var extra: real := *;
      var slept := if seconds >= 0.0 then seconds else 0.0;
      clock := clock + slept + if extra >= 0.0 then extra else 0.0;
    }

    method Publish(message: Message, delay: real)
      requires Valid()
      modifies this`heap, this`counter, this`clock
      ensures Valid() && clock >= old(clock) && counter == old(counter) + 1
      ensures heap == Push(old(heap), Entry(clock + delay, counter, message))
      ensures multiset(heap) == multiset(old(heap)) + multiset{Entry(clock + delay, counter, message)}
      ensures forall e | e in old(heap) :: e.tick < counter
      ensures Contents(heap) == old(Contents(heap)) + multiset{message}
    {
      counter := counter + 1;
      var now := Monotonic();
      var e := Entry(now + delay, counter, message);
      PushAdds(heap, e);
      PushKeeps(heap, e);
      PushOrdered(heap, e);
      heap := Push(heap, e);
    }

    method DeadLetter(message: Message)
      modifies this`dead
      ensures dead == old(dead) + [message]
    {
      dead := dead + [message];
    }

    /** The earliest message, once it is due; of those due at the same time, the one published
        first. Nothing is handed out before its time. */
    method PopDue() returns (message: Option<Message>)
      requires Valid()
      modifies this`heap, this`clock
      ensures Valid() && clock >= old(clock)
      ensures message.Some? <==> old(heap) != [] && old(heap)[0].at <= clock
      ensures message.Some? ==> message.value == old(heap)[0].message && heap == old(heap)[1..]
      ensures message.Some? ==> forall i | 0 < i < |old(heap)| ::
                old(heap)[0].at < old(heap)[i].at || (old(heap)[0].at == old(heap)[i].at && old(heap)[0].tick < old(heap)[i].tick)
      ensures forall e | e in old(heap) && e.at > clock :: e in heap
      ensures message.Some? ==> old(Contents(heap)) == Contents(heap) + multiset{message.value}
      ensures message.None? ==> heap == old(heap)
    {
      var now := Monotonic();
      if heap != [] && heap[0].at <= now {
        message := Some(heap[0].message);
        assert Texts(heap) == [heap[0].message] + Texts(heap[1..]);
        heap := heap[1..];
      } else {
        message := None;
      }
    }
  }
}
