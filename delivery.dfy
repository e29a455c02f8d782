/** The delivery pipeline: a FIFO queue drained by one consumer into an
    output stream (`ProducersConsumer`), and the listener that routes the
    connections' events to one of two such queues (`Listener`).

    The model is sequential. The consumer thread's loop is `Consume`; what
    the producer threads do while it runs is given to it as a `schedule` of
    actions, one of which takes effect before each test of the loop
    condition (that is, before each pass of the loop). */
module Delivery {

  /** An action of another thread, interleaved with the consumer loop. */
  datatype ProducerAction = ProduceItem(item: string) | StopQueue

  /** The items a sequence of actions produces, in order. */
  function Produced(actions: seq<ProducerAction>): (items: seq<string>)
    ensures |items| <= |actions|
  {
    if actions == [] then []
    else
      var last := actions[|actions| - 1];
      Produced(actions[..|actions| - 1]) + (if last.ProduceItem? then [last.item] else [])
  }

  /** An item is produced exactly when one of the actions produces it. */
  lemma {:induction false} ProducedItems(actions: seq<ProducerAction>)
    ensures forall x :: x in Produced(actions) <==> exists i | 0 <= i < |actions| :: actions[i] == ProduceItem(x)
  {
    if actions != [] {
      var init := actions[..|actions| - 1];
      var last := actions[|actions| - 1];
      ProducedItems(init);
      forall x
        ensures x in Produced(actions) <==> exists i | 0 <= i < |actions| :: actions[i] == ProduceItem(x)
      {
        if x in Produced(actions) {
          if x in Produced(init) {
            var i :| 0 <= i < |init| && init[i] == ProduceItem(x);
            assert actions[i] == ProduceItem(x);
          } else {
            assert actions[|actions| - 1] == ProduceItem(x);
          }
        }
        if exists i | 0 <= i < |actions| :: actions[i] == ProduceItem(x) {
          var i :| 0 <= i < |actions| && actions[i] == ProduceItem(x);
          if i < |init| {
            assert init[i] == ProduceItem(x);
          }
        }
      }
    }
  }

  /** Producing one more action adds its item, if any, at the end. */
  lemma ProducedSnoc(actions: seq<ProducerAction>, action: ProducerAction)
    ensures Produced(actions + [action]) == Produced(actions) + Produced([action])
  {
    assert (actions + [action])[..|actions|] == actions;
    assert [action][..0] == [];
  }

  class ProducersConsumer {
    /** Items produced and not yet written (m_queue), front first. */
    var queue: seq<string>
    /** Set once no more items are expected (m_stop). */
    var stop: bool
    /** The lines written to the output stream, in order. */
    var out: seq<string>

    constructor ()
      ensures queue == [] && !stop && out == []
    {
      queue, stop, out := [], false, [];
    }

    /** Appends `s` at the back of the queue and changes nothing else. */
    method Produce(s: string)
      modifies this
      ensures queue == old(queue) + [s]
      ensures stop == old(stop) && out == old(out)
    {
      queue := queue + [s];
    }

    /** Marks the queue as draining. */
    method Stop()
      modifies this
      ensures stop
      ensures queue == old(queue) && out == old(out)
    {
      stop := true;
    }

    /** One pass of the consumer loop's body: write and pop items while more
        than one is queued, then write and pop the last one if there is one. */
    method DrainOnce()
      modifies this
      ensures queue == []
      ensures out == old(out) + old(queue)
      ensures stop == old(stop)
    {
      while |queue| > 1
        invariant out + queue == old(out) + old(queue)
        invariant stop == old(stop)
      {
        out := out + [queue[0]];
        queue := queue[1..];
      }
      if |queue| == 1 {
        var data := queue[0];
        queue := queue[1..];
        out := out + [data];
      }
    }

    /** One pass of the consumer loop after another thread performed
        `action`: the action takes effect, then the queue is drained. */
    method Pass(action: ProducerAction)
      modifies this
      ensures queue == []
      ensures out == old(out) + old(queue) + Produced([action])
      ensures stop == (old(stop) || action == StopQueue)
    {
      match action {
        case ProduceItem(item) =>
          Produce(item);
        case StopQueue =>
          Stop();
      }
      ghost var pending := out + queue;
      DrainOnce();
      assert out == pending;
    }

    /** The consumer loop: runs while the queue is not stopped or still holds
        items, taking the interleaved producers' actions from `schedule`.
        It ends only once a stop has happened and the queue is empty, and it
        ends at the first pass that finds both: when it starts unstopped, the
        last action it applies is the schedule's first stop; when it starts
        stopped, it applies at most one action, and none if the queue starts
        empty. Every item queued before, or produced during, the run is
        written, in order. `applied` is the number of scheduled actions that
        took effect before the loop ended; the rest come too late for this
        consumer, and their items are never written by it. */
    method Consume(schedule: seq<ProducerAction>) returns (applied: nat)
      requires stop || StopQueue in schedule
      modifies this
      ensures applied <= |schedule|
      ensures stop && queue == []
      ensures old(stop) || StopQueue in schedule[..applied]
      ensures out == old(out) + old(queue) + Produced(schedule[..applied])
      ensures !old(stop) ==>
        0 < applied && schedule[applied - 1] == StopQueue && StopQueue !in schedule[..applied - 1]
      ensures old(stop) ==> applied <= 1 && (old(queue) == [] ==> applied == 0)
    {
      applied := 0;
      while !stop || |queue| > 0
        invariant applied <= |schedule|
        invariant stop || StopQueue in schedule[applied..]
        invariant old(stop) || stop == (StopQueue in schedule[..applied])
        invariant out + queue == old(out) + old(queue) + Produced(schedule[..applied])
        invariant applied > 0 ==> queue == []
        invariant !old(stop) && applied > 0 ==> StopQueue !in schedule[..applied - 1]
        invariant old(stop) ==> stop && applied <= 1
        invariant old(stop) && old(queue) == [] ==> applied == 0 && queue == []
        decreases |schedule| - applied, |queue|
      {
        if applied < |schedule| {
          var action := schedule[applied];
          assert schedule[..applied + 1] == schedule[..applied] + [action];
          assert schedule[applied..] == [action] + schedule[applied + 1..];
          ProducedSnoc(schedule[..applied], action);
          ghost var before := out + queue;
          Pass(action);
          assert out + queue == before + Produced([action]);
          applied := applied + 1;
        } else {
          ghost var pending := out + queue;
          DrainOnce();
          assert out + queue == pending;
        }
      }
    }
  }

  /** Routes new-message events to the message recorder and log events to
      the logger. */
  class Listener {
    const logger: ProducersConsumer
    const recorder: ProducersConsumer

    constructor (recorder: ProducersConsumer, logger: ProducersConsumer)
      ensures this.recorder == recorder && this.logger == logger
    {
      this.recorder := recorder;
      this.logger := logger;
    }

    /** The two sinks are different queues. */
    predicate Valid() {
      logger != recorder
    }

    /** Produces `message` into the message recorder only. */
    method HandleNewMessage(message: string)
      requires Valid()
      modifies recorder
      ensures recorder.queue == old(recorder.queue) + [message]
      ensures recorder.stop == old(recorder.stop) && recorder.out == old(recorder.out)
      ensures unchanged(logger)
    {
      recorder.Produce(message);
    }

    /** Produces `log` into the logger only. */
    method HandleLogs(log: string)
      requires Valid()
      modifies logger
      ensures logger.queue == old(logger.queue) + [log]
      ensures logger.stop == old(logger.stop) && logger.out == old(logger.out)
      ensures unchanged(recorder)
    {
      logger.Produce(log);
    }

    /** Stops both queues. */
    method Stop()
      requires Valid()
      modifies logger, recorder
      ensures logger.stop && recorder.stop
      ensures logger.queue == old(logger.queue) && logger.out == old(logger.out)
      ensures recorder.queue == old(recorder.queue) && recorder.out == old(recorder.out)
    {
      logger.Stop();
      recorder.Stop();
    }
  }
}
