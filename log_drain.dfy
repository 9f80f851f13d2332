/** What a log drain thread republishes, as a function of the attempts it
    makes to read its queue: every entry that is not `None`, keyed by the
    configuration, in queue order, up to the first read that fails. */
module LogDrain {
  import opened Records

  /** The `(config, text)` pairs emitted on the log signal for the reads
      `events`, in emission order. */
  function Drained(config: string, events: seq<QueueEvent>): (out: seq<(string, string)>)
    ensures |out| <= |events|
    ensures forall k :: 0 <= k < |out| ==> out[k].0 == config
  {
    if events == [] then []
    else
      match events[0]
      case Got(None) => Drained(config, events[1..])
      case Got(Some(text)) => [(config, text)] + Drained(config, events[1..])
      case TimedOut => Drained(config, events[1..])
      case Failed => []
  }

  /** Draining two stretches of reads one after the other: the second
      stretch is drained only when the first had no failing read. */
  lemma {:induction false} DrainedAppend(config: string, a: seq<QueueEvent>, b: seq<QueueEvent>)
    ensures Drained(config, a + b) ==
      Drained(config, a) + (if Failed in a then [] else Drained(config, b))
  {
    if a == [] {
      assert a + b == b;
    } else {
      assert (a + b)[0] == a[0];
      assert (a + b)[1..] == a[1..] + b;
      if a[0] != Failed {
        DrainedAppend(config, a[1..], b);
        assert Failed in a <==> Failed in a[1..] by {
          assert a == [a[0]] + a[1..];
        }
      }
    }
  }

  /** Nothing read after the first failing read is emitted. */
  lemma StopsAtFirstFailure(config: string, a: seq<QueueEvent>, b: seq<QueueEvent>)
    requires Failed !in a
    ensures Drained(config, a + [Failed] + b) == Drained(config, a)
  {
    DrainedAppend(config, a, [Failed] + b);
    assert a + [Failed] + b == a + ([Failed] + b);
    assert ([Failed] + b)[0] == Failed;
  }

  /** A `None` entry or a timeout emits nothing and does not end the drain. */
  lemma SkipsNoneAndTimeout(config: string, a: seq<QueueEvent>, e: QueueEvent, b: seq<QueueEvent>)
    requires e == Got(None) || e == TimedOut
    ensures Drained(config, a + [e] + b) == Drained(config, a + b)
  {
    DrainedAppend(config, a, [e] + b);
    DrainedAppend(config, a, b);
    assert a + [e] + b == a + ([e] + b);
    assert ([e] + b)[0] == e && ([e] + b)[1..] == b;
  }

  /** Lines enqueued in the order `texts` are emitted in that same order,
      each keyed by the configuration. */
  lemma {:induction false} DeliversInOrder(config: string, texts: seq<string>)
    ensures Drained(config, seq(|texts|, i requires 0 <= i < |texts| => Got(Some(texts[i])))) ==
      seq(|texts|, i requires 0 <= i < |texts| => (config, texts[i]))
  {
    var events := seq(|texts|, i requires 0 <= i < |texts| => Got(Some(texts[i])));
    if texts != [] {
      var rest := seq(|texts| - 1, i requires 0 <= i < |texts| - 1 => Got(Some(texts[1..][i])));
      assert events[1..] == rest;
      DeliversInOrder(config, texts[1..]);
      assert Drained(config, events) == [(config, texts[0])] + Drained(config, rest);
    }
  }

  /** Every emitted text was read from the queue, before any failing read. */
  lemma {:induction false} EmittedWereRead(config: string, events: seq<QueueEvent>, text: string)
    requires (config, text) in Drained(config, events)
    ensures exists i :: 0 <= i < |events| && events[i] == Got(Some(text)) && Failed !in events[..i]
  {
    assert events != [];
    var tail := events[1..];
    if events[0] == Got(Some(text)) {
      assert events[..0] == [];
    } else {
      assert events[0] == Got(None) || events[0] == TimedOut || events[0].Got?;
      assert (config, text) in Drained(config, tail);
      EmittedWereRead(config, tail, text);
      var i :| 0 <= i < |tail| && tail[i] == Got(Some(text)) && Failed !in tail[..i];
      assert events[..i + 1] == [events[0]] + tail[..i];
      assert events[i + 1] == tail[i];
    }
  }
}
