/**
 Incremental consumers of a byte stream.

 The protocol core never waits for input: it is handed whatever bytes have arrived, does as much as it can, and
 keeps the rest.  A consumer is described by one look at the unread bytes.  When a decision, once taken, does not
 depend on the bytes behind the ones it used, the way the stream was cut into chunks cannot be observed.
 */
module Incremental {
  import opened Bytes

  /** One look at the unread bytes: wait, consume some and go on, or consume some and report an error. */
  datatype Step<+S, +E> = More | Took(used: nat, next: S) | Fault(used: nat, next: S, error: E)

  datatype Outcome<+S, +E> = Outcome(state: S, rest: seq<byte>, error: Option<E>)

  /** Decisions are final, and consume only bytes that are there. */
  ghost predicate Prompt<S(!new), E(!new)>(step: (S, seq<byte>) -> Step<S, E>) {
    forall s, a, b :: FinalAt(step, s, a, b)
  }

  ghost predicate FinalAt<S, E>(step: (S, seq<byte>) -> Step<S, E>, s: S, a: seq<byte>, b: seq<byte>) {
    var r := step(s, a);
    && (r.Took? ==> 0 < r.used <= |a|)
    && (r.Fault? ==> r.used <= |a|)
    && (!r.More? ==> step(s, a + b) == r)
  }

  /** Consume until the bytes run out or an error is reported. */
  ghost function Drain<S(!new), E(!new)>(step: (S, seq<byte>) -> Step<S, E>, s: S, unread: seq<byte>): Outcome<S, E>
    requires Prompt(step)
    decreases |unread|
  {
    assert FinalAt(step, s, unread, []);
    match step(s, unread)
    case More => Outcome(s, unread, None)
    case Took(n, t) => Drain(step, t, unread[n..])
    case Fault(n, t, e) => Outcome(t, unread[n..], Some(e))
  }

  /** Draining `a` first and going on with what is left of it is draining `a + b`, unless `a` already failed. */
  lemma {:induction false} DrainAppend<S(!new), E(!new)>(
      step: (S, seq<byte>) -> Step<S, E>, s: S, a: seq<byte>, b: seq<byte>)
    requires Prompt(step)
    ensures var o := Drain(step, s, a);
            Drain(step, s, a + b) ==
              if o.error.Some? then o.(rest := o.rest + b) else Drain(step, o.state, o.rest + b)
    decreases |a|
  {
    assert FinalAt(step, s, a, b);
    match step(s, a)
    case More =>
    case Took(n, t) =>
      assert (a + b)[n..] == a[n..] + b;
      DrainAppend(step, t, a[n..], b);
    case Fault(n, t, e) =>
      assert (a + b)[n..] == a[n..] + b;
  }

  /** What a driver that stops at the first error has done: the outcome, and the chunks it never fed. */
  datatype Fed<+S, +E> = Fed(outcome: Outcome<S, E>, unfed: seq<seq<byte>>)

  /** Feed the chunks one by one, draining after each, until the first error. */
  ghost function Feed<S(!new), E(!new)>(
      step: (S, seq<byte>) -> Step<S, E>, s: S, rest: seq<byte>, chunks: seq<seq<byte>>): Fed<S, E>
    requires Prompt(step)
    requires chunks != []
    decreases |chunks|
  {
    var o := Drain(step, s, rest + chunks[0]);
    if o.error.Some? || |chunks| == 1 then Fed(o, chunks[1..]) else Feed(step, o.state, o.rest, chunks[1..])
  }

  /** Cutting the input differently changes neither the state reached nor the first error. */
  lemma {:induction false} ChunkingInvisible<S(!new), E(!new)>(
    step: (S, seq<byte>) -> Step<S, E>, s: S, rest: seq<byte>, chunks: seq<seq<byte>>)
    requires Prompt(step)
    requires chunks != []
    ensures var fed := Feed(step, s, rest, chunks);
            var whole := Drain(step, s, rest + Flatten(chunks));
            && whole.state == fed.outcome.state
            && whole.error == fed.outcome.error
            && whole.rest == fed.outcome.rest + Flatten(fed.unfed)
            && (whole.error.None? ==> fed.unfed == [])
    decreases |chunks|
  {
    var o := Drain(step, s, rest + chunks[0]);
    DrainAppend(step, s, rest + chunks[0], Flatten(chunks[1..]));
    assert rest + Flatten(chunks) == (rest + chunks[0]) + Flatten(chunks[1..]);
    if o.error.None? && |chunks| > 1 {
      ChunkingInvisible(step, o.state, o.rest, chunks[1..]);
    } else if o.error.None? {
      DrainAppend(step, s, rest + chunks[0], []);
      assert Flatten(chunks[1..]) == [];
      DrainIdle(step, s, rest + chunks[0]);
      assert o.rest + [] == o.rest;
    }
  }

  /** Once drained without error there is nothing left to do. */
  lemma {:induction false} DrainIdle<S(!new), E(!new)>(step: (S, seq<byte>) -> Step<S, E>, s: S, unread: seq<byte>)
    requires Prompt(step)
    ensures var o := Drain(step, s, unread);
            o.error.None? ==> step(o.state, o.rest).More? && Drain(step, o.state, o.rest) == o
    decreases |unread|
  {
    assert FinalAt(step, s, unread, []);
    match step(s, unread)
    case More =>
    case Took(n, t) => DrainIdle(step, t, unread[n..]);
    case Fault(n, t, e) =>
  }

  /** Consumers that reach an end: a state that is done looks at nothing more. */
  ghost predicate Ends<S(!new), E(!new)>(step: (S, seq<byte>) -> Step<S, E>, done: S -> bool) {
    forall s, a {:trigger step(s, a)} :: done(s) ==> step(s, a).More?
  }

  /** Feed the chunks one by one, dropping those that arrive after the end, until the first error. */
  ghost function FeedUntil<S(!new), E(!new)>(step: (S, seq<byte>) -> Step<S, E>, done: S -> bool, s: S, rest: seq<byte>,
                                             chunks: seq<seq<byte>>): (S, Option<E>)
    requires Prompt(step)
    decreases |chunks|
  {
    if chunks == [] then (s, None)
    else if done(s) then FeedUntil(step, done, s, rest, chunks[1..])
    else
      var o := Drain(step, s, rest + chunks[0]);
      if o.error.Some? then (o.state, o.error) else FeedUntil(step, done, o.state, o.rest, chunks[1..])
  }

  /** Dropping what arrives after the end cannot be observed either. */
  lemma {:induction false} DroppingInvisible<S(!new), E(!new)>(
    step: (S, seq<byte>) -> Step<S, E>, done: S -> bool, s: S, rest: seq<byte>, chunks: seq<seq<byte>>)
    requires Prompt(step) && Ends(step, done) && step(s, rest).More?
    ensures var o := Drain(step, s, rest + Flatten(chunks));
            FeedUntil(step, done, s, rest, chunks) == (o.state, o.error)
    decreases |chunks|
  {
    if chunks == [] {
      assert rest + Flatten(chunks) == rest;
    } else if done(s) {
      assert step(s, rest + Flatten(chunks)).More?;
      assert step(s, rest + Flatten(chunks[1..])).More?;
      DroppingInvisible(step, done, s, rest, chunks[1..]);
    } else {
      var o := Drain(step, s, rest + chunks[0]);
      DrainAppend(step, s, rest + chunks[0], Flatten(chunks[1..]));
      assert rest + Flatten(chunks) == (rest + chunks[0]) + Flatten(chunks[1..]);
      if o.error.None? {
        DrainIdle(step, s, rest + chunks[0]);
        DroppingInvisible(step, done, o.state, o.rest, chunks[1..]);
      }
    }
  }
}
