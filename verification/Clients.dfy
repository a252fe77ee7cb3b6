/** tmux-control/src/client/mod.rs: the single-threaded client. It reads while a
    call waits and at no other time, through the same codec and demultiplexer. */
module Clients {
  import opened Wrappers
  import opened Framing
  import opened Blocks
  import opened Connections

  datatype Outcome = Answered(settled: Settled) | NotReady(state: ConnectionState) | Unsolicited(settled: Settled)
                   | SendFailed | ReadStopped(end: ReadEnd)

  class Client {
    const codec: Codec
    const demux: Demux
    /** The reads the transport will give. */
    var input: seq<ReadResult>
    var replies: seq<Settled>
    var sunk: seq<Event>
    var state: ConnectionState
    /** The bytes read on this transport, what they were routed to, and the
        replies handed out. */
    ghost var stream: Text
    ghost var heard: seq<Routed>
    ghost var taken: seq<Settled>
    ghost var earlier: seq<Event>

    /** Every reply heard is handed out or waiting, and everything else is with
        its sink, all in order. */
    ghost predicate Valid()
      reads this, codec, demux
    {
      && Fed(codec.notify, State([], None), stream).0 == codec.AsState()
      && RouteAll([], Fed(codec.notify, State([], None), stream).1) == (demux.lines, heard)
      && AnswersOf(heard) == Items(taken + replies)
      && sunk == earlier + EventsOf(heard)
    }

    constructor (notify: Notify, input: seq<ReadResult>, state: ConnectionState)
      ensures Valid() && fresh(codec) && fresh(demux) && codec.notify == notify
      ensures this.input == input && this.state == state && replies == [] && taken == [] && stream == []
    {
      codec := new Codec(notify);
      demux := new Demux();
      this.input, this.state := input, state;
      replies, sunk := [], [];
      stream, heard, taken, earlier := [], [], [], [];
      new;
      NothingHeard(notify);
    }
  
    /** One read's bytes, routed: replies wait their turn, and all else is passed on. */
    method Hear(bytes: Text)
      requires Valid()
      modifies this`replies, this`sunk, this`stream, this`heard, codec, demux
      ensures Valid() && stream == old(stream) + bytes && old(replies) <= replies
    {
      hide Fed, RouteAll, AnswersOf, EventsOf;
      var more := ReadRouted(codec, demux, bytes);
      HeardMore(codec.notify, stream, bytes);
      AnswersJoin(heard, more);
      ghost var (before, events) := (replies, EventsOf(heard));
      stream, heard := stream + bytes, heard + more;
      Dispatch(more);
      StillInOrder(taken, before, replies, more);
      assert earlier + events + EventsOf(more) == earlier + (events + EventsOf(more));
    }

    /** Reads for as long as no reply is waiting, then hands out the one that has
        waited longest. All that is not a reply is passed on as it is read. */
    method NextReply() returns (r: Result<Settled, ReadEnd>)
      requires Valid()
      modifies this, codec, demux
      ensures Valid() && earlier == old(earlier) && old(stream) <= stream
      ensures r.Ok? ==> taken == old(taken) + [r.value] && state == old(state)
      ensures r.Err? ==> taken == old(taken) && replies == [] && state == old(state).ClosedBy(r.error.Reason())
      ensures ReadFrom(old(input), input) && stream == old(stream) + BytesOf(old(input)[..|old(input)| - |input|])
      ensures r.Ok? ==> AllChunks(old(input), |old(input)| - |input|) && (old(replies) != [] ==> input == old(input))
      ensures r.Err? ==> EndedBy(old(input), input, r.error)
    {
      hide Fed, RouteAll, AnswersOf, EventsOf, BytesOf, AllChunks, EndedBy;
      NoBytes(input, stream);
      NoneGone(input);
      while replies == []
        invariant Valid() && earlier == old(earlier) && old(stream) <= stream
        invariant taken == old(taken) && state == old(state)
        invariant ReadFrom(old(input), input) && AllChunks(old(input), |old(input)| - |input|)
        invariant stream == old(stream) + BytesOf(old(input)[..|old(input)| - |input|])
        invariant old(replies) != [] ==> input == old(input)
        decreases |input|, replies == []
      {
        if input == [] {
          state := state.ClosedBy(Eof.Reason());
          NoneLeft(old(input), input);
          return Err(Eof);
        }
        var read := input[0];
        OneGone(old(input), input);
        input := input[1..];
        match read {
          case End(end) =>
            state := state.ClosedBy(end.Reason());
            return Err(end);
          case Chunk(bytes) =>
            Hear(bytes);
        }
      }
      r := Ok(replies[0]);
      assert taken + replies == taken + [replies[0]] + replies[1..];
      taken := taken + [replies[0]];
      replies := replies[1..];
    }

    /** Each routed message to the queue or its sink. */
    method Dispatch(routed: seq<Routed>)
      modifies this`replies, this`sunk
      ensures Items(replies) == Items(old(replies)) + AnswersOf(routed)
      ensures sunk == old(sunk) + EventsOf(routed)
      ensures old(replies) <= replies
    {
      assert routed[..0] == [];
      for i := 0 to |routed|
        invariant Items(replies) == Items(old(replies)) + AnswersOf(routed[..i])
        invariant sunk == old(sunk) + EventsOf(routed[..i])
        invariant old(replies) <= replies
      {
        assert routed[..i + 1] == routed[..i] + [routed[i]];
        AnswersPush(routed[..i], routed[i]);
        match routed[i] {
          case Reply(settled) =>
            ItemsPush(replies, settled);
            replies := replies + [settled];
          case Note(message) => sunk := sunk + [Notified(message)];
          case PaneBytes(pane, data) => sunk := sunk + [Output(pane, data)];
        }
      }
      assert routed[..|routed|] == routed;
    }

    /** Sends a command and waits for the reply that follows by position: the nth
        reply handed out on a transport is the nth that arrived on it. */
    method Execute(sends: bool) returns (o: Outcome)
      requires Valid()
      modifies this, codec, demux
      ensures Valid() && earlier == old(earlier)
      ensures old(state) != Ready ==> o == NotReady(old(state)) && state == old(state) && taken == old(taken)
      ensures old(state) == Ready && old(replies) != [] ==> o == Unsolicited(old(replies)[0]) && state == Closed(Protocol)
      ensures o.Answered? ==>
                && old(replies) == [] && state == Ready && taken == old(taken) + [o.settled]
                && |AnswersOf(heard)| > |old(taken)| && AnswersOf(heard)[|old(taken)|] == Answer(o.settled)
      ensures o.SendFailed? ==> state == Closed(TransportError) && taken == old(taken)
      ensures o.ReadStopped? ==>
                state == Closed(o.end.Reason()) && taken == old(taken) && EndedBy(old(input), input, o.end)
      ensures ReadFrom(old(input), input) && stream == old(stream) + BytesOf(old(input)[..|old(input)| - |input|])
    {
      hide Fed, RouteAll, AnswersOf, EventsOf, BytesOf;
      NoBytes(input, stream);
      if state != Ready {
        return NotReady(state);
      }
      if replies != [] {
        o := Unsolicited(replies[0]);
        assert taken + replies == taken + [replies[0]] + replies[1..];
        taken := taken + [replies[0]];
        replies := replies[1..];
        state := state.ClosedBy(Protocol);
        return;
      }
      if !sends {
        state := state.ClosedBy(TransportError);
        return SendFailed;
      }
      ghost var before := taken;
      var r := NextReply();
      match r {
        case Err(end) => o := ReadStopped(end);
        case Ok(settled) =>
          assert Items(taken + replies)[|before|] == Answer(settled);
          o := Answered(settled);
      }
    }

    /** The greeting answers no command: whatever it settled as, the client is then
        ready, and no caller is given it. */
    method ConsumeGreeting() returns (ok: bool)
      requires Valid()
      modifies this, codec, demux
      ensures Valid() && earlier == old(earlier)
      ensures ok ==> state == Ready && |taken| == |old(taken)| + 1
      ensures !ok ==> taken == old(taken) && (state.Closed? || old(state).Closed?)
    {
      var r := NextReply();
      if r.Err? {
        return false;
      }
      state := Ready;
      return true;
    }

    /** A fresh transport: nothing of the last one's stream is left. */
    method Reconnect(input: seq<ReadResult>, attempt: nat) returns (ok: bool)
      requires Valid()
      modifies this, codec, demux
      ensures Valid() && earlier == old(sunk)
      ensures ok ==> state == Ready && |taken| == 1
    {
      codec.Reset();
      demux.lines := [];
      replies := [];
      this.input := input;
      state := Reconnecting(attempt);
      stream, heard, taken, earlier := [], [], [], sunk;
      NothingHeard(codec.notify);
      assert sunk == earlier + [];
      ok := ConsumeGreeting();
    }
  }

  /** What is left of the reads, once the first of them have been gone through. */
  ghost predicate ReadFrom(reads_: seq<ReadResult>, left: seq<ReadResult>) {
    |left| <= |reads_| && left == reads_[|reads_| - |left|..]
  }

  ghost predicate AllChunks(reads_: seq<ReadResult>, n: int) {
    forall i :: 0 <= i < n && i < |reads_| ==> reads_[i].Chunk?
  }

  /** The reads gone through are chunks, and then this ending; or chunks, and there
      are no more. */
  ghost predicate EndedBy(reads_: seq<ReadResult>, left: seq<ReadResult>, end: ReadEnd) {
    var n := |reads_| - |left|;
    || (0 < n <= |reads_| && AllChunks(reads_, n - 1) && reads_[n - 1] == End(end))
    || (left == [] && end == Eof && AllChunks(reads_, n))
  }

  lemma NoneGone(reads_: seq<ReadResult>)
    ensures ReadFrom(reads_, reads_) && AllChunks(reads_, 0)
  {}

  lemma NoneLeft(reads_: seq<ReadResult>, left: seq<ReadResult>)
    requires left == [] && AllChunks(reads_, |reads_| - |left|)
    ensures EndedBy(reads_, left, Eof)
  {}

  /** One more read gone through. */
  lemma OneGone(reads_: seq<ReadResult>, left: seq<ReadResult>)
    requires ReadFrom(reads_, left) && left != [] && AllChunks(reads_, |reads_| - |left|)
    ensures ReadFrom(reads_, left[1..])
    ensures left[0].Chunk? ==> AllChunks(reads_, |reads_| - |left[1..]|)
    ensures left[0].End? ==> EndedBy(reads_, left[1..], left[0].end)
    ensures BytesOf(reads_[..|reads_| - |left[1..]|])
         == BytesOf(reads_[..|reads_| - |left|]) + if left[0].Chunk? then left[0].bytes else []
  {
    hide BytesOf;
    var at := |reads_| - |left|;
    assert reads_[at] == left[0];
    BytesPush(reads_, at);
  }

  lemma NoBytes(input: seq<ReadResult>, stream: Text)
    ensures stream + BytesOf(input[..0]) == stream
  {}

  lemma ItemsJoin(a: seq<Settled>, b: seq<Settled>)
    ensures Items(a + b) == Items(a) + Items(b)
  {}

  lemma StillInOrder(taken: seq<Settled>, before: seq<Settled>, after: seq<Settled>, more: seq<Routed>)
    requires Items(after) == Items(before) + AnswersOf(more)
    ensures Items(taken + after) == Items(taken + before) + AnswersOf(more)
  {
    hide AnswersOf, Items;
    ItemsJoin(taken, before);
    ItemsJoin(taken, after);
  }

  lemma HeardMore(notify: Notify, stream: Text, bytes: Text)
    ensures var (t, messages) := Fed(notify, State([], None), stream);
            var (left, heard) := RouteAll([], messages);
            var (u, more) := Fed(notify, t, bytes);
            && Fed(notify, State([], None), stream + bytes).0 == u
            && RouteAll([], Fed(notify, State([], None), stream + bytes).1)
               == (RouteAll(left, more).0, heard + RouteAll(left, more).1)
  {
    hide Fed, RouteAll;
    FedJoin(notify, State([], None), stream, bytes);
    var (t, messages) := Fed(notify, State([], None), stream);
    RouteJoin([], messages, Fed(notify, t, bytes).1);
  }

  lemma {:induction false} AnswersJoin(a: seq<Routed>, b: seq<Routed>)
    ensures AnswersOf(a + b) == AnswersOf(a) + AnswersOf(b)
    ensures EventsOf(a + b) == EventsOf(a) + EventsOf(b)
    decreases |b|
  {
    if |b| == 0 {
      assert a + b == a;
    } else {
      var init, last := b[..|b| - 1], b[|b| - 1];
      assert a + b == a + init + [last] && b == init + [last];
      AnswersPush(a + init, last);
      AnswersPush(init, last);
      AnswersJoin(a, init);
    }
  }

  lemma NothingHeard(notify: Notify)
    ensures Fed(notify, State([], None), []) == (State([], None), [])
    ensures RouteAll([], []) == ([], []) && AnswersOf([]) == [] && EventsOf([]) == [] && Items([]) == []
  {
    NoLines([]);
  }
}
