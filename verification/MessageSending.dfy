/**
 Commands sent one after the other on a connection, with compressions that finish in any order:
 what arrives, and when it arrives in the order of the calls.
 */
module MessageSending {
  import opened Wrappers
  import opened Sequences
  import opened Bytes
  import opened Commands
  import opened MessageStreams

  // A call of `writeCommand`, or the callback of the i-th compression under way.
  datatype Event = Call(sending: Sending) | Deflated(i: nat, compressed: Option<seq<byte>>)

  // The outbox, and the calls that were under compression while a later call was pushed.
  datatype History = History(o: Outbox, overtaken: set<nat>)

  predicate Finishes(o: Outbox, e: Event)
  {
    e.Deflated? && e.i < |o.deflating| && Printable(o.deflating[e.i].command)
  }

  function After(o: Outbox, e: Event): Outbox
  {
    match e
    case Call(sending) => Send(o, sending).0
    case Deflated(i, compressed) => if Finishes(o, e) then Finish(o, i, compressed).0 else o
  }

  predicate InFlight(o: Outbox, call: nat)
  {
    exists i :: 0 <= i < |o.deflating| && o.deflating[i].call == call
  }

  // The earlier calls still under compression when an event has pushed the frame of a later one.
  function Passed(o: Outbox, next: Outbox): set<nat>
  {
    if |next.order| <= |o.order| then {}
    else set i | 0 <= i < |o.deflating| && o.deflating[i].call < next.order[|next.order| - 1] :: o.deflating[i].call
  }

  function Step(h: History, e: Event): History
  {
    var next := After(h.o, e);
    History(next, h.overtaken + Passed(h.o, next))
  }

  function Run(events: seq<Event>): History
    decreases |events|
  {
    if events == [] then History(NOTHING_SENT, {}) else Step(Run(events[..|events| - 1]), events[|events| - 1])
  }

  // ----- Every call once -----

  predicate AllDifferent(s: seq<nat>)
  {
    forall i, j :: 0 <= i < j < |s| ==> s[i] != s[j]
  }

  // Each call is pushed, failed or still under compression: one of them, and once.
  predicate Sorted(o: Outbox)
  {
    && |o.frames| == |o.order| && AllDifferent(o.order)
    && (forall call :: call in o.order ==> call < |o.sent| && call !in o.failed && !InFlight(o, call))
    && (forall call :: call in o.failed ==> call < |o.sent| && !InFlight(o, call))
    && (forall i, j :: 0 <= i < j < |o.deflating| ==> o.deflating[i].call != o.deflating[j].call)
    && (forall i :: 0 <= i < |o.deflating| ==>
          && o.deflating[i].call < |o.sent| && o.deflating[i].command == o.sent[o.deflating[i].call].command
          && StartOf(o.sent[o.deflating[i].call]) == StartDeflating)
    && (forall call :: 0 <= call < |o.sent| ==> call in o.order || call in o.failed || InFlight(o, call))
  }

  lemma SendSorts(o: Outbox, s: Sending)
    requires Sorted(o)
    ensures Sorted(Send(o, s).0)
  {
    hide StartOf, InFlight, AllDifferent;
    var next, call := Send(o, s).0, |o.sent|;
    NewCall(o, next, s);
    assert call !in o.order && call !in o.failed;
    if next.order == o.order + [call] {
      DifferentSnoc(o.order, call);
    }
  }

  lemma DifferentSnoc(s: seq<nat>, x: nat)
    requires AllDifferent(s) && x !in s
    ensures AllDifferent(s + [x])
  {
    assert forall i :: 0 <= i < |s| ==> s[i] in s;
  }

  lemma NewCall(o: Outbox, next: Outbox, s: Sending)
    requires Sorted(o) && next == Send(o, s).0
    ensures !InFlight(o, |o.sent|) && (InFlight(next, |o.sent|) <==> StartOf(s) == StartDeflating)
    ensures forall c :: 0 <= c < |o.sent| ==> (InFlight(next, c) <==> InFlight(o, c))
  {
    hide StartOf;
    forall c | 0 <= c < |o.sent| && InFlight(o, c)
      ensures InFlight(next, c)
    {
      var i :| 0 <= i < |o.deflating| && o.deflating[i].call == c;
      assert next.deflating[i].call == c;
    }
    if StartOf(s) == StartDeflating {
      assert next.deflating[|o.deflating|].call == |o.sent|;
    }
  }

  lemma Removed(o: Outbox, i: nat)
    requires Sorted(o) && i < |o.deflating|
    ensures var rest := o.(deflating := o.deflating[..i] + o.deflating[i + 1..]);
      && !InFlight(rest, o.deflating[i].call)
      && (forall c :: c != o.deflating[i].call ==> (InFlight(rest, c) <==> InFlight(o, c)))
      && (forall j :: 0 <= j < |rest.deflating| ==> rest.deflating[j] == o.deflating[if j < i then j else j + 1])
  {
    hide StartOf;
    var rest := o.(deflating := o.deflating[..i] + o.deflating[i + 1..]);
    forall c | c != o.deflating[i].call && InFlight(o, c)
      ensures InFlight(rest, c)
    {
      var j :| 0 <= j < |o.deflating| && o.deflating[j].call == c;
      assert rest.deflating[if j < i then j else j - 1].call == c;
    }
  }

  lemma FinishSorts(o: Outbox, i: nat, compressed: Option<seq<byte>>)
    requires Sorted(o) && i < |o.deflating| && Printable(o.deflating[i].command)
    ensures Sorted(Finish(o, i, compressed).0)
  {
    hide StartOf, InFlight, CompressedFrame, Printable;
    var next, call := Finish(o, i, compressed).0, o.deflating[i].call;
    Removed(o, i);
    Flying(o, i);
    SameFlights(o.(deflating := o.deflating[..i] + o.deflating[i + 1..]), next);
  }

  lemma Flying(o: Outbox, i: nat)
    requires i < |o.deflating|
    ensures InFlight(o, o.deflating[i].call)
  {
  }

  lemma SameFlights(o: Outbox, next: Outbox)
    requires next.deflating == o.deflating
    ensures forall c :: InFlight(next, c) <==> InFlight(o, c)
  {
  }

  // ----- Order -----

  predicate Ascending(order: seq<nat>)
  {
    forall i, j :: 0 <= i < j < |order| ==> order[i] < order[j]
  }

  predicate PassedBy(order: seq<nat>, call: nat)
  {
    exists k :: 0 <= k < |order| && order[k] > call
  }

  // A call under compression was overtaken exactly when a later one is among those pushed; of
  // those pushed, the order is that of the calls exactly when none was overtaken.
  predicate Ordered(h: History)
  {
    && (forall i :: 0 <= i < |h.o.deflating| ==>
          (h.o.deflating[i].call in h.overtaken <==> PassedBy(h.o.order, h.o.deflating[i].call)))
    && (Ascending(h.o.order) <==> forall call :: call in h.overtaken ==> call !in h.o.order)
    && (forall call :: call in h.overtaken ==> call < |h.o.sent|)
    && (forall call :: call in h.overtaken ==> StartOf(h.o.sent[call]) == StartDeflating)
  }

  lemma PassedBySnoc(order: seq<nat>, pushed: nat, call: nat)
    ensures PassedBy(order + [pushed], call) <==> PassedBy(order, call) || pushed > call
  {
    var after := order + [pushed];
    if PassedBy(order, call) {
      var k :| 0 <= k < |order| && order[k] > call;
      assert after[k] > call;
    }
    assert after[|order|] == pushed;
  }

  lemma AscendingSnoc(order: seq<nat>, pushed: nat)
    requires pushed !in order
    ensures Ascending(order + [pushed]) <==> Ascending(order) && !PassedBy(order, pushed)
  {
    var after := order + [pushed];
    assert forall k :: 0 <= k < |order| ==> after[k] == order[k] && order[k] in order;
    if Ascending(after) {
      assert forall k :: 0 <= k < |order| ==> after[k] < after[|order|];
    } else if Ascending(order) {
      var i, j :| 0 <= i < j < |after| && after[i] >= after[j];
      assert j == |order| && order[i] > pushed;
    }
  }

  // A frame is pushed: for a new call, or for one that was under compression.
  lemma PushOrders(h: History, next: Outbox, pushed: nat)
    requires Sorted(h.o) && Ordered(h) && Sorted(next)
    requires next.order == h.o.order + [pushed] && h.o.sent <= next.sent && pushed !in h.o.order
    requires forall j :: 0 <= j < |next.deflating| ==>
      next.deflating[j] in h.o.deflating && next.deflating[j].call != pushed
    requires InFlight(h.o, pushed) || pushed == |h.o.sent|
    ensures Ordered(History(next, h.overtaken + Passed(h.o, next)))
  {
    hide StartOf, Sorted, Ascending, PassedBy;
    var passed := Passed(h.o, next);
    AscendingSnoc(h.o.order, pushed);
    PassedOnly(h, pushed);
    forall call | call in passed
      ensures call !in next.order && call < |h.o.sent| && StartOf(h.o.sent[call]) == StartDeflating
    {
      PassedIs(h.o, next, call);
    }
    forall i | 0 <= i < |next.deflating|
      ensures next.deflating[i].call in h.overtaken + passed <==> PassedBy(next.order, next.deflating[i].call)
    {
      PassedBySnoc(h.o.order, pushed, next.deflating[i].call);
      var j :| 0 <= j < |h.o.deflating| && h.o.deflating[j] == next.deflating[i];
    }
  }

  lemma PassedIs(o: Outbox, next: Outbox, call: nat)
    requires Sorted(o) && call in Passed(o, next) && |next.order| == |o.order| + 1 && next.order[..|o.order|] == o.order
    ensures InFlight(o, call) && call !in next.order && call < |o.sent| && StartOf(o.sent[call]) == StartDeflating
  {
    hide StartOf;
    var i :| 0 <= i < |o.deflating| && o.deflating[i].call == call && call < next.order[|next.order| - 1];
    assert call !in o.order;
    assert next.order == o.order + [next.order[|o.order|]];
  }

  // The pushed call was overtaken exactly when a later one was pushed before it.
  lemma PassedOnly(h: History, pushed: nat)
    requires Sorted(h.o) && Ordered(h) && (InFlight(h.o, pushed) || pushed == |h.o.sent|)
    ensures pushed in h.overtaken <==> PassedBy(h.o.order, pushed)
  {
    hide StartOf, Ascending;
    if pushed == |h.o.sent| {
      assert forall k :: 0 <= k < |h.o.order| ==> h.o.order[k] in h.o.order;
    } else {
      var i :| 0 <= i < |h.o.deflating| && h.o.deflating[i].call == pushed;
    }
  }

  lemma QuietOrders(h: History, next: Outbox)
    requires Sorted(h.o) && Ordered(h) && next.order == h.o.order && h.o.sent <= next.sent
    requires forall j :: 0 <= j < |next.deflating| ==>
      next.deflating[j] in h.o.deflating || next.deflating[j].call == |h.o.sent|
    ensures Ordered(History(next, h.overtaken + Passed(h.o, next)))
  {
    hide StartOf, Ascending;
    forall i | 0 <= i < |next.deflating|
      ensures next.deflating[i].call in h.overtaken <==> PassedBy(next.order, next.deflating[i].call)
    {
      if next.deflating[i].call == |h.o.sent| {
        assert forall k :: 0 <= k < |h.o.order| ==> h.o.order[k] in h.o.order;
      }
    }
  }

  lemma StepKeeps(h: History, e: Event)
    requires Sorted(h.o) && Ordered(h)
    ensures Sorted(Step(h, e).o) && Ordered(Step(h, e))
  {
    hide Ordered, Ascending, CompressedFrame, MessageBytes, Passed, InFlight;
    var next := After(h.o, e);
    match e {
      case Call(s) =>
        SendSorts(h.o, s);
        if StartOf(s).Push? {
          assert |h.o.sent| !in h.o.order;
          forall j | 0 <= j < |next.deflating|
            ensures next.deflating[j].call != |h.o.sent|
          {
          }
          PushOrders(h, next, |h.o.sent|);
        } else {
          QuietOrders(h, next);
        }
      case Deflated(i, compressed) =>
        if Finishes(h.o, e) {
          FinishSorts(h.o, i, compressed);
          Removed(h.o, i);
          Flying(h.o, i);
          var rest := h.o.deflating[..i] + h.o.deflating[i + 1..];
          NotIn(h.o, rest, i);
          if compressed.Some? && FitsFrame(compressed.value) {
            PushOrders(h, next, h.o.deflating[i].call);
          } else {
            QuietOrders(h, next);
          }
        } else {
          QuietOrders(h, next);
        }
    }
  }

  lemma NotIn(o: Outbox, rest: seq<Deflation>, i: nat)
    requires Sorted(o) && i < |o.deflating| && rest == o.deflating[..i] + o.deflating[i + 1..]
    ensures forall j :: 0 <= j < |rest| ==> rest[j] in o.deflating && rest[j].call != o.deflating[i].call
  {
    hide StartOf;
    forall j | 0 <= j < |rest|
      ensures rest[j] in o.deflating && rest[j].call != o.deflating[i].call
    {
      assert rest[j] == o.deflating[if j < i then j else j + 1];
    }
  }

  lemma {:induction false} RunKeeps(events: seq<Event>)
    ensures Sorted(Run(events).o) && Ordered(Run(events))
    decreases |events|
  {
    hide Step, Sorted, Ordered;
    if events == [] {
      NothingSent();
    } else {
      RunKeeps(events[..|events| - 1]);
      StepKeeps(Run(events[..|events| - 1]), events[|events| - 1]);
    }
  }

  lemma NothingSent()
    ensures Sorted(NOTHING_SENT) && Ordered(History(NOTHING_SENT, {}))
  {
  }

  // ----- Main results: order -----

  // Each call of `writeCommand` is pushed, failed or under compression, exactly one of the
  // three, and pushed at most once.
  lemma PushedOnce(events: seq<Event>, call: nat)
    requires call < |Run(events).o.sent|
    ensures var o := Run(events).o;
      && |o.frames| == |o.order|
      && (forall i, j :: 0 <= i < j < |o.order| ==> o.order[i] != o.order[j])
      && (call in o.order <==> call !in o.failed && !InFlight(o, call))
      && !(call in o.failed && InFlight(o, call))
  {
    hide Run, Ordered, StartOf, InFlight;
    RunKeeps(events);
  }

  // The frames are pushed in the order of the calls exactly when no call that is pushed was
  // overtaken before.
  lemma PushOrderExactly(events: seq<Event>)
    ensures var h := Run(events);
      Ascending(h.o.order) <==> forall call :: call in h.overtaken ==> call !in h.o.order
  {
    hide Run, Sorted, Ascending;
    RunKeeps(events);
  }

  // No frame is pushed while an earlier call is under compression.
  predicate NeverOvertakes(events: seq<Event>)
    decreases |events|
  {
    events == [] ||
    (&& NeverOvertakes(events[..|events| - 1])
     && Passed(Run(events[..|events| - 1]).o, Run(events).o) == {})
  }

  lemma {:induction false} OvertakenNone(events: seq<Event>)
    ensures Run(events).overtaken == {} <==> NeverOvertakes(events)
    decreases |events|
  {
    if events != [] {
      hide After, Passed;
      OvertakenNone(events[..|events| - 1]);
    }
  }

  predicate NoCompressionFailed(o: Outbox)
  {
    forall call :: call in o.failed && call < |o.sent| ==> StartOf(o.sent[call]).Refused?
  }

  // So when all compressions are through and succeeded, the order is that of the calls exactly
  // when none was in flight while a later command was pushed.
  lemma CallOrderExactly(events: seq<Event>)
    requires Run(events).o.deflating == [] && NoCompressionFailed(Run(events).o)
    ensures Ascending(Run(events).o.order) <==> NeverOvertakes(events)
  {
    hide Run, NeverOvertakes, Ascending, StartOf;
    RunKeeps(events);
    OvertakenNone(events);
    var h := Run(events);
    forall call | call in h.overtaken
      ensures call in h.o.order
    {
      assert !InFlight(h.o, call);
    }
    if h.overtaken != {} {
      var call :| call in h.overtaken;
      assert call in h.o.order;
    }
  }

  // A command to be compressed and then a plain one: the plain one is pushed first, whatever
  // the two are.
  lemma PlainOvertakes(first: Sending, second: Sending, compressed: seq<byte>)
    requires StartOf(first) == StartDeflating && StartOf(second).Push? && FitsFrame(compressed)
    ensures var o := Run([Call(first), Call(second), Deflated(0, Some(compressed))]).o;
      o.order == [1, 0] && o.frames == [MessageBytes(second.command), CompressedFrame(first.command, compressed)]
  {
    hide MessageBytes, CompressedFrame, StartOf, FitsFrame, After, Passed;
    var events := [Call(first), Call(second), Deflated(0, Some(compressed))];
    assert events[..2] == [Call(first), Call(second)] && events[..2][..1] == [Call(first)] && [Call(first)][..0] == [];
    assert Run([]) == History(NOTHING_SENT, {});
    var o1 := After(NOTHING_SENT, Call(first));
    var o2 := After(o1, Call(second));
    assert Run([Call(first)]).o == o1 && Run([Call(first), Call(second)]).o == o2;
    assert Run(events).o == After(o2, Deflated(0, Some(compressed)));
    Compresses(NOTHING_SENT, first);
    Pushes(o1, second);
    FinishesOnly(o2, first.command, compressed);
    assert [] + [second.command] == [second.command];
  }

  lemma Compresses(o: Outbox, s: Sending)
    requires StartOf(s) == StartDeflating
    ensures After(o, Call(s)) == o.(sent := o.sent + [s], deflating := o.deflating + [Deflation(|o.sent|, s.command)])
    ensures Printable(s.command)
  {
  }

  lemma Pushes(o: Outbox, s: Sending)
    requires StartOf(s).Push?
    ensures After(o, Call(s))
         == o.(sent := o.sent + [s], frames := o.frames + [MessageBytes(s.command)], order := o.order + [|o.sent|])
  {
    hide MessageBytes;
  }

  lemma FinishesOnly(o: Outbox, command: Command, compressed: seq<byte>)
    requires |o.deflating| == 1 && o.deflating[0].command == command && Printable(command) && FitsFrame(compressed)
    ensures var next := After(o, Deflated(0, Some(compressed)));
      && next.order == o.order + [o.deflating[0].call]
      && next.frames == o.frames + [CompressedFrame(command, compressed)]
  {
    hide CompressedFrame;
  }

  // What a call does right away: a command that may not be compressed (its name is one that
  // carries credentials or opens a connection) or need not be is pushed at once, as it is.
  lemma CompressionDecides(o: Outbox, s: Sending)
    requires Printable(s.command)
    ensures var q, sensitive := After(o, Call(s)),
        {"ismaster", "saslStart", "saslContinue", "getnonce", "authenticate", "createUser", "updateUser",
         "copydbSaslStart", "copydbgetnonce", "copydb"};
      && q.sent == o.sent + [s]
      && (s.compressor == NoCompressor || s.command.name in sensitive ==>
            q.frames == o.frames + [MessageBytes(s.command)] && q.order == o.order + [|o.sent|]
            && q.deflating == o.deflating && q.failed == o.failed)
      && (s.compressor == Zlib && s.command.name !in sensitive ==>
            q.frames == o.frames && q.failed == o.failed
            && q.deflating == o.deflating + [Deflation(|o.sent|, s.command)])
      && (s.compressor == Snappy && s.command.name !in sensitive ==>
            q.frames == o.frames && q.deflating == o.deflating && q.failed == o.failed + [|o.sent|])
  {
    hide MessageBytes;
  }

  // A command too large for its length field, and a compression that failed or came out too
  // large, push nothing and fail the call.
  lemma NothingPushed(o: Outbox, e: Event)
    requires e.Call? ==> !Printable(e.sending.command)
    requires e.Deflated? ==> Finishes(o, e) && (e.compressed.Some? ==> !FitsFrame(e.compressed.value))
    ensures var q := After(o, e);
      q.frames == o.frames && q.failed == o.failed + [if e.Call? then |o.sent| else o.deflating[e.i].call]
  {
  }

  // ----- Main results: arrival -----

  // zlib: what a compression yields inflates to the body it was given.
  predicate Honest(inflate: Codec, o: Outbox, e: Event)
  {
    Finishes(o, e) && e.compressed.Some? ==> inflate(e.compressed.value) == Some(MessageBody(o.deflating[e.i].command))
  }

  predicate HonestRun(inflate: Codec, events: seq<Event>)
    decreases |events|
  {
    events == [] ||
    (HonestRun(inflate, events[..|events| - 1]) && Honest(inflate, Run(events[..|events| - 1]).o, events[|events| - 1]))
  }

  predicate WasCompressed(s: Sending)
  {
    StartOf(s) == StartDeflating
  }

  // A frame of a command: the plain bytes, or a compressed frame that inflates to them.
  ghost predicate FrameOf(inflate: Codec, s: Sending, frame: seq<byte>)
  {
    match StartOf(s)
    case Refused(_) => false
    case Push(plain) => frame == plain
    case StartDeflating =>
      exists z :: FitsFrame(z) && frame == CompressedFrame(s.command, z) && inflate(z) == Some(MessageBody(s.command))
  }

  ghost predicate FramesSound(inflate: Codec, o: Outbox)
    requires Sorted(o)
  {
    forall k :: 0 <= k < |o.frames| ==> o.order[k] in o.order && FrameOf(inflate, o.sent[o.order[k]], o.frames[k])
  }

  lemma StepSound(inflate: Codec, h: History, e: Event)
    requires Sorted(h.o) && Sorted(After(h.o, e)) && FramesSound(inflate, h.o) && Honest(inflate, h.o, e)
    ensures FramesSound(inflate, After(h.o, e))
  {
    hide MessageBytes, CompressedFrame, Printable, InFlight, AllDifferent;
    var o, next := h.o, After(h.o, e);
    forall k | 0 <= k < |next.frames|
      ensures next.order[k] in next.order && FrameOf(inflate, next.sent[next.order[k]], next.frames[k])
    {
      if k < |o.frames| {
        assert next.order[k] == o.order[k] && o.order[k] in o.order;
      }
    }
  }

  lemma {:induction false} RunSound(inflate: Codec, events: seq<Event>)
    requires HonestRun(inflate, events)
    ensures Sorted(Run(events).o) && FramesSound(inflate, Run(events).o)
    decreases |events|
  {
    hide After, Sorted, FramesSound, Ordered, Honest;
    RunKeeps(events);
    if events == [] {
      NoFrames(inflate);
    } else {
      RunSound(inflate, events[..|events| - 1]);
      StepSound(inflate, Run(events[..|events| - 1]), events[|events| - 1]);
    }
  }

  lemma NoFrames(inflate: Codec)
    requires Sorted(NOTHING_SENT)
    ensures FramesSound(inflate, NOTHING_SENT)
  {
  }

  lemma FrameArrives(inflate: Codec, s: Sending, frame: seq<byte>, max: nat)
    requires FrameOf(inflate, s, frame) && IsDocument(s.command.document) && |frame| <= max
    ensures Acceptable(frame, max, DeliverWith(inflate))
    ensures ReceivedAs(s.command, MessageOf(frame, max, DeliverWith(inflate)), WasCompressed(s))
  {
    hide MessageBytes, CompressedFrame, ReceivedAs, Acceptable, DeliverWith, MessageOf, Sections;
    if WasCompressed(s) {
      var z :| FitsFrame(z) && frame == CompressedFrame(s.command, z) && inflate(z) == Some(MessageBody(s.command));
      CompressedFrameArrives(s.command, z, inflate, max);
    } else {
      PlainFrameArrives(s.command, inflate, max);
    }
  }

  // Any commands, compressed or not, with compressions that finish in any order, and received
  // in any chunks: the frames arrive in the order they were pushed, each as the one message of
  // its command, with the same request id, flags and document, and nothing is left over.
  lemma ArriveAsPushed(inflate: Codec, events: seq<Event>, chunks: seq<seq<byte>>, max: nat)
    requires HonestRun(inflate, events) && Flatten(chunks) == Flatten(Run(events).o.frames)
    requires forall s <- Run(events).o.sent :: IsDocument(s.command.document)
    requires forall frame <- Run(events).o.frames :: |frame| <= max
    ensures var o, got := Run(events).o, WriteAll([], chunks, max, DeliverWith(inflate));
      && got.ending == CalledBack && got.rest == [] && |got.messages| == |o.order|
      && forall k :: 0 <= k < |o.order| ==>
           && o.order[k] < |o.sent|
           && ReceivedAs(o.sent[o.order[k]].command, got.messages[k], WasCompressed(o.sent[o.order[k]]))
  {
    hide Run, ReceivedAs, Acceptable, MessageOf, DeliverWith, FrameOf, StartOf, IsDocument, HonestRun, InFlight,
      Receive, WriteAll, AllDifferent;
    RunSound(inflate, events);
    var o, handle := Run(events).o, DeliverWith(inflate);
    forall k | 0 <= k < |o.frames|
      ensures Acceptable(o.frames[k], max, handle)
      ensures o.order[k] < |o.sent|
      ensures ReceivedAs(o.sent[o.order[k]].command, MessageOf(o.frames[k], max, handle),
                         WasCompressed(o.sent[o.order[k]]))
    {
      assert o.order[k] in o.order;
      assert o.sent[o.order[k]] in o.sent && o.frames[k] in o.frames;
      FrameArrives(inflate, o.sent[o.order[k]], o.frames[k], max);
    }
    EmptyTail(max, handle);
    FramesArrive(o.frames, [], max, handle);
    assert MessagesOf(o.frames, max, handle) + [] == MessagesOf(o.frames, max, handle);
    assert Flatten(o.frames) + [] == Flatten(o.frames) == [] + Flatten(chunks);
    ChunkingInvisible([], chunks, max, handle);
  }

  lemma EmptyTail(max: nat, handle: Handler)
    ensures Receive([], max, handle) == Reception([], [], CalledBack)
  {
  }

  lemma {:induction false} AtLeastItsPlace(order: seq<nat>, k: nat)
    requires Ascending(order) && k < |order|
    ensures order[k] >= k
    decreases k
  {
    if k > 0 {
      AtLeastItsPlace(order, k - 1);
    }
  }

  // An ascending list of all numbers below n is 0, 1, 2, ...
  lemma {:induction false} AllInPlace(order: seq<nat>, n: nat, k: nat)
    requires Ascending(order) && k < n && forall call: nat :: call in order <==> call < n
    ensures k < |order| && order[k] == k
    decreases k
  {
    if k > 0 {
      AllInPlace(order, n, k - 1);
    }
    assert k in order;
    var j :| 0 <= j < |order| && order[j] == k;
    AtLeastItsPlace(order, j);
    if j < k {
      AllInPlace(order, n, j);
    }
  }

  // So when nothing fails, all compressions are through and none was in flight while a later
  // command was pushed, command k arrives as message k.
  lemma EndToEnd(inflate: Codec, events: seq<Event>, chunks: seq<seq<byte>>, max: nat, k: nat)
    requires HonestRun(inflate, events) && Flatten(chunks) == Flatten(Run(events).o.frames)
    requires forall s <- Run(events).o.sent :: IsDocument(s.command.document)
    requires forall frame <- Run(events).o.frames :: |frame| <= max
    requires Run(events).o.deflating == [] && Run(events).o.failed == [] && NeverOvertakes(events)
    requires k < |Run(events).o.sent|
    ensures var s, got := Run(events).o.sent[k], WriteAll([], chunks, max, DeliverWith(inflate));
      got.ending == CalledBack && k < |got.messages| && ReceivedAs(s.command, got.messages[k], WasCompressed(s))
  {
    hide Run, ReceivedAs, DeliverWith, StartOf, WriteAll, Ascending, NeverOvertakes, HonestRun, IsDocument, Ordered;
    var o := Run(events).o;
    ArriveAsPushed(inflate, events, chunks, max);
    CallOrderExactly(events);
    RunKeeps(events);
    forall call: nat
      ensures call in o.order <==> call < |o.sent|
    {
      assert !InFlight(o, call);
    }
    AllInPlace(o.order, |o.sent|, k);
  }
}
