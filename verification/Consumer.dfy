/** The Kafka consumer: deduplicate by a cached mark, handle, commit. */
module Consumer {
  import opened Basics

  /** How long a message id stays marked: seven days. */
  const TTL: Time := 7 * 24 * 3600 * SECOND

  /** Where the loop stands with the message at one offset. */
  datatype Stage =
    | Idle
    | Polled(offset: nat)
    | Unmarked(offset: nat)
    | Marked(offset: nat, at: Time)
    | Calling(offset: nat, at: Time)
    | Returned(offset: nat)
    | Duplicate(offset: nat)

  datatype HandlerCall = HandlerCall(id: Id, marked: Time)

  /** cache maps a message id to the instant its mark expires; committed survives a crash, position does not. */
  datatype Reader = Reader(
    position: nat, committed: nat, cache: map<Id, Time>, stage: Stage, calls: seq<HandlerCall>, handled: seq<Id>)

  /** CommitFails is a commit that raises and leaves the committed offset. One that lands and raises is Commit. */
  datatype Move = Poll | GetMark | SetMark | Call | Return | Raise | Commit | CommitFails | Crash

  predicate IsMarked(cache: map<Id, Time>, id: Id, now: Time) {
    id in cache && now < cache[id]
  }

  /** The loop has polled the last message before its position. */
  predicate AtMessage(c: Reader, topic: seq<Id>) {
    !c.stage.Idle? && c.stage.offset + 1 == c.position <= |topic|
  }

  function Work(c: Reader, topic: seq<Id>, now: Time, move: Move): Reader
    requires AtMessage(c, topic)
  {
    var o, id := c.stage.offset, topic[c.stage.offset];
    match move
    case GetMark =>
      if !c.stage.Polled? then c
      else if IsMarked(c.cache, id, now) then c.(stage := Duplicate(o))
      else c.(stage := Unmarked(o))
    case SetMark => if c.stage.Unmarked? then c.(cache := c.cache[id := now + TTL], stage := Marked(o, now)) else c
    case Call =>
      if c.stage.Marked? then c.(calls := c.calls + [HandlerCall(id, c.stage.at)], stage := Calling(o, c.stage.at)) else c
    case Return => if c.stage.Calling? then c.(handled := c.handled + [id], stage := Returned(o)) else c
    case Raise => if c.stage.Calling? then c.(stage := Idle) else c
    case Commit => if c.stage.Returned? || c.stage.Duplicate? then c.(committed := o + 1, stage := Idle) else c
    case CommitFails =>
      if c.stage.Returned? then c.(stage := Idle)
      else if c.stage.Duplicate? then Restarted(c)
      else c
    case _ => c
  }

  /** Outside the handler's try an exception leaves the loop; started again it polls from the committed offset. */
  function Restarted(c: Reader): Reader {
    c.(position := c.committed, stage := Idle)
  }

  /** One step of the loop. Every cache call, the handler and the commit are steps of their own. */
  function Advance(c: Reader, topic: seq<Id>, now: Time, move: Move): Reader {
    if move.Crash? then Restarted(c)
    else if c.stage.Idle? then
      if move.Poll? && c.position < |topic| then c.(position := c.position + 1, stage := Polled(c.position)) else c
    else if AtMessage(c, topic) then Work(c, topic, now, move)
    else c
  }

  function Advances(c: Reader, topic: seq<Id>, now: Time, moves: seq<Move>): Reader
    decreases |moves|
  {
    if moves == [] then c else Advances(Advance(c, topic, now, moves[0]), topic, now, moves[1..])
  }

  /** What becomes of one message: whether its handler raises, and whether its commit succeeds. */
  datatype Ending = Ending(raises: bool, commits: bool)

  const RETURNS := Ending(false, true)
  const RAISES := Ending(true, true)

  function LastMoves(e: Ending): seq<Move> {
    [if e.raises then Raise else Return, if e.commits then Commit else CommitFails]
  }

  /** One turn of the loop body: all its moves, of which those that do not apply change nothing. */
  function Turn(e: Ending): seq<Move> {
    [Poll, GetMark, SetMark, Call] + LastMoves(e)
  }

  predicate Ready(c: Reader, topic: seq<Id>) {
    c.stage.Idle? && c.position <= |topic|
  }

  /** A duplicate whose commit fails ends the loop. */
  predicate Stops(c: Reader, topic: seq<Id>, now: Time, e: Ending)
    requires c.position < |topic|
  {
    IsMarked(c.cache, topic[c.position], now) && !e.commits
  }

  /** The loop, one turn for each message up to an offset, or until it is left. */
  function Turns(c: Reader, topic: seq<Id>, clock: nat -> Time, endings: nat -> Ending, upto: nat): Reader
    requires Ready(c, topic) && c.position <= upto <= |topic|
    decreases upto - c.position
  {
    if c.position == upto then c
    else
      var now, e := clock(c.position), endings(c.position);
      var next := Advances(c, topic, now, Turn(e));
      if Stops(c, topic, now, e) then next
      else
        TurnMovesOn(c, topic, now, e);
        Turns(next, topic, clock, endings, upto)
  }

  class KafkaDomainConsumer {
    var position: nat
    var committed: nat
    var cache: map<Id, Time>
    var calls: seq<HandlerCall>
    var handled: seq<Id>

    function Snapshot(): Reader
      reads this
    {
      Reader(position, committed, cache, Idle, calls, handled)
    }

    method IsDuplicate(id: Id, now: Time) returns (duplicate: bool)
      modifies `cache
      ensures duplicate <==> IsMarked(old(cache), id, now)
      ensures cache == if duplicate then old(cache) else old(cache)[id := now + TTL]
    {
      if id in cache && now < cache[id] {
        return true;
      }
      cache := cache[id := now + TTL];
      return false;
    }

    /** The loop body for the message polled at the current position; it may leave the loop. */
    method HandleNext(topic: seq<Id>, now: Time, e: Ending) returns (stopped: bool)
      requires position < |topic|
      modifies this
      ensures Snapshot() == Advances(old(Snapshot()), topic, now, Turn(e))
      ensures stopped <==> Stops(old(Snapshot()), topic, now, e)
      ensures position == if stopped then old(committed) else old(position) + 1
    {
      ghost var before := Snapshot();
      var offset, id := position, topic[position];
      position := position + 1;
      var duplicate := IsDuplicate(id, now);
      if duplicate {
        TurnOnDuplicate(before, topic, now, e);
        if !e.commits {
          position := committed;
          return true;
        }
        committed := offset + 1;
        return false;
      }
      calls := calls + [HandlerCall(id, now)];
      if !e.raises {
        handled := handled + [id];
        if e.commits {
          committed := offset + 1;
        }
      }
      TurnOnFresh(before, topic, now, e);
      return false;
    }

    method Start(topic: seq<Id>, clock: nat -> Time, endings: nat -> Ending) returns (stopped: bool)
      requires position <= |topic|
      modifies this
      ensures Snapshot() == Turns(old(Snapshot()), topic, clock, endings, |topic|)
      ensures !stopped ==> position == |topic|
      ensures stopped ==> position == committed
                          && exists o :: old(position) <= o < |topic| && !endings(o).commits && topic[o] in cache
    {
      ghost var before := Snapshot();
      while position < |topic|
        invariant old(position) <= position <= |topic|
        invariant Turns(before, topic, clock, endings, |topic|) == Turns(Snapshot(), topic, clock, endings, |topic|)
      {
        ghost var o, at := position, Snapshot();
        stopped := HandleNext(topic, clock(position), endings(position));
        if stopped {
          TurnOnDuplicate(at, topic, clock(o), endings(o));
          return;
        }
      }
      stopped := false;
    }
  }

  lemma AdvancesStep(c: Reader, topic: seq<Id>, now: Time, m: Move, moves: seq<Move>, next: Reader)
    requires Advance(c, topic, now, m) == next
    ensures Advances(c, topic, now, [m] + moves) == Advances(next, topic, now, moves)
  {
    assert ([m] + moves)[1..] == moves;
  }

  lemma TurnOnDuplicate(c: Reader, topic: seq<Id>, now: Time, e: Ending)
    requires c.stage.Idle? && c.position < |topic| && IsMarked(c.cache, topic[c.position], now)
    ensures Advances(c, topic, now, Turn(e))
         == if e.commits then c.(position := c.position + 1, committed := c.position + 1) else Restarted(c)
  {
    var o, m, last := c.position, LastMoves(e)[0], LastMoves(e)[1];
    var c1 := c.(position := o + 1, stage := Polled(o));
    var c2 := c1.(stage := Duplicate(o));
    var c6 := Advance(c2, topic, now, last);
    AdvancesStep(c, topic, now, Poll, [GetMark, SetMark, Call, m, last], c1);
    AdvancesStep(c1, topic, now, GetMark, [SetMark, Call, m, last], c2);
    AdvancesStep(c2, topic, now, SetMark, [Call, m, last], c2);
    AdvancesStep(c2, topic, now, Call, [m, last], c2);
    AdvancesStep(c2, topic, now, m, [last], c2);
    AdvancesStep(c2, topic, now, last, [], c6);
    assert Turn(e) == [Poll] + [GetMark, SetMark, Call, m, last];
    assert Advances(c6, topic, now, []) == c6;
  }

  function MarkedNow(c: Reader, id: Id, now: Time): Reader {
    c.(position := c.position + 1, cache := c.cache[id := now + TTL], stage := Marked(c.position, now))
  }

  lemma TurnMarks(c: Reader, topic: seq<Id>, now: Time, rest: seq<Move>)
    requires c.stage.Idle? && c.position < |topic| && !IsMarked(c.cache, topic[c.position], now)
    ensures Advances(c, topic, now, [Poll, GetMark, SetMark] + rest)
         == Advances(MarkedNow(c, topic[c.position], now), topic, now, rest)
  {
    var o := c.position;
    var c1 := c.(position := o + 1, stage := Polled(o));
    var c2 := c1.(stage := Unmarked(o));
    AdvancesStep(c, topic, now, Poll, [GetMark, SetMark] + rest, c1);
    AdvancesStep(c1, topic, now, GetMark, [SetMark] + rest, c2);
    AdvancesStep(c2, topic, now, SetMark, rest, MarkedNow(c, topic[o], now));
    assert [Poll, GetMark, SetMark] + rest == [Poll] + ([GetMark, SetMark] + rest);
    assert [GetMark, SetMark] + rest == [GetMark] + ([SetMark] + rest);
  }

  lemma TurnOnFresh(c: Reader, topic: seq<Id>, now: Time, e: Ending)
    requires c.stage.Idle? && c.position < |topic| && !IsMarked(c.cache, topic[c.position], now)
    ensures var id := topic[c.position];
            var called := c.(position := c.position + 1, cache := c.cache[id := now + TTL],
                             calls := c.calls + [HandlerCall(id, now)]);
            Advances(c, topic, now, Turn(e)) ==
            if e.raises then called
            else called.(handled := c.handled + [id], committed := if e.commits then c.position + 1 else c.committed)
  {
    var o, id, m, last := c.position, topic[c.position], LastMoves(e)[0], LastMoves(e)[1];
    TurnMarks(c, topic, now, [Call, m, last]);
    assert Turn(e) == [Poll, GetMark, SetMark] + [Call, m, last];
    var c3 := MarkedNow(c, id, now);
    var c4 := c3.(calls := c.calls + [HandlerCall(id, now)], stage := Calling(o, now));
    var c5 := if e.raises then c4.(stage := Idle) else c4.(handled := c.handled + [id], stage := Returned(o));
    var c6 := Advance(c5, topic, now, last);
    AdvancesStep(c3, topic, now, Call, [m, last], c4);
    AdvancesStep(c4, topic, now, m, [last], c5);
    AdvancesStep(c5, topic, now, last, [], c6);
    assert Advances(c6, topic, now, []) == c6;
  }

  lemma TurnMovesOn(c: Reader, topic: seq<Id>, now: Time, e: Ending)
    requires c.stage.Idle? && c.position < |topic|
    ensures var next := Advances(c, topic, now, Turn(e));
            next.stage.Idle? && next.position == if Stops(c, topic, now, e) then c.committed else c.position + 1
  {
    if IsMarked(c.cache, topic[c.position], now) {
      TurnOnDuplicate(c, topic, now, e);
    } else {
      TurnOnFresh(c, topic, now, e);
    }
  }

  // ---------- what the loop leaves behind ----------

  /** Every mark belongs to a handled message, and every message before the position is handled. */
  ghost predicate AllHandled(c: Reader, topic: seq<Id>) {
    && c.committed <= c.position
    && (forall id :: id in c.cache ==> id in c.handled)
    && (forall o :: 0 <= o < c.position && o < |topic| ==> topic[o] in c.handled)
  }

  lemma QuietTurn(c: Reader, topic: seq<Id>, now: Time, e: Ending)
    requires c.stage.Idle? && c.position < |topic| && AllHandled(c, topic) && !e.raises
    ensures var next := Advances(c, topic, now, Turn(e));
            && AllHandled(next, topic) && c.handled <= next.handled
            && (e.commits ==> next.committed == next.position)
  {
    if IsMarked(c.cache, topic[c.position], now) {
      TurnOnDuplicate(c, topic, now, e);
    } else {
      TurnOnFresh(c, topic, now, e);
    }
  }

  /**
    Without raises everything the loop has passed is handled, whatever the clock says and whichever commits fail; if it
    reaches the end, the last commit makes up for all that failed before.
   */
  lemma {:induction false} QuietTurnsHandleAll(c: Reader, topic: seq<Id>, clock: nat -> Time, endings: nat -> Ending,
                                               upto: nat)
    requires Ready(c, topic) && c.position <= upto <= |topic| && AllHandled(c, topic)
    requires forall o :: c.position <= o < upto ==> !endings(o).raises
    ensures var d := Turns(c, topic, clock, endings, upto);
            && AllHandled(d, topic) && c.handled <= d.handled
            && (d.position == upto && c.position < upto && endings(upto - 1).commits ==> d.committed == upto)
            && ((forall o :: c.position <= o < upto ==> endings(o).commits) ==> d.position == upto)
            && (d.position == upto ==> forall o :: 0 <= o < upto ==> topic[o] in d.handled)
    decreases upto - c.position
  {
    if c.position < upto {
      var now, e := clock(c.position), endings(c.position);
      TurnMovesOn(c, topic, now, e);
      QuietTurn(c, topic, now, e);
      if !Stops(c, topic, now, e) {
        QuietTurnsHandleAll(Advances(c, topic, now, Turn(e)), topic, clock, endings, upto);
      }
    }
  }

  /** With raises and failing commits the loop ends at the last message, or at the committed one by a failed commit. */
  lemma {:induction false} TurnsEnd(c: Reader, topic: seq<Id>, clock: nat -> Time, endings: nat -> Ending, upto: nat)
    requires Ready(c, topic) && c.position <= upto <= |topic|
    ensures var d := Turns(c, topic, clock, endings, upto);
            && d.stage.Idle?
            && (d.position != upto ==> d.position == d.committed
                                       && exists o :: c.position <= o < upto && !endings(o).commits && topic[o] in d.cache)
    decreases upto - c.position
  {
    if c.position < upto {
      var now, e := clock(c.position), endings(c.position);
      TurnMovesOn(c, topic, now, e);
      if Stops(c, topic, now, e) {
        TurnOnDuplicate(c, topic, now, e);
      } else {
        TurnsEnd(Advances(c, topic, now, Turn(e)), topic, clock, endings, upto);
      }
    }
  }

  /**
    A message whose handler raised is not committed by its own turn, but it is, unhandled, as soon as the next message's
    handler returns and that one is committed: its offset is behind the committed one, and its handler has not returned.
   */
  lemma RaisedMessageIsPassedOver(c: Reader, topic: seq<Id>, clock: nat -> Time, endings: nat -> Ending)
    requires c.stage.Idle? && c.position + 2 <= |topic|
    requires var o := c.position;
             && topic[o] != topic[o + 1] && topic[o] !in c.handled
             && endings(o).raises && endings(o + 1) == RETURNS
             && !IsMarked(c.cache, topic[o], clock(o)) && !IsMarked(c.cache, topic[o + 1], clock(o + 1))
    ensures var o := c.position;
            var d := Turns(c, topic, clock, endings, o + 2);
            && Turns(c, topic, clock, endings, o + 1).committed == c.committed
            && d.committed == o + 2 && topic[o] !in d.handled && topic[o + 1] in d.handled
            && d.calls == c.calls + [HandlerCall(topic[o], clock(o)), HandlerCall(topic[o + 1], clock(o + 1))]
  {
    var o := c.position;
    TurnOnFresh(c, topic, clock(o), endings(o));
    var d := Advances(c, topic, clock(o), Turn(endings(o)));
    TurnOnFresh(d, topic, clock(o + 1), RETURNS);
    var e := Advances(d, topic, clock(o + 1), Turn(RETURNS));
    assert Turns(d, topic, clock, endings, o + 1) == d;
    assert Turns(e, topic, clock, endings, o + 2) == e;
    assert Turns(d, topic, clock, endings, o + 2) == e;
    assert c.calls + [HandlerCall(topic[o], clock(o))] + [HandlerCall(topic[o + 1], clock(o + 1))]
        == c.calls + [HandlerCall(topic[o], clock(o)), HandlerCall(topic[o + 1], clock(o + 1))];
  }

  lemma {:induction false} AdvancesAppend(c: Reader, topic: seq<Id>, now: Time, a: seq<Move>, b: seq<Move>)
    ensures Advances(c, topic, now, a + b) == Advances(Advances(c, topic, now, a), topic, now, b)
    decreases |a|
  {
    if a == [] {
      assert a + b == b;
    } else {
      assert (a + b)[1..] == a[1..] + b;
      AdvancesAppend(Advance(c, topic, now, a[0]), topic, now, a[1..], b);
    }
  }

  // ---------- the handler runs at most once while its message is marked ----------

  /** Two calls for one message are at least one lifetime of the mark apart. */
  ghost predicate CallsApart(calls: seq<HandlerCall>) {
    forall i, j :: 0 <= i < j < |calls| && calls[i].id == calls[j].id ==> calls[i].marked + TTL <= calls[j].marked
  }

  predicate StageOk(c: Reader, topic: seq<Id>, now: Time) {
    !c.stage.Idle? ==>
      && AtMessage(c, topic)
      && (c.stage.Unmarked? ==> !IsMarked(c.cache, topic[c.stage.offset], now))
      && (c.stage.Marked? || c.stage.Calling? ==>
            && topic[c.stage.offset] in c.cache && c.cache[topic[c.stage.offset]] == c.stage.at + TTL
            && c.stage.at <= now)
      && (c.stage.Marked? ==>
            forall k :: k in c.calls && k.id == topic[c.stage.offset] ==> k.marked + TTL <= c.stage.at)
  }

  /** The bookkeeping every run keeps. begin is when the run began. */
  ghost predicate ReaderOk(c: Reader, topic: seq<Id>, begin: Time, now: Time) {
    && c.committed <= c.position <= |topic|
    && StageOk(c, topic, now)
    && CallsApart(c.calls)
    && (forall k :: k in c.calls ==> begin <= k.marked <= now && k.id in c.cache && k.marked + TTL <= c.cache[k.id])
    && (c.stage.Marked? || c.stage.Calling? ==> begin <= c.stage.at)
    && (forall id :: id in c.handled ==> id in topic)
  }

  lemma AdvanceKeepsOk(c: Reader, topic: seq<Id>, begin: Time, now: Time, move: Move)
    requires ReaderOk(c, topic, begin, now) && begin <= now
    ensures ReaderOk(Advance(c, topic, now, move), topic, begin, now)
  {
  }

  // ---------- clean runs ----------

  /** No handler raises, and no crash falls between marking a message and the return of its handler. */
  predicate Clean(c: Reader, move: Move) {
    !move.Raise? && (move.Crash? ==> !c.stage.Marked? && !c.stage.Calling?)
  }

  predicate InHand(c: Reader, topic: seq<Id>, id: Id) {
    (c.stage.Marked? || c.stage.Calling?) && c.stage.offset < |topic| && topic[c.stage.offset] == id
  }

  /** In clean runs a mark means handled, everything before the position is handled, and no call is lost. */
  ghost predicate CleanOk(c: Reader, topic: seq<Id>) {
    && (forall id :: id in c.cache ==> id in c.handled || InHand(c, topic, id))
    && (forall o :: 0 <= o < c.position && o < |topic| && (c.stage.Idle? || o != c.stage.offset) ==> topic[o] in c.handled)
    && (c.stage.Returned? || c.stage.Duplicate? ==> c.stage.offset < |topic| && topic[c.stage.offset] in c.handled)
    && |c.calls| == |c.handled| + (if c.stage.Calling? then 1 else 0)
    && (forall i :: 0 <= i < |c.handled| ==> c.handled[i] == c.calls[i].id)
    && (c.stage.Calling? ==> c.stage.offset < |topic| && c.calls[|c.handled|].id == topic[c.stage.offset])
    && (forall o :: 0 <= o < c.committed && o < |topic| ==> topic[o] in c.handled)
  }

  lemma MarkingKeepsClean(c: Reader, topic: seq<Id>, now: Time, move: Move)
    requires AtMessage(c, topic) && CleanOk(c, topic) && (move.GetMark? || move.SetMark?)
    ensures CleanOk(Work(c, topic, now, move), topic)
  {
  }

  lemma CallingKeepsClean(c: Reader, topic: seq<Id>, now: Time, move: Move)
    requires AtMessage(c, topic) && CleanOk(c, topic) && (move.Call? || move.Return?)
    ensures CleanOk(Work(c, topic, now, move), topic)
  {
    if move.Return? && c.stage.Calling? {
      assert c.handled + [topic[c.stage.offset]] == Work(c, topic, now, move).handled;
    }
  }

  lemma CommitKeepsClean(c: Reader, topic: seq<Id>, now: Time, move: Move)
    requires AtMessage(c, topic) && CleanOk(c, topic) && c.committed <= c.position && (move.Commit? || move.CommitFails?)
    ensures CleanOk(Work(c, topic, now, move), topic)
  {
  }

  lemma AdvanceKeepsClean(c: Reader, topic: seq<Id>, begin: Time, now: Time, move: Move)
    requires ReaderOk(c, topic, begin, now) && CleanOk(c, topic) && Clean(c, move)
    ensures CleanOk(Advance(c, topic, now, move), topic)
  {
    if !move.Crash? && !c.stage.Idle? {
      match move {
        case GetMark => MarkingKeepsClean(c, topic, now, move);
        case SetMark => MarkingKeepsClean(c, topic, now, move);
        case Call => CallingKeepsClean(c, topic, now, move);
        case Return => CallingKeepsClean(c, topic, now, move);
        case Commit => CommitKeepsClean(c, topic, now, move);
        case CommitFails => CommitKeepsClean(c, topic, now, move);
        case _ =>
      }
    }
  }

  ghost predicate ExactlyOnce(s: seq<Id>, x: Id) {
    x in s && AtMostOnce(s, x)
  }

  ghost predicate AtMostOnce(s: seq<Id>, x: Id) {
    forall i, j :: 0 <= i < |s| && 0 <= j < |s| && s[i] == x && s[j] == x ==> i == j
  }
}
