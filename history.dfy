/**
 * Messages as the Hipchat room history returns them, and the cursor rules
 * of the incremental fetch: which cursor is sent with the history request,
 * which messages of the answer are new, and how the cursor file advances.
 */
module History {
  import opened Php

  /** A file attached to a message; `thumbUrl` is null for a non-image file. */
  datatype File = File(name: string, url: string, size: nat, thumbUrl: Option<string>)

  datatype Message = Message(id: string, from: string, date: string, text: string, file: Option<File>)

  /** The parameters of one history request; `notBefore` is None when the parameter is not sent. */
  datatype HistoryQuery = HistoryQuery(room: string, timezone: string, notBefore: Option<string>)

  /** The messages kept for one source room, in the order the history returned them. */
  datatype RoomMessages = RoomMessages(room: string, messages: seq<Message>)

  /** A room has a cursor when the cursor file holds a truthy message id for it. */
  predicate HasCursor(cursors: map<string, string>, room: string)
  {
    IsTruthy(Lookup(cursors, room))
  }

  /** The `not-before` parameter of a room's history request: its cursor, when it has one. */
  function NotBefore(cursors: map<string, string>, room: string): Option<string>
  {
    if HasCursor(cursors, room) then Some(cursors[room]) else None
  }

  /** Whether two cursor dictionaries agree on `room`: both lack it, or both hold the same id. */
  predicate SameCursor(before: map<string, string>, after: map<string, string>, room: string)
  {
    (room in before <==> room in after) && (room in before ==> before[room] == after[room])
  }

  /**
   * The messages of a history answer that were not relayed before: the first
   * one is the cursor message itself when a cursor was sent and the answer
   * is not empty.
   */
  function Unseen(batch: seq<Message>, hadCursor: bool): seq<Message>
  {
    if hadCursor && batch != [] then batch[1..] else batch
  }

  /**
   * The fetch result per room, `history[i]` being what the history service
   * answered for the i-th room of `order`.
   */
  function Fetched(order: seq<string>, cursors: map<string, string>, history: seq<seq<Message>>): (r: seq<RoomMessages>)
    requires |history| == |order|
    ensures |r| == |order|
    ensures forall i :: 0 <= i < |order| ==> r[i].room == order[i]
  {
    seq(|order|, i requires 0 <= i < |order| => RoomMessages(order[i], Unseen(history[i], HasCursor(cursors, order[i]))))
  }

  /**
   * What a fetch keeps of each room's answer: everything but the first
   * message when the room had a cursor, the whole answer when it had none,
   * and nothing when the answer is empty.
   */
  lemma FetchedMessages(order: seq<string>, cursors: map<string, string>, history: seq<seq<Message>>, i: nat)
    requires |history| == |order| && i < |order|
    ensures HasCursor(cursors, order[i]) && history[i] != [] ==>
      Fetched(order, cursors, history)[i].messages == history[i][1..]
    ensures !HasCursor(cursors, order[i]) ==> Fetched(order, cursors, history)[i].messages == history[i]
    ensures history[i] == [] ==> Fetched(order, cursors, history)[i].messages == []
    ensures |Fetched(order, cursors, history)[i].messages| ==
      if HasCursor(cursors, order[i]) && history[i] != [] then |history[i]| - 1 else |history[i]|
  {
  }

  /**
   * How the cursor file advances over one fetch of the rooms in `order`: a
   * room whose answer is not empty gets the id of the answer's last message
   * (even when that message is the one dropped as already relayed), a room
   * whose answer is empty and every key that is not a room keep their entry,
   * present or absent.
   */
  ghost predicate Advanced(order: seq<string>, before: map<string, string>, history: seq<seq<Message>>,
                           after: map<string, string>)
    requires |history| == |order|
  {
    && (forall i :: 0 <= i < |order| && history[i] != [] ==>
          order[i] in after && after[order[i]] == history[i][|history[i]| - 1].id)
    && (forall i :: 0 <= i < |order| && history[i] == [] ==> SameCursor(before, after, order[i]))
    && (forall k :: k !in order ==> SameCursor(before, after, k))
  }

  /**
   * The cursor dictionary after the fetch loop has handled the first `n`
   * rooms of `order`: each room with a non-empty answer stores the id of
   * the answer's last message.
   */
  function Advance(order: seq<string>, before: map<string, string>, history: seq<seq<Message>>, n: nat): map<string, string>
    requires |history| == |order| && n <= |order|
  {
    if n == 0 then before
    else
      var m := Advance(order, before, history, n - 1);
      if history[n - 1] != [] then m[order[n - 1] := history[n - 1][|history[n - 1]| - 1].id] else m
  }

  /** A key that is not among the first `n` rooms keeps its entry through the fold. */
  lemma {:induction false} AdvanceKeeps(order: seq<string>, before: map<string, string>,
                                        history: seq<seq<Message>>, n: nat, k: string)
    requires |history| == |order| && n <= |order|
    requires k !in order[..n]
    ensures SameCursor(before, Advance(order, before, history, n), k)
  {
    if n > 0 {
      assert order[..n] == order[..n - 1] + [order[n - 1]];
      AdvanceKeeps(order, before, history, n - 1, k);
    }
  }

  /** With distinct rooms, a handled room with a non-empty answer holds the id of the answer's last message. */
  lemma {:induction false} AdvanceStores(order: seq<string>, before: map<string, string>,
                                         history: seq<seq<Message>>, n: nat, i: nat)
    requires |history| == |order| && i < n <= |order|
    requires forall p, q :: 0 <= p < q < |order| ==> order[p] != order[q]
    requires history[i] != []
    ensures order[i] in Advance(order, before, history, n)
    ensures Advance(order, before, history, n)[order[i]] == history[i][|history[i]| - 1].id
  {
    if i < n - 1 {
      AdvanceStores(order, before, history, n - 1, i);
      assert order[i] != order[n - 1];
    }
  }

  /** With distinct rooms, a handled room with an empty answer keeps its entry, present or absent. */
  lemma {:induction false} AdvanceSkips(order: seq<string>, before: map<string, string>,
                                        history: seq<seq<Message>>, n: nat, i: nat)
    requires |history| == |order| && i < n <= |order|
    requires forall p, q :: 0 <= p < q < |order| ==> order[p] != order[q]
    requires history[i] == []
    ensures SameCursor(before, Advance(order, before, history, n), order[i])
  {
    if i < n - 1 {
      AdvanceSkips(order, before, history, n - 1, i);
      assert order[i] != order[n - 1];
    } else {
      assert order[i] !in order[..i];
      AdvanceKeeps(order, before, history, i, order[i]);
    }
  }

  /**
   * The loop's fold over all the rooms meets the description of Advanced:
   * with distinct rooms, each room's entry is decided by its own answer
   * alone, and every other key keeps its entry.
   */
  lemma AdvanceAll(order: seq<string>, before: map<string, string>, history: seq<seq<Message>>)
    requires |history| == |order|
    requires forall p, q :: 0 <= p < q < |order| ==> order[p] != order[q]
    ensures Advanced(order, before, history, Advance(order, before, history, |order|))
  {
    var after := Advance(order, before, history, |order|);
    forall i | 0 <= i < |order| && history[i] != []
      ensures order[i] in after && after[order[i]] == history[i][|history[i]| - 1].id
    {
      AdvanceStores(order, before, history, |order|, i);
    }
    forall i | 0 <= i < |order| && history[i] == [] ensures SameCursor(before, after, order[i]) {
      AdvanceSkips(order, before, history, |order|, i);
    }
    forall k | k !in order ensures SameCursor(before, after, k) {
      assert order[..|order|] == order;
      AdvanceKeeps(order, before, history, |order|, k);
    }
  }

  /**
   * When the rooms are distinct, Advanced leaves no freedom: the new cursor
   * dictionary is determined by the old one and the history answers.
   */
  lemma AdvancedUnique(order: seq<string>, before: map<string, string>, history: seq<seq<Message>>,
                       a: map<string, string>, b: map<string, string>)
    requires |history| == |order|
    requires forall p, q :: 0 <= p < q < |order| ==> order[p] != order[q]
    requires Advanced(order, before, history, a) && Advanced(order, before, history, b)
    ensures a == b
  {
    forall k | k in order ensures SameCursor(a, b, k) {
      var i :| 0 <= i < |order| && order[i] == k;
      if history[i] == [] {
        assert SameCursor(before, a, order[i]) && SameCursor(before, b, order[i]);
      }
    }
    forall k | k !in order ensures SameCursor(a, b, k) {
      assert SameCursor(before, a, k) && SameCursor(before, b, k);
    }
    assert a.Keys == b.Keys by {
      forall k ensures k in a <==> k in b {
        assert SameCursor(a, b, k);
      }
    }
    forall k | k in a ensures a[k] == b[k] {
      assert SameCursor(a, b, k);
    }
  }
}
