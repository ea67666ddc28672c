/**
 * Room normalisation: the configured room list, whose entries are either a
 * bare source room (`[0 => 'a']`) or a source room paired with a destination
 * channel (`['b' => null, 'c' => 'd']`), becomes an ordered dictionary from
 * source room to destination channel, as PHP's associative array keeps it.
 */
module Rooms {
  import opened Php

  /** A key of the configuration array: PHP keys are integers or strings. */
  datatype Key = IntKey(n: int) | StringKey(s: string)

  /** One configuration entry `key => value`; a null value is None. */
  datatype RoomEntry = RoomEntry(key: Key, value: Option<string>)

  /**
   * An associative array from source room to destination channel: the keys
   * in insertion order and the value stored under each key.
   */
  datatype RoomMap = RoomMap(order: seq<string>, channel: map<string, Option<string>>)
  {
    ghost predicate Valid()
    {
      && (forall p, q :: 0 <= p < q < |order| ==> order[p] != order[q])
      && (forall k :: k in channel <==> k in order)
    }
  }

  /** `$rooms[$k] = $v`: overwrite in place, or append a new key at the end. */
  function Put(m: RoomMap, k: string, v: Option<string>): (r: RoomMap)
    requires m.Valid()
    ensures r.Valid()
    ensures r.channel == m.channel[k := v]
    ensures r.order == if k in m.channel then m.order else m.order + [k]
  {
    if k in m.channel then RoomMap(m.order, m.channel[k := v])
    else RoomMap(m.order + [k], m.channel[k := v])
  }

  /** `is_numeric($srcRoom)`: integer keys always, string keys when they read as a number. */
  predicate IsBare(k: Key)
  {
    k.IntKey? || IsNumericString(k.s)
  }

  /**
   * The source room an entry names: the value of a bare entry (a null value
   * used as an array key becomes ""), otherwise the key itself.
   */
  function SourceRoom(e: RoomEntry): string
  {
    if IsBare(e.key) then (if e.value.Some? then e.value.value else "")
    else e.key.s
  }

  /** `$dstRoom ?: $defaultDstChannel`, where a bare entry's `$dstRoom` is the default. */
  function Destination(e: RoomEntry, default: Option<string>): Option<string>
  {
    var dstRoom := if IsBare(e.key) then default else e.value;
    Elvis(dstRoom, default)
  }

  /** The room dictionary after the constructor's loop has stored every entry of `es` in turn. */
  function Normalized(es: seq<RoomEntry>, default: Option<string>): (r: RoomMap)
    ensures r.Valid()
    decreases |es|
  {
    if es == [] then RoomMap([], map[])
    else
      var e := es[|es| - 1];
      Put(Normalized(es[..|es| - 1], default), SourceRoom(e), Destination(e, default))
  }

  /** Normalising one more entry stores that entry on top of the entries before it. */
  lemma NormalizedStep(es: seq<RoomEntry>, default: Option<string>, i: nat)
    requires i < |es|
    ensures Normalized(es[..i], default).Valid()
    ensures Normalized(es[..i + 1], default) == Put(Normalized(es[..i], default), SourceRoom(es[i]), Destination(es[i], default))
  {
    assert es[..i + 1][..i] == es[..i];
  }

  /** The source room of every entry, in configuration order. */
  function Sources(es: seq<RoomEntry>): (r: seq<string>)
    ensures |r| == |es|
    ensures forall i :: 0 <= i < |es| ==> r[i] == SourceRoom(es[i])
    decreases |es|
  {
    if es == [] then [] else Sources(es[..|es| - 1]) + [SourceRoom(es[|es| - 1])]
  }

  /** Every room of the dictionary came from some configuration entry, and every entry's room is there. */
  lemma {:induction false} NormalizedRooms(es: seq<RoomEntry>, default: Option<string>, k: string)
    ensures k in Normalized(es, default).channel <==> k in Sources(es)
  {
    if es != [] {
      NormalizedRooms(es[..|es| - 1], default, k);
    }
  }

  /**
   * The last entry naming a room decides its channel: the default when the
   * entry is bare or its destination is falsy, the explicit destination otherwise.
   */
  lemma {:induction false} NormalizedLastWins(es: seq<RoomEntry>, default: Option<string>, i: nat)
    requires i < |es|
    requires forall j :: i < j < |es| ==> SourceRoom(es[j]) != SourceRoom(es[i])
    ensures SourceRoom(es[i]) in Normalized(es, default).channel
    ensures Normalized(es, default).channel[SourceRoom(es[i])] ==
      if IsBare(es[i].key) || !IsTruthy(es[i].value) then default else es[i].value
  {
    if i < |es| - 1 {
      var init := es[..|es| - 1];
      forall j | i < j < |init| ensures SourceRoom(init[j]) != SourceRoom(init[i]) {
        assert init[j] == es[j];
      }
      NormalizedLastWins(init, default, i);
      assert init[i] == es[i];
    }
  }

  /**
   * Keys keep the position of their first appearance: a room earlier in the
   * order was named by an entry that precedes every entry naming a later room.
   */
  lemma {:induction false} NormalizedOrder(es: seq<RoomEntry>, default: Option<string>, p: nat, q: nat)
    requires p < q < |Normalized(es, default).order|
    ensures exists i :: 0 <= i < |es| && Sources(es)[i] == Normalized(es, default).order[p] &&
                        (forall j :: 0 <= j < |es| && Sources(es)[j] == Normalized(es, default).order[q] ==> i < j)
  {
    var init := es[..|es| - 1];
    var src, src' := Sources(es), Sources(init);
    var k := src[|es| - 1];
    var r, r' := Normalized(es, default), Normalized(init, default);
    assert r == Put(r', k, Destination(es[|es| - 1], default));
    var i: nat;
    if q < |r'.order| {
      NormalizedOrder(init, default, p, q);
      i :| 0 <= i < |init| && src'[i] == r'.order[p] &&
           (forall j :: 0 <= j < |init| && src'[j] == r'.order[q] ==> i < j);
      forall j | 0 <= j < |es| && src[j] == r.order[q] ensures i < j {
        if j < |init| {
          assert src'[j] == src[j];
        }
      }
    } else {
      // the last entry appended a room that no earlier entry names
      assert k !in r'.channel && r.order[q] == k;
      NormalizedRooms(init, default, r.order[p]);
      i :| 0 <= i < |init| && src'[i] == r.order[p];
      forall j | 0 <= j < |es| && src[j] == k ensures i < j {
        if j < |init| {
          assert src'[j] == k;
          NormalizedRooms(init, default, k);
        }
      }
    }
    assert src[i] == r.order[p];
  }

  /**
   * With a configured default channel no room resolves to null, with a
   * non-empty default every room resolves to a non-empty channel, and with a
   * truthy default every room resolves to a truthy channel.
   */
  lemma {:induction false} NormalizedDefaultCovers(es: seq<RoomEntry>, default: Option<string>)
    ensures forall k :: k in Normalized(es, default).channel ==>
      (default.Some? ==> Normalized(es, default).channel[k].Some?) &&
      (default.Some? && default.value != "" ==>
         Normalized(es, default).channel[k].Some? && Normalized(es, default).channel[k].value != "") &&
      (IsTruthy(default) ==> IsTruthy(Normalized(es, default).channel[k]))
  {
    if es != [] {
      NormalizedDefaultCovers(es[..|es| - 1], default);
    }
  }
}
