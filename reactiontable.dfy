/**
 * The `reactions` table as a sequence of rows
 * (message_id, reactor_id, reactee_id, value), where `value` is the emoji
 * text. A row is identified by (message_id, reactor_id, value): the same
 * reactor may hold an upvote and a downvote on one message as two rows.
 */
module ReactionTable {
  import opened Wrappers

  datatype Row = Row(messageId: nat, reactorId: nat, reacteeId: nat, value: string)

  datatype Key = Key(messageId: nat, reactorId: nat, value: string)

  function KeyOf(r: Row): Key {
    Key(r.messageId, r.reactorId, r.value)
  }

  /** At most one row per key. */
  predicate UniqueKeys(rows: seq<Row>) {
    forall i, j :: 0 <= i < j < |rows| ==> KeyOf(rows[i]) != KeyOf(rows[j])
  }

  /** The reactee of the first row with key `k`, as `SELECT ... WHERE` finds it. */
  function Lookup(rows: seq<Row>, k: Key): (r: Option<nat>)
    ensures r.Some? <==> exists i :: 0 <= i < |rows| && KeyOf(rows[i]) == k
    decreases |rows|
  {
    if |rows| == 0 then None
    else if KeyOf(rows[0]) == k then Some(rows[0].reacteeId)
    else
      var r := Lookup(rows[1..], k);
      assert forall i :: 1 <= i < |rows| ==> rows[i] == rows[1..][i - 1];
      r
  }

  predicate HasKey(rows: seq<Row>, k: Key) {
    Lookup(rows, k).Some?
  }

  /** `UPDATE reactions SET reactee_id = ? WHERE key = k` */
  function SetReactee(rows: seq<Row>, k: Key, reactee: nat): (r: seq<Row>)
    ensures |r| == |rows|
    ensures forall i :: 0 <= i < |rows| ==> KeyOf(r[i]) == KeyOf(rows[i])
    ensures forall i :: 0 <= i < |rows| && KeyOf(rows[i]) == k ==> r[i].reacteeId == reactee
    ensures forall k' :: Lookup(r, k') == if k' == k && HasKey(rows, k) then Some(reactee) else Lookup(rows, k')
    decreases |rows|
  {
    if |rows| == 0 then []
    else
      var head := if KeyOf(rows[0]) == k then rows[0].(reacteeId := reactee) else rows[0];
      var tail := SetReactee(rows[1..], k, reactee);
      assert ([head] + tail)[1..] == tail;
      [head] + tail
  }

  lemma {:induction false} LookupAppend(rows: seq<Row>, x: Row, k: Key)
    ensures Lookup(rows + [x], k) ==
      if HasKey(rows, k) then Lookup(rows, k) else if KeyOf(x) == k then Some(x.reacteeId) else None
    decreases |rows|
  {
    if |rows| > 0 {
      assert (rows + [x])[1..] == rows[1..] + [x];
      LookupAppend(rows[1..], x, k);
    }
  }

  /**
   * The reconciliation upsert of the history scrape: when a row with the
   * same key exists its reactee is overwritten, otherwise the row is
   * appended. The table keeps at most one row per key, and afterwards the
   * key maps to the new reactee while every other key is untouched.
   */
  function Upsert(rows: seq<Row>, row: Row): (r: seq<Row>)
    ensures UniqueKeys(rows) ==> UniqueKeys(r)
    ensures Lookup(r, KeyOf(row)) == Some(row.reacteeId)
    ensures forall k :: k != KeyOf(row) ==> Lookup(r, k) == Lookup(rows, k)
    ensures HasKey(rows, KeyOf(row)) ==> |r| == |rows|
    ensures !HasKey(rows, KeyOf(row)) ==> r == rows + [row]
  {
    if HasKey(rows, KeyOf(row)) then SetReactee(rows, KeyOf(row), row.reacteeId)
    else
      forall k ensures Lookup(rows + [row], k) ==
        if HasKey(rows, k) then Lookup(rows, k) else if KeyOf(row) == k then Some(row.reacteeId) else None
      {
        LookupAppend(rows, row, k);
      }
      rows + [row]
  }

  /** `DELETE FROM reactions WHERE key = k`: every matching row goes, the rest keep their order. */
  function RemoveKey(rows: seq<Row>, k: Key): (r: seq<Row>)
    ensures !HasKey(r, k)
    ensures forall k' :: k' != k ==> Lookup(r, k') == Lookup(rows, k')
    ensures !HasKey(rows, k) ==> r == rows
    ensures multiset(r) <= multiset(rows)
    decreases |rows|
  {
    if |rows| == 0 then []
    else
      var tail := RemoveKey(rows[1..], k);
      assert rows == [rows[0]] + rows[1..];
      if KeyOf(rows[0]) == k then tail
      else
        assert ([rows[0]] + tail)[1..] == tail;
        [rows[0]] + tail
  }

  /** Removal keeps the table free of duplicate keys. */
  lemma {:induction false} RemoveKeyUnique(rows: seq<Row>, k: Key)
    requires UniqueKeys(rows)
    ensures UniqueKeys(RemoveKey(rows, k))
    decreases |rows|
  {
    if |rows| > 0 {
      var tail := RemoveKey(rows[1..], k);
      assert UniqueKeys(rows[1..]) by {
        forall i, j | 0 <= i < j < |rows[1..]| ensures KeyOf(rows[1..][i]) != KeyOf(rows[1..][j]) {
          assert rows[1..][i] == rows[i + 1] && rows[1..][j] == rows[j + 1];
        }
      }
      RemoveKeyUnique(rows[1..], k);
      if KeyOf(rows[0]) != k {
        var r := [rows[0]] + tail;
        assert !HasKey(rows[1..], KeyOf(rows[0]));
        assert !HasKey(tail, KeyOf(rows[0]));
        forall i, j | 0 <= i < j < |r| ensures KeyOf(r[i]) != KeyOf(r[j]) {
          if i == 0 {
            assert r[j] == tail[j - 1];
          } else {
            assert r[i] == tail[i - 1] && r[j] == tail[j - 1];
          }
        }
      }
    }
  }

  /** Scanning the same reaction twice leaves the table as one scan did. */
  lemma UpsertIdempotent(rows: seq<Row>, row: Row)
    ensures Upsert(Upsert(rows, row), row) == Upsert(rows, row)
  {
    var once := Upsert(rows, row);
    assert HasKey(once, KeyOf(row));
    SetReacteeSame(once, KeyOf(row), row.reacteeId);
  }

  /** Writing the reactee a key already has changes nothing. */
  lemma {:induction false} SetReacteeSame(rows: seq<Row>, k: Key, reactee: nat)
    requires forall i :: 0 <= i < |rows| && KeyOf(rows[i]) == k ==> rows[i].reacteeId == reactee
    ensures SetReactee(rows, k, reactee) == rows
    decreases |rows|
  {
    if |rows| > 0 {
      SetReacteeSame(rows[1..], k, reactee);
      assert rows == [rows[0]] + rows[1..];
    }
  }

  /**
   * A row accounted for exactly once: recording a reaction whose key was
   * absent and then removing that key gives the table back.
   */
  lemma RemoveUndoesInsert(rows: seq<Row>, row: Row)
    requires !HasKey(rows, KeyOf(row))
    ensures RemoveKey(Upsert(rows, row), KeyOf(row)) == rows
  {
    RemoveAppended(rows, row);
  }

  lemma {:induction false} RemoveAppended(rows: seq<Row>, row: Row)
    requires !HasKey(rows, KeyOf(row))
    ensures RemoveKey(rows + [row], KeyOf(row)) == rows
    decreases |rows|
  {
    if |rows| == 0 {
      assert [] + [row] == [row];
    } else {
      assert (rows + [row])[1..] == rows[1..] + [row];
      assert !HasKey(rows[1..], KeyOf(row));
      RemoveAppended(rows[1..], row);
      assert rows == [rows[0]] + rows[1..];
    }
  }

  // ---------------------------------------------------------------------
  // Many upserts in a row: the scrape's pass over a history
  // ---------------------------------------------------------------------

  /** The rows upserted one after the other, in order. */
  function UpsertAll(rows: seq<Row>, votes: seq<Row>): (r: seq<Row>)
    ensures UniqueKeys(rows) ==> UniqueKeys(r)
    decreases |votes|
  {
    if |votes| == 0 then rows else Upsert(UpsertAll(rows, votes[..|votes| - 1]), votes[|votes| - 1])
  }

  /** The reactee the last vote with key `k` names, if any vote has that key. */
  function LastVote(votes: seq<Row>, k: Key): (r: Option<nat>)
    ensures r.Some? <==> exists i :: 0 <= i < |votes| && KeyOf(votes[i]) == k
    decreases |votes|
  {
    if |votes| == 0 then None
    else if KeyOf(votes[|votes| - 1]) == k then Some(votes[|votes| - 1].reacteeId)
    else
      var init := votes[..|votes| - 1];
      var r := LastVote(init, k);
      assert forall i :: 0 <= i < |init| ==> init[i] == votes[i];
      r
  }

  /**
   * After the pass, a key some vote carries maps to the reactee of the
   * last such vote; every other key maps to what it mapped to before.
   */
  lemma {:induction false} LookupUpsertAll(rows: seq<Row>, votes: seq<Row>, k: Key)
    ensures Lookup(UpsertAll(rows, votes), k) == if LastVote(votes, k).Some? then LastVote(votes, k) else Lookup(rows, k)
    decreases |votes|
  {
    if |votes| > 0 {
      LookupUpsertAll(rows, votes[..|votes| - 1], k);
    }
  }

  /** A pass whose every key is already in the table adds no row and keeps every row's key. */
  lemma {:induction false} UpsertAllKeepsKeys(rows: seq<Row>, votes: seq<Row>)
    requires forall i :: 0 <= i < |votes| ==> HasKey(rows, KeyOf(votes[i]))
    ensures |UpsertAll(rows, votes)| == |rows|
    ensures forall i :: 0 <= i < |rows| ==> KeyOf(UpsertAll(rows, votes)[i]) == KeyOf(rows[i])
    decreases |votes|
  {
    if |votes| > 0 {
      var init := votes[..|votes| - 1];
      var last := votes[|votes| - 1];
      assert forall i :: 0 <= i < |init| ==> init[i] == votes[i];
      UpsertAllKeepsKeys(rows, init);
      var before := UpsertAll(rows, init);
      LookupUpsertAll(rows, init, KeyOf(last));
      assert HasKey(before, KeyOf(last));
    }
  }

  /** In a table without duplicate keys, each row is what its key looks up. */
  lemma {:induction false} LookupOwnRow(rows: seq<Row>, i: nat)
    requires UniqueKeys(rows) && i < |rows|
    ensures Lookup(rows, KeyOf(rows[i])) == Some(rows[i].reacteeId)
    decreases i
  {
    if i > 0 {
      assert KeyOf(rows[0]) != KeyOf(rows[i]);
      assert rows[1..][i - 1] == rows[i];
      assert UniqueKeys(rows[1..]) by {
        forall a, b | 0 <= a < b < |rows[1..]| ensures KeyOf(rows[1..][a]) != KeyOf(rows[1..][b]) {
          assert rows[1..][a] == rows[a + 1] && rows[1..][b] == rows[b + 1];
        }
      }
      LookupOwnRow(rows[1..], i - 1);
    }
  }

  /** Two tables without duplicate keys, with the same keys in the same order and the same lookups, are equal. */
  lemma TableExtensionality(a: seq<Row>, b: seq<Row>)
    requires UniqueKeys(a) && UniqueKeys(b) && |a| == |b|
    requires forall i :: 0 <= i < |a| ==> KeyOf(a[i]) == KeyOf(b[i])
    requires forall k :: Lookup(a, k) == Lookup(b, k)
    ensures a == b
  {
    forall i | 0 <= i < |a| ensures a[i] == b[i] {
      LookupOwnRow(a, i);
      LookupOwnRow(b, i);
    }
  }

  /**
   * Replaying the same votes over a table without duplicate keys leaves it
   * exactly as one pass left it: the scrape can be run again safely.
   */
  lemma UpsertAllIdempotent(rows: seq<Row>, votes: seq<Row>)
    requires UniqueKeys(rows)
    ensures UpsertAll(UpsertAll(rows, votes), votes) == UpsertAll(rows, votes)
  {
    var once := UpsertAll(rows, votes);
    var twice := UpsertAll(once, votes);
    forall k ensures Lookup(twice, k) == Lookup(once, k) {
      LookupUpsertAll(rows, votes, k);
      LookupUpsertAll(once, votes, k);
    }
    forall i | 0 <= i < |votes| ensures HasKey(once, KeyOf(votes[i])) {
      LookupUpsertAll(rows, votes, KeyOf(votes[i]));
    }
    UpsertAllKeepsKeys(once, votes);
    TableExtensionality(twice, once);
  }

  /** One more vote at the end of a pass is one more upsert. */
  lemma UpsertAllSnoc(rows: seq<Row>, votes: seq<Row>, v: Row)
    ensures UpsertAll(rows, votes + [v]) == Upsert(UpsertAll(rows, votes), v)
  {
    assert (votes + [v])[..|votes|] == votes;
  }

  /** A pass over two lists of votes is a pass over the first, then the second. */
  lemma {:induction false} UpsertAllAppend(rows: seq<Row>, a: seq<Row>, b: seq<Row>)
    ensures UpsertAll(rows, a + b) == UpsertAll(UpsertAll(rows, a), b)
    decreases |b|
  {
    if |b| == 0 {
      AppendEmpty(a, b);
    } else {
      var init, last := b[..|b| - 1], b[|b| - 1];
      UpsertAllAppend(rows, a, init);
      AppendSnoc(a, b);
      UpsertAllSnoc(rows, a + init, last);
      UpsertAllSnoc(UpsertAll(rows, a), init, last);
      assert init + [last] == b;
    }
  }

  lemma AppendEmpty(a: seq<Row>, b: seq<Row>)
    requires |b| == 0
    ensures a + b == a
  {
  }

  lemma AppendSnoc(a: seq<Row>, b: seq<Row>)
    requires |b| > 0
    ensures a + b == (a + b[..|b| - 1]) + [b[|b| - 1]]
  {
  }
}
