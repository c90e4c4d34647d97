/** The store's tables: rows keyed by node and date, observations keyed by reference, and the scans
    over them.  Go iterates its maps in an arbitrary order; so do the loops here. */
module Tables {
  import opened Orders
  import opened Records

  type NodeDate = (string, int)

  /** Every row sits under the key its own fields spell. */
  ghost predicate KeyedBy<K(!new), V>(m: map<K, V>, key: V -> K) {
    forall k :: k in m ==> key(m[k]) == k
  }

  // ---- Listing a table ----

  /** The rows of a table in arbitrary order, each once. */
  method Collect<K(!new), V(==,!new)>(m: map<K, V>, ghost key: V -> K) returns (out: seq<V>)
    requires KeyedBy(m, key)
    ensures Enumerates(out, m.Values)
  {
    out := [];
    var todo := m.Keys;
    while todo != {}
      invariant todo <= m.Keys
      invariant forall i :: 0 <= i < |out| ==> key(out[i]) in m && key(out[i]) !in todo && m[key(out[i])] == out[i]
      invariant forall k :: k in m && k !in todo ==> m[k] in out
      invariant forall i, j :: 0 <= i < j < |out| ==> out[i] != out[j]
    {
      var k :| k in todo;
      todo := todo - {k};
      out := out + [m[k]];
    }
  }

  /** The sorted listing of a table. */
  ghost function Sorting<K(!new), V(!new)>(m: map<K, V>, order: V -> Key): seq<V> {
    Arrange(m.Values, order)
  }

  /** Rows with the same sort columns have the same table key. */
  ghost predicate OrderFits<K(!new), V(!new)>(m: map<K, V>, key: V -> K, order: V -> Key) {
    forall a, b :: a in m.Values && b in m.Values && order(a) == order(b) ==> key(a) == key(b)
  }

  method SortTable<K(!new), V(==,!new)>(m: map<K, V>, ghost key: V -> K, order: V -> Key) returns (out: seq<V>)
    requires KeyedBy(m, key) && OrderFits(m, key, order)
    ensures out == Sorting(m, order)
  {
    var listed := Collect(m, key);
    out := SortSlice(listed, order);
    ArrangeUnique(out, listed, m.Values, order);
  }

  // ---- Rows of a date ----

  function OnDate<V>(m: map<NodeDate, V>, date: int): map<NodeDate, V> {
    map k | k in m && k.1 == date :: m[k]
  }

  function OffDate<V>(m: map<NodeDate, V>, date: int): map<NodeDate, V> {
    map k | k in m && k.1 != date :: m[k]
  }

  /** A table filled by storing rows in turn. */
  function FromRows<K, V>(rows: seq<V>, key: V -> K): map<K, V> {
    if rows == [] then map[]
    else FromRows(rows[..|rows| - 1], key)[key(rows[|rows| - 1]) := rows[|rows| - 1]]
  }

  function Replaced<V>(m: map<NodeDate, V>, date: int, rows: seq<V>, key: V -> NodeDate): map<NodeDate, V> {
    OffDate(m, date) + FromRows(rows, key)
  }

  /** `Replace...ForDate`: delete the rows of the date, then store the new ones. */
  method ReplaceForDate<V>(m: map<NodeDate, V>, date: int, rows: seq<V>, key: V -> NodeDate) returns (out: map<NodeDate, V>)
    requires KeyedBy(m, key)
    ensures out == Replaced(m, date, rows, key)
  {
    out := m;
    var todo := m.Keys;
    while todo != {}
      invariant todo <= m.Keys
      invariant forall k :: k in out <==> k in m && (k in todo || k.1 != date)
      invariant forall k :: k in out ==> out[k] == m[k]
    {
      var k :| k in todo;
      todo := todo - {k};
      if key(m[k]).1 == date {
        out := out - {k};
      }
    }
    assert out == OffDate(m, date);
    ghost var kept := out;
    for i := 0 to |rows|
      invariant out == kept + FromRows(rows[..i], key)
    {
      assert rows[..i + 1][..i] == rows[..i];
      out := out[key(rows[i]) := rows[i]];
    }
    assert rows[..|rows|] == rows;
  }

  /** `List...ByDate`: the rows of the date, sorted. */
  method ListByDate<V(==,!new)>(m: map<NodeDate, V>, date: int, ghost key: V -> NodeDate, order: V -> Key) returns (out: seq<V>)
    requires KeyedBy(m, key) && OrderFits(OnDate(m, date), key, order)
    ensures out == Sorting(OnDate(m, date), order)
  {
    assert KeyedBy(OnDate(m, date), key);
    out := SortTable(OnDate(m, date), key, order);
  }

  ghost predicate DistinctKeys<K(!new), V>(rows: seq<V>, key: V -> K) {
    forall i, j :: 0 <= i < j < |rows| ==> key(rows[i]) != key(rows[j])
  }

  lemma {:induction false} FromRowsHolds<K(!new), V(!new)>(rows: seq<V>, key: V -> K)
    requires DistinctKeys(rows, key)
    ensures KeyedBy(FromRows(rows, key), key)
    ensures forall i :: 0 <= i < |rows| ==> key(rows[i]) in FromRows(rows, key) && FromRows(rows, key)[key(rows[i])] == rows[i]
    ensures forall k :: k in FromRows(rows, key) ==> FromRows(rows, key)[k] in rows
  {
    if rows != [] {
      FromRowsHolds(rows[..|rows| - 1], key);
    }
  }

  lemma FromRowsEnumerates<K(!new), V(!new)>(rows: seq<V>, key: V -> K)
    requires DistinctKeys(rows, key)
    ensures Enumerates(rows, FromRows(rows, key).Values)
  {
    FromRowsHolds(rows, key);
    var m := FromRows(rows, key);
    forall i | 0 <= i < |rows|
      ensures rows[i] in m.Values
    {
      assert key(rows[i]) in m;
    }
  }

  /** Storing the enumeration of a table rebuilds the table, whatever the order of the enumeration. */
  lemma FromRowsRebuilds<K(!new), V(!new)>(m: map<K, V>, rows: seq<V>, key: V -> K)
    requires KeyedBy(m, key) && Enumerates(rows, m.Values)
    ensures FromRows(rows, key) == m
  {
    forall i, j | 0 <= i < j < |rows|
      ensures key(rows[i]) != key(rows[j])
    {
      assert rows[i] in m.Values && rows[j] in m.Values;
    }
    FromRowsHolds(rows, key);
    var out := FromRows(rows, key);
    forall k | k in m
      ensures k in out && out[k] == m[k]
    {
      assert m[k] in m.Values;
    }
    forall k | k in out
      ensures k in m && m[k] == out[k]
    {
      assert out[k] in m.Values;
    }
  }

  /** Replacing a date stores exactly the new rows under it and changes no other date. */
  lemma ReplacedDates<V(!new)>(m: map<NodeDate, V>, date: int, rows: seq<V>, key: V -> NodeDate)
    requires KeyedBy(m, key) && DistinctKeys(rows, key)
    requires forall i :: 0 <= i < |rows| ==> key(rows[i]).1 == date
    ensures var out := Replaced(m, date, rows, key);
      && KeyedBy(out, key)
      && OnDate(out, date) == FromRows(rows, key)
      && forall other :: other != date ==> OnDate(out, other) == OnDate(m, other)
  {
    FromRowsHolds(rows, key);
    forall k | k in FromRows(rows, key)
      ensures k.1 == date
    {
      assert FromRows(rows, key)[k] in rows;
    }
  }

  /** What is listed after replacing a date is exactly what was stored. */
  lemma ReplaceThenList<V(!new)>(m: map<NodeDate, V>, date: int, rows: seq<V>, key: V -> NodeDate, order: V -> Key)
    requires KeyedBy(m, key) && DistinctKeys(rows, key)
    requires forall i :: 0 <= i < |rows| ==> key(rows[i]).1 == date
    requires Sorted(rows, order)
    requires forall a, b :: a in rows && b in rows && order(a) == order(b) ==> a == b
    ensures Sorting(OnDate(Replaced(m, date, rows, key), date), order) == rows
  {
    ReplacedDates(m, date, rows, key);
    FromRowsEnumerates(rows, key);
    ArrangeUnique(rows, rows, FromRows(rows, key).Values, order);
  }

  // ---- The latest observation of a node on a date ----

  ghost predicate Candidate<X>(m: map<string, Observation<X>>, nodeId: string, date: int, ref: string) {
    ref in m && m[ref].nodeId == nodeId && TextDate(m[ref].observedAt) == date
  }

  /** A candidate that no other candidate is later than; of several with the same time text, any. */
  ghost predicate IsLatest<X(!new)>(m: map<string, Observation<X>>, nodeId: string, date: int, found: Option<Observation<X>>) {
    match found
    case None => forall ref :: !Candidate(m, nodeId, date, ref)
    case Some(e) =>
      && (exists ref :: Candidate(m, nodeId, date, ref) && m[ref] == e)
      && (forall ref :: Candidate(m, nodeId, date, ref) ==> !StampLess(e.observedAt, m[ref].observedAt))
  }

  /** `GetLatest...ForNodeAndDate`: keep the first candidate and replace it by strictly later ones. */
  method LatestFor<X(!new)>(m: map<string, Observation<X>>, nodeId: string, date: int) returns (found: Option<Observation<X>>)
    ensures IsLatest(m, nodeId, date, found)
  {
    found := None;
    var todo := m.Keys;
    while todo != {}
      invariant todo <= m.Keys
      invariant found.None? ==> forall ref :: Candidate(m, nodeId, date, ref) ==> ref in todo
      invariant found.Some? ==> exists ref :: Candidate(m, nodeId, date, ref) && m[ref] == found.value
      invariant found.Some? ==> forall ref :: Candidate(m, nodeId, date, ref) && ref !in todo
                                  ==> !StampLess(found.value.observedAt, m[ref].observedAt)
    {
      var ref :| ref in todo;
      todo := todo - {ref};
      var e := m[ref];
      if e.nodeId == nodeId && TextDate(e.observedAt) == date {
        assert Candidate(m, nodeId, date, ref);
        if found.None? {
          StampLessTotal(e.observedAt, e.observedAt);
          found := Some(e);
        } else if StampLess(found.value.observedAt, e.observedAt) {
          LaterThanAll(m, nodeId, date, todo + {ref}, found.value, e);
          found := Some(e);
        }
      }
    }
  }

  /** The one that is found shows the latest time, and of those that show it, has the last suffix as a text. */
  lemma LatestShowsLast<X(!new)>(m: map<string, Observation<X>>, nodeId: string, date: int, e: Observation<X>, ref: string)
    requires IsLatest(m, nodeId, date, Some(e))
    requires ref in m && m[ref].nodeId == nodeId && m[ref].observedAt.local / 86_400 == date
    requires e.observedAt.zone.Zulu? || e.observedAt.zone.minutes < 6000
    requires m[ref].observedAt.zone.Zulu? || m[ref].observedAt.zone.minutes < 6000
    ensures e.nodeId == nodeId && e.observedAt.local / 86_400 == date
    ensures m[ref].observedAt.local <= e.observedAt.local
    ensures m[ref].observedAt.local == e.observedAt.local ==>
      !TextBefore(SuffixText(e.observedAt.zone), SuffixText(m[ref].observedAt.zone))
  {
    assert Candidate(m, nodeId, date, ref);
    StampsCompareAsTexts(e.observedAt, m[ref].observedAt);
    TextLessIff(SuffixText(e.observedAt.zone), SuffixText(m[ref].observedAt.zone));
  }

  lemma StampLessTotal(a: Stamp, b: Stamp)
    ensures !(StampLess(a, b) && StampLess(b, a))
    ensures StampLess(a, b) || StampLess(b, a) <==> a != b
  {
    KeyLessTotal(StampKey(a), StampKey(b));
    assert StampKey(a) == StampKey(b) ==> StampKey(a)[0] == StampKey(b)[0] && StampKey(a)[1] == StampKey(b)[1] && StampKey(a)[2] == StampKey(b)[2];
  }

  lemma LaterThanAll<X(!new)>(m: map<string, Observation<X>>, nodeId: string, date: int, todo: set<string>, old_: Observation<X>, e: Observation<X>)
    requires StampLess(old_.observedAt, e.observedAt)
    requires forall ref :: Candidate(m, nodeId, date, ref) && ref !in todo ==> !StampLess(old_.observedAt, m[ref].observedAt)
    ensures forall ref :: Candidate(m, nodeId, date, ref) && ref !in todo ==> !StampLess(e.observedAt, m[ref].observedAt)
    ensures !StampLess(e.observedAt, e.observedAt)
  {
    StampLessTotal(e.observedAt, e.observedAt);
    forall ref | Candidate(m, nodeId, date, ref) && ref !in todo
      ensures !StampLess(e.observedAt, m[ref].observedAt)
    {
      if StampLess(e.observedAt, m[ref].observedAt) {
        KeyLessTransitive(StampKey(old_.observedAt), StampKey(e.observedAt), StampKey(m[ref].observedAt));
        assert false;
      }
    }
  }

  /** No two observations of a node carry the same time text. */
  ghost predicate Determined<X>(m: map<string, Observation<X>>) {
    forall r1, r2 :: r1 in m && r2 in m && r1 != r2 && m[r1].nodeId == m[r2].nodeId ==> m[r1].observedAt != m[r2].observedAt
  }

  /** Then every scan finds the same observation, in whatever order it runs. */
  lemma LatestUnique<X(!new)>(m: map<string, Observation<X>>, nodeId: string, date: int, a: Option<Observation<X>>, b: Option<Observation<X>>)
    requires Determined(m) && IsLatest(m, nodeId, date, a) && IsLatest(m, nodeId, date, b)
    ensures a == b
  {
    if a.Some? && b.Some? {
      var ra :| Candidate(m, nodeId, date, ra) && m[ra] == a.value;
      var rb :| Candidate(m, nodeId, date, rb) && m[rb] == b.value;
      StampLessTotal(a.value.observedAt, b.value.observedAt);
    }
  }

  /** An observation about another node or another text date does not change what is latest. */
  lemma LatestUnaffected<X(!new)>(m: map<string, Observation<X>>, e: Observation<X>, nodeId: string, date: int, found: Option<Observation<X>>)
    requires e.ref !in m && (e.nodeId != nodeId || TextDate(e.observedAt) != date)
    requires IsLatest(m, nodeId, date, found)
    ensures IsLatest(m[e.ref := e], nodeId, date, found)
  {
    var after := m[e.ref := e];
    assert forall ref :: Candidate(after, nodeId, date, ref) <==> Candidate(m, nodeId, date, ref);
    if found.Some? {
      var ref :| Candidate(m, nodeId, date, ref) && m[ref] == found.value;
      assert Candidate(after, nodeId, date, ref) && after[ref] == found.value;
    }
  }
}
