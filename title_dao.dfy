/**
 * The `saved_titles` table as an in-memory store keyed by primary key, with the semantics the
 * DAO's SQL fixes: replace on conflict, delete by key, delete all, existence, count, and a
 * listing ordered by `title` ascending.
 */
module TitleDao {
  import opened Wrappers
  import opened TitleEntities

  /**
   * The order of SQLite's default BINARY collation on text: byte order of the UTF-8 encoding,
   * which is the order of code points, compared lexicographically.
   */
  predicate TextLe(a: string, b: string)
  {
    |a| == 0 || (|b| > 0 && (a[0] < b[0] || (a[0] == b[0] && TextLe(a[1..], b[1..]))))
  }

  lemma {:induction false} TextLeTotal(a: string, b: string)
    ensures TextLe(a, b) || TextLe(b, a)
    decreases |a|
  {
    if |a| > 0 && |b| > 0 && a[0] == b[0] {
      TextLeTotal(a[1..], b[1..]);
    }
  }

  lemma {:induction false} TextLeTransitive(a: string, b: string, c: string)
    requires TextLe(a, b) && TextLe(b, c)
    ensures TextLe(a, c)
    decreases |a|
  {
    if |a| > 0 && a[0] == b[0] && b[0] == c[0] {
      TextLeTransitive(a[1..], b[1..], c[1..]);
    }
  }

  /** `ORDER BY title ASC`: SQLite sorts NULL before every text value. */
  predicate TitleLe(a: Option<string>, b: Option<string>)
  {
    a.None? || (b.Some? && TextLe(a.value, b.value))
  }

  lemma TitleLeTotal(a: Option<string>, b: Option<string>)
    ensures TitleLe(a, b) || TitleLe(b, a)
  {
    if a.Some? && b.Some? {
      TextLeTotal(a.value, b.value);
    }
  }

  lemma TitleLeTransitive(a: Option<string>, b: Option<string>, c: Option<string>)
    requires TitleLe(a, b) && TitleLe(b, c)
    ensures TitleLe(a, c)
  {
    if a.Some? {
      TextLeTransitive(a.value, b.value, c.value);
    }
  }

  predicate SortedByTitle(rows: seq<TitleEntity>)
  {
    forall i, j :: 0 <= i < j < |rows| ==> TitleLe(rows[i].title, rows[j].title)
  }

  /** The primary keys of a listing, in listing order. */
  function Ids(rows: seq<TitleEntity>): (ids: seq<int>)
    ensures |ids| == |rows| && forall i :: 0 <= i < |rows| ==> ids[i] == rows[i].id
  {
    seq(|rows|, i requires 0 <= i < |rows| => rows[i].id)
  }

  /** The table after a batch insert with REPLACE: the entities are written one after another. */
  function InsertAll(table: map<int, TitleEntity>, entities: seq<TitleEntity>): map<int, TitleEntity>
  {
    if entities == [] then table
    else
      var last := entities[|entities| - 1];
      InsertAll(table, entities[..|entities| - 1])[last.id := last]
  }

  /** In a batch, the last entity with a given id is the one stored under that id. */
  lemma {:induction false} InsertAllLastWins(table: map<int, TitleEntity>, entities: seq<TitleEntity>, i: nat)
    requires i < |entities|
    requires forall j :: i < j < |entities| ==> entities[j].id != entities[i].id
    ensures entities[i].id in InsertAll(table, entities)
    ensures InsertAll(table, entities)[entities[i].id] == entities[i]
    decreases |entities|
  {
    if i < |entities| - 1 {
      InsertAllLastWins(table, entities[..|entities| - 1], i);
    }
  }

  /** An id that no entity of the batch carries keeps its row, or its absence. */
  lemma {:induction false} InsertAllUntouched(table: map<int, TitleEntity>, entities: seq<TitleEntity>, id: int)
    requires forall j :: 0 <= j < |entities| ==> entities[j].id != id
    ensures id in InsertAll(table, entities) <==> id in table
    ensures id in table ==> InsertAll(table, entities)[id] == table[id]
    decreases |entities|
  {
    if entities != [] {
      InsertAllUntouched(table, entities[..|entities| - 1], id);
    }
  }

  /** Every stored row sits under its own primary key. */
  ghost predicate KeyedById(table: map<int, TitleEntity>)
  {
    forall id :: id in table ==> table[id].id == id
  }

  lemma {:induction false} InsertAllKeyedById(table: map<int, TitleEntity>, entities: seq<TitleEntity>)
    requires KeyedById(table)
    ensures KeyedById(InsertAll(table, entities))
    decreases |entities|
  {
    if entities != [] {
      InsertAllKeyedById(table, entities[..|entities| - 1]);
    }
  }

  /** Inserts `e` into a listing sorted by title, after every row whose title does not exceed its own. */
  method InsertSorted(listing: seq<TitleEntity>, e: TitleEntity) returns (r: seq<TitleEntity>)
    requires SortedByTitle(listing)
    ensures SortedByTitle(r)
    ensures multiset(r) == multiset(listing) + multiset{e}
    ensures multiset(Ids(r)) == multiset(Ids(listing)) + multiset{e.id}
  {
    var j := 0;
    while j < |listing| && TitleLe(listing[j].title, e.title)
      invariant 0 <= j <= |listing|
      invariant forall k :: 0 <= k < j ==> TitleLe(listing[k].title, e.title)
    {
      j := j + 1;
    }
    forall k | j <= k < |listing|
      ensures TitleLe(e.title, listing[k].title)
    {
      TitleLeTotal(e.title, listing[j].title);
      if k > j {
        TitleLeTransitive(e.title, listing[j].title, listing[k].title);
      }
    }
    r := listing[..j] + [e] + listing[j..];
    forall a, b | 0 <= a < b < |r|
      ensures TitleLe(r[a].title, r[b].title)
    {
      if b == j {
        assert r[a] == listing[a];
      } else if a == j {
        assert r[b] == listing[b - 1];
      } else if a < j < b {
        assert r[a] == listing[a] && r[b] == listing[b - 1];
        TitleLeTransitive(listing[a].title, e.title, listing[b - 1].title);
      }
    }
    assert listing == listing[..j] + listing[j..];
    assert Ids(r) == Ids(listing[..j]) + [e.id] + Ids(listing[j..]);
    assert Ids(listing) == Ids(listing[..j]) + Ids(listing[j..]);
  }

  /** A listing whose ids are, as a multiset, a key set holds each key exactly once. */
  lemma {:induction false} IdsOfKeySet(listing: seq<TitleEntity>, keys: set<int>)
    requires multiset(Ids(listing)) == multiset(keys)
    ensures forall id :: id in keys <==> exists i :: 0 <= i < |listing| && listing[i].id == id
    ensures forall i, j :: 0 <= i < j < |listing| ==> listing[i].id != listing[j].id
  {
    var ids := Ids(listing);
    forall id
      ensures id in keys <==> exists i :: 0 <= i < |listing| && listing[i].id == id
    {
      assert id in keys <==> id in multiset(ids);
      if id in ids {
        var i :| 0 <= i < |ids| && ids[i] == id;
        assert listing[i].id == id;
      }
    }
    forall i, j | 0 <= i < j < |listing|
      ensures listing[i].id != listing[j].id
    {
      TwoOccurrences(ids, i, j);
      assert multiset(keys)[ids[i]] <= 1;
    }
  }

  /** An element found at two positions occurs at least twice in the multiset. */
  lemma TwoOccurrences(ids: seq<int>, i: nat, j: nat)
    requires i < j < |ids|
    ensures ids[i] == ids[j] ==> multiset(ids)[ids[i]] >= 2
  {
    assert ids == ids[..i] + [ids[i]] + ids[i + 1..j] + [ids[j]] + ids[j + 1..];
  }

  /** Some key of a non-empty key set; which one does not matter to the listing's contract. */
  method PickKey(keys: set<int>) returns (key: int)
    requires keys != {}
    ensures key in keys
  {
    EmptyOrHasElement(keys);
    key :| key in keys;
  }

  lemma EmptyOrHasElement(keys: set<int>)
    ensures keys == {} || exists k :: k in keys
  {
    if !(exists k :: k in keys) {
      assert keys == {};
    }
  }

  class TitleTable {
    /** The rows of `saved_titles`, by primary key. */
    var rows: map<int, TitleEntity>

    ghost predicate Valid()
      reads this
    {
      KeyedById(rows)
    }

    constructor ()
      ensures Valid() && rows == map[]
    {
      rows := map[];
    }

    /** `SELECT * FROM saved_titles ORDER BY title ASC`: every row exactly once, sorted by title. */
    method GetAllTitles() returns (listing: seq<TitleEntity>)
      requires Valid()
      ensures SortedByTitle(listing)
      ensures multiset(Ids(listing)) == multiset(rows.Keys)
      ensures forall id :: id in rows <==> exists i :: 0 <= i < |listing| && listing[i].id == id
      ensures forall i, j :: 0 <= i < j < |listing| ==> listing[i].id != listing[j].id
      ensures forall i :: 0 <= i < |listing| ==> listing[i].id in rows && rows[listing[i].id] == listing[i]
      ensures |listing| == GetSavedTitlesCount()
    {
      listing := [];
      var pending := rows.Keys;
      while pending != {}
        invariant pending <= rows.Keys
        invariant SortedByTitle(listing)
        invariant multiset(Ids(listing)) == multiset(rows.Keys - pending)
        invariant forall i :: 0 <= i < |listing| ==> listing[i].id in rows && rows[listing[i].id] == listing[i]
        decreases |pending|
      {
        var key := PickKey(pending);
        var e := rows[key];
        var next := InsertSorted(listing, e);
        forall x: TitleEntity | x in multiset(next)
          ensures x.id in rows && rows[x.id] == x
        {
          if x != e {
            assert x in multiset(listing);
            var i :| 0 <= i < |listing| && listing[i] == x;
          }
        }
        forall i | 0 <= i < |next|
          ensures next[i].id in rows && rows[next[i].id] == next[i]
        {
          assert next[i] in multiset(next);
        }
        assert rows.Keys - (pending - {key}) == (rows.Keys - pending) + {key};
        listing := next;
        pending := pending - {key};
      }
      assert rows.Keys - pending == rows.Keys;
      assert |multiset(Ids(listing))| == |Ids(listing)|;
      IdsOfKeySet(listing, rows.Keys);
    }

    /** `SELECT * FROM saved_titles WHERE id = :titleId`. */
    function GetTitleById(titleId: int): (r: Option<TitleEntity>)
      reads this
      requires Valid()
      ensures r.Some? <==> titleId in rows
      ensures r.Some? ==> r.value == rows[titleId] && r.value.id == titleId
    {
      if titleId in rows then Some(rows[titleId]) else None
    }

    /** `INSERT OR REPLACE`: the row under `title.id` becomes `title`; every other row stays. */
    method InsertTitle(title: TitleEntity)
      requires Valid()
      modifies this
      ensures Valid()
      ensures rows == old(rows)[title.id := title]
      ensures GetTitleById(title.id) == Some(title)
      ensures forall id :: id != title.id ==> GetTitleById(id) == old(GetTitleById(id))
    {
      rows := rows[title.id := title];
    }

    /** Batch `INSERT OR REPLACE`: successive single replaces, so the last entity per id wins. */
    method InsertTitles(titles: seq<TitleEntity>)
      requires Valid()
      modifies this
      ensures Valid()
      ensures rows == InsertAll(old(rows), titles)
    {
      for i := 0 to |titles|
        invariant rows == InsertAll(old(rows), titles[..i])
      {
        assert titles[..i + 1][..i] == titles[..i];
        rows := rows[titles[i].id := titles[i]];
      }
      assert titles[..|titles|] == titles;
      InsertAllKeyedById(old(rows), titles);
    }

    /** `@Delete` matches on the primary key: the row with the entity's id goes, the others stay. */
    method DeleteTitle(title: TitleEntity)
      requires Valid()
      modifies this
      ensures Valid()
      ensures rows == old(rows) - {title.id}
      ensures GetTitleById(title.id) == None
      ensures forall id :: id != title.id ==> GetTitleById(id) == old(GetTitleById(id))
    {
      rows := rows - {title.id};
    }

    /** `DELETE FROM saved_titles`. */
    method DeleteAllTitles()
      requires Valid()
      modifies this
      ensures Valid()
      ensures rows == map[] && GetSavedTitlesCount() == 0
    {
      rows := map[];
    }

    /** `SELECT EXISTS(... WHERE id = :titleId)`: true exactly when the lookup by id finds a row. */
    function IsTitleSaved(titleId: int): (saved: bool)
      reads this
      requires Valid()
      ensures saved <==> GetTitleById(titleId).Some?
    {
      titleId in rows
    }

    /** `SELECT COUNT(*) FROM saved_titles`. */
    function GetSavedTitlesCount(): (n: nat)
      reads this
      ensures n == |rows.Keys|
    {
      |rows.Keys|
    }
  }
}
