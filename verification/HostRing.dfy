/** The flat `int64` ring `[count, (req_id, token, accepted, forward_draft)*]` as a map from request to entry. */
module HostRings {
  import opened Tokens

  datatype Entry = Entry(id: int, token: int, accepted: int, forwardDraft: int)

  const ENTRY_FIELDS: nat := 4

  const ZERO_ENTRY := Entry(0, 0, 0, 0)

  function Field(e: Entry, k: nat): int
  {
    if k == 0 then e.id else if k == 1 then e.token else if k == 2 then e.accepted else e.forwardDraft
  }

  /** The cells a list of entries occupies. */
  function Cells(es: seq<Entry>): (ring: seq<int>)
    ensures |ring| == 1 + ENTRY_FIELDS * |es|
  {
    seq(1 + ENTRY_FIELDS * |es|, i requires 0 <= i < 1 + ENTRY_FIELDS * |es| =>
      if i == 0 then |es| else Field(es[(i - 1) / ENTRY_FIELDS], (i - 1) % ENTRY_FIELDS))
  }

  /** How many whole entries a reader of `ring` visits: the count, cut where the cells run out. */
  function Visited(ring: seq<int>): (n: nat)
    ensures n > 0 ==> 1 + ENTRY_FIELDS * n <= |ring|
  {
    if ring == [] || ring[0] <= 0 then 0 else Min(ring[0], (|ring| - 1) / ENTRY_FIELDS)
  }

  function EntryAt(ring: seq<int>, j: nat): Entry
    requires 1 + ENTRY_FIELDS * (j + 1) <= |ring|
  {
    Entry(ring[1 + ENTRY_FIELDS * j], ring[2 + ENTRY_FIELDS * j],
          ring[3 + ENTRY_FIELDS * j], ring[4 + ENTRY_FIELDS * j])
  }

  /** What any vector of cells means to a reader, well formed or not. */
  function Entries(ring: seq<int>): (es: seq<Entry>)
    ensures |es| == Visited(ring)
  {
    seq(Visited(ring), j requires 0 <= j < Visited(ring) => EntryAt(ring, j))
  }

  lemma CellAt(es: seq<Entry>, j: nat, k: nat)
    requires j < |es| && k < ENTRY_FIELDS
    ensures Cells(es)[1 + ENTRY_FIELDS * j + k] == Field(es[j], k)
  {
    var i := 1 + ENTRY_FIELDS * j + k;
    assert (i - 1) / ENTRY_FIELDS == j && (i - 1) % ENTRY_FIELDS == k;
  }

  /** Reading back the cells of a list gives the list. */
  lemma CellsRoundTrip(es: seq<Entry>)
    ensures Entries(Cells(es)) == es
  {
    assert Visited(Cells(es)) == |es|;
    forall j | 0 <= j < |es| ensures EntryAt(Cells(es), j) == es[j] {
      CellAt(es, j, 0);
      CellAt(es, j, 1);
      CellAt(es, j, 2);
      CellAt(es, j, 3);
    }
  }

  /** A reader stops at the count, and where the cells run out. */
  lemma CountCuts(es: seq<Entry>, n: nat)
    requires n <= |es|
    ensures Entries(Cells(es)[0 := n]) == es[..n]
    ensures Entries(Cells(es)[..1 + ENTRY_FIELDS * n]) == es[..n]
  {
    var counted, short := Cells(es)[0 := n], Cells(es)[..1 + ENTRY_FIELDS * n];
    assert Visited(counted) == Visited(short) == n;
    forall j | 0 <= j < n ensures EntryAt(counted, j) == EntryAt(short, j) == es[j] {
      CellAt(es, j, 0);
      CellAt(es, j, 1);
      CellAt(es, j, 2);
      CellAt(es, j, 3);
    }
  }

  lemma CellsUpdate(es: seq<Entry>, i: nat, e: Entry)
    requires i < |es|
    ensures Cells(es[i := e]) == Cells(es)[1 + ENTRY_FIELDS * i := e.id][2 + ENTRY_FIELDS * i := e.token]
                                          [3 + ENTRY_FIELDS * i := e.accepted][4 + ENTRY_FIELDS * i := e.forwardDraft]
  {
  }

  // ---- The map the ring stands for ----

  ghost predicate UniqueIds(es: seq<Entry>)
  {
    forall i, j :: 0 <= i < j < |es| ==> es[i].id != es[j].id
  }

  ghost predicate WellFormed(ring: seq<int>)
  {
    UniqueIds(Entries(ring))
  }

  function Ids(es: seq<Entry>): set<int>
  {
    set e | e in es :: e.id
  }

  /** The first entry of each id. */
  function Contents(es: seq<Entry>): (m: map<int, Entry>)
    ensures m.Keys == Ids(es)
    ensures forall id :: id in m ==> m[id] in es && m[id].id == id
  {
    if es == [] then map[]
    else
      var m := Contents(es[1..])[es[0].id := es[0]];
      assert es == [es[0]] + es[1..];
      m
  }

  lemma {:induction false} ContentsAt(es: seq<Entry>, i: nat)
    requires UniqueIds(es) && i < |es|
    ensures es[i].id in Contents(es) && Contents(es)[es[i].id] == es[i]
  {
    if i > 0 {
      ContentsAt(es[1..], i - 1);
      assert es[1..][i - 1] == es[i] && es[0].id != es[i].id;
    }
  }

  lemma ContentsOfMembers(es: seq<Entry>)
    requires UniqueIds(es)
    ensures forall e :: e in es ==> e.id in Contents(es) && Contents(es)[e.id] == e
  {
    forall e | e in es ensures e.id in Contents(es) && Contents(es)[e.id] == e {
      var i :| 0 <= i < |es| && es[i] == e;
      ContentsAt(es, i);
    }
  }

  /** Two duplicate-free lists with the same members stand for the same map. */
  lemma ContentsByMembers(es: seq<Entry>, m: map<int, Entry>)
    requires UniqueIds(es)
    requires forall e :: e in es <==> e.id in m && m[e.id] == e
    requires forall id :: id in m ==> m[id].id == id
    ensures Contents(es) == m
  {
    forall id | id in Contents(es) ensures id in m && m[id] == Contents(es)[id] {
      assert Contents(es)[id] in es;
    }
    forall id | id in m ensures id in Contents(es) {
      assert m[id] in es;
    }
  }

  function Without(es: seq<Entry>, ids: set<int>): (r: seq<Entry>)
    ensures forall e :: e in r <==> e in es && e.id !in ids
    ensures |r| <= |es|
  {
    if es == [] then []
    else
      var rest := Without(es[1..], ids);
      assert es == [es[0]] + es[1..];
      if es[0].id in ids then rest else [es[0]] + rest
  }

  lemma {:induction false} WithoutUnique(es: seq<Entry>, ids: set<int>)
    requires UniqueIds(es)
    ensures UniqueIds(Without(es, ids))
  {
    if es != [] {
      WithoutUnique(es[1..], ids);
      forall e | e in es[1..] ensures e.id != es[0].id { }
    }
  }

  lemma {:induction false} WithoutSnoc(es: seq<Entry>, e: Entry, ids: set<int>)
    ensures Without(es + [e], ids) == Without(es, ids) + (if e.id in ids then [] else [e])
  {
    if es == [] {
      assert es + [e] == [e];
    } else {
      assert (es + [e])[1..] == es[1..] + [e];
      WithoutSnoc(es[1..], e, ids);
    }
  }

  /** Dropping ids from the ring is domain subtraction on the map. */
  lemma ClearRefines(es: seq<Entry>, ids: set<int>)
    requires UniqueIds(es)
    ensures UniqueIds(Without(es, ids))
    ensures Contents(Without(es, ids)) == Contents(es) - ids
  {
    WithoutUnique(es, ids);
    ContentsOfMembers(es);
    ContentsByMembers(Without(es, ids), Contents(es) - ids);
  }

  /** Keeping absent requests and appending this step's entries is map override. */
  lemma WriteRefines(es: seq<Entry>, batch: seq<Entry>)
    requires UniqueIds(es) && UniqueIds(batch)
    ensures UniqueIds(Without(es, Ids(batch)) + batch)
    ensures Contents(Without(es, Ids(batch)) + batch) == Contents(es) + Contents(batch)
  {
    var kept := Without(es, Ids(batch));
    var m := Contents(es) + Contents(batch);
    WithoutUnique(es, Ids(batch));
    ContentsOfMembers(es);
    ContentsOfMembers(batch);
    assert UniqueIds(kept + batch) by {
      forall i, j | 0 <= i < |kept| && 0 <= j < |batch| ensures kept[i].id != batch[j].id {
        assert kept[i] in kept && batch[j] in batch;
        assert batch[j].id in Ids(batch);
      }
    }
    forall e | e in kept + batch ensures e.id in m && m[e.id] == e {
      assert e in batch ==> e.id in Ids(batch);
    }
    forall e: Entry | e.id in m && m[e.id] == e ensures e in kept + batch {
      assert e.id in Contents(batch) ==> e in batch;
    }
    ContentsByMembers(kept + batch, m);
  }

  /** A reader's linear scan. */
  function Find(es: seq<Entry>, id: int): (r: Option<Entry>)
  {
    if es == [] then None else if es[0].id == id then Some(es[0]) else Find(es[1..], id)
  }

  /** The scan is map lookup, whether or not ids repeat. */
  lemma {:induction false} FindRefines(es: seq<Entry>, id: int)
    ensures Find(es, id) == if id in Contents(es) then Some(Contents(es)[id]) else None
  {
    if es != [] {
      FindRefines(es[1..], id);
      assert es == [es[0]] + es[1..];
    }
  }

  lemma {:induction false} FindSkips(es: seq<Entry>, id: int, j: nat)
    requires j <= |es| && forall i :: 0 <= i < j ==> es[i].id != id
    ensures Find(es, id) == Find(es[j..], id)
  {
    if j > 0 {
      FindSkips(es[1..], id, j - 1);
      assert es[1..][j - 1..] == es[j..];
    }
  }

  /** `LookupBuildAheadHostRingEntry`: a linear scan over any cells, which `FindRefines` equates with map lookup. */
  method LookupBuildAheadHostRingEntry(ring: seq<int>, id: int) returns (r: Option<Entry>)
    ensures r == Find(Entries(ring), id)
  {
    ghost var es := Entries(ring);
    if ring == [] {
      return None;
    }
    var count := ring[0];
    if count <= 0 {
      return None;
    }
    var j := 0;
    while j < count
      invariant 0 <= j <= |es|
      invariant forall i :: 0 <= i < j ==> es[i].id != id
    {
      var at := 1 + ENTRY_FIELDS * j;
      if at + ENTRY_FIELDS > |ring| {
        break;
      }
      if ring[at] == id {
        FindSkips(es, id, j);
        return Some(Entry(ring[at], ring[at + 1], ring[at + 2], ring[at + 3]));
      }
      j := j + 1;
    }
    FindSkips(es, id, |es|);
    return None;
  }

  /** The ring vector the Executor rewrites in place. */
  class HostRing {
    var cells: seq<int>

    constructor ()
      ensures cells == []
    {
      cells := [];
    }

    /** `InitBuildAheadHostRing`. */
    method Init(count: nat)
      modifies this
      ensures cells == Cells(seq(count, _ => ZERO_ENTRY))
    {
      cells := Fill(0, 1 + ENTRY_FIELDS * count);
      cells := cells[0 := count];
    }

    /** `WriteBuildAheadHostRingEntry`. */
    method WriteEntry(index: nat, e: Entry, ghost es: seq<Entry>)
      requires cells == Cells(es) && index < |es|
      modifies this
      ensures cells == Cells(es[index := e])
    {
      CellsUpdate(es, index, e);
      var at := 1 + ENTRY_FIELDS * index;
      cells := cells[at := e.id];
      cells := cells[at + 1 := e.token];
      cells := cells[at + 2 := e.accepted];
      cells := cells[at + 3 := e.forwardDraft];
    }

    /** Rewrites the ring to hold exactly `es`. */
    method Rewrite(es: seq<Entry>)
      modifies this
      ensures cells == Cells(es)
    {
      Init(|es|);
      ghost var written := seq(|es|, _ => ZERO_ENTRY);
      for i := 0 to |es|
        invariant |written| == |es| && cells == Cells(written)
        invariant written[..i] == es[..i]
      {
        WriteEntry(i, es[i], written);
        written := written[i := es[i]];
      }
      assert written == es;
    }

    /** The entries of requests outside `ids`, in ring order. */
    method Keep(ids: set<int>) returns (kept: seq<Entry>)
      ensures kept == Without(Entries(cells), ids)
    {
      kept := [];
      if cells == [] {
        return;
      }
      var count := cells[0];
      var j := 0;
      while j < count
        invariant 0 <= j <= Visited(cells)
        invariant kept == Without(Entries(cells)[..j], ids)
      {
        var at := 1 + ENTRY_FIELDS * j;
        if at + ENTRY_FIELDS > |cells| {
          break;
        }
        var e := Entry(cells[at], cells[at + 1], cells[at + 2], cells[at + 3]);
        assert Entries(cells)[..j + 1] == Entries(cells)[..j] + [e];
        WithoutSnoc(Entries(cells)[..j], e, ids);
        if e.id !in ids {
          kept := kept + [e];
        }
        j := j + 1;
      }
      assert Entries(cells)[..j] == Entries(cells);
    }
  }
}
