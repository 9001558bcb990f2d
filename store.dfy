/**
 * The record list of src/pages/HomePage.js: the ordered `records` array and
 * the `editingRecord` reference, and the three handlers that replace them.
 * The new arrays are built by `map`, `filter` and spread; those are the pure
 * functions `Replaced` and `Removed` (and sequence concatenation), and the
 * class `Store` assigns their results to its fields.
 */
module RecordStore {
  import RecordForm

  /**
   * A record object held in `records`. JavaScript's `===` on objects is
   * reference identity, and so is `==` on Dafny class references: two
   * records with equal fields are still different entries.
   */
  class Record {
    const data: RecordForm.FormData

    constructor (data: RecordForm.FormData)
      ensures this.data == data
    {
      this.data := data;
    }
  }

  /**
   * `records.map(record => record === target ? d : record)`: every entry
   * identical to `target` becomes `d` at the same position, every other
   * entry stays where it is.
   */
  function Replaced(rs: seq<Record>, target: Record, d: Record): (r: seq<Record>)
    ensures |r| == |rs|
    ensures forall i :: 0 <= i < |rs| ==> r[i] == (if rs[i] == target then d else rs[i])
    ensures target !in rs ==> r == rs
  {
    if rs == [] then []
    else [if rs[0] == target then d else rs[0]] + Replaced(rs[1..], target, d)
  }

  /**
   * Replacing moves every occurrence of the target over to `d` and leaves
   * the count of every other record alone.
   */
  lemma {:induction false} ReplacedCounts(rs: seq<Record>, target: Record, d: Record)
    requires target != d
    ensures multiset(Replaced(rs, target, d))[target] == 0
    ensures multiset(Replaced(rs, target, d))[d] == multiset(rs)[d] + multiset(rs)[target]
    ensures forall x :: x != target && x != d ==> multiset(Replaced(rs, target, d))[x] == multiset(rs)[x]
  {
    if rs != [] {
      ReplacedCounts(rs[1..], target, d);
      assert rs == [rs[0]] + rs[1..];
      assert Replaced(rs, target, d) == [if rs[0] == target then d else rs[0]] + Replaced(rs[1..], target, d);
    }
  }

  /** Two positions holding the same record make it occur at least twice. */
  lemma TwiceCounted(rs: seq<Record>, i: nat, j: nat)
    requires i < j < |rs| && rs[i] == rs[j]
    ensures multiset(rs)[rs[i]] >= 2
  {
    assert rs == rs[..j] + rs[j..];
    assert rs[..j][i] == rs[i] && rs[j..][0] == rs[j];
    assert rs[i] in multiset(rs[..j]) && rs[j] in multiset(rs[j..]);
  }

  /** With a single entry identical to the target, updating is a write at that one position. */
  lemma ReplacedSingle(rs: seq<Record>, i: nat, target: Record, d: Record)
    requires i < |rs| && rs[i] == target
    requires multiset(rs)[target] == 1
    ensures Replaced(rs, target, d) == rs[i := d]
  {
    forall j | 0 <= j < |rs| && j != i
      ensures rs[j] != target
    {
      if rs[j] == target {
        if i < j { TwiceCounted(rs, i, j); } else { TwiceCounted(rs, j, i); }
      }
    }
  }

  /**
   * `records.filter(r => r !== x)`: every entry identical to `x` is
   * dropped and nothing else; an absent `x` leaves the array as it was.
   */
  function Removed(rs: seq<Record>, x: Record): (r: seq<Record>)
    ensures multiset(r) == multiset(rs)[x := 0]
    ensures |r| == |rs| - multiset(rs)[x]
    ensures x !in r
    ensures x !in rs ==> r == rs
  {
    if rs == [] then []
    else
      assert rs == [rs[0]] + rs[1..];
      if rs[0] == x then Removed(rs[1..], x) else [rs[0]] + Removed(rs[1..], x)
  }

  /** Removal works piecewise, so the entries that remain keep their relative order. */
  lemma {:induction false} RemovedAppend(a: seq<Record>, b: seq<Record>, x: Record)
    ensures Removed(a + b, x) == Removed(a, x) + Removed(b, x)
  {
    if a == [] {
      assert a + b == b;
    } else {
      assert (a + b)[0] == a[0] && (a + b)[1..] == a[1..] + b;
      RemovedAppend(a[1..], b, x);
    }
  }

  /** Deleting a record that occurs once, at position `i`, closes the gap and keeps the rest in order. */
  lemma RemovedSingle(rs: seq<Record>, i: nat, x: Record)
    requires i < |rs| && rs[i] == x
    requires multiset(rs)[x] == 1
    ensures Removed(rs, x) == rs[..i] + rs[i + 1..]
  {
    assert rs == rs[..i] + ([rs[i]] + rs[i + 1..]);
    assert multiset(rs) == multiset(rs[..i]) + multiset{x} + multiset(rs[i + 1..]);
    RemovedAppend(rs[..i], [rs[i]] + rs[i + 1..], x);
    RemovedAppend([rs[i]], rs[i + 1..], x);
  }

  /**
   * Nothing keys records by CPF. This covers the append branch of
   * `Store.HandleAddOrUpdate`, which has no precondition on the list and
   * sets `records` to `old(records) + [data]`; `RecordForm.Validate` reads
   * only the form, never the list. So appending a record whose CPF an entry
   * already has yields two entries with that CPF.
   */
  lemma DuplicateCpfKept(rs: seq<Record>, d: Record, i: nat)
    requires i < |rs| && rs[i].data.cpf == d.data.cpf
    ensures exists j, k :: 0 <= j < k < |rs + [d]| && (rs + [d])[j].data.cpf == (rs + [d])[k].data.cpf
  {
    assert (rs + [d])[i] == rs[i] && (rs + [d])[|rs|] == d;
  }

  /** The state of `HomePage`: the record list and the record being edited, if any. */
  class Store {
    var records: seq<Record>
    var editingRecord: Record?

    /** `useState([])` and `useState(null)`. */
    constructor ()
      ensures records == [] && editingRecord == null
    {
      records := [];
      editingRecord := null;
    }

    /**
     * `handleAddOrUpdate`: outside edit mode the record is appended; in
     * edit mode every entry identical to the target is replaced by it and
     * edit mode ends. A target no longer in the list replaces nothing, so
     * the submitted record is dropped.
     */
    method HandleAddOrUpdate(data: Record)
      modifies this
      ensures old(editingRecord) == null ==> records == old(records) + [data]
      ensures old(editingRecord) != null ==> records == Replaced(old(records), old(editingRecord), data)
      ensures editingRecord == null
    {
      if editingRecord != null {
        records := Replaced(records, editingRecord, data);
        editingRecord := null;
      } else {
        records := records + [data];
      }
    }

    /** `handleEdit`: the record becomes the edit target; the list is untouched. */
    method HandleEdit(record: Record)
      modifies this
      ensures editingRecord == record
      ensures records == old(records)
    {
      editingRecord := record;
    }

    /** `handleDelete`: every identical entry leaves the list; the edit target is untouched. */
    method HandleDelete(record: Record)
      modifies this
      ensures records == Removed(old(records), record)
      ensures editingRecord == old(editingRecord)
    {
      records := Removed(records, record);
    }
  }
}
