/** Project records of the Projects page and the per-step list transforms its
    handlers apply to the `projects` list: find by id, merge a partial patch
    into the record with a given id, put a snapshot back, filter an id out. */
module ProjectRecords {
  import opened Common

  /** The page's code compares a status only with "active" and "completed";
      `OnHold` stands for every other value the server may hold (its model
      keeps a free text field whose comment names "on-hold"). */
  datatype Status = Active | Completed | OnHold

  datatype PaymentStatus = Paid | Unpaid | Partial

  /** A money amount, held as its decimal text (`String(n)` of the number),
      which is never empty. */
  type Amount = s: string | s != [] witness "0"

  /** A project as the API returns it. Optional fields are `None` when the key
      is `undefined` or `null`. */
  datatype Project = Project(
    id: int,
    title: string,
    status: Status,
    dueDate: Option<string>,
    startDate: Option<string>,
    client: int,
    clientName: Option<string>,
    paymentStatus: Option<PaymentStatus>,
    paymentAmount: Option<Amount>,
    paymentCurrency: Option<string>)

  /** `Partial<Project>` as the handlers build it: every key but `id` may be
      present (`Some`) or absent (`None`). For an optional field, a present key
      whose value is `undefined` is `Some(None)`. */
  datatype Patch = Patch(
    title: Option<string>,
    status: Option<Status>,
    dueDate: Option<Option<string>>,
    startDate: Option<Option<string>>,
    client: Option<int>,
    clientName: Option<Option<string>>,
    paymentStatus: Option<Option<PaymentStatus>>,
    paymentAmount: Option<Option<Amount>>,
    paymentCurrency: Option<Option<string>>)

  /** `{}`: the patch with no keys. */
  const EmptyPatch := Patch(None, None, None, None, None, None, None, None, None)

  /** `{ status: s }`, sent by the status toggle. */
  function StatusPatch(s: Status): Patch {
    EmptyPatch.(status := Some(s))
  }

  /** `{ payment_amount: amount ?? undefined, payment_currency: currency }`,
      the local change made by the payment editor. */
  function PaymentPatch(amount: Option<Amount>, currency: string): Patch {
    EmptyPatch.(paymentAmount := Some(amount), paymentCurrency := Some(Some(currency)))
  }

  /** `{ payment_status: s }`, the local change made by the payment-status
      editor. */
  function PaymentStatusPatch(s: PaymentStatus): Patch {
    EmptyPatch.(paymentStatus := Some(Some(s)))
  }

  /** `{...p, ...q}`: every key present in `q` overrides the record's value. */
  function Merge(p: Project, q: Patch): (r: Project)
    ensures r.id == p.id
  {
    Project(
      p.id,
      q.title.GetOr(p.title),
      q.status.GetOr(p.status),
      q.dueDate.GetOr(p.dueDate),
      q.startDate.GetOr(p.startDate),
      q.client.GetOr(p.client),
      q.clientName.GetOr(p.clientName),
      q.paymentStatus.GetOr(p.paymentStatus),
      q.paymentAmount.GetOr(p.paymentAmount),
      q.paymentCurrency.GetOr(p.paymentCurrency))
  }

  /** `{...a, ...b}`: the single patch that has the effect of `a` followed by `b`. */
  function Then(a: Patch, b: Patch): Patch {
    Patch(
      if b.title.Some? then b.title else a.title,
      if b.status.Some? then b.status else a.status,
      if b.dueDate.Some? then b.dueDate else a.dueDate,
      if b.startDate.Some? then b.startDate else a.startDate,
      if b.client.Some? then b.client else a.client,
      if b.clientName.Some? then b.clientName else a.clientName,
      if b.paymentStatus.Some? then b.paymentStatus else a.paymentStatus,
      if b.paymentAmount.Some? then b.paymentAmount else a.paymentAmount,
      if b.paymentCurrency.Some? then b.paymentCurrency else a.paymentCurrency)
  }

  /** Merging the empty patch changes nothing. */
  lemma MergeEmpty(p: Project)
    ensures Merge(p, EmptyPatch) == p
  {
  }

  /** Applying one patch twice is applying it once. */
  lemma MergeIdempotent(p: Project, q: Patch)
    ensures Merge(Merge(p, q), q) == Merge(p, q)
  {
  }

  /** Two patches in a row merge to the combined patch: the record ends up with
      the last value written to each key. */
  lemma MergeThen(p: Project, a: Patch, b: Patch)
    ensures Merge(Merge(p, a), b) == Merge(p, Then(a, b))
  {
  }

  predicate HasId(ps: seq<Project>, id: int) {
    exists i :: 0 <= i < |ps| && ps[i].id == id
  }

  /** The collection invariant the server maintains: no two records share an id. */
  predicate UniqueIds(ps: seq<Project>) {
    forall i, j :: 0 <= i < j < |ps| ==> ps[i].id != ps[j].id
  }

  /** Index `i` holds the first record with that id. */
  predicate FirstWithId(ps: seq<Project>, id: int, i: int) {
    0 <= i < |ps| && ps[i].id == id && forall j :: 0 <= j < i ==> ps[j].id != id
  }

  /** `ps.find((p) => p.id === id)`: the first record with that id, if any. */
  function FindById(ps: seq<Project>, id: int): (r: Option<Project>)
    ensures r.None? <==> !HasId(ps, id)
    ensures r.Some? ==> exists i :: FirstWithId(ps, id, i) && ps[i] == r.value
    decreases |ps|
  {
    if ps == [] then None
    else if ps[0].id == id then Some(ps[0])
    else
      var r := FindById(ps[1..], id);
      assert HasId(ps[1..], id) ==> HasId(ps, id) by {
        if HasId(ps[1..], id) {
          var i :| 0 <= i < |ps[1..]| && ps[1..][i].id == id;
          assert ps[i + 1].id == id;
        }
      }
      assert HasId(ps, id) ==> HasId(ps[1..], id) by {
        if HasId(ps, id) {
          var i :| 0 <= i < |ps| && ps[i].id == id;
          assert ps[1..][i - 1].id == id;
        }
      }
      if r.Some? then
        var i :| FirstWithId(ps[1..], id, i) && ps[1..][i] == r.value;
        assert FirstWithId(ps, id, i + 1) by {
          forall j | 1 <= j < i + 1 ensures ps[j].id != id {
            assert ps[j] == ps[1..][j - 1];
          }
        }
        assert ps[i + 1] == r.value;
        r
      else r
  }

  /** `ps.map((p) => (p.id === id ? {...p, ...q} : p))`: exactly the records with
      that id are merged with the patch; length, order and every other record
      stay as they were. */
  function PatchById(ps: seq<Project>, id: int, q: Patch): (r: seq<Project>)
    ensures |r| == |ps|
    ensures forall i :: 0 <= i < |ps| ==> r[i] == (if ps[i].id == id then Merge(ps[i], q) else ps[i])
    decreases |ps|
  {
    if ps == [] then []
    else
      var rest := PatchById(ps[1..], id, q);
      var r := [if ps[0].id == id then Merge(ps[0], q) else ps[0]] + rest;
      assert forall i :: 1 <= i < |ps| ==> r[i] == rest[i - 1] && ps[i] == ps[1..][i - 1];
      r
  }

  /** `ps.map((p) => (p.id === id ? snapshot : p))`: the record(s) with that id
      are replaced by `snapshot`; length, order and every other record stay. */
  function ReplaceById(ps: seq<Project>, id: int, snapshot: Project): (r: seq<Project>)
    ensures |r| == |ps|
    ensures forall i :: 0 <= i < |ps| ==> r[i] == (if ps[i].id == id then snapshot else ps[i])
    decreases |ps|
  {
    if ps == [] then []
    else
      var rest := ReplaceById(ps[1..], id, snapshot);
      var r := [if ps[0].id == id then snapshot else ps[0]] + rest;
      assert forall i :: 1 <= i < |ps| ==> r[i] == rest[i - 1] && ps[i] == ps[1..][i - 1];
      r
  }

  /** The rollback step of a failed patch: `if (prev) setProjects(list =>
      ReplaceById(list, id, prev))`. */
  function Restore(ps: seq<Project>, id: int, prev: Option<Project>): seq<Project> {
    if prev.Some? then ReplaceById(ps, id, prev.value) else ps
  }

  /** `ps.filter((p) => p.id !== id)`: the result holds exactly the records
      whose id differs, in their original relative order. */
  function RemoveById(ps: seq<Project>, id: int): (r: seq<Project>)
    ensures forall x :: x in r <==> x in ps && x.id != id
    ensures IsSubsequence(r, ps)
    ensures !HasId(r, id)
    decreases |ps|
  {
    if ps == [] then []
    else
      var rest := RemoveById(ps[1..], id);
      assert forall x :: x in ps <==> x == ps[0] || x in ps[1..];
      if ps[0].id == id then
        SubsequenceOfTail(rest, ps);
        rest
      else
        var r := [ps[0]] + rest;
        assert r[1..] == rest;
        assert !HasId(r, id) by {
          forall i | 0 <= i < |r| ensures r[i].id != id {
            if i > 0 {
              assert r[i] in rest;
            }
          }
        }
        r
  }

  /** Deleting keeps every other record as often as the list held it and
      drops every copy of the records with the id. */
  lemma {:induction false} RemoveKeepsMultiplicity(ps: seq<Project>, id: int)
    ensures forall x :: multiset(RemoveById(ps, id))[x] == if x.id != id then multiset(ps)[x] else 0
    decreases |ps|
  {
    if ps != [] {
      RemoveKeepsMultiplicity(ps[1..], id);
      assert ps == [ps[0]] + ps[1..];
      assert multiset(ps) == multiset{ps[0]} + multiset(ps[1..]);
      if ps[0].id != id {
        assert RemoveById(ps, id) == [ps[0]] + RemoveById(ps[1..], id);
      }
    }
  }

  /** A patch for an id that no record has leaves the list unchanged. */
  lemma PatchUnknownId(ps: seq<Project>, id: int, q: Patch)
    requires !HasId(ps, id)
    ensures PatchById(ps, id, q) == ps
  {
    var r := PatchById(ps, id, q);
    assert forall i :: 0 <= i < |ps| ==> r[i] == ps[i];
  }

  /** Deleting an id that no record has leaves the list unchanged. */
  lemma {:induction false} RemoveUnknownId(ps: seq<Project>, id: int)
    requires !HasId(ps, id)
    ensures RemoveById(ps, id) == ps
    decreases |ps|
  {
    if ps != [] {
      assert ps[0].id != id;
      assert !HasId(ps[1..], id) by {
        forall i | 0 <= i < |ps[1..]| ensures ps[1..][i].id != id {
          assert ps[1..][i] == ps[i + 1];
        }
      }
      assert RemoveById(ps, id) == [ps[0]] + RemoveById(ps[1..], id);
      RemoveUnknownId(ps[1..], id);
      assert ps == [ps[0]] + ps[1..];
    }
  }

  /** Patching never changes which ids the list holds, position by position. */
  lemma PatchKeepsIds(ps: seq<Project>, id: int, q: Patch)
    ensures forall i :: 0 <= i < |ps| ==> PatchById(ps, id, q)[i].id == ps[i].id
  {
  }

  /** Full rollback: in a list with unique ids, patching the record with `id`
      and then putting back the snapshot `FindById` took before the patch gives
      back exactly the original list. */
  lemma RollbackRestores(ps: seq<Project>, id: int, q: Patch)
    requires UniqueIds(ps)
    ensures Restore(PatchById(ps, id, q), id, FindById(ps, id)) == ps
  {
    var prev := FindById(ps, id);
    var patched := PatchById(ps, id, q);
    if prev.Some? {
      var k :| FirstWithId(ps, id, k) && ps[k] == prev.value;
      var r := ReplaceById(patched, id, prev.value);
      forall i | 0 <= i < |ps|
        ensures r[i] == ps[i]
      {
        assert patched[i].id == ps[i].id;
        assert ps[i].id == id ==> i == k;
      }
      assert |r| == |ps|;
    } else {
      PatchUnknownId(ps, id, q);
    }
  }

  /** Two patches to one record in a row have the effect of the combined
      patch; with `a == b` this is idempotence under repeated patches. */
  lemma PatchTwice(ps: seq<Project>, id: int, a: Patch, b: Patch)
    ensures PatchById(PatchById(ps, id, a), id, b) == PatchById(ps, id, Then(a, b))
  {
    var r1 := PatchById(PatchById(ps, id, a), id, b);
    var r2 := PatchById(ps, id, Then(a, b));
    forall i | 0 <= i < |ps|
      ensures r1[i] == r2[i]
    {
      if ps[i].id == id {
        MergeThen(ps[i], a, b);
      }
    }
  }

  /** Merging a patch keeps the ids of the list unique. */
  lemma PatchKeepsUnique(ps: seq<Project>, id: int, q: Patch)
    requires UniqueIds(ps)
    ensures UniqueIds(PatchById(ps, id, q))
  {
  }

  /** The tail of a list with unique ids has unique ids and lacks the head's id. */
  lemma UniqueTail(ps: seq<Project>)
    requires ps != [] && UniqueIds(ps)
    ensures UniqueIds(ps[1..]) && !HasId(ps[1..], ps[0].id)
  {
    assert forall i :: 0 <= i < |ps[1..]| ==> ps[1..][i] == ps[i + 1];
  }

  /** An id held by a list whose records all occur in `b` is held by `b`. */
  lemma HasIdOfMembers(a: seq<Project>, b: seq<Project>, id: int)
    requires forall x :: x in a ==> x in b
    requires HasId(a, id)
    ensures HasId(b, id)
  {
    var i :| 0 <= i < |a| && a[i].id == id;
    assert a[i] in b;
  }

  /** Deleting keeps the ids of the list unique. */
  lemma {:induction false} RemoveKeepsUnique(ps: seq<Project>, id: int)
    requires UniqueIds(ps)
    ensures UniqueIds(RemoveById(ps, id))
    decreases |ps|
  {
    if ps != [] {
      UniqueTail(ps);
      RemoveKeepsUnique(ps[1..], id);
      var rest := RemoveById(ps[1..], id);
      if ps[0].id != id {
        if HasId(rest, ps[0].id) {
          HasIdOfMembers(rest, ps[1..], ps[0].id);
        }
        PrependKeepsUnique(ps[0], rest);
      }
    }
  }

  /** Prepending a record whose id is new keeps the ids of the list unique. */
  lemma PrependKeepsUnique(x: Project, ps: seq<Project>)
    requires UniqueIds(ps) && !HasId(ps, x.id)
    ensures UniqueIds([x] + ps)
  {
    var r := [x] + ps;
    forall i, j | 0 <= i < j < |r| ensures r[i].id != r[j].id {
      assert r[j] == ps[j - 1];
      if i > 0 {
        assert r[i] == ps[i - 1];
      }
    }
  }

  /** `find` returns the record at the first index holding the id. */
  lemma {:induction false} FindFirst(ps: seq<Project>, id: int, k: int)
    requires FirstWithId(ps, id, k)
    ensures FindById(ps, id) == Some(ps[k])
    decreases |ps|
  {
    if k > 0 {
      assert ps[0].id != id;
      FindFirst(ps[1..], id, k - 1);
    }
  }

  /** After a patch, looking the id up again finds the merged snapshot: the
      record a later handler would capture. */
  lemma FindAfterPatch(ps: seq<Project>, id: int, q: Patch)
    ensures FindById(PatchById(ps, id, q), id)
         == (match FindById(ps, id) case Some(p) => Some(Merge(p, q)) case None => None)
  {
    var r := PatchById(ps, id, q);
    PatchKeepsIds(ps, id, q);
    match FindById(ps, id)
    case None =>
      assert !HasId(r, id) by {
        forall i | 0 <= i < |r| ensures r[i].id != id {
          assert r[i].id == ps[i].id;
        }
      }
    case Some(p) =>
      var k :| FirstWithId(ps, id, k) && ps[k] == p;
      assert FirstWithId(r, id, k);
      FindFirst(r, id, k);
  }

}
