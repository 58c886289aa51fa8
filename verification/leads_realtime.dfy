/**
 * The client-side list of leads kept current by database change events:
 * an insert is prepended, an update replaces the rows with its id and then
 * every soft-deleted row is dropped, a delete removes the rows with its id.
 * The subscription and the toast are not modelled; the list is the state.
 */
module LeadsRealtime {
  import opened Wrappers
  import opened Leads

  /** A change event as delivered by the channel. */
  datatype Change = Insert(newRow: Lead) | Update(newRow: Lead) | Delete(oldId: string)

  /** `lead.deleted_at` is truthy: set and not the empty string. */
  predicate IsDeleted(l: Lead) {
    l.deletedAt.Some? && l.deletedAt.value != ""
  }

  /** The list holds no soft-deleted lead. */
  predicate NoneDeleted(ls: seq<Lead>) {
    forall i :: 0 <= i < |ls| ==> !IsDeleted(ls[i])
  }

  /** `a` is `b` with some elements left out, the rest in their order. */
  predicate SubsequenceOf<T(==)>(a: seq<T>, b: seq<T>)
    decreases |b|
  {
    if a == [] then true
    else if b == [] then false
    else (a[0] == b[0] && SubsequenceOf(a[1..], b[1..])) || SubsequenceOf(a, b[1..])
  }

  /** `Array.prototype.filter`: the elements that pass, in order, each as often as before. */
  function Filter(ls: seq<Lead>, keep: Lead -> bool): (r: seq<Lead>)
    ensures |r| <= |ls|
    ensures forall x :: x in r ==> keep(x)
    ensures forall x :: keep(x) ==> multiset(r)[x] == multiset(ls)[x]
    ensures SubsequenceOf(r, ls)
  {
    if ls == [] then []
    else
      var rest := Filter(ls[1..], keep);
      assert ls == [ls[0]] + ls[1..];
      if keep(ls[0]) then [ls[0]] + rest else rest
  }

  /** `current.map(lead => lead.id === u.id ? u : lead)`. */
  function ReplaceById(ls: seq<Lead>, u: Lead): (r: seq<Lead>)
    ensures |r| == |ls|
    ensures forall i :: 0 <= i < |ls| ==> r[i] == if ls[i].id == u.id then u else ls[i]
  {
    if ls == [] then [] else [if ls[0].id == u.id then u else ls[0]] + ReplaceById(ls[1..], u)
  }

  /** The list after one change: the reducer `setLeads` is given. */
  function Apply(ls: seq<Lead>, c: Change): seq<Lead> {
    match c
    case Insert(l) => if IsDeleted(l) then ls else [l] + ls
    case Update(u) => Filter(ReplaceById(ls, u), (l: Lead) => !IsDeleted(l))
    case Delete(id) => Filter(ls, (l: Lead) => l.id != id)
  }

  /** Every change keeps a list free of soft-deleted leads. */
  lemma ApplyKeepsNoneDeleted(ls: seq<Lead>, c: Change)
    requires NoneDeleted(ls)
    ensures NoneDeleted(Apply(ls, c))
  {
    var r := Apply(ls, c);
    if !c.Insert? {
      forall i | 0 <= i < |r| ensures !IsDeleted(r[i]) {
        assert r[i] in r;
        if c.Delete? {
          assert r[i] in ls;
        }
      }
    }
  }

  /** An update never brings in a lead whose id was not in the list, and leaves none deleted. */
  lemma UpdateNeverAddsId(ls: seq<Lead>, u: Lead)
    ensures forall l :: l in Apply(ls, Update(u)) ==> exists k :: 0 <= k < |ls| && ls[k].id == l.id
    ensures NoneDeleted(Apply(ls, Update(u)))
  {
    var mapped := ReplaceById(ls, u);
    var r := Apply(ls, Update(u));
    forall l | l in r ensures exists k :: 0 <= k < |ls| && ls[k].id == l.id {
      assert multiset(r)[l] > 0;
      assert l in multiset(mapped);
      var k :| 0 <= k < |mapped| && mapped[k] == l;
      assert ls[k].id == l.id;
    }
    forall i | 0 <= i < |r| ensures !IsDeleted(r[i]) {
      assert r[i] in r;
    }
  }

  /** An update of an id the list does not hold only drops the deleted rows. */
  lemma UpdateOfAbsentId(ls: seq<Lead>, u: Lead)
    requires forall k :: 0 <= k < |ls| ==> ls[k].id != u.id
    ensures Apply(ls, Update(u)) == Filter(ls, (l: Lead) => !IsDeleted(l))
  {
    assert ReplaceById(ls, u) == ls;
  }

  /** A delete removes exactly the rows with that id; the others stay, in order, as often as before. */
  lemma DeleteRemovesExactly(ls: seq<Lead>, id: string)
    ensures forall l :: l in Apply(ls, Delete(id)) ==> l.id != id
    ensures forall l: Lead :: l.id != id ==> multiset(Apply(ls, Delete(id)))[l] == multiset(ls)[l]
    ensures SubsequenceOf(Apply(ls, Delete(id)), ls)
    ensures (forall k :: 0 <= k < |ls| ==> ls[k].id != id) ==> Apply(ls, Delete(id)) == ls
  {
    if forall k :: 0 <= k < |ls| ==> ls[k].id != id {
      FilterKeepingAll(ls, (l: Lead) => l.id != id);
    }
  }

  /** A filter that every element passes changes nothing. */
  lemma {:induction false} FilterKeepingAll(ls: seq<Lead>, keep: Lead -> bool)
    requires forall k :: 0 <= k < |ls| ==> keep(ls[k])
    ensures Filter(ls, keep) == ls
  {
    if ls != [] {
      FilterKeepingAll(ls[1..], keep);
    }
  }

  /** The leads list of one page, updated in place by each change event. */
  class LeadsView {
    var leads: seq<Lead>

    /** The list starts as the server-rendered leads. */
    constructor (initialLeads: seq<Lead>)
      ensures leads == initialLeads
    {
      leads := initialLeads;
    }

    /** `handleChange`. */
    method HandleChange(c: Change)
      modifies this
      ensures leads == Apply(old(leads), c)
      ensures c.Insert? && !IsDeleted(c.newRow) ==> leads == [c.newRow] + old(leads)
      ensures c.Insert? && IsDeleted(c.newRow) ==> leads == old(leads)
      ensures NoneDeleted(old(leads)) ==> NoneDeleted(leads)
    {
      if NoneDeleted(leads) {
        ApplyKeepsNoneDeleted(leads, c);
      }
      match c {
        case Insert(l) =>
          if !IsDeleted(l) {
            leads := [l] + leads;
          }
        case Update(u) =>
          leads := Filter(ReplaceById(leads, u), (l: Lead) => !IsDeleted(l));
        case Delete(id) =>
          leads := Filter(leads, (l: Lead) => l.id != id);
      }
    }

    /**
     * The effect on a new `initialLeads` prop: the list is replaced by the
     * server-rendered leads, dropping whatever the change events built up.
     */
    method SyncInitialLeads(initialLeads: seq<Lead>)
      modifies this
      ensures leads == initialLeads
    {
      leads := initialLeads;
    }
  }
}
