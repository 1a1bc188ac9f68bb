/**
 * The resource inventory table (client/src/components/ResourceInventory.tsx): stock
 * levels classified by quantity, ±10 adjustments, and a dialog that appends a new
 * resource built from a draft.
 */
module ResourceInventory {
  import opened Seqs

  datatype Category = Food | Medical | Shelter | Clothing | Other
  datatype Status = Available | Low | Critical

  datatype Resource = Resource(
    id: string,
    name: string,
    category: Category,
    quantity: int,
    unit: string,
    location: string,
    status: Status)

  /** The add-resource dialog's draft (`newResource`). */
  datatype Draft = Draft(name: string, category: Category, quantity: int, unit: string, location: string)

  const DefaultDraft: Draft := Draft("", Food, 0, "", "")

  /** The stock status of a quantity: above 100 available, above 30 low, else critical. */
  function Classify(quantity: int): (s: Status)
    ensures s == Available <==> quantity > 100
    ensures s == Low <==> 30 < quantity <= 100
    ensures s == Critical <==> quantity <= 30
  {
    if quantity > 100 then Available else if quantity > 30 then Low else Critical
  }

  /** A rank for the statuses, from worst to best. */
  function Rank(s: Status): nat
  {
    match s
    case Critical => 0
    case Low => 1
    case Available => 2
  }

  /** More stock never gives a worse status. */
  lemma ClassifyMonotone(q1: int, q2: int)
    requires q1 <= q2
    ensures Rank(Classify(q1)) <= Rank(Classify(q2))
  {
  }

  /** An entry whose status is what its quantity classifies as. */
  predicate Consistent(r: Resource)
  {
    r.status == Classify(r.quantity)
  }

  /** One entry after `updateQuantity`: clamped at zero and reclassified. */
  function Adjusted(r: Resource, change: int): (a: Resource)
    ensures a.quantity == if r.quantity + change < 0 then 0 else r.quantity + change
    ensures a.quantity >= 0 && Consistent(a)
    ensures a == r.(quantity := a.quantity, status := a.status)
  {
    var q := if 0 > r.quantity + change then 0 else r.quantity + change;
    r.(quantity := q, status := Classify(q))
  }

  /** The table after `updateQuantity(id, change)`: the map over all entries. */
  function QuantityUpdated(rs: seq<Resource>, id: string, change: int): (r: seq<Resource>)
    ensures |r| == |rs|
    ensures forall i :: 0 <= i < |rs| && rs[i].id == id ==> r[i] == Adjusted(rs[i], change)
    ensures forall i :: 0 <= i < |rs| && rs[i].id != id ==> r[i] == rs[i]
  {
    if rs == [] then []
    else [if rs[0].id == id then Adjusted(rs[0], change) else rs[0]] + QuantityUpdated(rs[1..], id, change)
  }

  /** An update never makes a non-negative table negative, nor an entry inconsistent. */
  lemma UpdatePreservesInvariants(rs: seq<Resource>, id: string, change: int)
    ensures var r := QuantityUpdated(rs, id, change);
      (forall i :: 0 <= i < |rs| && rs[i].quantity >= 0 ==> r[i].quantity >= 0) &&
      (forall i :: 0 <= i < |rs| && Consistent(rs[i]) ==> Consistent(r[i]))
  {
  }

  /** Updating an id that is not in the table changes nothing. */
  lemma UpdateMissingId(rs: seq<Resource>, id: string, change: int)
    requires forall i :: 0 <= i < |rs| ==> rs[i].id != id
    ensures QuantityUpdated(rs, id, change) == rs
  {
  }

  /** The resource `addResource` builds from a draft and a generated id. */
  function FromDraft(d: Draft, id: string): (r: Resource)
    ensures r.id == id && r.name == d.name && r.category == d.category
    ensures r.quantity == d.quantity && r.unit == d.unit && r.location == d.location
    ensures Consistent(r)
  {
    Resource(id, d.name, d.category, d.quantity, d.unit, d.location, Classify(d.quantity))
  }

  /** The Add button is enabled only for a draft with name, unit and location and a positive quantity. */
  predicate CanAdd(d: Draft)
  {
    !(d.name == "" || d.unit == "" || d.location == "" || d.quantity <= 0)
  }

  /** No entry of the table has a negative quantity. */
  predicate NonNegative(rs: seq<Resource>)
  {
    forall i :: 0 <= i < |rs| ==> rs[i].quantity >= 0
  }

  /**
   * A draft the Add button accepts becomes an entry in stock, named, with unit and
   * location, so adding it keeps every quantity of the table non-negative.
   */
  lemma AddKeepsStockNonNegative(rs: seq<Resource>, d: Draft, id: string)
    requires NonNegative(rs) && CanAdd(d)
    ensures var r := FromDraft(d, id);
      r.quantity > 0 && r.name != "" && r.unit != "" && r.location != "" &&
      NonNegative(rs + [r])
  {
    var r := FromDraft(d, id);
    forall i | 0 <= i < |rs + [r]|
      ensures (rs + [r])[i].quantity >= 0
    {
      if i < |rs| {
        assert (rs + [r])[i] == rs[i];
      }
    }
  }

  /** The default draft cannot be added. */
  lemma DefaultDraftCannotBeAdded()
    ensures !CanAdd(DefaultDraft)
  {
  }

  predicate IsAvailable(r: Resource) { r.status == Available }
  predicate IsLow(r: Resource) { r.status == Low }
  predicate IsCritical(r: Resource) { r.status == Critical }

  /** The three badge counts add up to the number of resources. */
  lemma {:induction false} StatusCountsSum(rs: seq<Resource>)
    ensures Count(rs, IsAvailable) + Count(rs, IsLow) + Count(rs, IsCritical) == |rs|
  {
    if rs != [] {
      StatusCountsSum(rs[1..]);
    }
  }

  /** The mock inventory the table starts with. */
  function MockResources(): (rs: seq<Resource>)
    ensures NonNegative(rs)
  {
    [ Resource("res-001", "Bottled Water", Food, 500, "bottles", "Central Warehouse, Mumbai", Available),
      Resource("res-002", "First Aid Kits", Medical, 50, "kits", "Medical Center, Mumbai", Available),
      Resource("res-003", "Blankets", Shelter, 120, "pieces", "Relief Center, Dadar", Available),
      Resource("res-004", "Rice", Food, 200, "kg", "Food Distribution Center, Andheri", Low),
      Resource("res-005", "Medicine - Paracetamol", Medical, 20, "boxes", "Medical Center, Mumbai", Critical),
      Resource("res-006", "Tents", Shelter, 30, "pieces", "Relief Center, Dadar", Low),
      Resource("res-007", "Children's Clothing", Clothing, 100, "sets", "Donation Center, Bandra", Available) ]
  }

  /**
   * The mock statuses are not those the classifier gives: "First Aid Kits" (50) is
   * shown available though 50 classifies as low; one ±10 adjustment reclassifies it.
   */
  lemma MockStatusesDisagree()
    ensures !Consistent(MockResources()[1])
    ensures !Consistent(MockResources()[3]) && !Consistent(MockResources()[5]) && !Consistent(MockResources()[6])
    ensures QuantityUpdated(MockResources(), "res-002", 10)[1].status == Low
  {
  }

  /** The inventory component's state. */
  class Inventory {
    var resources: seq<Resource>
    var newResource: Draft
    var isAddDialogOpen: bool

    /** Quantities are never negative: the mocks are not, adding needs a positive one, updates clamp at zero. */
    predicate Valid()
      reads this
    {
      NonNegative(resources)
    }

    constructor ()
      ensures resources == MockResources() && newResource == DefaultDraft && !isAddDialogOpen
      ensures Valid()
    {
      resources := MockResources();
      newResource := DefaultDraft;
      isAddDialogOpen := false;
    }

    /** A field edit in the dialog replaces the draft. */
    method EditDraft(d: Draft)
      modifies this
      ensures newResource == d && resources == old(resources) && isAddDialogOpen == old(isAddDialogOpen)
    {
      newResource := d;
    }

    /**
     * The dialog's `onOpenChange` (the "Add Resource" trigger opens it, dismissing it
     * closes it) and the Cancel button, which closes it; the draft is kept either way.
     */
    method SetAddDialogOpen(open: bool)
      modifies this
      ensures isAddDialogOpen == open
      ensures resources == old(resources) && newResource == old(newResource)
    {
      isAddDialogOpen := open;
    }

    /**
     * `addResource()`, reachable only through the Add button, which is enabled only for a
     * complete draft: append the draft as a classified resource, reset the draft, close
     * the dialog.
     */
    method AddResource(id: string)
      requires Valid() && CanAdd(newResource)
      modifies this
      ensures resources == old(resources) + [FromDraft(old(newResource), id)]
      ensures newResource == DefaultDraft && !isAddDialogOpen
      ensures Valid()
    {
      AddKeepsStockNonNegative(resources, newResource, id);
      var status := Classify(newResource.quantity);
      var resource := Resource(id, newResource.name, newResource.category, newResource.quantity,
                               newResource.unit, newResource.location, status);
      resources := resources + [resource];
      newResource := DefaultDraft;
      isAddDialogOpen := false;
    }

    /** `updateQuantity(id, change)` */
    method UpdateQuantity(id: string, change: int)
      requires Valid()
      modifies this
      ensures resources == QuantityUpdated(old(resources), id, change)
      ensures newResource == old(newResource) && isAddDialogOpen == old(isAddDialogOpen)
      ensures Valid()
    {
      UpdatePreservesInvariants(resources, id, change);
      resources := QuantityUpdated(resources, id, change);
    }
  }
}
