/** The two entity types of the schema and the resolvers bound to their fields and
    to the root query fields. Every resolver is a pure function of the parent value,
    the arguments and the collections it reads; the collections are passed in
    explicitly rather than read from module-level variables.
 */
module Schema {
  import opened ArrayOps

  /** An owner record: `{ id, name }`. */
  datatype Owner = Owner(id: int, name: string)

  /** A pet record: `{ id, name, ownerId }`; ownerId refers to an owner's id, unchecked. */
  datatype Pet = Pet(id: int, name: string, ownerId: int)

  /** The keys the resolvers compare on. */
  function OwnerKey(o: Owner): int { o.id }
  function PetKey(p: Pet): int { p.id }
  function PetOwnerKey(p: Pet): int { p.ownerId }

  /** `Pet.owner`: the first owner whose id is the pet's ownerId, absent when there is none. */
  function PetOwner(owners: seq<Owner>, pet: Pet): (r: Option<Owner>)
    ensures r.Some? ==> r.value.id == pet.ownerId && r.value in owners
    ensures r.Some? ==> exists i :: 0 <= i < |owners| && owners[i] == r.value && forall j :: 0 <= j < i ==> owners[j].id != pet.ownerId
    ensures r.None? <==> forall o :: o in owners ==> o.id != pet.ownerId
  {
    Find(owners, OwnerKey, pet.ownerId)
  }

  /** `Owner.pets`: exactly the pets whose ownerId is the owner's id, in collection order. */
  function OwnerPets(pets: seq<Pet>, owner: Owner): (r: seq<Pet>)
    ensures forall p :: p in r <==> p in pets && p.ownerId == owner.id
    ensures forall p :: multiset(r)[p] == if p.ownerId == owner.id then multiset(pets)[p] else 0
    ensures IsSubsequence(r, pets)
  {
    FilterMembers(pets, PetOwnerKey, owner.id);
    FilterCounts(pets, PetOwnerKey, owner.id);
    FilterIsSubsequence(pets, PetOwnerKey, owner.id);
    Filter(pets, PetOwnerKey, owner.id)
  }

  /** Root `pet(id)`: the first pet with that id. The argument is a nullable integer;
      when it is omitted or null no pet's id is strictly equal to it. */
  function PetById(pets: seq<Pet>, id: Option<int>): (r: Option<Pet>)
    ensures id.None? ==> r.None?
    ensures r.Some? ==> id == Some(r.value.id) && r.value in pets
    ensures r.Some? ==> exists i :: 0 <= i < |pets| && pets[i] == r.value && forall j :: 0 <= j < i ==> pets[j].id != r.value.id
    ensures id.Some? ==> (r.None? <==> forall p :: p in pets ==> p.id != id.value)
  {
    match id
    case None => None
    case Some(k) => Find(pets, PetKey, k)
  }

  /** Root `owner(id)`: the first owner with that id; a missing or null id finds nothing. */
  function OwnerById(owners: seq<Owner>, id: Option<int>): (r: Option<Owner>)
    ensures id.None? ==> r.None?
    ensures r.Some? ==> id == Some(r.value.id) && r.value in owners
    ensures r.Some? ==> exists i :: 0 <= i < |owners| && owners[i] == r.value && forall j :: 0 <= j < i ==> owners[j].id != r.value.id
    ensures id.Some? ==> (r.None? <==> forall o :: o in owners ==> o.id != id.value)
  {
    match id
    case None => None
    case Some(k) => Find(owners, OwnerKey, k)
  }

  /** Root `pets()` and `owners()`: the whole collection, as stored. */
  function AllPets(pets: seq<Pet>): seq<Pet> { pets }
  function AllOwners(owners: seq<Owner>): seq<Owner> { owners }

  /** The two relationship resolvers are inverse to each other when owner ids are
      unique: a pet is among an owner's pets exactly when that owner is the pet's owner. */
  lemma RelationshipsAgree(owners: seq<Owner>, pets: seq<Pet>, o: Owner, p: Pet)
    requires forall i, j :: 0 <= i < j < |owners| ==> owners[i].id != owners[j].id
    requires o in owners && p in pets
    ensures p in OwnerPets(pets, o) <==> PetOwner(owners, p) == Some(o)
  {
  }
}
