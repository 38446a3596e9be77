/** The in-memory "database": the seed collections, the id scheme of the two
    mutations (`id = length + 1`) and the invariant it keeps, and the Store object
    whose two collections the mutations push onto in place.
 */
module Database {
  import opened ArrayOps
  import opened Schema

  /** The seed owners, ids 1..4. */
  const SeedOwners: seq<Owner> := [
    Owner(1, "Joey Calamad"),
    Owner(2, "Johnny Basanagol"),
    Owner(3, "Vinny Gabagool"),
    Owner(4, "Bob")
  ]

  /** The seed pets, ids 1..10. */
  const SeedPets: seq<Pet> := [
    Pet(1, "Groucho Barks", 1),
    Pet(2, "Bark Twain", 4),
    Pet(3, "Kanye Westie", 1),
    Pet(4, "Mary Puppins", 2),
    Pet(5, "Jimmy Chew", 4),
    Pet(6, "Snoop Dog", 3),
    Pet(7, "Dogzilla", 3),
    Pet(8, "Pup Tart", 4),
    Pet(9, "Chew-barka", 3),
    Pet(10, "Meatball", 1)
  ]

  /** The invariant of the id scheme: the element at position i has id i + 1. */
  ghost predicate IdsArePositions<T>(s: seq<T>, key: T -> int)
  {
    forall i :: 0 <= i < |s| ==> key(s[i]) == i + 1
  }

  /** Under the invariant ids are unique, and length + 1 is not yet taken. */
  lemma PositionIdsUnique<T>(s: seq<T>, key: T -> int)
    requires IdsArePositions(s, key)
    ensures forall i, j :: 0 <= i < |s| && 0 <= j < |s| && key(s[i]) == key(s[j]) ==> i == j
    ensures forall x :: x in s ==> key(x) != |s| + 1
  {
  }

  /** Pushing an element whose id is length + 1 keeps the invariant. */
  lemma PushKeepsPositions<T>(s: seq<T>, key: T -> int, x: T)
    requires IdsArePositions(s, key) && key(x) == |s| + 1
    ensures IdsArePositions(s + [x], key)
  {
  }

  /** Under the invariant a lookup by id is a lookup by position. */
  lemma FindByPosition<T>(s: seq<T>, key: T -> int, k: int)
    requires IdsArePositions(s, key)
    ensures Find(s, key, k) == if 1 <= k <= |s| then Some(s[k - 1]) else None
  {
    if 1 <= k <= |s| {
      FindIndexIsFirst(s, key, k, k - 1);
    }
  }

  /** `pet(id)` after `addNewPet(name, ownerId)`: the new pet is found by its id and
      every other id is found as before. */
  lemma AddNewPetLookup(pets: seq<Pet>, name: string, ownerId: int)
    requires IdsArePositions(pets, PetKey)
    ensures var p := Pet(|pets| + 1, name, ownerId);
      PetById(pets + [p], Some(p.id)) == Some(p) &&
      forall k :: k != p.id ==> PetById(pets + [p], Some(k)) == PetById(pets, Some(k))
  {
    var p := Pet(|pets| + 1, name, ownerId);
    PushKeepsPositions(pets, PetKey, p);
    FindByPosition(pets + [p], PetKey, p.id);
    forall k | k != p.id
      ensures PetById(pets + [p], Some(k)) == PetById(pets, Some(k))
    {
      FindAppend(pets, [p], PetKey, k);
    }
  }

  /** `Owner.pets` after `addNewPet(name, ownerId)`: each owner's list gains the new pet
      at its end exactly when ownerId is that owner's id, and is otherwise unchanged. */
  lemma AddNewPetOwnerPets(pets: seq<Pet>, name: string, ownerId: int)
    ensures var p := Pet(|pets| + 1, name, ownerId);
      forall o :: OwnerPets(pets + [p], o) == OwnerPets(pets, o) + if o.id == ownerId then [p] else []
  {
    var p := Pet(|pets| + 1, name, ownerId);
    forall o: Owner
      ensures OwnerPets(pets + [p], o) == OwnerPets(pets, o) + if o.id == ownerId then [p] else []
    {
      FilterAppend(pets, [p], PetOwnerKey, o.id);
      assert Filter([p], PetOwnerKey, o.id) == if o.id == ownerId then [p] else [];
    }
  }

  /** `owner(id)` after `addNewOwner(name)`: the new owner is found by its id and every
      other id is found as before. */
  lemma AddNewOwnerLookup(owners: seq<Owner>, name: string)
    requires IdsArePositions(owners, OwnerKey)
    ensures var o := Owner(|owners| + 1, name);
      OwnerById(owners + [o], Some(o.id)) == Some(o) &&
      forall k :: k != o.id ==> OwnerById(owners + [o], Some(k)) == OwnerById(owners, Some(k))
  {
    var o := Owner(|owners| + 1, name);
    PushKeepsPositions(owners, OwnerKey, o);
    FindByPosition(owners + [o], OwnerKey, o.id);
    forall k | k != o.id
      ensures OwnerById(owners + [o], Some(k)) == OwnerById(owners, Some(k))
    {
      FindAppend(owners, [o], OwnerKey, k);
    }
  }

  /** `Pet.owner` after `addNewOwner(name)`: unchanged, except for the pets whose ownerId
      is the new id, which had no owner before and now resolve to the new one. */
  lemma AddNewOwnerPetOwner(owners: seq<Owner>, name: string)
    requires IdsArePositions(owners, OwnerKey)
    ensures var o := Owner(|owners| + 1, name);
      forall p :: PetOwner(owners + [o], p) == if p.ownerId == o.id then Some(o) else PetOwner(owners, p)
  {
    var o := Owner(|owners| + 1, name);
    forall p: Pet
      ensures PetOwner(owners + [o], p) == if p.ownerId == o.id then Some(o) else PetOwner(owners, p)
    {
      FindAppend(owners, [o], OwnerKey, p.ownerId);
      FindByPosition(owners, OwnerKey, p.ownerId);
    }
  }

  /** The store: the two collections, which only ever grow. */
  class Store {
    var owners: seq<Owner>
    var pets: seq<Pet>

    /** Both collections keep the id scheme's invariant. */
    ghost predicate Valid()
      reads this
    {
      IdsArePositions(owners, OwnerKey) && IdsArePositions(pets, PetKey)
    }

    /** A store holding the seed data. */
    constructor ()
      ensures owners == SeedOwners && pets == SeedPets
      ensures Valid()
    {
      owners := SeedOwners;
      pets := SeedPets;
    }

    /** `addNewPet(name, ownerId)`: push a pet with id `pets.length + 1` and return it.
        The ownerId is not checked against the owners. */
    method AddNewPet(name: string, ownerId: int) returns (pet: Pet)
      modifies this
      ensures pet == Pet(|old(pets)| + 1, name, ownerId)
      ensures pets == old(pets) + [pet]
      ensures owners == old(owners)
      ensures old(Valid()) ==> Valid() && forall q :: q in old(pets) ==> q.id != pet.id
    {
      ghost var wasValid := Valid();
      pet := Pet(|pets| + 1, name, ownerId);
      if wasValid {
        PositionIdsUnique(pets, PetKey);
        PushKeepsPositions(pets, PetKey, pet);
      }
      pets := pets + [pet];
    }

    /** `addNewOwner(name)`: push an owner with id `owners.length + 1` and return it. */
    method AddNewOwner(name: string) returns (owner: Owner)
      modifies this
      ensures owner == Owner(|old(owners)| + 1, name)
      ensures owners == old(owners) + [owner]
      ensures pets == old(pets)
      ensures old(Valid()) ==> Valid() && forall q :: q in old(owners) ==> q.id != owner.id
    {
      ghost var wasValid := Valid();
      owner := Owner(|owners| + 1, name);
      if wasValid {
        PositionIdsUnique(owners, OwnerKey);
        PushKeepsPositions(owners, OwnerKey, owner);
      }
      owners := owners + [owner];
    }
  }

  /** The seed satisfies the id scheme's invariant. */
  lemma SeedIdsArePositions()
    ensures IdsArePositions(SeedOwners, OwnerKey) && IdsArePositions(SeedPets, PetKey)
  {
  }

  /** `owner(id: 4) { name pets { name } }` on the seed (a scenario beyond the samples in
      the source): Bob, with Bark Twain, Jimmy Chew and Pup Tart in that order. */
  lemma SeedOwnerFour()
    ensures OwnerById(SeedOwners, Some(4)) == Some(Owner(4, "Bob"))
    ensures OwnerPets(SeedPets, Owner(4, "Bob")) ==
      [Pet(2, "Bark Twain", 4), Pet(5, "Jimmy Chew", 4), Pet(8, "Pup Tart", 4)]
  {
    assert OwnerById(SeedOwners, Some(4)) == Some(Owner(4, "Bob")) by {
      FindByPosition(SeedOwners, OwnerKey, 4);
    }
    SeedFilterOwnerFour();
  }

  /** The filter behind `SeedOwnerFour`, evaluated on the seed pets. */
  lemma SeedFilterOwnerFour()
    ensures Filter(SeedPets, PetOwnerKey, 4) ==
      [Pet(2, "Bark Twain", 4), Pet(5, "Jimmy Chew", 4), Pet(8, "Pup Tart", 4)]
  {
  }

  /** The sample `owner(id: 3) { id name pets { name } }` on the seed: Vinny Gabagool, with
      Snoop Dog, Dogzilla and Chew-barka in that order. */
  lemma SeedOwnerThree()
    ensures OwnerById(SeedOwners, Some(3)) == Some(Owner(3, "Vinny Gabagool"))
    ensures OwnerPets(SeedPets, Owner(3, "Vinny Gabagool")) ==
      [Pet(6, "Snoop Dog", 3), Pet(7, "Dogzilla", 3), Pet(9, "Chew-barka", 3)]
  {
    assert OwnerById(SeedOwners, Some(3)) == Some(Owner(3, "Vinny Gabagool")) by {
      FindByPosition(SeedOwners, OwnerKey, 3);
    }
    SeedFilterOwnerThree();
  }

  /** The filter behind `SeedOwnerThree`, evaluated on the seed pets. */
  lemma SeedFilterOwnerThree()
    ensures Filter(SeedPets, PetOwnerKey, 3) ==
      [Pet(6, "Snoop Dog", 3), Pet(7, "Dogzilla", 3), Pet(9, "Chew-barka", 3)]
  {
  }

  /** Every seed pet has an owner, so `pets { owner { name } }` never yields null on the seed. */
  lemma SeedPetsHaveOwners()
    ensures forall p :: p in SeedPets ==> PetOwner(SeedOwners, p).Some?
  {
    forall p | p in SeedPets
      ensures PetOwner(SeedOwners, p).Some?
    {
      FindByPosition(SeedOwners, OwnerKey, p.ownerId);
    }
  }

  /** The sample queries `pet(id: 1) { id name owner { name } }` and
      `owner(id: 3) { id name pets { name } }` against a fresh store, with two further
      checks: owner 4's pets, and `pet` with the id omitted. */
  method SampleQueries()
  {
    var store := new Store();
    assert OwnerById(store.owners, Some(3)) == Some(Owner(3, "Vinny Gabagool")) &&
      OwnerPets(store.pets, Owner(3, "Vinny Gabagool")) ==
      [Pet(6, "Snoop Dog", 3), Pet(7, "Dogzilla", 3), Pet(9, "Chew-barka", 3)] by { SeedOwnerThree(); }
    assert OwnerPets(store.pets, Owner(4, "Bob")) ==
      [Pet(2, "Bark Twain", 4), Pet(5, "Jimmy Chew", 4), Pet(8, "Pup Tart", 4)] by { SeedOwnerFour(); }

    var first := PetById(store.pets, Some(1));
    assert first == Some(Pet(1, "Groucho Barks", 1)) by { FindByPosition(store.pets, PetKey, 1); }
    assert PetOwner(store.owners, first.value) == Some(Owner(1, "Joey Calamad")) by {
      FindByPosition(store.owners, OwnerKey, 1);
    }
    assert PetById(store.pets, None) == None;
  }

  /** The sample mutations `addNewPet(name: "Lucky", ownerId: 2)` and
      `addNewOwner(name: "This guy")` against a fresh store. Between them a further pet,
      not among the samples, names owner 5 before that owner exists. */
  method SampleMutations()
  {
    var store := new Store();
    var lucky := store.AddNewPet("Lucky", 2);
    assert lucky == Pet(11, "Lucky", 2);
    assert |AllPets(store.pets)| == 11 && store.owners == SeedOwners;
    assert PetById(store.pets, Some(11)) == Some(lucky) by { AddNewPetLookup(SeedPets, "Lucky", 2); }

    // ownerId is not checked: this pet names an owner that does not exist yet
    var stray := store.AddNewPet("Stray", 5);
    assert PetOwner(store.owners, stray) == None by { FindByPosition(store.owners, OwnerKey, 5); }

    var guy := store.AddNewOwner("This guy");
    assert guy == Owner(5, "This guy");
    assert |AllOwners(store.owners)| == 5;
    assert PetOwner(store.owners, stray) == Some(guy) by { AddNewOwnerPetOwner(SeedOwners, "This guy"); }
    assert store.Valid();
  }
}
