# Owners and pets: a model of the GraphQL server's store and resolvers

The server keeps two in-memory collections, `owners` (`{id, name}`) and `pets`
(`{id, name, ownerId}`). It exposes them through GraphQL resolvers:

- `Pet.owner` is a first-match `find` over the owners by id.
- `Owner.pets` is an order-preserving `filter` of the pets by `ownerId`.
- The root queries `pet(id)`, `pets`, `owner(id)` and `owners`.
- The two mutations `addNewPet(name, ownerId)` and `addNewOwner(name)`. Each builds a record with
  `id = collection.length + 1` and pushes it onto its collection in place.

The model has three modules:

- `ArrayOps` (`array_ops.dfy`) models `Array.prototype.find` and `Array.prototype.filter`. They are
  specialised to the one callback shape the resolvers use: "field strictly equal to a value". The
  field is passed as a key function, so one definition serves both collections.
- `Schema` (`schema.dfy`) defines the records `Owner` and `Pet` as datatypes and the read resolvers
  as pure functions over `seq`. Each resolver takes the collection it reads as a parameter instead of
  reading a module-level variable. `pets()` and `owners()` are `AllPets` and `AllOwners`, which
  return the collection as it is stored.
- `Database` (`database.dfy`) holds the seed data and the invariant of the id scheme. Its `Store`
  class has the two collections as `seq` fields. `AddNewPet` and `AddNewOwner` are methods that
  reassign those fields (`modifies this`) and return the new record. The module also has lemmas
  about what each mutation does to later reads, and two sample sessions built on the sample
  operations listed at the end of `server.js`, with a few further scenarios of their own.

The invariant is `IdsArePositions`: the record at position i has id i + 1. The seed satisfies it.
Both mutations keep it, because `length + 1` is exactly the next position. Under it, ids are unique,
every new id is fresh, and a lookup by id is a lookup by position.

Reads are functions of the collections handed to them. They have no access to the store object,
so they cannot change either collection. Called twice on the same collections, they return the
same result. This covers "reads do not modify" and "repeated reads agree" by construction.

Two points follow the code closely:

- `Pet.owner` returns the first owner with the pet's ownerId in collection order, not "the unique"
  one, and so does `PetOwner`. `RelationshipsAgree` shows that the two readings agree
  whenever owner ids are unique.
- `pet(id)` and `owner(id)` take a nullable `GraphQLInt` (`server.js:75`, `server.js:88`), not a
  required one. An omitted or null id is never strictly equal to a number, so the result is absent.
  The model takes `Option<int>`, and `None` gives `None`.

## Model

| member | source | states |
|---|---|---|
| ArrayOps.FindIndex | server.js:41 | the index found holds a match and every earlier element does not match; there is no index exactly when no element matches |
| ArrayOps.Find | server.js:41 | `find` returns a matching element of the collection, one with no match before it; it returns absent exactly when no element matches |
| ArrayOps.FindIndexIsFirst | server.js:41 | an index whose element matches and follows only non-matches is the one `find` stops at |
| ArrayOps.FindAppend | server.js:41 | `find` on `a + b` gives the match in `a` when there is one, and otherwise the result of `find` on `b` |
| ArrayOps.FilterMembers | server.js:57 | a value is in the filtered list exactly when it is in the collection and matches; the list is no longer than the collection |
| ArrayOps.FilterCounts | server.js:57 | every matching value occurs in the filtered list exactly as often as in the collection, and no other value occurs |
| ArrayOps.FilterIsSubsequence | server.js:57 | the filtered list keeps the collection's relative order |
| ArrayOps.FilterAppend | server.js:57 | filtering `a + b` is filtering `a` followed by filtering `b` |
| Schema.PetOwner | server.js:38-43 | `Pet.owner` returns an owner from `owners` whose id is the pet's ownerId, the first such owner in collection order; the result is absent exactly when no owner has that id |
| Schema.OwnerPets | server.js:54-59 | `Owner.pets` contains exactly the pets whose ownerId is the owner's id, each as often as in `pets`, in the order of `pets` |
| Schema.PetById | server.js:71-78 | `pet(id)` returns the first pet with that id, or absent when none has it; a missing id gives absent; any pet returned has the requested id |
| Schema.OwnerById | server.js:84-91 | `owner(id)` returns the first owner with that id, or absent when none has it; a missing id gives absent; any owner returned has the requested id |
| Schema.AllPets | server.js:79-83 | `pets()` returns the whole pets collection as stored; it is the identity, so it has no contract beyond its body |
| Schema.AllOwners | server.js:92-96 | `owners()` returns the whole owners collection as stored; it is the identity, so it has no contract beyond its body |
| Schema.RelationshipsAgree | server.js:40-58 | when owner ids are unique, a pet is in `owner.pets` exactly when `pet.owner` is that owner |
| Database.PositionIdsUnique | server.js:114 | under the id invariant no two records share an id, and `length + 1` is not yet taken |
| Database.PushKeepsPositions | server.js:113-118 | pushing a record whose id is `length + 1` keeps the id invariant |
| Database.FindByPosition | server.js:77 | under the id invariant, finding id k gives the record at position k - 1 when 1 <= k <= length, and absent otherwise |
| Database.AddNewPetLookup | server.js:112-120 | after `addNewPet`, `pet(newId)` returns the new pet and every other id resolves as before |
| Database.AddNewPetOwnerPets | server.js:112-120 | after `addNewPet`, each owner's `pets` gains the new pet at its end exactly when ownerId is that owner's id, and is otherwise unchanged; ownerId is not checked against the owners |
| Database.AddNewOwnerLookup | server.js:128-135 | after `addNewOwner`, `owner(newId)` returns the new owner and every other id resolves as before |
| Database.AddNewOwnerPetOwner | server.js:128-135 | after `addNewOwner`, `Pet.owner` is unchanged except for pets whose ownerId is the new id, which had no owner before and now resolve to the new one |
| Database.Store.constructor | server.js:9-26 | the store starts with the seed collections, which satisfy the id invariant |
| Database.Store.AddNewPet | server.js:112-120 | returns `{id: old length + 1, name, ownerId}`; `pets` becomes the old pets plus that pet; `owners` is untouched; ownerId is not checked; the invariant is kept and the new id differs from every earlier pet's id |
| Database.Store.AddNewOwner | server.js:128-135 | returns `{id: old length + 1, name}`; `owners` becomes the old owners plus that owner; `pets` is untouched; the invariant is kept and the new id differs from every earlier owner's id |
| Database.SeedIdsArePositions | server.js:9-26 | both seed collections satisfy the id invariant |
| Database.SeedOwnerThree | server.js:211-219 | the sample `owner(id: 3) { id name pets { name } }` on the seed gives Vinny Gabagool with Snoop Dog, Dogzilla and Chew-barka (ids 6, 7, 9), in that order |
| Database.SeedFilterOwnerThree | server.js:15-26 | filtering the seed pets by ownerId 3 gives pets 6, 7 and 9 in that order |
| Database.SeedOwnerFour | server.js:13-23 | a scenario beyond the samples: on the seed, `owner(id: 4)` is Bob, and Bob's pets are Bark Twain, Jimmy Chew and Pup Tart (ids 2, 5, 8), in that order |
| Database.SeedFilterOwnerFour | server.js:15-26 | filtering the seed pets by ownerId 4 gives pets 2, 5 and 8 in that order |
| Database.SeedPetsHaveOwners | server.js:9-26 | every seed pet's owner exists, so on the seed `Pet.owner` is never absent |

`Database.SampleQueries` and `Database.SampleMutations` are client methods with no contract of
their own. They check these sample operations of `server.js:167-249` against the contracts above:

- `pet(id: 1) { id name owner { name } }` gives Groucho Barks, owned by Joey Calamad.
- `owner(id: 3) { id name pets { name } }` gives Vinny Gabagool with Snoop Dog, Dogzilla and
  Chew-barka, in that order.
- `addNewPet(name: "Lucky", ownerId: 2)` returns id 11.
- `addNewOwner(name: "This guy")` returns id 5, after which there are five owners.

They also check three scenarios that are not among those samples:

- Owner 4's pets are Bark Twain, Jimmy Chew and Pup Tart, in that order.
- `pet` with the id omitted finds nothing.
- A pet added with ownerId 5 before that owner exists has no owner at first. It resolves to
  "This guy" once owner 5 is added.

## Left out

- The Express app, the `graphqlHTTP` middleware, GraphiQL and the listener on port 8080
  (`server.js:1-5`, `server.js:149-157`): transport and I/O.
- The `GraphQLObjectType` and `GraphQLSchema` descriptors (`server.js:31-37`, `server.js:48-53`,
  `server.js:67-74`, `server.js:101-111`, `server.js:143-146`). They are inputs to the `graphql`
  library, which is not part of this model. The same holds for query execution: walking the
  selection tree, null propagation, unknown-field errors and type checking of arguments. The
  mutation arguments are taken as already-validated values: a `string` name and an `int` ownerId.
- The 32-bit range of `GraphQLInt`. The library checks it on arguments and on results. The model
  uses unbounded `int`, so an id beyond 2^31 - 1 is not rejected here.
- Object identity. The resolver returns the same object it pushes, and `pets()`/`owners()` return
  the arrays themselves. No record is ever changed after creation, so the model treats records and
  collections as values.
- Concurrency and atomicity of `length + 1`: the server runs one resolver at a time.
- The weakness of the `length + 1` scheme under deletion or out-of-order inserts. The code has
  neither, so it never arises. The model shows freshness of new ids under the invariant, and the
  invariant holds for every reachable store.
