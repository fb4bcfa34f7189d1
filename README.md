# cubz ECS system registry, modelled in Dafny

The cubz engine keeps an entity-component-system (ECS). Each *system* (mesh
rendering, skybox rendering, lighting, chunk updates) owns the set of
entities it works on. The `SystemManager` keeps two maps keyed by a system's
type name: the system instances and each system's *required signature*, a
bitset of the component types the system needs. Two bulk operations keep the
systems' entity sets in step with the entities:

- when an entity is destroyed, it is removed from every system;
- when an entity's signature changes, every registered system is rescanned:
  the entity is put into a system iff `(entitySignature & systemSignature) ==
  systemSignature`, and taken out otherwise.

The model has four modules:

- `Signatures` (signature.dfy): the signature as a 32-bit vector, the match
  test, and the proof that the bitmask test is set inclusion of component
  types.
- `Membership` (membership.dfy): the registry seen as values — a map from
  type name to entity set, and a map from type name to stored signature —
  with the two bulk operations as functions (`Purged`, `Resynced`), the
  lookup side effect of `std::map::operator[]` (`Defaulted`), and lemmas:
  idempotence, the subset reading of a match, the all-zero signature, and
  preservation of the registry invariant "a system tracks exactly the live
  entities whose signature holds every component type it requires".
- `Ecs` (system_manager.dfy): the classes `System` (a mutable entity set)
  and `SystemManager` (the two maps, with `System` objects as values). Their
  methods change state in place, and their postconditions tie the new state
  to the functions of `Membership`. The loops run over the registered
  type names with invariants that split processed from pending systems.
- `Scenario` (scenario.dfy): the systems and signatures the game sets up in
  `cubz-game/main.cpp`, with the skybox and test-light entities flowing
  through them, on values and through the classes (`SkyboxLifecycle`).

One detail of the code is kept on purpose. The rescan reads a system's
signature with `m_signatures[typeName]`. For a system that never had a
signature stored, `std::map::operator[]` inserts a zero signature and
returns it, so that system matches every entity. `EntitySignatureChanged`
therefore also changes the signature table. Its postcondition says how
(`Defaulted`), and `Defaulted` is proved to change no later lookup.

## Model

| member | source | states |
|---|---|---|
| Ecs.System.constructor | cubz-engine/ecs/SystemManager.cpp:4 | a new system tracks no entity |
| Ecs.System.AddEntity | cubz-engine/ecs/SystemManager.cpp:6-8 | afterwards the entity is tracked, every other entity is tracked as before, and adding an entity already there changes nothing |
| Ecs.System.RemoveEntity | cubz-engine/ecs/SystemManager.cpp:10-12 | afterwards the entity is not tracked, every other entity is tracked as before, and removing an absent entity changes nothing |
| Ecs.SystemManager.EntityDestroyed | cubz-engine/ecs/SystemManager.cpp:14-18 | the manager's maps are unchanged and every system's set becomes `Purged` of the old sets: the entity leaves every system and nothing else changes |
| Ecs.SystemManager.EntitySignatureChanged | cubz-engine/ecs/SystemManager.cpp:20-31 | the set of systems is unchanged, the signature table gains an all-zero entry for each system that had none, and the entity sets become `Resynced` of the old ones |
| Ecs.SystemManager.LookupSignature | cubz-engine/ecs/SystemManager.cpp:22 | `m_signatures[t]` yields the stored signature or an all-zero one, and inserts the latter when the key was missing |
| Ecs.SystemManager.RescanOne | cubz-engine/ecs/SystemManager.cpp:22-29 | one pass of the rescan loop moves one system from pending to done, keeping the loop's invariant |
| Membership.Defaulted | cubz-engine/ecs/SystemManager.cpp:22 | lookups insert the missing keys with an all-zero signature, keep every stored one, and change the value of no later lookup |
| Membership.Purged | cubz-engine/ecs/SystemManager.cpp:14-18 | the same systems; the entity is in none of them; every other entity's membership is unchanged |
| Membership.Resynced | cubz-engine/ecs/SystemManager.cpp:20-31 | the same systems; each tracks the entity iff the new signature matches the system's required signature; every other entity's membership is unchanged |
| Membership.ResyncedIffSubset | cubz-engine/ecs/SystemManager.cpp:25 | after a rescan a system tracks the entity iff every component type the system requires is set in the entity's signature |
| Membership.UnsignedSystemTracksAll | cubz-engine/ecs/SystemManager.cpp:22-26 | a system with an all-zero signature, or none stored, receives every entity on a rescan |
| Membership.ResyncIdempotent | cubz-engine/ecs/SystemManager.cpp:20-31 | a second rescan with the same signature, against the table the first one left, leaves every set as the first left it |
| Membership.PurgeIdempotent | cubz-engine/ecs/SystemManager.cpp:14-18 | removing a destroyed entity a second time changes nothing |
| Membership.ResyncKeepsSynced | cubz-engine/ecs/SystemManager.cpp:20-31 | if every system tracked exactly the matching live entities, it does so again after an entity's signature changes and it is rescanned |
| Membership.PurgeKeepsSynced | cubz-engine/ecs/SystemManager.cpp:14-18 | that invariant also survives destroying an entity and removing it from every system |
| Signatures.MatchesIffSubset | cubz-engine/ecs/SystemManager.cpp:25 | `(e & s) == s` holds iff the bits of `s` are a subset of the bits of `e` |
| Signatures.EmptyMatchesAll | cubz-engine/ecs/SystemManager.cpp:22-26 | the all-zero signature matches every entity signature |
| Signatures.With | cubz-game/main.cpp:34-37 | setting a component type's bit adds exactly that type to the signature's bits |
| Scenario.SignaturesAsBuilt | cubz-game/main.cpp:33-66 | the four required signatures of the game are the bitsets it builds with `set` |
| Scenario.SkyboxJoins | cubz-game/main.cpp:49-70 | the skybox entity, holding only a `SkyboxRenderer`, joins the skybox renderer and no other system |
| Scenario.LightJoins | cubz-game/main.cpp:63-95 | the test light, holding only a `PointLight`, joins the light renderer and no other system |
| Scenario.SkyboxDestroyed | cubz-engine/ecs/SystemManager.cpp:14-18 | destroying the skybox empties the skybox renderer and leaves the light in the light renderer |
| Scenario.UnsignedSystemScenario | cubz-engine/ecs/SystemManager.cpp:22-26 | a system registered without a signature receives an entity holding no component at all |

## Left out

- Entity allocation, component storage and the `EntityComponentSystem` facade: their sources are not part of this model. The registry invariant is therefore stated against a map of live entity signatures given as a parameter (`Membership.Synced`).
- `registerSystem` and `setSignature` live in templates of `SystemManager.h`, which is not part of this model. `Ecs.SystemManager.Register` and `Ecs.SystemManager.SetSignature` only set up the model's state; they do not mirror the engine's code.
- The `m_ecs` back-pointer stored by the `System` constructor: it plays no part in membership.
- `std::shared_ptr` ownership: a system is an object reference here. `Ecs.SystemManager.Valid` requires that no two type names share a system object, as registering a fresh instance per type gives.
- Iteration order of `std::map`: the loops take the pending type names in any order. Each step touches a different system, so the result does not depend on the order.
- The width of the bitset and of entity identities are defined in headers that are not part of this model. Signatures are 32 bits (`bv32`, component types `bv5`) and entities are unbounded naturals.
- Type names are strings; the engine's key type is not shown.
- Rendering, windowing, shaders, camera math and text (`main.cpp`, `graphics/`, `core/ui/`): out of scope; `cubz-game/main.cpp` is used only for the scenario.
- The component-type numbers in `Scenario` assume types are numbered from 0 in registration order; the component registry is not part of this model.
- Structural changes made while a system iterates its own entity set: concurrency and reentrancy are not modelled.
