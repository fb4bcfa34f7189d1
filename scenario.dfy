/**
 * The registry as the game sets it up: six component types registered in
 * order, four systems with their required signatures, and the skybox and
 * test-light entities flowing through them.
 */
module Scenario {
  import opened Signatures
  import opened Membership
  import opened Ecs

  // Component types, numbered in their order of registration.
  const Transform: ComponentType := 0
  const MeshRenderer: ComponentType := 1
  const PointLight: ComponentType := 2
  const Mesh: ComponentType := 3
  const SkyboxRenderer: ComponentType := 4
  const ChunkData: ComponentType := 5

  // The systems' required signatures: bits ChunkData, Mesh and Transform;
  // Transform, MeshRenderer and Mesh; SkyboxRenderer; PointLight.
  const ChunkUpdateSignature: Signature := 0x29
  const MeshRenderSignature: Signature := 0x0B
  const SkyboxRenderSignature: Signature := 0x10
  const LightRenderSignature: Signature := 0x04

  /** The signatures are the ones the game builds with std::bitset::set. */
  lemma SignaturesAsBuilt()
    ensures ChunkUpdateSignature == With(With(With(Empty, ChunkData), Mesh), Transform)
    ensures MeshRenderSignature == With(With(With(Empty, Transform), MeshRenderer), Mesh)
    ensures SkyboxRenderSignature == With(Empty, SkyboxRenderer)
    ensures LightRenderSignature == With(Empty, PointLight)
  {
  }

  /** The required signatures the game stores. */
  const GameSignatures: SignatureTable := map[
    "ChunkUpdateSystem" := ChunkUpdateSignature,
    "MeshRenderSystem" := MeshRenderSignature,
    "SkyboxRenderSystem" := SkyboxRenderSignature,
    "LightRenderSystem" := LightRenderSignature]

  /** The four systems, freshly registered. */
  const NoEntities: EntitySets := map[
    "ChunkUpdateSystem" := {},
    "MeshRenderSystem" := {},
    "SkyboxRenderSystem" := {},
    "LightRenderSystem" := {}]

  const Skybox: Entity := 0
  const TestLight: Entity := 1

  /** After the skybox entity got its SkyboxRenderer. */
  const WithSkybox: EntitySets := NoEntities["SkyboxRenderSystem" := {Skybox}]

  /** After the test light got its PointLight as well. */
  const WithSkyboxAndLight: EntitySets := WithSkybox["LightRenderSystem" := {TestLight}]

  /** After the skybox entity was destroyed. */
  const WithLight: EntitySets := NoEntities["LightRenderSystem" := {TestLight}]

  /** The skybox, holding only a SkyboxRenderer, joins the skybox renderer alone. */
  lemma SkyboxJoins()
    ensures Resynced(NoEntities, GameSignatures, Skybox, SkyboxRenderSignature) == WithSkybox
  {
    var m := Resynced(NoEntities, GameSignatures, Skybox, SkyboxRenderSignature);
    forall t | t in NoEntities ensures m[t] == WithSkybox[t] {
      assert Matches(SkyboxRenderSignature, Required(GameSignatures, t)) <==> t == "SkyboxRenderSystem";
    }
  }

  /** The test light, holding only a PointLight, joins the light renderer alone. */
  lemma LightJoins()
    ensures Resynced(WithSkybox, GameSignatures, TestLight, LightRenderSignature) == WithSkyboxAndLight
  {
    var m := Resynced(WithSkybox, GameSignatures, TestLight, LightRenderSignature);
    forall t | t in WithSkybox ensures m[t] == WithSkyboxAndLight[t] {
      assert Matches(LightRenderSignature, Required(GameSignatures, t)) <==> t == "LightRenderSystem";
    }
  }

  /** Destroying the skybox leaves the light where it was. */
  lemma SkyboxDestroyed()
    ensures Purged(WithSkyboxAndLight, Skybox) == WithLight
  {
    var m := Purged(WithSkyboxAndLight, Skybox);
    forall t | t in WithSkyboxAndLight ensures m[t] == WithLight[t] {
    }
  }

  /**
   * A system registered without a signature tracks every entity, even one
   * holding no component at all.
   */
  lemma UnsignedSystemScenario()
    ensures Resynced(NoEntities["DebugSystem" := {}], GameSignatures, Skybox, Empty)["DebugSystem"] == {Skybox}
  {
    var m := Resynced(NoEntities["DebugSystem" := {}], GameSignatures, Skybox, Empty);
    assert Skybox in m["DebugSystem"];
  }

  /**
   * A client of the registry's classes: the skybox entity joins the skybox
   * renderer, not the light renderer, and leaves it when destroyed.
   */
  method SkyboxLifecycle() {
    var manager := new SystemManager();
    var skyboxRender := manager.Register("SkyboxRenderSystem");
    manager.SetSignature("SkyboxRenderSystem", SkyboxRenderSignature);
    var lightRender := manager.Register("LightRenderSystem");
    manager.SetSignature("LightRenderSystem", LightRenderSignature);
    assert manager.systems == map["SkyboxRenderSystem" := skyboxRender, "LightRenderSystem" := lightRender];
    assert Required(manager.signatures, "SkyboxRenderSystem") == SkyboxRenderSignature;
    assert Required(manager.signatures, "LightRenderSystem") == LightRenderSignature;

    manager.EntitySignatureChanged(Skybox, SkyboxRenderSignature);
    assert Skybox in manager.EntitySets()["SkyboxRenderSystem"];
    assert Skybox !in manager.EntitySets()["LightRenderSystem"];
    assert Skybox in skyboxRender.entities && Skybox !in lightRender.entities;

    manager.EntityDestroyed(Skybox);
    assert Skybox !in manager.EntitySets()["SkyboxRenderSystem"];
    assert Skybox !in skyboxRender.entities;
  }
}
