/**
 * The system registry of the entity-component-system: every System owns
 * the set of entities it tracks, and the SystemManager keeps, by system
 * type name, the system instances and their required signatures.
 */
module Ecs {
  import opened Signatures
  import opened Membership

  /** A system: the set of entities it currently operates on. */
  class System {
    var entities: set<Entity>

    /** A new system tracks no entity. */
    constructor ()
      ensures entities == {}
    {
      entities := {};
    }

    /** Start tracking `e`; a set holds it at most once. */
    method AddEntity(e: Entity)
      modifies this
      ensures entities == old(entities) + {e}
      ensures e in old(entities) ==> entities == old(entities)
    {
      entities := entities + {e};
    }

    /** Stop tracking `e`; nothing happens when it was not tracked. */
    method RemoveEntity(e: Entity)
      modifies this
      ensures entities == old(entities) - {e}
      ensures e !in old(entities) ==> entities == old(entities)
    {
      entities := entities - {e};
    }
  }

  class SystemManager {
    /** The registered system instances, by type name. */
    var systems: map<TypeName, System>
    /** The required signatures that have been stored, by type name. */
    var signatures: map<TypeName, Signature>

    /** Each type name has a system instance of its own. */
    ghost predicate Valid()
      reads this`systems
    {
      Distinct(systems)
    }

    /** The entity set of every registered system. */
    ghost function EntitySets(): EntitySets
      reads this`systems, systems.Values
    {
      map t | t in systems :: systems[t].entities
    }

    constructor ()
      ensures Valid() && systems == map[] && signatures == map[]
    {
      systems := map[];
      signatures := map[];
    }

    /**
     * Set-up of the model's state: register a fresh system under `t`.
     * (The engine does this in a template of its header.)
     */
    method Register(t: TypeName) returns (s: System)
      requires Valid() && t !in systems
      modifies this
      ensures Valid() && fresh(s) && s.entities == {}
      ensures systems == old(systems)[t := s] && signatures == old(signatures)
    {
      s := new System();
      systems := systems[t := s];
    }

    /**
     * Set-up of the model's state: store the required signature of `t`.
     * (The engine does this in a template of its header.)
     */
    method SetSignature(t: TypeName, sig: Signature)
      modifies this`signatures
      ensures signatures == old(signatures)[t := sig]
    {
      signatures := signatures[t := sig];
    }

    /**
     * `m_signatures[t]`: the stored signature of `t`, after inserting an
     * all-zero one when none was stored.
     */
    method LookupSignature(t: TypeName) returns (required: Signature)
      modifies this`signatures
      ensures required == Required(old(signatures), t)
      ensures signatures == Defaulted(old(signatures), {t})
    {
      if t !in signatures {
        signatures := signatures[t := Empty];
      }
      required := signatures[t];
    }

    /** Remove a destroyed entity from every system. */
    method EntityDestroyed(e: Entity)
      requires Valid()
      modifies systems.Values
      ensures unchanged(this) && Valid()
      ensures EntitySets() == Purged(old(EntitySets()), e)
    {
      ghost var before := EntitySets();
      var pending := systems.Keys;
      while pending != {}
        invariant pending <= systems.Keys
        invariant forall t :: t in systems && t !in pending ==> systems[t].entities == before[t] - {e}
        invariant forall t :: t in pending ==> systems[t].entities == before[t]
        decreases pending
      {
        var t :| t in pending;
        systems[t].RemoveEntity(e);
        pending := pending - {t};
      }
      assert EntitySets() == Purged(before, e);
    }

    /**
     * Rescan every system for `e`, whose signature is now `sig`: a system
     * tracks `e` afterwards iff `sig` matches its required signature.
     * Looking up the signature of a system that has none stored inserts an
     * all-zero one.
     */
    method EntitySignatureChanged(e: Entity, sig: Signature)
      requires Valid()
      modifies this`signatures, systems.Values
      ensures systems == old(systems) && Valid()
      ensures signatures == Defaulted(old(signatures), systems.Keys)
      ensures EntitySets() == Resynced(old(EntitySets()), old(signatures), e, sig)
    {
      ghost var before := EntitySets();
      ghost var sigs := signatures;
      var registered := systems;
      var pending := registered.Keys;
      while pending != {}
        invariant Rescanning(registered, pending, sigs, before, e, sig)
        decreases pending
      {
        var t :| t in pending;
        RescanOne(registered, pending, t, sigs, before, e, sig);
        pending := pending - {t};
      }
      assert signatures == Defaulted(sigs, systems.Keys);
      assert EntitySets() == Resynced(before, sigs, e, sig);
    }

    /**
     * How far a rescan for `e` has got: the systems not `pending` any more
     * track `e` iff `sig` matches, the pending ones are as they were
     * (`before`), and the signature table has had the lookups of the
     * systems done so far.
     */
    ghost predicate Rescanning(registered: map<TypeName, System>, pending: set<TypeName>,
                               sigs: SignatureTable, before: EntitySets, e: Entity, sig: Signature)
      reads this`signatures, registered.Values
    {
      && Distinct(registered)
      && pending <= registered.Keys && before.Keys == registered.Keys
      && signatures.Keys == sigs.Keys + (registered.Keys - pending)
      && (forall t :: t in signatures ==> signatures[t] == Required(sigs, t))
      && (forall t :: t in registered && t !in pending ==>
            registered[t].entities == Rescanned(before[t], e, Matches(sig, Required(sigs, t))))
      && (forall t :: t in pending ==> registered[t].entities == before[t])
    }

    /** The body of the rescan loop, for the system registered under `t`. */
    method RescanOne(registered: map<TypeName, System>, pending: set<TypeName>, t: TypeName,
                     ghost sigs: SignatureTable, ghost before: EntitySets, e: Entity, sig: Signature)
      requires t in pending && Rescanning(registered, pending, sigs, before, e, sig)
      modifies this`signatures, registered[t]
      ensures Rescanning(registered, pending - {t}, sigs, before, e, sig)
    {
      var required := LookupSignature(t);
      var system := registered[t];
      if Matches(sig, required) {
        system.AddEntity(e);
      } else {
        system.RemoveEntity(e);
      }
    }
  }

  /** No two type names share a system instance. */
  ghost predicate Distinct(systems: map<TypeName, System>) {
    forall t, u :: t in systems && u in systems && t != u ==> systems[t] != systems[u]
  }
}
