/**
 * The value-level view of the system registry: for each registered system
 * (keyed by its type name) the set of entities it currently tracks, and
 * the table of required signatures. The two bulk operations of the
 * registry are specified here as functions on that view; the classes in
 * module Ecs are proved to implement them.
 */
module Membership {
  import opened Signatures

  /** The key under which a system type is registered. */
  type TypeName = string

  /** An entity identity. */
  type Entity = nat

  /** Each registered system's tracked entity set. */
  type EntitySets = map<TypeName, set<Entity>>

  /** Each system's required signature, where one has been stored. */
  type SignatureTable = map<TypeName, Signature>

  /**
   * The signature a lookup `m_signatures[t]` yields: the stored one, or a
   * value-initialised (all-zero) signature when none was ever stored.
   */
  function Required(sigs: SignatureTable, t: TypeName): Signature {
    if t in sigs then sigs[t] else Empty
  }

  /**
   * The signature table after a lookup `m_signatures[t]` for every `t` in
   * `keys`: missing keys are inserted, and no lookup yields anything other
   * than what it yielded before the insertions.
   */
  function Defaulted(sigs: SignatureTable, keys: set<TypeName>): (r: SignatureTable)
    ensures r.Keys == sigs.Keys + keys
    ensures forall t :: t in sigs ==> r[t] == sigs[t]
    ensures forall t :: t in keys && t !in sigs ==> r[t] == Empty
    ensures forall t :: Required(r, t) == Required(sigs, t)
  {
    map t | t in sigs.Keys + keys :: Required(sigs, t)
  }

  /** A system's entity set after it was told whether it tracks `e`. */
  function Rescanned(s: set<Entity>, e: Entity, tracks: bool): set<Entity> {
    if tracks then s + {e} else s - {e}
  }

  /** The entity sets after `e` was removed from every system. */
  function Purged(m: EntitySets, e: Entity): (r: EntitySets)
    ensures r.Keys == m.Keys
    ensures forall t :: t in r ==> e !in r[t]
    ensures forall t, x :: t in r && x != e ==> (x in r[t] <==> x in m[t])
  {
    map t | t in m :: m[t] - {e}
  }

  /**
   * The entity sets after every system was rescanned for `e`, whose
   * signature is now `sig`: each system tracks `e` iff `sig` matches its
   * required signature, and tracks every other entity as before.
   */
  function Resynced(m: EntitySets, sigs: SignatureTable, e: Entity, sig: Signature): (r: EntitySets)
    ensures r.Keys == m.Keys
    ensures forall t :: t in r ==> (e in r[t] <==> Matches(sig, Required(sigs, t)))
    ensures forall t, x :: t in r && x != e ==> (x in r[t] <==> x in m[t])
  {
    map t | t in m :: Rescanned(m[t], e, Matches(sig, Required(sigs, t)))
  }

  /**
   * The registry's invariant against the entities' current signatures
   * `live`: a system tracks exactly the live entities whose signature
   * holds every component type the system requires.
   */
  ghost predicate Synced(m: EntitySets, sigs: SignatureTable, live: map<Entity, Signature>) {
    forall t, x :: t in m ==>
      (x in m[t] <==> x in live && Bits(Required(sigs, t)) <= Bits(live[x]))
  }

  /** After a rescan, a system tracks `e` iff it requires no component `e` lacks. */
  lemma ResyncedIffSubset(m: EntitySets, sigs: SignatureTable, e: Entity, sig: Signature, t: TypeName)
    requires t in m
    ensures e in Resynced(m, sigs, e, sig)[t] <==> Bits(Required(sigs, t)) <= Bits(sig)
  {
    MatchesIffSubset(sig, Required(sigs, t));
  }

  /**
   * A system whose required signature is all-zero, or that never had a
   * signature stored, requires nothing, so a rescan puts every entity
   * into it.
   */
  lemma UnsignedSystemTracksAll(m: EntitySets, sigs: SignatureTable, e: Entity, sig: Signature, t: TypeName)
    requires t in m && (t !in sigs || sigs[t] == Empty)
    ensures e in Resynced(m, sigs, e, sig)[t]
  {
    EmptyMatchesAll(sig);
  }

  /**
   * Rescanning twice with the same signature, against the table as the
   * first rescan left it, changes nothing further.
   */
  lemma ResyncIdempotent(m: EntitySets, sigs: SignatureTable, e: Entity, sig: Signature)
    ensures Resynced(Resynced(m, sigs, e, sig), Defaulted(sigs, m.Keys), e, sig)
         == Resynced(m, sigs, e, sig)
  {
    var once := Resynced(m, sigs, e, sig);
    var twice := Resynced(once, Defaulted(sigs, m.Keys), e, sig);
    forall t | t in once ensures twice[t] == once[t] {
      assert Required(Defaulted(sigs, m.Keys), t) == Required(sigs, t);
    }
  }

  /** Removing a destroyed entity a second time changes nothing further. */
  lemma PurgeIdempotent(m: EntitySets, e: Entity)
    ensures Purged(Purged(m, e), e) == Purged(m, e)
  {
    var once := Purged(m, e);
    forall t | t in once ensures Purged(once, e)[t] == once[t] {
    }
  }

  /**
   * A rescan after `e`'s signature changed to `sig` restores the
   * registry's invariant for the updated signatures.
   */
  lemma ResyncKeepsSynced(m: EntitySets, sigs: SignatureTable, live: map<Entity, Signature>, e: Entity, sig: Signature)
    requires Synced(m, sigs, live)
    ensures Synced(Resynced(m, sigs, e, sig), Defaulted(sigs, m.Keys), live[e := sig])
  {
    var r := Resynced(m, sigs, e, sig);
    var sigs' := Defaulted(sigs, m.Keys);
    var live' := live[e := sig];
    forall t, x | t in r
      ensures x in r[t] <==> x in live' && Bits(Required(sigs', t)) <= Bits(live'[x])
    {
      if x == e {
        MatchesIffSubset(sig, Required(sigs, t));
      }
    }
  }

  /** Removing a destroyed entity from every system keeps the invariant. */
  lemma PurgeKeepsSynced(m: EntitySets, sigs: SignatureTable, live: map<Entity, Signature>, e: Entity)
    requires Synced(m, sigs, live)
    ensures Synced(Purged(m, e), sigs, live - {e})
  {
  }
}
