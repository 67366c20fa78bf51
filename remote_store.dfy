/**
 * The device's configuration API as the CRUD callbacks use it (`client.CreateVlan`,
 * `client.ReadVRF`, ...): one store of objects per kind, addressed by the resource's
 * path key. Which requests the device refuses is not known in advance; the `refused`
 * set stands for it, so every call may fail.
 */
module RemoteStore {
  import opened Common

  class Store<K(==), V> {
    /** The objects the device currently holds, by path. */
    var objects: map<K, V>
    /** The paths on which the device answers with an error. */
    var refused: set<K>

    constructor (objects: map<K, V>, refused: set<K>)
      ensures this.objects == objects && this.refused == refused
    {
      this.objects := objects;
      this.refused := refused;
    }

    /** The device would answer a read of `k` with an object. */
    predicate Serves(k: K)
      reads this
    {
      k in objects && k !in refused
    }

    /** Create: the object replaces whatever is at `k`, unless the device refuses. */
    method Create(k: K, v: V) returns (ok: bool)
      modifies this
      ensures ok <==> k !in refused
      ensures refused == old(refused)
      ensures objects == if ok then old(objects)[k := v] else old(objects)
    {
      ok := k !in refused;
      if ok {
        objects := objects[k := v];
      }
    }

    /** Update: a full replace of the object at `k`, unless the device refuses. */
    method Update(k: K, v: V) returns (ok: bool)
      modifies this
      ensures ok <==> k !in refused
      ensures refused == old(refused)
      ensures objects == if ok then old(objects)[k := v] else old(objects)
    {
      ok := k !in refused;
      if ok {
        objects := objects[k := v];
      }
    }

    /** Read: the stored object, or an error when it is missing or the device refuses. */
    method Read(k: K) returns (r: Option<V>)
      ensures r.Some? <==> Serves(k)
      ensures r.Some? ==> r.value == objects[k]
    {
      if k in objects && k !in refused {
        r := Some(objects[k]);
      } else {
        r := None;
      }
    }

    /** Delete: removes the object; a missing object or a refusal is an error. */
    method Delete(k: K) returns (ok: bool)
      modifies this
      ensures ok <==> old(Serves(k))
      ensures refused == old(refused)
      ensures objects == if ok then old(objects) - {k} else old(objects)
    {
      ok := k in objects && k !in refused;
      if ok {
        objects := objects - {k};
      }
    }
  }
}
