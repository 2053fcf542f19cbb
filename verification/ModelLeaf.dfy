/** A single model variant (sdk_v2/cpp/src/model.h:222-262, sdk_v2/cpp/src/model.cc:498-519, 838-912). */
module ModelLeaf {
  import opened ModelInfoJson

  /** What a container reads of a leaf: its path and the answers to IsCached, IsLoaded and so on. */
  datatype LeafView = LeafView(path: string, cached: bool, loaded: bool, pinned: bool, downloading: bool)

  class Leaf {
    const info: ModelInfo
    const external: bool
    var path: string
    var cached: bool
    var active: bool
    var downloads: nat
    // Answers of the file system and of the load manager.
    var onDisk: bool
    var loaded: bool
    var pinned: bool
    var loading: bool
    // The lifecycle mutex, when an unregister transaction owns it, and its flag.
    var held: bool
    var unregistering: bool

    constructor (info: ModelInfo, path: string, external: bool)
      ensures this.info == info && this.external == external && this.path == path
      ensures active && cached == (path != "") && downloads == 0 && !held && !unregistering
    {
      this.info, this.external, this.path := info, external, path;
      cached, active, downloads, held, unregistering := path != "", true, 0, false, false;
      onDisk, loaded, pinned, loading := false, false, false, false;
    }

    predicate IsCached()
      reads this`active, this`cached, this`onDisk
    {
      if external then onDisk else active && cached
    }

    predicate IsLoaded()
      reads this`active, this`loaded
    {
      active && loaded
    }

    function View(): LeafView
      reads this
    {
      LeafView(path, IsCached(), IsLoaded(), pinned, downloads != 0)
    }

    method Deactivate()
      modifies this`active
      ensures !active
    {
      active := false;
    }

    /** Whether BeginUnregister goes through once it owns the lifecycle mutex. */
    predicate Accepts()
      reads this
    {
      active && !unregistering && !loading
    }

    /** Called when the mutex is free; keeps the mutex on success only. */
    method BeginUnregister() returns (ok: bool)
      requires !held
      modifies this`held, this`unregistering
      ensures ok == old(Accepts())
      ensures held == ok && unregistering == (ok || old(unregistering))
    {
      held := true;
      if !active || unregistering {
        held := false;
        return false;
      }
      if loading {
        held := false;
        return false;
      }
      unregistering := true;
      return true;
    }

    method EndUnregister()
      modifies this`held, this`unregistering
      ensures !held && !unregistering
    {
      unregistering := false;
      held := false;
    }
  }
}
