/**
 * The project information panel's bookkeeping of loaded IFC models: `loadedModels`
 * binds an IFC id to the uuid of the model loaded from it, next to the projects
 * manager's own id-to-uuid registry, and models live in the scenes of the worlds.
 */
module ProjectInformation {
  import opened Wrappers

  /** What the server's DELETE request came back with. */
  datatype ServerReply = Ok | HttpError | NetworkFailure

  /** The index of the first world whose scene holds an object with that uuid. */
  function FirstWorldWith(worlds: seq<set<string>>, uuid: string): (r: Option<nat>)
    ensures r.Some? ==> r.value < |worlds| && uuid in worlds[r.value]
                        && forall j :: 0 <= j < r.value ==> uuid !in worlds[j]
    ensures r.None? ==> forall j :: 0 <= j < |worlds| ==> uuid !in worlds[j]
  {
    if worlds == [] then None
    else if uuid in worlds[0] then Some(0)
    else
      var rest := FirstWorldWith(worlds[1..], uuid);
      if rest.Some? then Some(rest.value + 1) else None
  }

  class ProjectInformation {
    /** `loadedModels`. */
    var loadedModels: map<int, string>
    /** The projects manager's IFC id to model uuid registry (`addModelUUID`, `getModelUUID`, `removeModelUUID`). */
    var registry: map<int, string>
    /** The uuids of the objects in each world's scene, in `worlds.list` order. */
    var worlds: seq<set<string>>

    /** Every binding in `loadedModels` is also in the registry. */
    ghost predicate Valid()
      reads this
    {
      forall id :: id in loadedModels ==> id in registry && registry[id] == loadedModels[id]
    }

    constructor (worlds: seq<set<string>>)
      ensures Valid()
      ensures loadedModels == map[] && registry == map[] && this.worlds == worlds
    {
      loadedModels := map[];
      registry := map[];
      this.worlds := worlds;
    }

    /**
     * `loadIFCModel`. When the project lookup finds the file, the loaded model (with
     * uuid `uuid`) goes into the first world's scene and `ifcId` is bound to it in both
     * maps, replacing an earlier binding. With no project, or no world to add the model
     * to, nothing changes.
     */
    method LoadIFCModel(ifcId: int, projectFound: bool, uuid: string)
      requires Valid()
      modifies this
      ensures Valid()
      ensures projectFound && |old(worlds)| > 0 ==>
                && loadedModels == old(loadedModels)[ifcId := uuid]
                && registry == old(registry)[ifcId := uuid]
                && worlds == old(worlds)[0 := old(worlds)[0] + {uuid}]
      ensures !projectFound || |old(worlds)| == 0 ==>
                loadedModels == old(loadedModels) && registry == old(registry) && worlds == old(worlds)
    {
      if projectFound {
        if |worlds| == 0 {
          return;
        }
        worlds := worlds[0 := worlds[0] + {uuid}];
        registry := registry[ifcId := uuid];
        loadedModels := loadedModels[ifcId := uuid];
      }
    }

    /**
     * `deleteIFCModel`. Nothing happens unless the user confirms and the request
     * reaches the server. Whether the server deleted the file or not, the model bound
     * to `ifcId` (a non-empty uuid) is then looked for world by world; the first world
     * holding it loses it and `ifcId` is unbound from both maps. `refreshed` says
     * whether the file list is reloaded, which happens only on success.
     */
    method DeleteIFCModel(ifcId: int, confirmed: bool, reply: ServerReply) returns (refreshed: bool)
      requires Valid()
      modifies this
      ensures Valid()
      ensures refreshed <==> confirmed && reply == Ok
      ensures var uuid := if ifcId in old(registry) then old(registry)[ifcId] else "";
              var w := FirstWorldWith(old(worlds), uuid);
              if confirmed && reply != NetworkFailure && uuid != "" && w.Some? then
                && worlds == old(worlds)[w.value := old(worlds)[w.value] - {uuid}]
                && registry == old(registry) - {ifcId}
                && loadedModels == old(loadedModels) - {ifcId}
              else
                worlds == old(worlds) && registry == old(registry) && loadedModels == old(loadedModels)
    {
      refreshed := false;
      if !confirmed || reply == NetworkFailure {
        return;
      }
      refreshed := reply == Ok;
      if ifcId !in registry || registry[ifcId] == "" {
        return;
      }
      var uuid := registry[ifcId];
      var i := 0;
      while i < |worlds|
        invariant 0 <= i <= |worlds|
        invariant forall j :: 0 <= j < i ==> uuid !in worlds[j]
        invariant worlds == old(worlds) && registry == old(registry) && loadedModels == old(loadedModels)
      {
        if uuid in worlds[i] {
          worlds := worlds[i := worlds[i] - {uuid}];
          registry := registry - {ifcId};
          loadedModels := loadedModels - {ifcId};
          return;
        }
        i := i + 1;
      }
    }
  }
}
