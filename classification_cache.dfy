/**
 * The first viewer's per-model classification cache: when a model with properties is
 * loaded its classification is generated and stored under the model's uuid, a
 * highlight swaps the selected model's cached classification into the classifier,
 * and disposing a model drops its entry and its meshes.
 */
module ClassificationCache {
  import opened Wrappers
  import opened Seqs
  import opened Scene
  import opened Meshes

  /** One classification group: its fragment id map, its name and its id. */
  datatype Group = Group(fragmentMap: map<string, set<int>>, name: string, id: Option<int>)

  /** `classifier.list`: classification type, then group name, to group. */
  type Classification = map<string, map<string, Group>>

  const CustomSelections: string := "CustomSelections"

  /** The list the classifier is reset to: only an empty `CustomSelections`. */
  const EmptyList: Classification := map[CustomSelections := map[]]

  /**
   * The list a generation pass leaves behind: the reset list, with whatever the
   * predefined-type, entity and spatial-structure passes add (`generated`) on top.
   */
  function GeneratedList(generated: Classification): (r: Classification)
    ensures CustomSelections in r
    ensures forall t :: t in generated ==> t in r && r[t] == generated[t]
    ensures forall t :: t in r ==> t in generated || t == CustomSelections
  {
    EmptyList + generated
  }

  /**
   * After a load the classifier's previous list is put back when its
   * `CustomSelections` is missing or holds some group.
   */
  predicate RestoresPrevious(saved: Classification) {
    CustomSelections !in saved || |saved[CustomSelections]| != 0
  }

  /**
   * What `JSON.stringify` keeps of a group: a `Set` of express ids is written as `{}`, so
   * of the fragment id map only its keys survive, next to the name and the id.
   */
  datatype GroupJson = GroupJson(fragmentKeys: set<string>, name: string, id: Option<int>)

  function GroupText(g: Group): GroupJson {
    GroupJson(g.fragmentMap.Keys, g.name, g.id)
  }

  function GroupsText(groups: map<string, Group>): map<string, GroupJson> {
    map n | n in groups :: GroupText(groups[n])
  }

  /** A classification as its JSON text sees it (key order aside). */
  function Text(c: Classification): map<string, map<string, GroupJson>> {
    map t | t in c :: GroupsText(c[t])
  }

  /** `JSON.stringify(a) === JSON.stringify(b)`, key order aside. */
  predicate SameText(a: Classification, b: Classification) {
    Text(a) == Text(b)
  }

  /** A classification with a single group holding the ids `ids` of one fragment. */
  function OneWall(ids: set<int>): Classification {
    map["Entities" := map["IFCWALL" := Group(map["f" := ids], "IFCWALL", None)]]
  }

  /**
   * The text comparison does not see express ids: two classifications that differ only in
   * the ids of one fragment compare equal.
   */
  lemma SameTextIgnoresIds(ids1: set<int>, ids2: set<int>)
    requires ids1 != ids2
    ensures OneWall(ids1) != OneWall(ids2) && SameText(OneWall(ids1), OneWall(ids2))
  {
    var a: Classification := OneWall(ids1);
    var b: Classification := OneWall(ids2);
    var ga: Group := a["Entities"]["IFCWALL"];
    var gb: Group := b["Entities"]["IFCWALL"];
    assert ga.fragmentMap["f"] != gb.fragmentMap["f"];
    assert GroupText(ga) == GroupText(gb);
    assert GroupsText(a["Entities"]) == GroupsText(b["Entities"]);
    assert Text(a) == Text(b);
  }

  class Classifications {
    /** `classificationData`: model uuid to that model's classification. */
    var cache: map<string, Classification>
    /** `classifier.list`. */
    var list: Classification
    /** The uuids of the meshes in `world.meshes`. */
    var meshes: set<string>
    /** How many times the relations indexer has processed a model. */
    var indexerPasses: nat
    /** How many times the hider panel has been rebuilt. */
    var hiderRefreshes: nat

    /** Every cached classification was generated from the reset list, so it has `CustomSelections`. */
    ghost predicate Valid()
      reads this
    {
      forall u :: u in cache ==> CustomSelections in cache[u]
    }

    constructor ()
      ensures Valid()
      ensures cache == map[] && list == EmptyList && meshes == {}
      ensures indexerPasses == 0 && hiderRefreshes == 0
    {
      cache := map[];
      list := EmptyList;
      meshes := {};
      indexerPasses := 0;
      hiderRefreshes := 0;
    }

    /**
     * `onFragmentsLoaded`. The model's meshes join the world. A model with properties
     * gets a freshly generated classification, cached under its uuid; the previous
     * list then comes back when `RestoresPrevious` holds, and the handler stops there
     * without a second indexer pass or a hider refresh.
     */
    method OnFragmentsLoaded(uuid: string, hasProperties: bool, generated: Classification,
                             modelMeshes: set<string>)
      requires Valid()
      modifies this
      ensures Valid()
      ensures meshes == old(meshes) + modelMeshes
      ensures !hasProperties ==> cache == old(cache) && list == old(list)
                                 && indexerPasses == old(indexerPasses)
                                 && hiderRefreshes == old(hiderRefreshes) + 1
      ensures hasProperties ==> cache == old(cache)[uuid := GeneratedList(generated)]
      ensures hasProperties && RestoresPrevious(old(list)) ==>
                list == old(list) && indexerPasses == old(indexerPasses) + 1
                && hiderRefreshes == old(hiderRefreshes)
      ensures hasProperties && !RestoresPrevious(old(list)) ==>
                list == GeneratedList(generated) && indexerPasses == old(indexerPasses) + 2
                && hiderRefreshes == old(hiderRefreshes) + 1
    {
      meshes := meshes + modelMeshes;
      if hasProperties {
        var saved := list;
        list := GeneratedList(generated);
        indexerPasses := indexerPasses + 1;
        cache := cache[uuid := list];
        if CustomSelections !in saved || |saved[CustomSelections]| != 0 {
          list := saved;
          return;
        }
        indexerPasses := indexerPasses + 1;
      }
      hiderRefreshes := hiderRefreshes + 1;
    }

    /**
     * `onHighlight`. Nothing happens unless the first selected fragment has a model
     * uuid; nothing more when that model's cached classification has the JSON text of the list.
     * Otherwise, when the fragment has a group, the list is rebuilt from the group's
     * cached classification (left empty when there is none), and the hider is refreshed.
     */
    method OnHighlight(sel: Selection, fragments: map<string, Fragment>)
      requires Valid()
      modifies this`list, this`indexerPasses, this`hiderRefreshes
      ensures Valid()
      ensures var u := FirstModelUuid(sel, fragments);
        u.None? || (u.value in old(cache) && SameText(old(cache)[u.value], old(list))) ==>
          list == old(list) && indexerPasses == old(indexerPasses)
          && hiderRefreshes == old(hiderRefreshes)
      ensures var u := FirstModelUuid(sel, fragments);
        u.Some? && !(u.value in old(cache) && SameText(old(cache)[u.value], old(list))) ==>
          var group := fragments[sel[0].fragmentId].groupUuid;
          && hiderRefreshes == old(hiderRefreshes) + 1
          && (group.None? ==> list == old(list) && indexerPasses == old(indexerPasses))
          && (group.Some? ==> (indexerPasses == old(indexerPasses) + 1
                && list == (if group.value in cache then cache[group.value] else map[])
                && (group.value in cache ==> CustomSelections in list)))
    {
      var modelUuid := FirstModelUuid(sel, fragments);
      if modelUuid.None? {
        return;
      }
      if modelUuid.value in cache && SameText(cache[modelUuid.value], list) {
        return;
      }
      var group := fragments[sel[0].fragmentId].groupUuid;
      if group.Some? {
        list := map[];
        indexerPasses := indexerPasses + 1;
        if group.value in cache {
          list := CopyGroups(cache[group.value]);
        }
      }
      hiderRefreshes := hiderRefreshes + 1;
    }

    /**
     * `onFragmentsDisposed`. The cache entry whose key is `groupID` (a non-empty
     * uuid) goes, and the list is reset first when its JSON text is that entry's; every mesh
     * whose uuid is among `fragmentIDs` leaves the world; the hider is refreshed.
     */
    method OnFragmentsDisposed(groupID: string, fragmentIDs: seq<string>)
      requires Valid()
      modifies this`cache, this`list, this`meshes, this`hiderRefreshes
      ensures Valid()
      ensures groupID != "" && groupID in old(cache) ==> cache == old(cache) - {groupID}
      ensures groupID == "" || groupID !in old(cache) ==> cache == old(cache) && list == old(list)
      ensures groupID != "" && groupID in old(cache) && SameText(old(cache)[groupID], old(list)) ==> list == EmptyList
      ensures groupID != "" && groupID in old(cache) && !SameText(old(cache)[groupID], old(list)) ==> list == old(list)
      ensures meshes == old(meshes) - Elems(fragmentIDs)
      ensures hiderRefreshes == old(hiderRefreshes) + 1
    {
      var modelId := FindModelId(groupID);
      if modelId.Some? && modelId.value != "" {
        if SameText(cache[modelId.value], list) {
          list := EmptyList;
        }
        cache := cache - {modelId.value};
      }
      meshes := DisposeMeshes(meshes, fragmentIDs);
      hiderRefreshes := hiderRefreshes + 1;
    }

    /** The search through the cache's keys for the one equal to `groupID`. */
    method FindModelId(groupID: string) returns (found: Option<string>)
      ensures found.Some? <==> groupID in cache
      ensures found.Some? ==> found.value == groupID
    {
      var remaining := cache.Keys;
      found := None;
      while remaining != {}
        invariant remaining <= cache.Keys
        invariant found.None? ==> groupID !in cache.Keys - remaining
        invariant found.Some? ==> found.value == groupID && groupID in cache
        decreases |remaining|
      {
        var uuid :| uuid in remaining;
        if uuid == groupID {
          found := Some(uuid);
          return;
        }
        remaining := remaining - {uuid};
      }
    }
  }

  /**
   * The rebuild loop of `onHighlight`: every classification type of the cached entry
   * gets a fresh group map holding copies of its groups (map, name and id).
   */
  method CopyGroups(source: Classification) returns (list: Classification)
    ensures list == source
  {
    list := map[];
    var types := source.Keys;
    while types != {}
      invariant types <= source.Keys
      invariant list.Keys == source.Keys - types
      invariant forall t :: t in list ==> list[t] == source[t]
      decreases |types|
    {
      var t :| t in types;
      var groups: map<string, Group> := map[];
      var names := source[t].Keys;
      while names != {}
        invariant names <= source[t].Keys
        invariant groups.Keys == source[t].Keys - names
        invariant forall n :: n in groups ==> groups[n] == source[t][n]
        decreases |names|
      {
        var n :| n in names;
        var g := source[t][n];
        groups := groups[n := Group(g.fragmentMap, g.name, g.id)];
        names := names - {n};
      }
      list := list[t := groups];
      types := types - {t};
    }
  }
}
