/**
  The interactive legend: five category flags (`layerStates`), the legend's
  own visibility, the five layer checkboxes it adds to the page, and the
  operations that attach or detach the map script's layer collections
  according to those flags.
 */
module Legend {
  import opened Common
  import opened EarthquakeData
  import opened MapScript

  const BufferZonesKey := "bufferZones"
  const AffectedAreasKey := "affectedAreas"
  const TsunamiAreasKey := "tsunamiAreas"
  const InfrastructureKey := "infrastructure"
  const MonitoringKey := "monitoring"

  /** The five keys of a fresh `layerStates`, which are also the ids (with `Toggle` appended) of the five checkboxes. */
  const Categories: set<string> := {BufferZonesKey, AffectedAreasKey, TsunamiAreasKey, InfrastructureKey, MonitoringKey}

  /**
    The `layerStates` key whose toggle attaches and detaches the layers of
    group `g`. The epicenter has no toggle, and `toggleMonitoring` moves
    no layer, so neither group has a key.
   */
  function CategoryKey(g: Group): (k: Option<string>)
    ensures k.Some? ==> k.value in Categories && k.value != MonitoringKey
  {
    match g
    case BufferGroup => Some(BufferZonesKey)
    case AffectedGroup => Some(AffectedAreasKey)
    case TsunamiGroup => Some(TsunamiAreasKey)
    case InfrastructureGroup => Some(InfrastructureKey)
    case _ => None
  }

  /**
    The layers among `keys` on the map once the flags of `states` whose keys
    are in `applied` have been applied, starting from the attached set
    `on`: a layer whose category flag was applied is on the map exactly
    when that flag is true, and every other layer is where it was.
   */
  function Shown(keys: set<Handle>, on: set<Handle>, states: map<string, bool>, applied: set<string>): (r: set<Handle>)
    ensures r <= keys
  {
    set h | h in keys &&
      match CategoryKey(h.group)
      case Some(k) => if k in applied && k in states then states[k] else h in on
      case None => h in on
  }

  /** Applying no flag leaves the map as it was. */
  lemma ShownNothing(keys: set<Handle>, on: set<Handle>, states: map<string, bool>)
    requires on <= keys
    ensures Shown(keys, on, states, {}) == on
  {
  }

  /**
    The layers among `keys` on the map after the layers of category `k`
    are attached (`visible`) or detached, starting from `on`.
   */
  function Switched(keys: set<Handle>, on: set<Handle>, k: string, visible: bool): (r: set<Handle>)
    ensures r <= keys
  {
    set h | h in keys && if CategoryKey(h.group) == Some(k) then visible else h in on
  }

  /** Attaching or detaching a whole collection switches its category and nothing else. */
  lemma AttachSwitches(keys: set<Handle>, on: set<Handle>, hs: seq<Handle>, g: Group, visible: bool)
    requires on <= keys && Gathers(keys, hs, g) && CategoryKey(g).Some?
    ensures Attach(on, hs, visible) == Switched(keys, on, CategoryKey(g).value, visible)
  {
    var r := Attach(on, hs, visible);
    forall h | h in r
      ensures h in Switched(keys, on, CategoryKey(g).value, visible)
    {
      if h in hs {
        assert h in keys && h.group == g;
      }
    }
  }

  /** Applying the flag of one more key of `states` switches that key's category to the flag's value. */
  lemma ShownStep(keys: set<Handle>, on: set<Handle>, states: map<string, bool>, applied: set<string>, k: string)
    requires k in states
    ensures Switched(keys, Shown(keys, on, states, applied), k, states[k]) == Shown(keys, on, states, applied + {k})
  {
  }

  /** The collection whose layers the toggle of `key` moves; none for any other key. */
  function CollectionOf(c: LayerCollections, key: string): (hs: seq<Handle>)
    ensures key !in {BufferZonesKey, AffectedAreasKey, TsunamiAreasKey, InfrastructureKey} ==> hs == []
  {
    if key == BufferZonesKey then c.bufferCircles
    else if key == AffectedAreasKey then c.affectedMarkers
    else if key == TsunamiAreasKey then c.tsunamiLayers
    else if key == InfrastructureKey then c.infrastructureMarkers
    else []
  }

  /** When flag `key` is present, its collection is wholly on the map `on` if the flag is true and wholly off it if not. */
  ghost predicate ShowsIn(states: map<string, bool>, on: set<Handle>, key: string, hs: seq<Handle>)
  {
    key in states ==> if states[key] then Elems(hs) <= on else Elems(hs) !! on
  }

  /** Each of the four collection-backed flags of `states` agrees with the map `on`. */
  ghost predicate Agrees(states: map<string, bool>, on: set<Handle>, c: LayerCollections)
  {
    && ShowsIn(states, on, BufferZonesKey, c.bufferCircles)
    && ShowsIn(states, on, AffectedAreasKey, c.affectedMarkers)
    && ShowsIn(states, on, TsunamiAreasKey, c.tsunamiLayers)
    && ShowsIn(states, on, InfrastructureKey, c.infrastructureMarkers)
  }

  /**
    A toggle keeps the flags in agreement with the map: setting flag `key`
    and moving its own collection leaves the other collections where they
    were, since no two collections share a layer.
   */
  lemma ToggleAgrees(states: map<string, bool>, on: set<Handle>, c: LayerCollections, key: string, visible: bool)
    requires c.Disjoint() && Agrees(states, on, c)
    ensures Agrees(states[key := visible], Attach(on, CollectionOf(c, key), visible), c)
  {
  }

  /** Flags that are all `visible`, over collections all on (or all off) the map, agree with it. */
  lemma UniformAgrees(states: map<string, bool>, on: set<Handle>, c: LayerCollections, visible: bool)
    requires forall k :: k in Categories ==> k in states && states[k] == visible
    requires visible ==> c.All() <= on
    requires !visible ==> c.All() !! on
    ensures Agrees(states, on, c)
  {
  }

  /** Writing back the value a key already has leaves the flags as they were. */
  lemma RewriteSame(states: map<string, bool>, k: string)
    requires k in states
    ensures states[k := states[k]] == states
  {
  }

  /** Once every flag of a snapshot is applied, each flag present agrees with the map. */
  lemma ShownAgrees(keys: set<Handle>, on: set<Handle>, states: map<string, bool>, c: LayerCollections)
    requires Gathers(keys, c.bufferCircles, BufferGroup) && Gathers(keys, c.affectedMarkers, AffectedGroup)
    requires Gathers(keys, c.tsunamiLayers, TsunamiGroup) && Gathers(keys, c.infrastructureMarkers, InfrastructureGroup)
    ensures Agrees(states, Shown(keys, on, states, states.Keys), c)
  {
  }

  /** Setting the five category flags one after the other sets exactly those keys to `visible`. */
  lemma EveryFlagSet(states: map<string, bool>, visible: bool)
    ensures var r := states[BufferZonesKey := visible][AffectedAreasKey := visible][TsunamiAreasKey := visible]
                           [InfrastructureKey := visible][MonitoringKey := visible];
            && r.Keys == states.Keys + Categories
            && forall k :: k in r ==> r[k] == if k in Categories then visible else states[k]
  {
  }

  /** Attaching (or detaching) the four collections one after the other attaches (or detaches) all their layers. */
  lemma AttachEvery(on: set<Handle>, c: LayerCollections, visible: bool)
    ensures Attach(Attach(Attach(Attach(on, c.bufferCircles, visible), c.affectedMarkers, visible),
                          c.tsunamiLayers, visible), c.infrastructureMarkers, visible)
         == if visible then on + c.All() else on - c.All()
  {
  }

  /**
    The number of flags that are on, as `getLegendStats` counts them
    (`Object.values(layerStates).filter(state => state).length`).
   */
  function VisibleLayers(states: map<string, bool>): (n: nat)
    ensures n <= |states|
    ensures n == |states| <==> forall k :: k in states ==> states[k]
    ensures n == 0 <==> forall k :: k in states ==> !states[k]
  {
    OnCount(states);
    |set k | k in states && states[k]|
  }

  lemma OnCount(states: map<string, bool>)
    ensures |set k | k in states && states[k]| <= |states|
    ensures |set k | k in states && states[k]| == |states| <==> forall k :: k in states ==> states[k]
    ensures |set k | k in states && states[k]| == 0 <==> forall k :: k in states ==> !states[k]
  {
    var on := set k | k in states && states[k];
    SubsetCard(on, states.Keys);
    if k :| k in states && !states[k] {
      SubsetCard(on, states.Keys - {k});
    } else {
      assert on == states.Keys;
    }
    if k :| k in states && states[k] {
      assert k in on;
    }
  }

  lemma {:induction false} SubsetCard<T>(a: set<T>, b: set<T>)
    requires a <= b
    ensures |a| <= |b|
    decreases b
  {
    if a != {} {
      var x :| x in a;
      SubsetCard(a - {x}, b - {x});
    }
  }

  /** The object `getLegendStats` returns. */
  datatype LegendStats = LegendStats(
    totalAffectedAreas: nat, totalInfrastructure: nat, totalTsunamiAreas: nat, visibleLayers: nat)

  /** `exportConfig`'s record; `layerStates` is the legend's own object, not a copy. */
  datatype Config = Config(layerStates: LayerStates, legendVisible: bool, timestamp: string)

  /** The argument of `importConfig`: `None` stands for `null` or `undefined`. */
  datatype ImportedConfig = ImportedConfig(layerStates: Option<map<string, bool>>)

  /** The `layerStates` object: a flag per key, which the toggles update in place. */
  class LayerStates {
    var entries: map<string, bool>

    constructor (entries: map<string, bool>)
      ensures this.entries == entries
    {
      this.entries := entries;
    }
  }

  /** `EarthquakeLegend`, acting on the map script's layers. */
  class EarthquakeLegend {
    /** The map script's state, which the toggles act on. */
    const scene: Scene
    var legendVisible: bool
    var layerStates: LayerStates
    /** The `display` style of the legend container, `None` when the page has no such container. */
    var container: Option<string>
    /** The checked state of each checkbox on the page, by category key. */
    var checkboxes: map<string, bool>

    /** The map script's state keeps its own invariant. */
    ghost predicate Valid()
      reads scene
    {
      scene.Valid() && scene.OnMap()
    }

    /** Each of the four collection-backed flags agrees with what is on the map. */
    ghost predicate Consistent()
      reads this, layerStates, scene
    {
      Agrees(layerStates.entries, scene.attached, scene.Collections())
    }

    /**
      A fresh legend: all five flags on and the legend visible; the five
      checkboxes, checked, exist only when the page has the legend
      container. The flags agree with the map exactly when every layer of
      the four collections is attached.
     */
    constructor (scene: Scene, hasContainer: bool)
      requires scene.Valid() && scene.OnMap()
      ensures Valid() && this.scene == scene && fresh(layerStates)
      ensures legendVisible
      ensures layerStates.entries == map[BufferZonesKey := true, AffectedAreasKey := true, TsunamiAreasKey := true,
                                         InfrastructureKey := true, MonitoringKey := true]
      ensures container == (if hasContainer then Some("") else None)
      ensures checkboxes == if hasContainer then map k | k in Categories :: true else map[]
      ensures Consistent() <==> scene.Collections().All() <= scene.attached
    {
      this.scene := scene;
      legendVisible := true;
      layerStates := new LayerStates(map[BufferZonesKey := true, AffectedAreasKey := true, TsunamiAreasKey := true,
                                         InfrastructureKey := true, MonitoringKey := true]);
      container := if hasContainer then Some("") else None;
      checkboxes := if hasContainer then map k | k in Categories :: true else map[];
    }

    /** `toggleBufferZones`: sets the flag, then attaches or detaches every buffer circle. */
    method ToggleBufferZones(visible: bool)
      requires Valid()
      modifies layerStates, scene`attached
      ensures Valid()
      ensures layerStates.entries == old(layerStates.entries)[BufferZonesKey := visible]
      ensures scene.attached == Attach(old(scene.attached), scene.bufferCircles, visible)
      ensures old(Consistent()) ==> Consistent()
    {
      layerStates.entries := layerStates.entries[BufferZonesKey := visible];
      scene.SetAttached(scene.bufferCircles, visible);
      scene.CollectionsDisjoint();
      if old(Consistent()) {
        ToggleAgrees(old(layerStates.entries), old(scene.attached), scene.Collections(), BufferZonesKey, visible);
      }
    }

    /** `toggleAffectedAreas`: sets the flag, then attaches or detaches every affected-area marker. */
    method ToggleAffectedAreas(visible: bool)
      requires Valid()
      modifies layerStates, scene`attached
      ensures Valid()
      ensures layerStates.entries == old(layerStates.entries)[AffectedAreasKey := visible]
      ensures scene.attached == Attach(old(scene.attached), scene.affectedMarkers, visible)
      ensures old(Consistent()) ==> Consistent()
    {
      layerStates.entries := layerStates.entries[AffectedAreasKey := visible];
      scene.SetAttached(scene.affectedMarkers, visible);
      scene.CollectionsDisjoint();
      if old(Consistent()) {
        ToggleAgrees(old(layerStates.entries), old(scene.attached), scene.Collections(), AffectedAreasKey, visible);
      }
    }

    /** `toggleTsunamiAreas`: sets the flag, then attaches or detaches every tsunami polygon. */
    method ToggleTsunamiAreas(visible: bool)
      requires Valid()
      modifies layerStates, scene`attached
      ensures Valid()
      ensures layerStates.entries == old(layerStates.entries)[TsunamiAreasKey := visible]
      ensures scene.attached == Attach(old(scene.attached), scene.tsunamiLayers, visible)
      ensures old(Consistent()) ==> Consistent()
    {
      layerStates.entries := layerStates.entries[TsunamiAreasKey := visible];
      scene.SetAttached(scene.tsunamiLayers, visible);
      scene.CollectionsDisjoint();
      if old(Consistent()) {
        ToggleAgrees(old(layerStates.entries), old(scene.attached), scene.Collections(), TsunamiAreasKey, visible);
      }
    }

    /** `toggleInfrastructure`: sets the flag, then attaches or detaches every infrastructure marker. */
    method ToggleInfrastructure(visible: bool)
      requires Valid()
      modifies layerStates, scene`attached
      ensures Valid()
      ensures layerStates.entries == old(layerStates.entries)[InfrastructureKey := visible]
      ensures scene.attached == Attach(old(scene.attached), scene.infrastructureMarkers, visible)
      ensures old(Consistent()) ==> Consistent()
    {
      layerStates.entries := layerStates.entries[InfrastructureKey := visible];
      scene.SetAttached(scene.infrastructureMarkers, visible);
      scene.CollectionsDisjoint();
      if old(Consistent()) {
        ToggleAgrees(old(layerStates.entries), old(scene.attached), scene.Collections(), InfrastructureKey, visible);
      }
    }

    /**
      `toggleMonitoring`: sets the flag only. The station markers are kept
      in no collection (`window.monitoringMarkers` is never assigned), so
      no layer moves.
     */
    method ToggleMonitoring(visible: bool)
      requires Valid()
      modifies layerStates
      ensures Valid()
      ensures layerStates.entries == old(layerStates.entries)[MonitoringKey := visible]
      ensures old(Consistent()) ==> Consistent()
    {
      layerStates.entries := layerStates.entries[MonitoringKey := visible];
    }

    /**
      The `Object.keys(layerStates).forEach` loop of `showAllLayers` and
      `hideAllLayers`: every present key gets `visible`, and so does the
      checkbox of every present key.
     */
    method SetEveryFlag(visible: bool)
      modifies layerStates, this`checkboxes
      ensures layerStates.entries == map k | k in old(layerStates.entries) :: visible
      ensures checkboxes.Keys == old(checkboxes).Keys
      ensures forall k :: k in checkboxes ==>
        checkboxes[k] == if k in old(layerStates.entries) then visible else old(checkboxes)[k]
    {
      var keys := layerStates.entries.Keys;
      var remaining := keys;
      ghost var done: set<string> := {};
      while remaining != {}
        invariant remaining + done == keys && remaining !! done
        invariant layerStates.entries.Keys == keys
        invariant forall k :: k in layerStates.entries ==>
          layerStates.entries[k] == if k in done then visible else old(layerStates.entries)[k]
        invariant checkboxes.Keys == old(checkboxes).Keys
        invariant forall k :: k in checkboxes ==>
          checkboxes[k] == if k in done then visible else old(checkboxes)[k]
        decreases remaining
      {
        var k :| k in remaining;
        layerStates.entries := layerStates.entries[k := visible];
        if k in checkboxes {
          checkboxes := checkboxes[k := visible];
        }
        remaining, done := remaining - {k}, done + {k};
      }
    }

    /**
      `showAllLayers`: every flag present, and the five category flags, on;
      every layer of the four collections attached and nothing else moved.
     */
    method ShowAllLayers()
      requires Valid()
      modifies layerStates, this`checkboxes, scene`attached
      ensures Valid() && Consistent()
      ensures layerStates.entries.Keys == old(layerStates.entries).Keys + Categories
      ensures forall k :: k in layerStates.entries ==> layerStates.entries[k]
      ensures checkboxes.Keys == old(checkboxes).Keys
      ensures forall k :: k in checkboxes ==>
        checkboxes[k] == if k in old(layerStates.entries) then true else old(checkboxes)[k]
      ensures scene.attached == old(scene.attached) + scene.Collections().All()
    {
      SetEveryFlag(true);
      ToggleEveryCategory(true);
    }

    /**
      `hideAllLayers`: every flag present, and the five category flags, off;
      no layer of the four collections attached and nothing else moved, so
      the epicenter and the station markers stay on the map.
     */
    method HideAllLayers()
      requires Valid()
      modifies layerStates, this`checkboxes, scene`attached
      ensures Valid() && Consistent()
      ensures layerStates.entries.Keys == old(layerStates.entries).Keys + Categories
      ensures forall k :: k in layerStates.entries ==> !layerStates.entries[k]
      ensures checkboxes.Keys == old(checkboxes).Keys
      ensures forall k :: k in checkboxes ==>
        checkboxes[k] == if k in old(layerStates.entries) then false else old(checkboxes)[k]
      ensures scene.attached == old(scene.attached) - scene.Collections().All()
    {
      SetEveryFlag(false);
      ToggleEveryCategory(false);
    }

    /**
      The five toggle calls that end `showAllLayers` and `hideAllLayers`:
      the five category flags get `visible`, and the four collections are
      attached or detached as a whole.
     */
    method ToggleEveryCategory(visible: bool)
      requires Valid()
      modifies layerStates, scene`attached
      ensures Valid() && Consistent()
      ensures layerStates.entries.Keys == old(layerStates.entries).Keys + Categories
      ensures forall k :: k in layerStates.entries ==>
        layerStates.entries[k] == if k in Categories then visible else old(layerStates.entries)[k]
      ensures scene.attached == if visible then old(scene.attached) + scene.Collections().All()
                                else old(scene.attached) - scene.Collections().All()
    {
      ToggleBufferZones(visible);
      ToggleAffectedAreas(visible);
      ToggleTsunamiAreas(visible);
      ToggleInfrastructure(visible);
      ToggleMonitoring(visible);
      assert layerStates.entries == old(layerStates.entries)[BufferZonesKey := visible][AffectedAreasKey := visible]
        [TsunamiAreasKey := visible][InfrastructureKey := visible][MonitoringKey := visible];
      EveryFlagSet(old(layerStates.entries), visible);
      AttachEvery(old(scene.attached), scene.Collections(), visible);
      UniformAgrees(layerStates.entries, scene.attached, scene.Collections(), visible);
    }


    /** `getLegendStats`: the dataset sizes and the number of flags that are on. */
    function GetLegendStats(data: Dataset): (s: LegendStats)
      reads this, layerStates
      ensures s.totalAffectedAreas == |data.affectedAreas|
      ensures s.totalInfrastructure == |data.infrastructureDamage|
      ensures s.totalTsunamiAreas == |data.tsunamiAreas|
      ensures s.visibleLayers == VisibleLayers(layerStates.entries) <= |layerStates.entries|
    {
      LegendStats(|data.affectedAreas|, |data.infrastructureDamage|, |data.tsunamiAreas|,
                  VisibleLayers(layerStates.entries))
    }

    /** `toggleLegendVisibility`: flips the flag and the container's display, only when the container exists. */
    method ToggleLegendVisibility()
      modifies this`legendVisible, this`container
      ensures container.Some? == old(container).Some?
      ensures old(container).Some? ==>
        legendVisible == !old(legendVisible) && container == Some(if legendVisible then "block" else "none")
      ensures old(container).None? ==> legendVisible == old(legendVisible) && container == None
    {
      if container.Some? {
        legendVisible := !legendVisible;
        container := Some(if legendVisible then "block" else "none");
      }
    }

    /** `exportConfig`: the live flags object, the legend's visibility and the given time stamp. */
    function ExportConfig(timestamp: string): (c: Config)
      reads this
      ensures c.layerStates == layerStates
      ensures c.legendVisible == legendVisible && c.timestamp == timestamp
    {
      Config(layerStates, legendVisible, timestamp)
    }

    /**
      `importConfig`: nothing happens unless the argument carries
      `layerStates`. Otherwise the flags become a new object holding a copy
      of the snapshot, so keys it lacks are gone; then, in whatever order
      the snapshot's entries come, each present checkbox takes its value and
      each collection-backed key attaches or detaches its collection.
      Layers whose key the snapshot lacks stay where they were.
     */
    method ImportConfig(config: Option<ImportedConfig>)
      requires Valid()
      modifies this`layerStates, this`checkboxes, scene`attached
      ensures Valid()
      ensures config.None? || config.value.layerStates.None? ==>
        layerStates == old(layerStates) && checkboxes == old(checkboxes) && scene.attached == old(scene.attached)
      ensures config.Some? && config.value.layerStates.Some? ==>
        var snapshot := config.value.layerStates.value;
        && fresh(layerStates) && layerStates.entries == snapshot
        && checkboxes.Keys == old(checkboxes).Keys
        && (forall k :: k in checkboxes ==>
              checkboxes[k] == if k in snapshot then snapshot[k] else old(checkboxes)[k])
        && scene.attached == Shown(scene.layers.Keys, old(scene.attached), snapshot, snapshot.Keys)
        && Consistent()
    {
      if config.Some? && config.value.layerStates.Some? {
        var snapshot := config.value.layerStates.value;
        layerStates := new LayerStates(snapshot);
        ApplyEntries();
        ShownAgrees(scene.layers.Keys, old(scene.attached), snapshot, scene.Collections());
      }
    }

    /**
      Importing the flags of this legend's own export, while they agree
      with the map, changes neither the flags nor the map: only the flags
      object is replaced by a copy.
     */
    method ReimportOwnExport(timestamp: string)
      requires Valid() && Consistent()
      modifies this`layerStates, this`checkboxes, scene`attached
      ensures Valid() && Consistent()
      ensures layerStates.entries == old(layerStates.entries)
      ensures scene.attached == old(scene.attached)
    {
      var exported := ExportConfig(timestamp);
      ImportConfig(Some(ImportedConfig(Some(exported.layerStates.entries))));
    }

    /**
      The `Object.entries(layerStates).forEach` loop of `importConfig`, in
      whatever order the entries come: each present checkbox takes its
      entry's value, and each entry is applied to the map.
     */
    method ApplyEntries()
      requires Valid()
      modifies layerStates, this`checkboxes, scene`attached
      ensures Valid()
      ensures layerStates.entries == old(layerStates.entries)
      ensures checkboxes.Keys == old(checkboxes).Keys
      ensures forall k :: k in checkboxes ==>
        checkboxes[k] == if k in layerStates.entries then layerStates.entries[k] else old(checkboxes)[k]
      ensures scene.attached == Shown(scene.layers.Keys, old(scene.attached), layerStates.entries, layerStates.entries.Keys)
    {
      var entries := layerStates.entries;
      ghost var keys := scene.layers.Keys;
      ShownNothing(keys, scene.attached, entries);
      var remaining := entries.Keys;
      ghost var done: set<string> := {};
      while remaining != {}
        invariant remaining + done == entries.Keys && remaining !! done
        invariant Valid()
        invariant scene.layers.Keys == keys
        invariant layerStates.entries == entries
        invariant checkboxes.Keys == old(checkboxes).Keys
        invariant forall k :: k in checkboxes ==>
          checkboxes[k] == if k in done then entries[k] else old(checkboxes)[k]
        invariant scene.attached == Shown(keys, old(scene.attached), entries, done)
        decreases remaining
      {
        var k :| k in remaining;
        var visible := entries[k];
        if k in checkboxes {
          checkboxes := checkboxes[k := visible];
        }
        ApplyVisibility(k, visible);
        ShownStep(keys, old(scene.attached), entries, done, k);
        RewriteSame(entries, k);
        remaining, done := remaining - {k}, done + {k};
      }
    }

    /**
      The `switch (layerType)` of `importConfig`: the toggle a known key
      names; an unknown key does nothing.
     */
    method ApplyVisibility(k: string, visible: bool)
      requires Valid()
      modifies layerStates, scene`attached
      ensures Valid()
      ensures layerStates.entries == if k in Categories then old(layerStates.entries)[k := visible] else old(layerStates.entries)
      ensures scene.attached == Switched(scene.layers.Keys, old(scene.attached), k, visible)
    {
      ghost var keys := scene.layers.Keys;
      if k == BufferZonesKey {
        AttachSwitches(keys, scene.attached, scene.bufferCircles, BufferGroup, visible);
        ToggleBufferZones(visible);
      } else if k == AffectedAreasKey {
        AttachSwitches(keys, scene.attached, scene.affectedMarkers, AffectedGroup, visible);
        ToggleAffectedAreas(visible);
      } else if k == TsunamiAreasKey {
        AttachSwitches(keys, scene.attached, scene.tsunamiLayers, TsunamiGroup, visible);
        ToggleTsunamiAreas(visible);
      } else if k == InfrastructureKey {
        AttachSwitches(keys, scene.attached, scene.infrastructureMarkers, InfrastructureGroup, visible);
        ToggleInfrastructure(visible);
      } else if k == MonitoringKey {
        ToggleMonitoring(visible);
      }
    }

  }
}
