// Level assembly: turns a Tiled map into the collidable layers, the optional
// hazard layer, the spawn descriptors and the world size.  The engine's
// tilemap is an abstract record of the tileset names, the tile layer names and
// the object layers it holds; tile collision classification stays with the
// engine and is recorded only as the tile properties each layer collides on.
module Levels {
  import opened Base

  const PlatformsLayer: string := "platforms"
  const HazardsLayer: string := "hazards"
  const BackgroundLayer: string := "background-deco"
  const ForegroundLayer: string := "foreground-deco"
  const SpawnsLayer: string := "spawns"
  const DefaultSpawnType: string := "enemy"
  const DefaultSpawnSize: real := 32.0

  /** The per-level settings the loader reads. */
  datatype LevelConfig = LevelConfig(tilemapKey: string, tilesetKey: string, tilesetImageKey: string)

  datatype PropertyValue = BoolValue(b: bool) | NumberValue(n: real) | StringValue(s: string)
  /** One entry of a Tiled object's property list. */
  datatype Property = Property(name: string, value: PropertyValue)

  /** An object of a Tiled object layer; every field may be absent. */
  datatype TiledObject = TiledObject(
    name: Option<string>, objType: Option<string>,
    x: Option<real>, y: Option<real>, width: Option<real>, height: Option<real>,
    properties: Option<seq<Property>>)

  /** A spawn point.  Its type is taken over from the map unchecked, so it may
      be any string. */
  datatype SpawnData = SpawnData(
    spawnType: string, x: real, y: real, width: real, height: real,
    properties: map<string, PropertyValue>)

  datatype Tilemap = Tilemap(
    tilesets: set<string>,
    tileLayers: set<string>,
    objectLayers: map<string, seq<TiledObject>>,
    widthInPixels: int, heightInPixels: int)

  /** A tile layer as built: its name, its depth and the tile properties that
      make its tiles collide. */
  datatype TileLayer = TileLayer(name: string, depth: int, collidesOn: seq<string>)

  datatype LoadedLevel = LoadedLevel(
    platformLayer: TileLayer, hazardLayer: Option<TileLayer>,
    spawns: seq<SpawnData>, worldWidth: int, worldHeight: int)

  datatype LoadError =
    | MissingTileset(tilesetKey: string, tilemapKey: string)
    | MissingLayer(layer: string, tilemapKey: string)

  const Background: TileLayer := TileLayer(BackgroundLayer, 3, [])
  const Platforms: TileLayer := TileLayer(PlatformsLayer, 4, ["collides"])
  const Hazards: TileLayer := TileLayer(HazardsLayer, 4, ["damage", "instant-death"])
  const Foreground: TileLayer := TileLayer(ForegroundLayer, 50, [])

  /** The layers a successful load builds, in the order it builds them. */
  function BuiltLayers(tilemap: Tilemap): seq<TileLayer> {
    (if BackgroundLayer in tilemap.tileLayers then [Background] else [])
      + [Platforms]
      + (if HazardsLayer in tilemap.tileLayers then [Hazards] else [])
      + (if ForegroundLayer in tilemap.tileLayers then [Foreground] else [])
  }

  // ---------------------------------------------------------------------------
  // Property lists

  function Names(props: seq<Property>): set<string> {
    set i | 0 <= i < |props| :: props[i].name
  }

  /** No entry after position i carries the same name. */
  predicate LastWithName(props: seq<Property>, i: int)
    requires 0 <= i < |props|
  {
    forall j :: i < j < |props| ==> props[j].name != props[i].name
  }

  /** A property list as a record: one key per name, and for a name given
      more than once the value of its last entry. */
  function MapProperties(props: seq<Property>): (m: map<string, PropertyValue>)
    ensures m.Keys == Names(props)
    ensures forall i :: 0 <= i < |props| && LastWithName(props, i) ==> m[props[i].name] == props[i].value
    decreases |props|
  {
    if props == [] then map[]
    else
      var init := props[..|props| - 1];
      var last := props[|props| - 1];
      assert forall i :: 0 <= i < |init| ==> init[i] == props[i];
      assert Names(props) == Names(init) + {last.name} by {
        assert forall n :: n in Names(props) ==> n in Names(init) + {last.name} by {
          forall n | n in Names(props) ensures n in Names(init) + {last.name} {
            var i :| 0 <= i < |props| && props[i].name == n;
            if i < |init| { assert init[i].name == n; }
          }
        }
      }
      MapProperties(init)[last.name := last.value]
  }

  /** Every name of the list is a key, and its value is that of some entry
      with that name; the value of a name's final entry always wins. */
  lemma MapPropertiesLastWins(props: seq<Property>, k: string)
    requires k in Names(props)
    ensures exists i :: 0 <= i < |props| && props[i].name == k && LastWithName(props, i)
                        && MapProperties(props)[k] == props[i].value
  {
    var i :| 0 <= i < |props| && props[i].name == k;
    while !LastWithName(props, i)
      invariant 0 <= i < |props| && props[i].name == k
      decreases |props| - i
    {
      var j :| i < j < |props| && props[j].name == k;
      i := j;
    }
  }

  // ---------------------------------------------------------------------------
  // Spawns

  /** One Tiled object as a spawn point: the type falls back to the name and
      then to "enemy", the position to 0 and the size to 32. */
  function ToSpawn(o: TiledObject): (s: SpawnData)
    ensures o.objType.Some? ==> s.spawnType == o.objType.value
    ensures o.objType.None? && o.name.Some? ==> s.spawnType == o.name.value
    ensures o.objType.None? && o.name.None? ==> s.spawnType == DefaultSpawnType
    ensures s.x == o.x.GetOr(0.0) && s.y == o.y.GetOr(0.0)
    ensures s.width == o.width.GetOr(DefaultSpawnSize) && s.height == o.height.GetOr(DefaultSpawnSize)
    ensures s.properties.Keys == Names(o.properties.GetOr([]))
  {
    var spawnType := match o.objType
      case Some(t) => t
      case None => o.name.GetOr(DefaultSpawnType);
    SpawnData(spawnType, o.x.GetOr(0.0), o.y.GetOr(0.0),
              o.width.GetOr(DefaultSpawnSize), o.height.GetOr(DefaultSpawnSize),
              MapProperties(o.properties.GetOr([])))
  }

  /** The spawn points of an object layer: one per object, in layer order. */
  function ParseSpawns(objects: seq<TiledObject>): (spawns: seq<SpawnData>)
    ensures |spawns| == |objects|
    ensures forall i :: 0 <= i < |objects| ==> spawns[i] == ToSpawn(objects[i])
  {
    seq(|objects|, i requires 0 <= i < |objects| => ToSpawn(objects[i]))
  }

  /** A spawn written out with every field present reads back unchanged,
      properties included, provided its property list names each key once. */
  lemma SpawnRoundTrip(s: SpawnData, props: seq<Property>)
    requires forall i, j :: 0 <= i < j < |props| ==> props[i].name != props[j].name
    requires Names(props) == s.properties.Keys
    requires forall i :: 0 <= i < |props| ==> s.properties[props[i].name] == props[i].value
    ensures ToSpawn(TiledObject(None, Some(s.spawnType), Some(s.x), Some(s.y), Some(s.width), Some(s.height), Some(props))) == s
  {
    var m := MapProperties(props);
    assert forall i :: 0 <= i < |props| ==> LastWithName(props, i);
    forall k | k in m.Keys
      ensures m[k] == s.properties[k]
    {
      var i :| 0 <= i < |props| && props[i].name == k;
    }
  }

  // ---------------------------------------------------------------------------
  // Loading

  /** Builds the level from the map, failing fast: a missing tileset is
      reported before any layer is built, and a missing platforms layer after
      at most the background layer. */
  method Load(config: LevelConfig, tilemap: Tilemap) returns (r: Result<LoadedLevel, LoadError>, built: seq<TileLayer>)
    ensures config.tilesetKey !in tilemap.tilesets ==>
      r == Err(MissingTileset(config.tilesetKey, config.tilemapKey)) && built == []
    ensures config.tilesetKey in tilemap.tilesets && PlatformsLayer !in tilemap.tileLayers ==>
      r == Err(MissingLayer(PlatformsLayer, config.tilemapKey)) &&
      built == (if BackgroundLayer in tilemap.tileLayers then [Background] else [])
    ensures r.Ok? <==> config.tilesetKey in tilemap.tilesets && PlatformsLayer in tilemap.tileLayers
    ensures r.Ok? ==> built == BuiltLayers(tilemap)
    ensures r.Ok? ==> r.value.platformLayer == Platforms
    ensures r.Ok? ==> (r.value.hazardLayer.None? <==> HazardsLayer !in tilemap.tileLayers)
    ensures r.Ok? ==> r.value.hazardLayer.Some? ==> r.value.hazardLayer.value == Hazards
    ensures r.Ok? ==>
      r.value.spawns == (if SpawnsLayer in tilemap.objectLayers then ParseSpawns(tilemap.objectLayers[SpawnsLayer]) else [])
    ensures r.Ok? ==> r.value.worldWidth == tilemap.widthInPixels && r.value.worldHeight == tilemap.heightInPixels
  {
    built := [];
    if config.tilesetKey !in tilemap.tilesets {
      return Err(MissingTileset(config.tilesetKey, config.tilemapKey)), built;
    }

    if BackgroundLayer in tilemap.tileLayers {
      built := built + [Background];
    }

    if PlatformsLayer !in tilemap.tileLayers {
      return Err(MissingLayer(PlatformsLayer, config.tilemapKey)), built;
    }
    var platformLayer := Platforms;
    built := built + [platformLayer];

    var hazardLayer: Option<TileLayer> := None;
    if HazardsLayer in tilemap.tileLayers {
      hazardLayer := Some(Hazards);
      built := built + [Hazards];
    }

    if ForegroundLayer in tilemap.tileLayers {
      built := built + [Foreground];
    }

    var spawns := if SpawnsLayer in tilemap.objectLayers then ParseSpawns(tilemap.objectLayers[SpawnsLayer]) else [];

    r := Ok(LoadedLevel(platformLayer, hazardLayer, spawns, tilemap.widthInPixels, tilemap.heightInPixels));
  }
}
