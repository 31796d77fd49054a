/** nodes.py: `Tile`, the id table that `Tileset` builds, and the `Tilemap` queries. The
    texture slicing and surface blitting of `Tileset` and `Tilemap` are not modelled. */
module Tiles {
  import opened Wrappers

  /** The value of a custom property in the map file; only its declared type matters here. */
  datatype Value = BoolValue(b: bool) | IntValue(i: int) | TextValue(s: string)

  /** One entry of a tile's `properties` list: `{"name", "type", "value"}`. */
  datatype Property = Property(name: string, propertyType: string, value: Value)

  /** One entry of the tileset's tile list: an `id`, an optional `type` and an optional
      `properties` list. */
  datatype TileData = TileData(id: int, tileType: Option<string>, properties: Option<seq<Property>>)

  /** A constructed `Tile`: its type and its tags. */
  datatype TileInfo = TileInfo(tileType: Option<string>, tags: seq<string>)

  /** The names of the "bool"-typed properties, in input order, whatever their value. */
  function BoolTags(props: seq<Property>): (tags: seq<string>)
    ensures |tags| <= |props|
    ensures forall t :: t in tags <==> exists i :: 0 <= i < |props| && props[i].propertyType == "bool" && props[i].name == t
  {
    if props == [] then []
    else
      var rest := BoolTags(props[..|props| - 1]);
      var last := props[|props| - 1];
      assert forall i :: 0 <= i < |props| - 1 ==> props[..|props| - 1][i] == props[i];
      if last.propertyType == "bool" then rest + [last.name] else rest
  }

  /** The tile that `Tile(data)` builds, as a value. */
  function TileOf(data: TileData): TileInfo
  {
    TileInfo(data.tileType, match data.properties case None => [] case Some(ps) => BoolTags(ps))
  }

  /** `Tile.__init__`: copies the type and appends, in order, the name of every "bool"
      property; a missing or empty property list gives no tags. */
  method NewTile(data: TileData) returns (tile: TileInfo)
    ensures tile == TileOf(data)
  {
    var tags: seq<string> := [];
    if data.properties.Some? && data.properties.value != [] {
      var props := data.properties.value;
      var i := 0;
      while i < |props|
        invariant 0 <= i <= |props|
        invariant tags == BoolTags(props[..i])
      {
        assert props[..i + 1][..i] == props[..i];
        if props[i].propertyType == "bool" {
          tags := tags + [props[i].name];
        }
        i := i + 1;
      }
      assert props[..|props|] == props;
    }
    tile := TileInfo(data.tileType, tags);
  }

  /** `Tile.has`: list membership. */
  function Has(tile: TileInfo, tag: string): (r: bool)
  {
    tag in tile.tags
  }

  /** A tile built from `data` has a tag exactly when some "bool" property carries that name,
      whatever the property's value. */
  lemma HasIffBoolProperty(data: TileData, tag: string)
    ensures Has(TileOf(data), tag) <==>
      data.properties.Some? &&
      exists i :: 0 <= i < |data.properties.value| &&
        data.properties.value[i].propertyType == "bool" && data.properties.value[i].name == tag
  {
  }

  /** The `Tileset.data` dictionary: each entry stored under its id, a later entry replacing an
      earlier one with the same id. */
  function TableOf(data: seq<TileData>): map<int, TileInfo>
  {
    if data == [] then map[]
    else TableOf(data[..|data| - 1])[data[|data| - 1].id := TileOf(data[|data| - 1])]
  }

  /** The dictionary loop of `Tileset.__init__`. */
  method BuildTable(data: seq<TileData>) returns (table: map<int, TileInfo>)
    ensures table == TableOf(data)
  {
    table := map[];
    var i := 0;
    while i < |data|
      invariant 0 <= i <= |data|
      invariant table == TableOf(data[..i])
    {
      assert data[..i + 1][..i] == data[..i];
      var tile := NewTile(data[i]);
      table := table[data[i].id := tile];
      i := i + 1;
    }
    assert data[..|data|] == data;
  }

  /** An id is in the table exactly when some entry carries it, and it then holds the tile of
      the LAST such entry. */
  lemma {:induction false} TableLookup(data: seq<TileData>, id: int)
    ensures id in TableOf(data) <==> exists i :: 0 <= i < |data| && data[i].id == id
    ensures id in TableOf(data) ==>
      exists i :: 0 <= i < |data| && data[i].id == id && TableOf(data)[id] == TileOf(data[i]) &&
        forall j :: i < j < |data| ==> data[j].id != id
  {
    if data != [] {
      var n := |data| - 1;
      var init := data[..n];
      var table := TableOf(data);
      assert table == TableOf(init)[data[n].id := TileOf(data[n])];
      if data[n].id == id {
        assert table[id] == TileOf(data[n]);
      } else {
        TableLookup(init, id);
        assert id in table <==> id in TableOf(init);
        if id in TableOf(init) {
          var i :| 0 <= i < |init| && init[i].id == id && TableOf(init)[id] == TileOf(init[i]) &&
            forall j :: i < j < |init| ==> init[j].id != id;
          assert data[i] == init[i];
          assert forall j :: i < j < |data| ==> data[j].id != id by {
            forall j | i < j < |data| ensures data[j].id != id {
              if j < n { assert data[j] == init[j]; }
            }
          }
        } else {
          forall i | 0 <= i < |data| ensures data[i].id != id {
            if i < n { assert data[i] == init[i]; }
          }
        }
      }
    }
  }

  /** A tile map: `width` x `height` cells, their ids row by row (0 = empty) and the tileset's
      id table. */
  datatype Tilemap = Tilemap(width: int, height: int, tiles: seq<int>, data: map<int, TileInfo>) {
    /** The constructor reads every cell, so the id list covers the grid. */
    predicate Valid()
    {
      width * height <= |tiles|
    }

    predicate InBounds(x: int, y: int)
    {
      0 <= x < width && 0 <= y < height
    }
  }

  lemma CellIndexInRange(m: Tilemap, x: int, y: int)
    requires m.Valid() && m.InBounds(x, y)
    ensures 0 <= y * m.width + x < |m.tiles|
  {
    assert y * m.width + x < (y + 1) * m.width;
    assert (y + 1) * m.width <= m.height * m.width;
  }

  /** `Tilemap.get_at`: the id of a cell, or nothing for a cell outside the grid. */
  function GetAt(m: Tilemap, x: int, y: int): (r: Option<int>)
    requires m.Valid()
    ensures r.None? <==> !m.InBounds(x, y)
    ensures r.Some? ==> 0 <= y * m.width + x < |m.tiles| && r.value == m.tiles[y * m.width + x]
  {
    if 0 > x || x >= m.width || 0 > y || y >= m.height then None
    else
      CellIndexInRange(m, x, y);
      Some(m.tiles[y * m.width + x])
  }

  /** `Tilemap.get_info`: nothing for no id or id 0 (falsy), otherwise `data.get(id - 1)`. */
  function GetInfo(m: Tilemap, tile: Option<int>): (r: Option<TileInfo>)
    ensures tile.None? || tile == Some(0) ==> r.None?
    ensures tile.Some? && tile.value != 0 ==>
      (r.Some? <==> tile.value - 1 in m.data) && (r.Some? ==> r.value == m.data[tile.value - 1])
  {
    match tile
    case None => None
    case Some(id) => if id != 0 && id - 1 in m.data then Some(m.data[id - 1]) else None
  }

  /** `Tilemap.get_info_at` */
  function GetInfoAt(m: Tilemap, x: int, y: int): (r: Option<TileInfo>)
    requires m.Valid()
    ensures !m.InBounds(x, y) ==> r.None?
    ensures m.InBounds(x, y) ==> 0 <= y * m.width + x < |m.tiles|
    ensures m.InBounds(x, y) ==>
      var id := m.tiles[y * m.width + x];
      r == if id == 0 || id - 1 !in m.data then None else Some(m.data[id - 1])
  {
    if m.InBounds(x, y) then CellIndexInRange(m, x, y); GetInfo(m, GetAt(m, x, y))
    else GetInfo(m, GetAt(m, x, y))
  }

  /** `tile and tile.type == <kind>` for the tile of a cell. */
  predicate IsKind(m: Tilemap, x: int, y: int, kind: string)
    requires m.Valid()
  {
    var t := GetInfoAt(m, x, y);
    t.Some? && t.value.tileType == Some(kind)
  }
}
