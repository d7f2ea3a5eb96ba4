/** The data-access layer of backend/app/database/queries.py: the rows the
    database returns are inputs, and the model is what the functions do with
    them (index the villages by id, join the groundwater rows in, rename the
    tanker keys, merge a single village with its groundwater record). */
module Queries {
  import opened Common
  import opened Seqs
  import opened ServerData

  /** `{v["village_id"]: v for v in villages_res.data}`: a later row with the same id replaces an earlier one. */
  function Index(rows: seq<VillageRow>): (r: map<string, VillageRow>)
    ensures forall id :: id in r <==> exists i :: 0 <= i < |rows| && rows[i].villageId == id
    ensures forall id :: id in r ==> r[id].villageId == id && r[id] in rows
  {
    if rows == [] then map[]
    else
      var last := rows[|rows| - 1];
      var init := Index(rows[..|rows| - 1]);
      assert forall id :: id in init ==> init[id] in rows[..|rows| - 1];
      init[last.villageId := last]
  }

  /** The last row carrying an id is the one the index keeps. */
  lemma {:induction false} IndexKeepsLast(rows: seq<VillageRow>, i: int)
    requires 0 <= i < |rows|
    requires forall j :: i < j < |rows| ==> rows[j].villageId != rows[i].villageId
    ensures rows[i].villageId in Index(rows) && Index(rows)[rows[i].villageId] == rows[i]
    decreases |rows|
  {
    if i < |rows| - 1 {
      IndexKeepsLast(rows[..|rows| - 1], i);
    }
  }

  /** The record `get_all_villages_with_groundwater` builds from a village row and its groundwater row. */
  function JoinRow(v: VillageRow, g: GroundwaterRow): (r: Joined)
    ensures r.id == v.villageId && r.name == v.villageName && r.population == v.population
    ensures r.lat == v.lat && r.lng == v.lng && r.gwMaxCapacity == g.gwMaxCapacity
    ensures r.gwCurrentLevel == g.gwCurrentLevel && r.gwMinRequired == g.gwMinRequired && r.rainfallDevPct == g.rainfallDevPct
  {
    Joined(v.villageId, v.villageName, v.population, v.lat, v.lng,
           g.gwCurrentLevel, g.gwMinRequired, g.gwMaxCapacity, g.rainfallDevPct)
  }

  /** A groundwater row whose village is known. */
  function HasVillage(index: map<string, VillageRow>): GroundwaterRow -> bool {
    (g: GroundwaterRow) => g.villageId in index
  }

  /** The join in groundwater order: a groundwater row without a village is dropped. */
  function Join(index: map<string, VillageRow>, gws: seq<GroundwaterRow>): (r: seq<Joined>)
    ensures |r| <= |gws|
  {
    if gws == [] then []
    else
      var g := gws[|gws| - 1];
      Join(index, gws[..|gws| - 1]) + (if g.villageId in index then [JoinRow(index[g.villageId], g)] else [])
  }

  /** The join keeps exactly the groundwater rows with a known village, in order,
      each merged with that village. */
  lemma {:induction false} JoinIsFilterThenMerge(index: map<string, VillageRow>, gws: seq<GroundwaterRow>)
    ensures var kept := Filter(gws, HasVillage(index));
      |Join(index, gws)| == |kept|
      && forall k :: 0 <= k < |kept| ==> Join(index, gws)[k] == JoinRow(index[kept[k].villageId], kept[k])
    decreases |gws|
  {
    if gws != [] {
      var init := gws[..|gws| - 1];
      JoinIsFilterThenMerge(index, init);
      var kept := Filter(init, HasVillage(index));
      assert |Join(index, init)| == |kept|;
      assert forall k :: 0 <= k < |kept| ==> Join(index, init)[k] == JoinRow(index[kept[k].villageId], kept[k]);
    }
  }

  /** Every groundwater row whose village is known appears in the result. */
  lemma NothingKnownIsDropped(index: map<string, VillageRow>, gws: seq<GroundwaterRow>, j: int)
    requires 0 <= j < |gws| && gws[j].villageId in index
    ensures JoinRow(index[gws[j].villageId], gws[j]) in Join(index, gws)
  {
    FilterKeeps(gws, HasVillage(index), j);
    JoinIsFilterThenMerge(index, gws);
    var kept := Filter(gws, HasVillage(index));
    var k :| 0 <= k < |kept| && kept[k] == gws[j];
    assert Join(index, gws)[k] == JoinRow(index[gws[j].villageId], gws[j]);
  }

  /** Joined against the real index, each record is the village of its own groundwater row. */
  lemma JoinCarriesGroundwaterId(villageRows: seq<VillageRow>, gws: seq<GroundwaterRow>, k: int)
    requires 0 <= k < |Join(Index(villageRows), gws)|
    ensures var kept := Filter(gws, HasVillage(Index(villageRows)));
      k < |kept| && Join(Index(villageRows), gws)[k].id == kept[k].villageId
  {
    JoinIsFilterThenMerge(Index(villageRows), gws);
  }

  /** `get_all_villages_with_groundwater`, given the two tables' rows. */
  method GetAllVillagesWithGroundwater(villageRows: seq<VillageRow>, gwRows: seq<GroundwaterRow>) returns (results: seq<Joined>)
    ensures results == Join(Index(villageRows), gwRows)
    ensures |results| <= |gwRows|
  {
    var villages := Index(villageRows);
    results := [];
    var i := 0;
    while i < |gwRows|
      invariant 0 <= i <= |gwRows|
      invariant results == Join(villages, gwRows[..i])
    {
      var gw := gwRows[i];
      assert gwRows[..i + 1][..i] == gwRows[..i];
      if gw.villageId in villages {
        var v := villages[gw.villageId];
        results := results + [JoinRow(v, gw)];
      }
      i := i + 1;
    }
    assert gwRows[..i] == gwRows;
  }

  /** The tanker record renamed for the allocator. */
  function Normalise(t: TankerRow): (r: Tanker)
    ensures r.id == t.tankerId && r.capacityLiters == t.capacityLiters && r.status == t.status
  {
    Tanker(t.tankerId, t.capacityLiters, t.status)
  }

  /** The status filter the query applies. */
  function IsAvailable(t: TankerRow): bool {
    t.status == "Available"
  }

  /** `get_available_tankers`: the rows whose status is "Available", renamed, in table order. */
  function AvailableTankers(rows: seq<TankerRow>): (r: seq<Tanker>)
    ensures |r| <= |rows|
    ensures forall k :: 0 <= k < |r| ==> r[k].status == "Available"
    ensures forall k :: 0 <= k < |r| ==> exists j :: 0 <= j < |rows| && r[k] == Normalise(rows[j])
  {
    var kept := Filter(rows, IsAvailable);
    forall k | 0 <= k < |kept|
      ensures exists j :: 0 <= j < |rows| && kept[k] == rows[j]
    {
      FilterFrom(rows, IsAvailable, k);
    }
    Map(kept, Normalise)
  }

  /** The offered tankers follow table order: one per available row, each the
      renaming of its row, with the rows' relative order kept. */
  lemma AvailableInTableOrder(rows: seq<TankerRow>)
    ensures |AvailableTankers(rows)| == |Filter(rows, IsAvailable)|
    ensures Subseq(AvailableTankers(rows), Map(rows, Normalise))
  {
    FilterSubseq(rows, IsAvailable);
    MapSubseq(Filter(rows, IsAvailable), rows, Normalise);
  }

  /** Reading one more row appends its tanker exactly when it is available. */
  lemma AvailableTankersSnoc(rows: seq<TankerRow>, t: TankerRow)
    ensures AvailableTankers(rows + [t]) == AvailableTankers(rows) + (if t.status == "Available" then [Normalise(t)] else [])
  {
    FilterSnoc(rows, t, IsAvailable);
    var kept := Filter(rows, IsAvailable);
    if IsAvailable(t) {
      assert Map(kept + [t], Normalise)[..|kept|] == Map(kept, Normalise);
    }
  }

  /** Every available tanker in the table is offered to the allocator. */
  lemma EveryAvailableTankerOffered(rows: seq<TankerRow>, j: int)
    requires 0 <= j < |rows| && rows[j].status == "Available"
    ensures Normalise(rows[j]) in AvailableTankers(rows)
  {
    FilterKeeps(rows, IsAvailable, j);
    var kept := Filter(rows, IsAvailable);
    var k :| 0 <= k < |kept| && kept[k] == rows[j];
    assert AvailableTankers(rows)[k] == Normalise(rows[j]);
  }

  /** `get_village_by_id`, given what the two single-row lookups returned: no
      village gives None, and a village without groundwater data reads as
      all zeros. */
  function VillageById(v: Option<VillageRow>, gw: Option<GroundwaterRow>): (r: Option<Joined>)
    ensures r.None? <==> v.None?
    ensures v.Some? && gw.Some? ==> r == Some(JoinRow(v.value, gw.value))
    ensures v.Some? && gw.None? ==>
      r.value.id == v.value.villageId && r.value.name == v.value.villageName
      && r.value.gwCurrentLevel == 0.0 && r.value.gwMinRequired == 0.0
      && r.value.gwMaxCapacity == Some(0.0) && r.value.rainfallDevPct == 0.0
  {
    if v.None? then None
    else if gw.Some? then Some(JoinRow(v.value, gw.value))
    else Some(Joined(v.value.villageId, v.value.villageName, v.value.population, v.value.lat, v.value.lng,
                     0.0, 0.0, Some(0.0), 0.0))
  }
}
