/** The rows and records the backend passes around as Python dicts, and the
    outcome of an HTTP endpoint. Database columns that may be NULL are options;
    the numeric groundwater columns are taken to be present. */
module ServerData {
  import opened Common

  /** A row of the `villages` table. */
  datatype VillageRow = VillageRow(villageId: string, villageName: string, population: int, lat: Option<real>, lng: Option<real>)

  /** A row of the `groundwater` table. */
  datatype GroundwaterRow = GroundwaterRow(villageId: string, gwMinRequired: real, gwMaxCapacity: Option<real>, gwCurrentLevel: real, rainfallDevPct: real)

  /** A row of the `tankers` table. */
  datatype TankerRow = TankerRow(tankerId: string, capacityLiters: real, status: string)

  /** A village joined with its groundwater record, keyed as the services read it
      (`id`, `name`, ...). */
  datatype Joined = Joined(
    id: string, name: string, population: int, lat: Option<real>, lng: Option<real>,
    gwCurrentLevel: real, gwMinRequired: real, gwMaxCapacity: Option<real>, rainfallDevPct: real)

  /** A tanker as the allocator reads it. */
  datatype Tanker = Tanker(id: string, capacityLiters: real, status: string)

  /** How an endpoint answers: a body, or an HTTP error with its status code and detail. */
  datatype Reply<+T> = Body(value: T) | Fail(status: nat, detail: string)
}
