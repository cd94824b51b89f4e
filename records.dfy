/** The record shapes the application keeps in the browser store and passes between
    components: the signed-in user (src/utils/auth.ts), a partial user used for profile
    edits, and a submitted report (the `ReportedItem` interface the three report pages share). */
module Records {

  datatype Option<+T> = None | Some(value: T)

  datatype Result<+T> = Success(value: T) | Failure(error: string)

  /** `User` of auth.ts. Reward points are a JavaScript number; the model keeps them as an
      unbounded integer. */
  datatype User = User(
    id: string,
    name: string,
    email: string,
    pincode: string,
    address: string,
    rewardPoints: int,
    createdAt: string)

  /** `Partial<User>`: `None` is a field that is absent from the object literal. */
  datatype UserPatch = UserPatch(
    id: Option<string>,
    name: Option<string>,
    email: Option<string>,
    pincode: Option<string>,
    address: Option<string>,
    rewardPoints: Option<int>,
    createdAt: Option<string>)

  /** A location picked on the report form. Coordinates are carried, never computed on. */
  datatype Location = Location(address: string, latitude: real, longitude: real)

  /** One submitted report. `kind` is the page's own label field: `wasteType` on the waste
      page, `floodType` on the flood page, `issueType` on the electricity page. */
  datatype ReportedItem = ReportedItem(
    id: string,
    image: string,
    kind: string,
    location: Location,
    comment: string,
    timestamp: string,
    points: int)
}
