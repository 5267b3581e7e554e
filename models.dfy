/** The plain records of the app: `Location`, `Event` and `User`. */
module Models {

  import opened Wrappers
  import opened SportTypes

  /** Coordinates are carried as values and never computed with. */
  datatype Location = Location(latitude: real, longitude: real, address: string, venueName: Option<string>)

  /** `date` is a timestamp in seconds; `currentParticipants` holds user ids. */
  datatype Event = Event(
    id: string,
    title: string,
    description: string,
    sportType: SportType,
    location: Location,
    date: int,
    maxParticipants: int,
    currentParticipants: seq<string>,
    creatorId: string)

  datatype User = User(id: string, username: string, email: string, profileImageURL: Option<string>)
}
